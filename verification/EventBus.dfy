/** The session-scoped event bus as a protocol of locked steps: bounded history, bounded queues, close-once channels.
    Operations that take more than one lock are split into their steps, which may interleave in any order. */
module EventBus {
  import opened Basics

  const QUEUE_CAP := 64

  /** What the goroutine that won an unsubscription still has to do. */
  datatype Unsubscription = NotBegun | MustDetach | MustClose | Finished

  /** Registered in the session map; taken out of it with the closing of its channels still to come; closed down. */
  datatype Status = Registered | Removing | Removed

  /** A topic; `published` records every event ever published to it. */
  datatype Topic<T> = Topic(session: string, status: Status, subs: seq<nat>, history: seq<T>, published: seq<T>)

  /** A subscription: its topic, channel queue, flags, and how far its unsubscription is. Recorded besides: whether the
      topic's removal closed its channel, what was accepted into the channel and received from it, how many events were
      dropped, and the part published[start..stop] of the topic's events that it was due (stop counts once detached). */
  datatype Sub<T> = Sub(
    topic: nat,
    queue: seq<T>,
    closed: bool,
    channelClosed: bool,
    leaving: Unsubscription,
    swept: bool,
    accepted: seq<T>,
    received: seq<T>,
    drops: nat,
    start: nat,
    stop: nat)

  datatype State<T> = State(maxHistory: nat, sessions: map<string, nat>, topics: seq<Topic<T>>, subs: seq<Sub<T>>)

  // ----- the locked steps -----

  datatype Op<T> =
    | Resolve(sid: string)                    // look up or create a topic: first step of publishing and subscribing
    | PublishTo(topic: nat, event: T)
    | SubscribeTo(topic: nat, replay: bool)
    | Claim(sub: nat)                         // unsubscribe: win the closed flag,
    | Detach(sub: nat)                        //   leave the topic's list,
    | Close(sub: nat)                         //   close the channel
    | Unregister(sid: string)                 // remove a topic: take it out of the map,
    | Sweep(topic: nat)                       //   close its subscribers' channels
    | Receive(sub: nat)

  function Newest<T>(s: seq<T>, n: nat): seq<T> {
    if |s| <= n then s else s[|s| - n..]
  }

  function Oldest<T>(s: seq<T>, n: nat): seq<T> {
    if |s| <= n then s else s[..n]
  }

  /** A non-blocking send. */
  function Offer<T>(sub: Sub<T>, event: T): Sub<T> {
    if |sub.queue| < QUEUE_CAP then sub.(queue := sub.queue + [event], accepted := sub.accepted + [event])
    else sub.(drops := sub.drops + 1)
  }

  function FanOut<T>(subs: seq<Sub<T>>, list: seq<nat>, event: T): seq<Sub<T>> {
    seq(|subs|, u requires 0 <= u < |subs| => if u in list then Offer(subs[u], event) else subs[u])
  }

  function SweepOne<T>(sub: Sub<T>): Sub<T> {
    if sub.closed then sub else sub.(closed := true, channelClosed := true, swept := true)
  }

  function SweepAll<T>(subs: seq<Sub<T>>, list: seq<nat>): seq<Sub<T>> {
    seq(|subs|, u requires 0 <= u < |subs| => if u in list then SweepOne(subs[u]) else subs[u])
  }

  function NewTopic<T>(sid: string): Topic<T> {
    Topic(sid, Registered, [], [], [])
  }

  function NewSub<T>(t: nat, topic: Topic<T>, replay: bool): Sub<T> {
    var replayed := if replay then topic.history else [];
    var queue := Oldest(replayed, QUEUE_CAP);
    Sub(t, queue, false, false, NotBegun, false, queue, [], |replayed| - |queue|,
        if |replayed| <= |topic.published| then |topic.published| - |replayed| else 0, 0)
  }

  function Remembered<T>(history: seq<T>, event: T, maxHistory: nat): seq<T> {
    if maxHistory > 0 then Newest(history + [event], maxHistory) else history
  }

  /** A send or a close hits a closed channel: the program panics. */
  ghost predicate Panics<T>(s: State<T>, op: Op<T>) {
    match op
    case PublishTo(t, _) => t < |s.topics| && exists u :: u in s.topics[t].subs && u < |s.subs| && s.subs[u].channelClosed
    case Close(u) => u < |s.subs| && s.subs[u].leaving.MustClose? && s.subs[u].channelClosed
    case _ => false
  }

  /** The steps that do not panic; one that no goroutine is in a position to take changes nothing. */
  function Step<T>(s: State<T>, op: Op<T>): State<T> {
    match op
    case Resolve(sid) =>
      if sid in s.sessions then s
      else s.(topics := s.topics + [NewTopic(sid)], sessions := s.sessions[sid := |s.topics|])
    case PublishTo(t, event) =>
      if t >= |s.topics| then s
      else
        var topic := s.topics[t];
        s.(topics := s.topics[t := topic.(history := Remembered(topic.history, event, s.maxHistory), published := topic.published + [event])],
           subs := FanOut(s.subs, topic.subs, event))
    case SubscribeTo(t, replay) =>
      if t >= |s.topics| then s
      else
        s.(topics := s.topics[t := s.topics[t].(subs := s.topics[t].subs + [|s.subs|])],
           subs := s.subs + [NewSub(t, s.topics[t], replay)])
    case Claim(u) =>
      if u >= |s.subs| || s.subs[u].closed then s
      else s.(subs := s.subs[u := s.subs[u].(closed := true, leaving := MustDetach)])
    case Detach(u) =>
      if u >= |s.subs| || !s.subs[u].leaving.MustDetach? || s.subs[u].topic >= |s.topics| then s
      else
        var t := s.subs[u].topic;
        s.(topics := s.topics[t := s.topics[t].(subs := RemoveFirst(s.topics[t].subs, u))],
           subs := s.subs[u := s.subs[u].(leaving := MustClose, stop := |s.topics[t].published|)])
    case Close(u) =>
      if u >= |s.subs| || !s.subs[u].leaving.MustClose? then s
      else s.(subs := s.subs[u := s.subs[u].(channelClosed := true, leaving := Finished)])
    case Unregister(sid) =>
      if sid !in s.sessions || s.sessions[sid] >= |s.topics| then s
      else
        var t := s.sessions[sid];
        s.(sessions := s.sessions - {sid}, topics := s.topics[t := s.topics[t].(status := Removing)])
    case Sweep(t) =>
      if t >= |s.topics| || !s.topics[t].status.Removing? then s
      else
        s.(topics := s.topics[t := s.topics[t].(status := Removed)], subs := SweepAll(s.subs, s.topics[t].subs))
    case Receive(u) =>
      if u >= |s.subs| || s.subs[u].queue == [] then s
      else s.(subs := s.subs[u := s.subs[u].(queue := s.subs[u].queue[1..], received := s.subs[u].received + [s.subs[u].queue[0]])])
  }

  // ----- what every interleaving keeps -----

  predicate Subsequence<T(==)>(a: seq<T>, b: seq<T>)
    decreases |b|
  {
    a == [] || (b != [] && (Subsequence(a, b[..|b| - 1]) ||
                            (a[|a| - 1] == b[|b| - 1] && Subsequence(a[..|a| - 1], b[..|b| - 1]))))
  }

  /** The map holds exactly the registered topics, each under its own session. */
  ghost predicate Registry<T>(sessions: map<string, nat>, topics: seq<Topic<T>>) {
    && (forall sid :: sid in sessions ==> sessions[sid] < |topics|)
    && forall t, sid :: 0 <= t < |topics| ==> (topics[t].status.Registered? && topics[t].session == sid <==> sid in sessions && sessions[sid] == t)
  }

  /** The history is the newest maxHistory of the published events; the list names each subscription once. */
  ghost predicate TopicOk<T>(topic: Topic<T>, t: nat, subs: seq<Sub<T>>, maxHistory: nat) {
    && topic.history == Newest(topic.published, maxHistory)
    && Distinct(topic.subs)
    && forall u :: u in topic.subs ==> u < |subs| && subs[u].topic == t
  }

  /** Where what the subscription is due ends. */
  function Due<T>(sub: Sub<T>, topic: Topic<T>): nat {
    if sub.leaving.MustClose? || sub.leaving.Finished? then sub.stop else |topic.published|
  }

  /** What was accepted is a subsequence of what was due, one event short for every drop. */
  ghost predicate Delivered<T>(sub: Sub<T>, topic: Topic<T>) {
    && sub.start <= Due(sub, topic) <= |topic.published|
    && Subsequence(sub.accepted, topic.published[sub.start..Due(sub, topic)])
    && |sub.accepted| + sub.drops == Due(sub, topic) - sub.start
    && sub.accepted == sub.received + sub.queue
    && |sub.queue| <= QUEUE_CAP
  }

  /** The channel is closed by whoever won the flag, and by nobody else. */
  predicate CloseOnce<T>(sub: Sub<T>) {
    && (sub.closed <==> sub.swept || sub.leaving != NotBegun)
    && (sub.channelClosed <==> sub.swept || sub.leaving == Finished)
    && !(sub.swept && sub.leaving != NotBegun)
  }

  ghost predicate SubOk<T>(sub: Sub<T>, u: nat, topics: seq<Topic<T>>) {
    && sub.topic < |topics|
    && (u in topics[sub.topic].subs <==> sub.leaving.NotBegun? || sub.leaving.MustDetach?)
    && (sub.swept ==> topics[sub.topic].status.Removed?)
    && CloseOnce(sub)
    && Delivered(sub, topics[sub.topic])
  }

  ghost predicate TopicsOk<T>(s: State<T>) {
    forall t :: 0 <= t < |s.topics| ==> TopicOk(s.topics[t], t, s.subs, s.maxHistory)
  }

  ghost predicate SubsOk<T>(s: State<T>) {
    forall u :: 0 <= u < |s.subs| ==> SubOk(s.subs[u], u, s.topics)
  }

  ghost predicate Inv<T>(s: State<T>) {
    Registry(s.sessions, s.topics) && TopicsOk(s) && SubsOk(s)
  }

  function Empty<T>(maxHistory: nat): State<T> {
    State(maxHistory, map[], [], [])
  }

  lemma EmptyOk<T>(maxHistory: nat)
    ensures Inv(Empty<T>(maxHistory))
  {
  }

  // ----- subsequences -----

  lemma SubsequenceSkip<T>(a: seq<T>, b: seq<T>, x: T)
    requires Subsequence(a, b)
    ensures Subsequence(a, b + [x])
  {
    assert (b + [x])[..|b|] == b;
  }

  lemma SubsequenceTake<T>(a: seq<T>, b: seq<T>, x: T)
    requires Subsequence(a, b)
    ensures Subsequence(a + [x], b + [x])
  {
    assert (b + [x])[..|b|] == b && (a + [x])[..|a|] == a;
  }

  lemma {:induction false} SubsequencePrefix<T>(b: seq<T>, n: nat)
    requires n <= |b|
    ensures Subsequence(b[..n], b)
    decreases |b|
  {
    if n < |b| {
      SubsequencePrefix(b[..|b| - 1], n);
      assert b[..|b| - 1][..n] == b[..n];
    } else if b != [] {
      SubsequencePrefix(b[..|b| - 1], n - 1);
      assert b[..n][..n - 1] == b[..|b| - 1][..n - 1];
    }
  }

  /** A subsequence that is not shorter is the sequence itself. */
  lemma {:induction false} SubsequenceWhole<T>(a: seq<T>, b: seq<T>)
    requires Subsequence(a, b)
    ensures |a| <= |b| && (|a| == |b| ==> a == b)
    decreases |b|
  {
    if a != [] {
      if Subsequence(a, b[..|b| - 1]) {
        SubsequenceWhole(a, b[..|b| - 1]);
      } else {
        SubsequenceWhole(a[..|a| - 1], b[..|b| - 1]);
        assert a == a[..|a| - 1] + [a[|a| - 1]] && b == b[..|b| - 1] + [b[|b| - 1]];
      }
    }
  }

  // ----- each step keeps the invariant -----

  lemma RememberedIsNewest<T>(published: seq<T>, event: T, maxHistory: nat)
    ensures Remembered(Newest(published, maxHistory), event, maxHistory) == Newest(published + [event], maxHistory)
  {
  }

  lemma OfferDelivers<T>(sub: Sub<T>, topic: Topic<T>, topic': Topic<T>, event: T)
    requires Delivered(sub, topic) && topic'.published == topic.published + [event]
    requires sub.leaving.NotBegun? || sub.leaving.MustDetach?
    ensures Delivered(Offer(sub, event), topic')
  {
    hide Subsequence;
    var due := topic.published[sub.start..|topic.published|];
    SliceSnoc(topic.published, event, sub.start);
    if |sub.queue| < QUEUE_CAP {
      SubsequenceTake(sub.accepted, due, event);
    } else {
      SubsequenceSkip(sub.accepted, due, event);
    }
  }

  lemma SliceSnoc<T>(s: seq<T>, x: T, start: nat)
    requires start <= |s|
    ensures (s + [x])[start..|s| + 1] == s[start..|s|] + [x]
  {
  }

  lemma DetachedDelivered<T>(sub: Sub<T>, topic: Topic<T>, topic': Topic<T>, event: T)
    requires Delivered(sub, topic) && topic'.published == topic.published + [event]
    requires sub.leaving.MustClose? || sub.leaving.Finished?
    ensures Delivered(sub, topic')
  {
    assert topic'.published[sub.start..sub.stop] == topic.published[sub.start..sub.stop];
  }

  lemma PublishKeepsInv<T>(s: State<T>, t: nat, event: T)
    requires Inv(s) && t < |s.topics|
    ensures Inv(Step(s, PublishTo(t, event)))
  {
    hide SubOk, TopicOk, Newest, Remembered, Offer;
    var s' := Step(s, PublishTo(t, event));
    forall u | 0 <= u < |s'.subs| ensures SubOk(s'.subs[u], u, s'.topics) {
      assert SubOk(s.subs[u], u, s.topics) && TopicOk(s.topics[t], t, s.subs, s.maxHistory);
      PublishKeepsSub(s.subs[u], u, s.topics, s'.topics, t, event, s.subs, s.maxHistory);
    }
    forall k | 0 <= k < |s'.topics| ensures TopicOk(s'.topics[k], k, s'.subs, s'.maxHistory) {
      assert TopicOk(s.topics[k], k, s.subs, s.maxHistory);
      OfferedTopics(s.subs, s.topics[t].subs, event);
      PublishKeepsTopic(s.topics[k], s'.topics[k], k, s.subs, s'.subs, s.maxHistory, event);
    }
  }

  lemma OfferedTopics<T>(subs: seq<Sub<T>>, list: seq<nat>, event: T)
    ensures forall u :: 0 <= u < |subs| ==> FanOut(subs, list, event)[u].topic == subs[u].topic
  {
  }

  lemma PublishKeepsTopic<T>(topic: Topic<T>, topic': Topic<T>, k: nat, subs: seq<Sub<T>>, subs': seq<Sub<T>>, maxHistory: nat, event: T)
    requires TopicOk(topic, k, subs, maxHistory)
    requires |subs'| == |subs| && forall u :: 0 <= u < |subs| ==> subs'[u].topic == subs[u].topic
    requires topic' == topic || topic' == topic.(history := Remembered(topic.history, event, maxHistory),
                                                published := topic.published + [event])
    ensures TopicOk(topic', k, subs', maxHistory)
  {
    hide Newest, Remembered;
    RememberedIsNewest(topic.published, event, maxHistory);
  }

  lemma PublishKeepsSub<T>(sub: Sub<T>, u: nat, topics: seq<Topic<T>>, topics': seq<Topic<T>>, t: nat, event: T,
                           subs: seq<Sub<T>>, maxHistory: nat)
    requires SubOk(sub, u, topics) && t < |topics| == |topics'| && TopicOk(topics[t], t, subs, maxHistory)
    requires u < |subs| && subs[u] == sub
    requires topics' == topics[t := topics[t].(history := topics'[t].history, published := topics[t].published + [event])]
    ensures SubOk(if u in topics[t].subs then Offer(sub, event) else sub, u, topics')
  {
    hide Delivered, Newest, CloseOnce, Distinct, Offer;
    if sub.topic == t {
      if u in topics[t].subs {
        OfferDelivers(sub, topics[t], topics'[t], event);
        OfferKeepsFlags(sub, event);
      } else {
        DetachedDelivered(sub, topics[t], topics'[t], event);
      }
    }
  }

  lemma OfferKeepsFlags<T>(sub: Sub<T>, event: T)
    requires CloseOnce(sub)
    ensures CloseOnce(Offer(sub, event)) && Offer(sub, event).topic == sub.topic
    ensures Offer(sub, event).leaving == sub.leaving && Offer(sub, event).swept == sub.swept
  {
  }

  lemma NewSubOk<T>(t: nat, topic: Topic<T>, replay: bool, maxHistory: nat)
    requires topic.history == Newest(topic.published, maxHistory)
    ensures var sub := NewSub(t, topic, replay);
            && Delivered(sub, topic) && CloseOnce(sub)
            && sub.topic == t && sub.leaving == NotBegun && !sub.swept
  {
    var sub := NewSub(t, topic, replay);
    var replayed := if replay then topic.history else [];
    assert topic.published[sub.start..|topic.published|] == replayed;
    SubsequencePrefix(replayed, |sub.queue|);
    assert sub.queue == replayed[..|sub.queue|];
  }

  lemma SubscribeKeepsInv<T>(s: State<T>, t: nat, replay: bool)
    requires Inv(s) && t < |s.topics|
    ensures Inv(Step(s, SubscribeTo(t, replay)))
  {
    hide Newest, CloseOnce, Distinct, Delivered, NewSub;
    var s' := Step(s, SubscribeTo(t, replay));
    var sub := NewSub(t, s.topics[t], replay);
    assert TopicOk(s.topics[t], t, s.subs, s.maxHistory);
    DistinctSnoc<nat>(s.topics[t].subs, |s.subs|);
    NewSubOk(t, s.topics[t], replay, s.maxHistory);
    SameDelivered(sub, s.topics[t], s'.topics[t]);
    forall u | 0 <= u < |s'.subs| ensures SubOk(s'.subs[u], u, s'.topics) {
      if u < |s.subs| {
        assert SubOk(s.subs[u], u, s.topics);
        SameDelivered(s.subs[u], s.topics[s.subs[u].topic], s'.topics[s.subs[u].topic]);
      }
    }
    forall k | 0 <= k < |s'.topics| ensures TopicOk(s'.topics[k], k, s'.subs, s'.maxHistory) {
      assert TopicOk(s.topics[k], k, s.subs, s.maxHistory);
    }
  }

  lemma ClaimKeepsInv<T>(s: State<T>, u: nat)
    requires Inv(s)
    ensures Inv(Step(s, Claim(u)))
  {
    hide Newest, Subsequence, Distinct;
    var s' := Step(s, Claim(u));
    forall k | 0 <= k < |s'.subs| ensures SubOk(s'.subs[k], k, s'.topics) {
      assert SubOk(s.subs[k], k, s.topics);
    }
    forall k | 0 <= k < |s'.topics| ensures TopicOk(s'.topics[k], k, s'.subs, s'.maxHistory) {
      assert TopicOk(s.topics[k], k, s.subs, s.maxHistory);
    }
  }

  lemma DetachedOk<T>(sub: Sub<T>, topic: Topic<T>, sub': Sub<T>, topic': Topic<T>)
    requires Delivered(sub, topic) && CloseOnce(sub) && sub.leaving.MustDetach? && topic'.published == topic.published
    requires sub' == sub.(leaving := MustClose, stop := |topic.published|)
    ensures Delivered(sub', topic') && CloseOnce(sub')
  {
  }

  lemma DetachKeepsInv<T>(s: State<T>, u: nat)
    requires Inv(s)
    ensures Inv(Step(s, Detach(u)))
  {
    hide Newest, Subsequence, Distinct, RemoveFirst;
    var s' := Step(s, Detach(u));
    if s' != s {
      var t := s.subs[u].topic;
      assert SubOk(s.subs[u], u, s.topics) && TopicOk(s.topics[t], t, s.subs, s.maxHistory);
      RemoveFirstMembers(s.topics[t].subs, u);
      DetachedOk(s.subs[u], s.topics[t], s'.subs[u], s'.topics[t]);
      hide Delivered, CloseOnce;
      forall k | 0 <= k < |s'.subs| ensures SubOk(s'.subs[k], k, s'.topics) {
        assert SubOk(s.subs[k], k, s.topics);
        if k != u {
          SameDelivered(s.subs[k], s.topics[s.subs[k].topic], s'.topics[s.subs[k].topic]);
        }
      }
      forall k | 0 <= k < |s'.topics| ensures TopicOk(s'.topics[k], k, s'.subs, s'.maxHistory) {
        assert TopicOk(s.topics[k], k, s.subs, s.maxHistory);
      }
    }
  }

  lemma CloseKeepsInv<T>(s: State<T>, u: nat)
    requires Inv(s)
    ensures Inv(Step(s, Close(u))) && !Panics(s, Close(u))
  {
    hide Newest, Subsequence, Distinct;
    var s' := Step(s, Close(u));
    if u < |s.subs| {
      assert SubOk(s.subs[u], u, s.topics);
    }
    forall k | 0 <= k < |s'.subs| ensures SubOk(s'.subs[k], k, s'.topics) {
      assert SubOk(s.subs[k], k, s.topics);
    }
    forall k | 0 <= k < |s'.topics| ensures TopicOk(s'.topics[k], k, s'.subs, s'.maxHistory) {
      assert TopicOk(s.topics[k], k, s.subs, s.maxHistory);
    }
  }

  lemma SweepOneOk<T>(sub: Sub<T>, topic: Topic<T>, topic': Topic<T>)
    requires CloseOnce(sub) && Delivered(sub, topic) && topic'.published == topic.published
    ensures var sub' := SweepOne(sub);
            && CloseOnce(sub') && Delivered(sub', topic') && sub'.topic == sub.topic && sub'.leaving == sub.leaving
            && (sub'.swept ==> sub.swept || sub'.closed)
  {
  }

  lemma SweptSubOk<T>(sub: Sub<T>, u: nat, topics: seq<Topic<T>>, t: nat)
    requires SubOk(sub, u, topics) && t < |topics| && (u in topics[t].subs ==> sub.topic == t)
    ensures var topics' := topics[t := topics[t].(status := Removed)];
            SubOk(if u in topics[t].subs then SweepOne(sub) else sub, u, topics')
  {
    hide Delivered, CloseOnce, SweepOne;
    var topics' := topics[t := topics[t].(status := Removed)];
    SameDelivered(sub, topics[sub.topic], topics'[sub.topic]);
    SweepOneOk(sub, topics[sub.topic], topics'[sub.topic]);
  }

  lemma SweepKeepsInv<T>(s: State<T>, t: nat)
    requires Inv(s)
    ensures Inv(Step(s, Sweep(t)))
  {
    hide SubOk, TopicOk, SweepOne;
    var s' := Step(s, Sweep(t));
    if s' != s {
      var list := s.topics[t].subs;
      forall k | 0 <= k < |s'.subs| ensures SubOk(s'.subs[k], k, s'.topics) {
        assert SubOk(s.subs[k], k, s.topics) && TopicOk(s.topics[t], t, s.subs, s.maxHistory);
        ListedTopic(s.topics[t], t, s.subs, s.maxHistory, k);
        SweptSubOk(s.subs[k], k, s.topics, t);
      }
      forall k | 0 <= k < |s'.topics| ensures TopicOk(s'.topics[k], k, s'.subs, s'.maxHistory) {
        assert TopicOk(s.topics[k], k, s.subs, s.maxHistory);
        SweptTopics(s.subs, list);
        SameTopic(s.topics[k], s'.topics[k], k, s.subs, s'.subs, s.maxHistory);
      }
    }
  }

  lemma ListedTopic<T>(topic: Topic<T>, t: nat, subs: seq<Sub<T>>, maxHistory: nat, u: nat)
    requires TopicOk(topic, t, subs, maxHistory) && u < |subs|
    ensures u in topic.subs ==> subs[u].topic == t
  {
  }

  lemma SweptTopics<T>(subs: seq<Sub<T>>, list: seq<nat>)
    ensures forall u :: 0 <= u < |subs| ==> SweepAll(subs, list)[u].topic == subs[u].topic
  {
  }

  lemma SameTopic<T>(topic: Topic<T>, topic': Topic<T>, k: nat, subs: seq<Sub<T>>, subs': seq<Sub<T>>, maxHistory: nat)
    requires TopicOk(topic, k, subs, maxHistory) && topic' == topic.(status := topic'.status)
    requires |subs'| == |subs| && forall u :: 0 <= u < |subs| ==> subs'[u].topic == subs[u].topic
    ensures TopicOk(topic', k, subs', maxHistory)
  {
    hide Newest, Distinct;
  }

  lemma SameDelivered<T>(sub: Sub<T>, topic: Topic<T>, topic': Topic<T>)
    requires Delivered(sub, topic) && topic'.published == topic.published
    ensures Delivered(sub, topic')
  {
  }

  lemma ReceiveKeepsInv<T>(s: State<T>, u: nat)
    requires Inv(s)
    ensures Inv(Step(s, Receive(u)))
  {
    hide Newest, Subsequence, Distinct;
    var s' := Step(s, Receive(u));
    if s' != s {
      assert [s.subs[u].queue[0]] + s.subs[u].queue[1..] == s.subs[u].queue;
      forall k | 0 <= k < |s'.subs| ensures SubOk(s'.subs[k], k, s'.topics) {
        assert SubOk(s.subs[k], k, s.topics);
      }
      forall k | 0 <= k < |s'.topics| ensures TopicOk(s'.topics[k], k, s'.subs, s'.maxHistory) {
        assert TopicOk(s.topics[k], k, s.subs, s.maxHistory);
      }
    }
  }

  lemma ResolveKeepsInv<T>(s: State<T>, sid: string)
    requires Inv(s)
    ensures Inv(Step(s, Resolve(sid)))
    ensures var s' := Step(s, Resolve(sid));
            sid in s'.sessions && s'.sessions[sid] < |s'.topics| && s'.topics[s'.sessions[sid]].status == Registered
  {
    hide Subsequence;
    var s' := Step(s, Resolve(sid));
    if s' != s {
      forall k | 0 <= k < |s'.subs| ensures SubOk(s'.subs[k], k, s'.topics) {
        assert SubOk(s.subs[k], k, s.topics);
      }
      forall k | 0 <= k < |s'.topics| ensures TopicOk(s'.topics[k], k, s'.subs, s'.maxHistory) {
        if k < |s.topics| {
          assert TopicOk(s.topics[k], k, s.subs, s.maxHistory);
        }
      }
    }
  }

  lemma UnregisterKeepsInv<T>(s: State<T>, sid: string)
    requires Inv(s)
    ensures Inv(Step(s, Unregister(sid)))
  {
    hide Newest, Subsequence, Distinct;
    var s' := Step(s, Unregister(sid));
    if s' != s {
      var t := s.sessions[sid];
      assert s.topics[t].status.Registered? && s.topics[t].session == sid;
      forall k | 0 <= k < |s'.subs| ensures SubOk(s'.subs[k], k, s'.topics) {
        assert SubOk(s.subs[k], k, s.topics);
      }
      forall k | 0 <= k < |s'.topics| ensures TopicOk(s'.topics[k], k, s'.subs, s'.maxHistory) {
        assert TopicOk(s.topics[k], k, s.subs, s.maxHistory);
      }
    }
  }

  lemma StepKeepsInv<T>(s: State<T>, op: Op<T>)
    requires Inv(s)
    ensures Inv(Step(s, op))
  {
    hide *;
    match op
    case Resolve(sid) => ResolveKeepsInv(s, sid);
    case PublishTo(t, event) => PublishAnyKeepsInv(s, t, event);
    case SubscribeTo(t, replay) => SubscribeAnyKeepsInv(s, t, replay);
    case Claim(u) => ClaimKeepsInv(s, u);
    case Detach(u) => DetachKeepsInv(s, u);
    case Close(u) => CloseKeepsInv(s, u);
    case Unregister(sid) => UnregisterKeepsInv(s, sid);
    case Sweep(t) => SweepKeepsInv(s, t);
    case Receive(u) => ReceiveKeepsInv(s, u);
  }

  lemma PublishAnyKeepsInv<T>(s: State<T>, t: nat, event: T)
    requires Inv(s)
    ensures Inv(Step(s, PublishTo(t, event)))
  {
    hide Inv;
    if t < |s.topics| {
      PublishKeepsInv(s, t, event);
    }
  }

  lemma SubscribeAnyKeepsInv<T>(s: State<T>, t: nat, replay: bool)
    requires Inv(s)
    ensures Inv(Step(s, SubscribeTo(t, replay)))
  {
    hide Inv;
    if t < |s.topics| {
      SubscribeKeepsInv(s, t, replay);
    }
  }

  // ----- runs -----

  function Run<T>(s: State<T>, ops: seq<Op<T>>): State<T>
    decreases |ops|
  {
    if ops == [] then s else Run(Step(s, ops[0]), ops[1..])
  }

  /** No step of the run panics. */
  ghost predicate Survives<T>(s: State<T>, ops: seq<Op<T>>)
    decreases |ops|
  {
    ops == [] || (!Panics(s, ops[0]) && Survives(Step(s, ops[0]), ops[1..]))
  }

  /** No event is published to a topic whose removal has been carried out. */
  ghost predicate NoStraddling<T>(s: State<T>, ops: seq<Op<T>>)
    decreases |ops|
  {
    ops == [] ||
    (&& (ops[0].PublishTo? && ops[0].topic < |s.topics| ==> !s.topics[ops[0].topic].status.Removed?)
     && NoStraddling(Step(s, ops[0]), ops[1..]))
  }

  /** When a step panics: never when it closes a channel, and when it publishes iff a subscriber still listed had its
      channel closed by the topic's removal. */
  lemma PanicsIff<T>(s: State<T>, op: Op<T>)
    requires Inv(s)
    ensures Panics(s, op) <==> op.PublishTo? && op.topic < |s.topics| && Swept(s, op.topic)
    ensures Panics(s, op) ==> s.topics[op.topic].status.Removed? && op.topic !in s.sessions.Values
  {
    hide Delivered, TopicsOk, Subsequence;
    match op
    case PublishTo(t, _) =>
      if t < |s.topics| {
        forall u | u in s.topics[t].subs && u < |s.subs| ensures s.subs[u].channelClosed <==> s.subs[u].swept {
          ListedSub(s, t, u);
        }
        if Swept(s, t) {
          var u :| u in s.topics[t].subs && u < |s.subs| && s.subs[u].swept;
          ListedSub(s, t, u);
          assert s.subs[u].channelClosed;
        }
      }
    case Close(u) => CloseKeepsInv(s, u);
    case _ =>
  }

  lemma ListedSub<T>(s: State<T>, t: nat, u: nat)
    requires TopicsOk(s) && SubsOk(s) && t < |s.topics| && u in s.topics[t].subs
    ensures u < |s.subs| && s.subs[u].topic == t && (s.subs[u].channelClosed <==> s.subs[u].swept)
    ensures s.subs[u].swept ==> s.topics[t].status.Removed?
  {
    hide Delivered;
    assert TopicOk(s.topics[t], t, s.subs, s.maxHistory);
    assert SubOk(s.subs[u], u, s.topics);
  }

  /** A subscriber on the topic's list had its channel closed by the topic's removal. */
  ghost predicate Swept<T>(s: State<T>, t: nat)
    requires t < |s.topics|
  {
    exists u :: u in s.topics[t].subs && u < |s.subs| && s.subs[u].swept
  }

  /** Such a subscriber never leaves the list, so every later publish to the topic panics. */
  lemma SweptStays<T>(s: State<T>, op: Op<T>, t: nat)
    requires Inv(s) && t < |s.topics| && Swept(s, t)
    ensures t < |Step(s, op).topics| && Swept(Step(s, op), t)
  {
    hide Delivered, Newest, Distinct, Registry, Step;
    var u :| u in s.topics[t].subs && u < |s.subs| && s.subs[u].swept;
    ListedSub(s, t, u);
    assert SubOk(s.subs[u], u, s.topics) && TopicOk(s.topics[t], t, s.subs, s.maxHistory);
    SweptSubStays(s, op, t, u);
  }

  lemma SweptSubStays<T>(s: State<T>, op: Op<T>, t: nat, u: nat)
    requires t < |s.topics| && u < |s.subs| && u in s.topics[t].subs && Distinct(s.topics[t].subs)
    requires s.subs[u].swept && s.subs[u].leaving.NotBegun? && s.subs[u].closed
    ensures var s' := Step(s, op); t < |s'.topics| && u in s'.topics[t].subs && u < |s'.subs| && s'.subs[u].swept
  {
    hide Newest, Distinct, RemoveFirst, NewSub, Remembered;
    if op.Detach? {
      RemoveFirstMembers(s.topics[t].subs, op.sub);
    }
  }

  lemma StepKeepsLimit<T>(s: State<T>, op: Op<T>)
    ensures Step(s, op).maxHistory == s.maxHistory
  {
  }

  lemma {:induction false} AfterSweepEveryPublishPanics<T>(s: State<T>, ops: seq<Op<T>>, t: nat, event: T)
    requires Inv(s) && t < |s.topics| && Swept(s, t)
    ensures Panics(Run(s, ops), PublishTo(t, event))
    decreases |ops|
  {
    hide Inv, Swept, Panics, Step;
    if ops == [] {
      PanicsIff(s, PublishTo(t, event));
    } else {
      StepKeepsInv(s, ops[0]);
      SweptStays(s, ops[0], t);
      AfterSweepEveryPublishPanics(Step(s, ops[0]), ops[1..], t, event);
    }
  }

  /** The invariant holds in every state of every interleaving; runs in which no publish straddles a removal never
      panic. */
  lemma {:induction false} RunsAreSafe<T>(s: State<T>, ops: seq<Op<T>>)
    requires Inv(s)
    ensures Inv(Run(s, ops)) && Run(s, ops).maxHistory == s.maxHistory
    ensures NoStraddling(s, ops) ==> Survives(s, ops)
    decreases |ops|
  {
    if ops != [] {
      hide Inv, Panics, Step;
      StepKeepsInv(s, ops[0]);
      StepKeepsLimit(s, ops[0]);
      PanicsIff(s, ops[0]);
      RunsAreSafe(Step(s, ops[0]), ops[1..]);
    }
  }

  /** Straddling does panic: a publish finds its topic, the topic is removed, the publish goes on. */
  lemma StraddlePanics<T>(event: T, maxHistory: nat)
    ensures !Survives(Empty(maxHistory), [Resolve("s"), SubscribeTo(0, true), Unregister("s"), Sweep(0), PublishTo(0, event)])
  {
    var s0: State<T> := Empty(maxHistory);
    var ops: seq<Op<T>> := [Resolve("s"), SubscribeTo(0, true), Unregister("s"), Sweep(0), PublishTo(0, event)];
    var s1 := Step(s0, ops[0]);
    var s2 := Step(s1, ops[1]);
    var s3 := Step(s2, ops[2]);
    var s4 := Step(s3, ops[3]);
    assert s2.topics[0].subs == [0] && |s2.subs| == 1 && !s2.subs[0].closed;
    assert s4.topics[0].subs == [0] && s4.subs[0].channelClosed;
    assert 0 in s4.topics[0].subs;
    assert Panics(s4, ops[4]);
    assert !Survives(s4, ops[4..]);
    assert ops[3..][1..] == ops[4..] && !Survives(s3, ops[3..]);
    assert ops[2..][1..] == ops[3..] && !Survives(s2, ops[2..]);
    assert ops[1..][1..] == ops[2..] && !Survives(s1, ops[1..]);
  }

  /** The events due begin where the history does at the time of subscribing: at that moment they are the history, or
      nothing for a live subscription. */
  lemma DueFromHistory<T>(s: State<T>, t: nat, replay: bool)
    requires Inv(s) && t < |s.topics|
    ensures var s' := Step(s, SubscribeTo(t, replay));
            var sub := s'.subs[|s.subs|];
            && sub.topic == t && sub.start <= |s'.topics[t].published|
            && s'.topics[t].published[sub.start..] == if replay then s.topics[t].history else []
  {
    hide Subsequence, Distinct;
    assert TopicOk(s.topics[t], t, s.subs, s.maxHistory);
  }

  /** Afterwards their beginning stays where it is and the topic's events only grow at the end. */
  lemma {:induction false} DueStartFixed<T>(s: State<T>, ops: seq<Op<T>>, u: nat)
    requires u < |s.subs| && s.subs[u].topic < |s.topics|
    ensures var s' := Run(s, ops);
            && u < |s'.subs| && s'.subs[u].start == s.subs[u].start && s'.subs[u].topic == s.subs[u].topic < |s'.topics|
            && s.topics[s.subs[u].topic].published <= s'.topics[s.subs[u].topic].published
    decreases |ops|
  {
    if ops != [] {
      hide Step;
      StepFixesStart(s, ops[0], u);
      DueStartFixed(Step(s, ops[0]), ops[1..], u);
    }
  }

  lemma StepFixesStart<T>(s: State<T>, op: Op<T>, u: nat)
    requires u < |s.subs| && s.subs[u].topic < |s.topics|
    ensures var s' := Step(s, op);
            && u < |s'.subs| && s'.subs[u].start == s.subs[u].start && s'.subs[u].topic == s.subs[u].topic < |s'.topics|
            && s.topics[s.subs[u].topic].published <= s'.topics[s.subs[u].topic].published
  {
    hide Newest, Oldest, RemoveFirst, Remembered;
  }

  /** What a subscriber gets, in every state of every interleaving: received and queued events together are a
      subsequence of one unbroken stretch of the topic's events, from the history at the time of subscribing to the
      latest publish, and exactly that stretch iff its queue was never full. */
  lemma Delivery<T>(maxHistory: nat, ops: seq<Op<T>>, u: nat)
    requires u < |Run(Empty<T>(maxHistory), ops).subs|
    ensures var s := Run(Empty<T>(maxHistory), ops);
            var sub := s.subs[u];
            && sub.topic < |s.topics|
            && sub.start <= Due(sub, s.topics[sub.topic]) <= |s.topics[sub.topic].published|
            && var due := s.topics[sub.topic].published[sub.start..Due(sub, s.topics[sub.topic])];
               && Subsequence(sub.received + sub.queue, due)
               && |sub.queue| <= QUEUE_CAP
               && (sub.received + sub.queue == due <==> sub.drops == 0)
  {
    hide Step, Run, Subsequence, Registry, TopicsOk;
    var s := Run(Empty<T>(maxHistory), ops);
    EmptyOk<T>(maxHistory);
    RunsAreSafe(Empty<T>(maxHistory), ops);
    var sub := s.subs[u];
    assert SubOk(sub, u, s.topics);
    SubsequenceWhole(sub.accepted, s.topics[sub.topic].published[sub.start..Due(sub, s.topics[sub.topic])]);
  }

  /** A topic's history, in every state of every interleaving. */
  lemma HistoryIsNewest<T>(maxHistory: nat, ops: seq<Op<T>>, t: nat)
    requires t < |Run(Empty<T>(maxHistory), ops).topics|
    ensures var s := Run(Empty<T>(maxHistory), ops); s.topics[t].history == Newest(s.topics[t].published, maxHistory)
  {
    hide Step, Run, Registry, SubsOk, Newest;
    EmptyOk<T>(maxHistory);
    RunsAreSafe(Empty<T>(maxHistory), ops);
    assert TopicOk(Run(Empty<T>(maxHistory), ops).topics[t], t, Run(Empty<T>(maxHistory), ops).subs, Run(Empty<T>(maxHistory), ops).maxHistory);
  }

  /** Replaying a history that does not fit the queue: the oldest events are kept and the newest dropped; the replay is
      complete iff the history fits. */
  lemma ReplayKeepsOldest<T>(s: State<T>, t: nat)
    requires t < |s.topics|
    ensures var s' := Step(s, SubscribeTo(t, true));
            var h := s.topics[t].history;
            && |s'.subs| == |s.subs| + 1
            && s'.subs[|s.subs|].queue <= h
            && (s'.subs[|s.subs|].queue == h <==> |h| <= QUEUE_CAP)
            && (|h| > QUEUE_CAP ==> s'.subs[|s.subs|].queue == h[..QUEUE_CAP] && s'.subs[|s.subs|].drops == |h| - QUEUE_CAP)
  {
  }

  // ----- nothing is lost while there is room -----

  /** What a publish does to each subscriber: one on the topic's list gets the event at the end of its queue, or counts
      a drop if 64 events wait there already; nobody else notices. */
  lemma PublishReaches<T>(s: State<T>, t: nat, event: T, u: nat)
    requires t < |s.topics| && u < |s.subs|
    ensures var s' := Step(s, PublishTo(t, event)); |s'.subs| == |s.subs|
    ensures var s' := Step(s, PublishTo(t, event)); var sub, sub' := s.subs[u], s'.subs[u];
            if u !in s.topics[t].subs then sub' == sub
            else if |sub.queue| < 64 then
              sub' == sub.(queue := sub.queue + [event], accepted := sub.accepted + [event]) && sub'.drops == sub.drops
            else sub'.queue == sub.queue && sub'.drops == sub.drops + 1 && sub' == sub.(drops := sub'.drops)
  {
    hide Remembered, Newest;
  }

  /** Whenever an event is published to the subscription's topic, fewer than 64 wait in its queue. */
  ghost predicate KeepsUp<T>(s: State<T>, ops: seq<Op<T>>, u: nat)
    decreases |ops|
  {
    ops == [] || (RoomFor(s, ops[0], u) && KeepsUp(Step(s, ops[0]), ops[1..], u))
  }

  predicate RoomFor<T>(s: State<T>, op: Op<T>, u: nat) {
    op.PublishTo? && op.topic < |s.topics| && u in s.topics[op.topic].subs && u < |s.subs| ==> |s.subs[u].queue| < 64
  }

  lemma StepDrops<T>(s: State<T>, op: Op<T>, u: nat)
    requires u < |s.subs|
    ensures var s' := Step(s, op); u < |s'.subs| && s'.subs[u].drops >= s.subs[u].drops
    ensures var s' := Step(s, op); s'.subs[u].drops == s.subs[u].drops <==> RoomFor(s, op, u)
  {
    hide Remembered, Newest, RemoveFirst, NewSub;
    if op.PublishTo? && op.topic < |s.topics| {
      PublishReaches(s, op.topic, op.event, u);
    }
  }

  lemma {:induction false} RunDrops<T>(s: State<T>, ops: seq<Op<T>>, u: nat)
    requires u < |s.subs|
    ensures var s' := Run(s, ops); u < |s'.subs| && s'.subs[u].drops >= s.subs[u].drops
    ensures Run(s, ops).subs[u].drops == s.subs[u].drops <==> KeepsUp(s, ops, u)
    decreases |ops|
  {
    if ops != [] {
      hide Step, RoomFor;
      StepDrops(s, ops[0], u);
      RunDrops(Step(s, ops[0]), ops[1..], u);
    }
  }

  /** When a subscriber misses nothing, in every interleaving: iff the history it was to be replayed fitted its queue and
      fewer than 64 events were waiting at every publish. Then what it has received and what waits is all it was due. */
  lemma NothingMissedIff<T>(maxHistory: nat, before: seq<Op<T>>, t: nat, replay: bool, after: seq<Op<T>>)
    requires t < |Run(Empty<T>(maxHistory), before).topics|
    ensures var s := Run(Empty<T>(maxHistory), before);
            var u := |s.subs|;
            var s' := Step(s, SubscribeTo(t, replay));
            var end := Run(s', after);
            && u < |end.subs| && end.subs[u].topic < |end.topics|
            && var sub := end.subs[u];
               && sub.start <= Due(sub, end.topics[sub.topic]) <= |end.topics[sub.topic].published|
               && (sub.received + sub.queue == end.topics[sub.topic].published[sub.start..Due(sub, end.topics[sub.topic])] <==>
                    (replay ==> |s.topics[t].history| <= 64) && KeepsUp(s', after, u))
  {
    hide *;
    var s := Run(Empty<T>(maxHistory), before);
    var op: Op<T> := SubscribeTo(t, replay);
    Subscribed(s, t, replay);
    RunDrops(Step(s, op), after, |s.subs|);
    RunConcat(Empty<T>(maxHistory), before, [op] + after);
    RunHead(s, op, after);
    Delivery(maxHistory, before + ([op] + after), |s.subs|);
  }

  lemma Subscribed<T>(s: State<T>, t: nat, replay: bool)
    requires t < |s.topics|
    ensures var s' := Step(s, SubscribeTo(t, replay));
            |s'.subs| == |s.subs| + 1 && (s'.subs[|s.subs|].drops == 0 <==> (replay ==> |s.topics[t].history| <= 64)) &&
            s'.subs[|s.subs|].drops >= 0
  {
  }

  lemma RunHead<T>(s: State<T>, op: Op<T>, ops: seq<Op<T>>)
    ensures Run(s, [op] + ops) == Run(Step(s, op), ops)
  {
    hide Step;
    assert ([op] + ops)[1..] == ops;
  }

  lemma {:induction false} RunConcat<T>(s: State<T>, a: seq<Op<T>>, b: seq<Op<T>>)
    ensures Run(s, a + b) == Run(Run(s, a), b)
    decreases |a|
  {
    hide Step;
    if a == [] {
      assert a + b == b;
    } else {
      assert (a + b)[1..] == a[1..] + b;
      RunConcat(Step(s, a[0]), a[1..], b);
    }
  }

  // ----- the bus -----

  class Bus<T> {
    const maxHistory: nat
    var sessions: map<string, nat>
    var topics: seq<Topic<T>>
    var subs: seq<Sub<T>>

    constructor (maxHistory: int)
      ensures this.maxHistory == if maxHistory < 0 then 0 else maxHistory
      ensures View() == Empty(this.maxHistory) && Inv(View())
    {
      this.maxHistory := if maxHistory < 0 then 0 else maxHistory;
      sessions, topics, subs := map[], [], [];
    }

    function View(): State<T>
      reads this
    {
      State(maxHistory, sessions, topics, subs)
    }

    /** Finds the session's topic, creating it if there is none. */
    method ResolveTopic(sid: string) returns (t: nat)
      requires Inv(View())
      modifies this
      ensures View() == Step(old(View()), Resolve(sid)) && Inv(View())
      ensures t < |topics| && sid in sessions && sessions[sid] == t && topics[t].status == Registered
    {
      ResolveKeepsInv(View(), sid);
      if sid !in sessions {
        topics := topics + [NewTopic(sid)];
        sessions := sessions[sid := |topics| - 1];
      }
      t := sessions[sid];
    }

    /** Appends to the history and sends to every listed subscriber without blocking. Sending to a closed channel
        panics. */
    method PublishStep(t: nat, event: T) returns (panicked: bool)
      requires Inv(View()) && t < |topics|
      modifies this
      ensures panicked <==> Panics(old(View()), PublishTo(t, event))
      ensures !panicked ==> View() == Step(old(View()), PublishTo(t, event)) && Inv(View())
      // every listed subscriber with room gets the event, one without counts a drop, and the others are unchanged
      ensures !panicked ==> |subs| == |old(subs)| && forall u :: 0 <= u < |subs| ==>
                subs[u] == if u !in old(topics)[t].subs then old(subs)[u]
                           else if |old(subs)[u].queue| < 64 then
                             old(subs)[u].(queue := old(subs)[u].queue + [event], accepted := old(subs)[u].accepted + [event])
                           else old(subs)[u].(drops := old(subs)[u].drops + 1)
    {
      ghost var s := View();
      PublishAnyKeepsInv(s, t, event);
      assert TopicOk(topics[t], t, subs, maxHistory);
      hide Inv, Newest, Offer, FanOut, TopicOk;
      var topic := topics[t];
      var history := topic.history;
      if maxHistory > 0 {
        history := history + [event];
        if |history| > maxHistory {
          var n := |history| - maxHistory;
          history := history[n..];
        }
      }
      RememberedSteps(topic.history, event, maxHistory, history);
      topics := topics[t := topic.(history := history, published := topic.published + [event])];
      panicked := SendToAll(topic.subs, event);
      if !panicked {
        forall u | 0 <= u < |subs| && u < |s.subs| {
          PublishReaches(s, t, event, u);
        }
      }
    }

    /** Sends to the listed subscribers in order. */
    method SendToAll(list: seq<nat>, event: T) returns (panicked: bool)
      requires Distinct(list) && forall u :: u in list ==> u < |subs|
      modifies this`subs
      ensures panicked <==> exists u :: u in list && u < |old(subs)| && old(subs)[u].channelClosed
      ensures !panicked ==> subs == FanOut(old(subs), list, event)
    {
      hide Offer, Distinct;
      panicked := false;
      var i := 0;
      while i < |list|
        invariant 0 <= i <= |list| && !panicked && |subs| == |old(subs)|
        invariant forall u :: 0 <= u < |subs| ==> subs[u] == if u in list[..i] then Offer(old(subs)[u], event) else old(subs)[u]
        invariant forall u :: u in list[..i] && u < |old(subs)| ==> !old(subs)[u].channelClosed
      {
        var u := list[i];
        NotYet(list, i);
        assert list[..i + 1] == list[..i] + [u] && u in list;
        if subs[u].channelClosed {
          return true;
        }
        subs := subs[u := Offer(subs[u], event)];
        i := i + 1;
      }
      assert list[..|list|] == list;
    }

    /** Opens a channel, replays the history into it if asked to, and joins the topic's list. */
    method SubscribeStep(t: nat, replay: bool) returns (u: nat)
      requires Inv(View()) && t < |topics|
      modifies this
      ensures u == |old(subs)| && View() == Step(old(View()), SubscribeTo(t, replay)) && Inv(View())
    {
      SubscribeAnyKeepsInv(View(), t, replay);
      ghost var s := View();
      hide Inv;
      var topic := topics[t];
      var queue: seq<T> := [];
      ghost var drops := 0;
      if replay {
        for i := 0 to |topic.history|
          invariant queue == Oldest(topic.history[..i], QUEUE_CAP) && drops == i - |queue|
        {
          assert topic.history[..i + 1] == topic.history[..i] + [topic.history[i]];
          if |queue| < QUEUE_CAP {
            queue := queue + [topic.history[i]];
          } else {
            drops := drops + 1;
          }
        }
        assert topic.history[..|topic.history|] == topic.history;
      }
      u := |subs|;
      topics := topics[t := topic.(subs := topic.subs + [u])];
      assert queue == NewSub(t, topic, replay).queue;
      subs := subs + [NewSub(t, topic, replay).(queue := queue)];
      assert subs[u] == NewSub(t, topic, replay);
    }

    /** Wins or loses the right to close the channel. */
    method ClaimStep(u: nat) returns (won: bool)
      requires Inv(View()) && u < |subs|
      modifies this
      ensures won <==> !old(subs)[u].closed
      ensures View() == Step(old(View()), Claim(u)) && Inv(View())
    {
      ClaimKeepsInv(View(), u);
      won := !subs[u].closed;
      if won {
        subs := subs[u := subs[u].(closed := true, leaving := MustDetach)];
      }
    }

    /** Takes the subscription off its topic's list. */
    method DetachStep(u: nat)
      requires Inv(View()) && u < |subs| && subs[u].leaving == MustDetach
      modifies this
      ensures View() == Step(old(View()), Detach(u)) && Inv(View())
    {
      DetachKeepsInv(View(), u);
      assert SubOk(subs[u], u, topics);
      hide Inv, RemoveFirst;
      var t := subs[u].topic;
      var list := DropFirst(topics[t].subs, u);
      topics := topics[t := topics[t].(subs := list)];
      subs := subs[u := subs[u].(leaving := MustClose, stop := |topics[t].published|)];
    }

    /** Closes the channel; it is open. */
    method CloseStep(u: nat)
      requires Inv(View()) && u < |subs| && subs[u].leaving == MustClose
      modifies this
      ensures !old(subs)[u].channelClosed
      ensures View() == Step(old(View()), Close(u)) && Inv(View())
    {
      CloseKeepsInv(View(), u);
      subs := subs[u := subs[u].(channelClosed := true, leaving := Finished)];
    }

    /** Takes a topic out of the map. */
    method UnregisterStep(sid: string) returns (found: bool, t: nat)
      requires Inv(View())
      modifies this
      ensures found <==> sid in old(sessions)
      ensures found ==> t == old(sessions)[sid] && t < |topics| && topics[t].status == Removing
      ensures View() == Step(old(View()), Unregister(sid)) && Inv(View())
    {
      UnregisterKeepsInv(View(), sid);
      found, t := sid in sessions, 0;
      if found {
        t := sessions[sid];
        sessions := sessions - {sid};
        topics := topics[t := topics[t].(status := Removing)];
      }
    }

    /** Closes the channels of a removed topic's subscribers, except those that are being unsubscribed. */
    method SweepStep(t: nat)
      requires Inv(View()) && t < |topics| && topics[t].status == Removing
      modifies this
      ensures View() == Step(old(View()), Sweep(t)) && Inv(View())
    {
      ghost var s := View();
      SweepKeepsInv(s, t);
      assert TopicOk(topics[t], t, subs, maxHistory);
      hide Inv, Newest, SweepAll, TopicOk;
      var list := topics[t].subs;
      topics := topics[t := topics[t].(status := Removed)];
      CloseAll(list);
    }

    method CloseAll(list: seq<nat>)
      requires Distinct(list) && forall u :: u in list ==> u < |subs|
      modifies this`subs
      ensures subs == SweepAll(old(subs), list)
    {
      hide SweepOne, Distinct;
      var i := 0;
      while i < |list|
        invariant 0 <= i <= |list| && |subs| == |old(subs)|
        invariant forall u :: 0 <= u < |subs| ==> subs[u] == if u in list[..i] then SweepOne(old(subs)[u]) else old(subs)[u]
      {
        var u := list[i];
        NotYet(list, i);
        assert list[..i + 1] == list[..i] + [u] && u in list;
        SweepOneIs(subs[u]);
        if !subs[u].closed {
          subs := subs[u := subs[u].(closed := true, channelClosed := true, swept := true)];
        }
        i := i + 1;
      }
      assert list[..|list|] == list;
    }

    /** A removal from beginning to end. Every listed subscription is closed and every other one is untouched; a channel
        that was being unsubscribed is left to its unsubscription. Without a topic nothing happens. */
    method RemoveTopic(sid: string)
      requires Inv(View())
      modifies this
      ensures Inv(View()) && sid !in sessions
      ensures sid !in old(sessions) ==> View() == old(View())
      ensures sid in old(sessions) ==>
                && |subs| == |old(subs)| && old(sessions)[sid] < |old(topics)| && sessions == old(sessions) - {sid}
                && forall u :: 0 <= u < |subs| ==>
                     subs[u] == if u in old(topics)[old(sessions)[sid]].subs && !old(subs)[u].closed then
                                  old(subs)[u].(closed := true, channelClosed := true, swept := true)
                                else old(subs)[u]
    {
      hide Inv, SweepOne, SweepAll;
      var found, t := UnregisterStep(sid);
      if found {
        UnregisterIs(old(View()), sid);
        SweepIs(View(), t);
        SweepStep(t);
        forall u | 0 <= u < |old(subs)|
          ensures SweepOne(old(subs)[u]) == if old(subs)[u].closed then old(subs)[u]
                                            else old(subs)[u].(closed := true, channelClosed := true, swept := true)
        {
          SweepOneIs(old(subs)[u]);
        }
      }
    }

    /** A reader takes the next queued event; what is queued can still be read after the channel was closed. */
    method ReceiveStep(u: nat) returns (event: Option<T>)
      requires Inv(View()) && u < |subs|
      modifies this
      ensures View() == Step(old(View()), Receive(u)) && Inv(View())
      ensures event == if old(subs)[u].queue == [] then None else Some(old(subs)[u].queue[0])
    {
      ReceiveKeepsInv(View(), u);
      event := None;
      if |subs[u].queue| > 0 {
        var next := subs[u].queue[0];
        event := Some(next);
        subs := subs[u := subs[u].(queue := subs[u].queue[1..], received := subs[u].received + [next])];
      }
    }

    /** An unsubscription from beginning to end. The subscriber is due nothing more, and unsubscribing again does
        nothing. */
    method Unsubscribe(u: nat)
      requires Inv(View()) && u < |subs|
      modifies this
      ensures Inv(View()) && u < |subs| && subs[u].closed
      ensures old(subs)[u].closed ==> View() == old(View())
      ensures !old(subs)[u].closed ==> subs[u].channelClosed && subs[u].topic < |topics| && u !in topics[subs[u].topic].subs
    {
      var won := ClaimStep(u);
      if won {
        DetachStep(u);
        CloseStep(u);
        assert SubOk(subs[u], u, topics);
      }
    }
  }

  lemma NotYet(list: seq<nat>, i: nat)
    requires Distinct(list) && i < |list|
    ensures list[i] !in list[..i]
  {
  }

  lemma UnregisterIs<T>(s: State<T>, sid: string)
    requires Inv(s) && sid in s.sessions
    ensures var t := s.sessions[sid]; var s' := Step(s, Unregister(sid));
            && t < |s.topics| == |s'.topics| && s'.subs == s.subs && s'.topics[t].subs == s.topics[t].subs
            && s'.sessions == s.sessions - {sid}
  {
    hide TopicsOk, SubsOk;
  }

  lemma SweepIs<T>(s: State<T>, t: nat)
    requires t < |s.topics| && s.topics[t].status == Removing
    ensures var s' := Step(s, Sweep(t)); s'.sessions == s.sessions && |s'.subs| == |s.subs|
    ensures var s' := Step(s, Sweep(t)); forall u :: 0 <= u < |s.subs| ==>
              s'.subs[u] == if u in s.topics[t].subs then SweepOne(s.subs[u]) else s.subs[u]
  {
    hide SweepOne;
  }

  lemma SweepOneIs<T>(sub: Sub<T>)
    ensures SweepOne(sub) == if sub.closed then sub else sub.(closed := true, channelClosed := true, swept := true)
  {
  }

  lemma RememberedSteps<T>(old_: seq<T>, event: T, maxHistory: nat, history: seq<T>)
    requires history == if maxHistory == 0 then old_
                        else if |old_| + 1 > maxHistory then (old_ + [event])[|old_| + 1 - maxHistory..]
                        else old_ + [event]
    ensures history == Remembered(old_, event, maxHistory)
  {
  }
}
