/** The file store: a log of messages a session, an index counter a session, and one stored summary a session. */
module FileStore {
  import opened Basics
  import opened Messages
  import opened Compaction
  import opened Paging

  /** Messages from old files carry no index and are numbered by line. */
  function Numbered(lines: seq<Message>): (r: seq<Message>)
    ensures |r| == |lines|
  {
    seq(|lines|, i requires 0 <= i < |lines| => if lines[i].index == 0 then lines[i].(index := i + 1) else lines[i])
  }

  lemma NumberedSnoc(lines: seq<Message>, m: Message)
    ensures Numbered(lines + [m]) == Numbered(lines) + [if m.index == 0 then m.(index := |lines| + 1) else m]
  {
  }

  class FileMemory {
    const summarizer: bool
    var files: map<string, seq<Message>>
    var summaries: map<string, Summary>
    var nextIdx: map<string, nat>
    ghost var calls: map<string, seq<SummaryCall>>

    constructor (summarizer: bool, files: map<string, seq<Message>>, summaries: map<string, Summary>)
      ensures this.summarizer == summarizer && this.files == files && this.summaries == summaries
      ensures nextIdx == map[] && calls == map[]
    {
      this.summarizer, this.files, this.summaries := summarizer, files, summaries;
      nextIdx, calls := map[], map[];
    }

    function Lines(sid: string): seq<Message>
      reads this`files
    {
      if sid in files then files[sid] else []
    }

    function Stored(sid: string): Option<Summary>
      reads this`summaries
    {
      if sid in summaries then Some(summaries[sid]) else None
    }

    function NextIndex(sid: string): nat
      reads this`nextIdx
    {
      if sid in nextIdx then nextIdx[sid] else 0
    }

    ghost function View(sid: string): Session
      reads this
    {
      Session(Numbered(Lines(sid)), NextIndex(sid), Stored(sid), if sid in calls then calls[sid] else [])
    }

    /** Only the session sid may have changed. */
    twostate predicate OthersUnchanged(sid: string)
      reads this
    {
      forall other :: other != sid ==> View(other) == old(View(other))
    }

    method ReadAll(sid: string) returns (msgs: seq<Message>)
      ensures msgs == View(sid).log
    {
      var lines := Lines(sid);
      msgs := [];
      var fallback := 0;
      while fallback < |lines|
        invariant fallback <= |lines| && msgs == Numbered(lines[..fallback])
      {
        assert lines[..fallback + 1] == lines[..fallback] + [lines[fallback]];
        NumberedSnoc(lines[..fallback], lines[fallback]);
        var msg := lines[fallback];
        fallback := fallback + 1;
        if msg.index == 0 {
          msg := msg.(index := fallback);
        }
        msgs := msgs + [msg];
      }
      assert lines[..|lines|] == lines;
    }

    method Count(sid: string) returns (n: nat)
      ensures n == |View(sid).log|
    {
      var all := ReadAll(sid);
      n := |all|;
    }

    /** Appends a message; the index counter is seeded from the file on the first append of this process. */
    method Append(sid: string, msg: Message)
      modifies this
      ensures View(sid) == Appended(old(View(sid)), msg) && OthersUnchanged(sid)
    {
      if NextIndex(sid) == 0 {
        nextIdx := nextIdx[sid := |Lines(sid)| + 1];
      }
      var indexed := msg.(index := nextIdx[sid]);
      nextIdx := nextIdx[sid := nextIdx[sid] + 1];
      NumberedSnoc(Lines(sid), indexed);
      files := files[sid := Lines(sid) + [indexed]];
    }

    /** Up to n messages, skipping the newest `offset`, oldest first. */
    method Recent(sid: string, n: nat, offset: nat) returns (r: seq<Message>)
      ensures r == Page(View(sid).log, n, offset)
    {
      var all := ReadAll(sid);
      if offset > 0 && |all| > offset {
        all := all[..|all| - offset];
      } else if offset > 0 {
        return [];
      }
      if |all| <= n {
        return all;
      }
      return all[|all| - n..];
    }

    /** Summarises what is not yet covered below the cut nearest to throughIndex that is safe. */
    method Compact(sid: string, throughIndex: int, messages: Option<seq<Message>>)
      returns (ghost reply: Option<string>, ghost asked: bool)
      modifies this
      ensures View(sid) == Compacted(old(View(sid)), throughIndex, messages, reply) && OthersUnchanged(sid)
      // the summariser is asked exactly when there is one and something new
      ensures asked <==> summarizer && HasNew(old(View(sid)), throughIndex, messages)
      ensures !asked ==> reply == None
    {
      reply, asked := None, false;
      ghost var s := View(sid);
      if !summarizer {
        return;
      }
      var all: seq<Message>;
      if messages.None? || throughIndex > |messages.value| {
        all := ReadAll(sid);
      } else {
        all := messages.value;
      }
      assert all == Source(s, throughIndex, messages);
      hide Numbered;
      if |all| == 0 || throughIndex <= 0 || throughIndex > |all| {
        return;
      }
      var safeIdx := SafeCompressionBoundary(all, throughIndex);
      if safeIdx <= 0 {
        return;
      }
      var prev := Stored(sid);
      var lastIdx := 0;
      if prev.Some? {
        lastIdx := prev.value.through;
      }
      assert prev == s.summary && lastIdx == Through(s) && safeIdx == SafeBoundary(all, throughIndex);
      if lastIdx < safeIdx {
        var newMsgs := all[lastIdx..safeIdx];
        var answer: Option<string> := *; // the summariser, given prev and newMsgs
        reply, asked := answer, true;
        match answer
        case None =>
        case Some(text) =>
          var cc := Summary(text, safeIdx);
          calls := calls[sid := s.calls + [SummaryCall(prev, newMsgs, cc)]];
          summaries := summaries[sid := cc];
          assert View(sid) == s.(summary := Some(cc), calls := s.calls + [SummaryCall(prev, newMsgs, cc)]);
      }
    }

    method Compressed(sid: string) returns (cc: Option<Summary>)
      ensures cc == View(sid).summary
    {
      cc := Stored(sid);
    }

    /** Removes the log and the summary, but not the index counter. */
    method DeleteSession(sid: string)
      modifies this
      ensures View(sid) == Deleted(old(View(sid))) && OthersUnchanged(sid)
    {
      files := files - {sid};
      summaries := summaries - {sid};
      calls := calls - {sid};
    }
  }
}
