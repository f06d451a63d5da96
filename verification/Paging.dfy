/** Pages of a message log, counted from its newest message. */
module Paging {
  import opened Messages

  /** Where a page ends: the newest `offset` messages are skipped. */
  function PageEnd(log: seq<Message>, offset: nat): (e: nat)
    ensures e <= |log|
  {
    if offset > |log| then 0 else |log| - offset
  }

  function PageStart(log: seq<Message>, n: nat, offset: nat): (s: nat)
    ensures s <= PageEnd(log, offset)
  {
    if offset + n > |log| then 0 else |log| - offset - n
  }

  /** Up to n messages in order, after skipping the newest `offset`. */
  function Page(log: seq<Message>, n: nat, offset: nat): seq<Message> {
    log[PageStart(log, n, offset)..PageEnd(log, offset)]
  }

  /** The pages at offsets offset, offset + n, offset + 2n, …, oldest first. */
  function Pages(log: seq<Message>, n: nat, offset: nat): seq<Message>
    requires n > 0
    decreases |log| - offset
  {
    if offset >= |log| then [] else Pages(log, n, offset + n) + Page(log, n, offset)
  }

  /** Reading page after page gives back the log. */
  lemma {:induction false} PagesCoverLog(log: seq<Message>, n: nat, offset: nat)
    requires n > 0
    ensures Pages(log, n, offset) == log[..PageEnd(log, offset)]
    ensures offset == 0 ==> Pages(log, n, offset) == log
    decreases |log| - offset
  {
    if offset < |log| {
      PagesCoverLog(log, n, offset + n);
      assert PageEnd(log, offset + n) == PageStart(log, n, offset);
    }
  }
}
