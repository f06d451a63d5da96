/** Tool execution: approvals one after the other, then the approved tools concurrently. */
module Tools {
  import opened Basics
  import opened Messages

  const BUILTINS: set<string> := {"use_skill", "reload_skills", "recall_memory", "subagent"}

  /** The registered tools by name, with their end-of-turn flag. */
  type Registry = map<string, bool>

  predicate Resolves(tools: Registry, name: string) {
    name in BUILTINS || name in tools
  }

  predicate EndsTurn(tools: Registry, name: string) {
    name !in BUILTINS && name in tools && tools[name]
  }

  /** Only registered tools end a turn: a built-in tool of the same name is what is run, and it does not. */
  lemma EndsTurnIff(tools: Registry, name: string)
    ensures EndsTurn(tools, name) <==> name in tools && tools[name] &&
                                       name !in {"use_skill", "reload_skills", "recall_memory", "subagent"}
  {
  }

  const TRANSFER_PREFIX := "transfer_to_"

  predicate IsTransfer(name: string) {
    TRANSFER_PREFIX <= name
  }

  /** The approver's answer for a call; a call that its tool approves itself is allowed. */
  datatype Verdict = Allowed | Refused(reason: string)

  /** What running a tool comes to. */
  datatype ToolRun = Panicked(text: string) | Errored(text: string) | Output(text: string)

  /** The approver, if there is one, and the tools: arbitrary functions of the call's position. */
  type Approver = Option<nat -> Verdict>
  type Behaviour = nat -> ToolRun

  /** How one call ends. */
  datatype Fate = NotFound | Rejected(reason: string) | Ran(run: ToolRun)

  function FateText(call: ToolCall, fate: Fate): string {
    match fate
    case NotFound => "tool \"" + call.name + "\" not found"
    case Rejected(reason) => "tool \"" + call.name + "\" rejected: " + reason
    case Ran(Panicked(text)) => "tool panic: " + text
    case Ran(Errored(text)) => "error: " + text
    case Ran(Output(text)) => text
  }

  function ResultMessage(call: ToolCall, fate: Fate): Message {
    Message(Tool, FateText(call, fate), [], call.id, false, 0)
  }

  /** A call that may run: its tool exists, and it is a transfer, or no approver is there to refuse it, or it does not. */
  predicate MayRun(tools: Registry, approver: Approver, call: ToolCall, i: nat) {
    Resolves(tools, call.name) && (approver.None? || IsTransfer(call.name) || approver.value(i) == Allowed)
  }

  function FateOf(tools: Registry, approver: Approver, behave: Behaviour, call: ToolCall, i: nat): Fate {
    if !Resolves(tools, call.name) then NotFound
    else if MayRun(tools, approver, call, i) then Ran(behave(i))
    else Rejected(approver.value(i).reason)
  }

  /** What the model is told of a call: that its tool is unknown, that it was refused, or what its tool came to. Only
      transfers of control, which are named after their target, are run without asking the approver. */
  lemma ResultTells(tools: Registry, approver: Approver, behave: Behaviour, call: ToolCall, i: nat)
    ensures var m := ResultMessage(call, FateOf(tools, approver, behave, call, i));
            var asked := approver.Some? && !exists target: string :: call.name == "transfer_to_" + target;
            && m.role == Tool && m.toolCallID == call.id && m.toolCalls == [] && !m.transient && m.index == 0
            && if call.name !in tools && call.name !in {"use_skill", "reload_skills", "recall_memory", "subagent"} then
                 m.content == "tool \"" + call.name + "\" not found"
               else if asked && approver.value(i).Refused? then
                 m.content == "tool \"" + call.name + "\" rejected: " + approver.value(i).reason
               else match behave(i)
                 case Output(text) => m.content == text
                 case Errored(text) => m.content == "error: " + text
                 case Panicked(text) => m.content == "tool panic: " + text
  {
    TransferNamed(call.name);
  }

  lemma TransferNamed(name: string)
    ensures IsTransfer(name) <==> exists target: string :: name == "transfer_to_" + target
  {
    if IsTransfer(name) {
      assert name == "transfer_to_" + name[|"transfer_to_"|..];
    }
  }

  /** Runs one call: an unknown tool is not found, a panic is recovered into a result. */
  method ExecuteOne(tools: Registry, behave: Behaviour, call: ToolCall, i: nat) returns (m: Message, ran: bool)
    ensures ran <==> Resolves(tools, call.name)
    ensures m == ResultMessage(call, if ran then Ran(behave(i)) else NotFound)
  {
    ran := Resolves(tools, call.name);
    if !ran {
      return ResultMessage(call, NotFound), ran;
    }
    match behave(i)
    case Panicked(text) =>
      m := ResultMessage(call, Ran(Panicked(text)));
    case Errored(text) =>
      m := ResultMessage(call, Ran(Errored(text)));
    case Output(text) =>
      m := ResultMessage(call, Ran(Output(text)));
  }

  /** Runs the calls. Under every order of completion the results are the same, in call order and with matching ids,
      whatever is missing, refused or panics; exactly the calls that may run are run, each once. */
  method ExecuteTools(tools: Registry, approver: Approver, behave: Behaviour, calls: seq<ToolCall>)
    returns (results: seq<Message>, ghost ran: seq<nat>)
    ensures Answers(results, calls)
    ensures forall i :: 0 <= i < |calls| ==> results[i] == ResultMessage(calls[i], FateOf(tools, approver, behave, calls[i], i))
    ensures Distinct(ran) && forall i: nat :: i in ran <==> i < |calls| && MayRun(tools, approver, calls[i], i)
  {
    hide FateText;
    var slots := new Message[|calls|](_ => PlainMessage(Tool, ""));
    var pending: set<nat> := {};
    // phase 1: approvals, one after the other
    for i := 0 to |calls|
      invariant forall k: nat :: k in pending ==> k < i && (MayRun(tools, approver, calls[k], k) || !Resolves(tools, calls[k].name))
      invariant forall k: nat :: k < i && k !in pending ==>
                  !MayRun(tools, approver, calls[k], k) && slots[k] == ResultMessage(calls[k], FateOf(tools, approver, behave, calls[k], k))
    {
      if approver.Some? && !Resolves(tools, calls[i].name) {
        slots[i] := ResultMessage(calls[i], NotFound);
      } else if approver.Some? && !IsTransfer(calls[i].name) {
        match approver.value(i) {
          case Refused(reason) =>
            slots[i] := ResultMessage(calls[i], Rejected(reason));
          case Allowed =>
            pending := pending + {i};
        }
      } else {
        pending := pending + {i};
      }
    }
    // phase 2: the approved tools run concurrently and complete in any order
    ran := [];
    while pending != {}
      invariant forall k :: k in pending ==> k < |calls| && k !in ran
      invariant forall k :: k in pending && k < |calls| ==> MayRun(tools, approver, calls[k], k) || !Resolves(tools, calls[k].name)
      invariant forall k: nat :: k < |calls| && k !in pending ==> slots[k] == ResultMessage(calls[k], FateOf(tools, approver, behave, calls[k], k))
      invariant Distinct(ran) && forall k: nat :: k in ran <==> k < |calls| && k !in pending && MayRun(tools, approver, calls[k], k)
      decreases pending
    {
      var k :| k in pending;
      var m, runs := ExecuteOne(tools, behave, calls[k], k);
      slots[k] := m;
      pending := pending - {k};
      if runs {
        DistinctSnoc<nat>(ran, k);
        ran := ran + [k];
      }
    }
    results := slots[..];
  }
}
