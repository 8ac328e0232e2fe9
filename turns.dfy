/** Turn segmentation: the reasoning, tool-call and tool-response steps that led up to
    one assistant reply, recovered by scanning the log backward from the reply. */
module TurnSegmenter {
  import opened Messages

  /** No user message among log[lo..hi]. */
  ghost predicate NoUserIn(log: seq<Msg>, lo: int, hi: int)
    requires 0 <= lo <= hi <= |log|
  {
    forall j :: lo <= j < hi ==> !IsUser(log[j])
  }

  /** The steps one tool-call list leaves at the front of the result: each call is
      inserted at the front in turn, so the last-listed call comes first. */
  function CallSteps(calls: seq<ToolCallEntry>): seq<Step>
  {
    if calls == [] then []
    else [ToolCallStep(CallText(calls[|calls| - 1]))] + CallSteps(calls[..|calls| - 1])
  }

  /** The block of steps one message contributes to its turn. An assistant message's
      reasoning is inserted first and its tool calls after it, each at the front, so
      the block is its calls in reverse followed by its reasoning. Messages of any
      other role than assistant or tool contribute nothing. */
  function MsgSteps(m: Msg): seq<Step>
  {
    if IsAssistant(m) then
      CallSteps(m.toolCalls)
      + (if m.reasoningContent != "" then [ReasoningStep(m.reasoningContent)] else [])
    else if IsTool(m) then [ToolResponseStep(ResponseText(m))]
    else []
  }

  /** The blocks of a window of messages, earliest message first. */
  function StepsOf(w: seq<Msg>): seq<Step>
  {
    if w == [] then [] else MsgSteps(w[0]) + StepsOf(w[1..])
  }

  /** Where the turn ending at position i begins: one past the nearest user message
      before i, or 0 when there is none. */
  function WindowStart(log: seq<Msg>, i: int): (s: nat)
    requires i <= |log|
    ensures i <= 0 ==> s == 0
    ensures 0 < i ==> s <= i && NoUserIn(log, s, i) && (s == 0 || IsUser(log[s - 1]))
  {
    if i <= 0 then 0
    else if IsUser(log[i - 1]) then i
    else WindowStart(log, i - 1)
  }

  /** The steps of the turn whose reply is at position i, read forward over its window. */
  function TurnSteps(log: seq<Msg>, i: int): seq<Step>
    requires i <= |log|
  {
    if i <= 0 then [] else StepsOf(log[WindowStart(log, i)..i])
  }

  /** A window start is determined by its two defining facts. */
  lemma {:induction false} WindowStartUnique(log: seq<Msg>, i: int, k: nat)
    requires 0 < i <= |log| && k <= i
    requires NoUserIn(log, k, i) && (k == 0 || IsUser(log[k - 1]))
    ensures WindowStart(log, i) == k
  {
    if k < i {
      assert !IsUser(log[i - 1]);
      if 1 < i {
        WindowStartUnique(log, i - 1, k);
      }
    }
  }

  /** Inserting call k at the front extends the block of calls 0 .. k - 1. */
  lemma CallStepsSnoc(calls: seq<ToolCallEntry>, k: nat, steps: seq<Step>)
    requires k < |calls|
    ensures [ToolCallStep(CallText(calls[k]))] + (CallSteps(calls[..k]) + steps)
         == CallSteps(calls[..k + 1]) + steps
  {
    var prefix := calls[..k + 1];
    assert prefix[..k] == calls[..k] && prefix[k] == calls[k];
    var step := ToolCallStep(CallText(calls[k]));
    assert CallSteps(prefix) == [step] + CallSteps(calls[..k]);
  }

  /** Inserts each tool call at the front of `steps`, in listed order. */
  method InsertCalls(calls: seq<ToolCallEntry>, steps: seq<Step>) returns (r: seq<Step>)
    ensures r == CallSteps(calls) + steps
  {
    r := steps;
    assert calls[..0] == [];
    for k := 0 to |calls|
      invariant r == CallSteps(calls[..k]) + steps
    {
      CallStepsSnoc(calls, k, steps);
      r := [ToolCallStep(CallText(calls[k]))] + r;
    }
    assert calls[..|calls|] == calls;
  }

  /** The insertions one message makes at the front of `steps`: an assistant message's
      reasoning first, then each of its tool calls in listed order; a tool message's
      response. */
  method InsertMsgSteps(msg: Msg, steps: seq<Step>) returns (r: seq<Step>)
    ensures r == MsgSteps(msg) + steps
  {
    r := steps;
    if IsAssistant(msg) {
      if msg.reasoningContent != "" {
        r := [ReasoningStep(msg.reasoningContent)] + r;
      }
      if msg.toolCalls != [] {
        r := InsertCalls(msg.toolCalls, r);
      }
    } else if IsTool(msg) {
      r := [ToolResponseStep(ResponseText(msg))] + r;
    }
  }

  /** A window that starts one message earlier gains that message's block in front. */
  lemma StepsOfCons(log: seq<Msg>, i: nat, hi: nat)
    requires i < hi <= |log|
    ensures StepsOf(log[i..hi]) == MsgSteps(log[i]) + StepsOf(log[i + 1..hi])
  {
    assert log[i..hi][0] == log[i];
    assert log[i..hi][1..] == log[i + 1..hi];
  }

  /** The backward scan: `steps` grows at the front, and the scan stops at the first
      user message it meets. `visited` counts the messages read. */
  method ExtractTurnDetails(log: seq<Msg>, assistantIdx: int) returns (steps: seq<Step>, ghost visited: nat)
    requires assistantIdx <= |log|
    ensures steps == TurnSteps(log, assistantIdx)
    ensures assistantIdx <= 0 ==> visited == 0
    ensures 0 < assistantIdx ==>
      var s := WindowStart(log, assistantIdx);
      visited == assistantIdx - s + (if s == 0 then 0 else 1) <= assistantIdx
  {
    steps := [];
    visited := 0;
    if assistantIdx <= 0 {
      // the range from assistantIdx - 1 down to 0 is empty
      return;
    }
    var i := assistantIdx - 1;
    while i >= 0
      invariant -1 <= i < assistantIdx
      invariant visited == assistantIdx - 1 - i
      invariant NoUserIn(log, i + 1, assistantIdx)
      invariant steps == StepsOf(log[i + 1..assistantIdx])
    {
      var msg := log[i];
      visited := visited + 1;
      if IsUser(msg) {
        WindowStartUnique(log, assistantIdx, i + 1);
        return;
      }
      StepsOfCons(log, i, assistantIdx);
      steps := InsertMsgSteps(msg, steps);
      i := i - 1;
    }
    WindowStartUnique(log, assistantIdx, 0);
  }

  // ---- properties of the segmentation ----

  /** A reply that is first in the log, or that directly follows the user's message,
      has no steps. */
  lemma EmptyTurn(log: seq<Msg>, i: int)
    requires i <= |log|
    requires i <= 0 || IsUser(log[i - 1])
    ensures TurnSteps(log, i) == []
  {
  }

  /** The turn reads only the messages strictly between the nearest user message and
      the reply: with the user message at k - 1 and none in log[k..i], the steps are
      those of log[k..i], whatever precedes k - 1 and whatever follows i. */
  lemma TurnStepsWindow(log: seq<Msg>, k: nat, i: nat)
    requires 0 < k <= i <= |log|
    requires IsUser(log[k - 1]) && NoUserIn(log, k, i)
    ensures TurnSteps(log, i) == StepsOf(log[k..i])
  {
    WindowStartUnique(log, i, k);
  }

  /** With no user message before the reply, the turn is read from the start of the log. */
  lemma TurnStepsWithoutUser(log: seq<Msg>, i: nat)
    requires 0 < i <= |log|
    requires NoUserIn(log, 0, i)
    ensures TurnSteps(log, i) == StepsOf(log[..i])
  {
    WindowStartUnique(log, i, 0);
  }

  /** Steps of earlier messages come before steps of later messages. */
  lemma {:induction false} StepsOfAppend(a: seq<Msg>, b: seq<Msg>)
    ensures StepsOf(a + b) == StepsOf(a) + StepsOf(b)
  {
    if a == [] {
      assert a + b == b;
    } else {
      assert (a + b)[1..] == a[1..] + b;
      StepsOfAppend(a[1..], b);
    }
  }

  /** A message that is not a user message does not stop the scan: the turn ending
      after it is the turn ending before it, followed by that message's own block. */
  lemma TurnStepsExtend(log: seq<Msg>, i: int)
    requires 0 < i <= |log| && !IsUser(log[i - 1])
    ensures TurnSteps(log, i) == TurnSteps(log, i - 1) + MsgSteps(log[i - 1])
  {
    var s := WindowStart(log, i);
    assert log[s..i] == log[s..i - 1] + [log[i - 1]];
    StepsOfAppend(log[s..i - 1], [log[i - 1]]);
    assert StepsOf([log[i - 1]]) == MsgSteps(log[i - 1]) + StepsOf([]);
  }

  /** Assistant messages with non-empty reasoning in a window. */
  function ReasoningCount(w: seq<Msg>): nat
  {
    if w == [] then 0
    else (if IsAssistant(w[0]) && w[0].reasoningContent != "" then 1 else 0) + ReasoningCount(w[1..])
  }

  /** Tool calls listed by the assistant messages of a window. */
  function CallCount(w: seq<Msg>): nat
  {
    if w == [] then 0 else (if IsAssistant(w[0]) then |w[0].toolCalls| else 0) + CallCount(w[1..])
  }

  /** Tool messages in a window. */
  function ToolCount(w: seq<Msg>): nat
  {
    if w == [] then 0 else (if IsTool(w[0]) then 1 else 0) + ToolCount(w[1..])
  }

  lemma {:induction false} CallStepsLength(calls: seq<ToolCallEntry>)
    ensures |CallSteps(calls)| == |calls|
  {
    if calls != [] {
      CallStepsLength(calls[..|calls| - 1]);
    }
  }

  /** Every step is one reasoning note, one tool call or one tool message of the
      window; messages of other roles add nothing. */
  lemma {:induction false} StepCount(w: seq<Msg>)
    ensures |StepsOf(w)| == ReasoningCount(w) + CallCount(w) + ToolCount(w)
  {
    if w != [] {
      CallStepsLength(w[0].toolCalls);
      StepCount(w[1..]);
    }
  }

  /** Position k of the call block holds the k-th call counted from the end of the list. */
  lemma {:induction false} CallStepsAt(calls: seq<ToolCallEntry>, k: nat)
    requires k < |calls|
    ensures |CallSteps(calls)| == |calls|
    ensures CallSteps(calls)[k] == ToolCallStep(CallText(calls[|calls| - 1 - k]))
  {
    CallStepsLength(calls);
    if 0 < k {
      CallStepsAt(calls[..|calls| - 1], k - 1);
    }
  }

  /** Within one assistant message, its tool calls come out in reverse of their listed
      order, and all of them come before its reasoning step. */
  lemma AssistantBlockOrder(m: Msg)
    requires IsAssistant(m)
    ensures |MsgSteps(m)| == |m.toolCalls| + (if m.reasoningContent != "" then 1 else 0)
    ensures forall k :: 0 <= k < |m.toolCalls| ==>
      MsgSteps(m)[k] == ToolCallStep(CallText(m.toolCalls[|m.toolCalls| - 1 - k]))
    ensures m.reasoningContent != "" ==> MsgSteps(m)[|m.toolCalls|] == ReasoningStep(m.reasoningContent)
  {
    CallStepsLength(m.toolCalls);
    forall k | 0 <= k < |m.toolCalls|
      ensures MsgSteps(m)[k] == ToolCallStep(CallText(m.toolCalls[|m.toolCalls| - 1 - k]))
    {
      CallStepsAt(m.toolCalls, k);
    }
  }

  /** A flight lookup: question, one assistant message with reasoning and one query,
      the query's result, the reply. */
  const FlightCall := ToolCallEntry(Some(FunctionInfo(Some("execute_query"), Some("SELECT 1"))))
  const FlightLog := [
    Msg(Some("user"), Some("Show flights"), "", [], None),
    Msg(Some("assistant"), None, "need query", [FlightCall], None),
    Msg(Some("tool"), Some("3 rows"), "", [], Some("execute_query")),
    Msg(Some("assistant"), Some("Here are 3 flights"), "", [], None)]

  lemma FlightAssistantBlock()
    ensures MsgSteps(FlightLog[1]) == [ToolCallStep("execute_query(SELECT 1)"), ReasoningStep("need query")]
  {
    var m := FlightLog[1];
    assert m.toolCalls == [FlightCall];
    assert CallText(FlightCall) == "execute_query" + "(" + "SELECT 1" + ")" == "execute_query(SELECT 1)";
    assert [FlightCall][..0] == [];
    assert CallSteps([FlightCall]) == [ToolCallStep("execute_query(SELECT 1)")] + CallSteps([]);
  }

  lemma FlightToolBlock()
    ensures MsgSteps(FlightLog[2]) == [ToolResponseStep("**execute_query:**\n```\n3 rows\n```")]
  {
    assert ResponseText(FlightLog[2]) == "**" + "execute_query" + ":**\n```\n" + "3 rows" + "\n```"
      == "**execute_query:**\n```\n3 rows\n```";
  }

  /** In the flight lookup's turn the call is listed before the reasoning that led to it. */
  lemma FlightLookupTurn()
    ensures TurnSteps(FlightLog, 3) == [
      ToolCallStep("execute_query(SELECT 1)"),
      ReasoningStep("need query"),
      ToolResponseStep("**execute_query:**\n```\n3 rows\n```")]
  {
    var log := FlightLog;
    TurnStepsWindow(log, 1, 3);
    var w := log[1..3];
    assert w[1..][1..] == [];
    assert StepsOf(w) == MsgSteps(log[1]) + (MsgSteps(log[2]) + StepsOf([]));
    FlightAssistantBlock();
    FlightToolBlock();
  }
}
