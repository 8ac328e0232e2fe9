/** What the chat pane shows for the agent's log, and the guard that ignores a blank
    question. */
module Render {
  import opened Messages
  import opened TurnSegmenter
  import opened Details

  /** One bubble of the chat pane: a user question, or an assistant reply with the
      sections of its details panel. */
  datatype Bubble =
    | UserBubble(index: nat)
    | AssistantBubble(index: nat, details: seq<Section>)

  /** User messages, and assistant messages with non-empty content, get a bubble;
      tool messages and assistant messages without content are skipped. */
  predicate Shown(m: Msg)
  {
    IsUser(m) || (IsAssistant(m) && Truthy(m.content))
  }

  /** The bubble for the shown message at position j. */
  function BubbleAt(log: seq<Msg>, j: nat): Bubble
    requires j < |log|
  {
    if IsUser(log[j]) then UserBubble(j) else AssistantBubble(j, Group([], TurnSteps(log, j), 1))
  }

  /** The bubbles for the messages before position `upto`, in log order. */
  function Bubbles(log: seq<Msg>, upto: nat): seq<Bubble>
    requires upto <= |log|
  {
    if upto == 0 then []
    else Bubbles(log, upto - 1) + (if Shown(log[upto - 1]) then [BubbleAt(log, upto - 1)] else [])
  }

  /** The loop over the log that builds the chat pane. */
  method RenderMsgs(log: seq<Msg>) returns (rendered: seq<Bubble>)
    ensures rendered == Bubbles(log, |log|)
  {
    rendered := [];
    for idx := 0 to |log|
      invariant rendered == Bubbles(log, idx)
    {
      var msg := log[idx];
      if IsUser(msg) {
        rendered := rendered + [UserBubble(idx)];
      } else if IsAssistant(msg) && Truthy(msg.content) {
        var steps, _ := ExtractTurnDetails(log, idx);
        var details := GroupSteps(steps);
        rendered := rendered + [AssistantBubble(idx, details)];
      }
    }
  }

  /** The bubbles are in log order, one for each shown message and no other, and each
      reply's details are the grouped steps of its own turn. */
  lemma {:induction false} BubblesExact(log: seq<Msg>, upto: nat)
    requires upto <= |log|
    ensures forall k :: 0 <= k < |Bubbles(log, upto)| ==>
      var b := Bubbles(log, upto)[k];
      b.index < upto && Shown(log[b.index]) && b == BubbleAt(log, b.index)
    ensures forall k1, k2 :: 0 <= k1 < k2 < |Bubbles(log, upto)| ==>
      Bubbles(log, upto)[k1].index < Bubbles(log, upto)[k2].index
    ensures forall j :: 0 <= j < upto && Shown(log[j]) ==>
      exists k :: 0 <= k < |Bubbles(log, upto)| && Bubbles(log, upto)[k].index == j
  {
    if upto > 0 {
      BubblesExact(log, upto - 1);
      var prev := Bubbles(log, upto - 1);
      var cur := Bubbles(log, upto);
      assert forall k :: 0 <= k < |prev| ==> cur[k] == prev[k];
      if Shown(log[upto - 1]) {
        assert cur[|prev|].index == upto - 1;
      }
    }
  }

  // ---- the blank-question guard ----

  /** The whitespace characters the guard strips. */
  predicate IsSpace(c: char)
  {
    c == ' ' || c == '\t' || c == '\n' || c == '\r' || c == '\U{B}' || c == '\U{C}'
  }

  function StripLeading(s: string): string
  {
    if s != [] && IsSpace(s[0]) then StripLeading(s[1..]) else s
  }

  function StripTrailing(s: string): string
  {
    if s != [] && IsSpace(s[|s| - 1]) then StripTrailing(s[..|s| - 1]) else s
  }

  /** `s.strip()`: s without its leading and trailing whitespace. */
  function Strip(s: string): string
  {
    StripTrailing(StripLeading(s))
  }

  /** Stripping the front removes a run of whitespace and stops at a non-space. */
  lemma {:induction false} StripLeadingShape(s: string)
    ensures |StripLeading(s)| <= |s|
    ensures StripLeading(s) == s[|s| - |StripLeading(s)|..]
    ensures forall i :: 0 <= i < |s| - |StripLeading(s)| ==> IsSpace(s[i])
    ensures StripLeading(s) == [] || !IsSpace(StripLeading(s)[0])
  {
    if s != [] && IsSpace(s[0]) {
      var t := StripLeading(s[1..]);
      StripLeadingShape(s[1..]);
      assert StripLeading(s) == t;
      assert s[1..][|s| - 1 - |t|..] == s[|s| - |t|..];
      forall i | 0 <= i < |s| - |t|
        ensures IsSpace(s[i])
      {
        if 0 < i {
          assert s[i] == s[1..][i - 1];
        }
      }
    }
  }

  /** Stripping the back removes a run of whitespace and stops at a non-space. */
  lemma {:induction false} StripTrailingShape(s: string)
    ensures |StripTrailing(s)| <= |s|
    ensures StripTrailing(s) == s[..|StripTrailing(s)|]
    ensures forall i :: |StripTrailing(s)| <= i < |s| ==> IsSpace(s[i])
    ensures StripTrailing(s) == [] || !IsSpace(StripTrailing(s)[|StripTrailing(s)| - 1])
  {
    if s != [] && IsSpace(s[|s| - 1]) {
      var init := s[..|s| - 1];
      var t := StripTrailing(init);
      StripTrailingShape(init);
      assert StripTrailing(s) == t;
      assert init[..|t|] == s[..|t|];
      forall i | |t| <= i < |s|
        ensures IsSpace(s[i])
      {
        if i < |s| - 1 {
          assert s[i] == init[i];
        }
      }
    }
  }

  /** `not qn or not qn.strip()`. */
  predicate IsBlank(qn: string)
  {
    qn == "" || Strip(qn) == ""
  }

  /** A question is blank exactly when every character of it is whitespace. */
  lemma BlankIffAllSpace(qn: string)
    ensures IsBlank(qn) <==> forall i :: 0 <= i < |qn| ==> IsSpace(qn[i])
  {
    StripLeadingShape(qn);
    var t := StripLeading(qn);
    StripTrailingShape(t);
    if t != [] {
      assert !IsSpace(qn[|qn| - |t|]);
      assert !IsSpace(t[0]);
    }
  }

  /** The outcome of submitting a question: a blank one is ignored and nothing is
      appended or sent to the agent; any other is submitted as typed. */
  datatype SendReply = Ignored | Submitted(question: string)

  function SendMessage(qn: string): (r: SendReply)
    ensures r.Ignored? <==> forall i :: 0 <= i < |qn| ==> IsSpace(qn[i])
    ensures r.Submitted? ==> r.question == qn
  {
    BlankIffAllSpace(qn);
    if IsBlank(qn) then Ignored else Submitted(qn)
  }
}
