/** Grouping a turn's steps into the numbered sections of the reply's details panel:
    reasoning notes and tool calls gather into "Assistant Action n", and each tool
    response closes "Tool Response n". The sections stop short of their markdown text. */
module Details {
  import opened Messages

  datatype Section =
    | ActionSection(number: nat, lines: seq<string>)
    | ResponseSection(number: nat, body: string)

  /** The bullet line a reasoning or tool-call step adds to the open action section. */
  function ActionLine(s: Step): string
    requires !s.ToolResponseStep?
  {
    match s
    case ReasoningStep(t) => "- **Reasoning:** " + t
    case ToolCallStep(t) => "- **Tool Call:** \U{1F527} `" + t + "`"
  }

  /** The open action section, if it has any line. */
  function Flush(current: seq<string>, n: nat): seq<Section>
  {
    if current == [] then [] else [ActionSection(n, current)]
  }

  /** The sections produced from `rest` when `current` holds the open action lines and
      the next number is n. */
  function Group(current: seq<string>, rest: seq<Step>, n: nat): seq<Section>
    decreases |rest|
  {
    if rest == [] then Flush(current, n)
    else if rest[0].ToolResponseStep? then
      Flush(current, n) + [ResponseSection(n, rest[0].text)] + Group([], rest[1..], n + 1)
    else Group(current + [ActionLine(rest[0])], rest[1..], n)
  }

  /** The accumulator loop over a turn's steps. */
  method GroupSteps(steps: seq<Step>) returns (parts: seq<Section>)
    ensures parts == Group([], steps, 1)
    ensures steps == [] ==> parts == []
  {
    parts := [];
    if steps != [] {
      var turnNum: nat := 1;
      var current: seq<string> := [];
      for i := 0 to |steps|
        invariant parts + Group(current, steps[i..], turnNum) == Group([], steps, 1)
      {
        assert steps[i..][1..] == steps[i + 1..];
        match steps[i]
        case ReasoningStep(_) =>
          current := current + [ActionLine(steps[i])];
        case ToolCallStep(_) =>
          current := current + [ActionLine(steps[i])];
        case ToolResponseStep(t) =>
          if current != [] {
            parts := parts + [ActionSection(turnNum, current)];
            current := [];
          }
          parts := parts + [ResponseSection(turnNum, t)];
          turnNum := turnNum + 1;
      }
      if current != [] {
        parts := parts + [ActionSection(turnNum, current)];
      }
    }
  }

  // ---- properties of the grouping ----

  /** The texts of the tool-response steps, in order. */
  function ResponseTexts(steps: seq<Step>): seq<string>
  {
    if steps == [] then []
    else (if steps[0].ToolResponseStep? then [steps[0].text] else []) + ResponseTexts(steps[1..])
  }

  /** The lines of the reasoning and tool-call steps, in order. */
  function ActionLines(steps: seq<Step>): seq<string>
  {
    if steps == [] then []
    else (if steps[0].ToolResponseStep? then [] else [ActionLine(steps[0])]) + ActionLines(steps[1..])
  }

  /** The tool-response sections among some sections, in order. */
  function ResponseSections(parts: seq<Section>): seq<Section>
  {
    if parts == [] then []
    else (if parts[0].ResponseSection? then [parts[0]] else []) + ResponseSections(parts[1..])
  }

  /** The lines of the action sections among some sections, concatenated in order. */
  function ActionSectionLines(parts: seq<Section>): seq<string>
  {
    if parts == [] then []
    else (if parts[0].ActionSection? then parts[0].lines else []) + ActionSectionLines(parts[1..])
  }

  /** Tool-response sections numbered n, n + 1, ... over the given texts. */
  function Numbered(texts: seq<string>, n: nat): seq<Section>
  {
    if texts == [] then [] else [ResponseSection(n, texts[0])] + Numbered(texts[1..], n + 1)
  }

  lemma {:induction false} ResponseSectionsAppend(a: seq<Section>, b: seq<Section>)
    ensures ResponseSections(a + b) == ResponseSections(a) + ResponseSections(b)
  {
    if a == [] {
      assert a + b == b;
    } else {
      var ab := a + b;
      var first := if a[0].ResponseSection? then [a[0]] else [];
      assert ab[0] == a[0];
      assert ab[1..] == a[1..] + b;
      ResponseSectionsAppend(a[1..], b);
      calc {
        ResponseSections(ab);
        first + ResponseSections(a[1..] + b);
        first + (ResponseSections(a[1..]) + ResponseSections(b));
        (first + ResponseSections(a[1..])) + ResponseSections(b);
      }
    }
  }

  lemma {:induction false} ActionSectionLinesAppend(a: seq<Section>, b: seq<Section>)
    ensures ActionSectionLines(a + b) == ActionSectionLines(a) + ActionSectionLines(b)
  {
    if a == [] {
      assert a + b == b;
    } else {
      var ab := a + b;
      assert ab[0] == a[0];
      assert ab[1..] == a[1..] + b;
      ActionSectionLinesAppend(a[1..], b);
      assert ActionSectionLines(ab) == (if a[0].ActionSection? then a[0].lines else []) + ActionSectionLines(a[1..] + b);
    }
  }

  /** Each tool response yields exactly one tool-response section, and these are
      numbered consecutively from n in the order of the responses. */
  lemma {:induction false} GroupResponses(current: seq<string>, rest: seq<Step>, n: nat)
    ensures ResponseSections(Group(current, rest, n)) == Numbered(ResponseTexts(rest), n)
    decreases |rest|
  {
    if rest == [] {
    } else if rest[0].ToolResponseStep? {
      var r := ResponseSection(n, rest[0].text);
      GroupResponses([], rest[1..], n + 1);
      ResponseSectionsAppend(Flush(current, n) + [r], Group([], rest[1..], n + 1));
      ResponseSectionsAppend(Flush(current, n), [r]);
      assert [r][1..] == [];
      assert ResponseSections(Flush(current, n)) == [];
      assert ResponseTexts(rest)[1..] == ResponseTexts(rest[1..]);
    } else {
      GroupResponses(current + [ActionLine(rest[0])], rest[1..], n);
      assert ResponseTexts(rest) == [] + ResponseTexts(rest[1..]) == ResponseTexts(rest[1..]);
    }
  }

  /** Every reasoning or tool-call step lands in exactly one action section, in the
      original order: the action sections' lines are the open lines followed by the
      lines of the action steps. */
  lemma {:induction false} GroupActionLines(current: seq<string>, rest: seq<Step>, n: nat)
    ensures ActionSectionLines(Group(current, rest, n)) == current + ActionLines(rest)
    decreases |rest|
  {
    if rest == [] {
      assert current + [] == current;
    } else if rest[0].ToolResponseStep? {
      var tail := Group([], rest[1..], n + 1);
      GroupActionLines([], rest[1..], n + 1);
      ActionSectionLinesAppend(Flush(current, n) + [ResponseSection(n, rest[0].text)], tail);
      ActionSectionLinesAppend(Flush(current, n), [ResponseSection(n, rest[0].text)]);
    } else {
      GroupActionLines(current + [ActionLine(rest[0])], rest[1..], n);
    }
  }

  /** No action section is empty, and every action section is either the last section
      or is followed directly by the tool-response section of the same number. */
  lemma {:induction false} GroupShape(current: seq<string>, rest: seq<Step>, n: nat)
    ensures forall p :: 0 <= p < |Group(current, rest, n)| && Group(current, rest, n)[p].ActionSection? ==>
      && Group(current, rest, n)[p].lines != []
      && (p == |Group(current, rest, n)| - 1
          || (Group(current, rest, n)[p + 1].ResponseSection?
              && Group(current, rest, n)[p + 1].number == Group(current, rest, n)[p].number))
    decreases |rest|
  {
    if rest == [] {
    } else if rest[0].ToolResponseStep? {
      var head := Flush(current, n) + [ResponseSection(n, rest[0].text)];
      var tail := Group([], rest[1..], n + 1);
      GroupShape([], rest[1..], n + 1);
      var g := head + tail;
      assert g == Group(current, rest, n);
      forall p | 0 <= p < |g| && g[p].ActionSection?
        ensures g[p].lines != []
        ensures p == |g| - 1 || (g[p + 1].ResponseSection? && g[p + 1].number == g[p].number)
      {
        if p >= |head| {
          assert g[p] == tail[p - |head|];
          assert p + 1 < |g| ==> g[p + 1] == tail[p + 1 - |head|];
        }
      }
    } else {
      GroupShape(current + [ActionLine(rest[0])], rest[1..], n);
    }
  }

  /** Position k of the numbered sections is "Tool Response n + k" with the k-th text. */
  lemma {:induction false} NumberedAt(texts: seq<string>, n: nat, k: nat)
    requires k < |texts|
    ensures |Numbered(texts, n)| == |texts|
    ensures Numbered(texts, n)[k] == ResponseSection(n + k, texts[k])
  {
    if 0 < k {
      NumberedAt(texts[1..], n + 1, k - 1);
    } else {
      NumberedLength(texts, n);
    }
  }

  lemma {:induction false} NumberedLength(texts: seq<string>, n: nat)
    ensures |Numbered(texts, n)| == |texts|
  {
    if texts != [] {
      NumberedLength(texts[1..], n + 1);
    }
  }

  /** Over a whole turn, the k-th tool-response section is "Tool Response k + 1" and
      holds the k-th tool response, and there is one such section per response. */
  lemma GroupStepsNumbering(steps: seq<Step>, k: nat)
    requires k < |ResponseTexts(steps)|
    ensures |ResponseSections(Group([], steps, 1))| == |ResponseTexts(steps)|
    ensures ResponseSections(Group([], steps, 1))[k] == ResponseSection(k + 1, ResponseTexts(steps)[k])
  {
    GroupResponses([], steps, 1);
    NumberedAt(ResponseTexts(steps), 1, k);
  }
}
