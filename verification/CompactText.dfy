/** Shortening one text to its head, its signal lines and its tail around a marker. */
module CompactText {
  import opened Basics
  import opened Models

  /** The characters that stripping a Python string removes. */
  predicate IsSpace(c: char) {
    || '\t' <= c <= '\r' || '\U{1C}' <= c <= ' ' || c == '\U{85}' || c == '\U{A0}' || c == '\U{1680}'
    || '\U{2000}' <= c <= '\U{200A}' || c == '\U{2028}' || c == '\U{2029}' || c == '\U{202F}'
    || c == '\U{205F}' || c == '\U{3000}'
  }

  function LStrip(s: string): (t: string)
    ensures |t| <= |s| && t == s[|s| - |t|..]
    ensures t != "" ==> !IsSpace(t[0])
    decreases |s|
  {
    if s == "" || !IsSpace(s[0]) then s else LStrip(s[1..])
  }

  function RStrip(s: string): (t: string)
    ensures t <= s
    ensures t != "" ==> !IsSpace(t[|t| - 1])
    decreases |s|
  {
    if s == "" || !IsSpace(s[|s| - 1]) then s else RStrip(s[..|s| - 1])
  }

  /** Stripping removes spaces only, so exactly those before the first character that is none. */
  lemma {:induction false} LStripRemovesSpace(s: string, k: nat)
    requires k < |s| - |LStrip(s)|
    ensures IsSpace(s[k])
    decreases k
  {
    hide IsSpace;
    if k > 0 { LStripRemovesSpace(s[1..], k - 1); }
  }

  /** The same from the end of the text. */
  lemma {:induction false} RStripRemovesSpace(s: string, k: nat)
    requires |RStrip(s)| <= k < |s|
    ensures IsSpace(s[k])
    decreases |s|
  {
    hide IsSpace;
    if k < |s| - 1 { RStripRemovesSpace(s[..|s| - 1], k); }
  }

  function TypeName(t: BlockType): string {
    match t
    case Protocol => "protocol" case User => "user" case Assistant => "assistant" case Tool => "tool"
    case Test => "test" case Patch => "patch" case Generic => "generic"
  }

  /** The marker line, without the newlines that surround it. */
  function Marker(t: BlockType): (m: string)
    ensures m != ""
  {
    "[PromptRail inline " + TypeName(t) + " summary]"
  }

  /** The length of the marker with its newlines, which the size budget is charged. */
  function MarkerCost(t: BlockType): nat {
    |Marker(t)| + 2
  }

  function ContentBudget(targetTokens: int, t: BlockType): (n: nat)
    ensures n >= 48
  {
    MaxInt(48, targetTokens * 4 - MarkerCost(t))
  }

  function HeadBudget(budget: nat): nat {
    MaxInt(24, budget * 45 / 100)
  }

  function TailBudget(budget: nat): nat {
    MaxInt(24, budget * 25 / 100)
  }

  function SignalBudget(budget: nat): nat {
    MaxInt(0, budget - HeadBudget(budget) - TailBudget(budget))
  }

  function Join(parts: seq<string>): string
    decreases |parts|
  {
    if parts == [] then ""
    else if |parts| == 1 then parts[0]
    else parts[0] + "\n" + Join(parts[1..])
  }

  function NonEmpty(parts: seq<string>): seq<string>
    decreases |parts|
  {
    if parts == [] then [] else (if parts[0] == "" then [] else [parts[0]]) + NonEmpty(parts[1..])
  }

  function Take(s: string, n: nat): (t: string)
    ensures t <= s && |t| == MinInt(|s|, n)
  {
    if n < |s| then s[..n] else s
  }

  /** The text, or its head, signal and tail.  Which lines are a signal depends on the kind of block. */
  function Compact(content: string, targetTokens: int, t: BlockType, signalLines: string): string {
    var budget := ContentBudget(targetTokens, t);
    if budget >= |content| then content
    else
      Join(NonEmpty([Head(content, budget), Marker(t), RStrip(Take(signalLines, SignalBudget(budget))),
                     Tail(content, budget)]))
  }

  /** The start of the text, without trailing space. */
  function Head(content: string, budget: nat): (h: string)
    ensures h <= content && |h| <= HeadBudget(budget)
  {
    RStrip(content[..HeadSize(content, budget)])
  }

  /** The end of the text, without leading space. */
  function Tail(content: string, budget: nat): (t: string)
    ensures |t| <= |content| && t == content[|content| - |t|..] && |t| <= TailBudget(budget)
  {
    LStrip(content[|content| - TailSize(content, budget)..])
  }

  function HeadSize(content: string, budget: nat): (n: nat)
    ensures n <= |content| && n <= HeadBudget(budget)
  {
    MinInt(|content|, HeadBudget(budget))
  }

  function TailSize(content: string, budget: nat): (n: nat)
    ensures n <= |content| && n <= TailBudget(budget)
  {
    MinInt(|content|, TailBudget(budget))
  }

  // ---------------------------------------------------------------- what a compacted text looks like

  function Lengths(parts: seq<string>): nat
    decreases |parts|
  {
    if parts == [] then 0 else |parts[0]| + Lengths(parts[1..])
  }

  lemma {:induction false} JoinLength(parts: seq<string>)
    ensures |Join(parts)| == Lengths(parts) + (if parts == [] then 0 else |parts| - 1)
    decreases |parts|
  {
    if |parts| > 1 { JoinLength(parts[1..]); }
  }

  lemma NonEmptyOfFour(a: string, b: string, c: string, d: string)
    ensures var kept := NonEmpty([a, b, c, d]);
            Lengths(kept) == |a| + |b| + |c| + |d| && |kept| <= 4
    ensures b != "" ==> NonEmpty([a, b, c, d]) != []
    ensures c == "" ==> |NonEmpty([a, b, c, d])| <= 3
  {
    var p := [a, b, c, d];
    assert p[1..] == [b, c, d] && [b, c, d][1..] == [c, d] && [c, d][1..] == [d] && [d][1..] == [];
    DropOne(p);
    DropOne([b, c, d]);
    DropOne([c, d]);
    DropOne([d]);
  }

  lemma DropOne(parts: seq<string>)
    requires parts != []
    ensures Lengths(NonEmpty(parts)) == |parts[0]| + Lengths(NonEmpty(parts[1..]))
    ensures |NonEmpty(parts)| == (if parts[0] == "" then 0 else 1) + |NonEmpty(parts[1..])|
  {
    var rest := NonEmpty(parts[1..]);
    if parts[0] == "" {
      assert [] + rest == rest;
    } else {
      LengthsOfCons(parts[0], rest);
    }
  }

  lemma LengthsOfCons(first: string, rest: seq<string>)
    ensures Lengths([first] + rest) == |first| + Lengths(rest)
  {
    assert ([first] + rest)[1..] == rest;
  }

  lemma BudgetsFit(budget: nat)
    requires budget >= 48
    ensures HeadBudget(budget) + TailBudget(budget) + SignalBudget(budget) == budget
  {
  }

  /** A text longer than its budget shrinks to at most the budget, the marker and one more character;
      a text within its budget is returned as it is. */
  lemma CompactIsBounded(content: string, targetTokens: int, t: BlockType, signalLines: string)
    ensures var budget := ContentBudget(targetTokens, t);
            var r := Compact(content, targetTokens, t, signalLines);
            && budget == MaxInt(48, 4 * targetTokens - MarkerCost(t))
            && (|content| <= budget ==> r == content)
            && (|content| > budget ==> |r| <= budget + MarkerCost(t) + 1)
  {
    hide Head, Tail, HeadBudget, TailBudget, SignalBudget, Join, NonEmpty, Lengths, Marker, RStrip;
    var budget := ContentBudget(targetTokens, t);
    if |content| > budget {
      BudgetsFit(budget);
      var head, tail := Head(content, budget), Tail(content, budget);
      var signal := RStrip(Take(signalLines, SignalBudget(budget)));
      NonEmptyOfFour(head, Marker(t), signal, tail);
      JoinLength(NonEmpty([head, Marker(t), signal, tail]));
    }
  }

  /** Four texts, each on a line of its own unless it is empty; the second is not. */
  function Lines(first: string, second: string, third: string, fourth: string): string {
    var rest := second + (Line(third) + Line(fourth));
    if first == "" then rest else first + ("\n" + rest)
  }

  /** A text and the newline before it, or nothing at all. */
  function Line(s: string): string {
    if s == "" then "" else "\n" + s
  }

  /** What a text longer than its budget is shortened to: its start without trailing space, the marker, the start
      of its signal lines, and its end without leading space, each on a line of its own unless it is empty. */
  lemma CompactKeepsBothEnds(content: string, targetTokens: int, t: BlockType, signalLines: string)
    requires |content| > ContentBudget(targetTokens, t)
    ensures var budget := ContentBudget(targetTokens, t);
            var head, tail := MaxInt(24, budget * 45 / 100), MaxInt(24, budget * 25 / 100);
            && head + tail <= budget < |content|
            && (var first, last := RStrip(content[..head]), LStrip(content[|content| - tail..]);
                var signal := RStrip(Take(signalLines, budget - head - tail));
                Compact(content, targetTokens, t, signalLines) == Lines(first, Marker(t), signal, last))
  {
    hide RStrip, LStrip, Take, Join, NonEmpty, Marker, ContentBudget, Head, Tail, SignalBudget, IsSpace, Compact, Lines;
    var budget := ContentBudget(targetTokens, t);
    var head, tail := MaxInt(24, budget * 45 / 100), MaxInt(24, budget * 25 / 100);
    PartsAre(content, budget, head, tail);
    var first, last := RStrip(content[..head]), LStrip(content[|content| - tail..]);
    var signal := RStrip(Take(signalLines, budget - head - tail));
    JoinsParts(content, targetTokens, t, signalLines);
    JoinOfFour(first, Marker(t), signal, last);
  }

  lemma JoinsParts(content: string, targetTokens: int, t: BlockType, signalLines: string)
    requires |content| > ContentBudget(targetTokens, t)
    ensures var budget := ContentBudget(targetTokens, t);
            Compact(content, targetTokens, t, signalLines)
              == Join(NonEmpty([Head(content, budget), Marker(t),
                                RStrip(Take(signalLines, SignalBudget(budget))), Tail(content, budget)]))
  {
    hide RStrip, LStrip, Take, Join, NonEmpty, Marker, ContentBudget, Head, Tail, SignalBudget, IsSpace;
  }

  lemma PartsAre(content: string, budget: nat, head: nat, tail: nat)
    requires 48 <= budget < |content|
    requires head == MaxInt(24, budget * 45 / 100) && tail == MaxInt(24, budget * 25 / 100)
    ensures head + tail <= budget && SignalBudget(budget) == budget - head - tail
    ensures Head(content, budget) == RStrip(content[..head])
    ensures Tail(content, budget) == LStrip(content[|content| - tail..])
  {
    hide RStrip, LStrip;
    BudgetsFit(budget);
  }

  lemma JoinOfFour(a: string, b: string, c: string, d: string)
    requires b != ""
    ensures Join(NonEmpty([a, b, c, d])) == Lines(a, b, c, d)
  {
    hide Join, NonEmpty;
    assert [a] + [b, c, d] == [a, b, c, d] && [b] + [c, d] == [b, c, d];
    JoinStep(a, [b, c, d]);
    JoinStep(b, [c, d]);
    JoinOfTwo(c, d);
  }

  lemma JoinOfTwo(c: string, d: string)
    ensures (if NonEmpty([c, d]) == [] then "" else "\n" + Join(NonEmpty([c, d]))) == Line(c) + Line(d)
  {
    JoinsNothing();
    hide Join, NonEmpty;
    assert [c] + [d] == [c, d] && [d] + [] == [d];
    JoinStep(d, []);
    JoinStep(c, [d]);
    assert "\n" + (c + ("\n" + d)) == ("\n" + c) + ("\n" + d);
  }

  lemma JoinsNothing()
    ensures NonEmpty([]) == [] && Join([]) == ""
  {
  }

  lemma JoinStep(a: string, rest: seq<string>)
    ensures var more := NonEmpty(rest);
            && Join(NonEmpty([a] + rest)) ==
                 (if a == "" then Join(more) else if more == [] then a else a + ("\n" + Join(more)))
            && (NonEmpty([a] + rest) == [] <==> a == "" && more == [])
            && (Join(more) == "" <==> more == [])
  {
    var more := NonEmpty(rest);
    assert ([a] + rest)[0] == a && ([a] + rest)[1..] == rest;
    NonEmptyParts(rest);
    if a != "" {
      assert ([a] + more)[0] == a && ([a] + more)[1..] == more;
    } else {
      assert [] + more == more;
    }
  }

  lemma {:induction false} NonEmptyParts(parts: seq<string>)
    ensures NonEmpty(parts) != [] ==> NonEmpty(parts)[0] != ""
    decreases |parts|
  {
    if parts != [] { NonEmptyParts(parts[1..]); }
  }
}
