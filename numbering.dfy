/**
 * The heading-numbering engine (`updateHeadingNumbering`) with the decimal
 * style, no skipped top level: a left-to-right scan over the headings that
 * keeps one counter per depth, starting at `firstLevel`, and emits one change
 * per heading whose level lies in `[firstLevel, maxLevel]`.
 */
module Numbering {
  import opened EditorTypes
  import Decimal
  import TestSupport

  /** The settings the engine reads: the numbered levels and the separator. */
  datatype Settings = Settings(firstLevel: int, maxLevel: int, separator: string)

  /** A heading is numbered exactly when its level lies in `[firstLevel, maxLevel]`. */
  predicate InRange(h: Heading, s: Settings) {
    s.firstLevel <= h.level <= s.maxLevel
  }

  /** The counter-stack index of a numbered heading. */
  function Depth(h: Heading, s: Settings): nat
    requires InRange(h, s)
  {
    h.level - s.firstLevel
  }

  function Zeros(n: nat): seq<nat> {
    seq(n, _ => 0)
  }

  /** The counter stack brought to length `n`: padded with zeros, or cut short. */
  function Fit(stack: seq<nat>, n: nat): (r: seq<nat>)
    ensures |r| == n
    ensures forall k :: 0 <= k < n ==> r[k] == if k < |stack| then stack[k] else 0
  {
    if |stack| < n then stack + Zeros(n - |stack|) else stack[..n]
  }

  /**
   * The counter stack after a heading at index `depth`: the ancestors keep
   * their counters (missing ones are 0), deeper counters are dropped, and the
   * counter at `depth` goes up by one.
   */
  function Advance(stack: seq<nat>, depth: nat): (r: seq<nat>)
    ensures |r| == depth + 1
    ensures forall k :: 0 <= k < depth ==> r[k] == if k < |stack| then stack[k] else 0
    ensures r[depth] == (if depth < |stack| then stack[depth] else 0) + 1
  {
    var f := Fit(stack, depth + 1);
    f[depth := f[depth] + 1]
  }

  /** One heading's effect on the counter stack: none when it is out of range. */
  function Step(stack: seq<nat>, h: Heading, s: Settings): seq<nat> {
    if InRange(h, s) then Advance(stack, Depth(h, s)) else stack
  }

  /** The counter stack after scanning `hs` from `stack`. */
  function StackAfter(stack: seq<nat>, hs: seq<Heading>, s: Settings): seq<nat>
    decreases |hs|
  {
    if hs == [] then stack else StackAfter(Step(stack, hs[0], s), hs[1..], s)
  }

  /** The rendered number: every counter in decimal, each followed by the separator. */
  function NumberString(counters: seq<nat>, sep: string): string
    decreases |counters|
  {
    if counters == [] then ""
    else Decimal.DecimalString(counters[0]) + sep + NumberString(counters[1..], sep)
  }

  /** The change for a numbered heading whose counters are `counters`. */
  function ChangeFor(h: Heading, counters: seq<nat>, s: Settings): Change {
    Change(h.start.line, NumberString(counters, s.separator))
  }

  /** The changes emitted while scanning `hs` from `stack`. */
  function ChangesFrom(stack: seq<nat>, hs: seq<Heading>, s: Settings): seq<Change>
    decreases |hs|
  {
    if hs == [] then []
    else
      var next := Step(stack, hs[0], s);
      (if InRange(hs[0], s) then [ChangeFor(hs[0], next, s)] else []) + ChangesFrom(next, hs[1..], s)
  }

  /** Scanning from index `k` on: heading `k`'s change (if numbered), then the rest. */
  lemma ChangesFromAt(stack: seq<nat>, hs: seq<Heading>, k: nat, s: Settings)
    requires k < |hs|
    ensures ChangesFrom(stack, hs[k..], s)
            == (if InRange(hs[k], s) then [ChangeFor(hs[k], Step(stack, hs[k], s), s)] else [])
               + ChangesFrom(Step(stack, hs[k], s), hs[k + 1..], s)
  {
    assert hs[k..][0] == hs[k];
    assert hs[k..][1..] == hs[k + 1..];
  }

  /**
   * Concatenation regroups. Kept as a lemma rather than an assert in the loop of
   * `ComputeChanges`: called there, it gives the solver just this one fact to use.
   */
  lemma AppendAssoc<T>(a: seq<T>, b: seq<T>, c: seq<T>)
    ensures a + b + c == a + (b + c)
  {
  }


  /** The changes one run of the engine emits for `hs`, in document order. */
  function NumberingChanges(hs: seq<Heading>, s: Settings): seq<Change> {
    ChangesFrom([], hs, s)
  }

  /** The headings of `hs` that are numbered, in order. */
  function InRangeOnly(hs: seq<Heading>, s: Settings): seq<Heading>
    decreases |hs|
  {
    if hs == [] then []
    else (if InRange(hs[0], s) then [hs[0]] else []) + InRangeOnly(hs[1..], s)
  }

  /** The counters in force right after heading `j` has been scanned. */
  function CountersAt(hs: seq<Heading>, j: nat, s: Settings): seq<nat>
    requires j < |hs|
  {
    StackAfter([], hs[..j + 1], s)
  }

  /** The length of the run of digits at the start of `t`. */
  function DigitRun(t: string): (k: nat)
    ensures k <= |t|
    ensures forall i :: 0 <= i < k ==> Decimal.IsDigit(t[i])
    ensures k < |t| ==> !Decimal.IsDigit(t[k])
    decreases |t|
  {
    if t == [] || !Decimal.IsDigit(t[0]) then 0 else 1 + DigitRun(t[1..])
  }

  /** Reads a number string back into its counters; None when `t` is not one. */
  function ParseNumber(t: string, sep: string): Option<seq<nat>>
    decreases |t|
  {
    if t == [] then Some([])
    else
      var k := DigitRun(t);
      if k == 0 || !(sep <= t[k..]) then None
      else
        match ParseNumber(t[k + |sep|..], sep)
        case None => None
        case Some(rest) => Some([Decimal.DecimalValue(t[..k])] + rest)
  }

  /** Brings the counter stack to `depth + 1` entries and counts the heading at `depth`. */
  method AdvanceCounters(stack: seq<nat>, depth: nat) returns (next: seq<nat>)
    ensures next == Advance(stack, depth)
  {
    next := stack;
    if |next| < depth + 1 {
      next := next + Zeros(depth + 1 - |next|);
    } else {
      next := next[..depth + 1];
    }
    next := next[depth := next[depth] + 1];
  }

  /** The scan itself: one pass over the headings with a counter stack. */
  method ComputeChanges(headings: seq<Heading>, settings: Settings) returns (changes: seq<Change>)
    ensures changes == NumberingChanges(headings, settings)
  {
    var stack: seq<nat> := [];
    changes := [];
    var i := 0;
    while i < |headings|
      invariant 0 <= i <= |headings|
      invariant changes + ChangesFrom(stack, headings[i..], settings) == NumberingChanges(headings, settings)
    {
      var h := headings[i];
      ChangesFromAt(stack, headings, i, settings);
      if settings.firstLevel <= h.level <= settings.maxLevel {
        stack := AdvanceCounters(stack, h.level - settings.firstLevel);
        var change := Change(h.start.line, NumberString(stack, settings.separator));
        AppendAssoc(changes, [change], ChangesFrom(stack, headings[i + 1..], settings));
        changes := changes + [change];
      }
      i := i + 1;
    }
  }

  /** updateHeadingNumbering: computes the changes and hands them to the editor in one transaction. */
  method UpdateHeadingNumbering(viewInfo: TestSupport.ViewInfo, settings: Settings)
    modifies viewInfo.editor
    ensures viewInfo.editor.changes == old(viewInfo.editor.changes) + NumberingChanges(viewInfo.headings, settings)
  {
    var changes := ComputeChanges(viewInfo.headings, settings);
    viewInfo.editor.Transaction(changes);
  }
}
