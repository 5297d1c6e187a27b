/** What the numbering engine guarantees, proved about its specification functions. */
module NumberingProperties {
  import opened EditorTypes
  import Decimal
  import opened TestSupport
  import opened Numbering

  // ---- Composition of the scan ----

  lemma {:induction false} InRangeOnlyAppend(a: seq<Heading>, b: seq<Heading>, s: Settings)
    ensures InRangeOnly(a + b, s) == InRangeOnly(a, s) + InRangeOnly(b, s)
    decreases |a|
  {
    if a != [] {
      assert (a + b)[1..] == a[1..] + b;
      InRangeOnlyAppend(a[1..], b, s);
    } else {
      assert a + b == b;
    }
  }

  /** When every heading is numbered, none is dropped. */
  lemma {:induction false} InRangeOnlyAll(hs: seq<Heading>, s: Settings)
    requires forall k :: 0 <= k < |hs| ==> InRange(hs[k], s)
    ensures InRangeOnly(hs, s) == hs
    decreases |hs|
  {
    if hs != [] {
      InRangeOnlyAll(hs[1..], s);
      assert [hs[0]] + hs[1..] == hs;
    }
  }

  /** Every numbered heading is one of the input headings. */
  lemma {:induction false} InRangeOnlyMembers(hs: seq<Heading>, s: Settings)
    ensures forall x :: x in InRangeOnly(hs, s) ==> x in hs && InRange(x, s)
    decreases |hs|
  {
    if hs != [] {
      InRangeOnlyMembers(hs[1..], s);
    }
  }

  lemma {:induction false} StackAfterAppend(stack: seq<nat>, a: seq<Heading>, b: seq<Heading>, s: Settings)
    ensures StackAfter(stack, a + b, s) == StackAfter(StackAfter(stack, a, s), b, s)
    decreases |a|
  {
    if a != [] {
      assert (a + b)[1..] == a[1..] + b;
      StackAfterAppend(Step(stack, a[0], s), a[1..], b, s);
    } else {
      assert a + b == b;
    }
  }

  /** Scanning `a + b` emits `a`'s changes, then `b`'s changes from the stack `a` left. */
  lemma {:induction false} ChangesFromAppend(stack: seq<nat>, a: seq<Heading>, b: seq<Heading>, s: Settings)
    ensures ChangesFrom(stack, a + b, s) == ChangesFrom(stack, a, s) + ChangesFrom(StackAfter(stack, a, s), b, s)
    decreases |a|
  {
    if a != [] {
      var next := Step(stack, a[0], s);
      var head := if InRange(a[0], s) then [ChangeFor(a[0], next, s)] else [];
      assert (a + b)[0] == a[0];
      assert (a + b)[1..] == a[1..] + b;
      assert ChangesFrom(stack, a + b, s) == head + ChangesFrom(next, a[1..] + b, s);
      assert ChangesFrom(stack, a, s) == head + ChangesFrom(next, a[1..], s);
      assert StackAfter(stack, a, s) == StackAfter(next, a[1..], s);
      ChangesFromAppend(next, a[1..], b, s);
    } else {
      assert a + b == b;
    }
  }

  // ---- Which headings get a change ----

  /**
   * One change per numbered heading, in order, each on its heading's line,
   * whatever the counters were when the scan started.
   */
  lemma {:induction false} ChangesFromLines(stack: seq<nat>, hs: seq<Heading>, s: Settings)
    ensures |ChangesFrom(stack, hs, s)| == |InRangeOnly(hs, s)|
    ensures forall k :: 0 <= k < |InRangeOnly(hs, s)| ==>
              ChangesFrom(stack, hs, s)[k].fromLine == InRangeOnly(hs, s)[k].start.line
    decreases |hs|
  {
    if hs != [] {
      ChangesFromLines(Step(stack, hs[0], s), hs[1..], s);
    }
  }

  /** The number of changes is the number of headings with level in `[firstLevel, maxLevel]`. */
  lemma ChangeCount(hs: seq<Heading>, s: Settings)
    ensures |NumberingChanges(hs, s)| == |InRangeOnly(hs, s)|
    ensures forall k :: 0 <= k < |InRangeOnly(hs, s)| ==>
              NumberingChanges(hs, s)[k].fromLine == InRangeOnly(hs, s)[k].start.line
  {
    ChangesFromLines([], hs, s);
  }

  /** No two headings share a line, as in a parsed document. */
  predicate DistinctLines(hs: seq<Heading>) {
    forall i, j :: 0 <= i < j < |hs| ==> hs[i].start.line != hs[j].start.line
  }

  /** A heading outside `[firstLevel, maxLevel]` gets no change on its line. */
  lemma OutOfRangeGetsNoChange(hs: seq<Heading>, j: nat, s: Settings)
    requires j < |hs| && DistinctLines(hs) && !InRange(hs[j], s)
    ensures Find(NumberingChanges(hs, s), hs[j].start.line).None?
  {
    ChangeCount(hs, s);
    InRangeOnlyMembers(hs, s);
    var cs := NumberingChanges(hs, s);
    forall k | 0 <= k < |cs|
      ensures cs[k].fromLine != hs[j].start.line
    {
      var x := InRangeOnly(hs, s)[k];
      assert x in InRangeOnly(hs, s);
      var m :| 0 <= m < |hs| && hs[m] == x;
      assert m != j;
    }
  }

  /** The counters after heading `j` are one step on from those the headings before it left. */
  lemma CountersAtStep(hs: seq<Heading>, j: nat, s: Settings)
    requires j < |hs|
    ensures CountersAt(hs, j, s) == Step(StackAfter([], hs[..j], s), hs[j], s)
  {
    assert hs[..j + 1] == hs[..j] + [hs[j]];
    StackAfterAppend([], hs[..j], [hs[j]], s);
    assert [hs[j]][1..] == [];
  }

  /** The changes split at heading `j`: those of the headings before it, then those from `j` on. */
  lemma ChangesSplitAt(hs: seq<Heading>, j: nat, s: Settings)
    requires j <= |hs|
    ensures NumberingChanges(hs, s)
            == ChangesFrom([], hs[..j], s) + ChangesFrom(StackAfter([], hs[..j], s), hs[j..], s)
  {
    assert hs[..j] + hs[j..] == hs;
    ChangesFromAppend([], hs[..j], hs[j..], s);
  }

  /** The scan from a numbered heading `j` on starts with `j`'s own change. */
  lemma ChangesFromHeading(hs: seq<Heading>, j: nat, s: Settings)
    requires j < |hs| && InRange(hs[j], s)
    ensures var tail := ChangesFrom(StackAfter([], hs[..j], s), hs[j..], s);
            |tail| > 0 && tail[0] == ChangeFor(hs[j], CountersAt(hs, j, s), s)
  {
    ChangesFromAt(StackAfter([], hs[..j], s), hs, j, s);
    CountersAtStep(hs, j, s);
  }

  /** Where the change of heading `j` sits: after the changes of the numbered headings before it. */
  lemma ChangeAt(hs: seq<Heading>, j: nat, s: Settings)
    requires j < |hs| && InRange(hs[j], s)
    ensures |InRangeOnly(hs[..j], s)| < |NumberingChanges(hs, s)|
    ensures NumberingChanges(hs, s)[|InRangeOnly(hs[..j], s)|]
            == Change(hs[j].start.line, NumberString(CountersAt(hs, j, s), s.separator))
  {
    ChangesSplitAt(hs, j, s);
    ChangesFromHeading(hs, j, s);
    ChangesFromLines([], hs[..j], s);
  }

  /** A numbered heading's line carries its own number, and `find` on that line returns it. */
  lemma InRangeGetsItsNumber(hs: seq<Heading>, j: nat, s: Settings)
    requires j < |hs| && DistinctLines(hs) && InRange(hs[j], s)
    ensures Find(NumberingChanges(hs, s), hs[j].start.line)
            == Some(Change(hs[j].start.line, NumberString(CountersAt(hs, j, s), s.separator)))
  {
    ChangeAt(hs, j, s);
    ChangeCount(hs, s);
    var n := |InRangeOnly(hs[..j], s)|;
    var cs := NumberingChanges(hs, s);
    assert hs == hs[..j] + hs[j..];
    InRangeOnlyAppend(hs[..j], hs[j..], s);
    InRangeOnlyMembers(hs[..j], s);
    forall k | 0 <= k < n
      ensures cs[k].fromLine != hs[j].start.line
    {
      var x := InRangeOnly(hs[..j], s)[k];
      assert x in InRangeOnly(hs[..j], s);
      assert InRangeOnly(hs, s)[k] == x;
      var m :| 0 <= m < j && hs[..j][m] == x;
      assert hs[m] == x;
    }
    FindFirst(cs, hs[j].start.line, n);
  }

  // ---- Out-of-range headings are transparent ----

  /** Dropping the unnumbered headings changes neither the changes nor the final counters. */
  lemma {:induction false} Transparent(stack: seq<nat>, hs: seq<Heading>, s: Settings)
    ensures StackAfter(stack, hs, s) == StackAfter(stack, InRangeOnly(hs, s), s)
    ensures ChangesFrom(stack, hs, s) == ChangesFrom(stack, InRangeOnly(hs, s), s)
    decreases |hs|
  {
    if hs != [] {
      var next := Step(stack, hs[0], s);
      var rest := InRangeOnly(hs[1..], s);
      Transparent(next, hs[1..], s);
      if InRange(hs[0], s) {
        var only := InRangeOnly(hs, s);
        assert only == [hs[0]] + rest;
        assert only[0] == hs[0] && only[1..] == rest;
        assert StackAfter(stack, only, s) == StackAfter(next, rest, s);
        assert ChangesFrom(stack, only, s) == [ChangeFor(hs[0], next, s)] + ChangesFrom(next, rest, s);
      } else {
        assert InRangeOnly(hs, s) == [] + rest == rest;
        assert ChangesFrom(stack, hs, s) == [] + ChangesFrom(stack, hs[1..], s);
      }
    }
  }

  /** Inserting an unnumbered heading anywhere leaves every change as it was. */
  lemma OutOfRangeIgnored(a: seq<Heading>, h: Heading, b: seq<Heading>, s: Settings)
    requires !InRange(h, s)
    ensures NumberingChanges(a + [h] + b, s) == NumberingChanges(a + b, s)
  {
    Transparent([], a + [h] + b, s);
    Transparent([], a + b, s);
    InRangeOnlyAppend(a + [h], b, s);
    InRangeOnlyAppend(a, [h], s);
    InRangeOnlyAppend(a, b, s);
    assert [h][1..] == [];
    assert InRangeOnly([h], s) == [] + InRangeOnly([], s) == [];
    assert InRangeOnly(a + [h] + b, s) == InRangeOnly(a + b, s);
  }

  // ---- The counter stack ----

  /** The stack never holds more than `maxLevel - firstLevel + 1` counters (beyond where it started). */
  lemma {:induction false} StackBound(stack: seq<nat>, hs: seq<Heading>, s: Settings)
    ensures |StackAfter(stack, hs, s)| <= if |stack| < s.maxLevel - s.firstLevel + 1
                                          then s.maxLevel - s.firstLevel + 1 else |stack|
    decreases |hs|
  {
    if hs != [] {
      StackBound(Step(stack, hs[0], s), hs[1..], s);
    }
  }

  /** A numbered heading has one counter per depth from `firstLevel` down to its level, the last at least 1. */
  lemma CountersShape(hs: seq<Heading>, j: nat, s: Settings)
    requires j < |hs| && InRange(hs[j], s)
    ensures |CountersAt(hs, j, s)| == hs[j].level - s.firstLevel + 1
    ensures CountersAt(hs, j, s)[hs[j].level - s.firstLevel] >= 1
  {
    CountersAtStep(hs, j, s);
  }

  /** Advance only looks at the first `depth + 1` counters. */
  lemma AdvanceDependsOnFit(stack: seq<nat>, depth: nat)
    ensures Advance(stack, depth) == Advance(Fit(stack, depth + 1), depth)
  {
  }

  lemma FitFit(stack: seq<nat>, n: nat, m: nat)
    requires m <= n
    ensures Fit(Fit(stack, n), m) == Fit(stack, m)
  {
  }

  /** A heading deeper than `d` leaves the first `d + 1` counters (zero-padded) alone. */
  lemma FitAdvanceDeeper(stack: seq<nat>, e: nat, d: nat)
    requires e > d
    ensures Fit(Advance(stack, e), d + 1) == Fit(stack, d + 1)
  {
  }

  /** A run of headings that are all deeper than `d`, or unnumbered, leaves the first `d + 1` counters alone. */
  lemma {:induction false} FitDeeperRun(stack: seq<nat>, more: seq<Heading>, d: nat, s: Settings)
    requires forall k :: 0 <= k < |more| && InRange(more[k], s) ==> Depth(more[k], s) > d
    ensures Fit(StackAfter(stack, more, s), d + 1) == Fit(stack, d + 1)
    decreases |more|
  {
    if more != [] {
      if InRange(more[0], s) {
        FitAdvanceDeeper(stack, Depth(more[0], s), d);
      }
      FitDeeperRun(Step(stack, more[0], s), more[1..], d, s);
    }
  }

  /** Headings no deeper than `d` see only the first `d + 1` counters of the stack they start from. */
  lemma {:induction false} ShallowRunFit(stack: seq<nat>, hs: seq<Heading>, d: nat, s: Settings)
    requires forall k :: 0 <= k < |hs| && InRange(hs[k], s) ==> Depth(hs[k], s) <= d
    ensures ChangesFrom(stack, hs, s) == ChangesFrom(Fit(stack, d + 1), hs, s)
    decreases |hs|
  {
    if hs != [] {
      if InRange(hs[0], s) {
        var e := Depth(hs[0], s);
        AdvanceDependsOnFit(stack, e);
        AdvanceDependsOnFit(Fit(stack, d + 1), e);
        FitFit(stack, d + 1, e + 1);
      } else {
        ShallowRunFit(stack, hs[1..], d, s);
      }
    }
  }

  /**
   * Between two numbered headings `i < j`, if every numbered heading in
   * between is deeper than `j`, then `j`'s counters follow from `i`'s alone.
   */
  lemma NextNumbered(hs: seq<Heading>, i: nat, j: nat, s: Settings)
    requires i < j < |hs| && InRange(hs[i], s) && InRange(hs[j], s)
    requires forall k :: i < k < j && InRange(hs[k], s) ==> Depth(hs[k], s) > Depth(hs[j], s)
    ensures CountersAt(hs, j, s) == Advance(CountersAt(hs, i, s), Depth(hs[j], s))
  {
    var d := Depth(hs[j], s);
    var between := hs[i + 1..j];
    assert hs[..j + 1] == hs[..i + 1] + between + [hs[j]];
    StackAfterAppend([], hs[..i + 1] + between, [hs[j]], s);
    StackAfterAppend([], hs[..i + 1], between, s);
    var x := StackAfter(CountersAt(hs, i, s), between, s);
    forall k | 0 <= k < |between| && InRange(between[k], s)
      ensures Depth(between[k], s) > d
    {
      assert between[k] == hs[i + 1 + k];
    }
    FitDeeperRun(CountersAt(hs, i, s), between, d, s);
    AdvanceDependsOnFit(x, d);
    AdvanceDependsOnFit(CountersAt(hs, i, s), d);
  }

  /** A sibling, or a heading back at a shallower depth, keeps the ancestors and counts up from the earlier counter. */
  lemma SiblingOrShallower(hs: seq<Heading>, i: nat, j: nat, s: Settings)
    requires i < j < |hs| && InRange(hs[i], s) && InRange(hs[j], s)
    requires Depth(hs[j], s) <= Depth(hs[i], s)
    requires forall k :: i < k < j && InRange(hs[k], s) ==> Depth(hs[k], s) > Depth(hs[j], s)
    ensures |CountersAt(hs, i, s)| == Depth(hs[i], s) + 1
    ensures var c, d := CountersAt(hs, i, s), Depth(hs[j], s);
            CountersAt(hs, j, s) == c[..d] + [c[d] + 1]
  {
    NextNumbered(hs, i, j, s);
    CountersShape(hs, i, s);
  }

  /** A deeper heading keeps all of `i`'s counters, pads the skipped depths with 0 and starts its own at 1. */
  lemma DeeperStartsAtOne(hs: seq<Heading>, i: nat, j: nat, s: Settings)
    requires i < j < |hs| && InRange(hs[i], s) && InRange(hs[j], s)
    requires Depth(hs[j], s) > Depth(hs[i], s)
    requires forall k :: i < k < j && InRange(hs[k], s) ==> Depth(hs[k], s) > Depth(hs[j], s)
    ensures CountersAt(hs, j, s) == CountersAt(hs, i, s) + Zeros(Depth(hs[j], s) - Depth(hs[i], s) - 1) + [1]
  {
    NextNumbered(hs, i, j, s);
    CountersShape(hs, i, s);
  }

  /** Counting a heading at depth `d` on an empty stack: zeros above it, and 1 at `d`. */
  lemma AdvanceEmpty(d: nat)
    ensures Advance([], d) == Zeros(d) + [1]
  {
  }

  /** The first numbered heading at its depth or above: every ancestor slot is 0 and it is numbered 1. */
  lemma FirstNumbered(hs: seq<Heading>, j: nat, s: Settings)
    requires j < |hs| && InRange(hs[j], s)
    requires forall k :: 0 <= k < j && InRange(hs[k], s) ==> Depth(hs[k], s) > Depth(hs[j], s)
    ensures CountersAt(hs, j, s) == Zeros(Depth(hs[j], s)) + [1]
  {
    var d := Depth(hs[j], s);
    var before := StackAfter([], hs[..j], s);
    CountersAtStep(hs, j, s);
    forall k | 0 <= k < |hs[..j]| && InRange(hs[..j][k], s)
      ensures Depth(hs[..j][k], s) > d
    {
      assert hs[..j][k] == hs[k];
    }
    FitDeeperRun([], hs[..j], d, s);
    AdvanceDependsOnFit(before, d);
    AdvanceDependsOnFit([], d);
    AdvanceEmpty(d);
  }

  /** A heading at the last depth of the stack counts that counter up by one. */
  lemma AdvanceLast(p: seq<nat>, n: nat)
    ensures Advance(p + [n], |p|) == p + [n + 1]
  {
  }

  /** A change numbered `n + 1` in front of changes that count on from `n + 1` counts on from `n`. */
  lemma RunConsFrom(p: seq<nat>, n: nat, c: Change, rest: seq<Change>, sep: string)
    requires c.text == NumberString(p + [n + 1], sep)
    requires forall k :: 0 <= k < |rest| ==> rest[k].text == NumberString(p + [n + 1 + k + 1], sep)
    ensures forall k :: 0 <= k < |[c] + rest| ==> ([c] + rest)[k].text == NumberString(p + [n + k + 1], sep)
  {
    forall k | 0 <= k < |[c] + rest|
      ensures ([c] + rest)[k].text == NumberString(p + [n + k + 1], sep)
    {
      if k > 0 {
        assert ([c] + rest)[k] == rest[k - 1];
        assert n + 1 + (k - 1) + 1 == n + k + 1;
      }
    }
  }

  /** From counters `p + [n]`, headings all at depth `|p|` count on from `n`. */
  lemma {:induction false} SameDepthRunFrom(p: seq<nat>, n: nat, hs: seq<Heading>, s: Settings)
    requires forall k :: 0 <= k < |hs| && InRange(hs[k], s) ==> Depth(hs[k], s) == |p|
    ensures forall k :: 0 <= k < |ChangesFrom(p + [n], hs, s)| ==>
              ChangesFrom(p + [n], hs, s)[k].text == NumberString(p + [n + k + 1], s.separator)
    decreases |hs|
  {
    if hs != [] {
      if InRange(hs[0], s) {
        var next := p + [n + 1];
        AdvanceLast(p, n);
        SameDepthRunFrom(p, n + 1, hs[1..], s);
        RunConsFrom(p, n, ChangeFor(hs[0], next, s), ChangesFrom(next, hs[1..], s), s.separator);
      } else {
        SameDepthRunFrom(p, n, hs[1..], s);
      }
    }
  }

  /** Fitting the empty stack gives all-zero counters. */
  lemma FitEmpty(d: nat)
    ensures Fit([], d + 1) == Zeros(d) + [0]
  {
  }

  /** Headings numbered only at depth `d` are scanned as if from an all-zero stack of `d + 1` counters. */
  lemma SameDepthStart(hs: seq<Heading>, d: nat, s: Settings)
    requires forall k :: 0 <= k < |hs| && InRange(hs[k], s) ==> Depth(hs[k], s) == d
    ensures NumberingChanges(hs, s) == ChangesFrom(Zeros(d) + [0], hs, s)
  {
    FitEmpty(d);
    ShallowRunFit([], hs, d, s);
  }

  /** Headings that are all numbered at the same depth are numbered 1, 2, …, N at that depth. */
  lemma SameDepthCountsUp(hs: seq<Heading>, d: nat, s: Settings)
    requires forall k :: 0 <= k < |hs| && InRange(hs[k], s) ==> Depth(hs[k], s) == d
    ensures forall k :: 0 <= k < |NumberingChanges(hs, s)| ==>
              NumberingChanges(hs, s)[k].text == NumberString(Zeros(d) + [k + 1], s.separator)
  {
    SameDepthStart(hs, d, s);
    SameDepthRunFrom(Zeros(d), 0, hs, s);
  }

  function Ones(n: nat): seq<nat> {
    seq(n, _ => 1)
  }

  /** Opening one level deeper under all-ones counters gives one more `1`. */
  lemma AdvanceOnes(k: nat)
    ensures Advance(Ones(k), k) == Ones(k + 1)
  {
  }

  /** The first heading of a staircase, at `firstLevel`, is numbered `1`. */
  lemma StaircaseFirst(hs: seq<Heading>, s: Settings)
    requires 0 < |hs| && hs[0].level == s.firstLevel <= s.maxLevel
    ensures CountersAt(hs, 0, s) == Ones(1)
  {
    FirstNumbered(hs, 0, s);
    assert Zeros(0) + [1] == Ones(1);
  }

  /** One level deeper, straight after a heading numbered all ones: one more `1`. */
  lemma StaircaseStep(hs: seq<Heading>, j: nat, s: Settings)
    requires 0 < j < |hs| && InRange(hs[j - 1], s) && InRange(hs[j], s)
    requires Depth(hs[j], s) == j && CountersAt(hs, j - 1, s) == Ones(j)
    ensures CountersAt(hs, j, s) == Ones(j + 1)
  {
    NextNumbered(hs, j - 1, j, s);
    AdvanceOnes(j);
  }

  /**
   * Headings that go one level deeper each time, from `firstLevel` on and
   * all numbered, carry one more `1` each: `1`, `1.1`, `1.1.1`, …
   */
  lemma {:induction false} StaircaseCounters(hs: seq<Heading>, j: nat, s: Settings)
    requires j < |hs|
    requires forall i :: 0 <= i < |hs| ==> hs[i].level == s.firstLevel + i
    requires s.firstLevel + |hs| - 1 <= s.maxLevel
    ensures CountersAt(hs, j, s) == Ones(j + 1)
    decreases j
  {
    if j == 0 {
      StaircaseFirst(hs, s);
    } else {
      StaircaseCounters(hs, j - 1, s);
      StaircaseStep(hs, j, s);
    }
  }

  // ---- Number strings ----

  lemma DigitRunOf(digits: string, rest: string)
    requires Decimal.AllDigits(digits)
    requires rest == [] || !Decimal.IsDigit(rest[0])
    ensures DigitRun(digits + rest) == |digits|
  {
    var t := digits + rest;
    assert forall i :: 0 <= i < |digits| ==> t[i] == digits[i];
    assert |digits| < |t| ==> t[|digits|] == rest[0];
  }

  /** Parsing reads one component off the front: a run of digits, then the separator. */
  lemma ParseComponent(d: string, sep: string, rest: string)
    requires |d| > 0 && Decimal.AllDigits(d)
    requires |sep| > 0 && !Decimal.IsDigit(sep[0])
    ensures ParseNumber(d + sep + rest, sep)
            == match ParseNumber(rest, sep)
               case None => None
               case Some(r) => Some([Decimal.DecimalValue(d)] + r)
  {
    var t := d + sep + rest;
    assert t == d + (sep + rest);
    DigitRunOf(d, sep + rest);
    assert t[..|d|] == d;
    assert t[|d|..] == sep + rest;
    assert t[|d| + |sep|..] == rest;
  }

  /** A number string reads back as its counters when the separator does not start with a digit. */
  lemma {:induction false} NumberStringRoundTrip(counters: seq<nat>, sep: string)
    requires |sep| > 0 && !Decimal.IsDigit(sep[0])
    ensures ParseNumber(NumberString(counters, sep), sep) == Some(counters)
    decreases |counters|
  {
    if counters != [] {
      Decimal.DecimalRoundTrip(counters[0]);
      ParseComponent(Decimal.DecimalString(counters[0]), sep, NumberString(counters[1..], sep));
      NumberStringRoundTrip(counters[1..], sep);
      assert [counters[0]] + counters[1..] == counters;
    }
  }

  /** The text of a numbered heading's change names its counters, one component per depth. */
  lemma ComponentsPerDepth(hs: seq<Heading>, j: nat, s: Settings)
    requires j < |hs| && DistinctLines(hs) && InRange(hs[j], s)
    requires |s.separator| > 0 && !Decimal.IsDigit(s.separator[0])
    ensures Find(NumberingChanges(hs, s), hs[j].start.line).Some?
    ensures var c := Find(NumberingChanges(hs, s), hs[j].start.line).value;
            ParseNumber(c.text, s.separator) == Some(CountersAt(hs, j, s))
            && |CountersAt(hs, j, s)| == hs[j].level - s.firstLevel + 1
  {
    InRangeGetsItsNumber(hs, j, s);
    NumberStringRoundTrip(CountersAt(hs, j, s), s.separator);
    CountersShape(hs, j, s);
  }
}
