/**
 * The `maxLevel` tests of the numbering engine: each method builds the same
 * headings and lines as its test, runs the engine against a fresh mock
 * editor, and returns the changes the editor received; its postconditions
 * are the test's expectations (and the exact number strings they contain).
 * Each scan lemma works out the engine's output for the test's heading
 * levels and lines, whatever the heading texts.
 */
module MaxLevelTests {
  import opened EditorTypes
  import opened TestSupport
  import opened Numbering
  import NumberingProperties

  // The heading texts and source lines of the fixtures.
  const Title1: string := "Heading 1"
  const Title2: string := "Heading 2"
  const Title4AboveMax: string := "Heading 4 (above max)"
  const Title2Again: string := "Heading 2 again"
  const Title3AtMax: string := "Heading 3 (at max)"
  const Title5AboveMax: string := "Heading 5 (above max)"
  const Title6AboveMax: string := "Heading 6 (above max)"
  const Title3: string := "Heading 3"
  const Title1Again: string := "Heading 1 again"
  const Title4: string := "Heading 4"
  const Title5: string := "Heading 5"
  const Title6: string := "Heading 6"
  const Line1: string := "# Heading 1"
  const Line2: string := "## Heading 2"
  const Line4AboveMax: string := "#### Heading 4 (above max)"
  const Line2Again: string := "## Heading 2 again"
  const Line3AtMax: string := "### Heading 3 (at max)"
  const Line5AboveMax: string := "##### Heading 5 (above max)"
  const Line6AboveMax: string := "###### Heading 6 (above max)"
  const Line3: string := "### Heading 3"
  const Line1Again: string := "# Heading 1 again"
  const Line4: string := "#### Heading 4"
  const Line5: string := "##### Heading 5"
  const Line6: string := "###### Heading 6"

  /** The shared settings: decimal styles, `.` separator, numbering from level 1 to `maxLevel`. */
  function FixtureSettings(maxLevel: int): Settings {
    Settings(1, maxLevel, ".")
  }

  /** The change that numbers the heading on `line` with `counters`. */
  function Numbered(line: int, counters: seq<nat>): Change {
    Change(line, NumberString(counters, "."))
  }

  /** The top-level number strings the tests look for. */
  lemma TopLevelTexts()
    ensures NumberString([1], ".") == "1." && NumberString([2], ".") == "2."
  {
  }

  /** Second-level number strings, under a top-level counter of 1 or of 0 (no top-level heading yet). */
  lemma SecondLevelTexts()
    ensures NumberString([1, 1], ".") == "1.1." && NumberString([1, 2], ".") == "1.2."
    ensures NumberString([0, 1], ".") == "0.1." && NumberString([0, 2], ".") == "0.2."
  {
  }

  /** Third-level number strings. */
  lemma ThirdLevelTexts()
    ensures NumberString([1, 1, 1], ".") == "1.1.1." && NumberString([1, 2, 1], ".") == "1.2.1."
  {
  }

  /** The number string of a sixth-level heading under first headings at every level. */
  lemma SixthLevelText()
    ensures NumberString([1, 1, 1, 1, 1, 1], ".") == "1.1.1.1.1.1."
  {
    assert NumberString([1], ".") == "1.";
    assert [1, 1][1..] == [1];
    assert NumberString([1, 1], ".") == "1.1.";
    assert [1, 1, 1][1..] == [1, 1];
    assert NumberString([1, 1, 1], ".") == "1.1.1.";
    assert [1, 1, 1, 1][1..] == [1, 1, 1];
    assert NumberString([1, 1, 1, 1], ".") == "1.1.1.1.";
    assert [1, 1, 1, 1, 1][1..] == [1, 1, 1, 1];
    assert NumberString([1, 1, 1, 1, 1], ".") == "1.1.1.1.1.";
    assert [1, 1, 1, 1, 1, 1][1..] == [1, 1, 1, 1, 1];
  }

  /**
   * `find` on the changes for `line` meets the change at index `n` when no
   * earlier change is for that line, and `toContain` holds for any prefix
   * `part` of its text.
   */
  lemma FoundAt(changes: seq<Change>, n: nat, line: int, counters: seq<nat>, text: string, part: string)
    requires n < |changes| && changes[n] == Numbered(line, counters)
    requires forall k :: 0 <= k < n ==> changes[k].fromLine != line
    requires NumberString(counters, ".") == text && part <= text
    ensures Find(changes, line) == Some(Change(line, text))
    ensures Contains(Find(changes, line).value.text, part)
  {
    FindFirst(changes, line, n);
    assert part <= text[0..];
  }

  /** Runs the engine over `headings` and `lines` with the fixture settings. */
  method Run(headings: seq<Heading>, lines: seq<string>, maxLevel: int) returns (changes: seq<Change>)
    ensures changes == NumberingChanges(headings, FixtureSettings(maxLevel))
  {
    var viewInfo := CreateMockViewInfo(headings, lines);
    UpdateHeadingNumbering(viewInfo, FixtureSettings(maxLevel));
    changes := viewInfo.editor.changes;
  }

  /** Levels 1, 2, 4, 2 on lines 0 to 3, numbering down to level 3. */
  lemma SkippedScan(hs: seq<Heading>)
    requires |hs| == 4
    requires hs[0].level == 1 && hs[1].level == 2 && hs[2].level == 4 && hs[3].level == 2
    requires hs[0].start.line == 0 && hs[1].start.line == 1 && hs[2].start.line == 2 && hs[3].start.line == 3
    ensures NumberingChanges(hs, FixtureSettings(3)) == [Numbered(0, [1]), Numbered(1, [1, 1]), Numbered(3, [1, 2])]
  {
    var s := FixtureSettings(3);
    var c3 := [Numbered(3, [1, 2])];
    assert hs[4..] == [];
    assert Advance([1, 1], 1) == [1, 2];
    NumberedFrom([1, 1], hs, 3, s, [1, 2], []);
    SkippedFrom([1, 1], hs, 2, s, c3);
    assert Advance([1], 1) == [1, 1];
    NumberedFrom([1], hs, 1, s, [1, 1], c3);
    assert Advance([], 0) == [1];
    NumberedFrom([], hs, 0, s, [1], [Numbered(1, [1, 1])] + c3);
    assert hs[0..] == hs;
  }

  /** The headings and lines of the test below. */
  method SkippedFixture() returns (headings: seq<Heading>, lines: seq<string>)
    ensures |headings| == 4 && |lines| == 4
    ensures headings[0].level == 1 && headings[1].level == 2 && headings[2].level == 4 &&
            headings[3].level == 2
    ensures headings[0].start.line == 0 && headings[1].start.line == 1 && headings[2].start.line == 2 &&
            headings[3].start.line == 3
  {
    headings := [
      CreateHeading(1, Title1, 0),
      CreateHeading(2, Title2, 1),
      CreateHeading(4, Title4AboveMax, 2),
      CreateHeading(2, Title2Again, 3)
    ];
    lines := [Line1, Line2, Line4AboveMax, Line2Again];
  }

  method HeadingsAboveMaxLevelAreSkipped() returns (changes: seq<Change>)
    ensures |changes| == 3
    ensures Find(changes, 2).None?
    ensures Find(changes, 3).Some? && Contains(Find(changes, 3).value.text, "1.2")
    ensures Find(changes, 3) == Some(Change(3, "1.2."))
  {
    var headings, lines := SkippedFixture();
    changes := Run(headings, lines, 3);
    SkippedScan(headings);
    SecondLevelTexts();
    FoundAt(changes, 2, 3, [1, 2], "1.2.", "1.2");
  }

  /** Scanning on from a numbered heading `k`: its change, then the rest from the advanced stack. */
  lemma NumberedFrom(stack: seq<nat>, hs: seq<Heading>, k: nat, s: Settings, next: seq<nat>, rest: seq<Change>)
    requires k < |hs| && InRange(hs[k], s) && Advance(stack, Depth(hs[k], s)) == next
    requires ChangesFrom(next, hs[k + 1..], s) == rest
    ensures ChangesFrom(stack, hs[k..], s) == [ChangeFor(hs[k], next, s)] + rest
  {
    ChangesFromAt(stack, hs, k, s);
  }

  /** Scanning on from an unnumbered heading `k`: the stack passes it untouched. */
  lemma SkippedFrom(stack: seq<nat>, hs: seq<Heading>, k: nat, s: Settings, rest: seq<Change>)
    requires k < |hs| && !InRange(hs[k], s)
    requires ChangesFrom(stack, hs[k + 1..], s) == rest
    ensures ChangesFrom(stack, hs[k..], s) == rest
  {
    ChangesFromAt(stack, hs, k, s);
  }

  /** Levels 1, 2, 3, 4 on lines 0 to 3, numbering down to level 3. */
  lemma AtMaxScan(hs: seq<Heading>)
    requires |hs| == 4
    requires hs[0].level == 1 && hs[1].level == 2 && hs[2].level == 3 && hs[3].level == 4
    requires hs[0].start.line == 0 && hs[1].start.line == 1 && hs[2].start.line == 2 && hs[3].start.line == 3
    ensures NumberingChanges(hs, FixtureSettings(3)) == [Numbered(0, [1]), Numbered(1, [1, 1]), Numbered(2, [1, 1, 1])]
  {
    var s := FixtureSettings(3);
    assert hs[4..] == [];
    SkippedFrom([1, 1, 1], hs, 3, s, []);
    assert Advance([1, 1], 2) == [1, 1, 1];
    NumberedFrom([1, 1], hs, 2, s, [1, 1, 1], []);
    assert Advance([1], 1) == [1, 1];
    NumberedFrom([1], hs, 1, s, [1, 1], [Numbered(2, [1, 1, 1])]);
    assert Advance([], 0) == [1];
    NumberedFrom([], hs, 0, s, [1], [Numbered(1, [1, 1]), Numbered(2, [1, 1, 1])]);
    assert hs[0..] == hs;
  }


  /** The headings and lines of the test below. */
  method AtMaxFixture() returns (headings: seq<Heading>, lines: seq<string>)
    ensures |headings| == 4 && |lines| == 4
    ensures headings[0].level == 1 && headings[1].level == 2 && headings[2].level == 3 &&
            headings[3].level == 4
    ensures headings[0].start.line == 0 && headings[1].start.line == 1 && headings[2].start.line == 2 &&
            headings[3].start.line == 3
  {
    headings := [
      CreateHeading(1, Title1, 0),
      CreateHeading(2, Title2, 1),
      CreateHeading(3, Title3AtMax, 2),
      CreateHeading(4, Title4AboveMax, 3)
    ];
    lines := [Line1, Line2, Line3AtMax, Line4AboveMax];
  }

  method HeadingsAtMaxLevelAreNumbered() returns (changes: seq<Change>)
    ensures |changes| == 3
    ensures Find(changes, 2).Some? && Contains(Find(changes, 2).value.text, "1.1.1")
    ensures Find(changes, 2) == Some(Change(2, "1.1.1."))
    ensures Find(changes, 3).None?
  {
    var headings, lines := AtMaxFixture();
    changes := Run(headings, lines, 3);
    AtMaxScan(headings);
    ThirdLevelTexts();
    FoundAt(changes, 2, 2, [1, 1, 1], "1.1.1.", "1.1.1");
  }

  /** From the first skipped heading of the scan below on: the second-level counter continues at 2. */
  lemma ContinuesTail(hs: seq<Heading>)
    requires |hs| == 6
    requires hs[2].level == 5 && hs[3].level == 6 && hs[4].level == 2 && hs[5].level == 3
    requires hs[4].start.line == 4 && hs[5].start.line == 5
    ensures ChangesFrom([1, 1], hs[2..], FixtureSettings(3)) == [Numbered(4, [1, 2]), Numbered(5, [1, 2, 1])]
  {
    var s := FixtureSettings(3);
    var c5 := [Numbered(5, [1, 2, 1])];
    assert hs[6..] == [];
    assert Advance([1, 2], 2) == [1, 2, 1];
    NumberedFrom([1, 2], hs, 5, s, [1, 2, 1], []);
    assert Advance([1, 1], 1) == [1, 2];
    NumberedFrom([1, 1], hs, 4, s, [1, 2], c5);
    SkippedFrom([1, 1], hs, 3, s, [Numbered(4, [1, 2])] + c5);
    SkippedFrom([1, 1], hs, 2, s, [Numbered(4, [1, 2])] + c5);
  }

  /** Levels 1, 2, 5, 6, 2, 3 on lines 0 to 5, numbering down to level 3. */
  lemma ContinuesScan(hs: seq<Heading>)
    requires |hs| == 6
    requires hs[0].level == 1 && hs[1].level == 2 && hs[2].level == 5
    requires hs[3].level == 6 && hs[4].level == 2 && hs[5].level == 3
    requires hs[0].start.line == 0 && hs[1].start.line == 1 && hs[4].start.line == 4 && hs[5].start.line == 5
    ensures NumberingChanges(hs, FixtureSettings(3))
            == [Numbered(0, [1]), Numbered(1, [1, 1]), Numbered(4, [1, 2]), Numbered(5, [1, 2, 1])]
  {
    var s := FixtureSettings(3);
    var tail := [Numbered(4, [1, 2]), Numbered(5, [1, 2, 1])];
    ContinuesTail(hs);
    assert Advance([1], 1) == [1, 1];
    NumberedFrom([1], hs, 1, s, [1, 1], tail);
    assert Advance([], 0) == [1];
    NumberedFrom([], hs, 0, s, [1], [Numbered(1, [1, 1])] + tail);
    assert hs[0..] == hs;
  }

  /** What the test looks up in the changes of the scan above. */
  lemma ContinuesFound(changes: seq<Change>)
    requires changes == [Numbered(0, [1]), Numbered(1, [1, 1]), Numbered(4, [1, 2]), Numbered(5, [1, 2, 1])]
    ensures Find(changes, 4) == Some(Change(4, "1.2.")) && Contains(Find(changes, 4).value.text, "1.2")
    ensures Find(changes, 5) == Some(Change(5, "1.2.1.")) && Contains(Find(changes, 5).value.text, "1.2.1")
  {
    SecondLevelTexts();
    ThirdLevelTexts();
    FoundAt(changes, 2, 4, [1, 2], "1.2.", "1.2");
    FoundAt(changes, 3, 5, [1, 2, 1], "1.2.1.", "1.2.1");
  }

  /** The headings and lines of the test below. */
  method ContinuesFixture() returns (headings: seq<Heading>, lines: seq<string>)
    ensures |headings| == 6 && |lines| == 6
    ensures headings[0].level == 1 && headings[1].level == 2 && headings[2].level == 5 &&
            headings[3].level == 6 && headings[4].level == 2 && headings[5].level == 3
    ensures headings[0].start.line == 0 && headings[1].start.line == 1 && headings[2].start.line == 2 &&
            headings[3].start.line == 3 && headings[4].start.line == 4 && headings[5].start.line == 5
  {
    headings := [
      CreateHeading(1, Title1, 0),
      CreateHeading(2, Title2, 1),
      CreateHeading(5, Title5AboveMax, 2),
      CreateHeading(6, Title6AboveMax, 3),
      CreateHeading(2, Title2Again, 4),
      CreateHeading(3, Title3, 5)
    ];
    lines := [
      Line1, Line2, Line5AboveMax,
      Line6AboveMax, Line2Again, Line3
    ];
  }

  method NumberingContinuesAfterSkippedHeadings() returns (changes: seq<Change>)
    ensures |changes| == 4
    ensures Find(changes, 4).Some? && Contains(Find(changes, 4).value.text, "1.2")
    ensures Find(changes, 4) == Some(Change(4, "1.2."))
    ensures Find(changes, 5).Some? && Contains(Find(changes, 5).value.text, "1.2.1")
    ensures Find(changes, 5) == Some(Change(5, "1.2.1."))
  {
    var headings, lines := ContinuesFixture();
    changes := Run(headings, lines, 3);
    ContinuesScan(headings);
    ContinuesFound(changes);
  }

  /** Levels 1, 2, 4, 3 on lines 0 to 3, numbering down to level 3. */
  lemma UndisturbedScan(hs: seq<Heading>)
    requires |hs| == 4
    requires hs[0].level == 1 && hs[1].level == 2 && hs[2].level == 4 && hs[3].level == 3
    requires hs[0].start.line == 0 && hs[1].start.line == 1 && hs[2].start.line == 2 && hs[3].start.line == 3
    ensures NumberingChanges(hs, FixtureSettings(3)) == [Numbered(0, [1]), Numbered(1, [1, 1]), Numbered(3, [1, 1, 1])]
  {
    var s := FixtureSettings(3);
    var c3 := [Numbered(3, [1, 1, 1])];
    assert hs[4..] == [];
    assert Advance([1, 1], 2) == [1, 1, 1];
    NumberedFrom([1, 1], hs, 3, s, [1, 1, 1], []);
    SkippedFrom([1, 1], hs, 2, s, c3);
    assert Advance([1], 1) == [1, 1];
    NumberedFrom([1], hs, 1, s, [1, 1], c3);
    assert Advance([], 0) == [1];
    NumberedFrom([], hs, 0, s, [1], [Numbered(1, [1, 1])] + c3);
    assert hs[0..] == hs;
  }

  /** The headings and lines of the test below. */
  method UndisturbedFixture() returns (headings: seq<Heading>, lines: seq<string>)
    ensures |headings| == 4 && |lines| == 4
    ensures headings[0].level == 1 && headings[1].level == 2 && headings[2].level == 4 &&
            headings[3].level == 3
    ensures headings[0].start.line == 0 && headings[1].start.line == 1 && headings[2].start.line == 2 &&
            headings[3].start.line == 3
  {
    headings := [
      CreateHeading(1, Title1, 0),
      CreateHeading(2, Title2, 1),
      CreateHeading(4, Title4AboveMax, 2),
      CreateHeading(3, Title3, 3)
    ];
    lines := [Line1, Line2, Line4AboveMax, Line3];
  }

  method HeadingsAboveMaxLevelDoNotAffectStack() returns (changes: seq<Change>)
    ensures |changes| == 3
    ensures Find(changes, 3).Some? && Contains(Find(changes, 3).value.text, "1.1.1")
    ensures Find(changes, 3) == Some(Change(3, "1.1.1."))
  {
    var headings, lines := UndisturbedFixture();
    changes := Run(headings, lines, 3);
    UndisturbedScan(headings);
    ThirdLevelTexts();
    FoundAt(changes, 2, 3, [1, 1, 1], "1.1.1.", "1.1.1");
  }

  /** Levels 1, 4, 5, 6, 2 on lines 0 to 4, numbering down to level 3. */
  lemma ConsecutiveScan(hs: seq<Heading>)
    requires |hs| == 5
    requires hs[0].level == 1 && hs[1].level == 4 && hs[2].level == 5 && hs[3].level == 6 && hs[4].level == 2
    requires hs[0].start.line == 0 && hs[4].start.line == 4
    ensures NumberingChanges(hs, FixtureSettings(3)) == [Numbered(0, [1]), Numbered(4, [1, 1])]
  {
    var s := FixtureSettings(3);
    var c4 := [Numbered(4, [1, 1])];
    assert hs[5..] == [];
    assert Advance([1], 1) == [1, 1];
    NumberedFrom([1], hs, 4, s, [1, 1], []);
    SkippedFrom([1], hs, 3, s, c4);
    SkippedFrom([1], hs, 2, s, c4);
    SkippedFrom([1], hs, 1, s, c4);
    assert Advance([], 0) == [1];
    NumberedFrom([], hs, 0, s, [1], c4);
    assert hs[0..] == hs;
  }

  /** The headings and lines of the test below. */
  method ConsecutiveFixture() returns (headings: seq<Heading>, lines: seq<string>)
    ensures |headings| == 5 && |lines| == 5
    ensures headings[0].level == 1 && headings[1].level == 4 && headings[2].level == 5 &&
            headings[3].level == 6 && headings[4].level == 2
    ensures headings[0].start.line == 0 && headings[1].start.line == 1 && headings[2].start.line == 2 &&
            headings[3].start.line == 3 && headings[4].start.line == 4
  {
    headings := [
      CreateHeading(1, Title1, 0),
      CreateHeading(4, Title4AboveMax, 1),
      CreateHeading(5, Title5AboveMax, 2),
      CreateHeading(6, Title6AboveMax, 3),
      CreateHeading(2, Title2, 4)
    ];
    lines := [
      Line1, Line4AboveMax, Line5AboveMax,
      Line6AboveMax, Line2
    ];
  }

  method ConsecutiveHeadingsAboveMaxLevelAreSkipped() returns (changes: seq<Change>)
    ensures |changes| == 2
    ensures Find(changes, 4).Some? && Contains(Find(changes, 4).value.text, "1.1")
    ensures Find(changes, 4) == Some(Change(4, "1.1."))
  {
    var headings, lines := ConsecutiveFixture();
    changes := Run(headings, lines, 3);
    ConsecutiveScan(headings);
    SecondLevelTexts();
    FoundAt(changes, 1, 4, [1, 1], "1.1.", "1.1");
  }

  /** Levels 1, 2, 3, 1 on lines 0 to 3, numbering level 1 only. */
  lemma TopLevelScan(hs: seq<Heading>)
    requires |hs| == 4
    requires hs[0].level == 1 && hs[1].level == 2 && hs[2].level == 3 && hs[3].level == 1
    requires hs[0].start.line == 0 && hs[3].start.line == 3
    ensures NumberingChanges(hs, FixtureSettings(1)) == [Numbered(0, [1]), Numbered(3, [2])]
  {
    var s := FixtureSettings(1);
    var c3 := [Numbered(3, [2])];
    assert hs[4..] == [];
    assert Advance([1], 0) == [2];
    NumberedFrom([1], hs, 3, s, [2], []);
    SkippedFrom([1], hs, 2, s, c3);
    SkippedFrom([1], hs, 1, s, c3);
    assert Advance([], 0) == [1];
    NumberedFrom([], hs, 0, s, [1], c3);
    assert hs[0..] == hs;
  }

  /** The headings and lines of the test below. */
  method TopLevelFixture() returns (headings: seq<Heading>, lines: seq<string>)
    ensures |headings| == 4 && |lines| == 4
    ensures headings[0].level == 1 && headings[1].level == 2 && headings[2].level == 3 &&
            headings[3].level == 1
    ensures headings[0].start.line == 0 && headings[1].start.line == 1 && headings[2].start.line == 2 &&
            headings[3].start.line == 3
  {
    headings := [
      CreateHeading(1, Title1, 0),
      CreateHeading(2, Title2, 1),
      CreateHeading(3, Title3, 2),
      CreateHeading(1, Title1Again, 3)
    ];
    lines := [Line1, Line2, Line3, Line1Again];
  }

  method MaxLevelOneNumbersOnlyTopLevel() returns (changes: seq<Change>)
    ensures |changes| == 2
    ensures Find(changes, 0).Some? && Contains(Find(changes, 0).value.text, "1.")
    ensures Find(changes, 0) == Some(Change(0, "1."))
    ensures Find(changes, 3).Some? && Contains(Find(changes, 3).value.text, "2.")
    ensures Find(changes, 3) == Some(Change(3, "2."))
  {
    var headings, lines := TopLevelFixture();
    changes := Run(headings, lines, 1);
    TopLevelScan(headings);
    TopLevelTexts();
    FoundAt(changes, 0, 0, [1], "1.", "1.");
    FoundAt(changes, 1, 3, [2], "2.", "2.");
  }

  /** Six headings at levels 1 to 6 on lines 0 to 5, numbering down to level 6. */
  lemma SixLevelsScan(hs: seq<Heading>)
    requires |hs| == 6
    requires hs[0].level == 1 && hs[1].level == 2 && hs[2].level == 3
    requires hs[3].level == 4 && hs[4].level == 5 && hs[5].level == 6
    requires hs[0].start.line == 0 && hs[1].start.line == 1 && hs[2].start.line == 2
    requires hs[3].start.line == 3 && hs[4].start.line == 4 && hs[5].start.line == 5
    ensures |NumberingChanges(hs, FixtureSettings(6))| == 6
    ensures forall k :: 0 <= k < 6 ==> NumberingChanges(hs, FixtureSettings(6))[k].fromLine == k
    ensures NumberingChanges(hs, FixtureSettings(6))[5] == Numbered(5, [1, 1, 1, 1, 1, 1])
  {
    var s := FixtureSettings(6);
    forall i | 0 <= i < 6
      ensures hs[i].level == s.firstLevel + i && hs[i].start.line == i
    {
      assert i == 0 || i == 1 || i == 2 || i == 3 || i == 4 || i == 5;
    }
    NumberingProperties.InRangeOnlyAll(hs, s);
    NumberingProperties.InRangeOnlyAll(hs[..5], s);
    NumberingProperties.ChangeCount(hs, s);
    NumberingProperties.ChangeAt(hs, 5, s);
    NumberingProperties.StaircaseCounters(hs, 5, s);
    assert NumberingProperties.Ones(6) == [1, 1, 1, 1, 1, 1];
  }

  /** The headings and lines of the test below. */
  method SixLevelsFixture() returns (headings: seq<Heading>, lines: seq<string>)
    ensures |headings| == 6 && |lines| == 6
    ensures headings[0].level == 1 && headings[1].level == 2 && headings[2].level == 3 &&
            headings[3].level == 4 && headings[4].level == 5 && headings[5].level == 6
    ensures headings[0].start.line == 0 && headings[1].start.line == 1 && headings[2].start.line == 2 &&
            headings[3].start.line == 3 && headings[4].start.line == 4 && headings[5].start.line == 5
  {
    headings := [
      CreateHeading(1, Title1, 0),
      CreateHeading(2, Title2, 1),
      CreateHeading(3, Title3, 2),
      CreateHeading(4, Title4, 3),
      CreateHeading(5, Title5, 4),
      CreateHeading(6, Title6, 5)
    ];
    lines := [
      Line1, Line2, Line3,
      Line4, Line5, Line6
    ];
  }

  method MaxLevelSixNumbersAllHeadings() returns (changes: seq<Change>)
    ensures |changes| == 6
    ensures Find(changes, 5).Some? && Contains(Find(changes, 5).value.text, "1.1.1.1.1.1")
    ensures Find(changes, 5) == Some(Change(5, "1.1.1.1.1.1."))
  {
    var headings, lines := SixLevelsFixture();
    changes := Run(headings, lines, 6);
    SixLevelsScan(headings);
    SixthLevelText();
    FoundAt(changes, 5, 5, [1, 1, 1, 1, 1, 1], "1.1.1.1.1.1.", "1.1.1.1.1.1");
  }

  /** Levels 2, 4, 2 on lines 0 to 2, numbering down to level 3. */
  lemma PreviousLevelScan(hs: seq<Heading>)
    requires |hs| == 3
    requires hs[0].level == 2 && hs[1].level == 4 && hs[2].level == 2
    requires hs[0].start.line == 0 && hs[2].start.line == 2
    ensures NumberingChanges(hs, FixtureSettings(3)) == [Numbered(0, [0, 1]), Numbered(2, [0, 2])]
  {
    var s := FixtureSettings(3);
    var c2 := [Numbered(2, [0, 2])];
    assert hs[3..] == [];
    assert Advance([0, 1], 1) == [0, 2];
    NumberedFrom([0, 1], hs, 2, s, [0, 2], []);
    SkippedFrom([0, 1], hs, 1, s, c2);
    assert Advance([], 1) == [0, 1];
    NumberedFrom([], hs, 0, s, [0, 1], c2);
    assert hs[0..] == hs;
  }

  /** The headings and lines of the test below. */
  method PreviousLevelFixture() returns (headings: seq<Heading>, lines: seq<string>)
    ensures |headings| == 3 && |lines| == 3
    ensures headings[0].level == 2 && headings[1].level == 4 && headings[2].level == 2
    ensures headings[0].start.line == 0 && headings[1].start.line == 1 && headings[2].start.line == 2
  {
    headings := [
      CreateHeading(2, Title2, 0),
      CreateHeading(4, Title4AboveMax, 1),
      CreateHeading(2, Title2Again, 2)
    ];
    lines := [Line2, Line4AboveMax, Line2Again];
  }

  method AboveMaxLevelDoesNotUpdatePreviousLevel() returns (changes: seq<Change>)
    ensures |changes| == 2
    ensures Find(changes, 0).Some? && Contains(Find(changes, 0).value.text, "0.1")
    ensures Find(changes, 0) == Some(Change(0, "0.1."))
    ensures Find(changes, 2).Some? && Contains(Find(changes, 2).value.text, "0.2")
    ensures Find(changes, 2) == Some(Change(2, "0.2."))
  {
    var headings, lines := PreviousLevelFixture();
    changes := Run(headings, lines, 3);
    PreviousLevelScan(headings);
    SecondLevelTexts();
    FoundAt(changes, 0, 0, [0, 1], "0.1.", "0.1");
    FoundAt(changes, 1, 2, [0, 2], "0.2.", "0.2");
  }
}
