# Heading numbering with a `maxLevel` cut-off

This project models the heading-numbering engine of the Number Headings plugin for Obsidian
(`updateHeadingNumbering`), as its `maxLevel` tests in `tests/numbering.test.ts` pin it down,
together with the mock editor and the fixture helpers those tests build on.

The engine itself is not part of this model; what follows is the behaviour the model assumes
for it, chosen to agree with every expectation of those tests. Where the tests leave a case
open, the model's choice is an assumption, and each one is listed under "Left out" below.

The engine walks the document's cached headings in order. It keeps one counter per depth,
starting at `firstLevel`. A heading whose level lies in `[firstLevel, maxLevel]`:

- brings the counter stack to `level - firstLevel + 1` entries, padding with zeros or dropping
  deeper counters (the tests show the zero padding only before any top-level heading; padding
  a skipped depth under an ancestor is assumed);
- counts itself up at its own depth;
- emits one change on its line whose text is the number: every counter in decimal, each
  followed by the separator (`1.2.1.`, `0.2.`, `2.`; the tests only use `.`).

A heading above `maxLevel` emits nothing and leaves the counters alone, as the tests show. The
model assumes the same for a heading below `firstLevel`, a case the tests never build. The model
hands the whole batch of changes to the editor in one `transaction` call; the mock's
`transaction` only appends, so the tests cannot tell one call from several.

Modules:

- `EditorTypes` (`types.dfy`): the fields of Obsidian's heading cache, editor positions and
  editor changes that the tests read.
- `Decimal` (`decimal.dfy`): the decimal numbering style. A counter is rendered in base 10 and
  read back.
- `TestSupport` (`test_support.dfy`): the test helpers.
  - `createHeading`.
  - The mock editor: a class with the document lines and the list of changes it received,
    plus `getLine`, `getRange`, `lastLine` and `transaction`.
  - `createMockViewInfo`.
  - The two lookups the expectations use: `Array.prototype.find` on the change list and
    `toContain` on a change's text.
  - JavaScript's `substring`, with its clamping and its swapping of the indices.
- `Numbering` (`numbering.dfy`): the engine.
  - The counter-stack update (`Fit`, `Advance`, `Step`).
  - The scan as left-folds over the headings (`StackAfter`, `ChangesFrom`, `NumberingChanges`).
  - The number string and its parser.
  - The imperative scan `ComputeChanges`: a loop over the headings that updates a counter
    sequence and appends to the change list, proved equal to `NumberingChanges`.
  - `UpdateHeadingNumbering`, which hands those changes to the editor in one transaction.
- `NumberingProperties` (`numbering_properties.dfy`): what the engine guarantees for every
  heading list and settings, proved about the specification functions. It covers:
  - the change count and each change's line;
  - no change for out-of-range headings, and that they are transparent;
  - the counters of siblings, deeper children and first headings;
  - the round trip of number strings.
- `MaxLevelTests` (`max_level_tests.dfy`): the eight `maxLevel` tests.
  - Each test is a method. It builds the test's headings and lines, runs the engine against a
    fresh mock editor and returns the changes the editor received. Its postconditions are the
    test's `expect` calls, plus the exact number string each `toContain` looks for.
  - Each test has a scan lemma that works out the engine's output from the heading levels and
    lines alone.

The settings of the test suite (`tests/numbering.test.ts:57-63`) are the decimal style for all
levels, separator `.`, `firstLevel = 1`, `skipTopLevel = false` and `maxLevel` 3 unless a test
sets it.

## Model

| member | source | states |
|---|---|---|
| TestSupport.CreateHeading | tests/numbering.test.ts:7-16 | the heading has the given level and title, starts at column 0 of the given line and ends on that line at column `text.length` |
| TestSupport.Clamp | tests/numbering.test.ts:27 | a `substring` index is clamped into `[0, length]`: kept when inside, 0 when negative, the length when beyond |
| TestSupport.Substring | tests/numbering.test.ts:27 | `substring(a, b)` is the slice between the clamped indices, taken in either order; it is never longer than the string and occurs in it |
| TestSupport.SubstringSymmetric | tests/numbering.test.ts:27 | `substring` gives the same result whichever index comes first |
| TestSupport.SubstringAdjacent | tests/numbering.test.ts:27 | two adjacent substrings join into the substring that spans both |
| TestSupport.MockEditor.constructor | tests/numbering.test.ts:19-22 | a fresh mock editor holds the given lines and has received no changes |
| TestSupport.MockEditor.GetLine | tests/numbering.test.ts:23 | `getLine` yields the line exactly when the index is inside the document and the line is non-empty; otherwise undefined |
| TestSupport.MockEditor.GetRange | tests/numbering.test.ts:24-28 | `getRange` is `""` when line `from.line` is missing or empty, and otherwise its `substring(from.ch, to.ch)`; within bounds that is the `[from.ch, to.ch)` slice |
| TestSupport.MockEditor.LastLine | tests/numbering.test.ts:32 | `lastLine` is `max(0, lines.length - 1)`: 0 for an empty document, else the last index |
| TestSupport.MockEditor.Transaction | tests/numbering.test.ts:29-31 | the transaction's changes are appended in order after the earlier ones, which stay as they were |
| TestSupport.GetRangeWholeLine | tests/numbering.test.ts:23-28 | reading a whole line through `getRange` gives what `getLine` gives; a missing line reads as `""` whatever the columns asked for |
| TestSupport.LastLineBounds | tests/numbering.test.ts:23-32 | `lastLine` names the last line of a non-empty document, and the line after it is missing |
| TestSupport.CreateMockViewInfo | tests/numbering.test.ts:39-51 | the view info carries the given headings and a fresh editor over the given lines with no changes yet |
| TestSupport.Find | tests/numbering.test.ts:90-96 | `find` by line is undefined exactly when no change starts on that line; otherwise it is the first change that does |
| TestSupport.FindFirst | tests/numbering.test.ts:94-96 | when change `n` is the first to start on the line, `find` returns it |
| Decimal.DigitValue | tests/numbering.test.ts:58-59 | a decimal digit denotes a value below 10 |
| Decimal.DigitChar | tests/numbering.test.ts:58-59 | the character for a value below 10 is a digit that denotes that value |
| Decimal.DecimalStringDigits | tests/numbering.test.ts:58-59 | a rendered counter is all digits, and starts with `0` only for the counter 0 |
| Decimal.DecimalRoundTrip | tests/numbering.test.ts:58-59 | reading back a rendered counter gives the counter |
| Decimal.DecimalInjective | tests/numbering.test.ts:58-59 | different counters render differently |
| Numbering.Fit | tests/numbering.test.ts:318-321 | the counter stack brought to `n` entries keeps the existing counters and pads missing ones with 0 |
| Numbering.Advance | tests/numbering.test.ts:159-167 | after a heading at depth `d`: the ancestors keep their counters (missing ones are 0), deeper counters are gone, and the counter at `d` is one more than before |
| Numbering.DigitRun | tests/numbering.test.ts:96 | the leading run of digits of a text: all digits, and followed by a non-digit or the end |
| Numbering.AdvanceCounters | tests/numbering.test.ts:159-167 | the in-place stack update (pad or truncate, then increment) computes `Advance` |
| Numbering.ComputeChanges | tests/numbering.test.ts:81-87 | the loop over the headings emits exactly `NumberingChanges` of the headings: one change per in-range heading, in document order |
| Numbering.UpdateHeadingNumbering | tests/numbering.test.ts:81-83 | `updateHeadingNumbering` hands the editor one transaction, which appends exactly `NumberingChanges` of the view's headings to its earlier changes |
| NumberingProperties.InRangeOnlyAppend | tests/numbering.test.ts:85-87 | the numbered headings of `a + b` are those of `a`, then those of `b` |
| NumberingProperties.InRangeOnlyAll | tests/numbering.test.ts:289-290 | when every heading is in range, none is dropped |
| NumberingProperties.InRangeOnlyMembers | tests/numbering.test.ts:85-91 | every numbered heading is one of the input headings and is in range |
| NumberingProperties.StackAfterAppend | tests/numbering.test.ts:159-162 | scanning `a + b` leaves the stack that scanning `b` leaves after `a` |
| NumberingProperties.ChangesFromAppend | tests/numbering.test.ts:159-162 | scanning `a + b` emits `a`'s changes, then `b`'s changes from the counters `a` left |
| NumberingProperties.ChangesFromLines | tests/numbering.test.ts:85-91 | from any starting counters, the scan emits one change per in-range heading, in order, each on its heading's line |
| NumberingProperties.ChangeCount | tests/numbering.test.ts:85-251 | the number of changes is the number of headings with level in `[firstLevel, maxLevel]`, and change `k` starts on the line of the `k`-th such heading |
| NumberingProperties.OutOfRangeGetsNoChange | tests/numbering.test.ts:89-129 | in a document where no two headings share a line, `find` is undefined on the line of a heading outside `[firstLevel, maxLevel]` |
| NumberingProperties.CountersAtStep | tests/numbering.test.ts:159-167 | the counters after heading `j` are one step on from those the headings before it left |
| NumberingProperties.ChangesSplitAt | tests/numbering.test.ts:159-162 | the changes split at any heading `j`: those of the headings before it, then those from `j` on, continuing from the counters left before `j` |
| NumberingProperties.ChangesFromHeading | tests/numbering.test.ts:164-167 | the scan from a numbered heading on starts with that heading's change, carrying its own counters |
| NumberingProperties.ChangeAt | tests/numbering.test.ts:93-167 | the change of in-range heading `j` comes right after those of the numbered headings before it, and carries `j`'s line and the number string of its counters |
| NumberingProperties.InRangeGetsItsNumber | tests/numbering.test.ts:93-167 | in a document where no two headings share a line, `find` on an in-range heading's line returns a change with that heading's number string |
| NumberingProperties.Transparent | tests/numbering.test.ts:93-195 | dropping every out-of-range heading changes neither the changes nor the final counters |
| NumberingProperties.OutOfRangeIgnored | tests/numbering.test.ts:192-326 | inserting an out-of-range heading anywhere leaves the changes exactly as they were |
| NumberingProperties.StackBound | tests/numbering.test.ts:61 | the counter stack never grows beyond `maxLevel - firstLevel + 1` entries (or its starting length) |
| NumberingProperties.CountersShape | tests/numbering.test.ts:122-295 | an in-range heading's counters have one entry per depth from `firstLevel` down to its level, the last at least 1 |
| NumberingProperties.AdvanceDependsOnFit | tests/numbering.test.ts:192-195 | advancing at depth `d` sees only the first `d + 1` counters |
| NumberingProperties.FitAdvanceDeeper | tests/numbering.test.ts:192-195 | a deeper heading leaves the first counters (zero-padded) alone |
| NumberingProperties.FitDeeperRun | tests/numbering.test.ts:159-226 | a run of headings that are all deeper than `d`, or out of range, leaves the first `d + 1` counters alone |
| NumberingProperties.ShallowRunFit | tests/numbering.test.ts:253-261 | headings no deeper than `d` are numbered the same from any stack with the same first `d + 1` counters |
| NumberingProperties.NextNumbered | tests/numbering.test.ts:159-195 | when the numbered headings between `i` and `j` are all deeper than `j`, `j`'s counters are `i`'s counters advanced at `j`'s depth |
| NumberingProperties.SiblingOrShallower | tests/numbering.test.ts:93-261 | a later sibling, or a heading back at a shallower depth, keeps the ancestors' counters and counts up by one from the earlier counter at its depth |
| NumberingProperties.DeeperStartsAtOne | tests/numbering.test.ts:164-167 | a deeper heading keeps every counter of the earlier one, pads skipped depths with 0 and starts its own counter at 1 |
| NumberingProperties.AdvanceEmpty | tests/numbering.test.ts:318-321 | counting a heading at depth `d` on an empty stack gives `d` zeros and then 1 |
| NumberingProperties.FirstNumbered | tests/numbering.test.ts:318-321 | the first numbered heading at its depth or above has 0 in every ancestor slot and 1 at its own depth |
| NumberingProperties.AdvanceLast | tests/numbering.test.ts:258-261 | a heading at the last depth of the stack counts that counter up by one |
| NumberingProperties.RunConsFrom | tests/numbering.test.ts:253-261 | a change numbered `n + 1` in front of changes that count on from `n + 1` gives changes that count on from `n` |
| NumberingProperties.SameDepthRunFrom | tests/numbering.test.ts:253-326 | from counters `p + [n]`, headings numbered only at the depth just below `p` get `p + [n + 1]`, `p + [n + 2]`, … |
| NumberingProperties.FitEmpty | tests/numbering.test.ts:318-321 | the empty stack brought to `d + 1` entries is all zeros |
| NumberingProperties.SameDepthStart | tests/numbering.test.ts:318-326 | headings numbered only at depth `d` are scanned as if from `d + 1` zero counters |
| NumberingProperties.SameDepthCountsUp | tests/numbering.test.ts:229-326 | when every numbered heading is at depth `d`, change `k` is numbered `0. … 0.(k+1).`: siblings count 1, 2, … and unfilled ancestors render as `0` |
| NumberingProperties.AdvanceOnes | tests/numbering.test.ts:264-295 | going one level deeper under all-ones counters adds one more `1` |
| NumberingProperties.StaircaseFirst | tests/numbering.test.ts:264-295 | the first heading of a staircase, at `firstLevel`, is numbered `1` |
| NumberingProperties.StaircaseStep | tests/numbering.test.ts:264-295 | one level deeper, straight after a heading numbered all ones, the counters are all ones with one more entry |
| NumberingProperties.StaircaseCounters | tests/numbering.test.ts:264-295 | headings that go one level deeper each time from `firstLevel`, all in range, are numbered `1`, `1.1`, `1.1.1`, … |
| NumberingProperties.ParseComponent | tests/numbering.test.ts:96 | parsing reads one component off the front of a number string: a run of digits, then the separator |
| NumberingProperties.NumberStringRoundTrip | tests/numbering.test.ts:96-167 | with a separator that does not start with a digit, a number string parses back to exactly its counters |
| NumberingProperties.ComponentsPerDepth | tests/numbering.test.ts:122-295 | the change `find` returns on an in-range heading's line parses back to that heading's counters, one component per depth from `firstLevel` down to its level |
| MaxLevelTests.TopLevelTexts | tests/numbering.test.ts:253-261 | counters `[1]` and `[2]` render as `1.` and `2.`, so a single component is followed by the separator |
| MaxLevelTests.SecondLevelTexts | tests/numbering.test.ts:96-326 | counters `[1,1]`, `[1,2]`, `[0,1]`, `[0,2]` render as `1.1.`, `1.2.`, `0.1.`, `0.2.` |
| MaxLevelTests.ThirdLevelTexts | tests/numbering.test.ts:125-195 | counters `[1,1,1]` and `[1,2,1]` render as `1.1.1.` and `1.2.1.` |
| MaxLevelTests.SixthLevelText | tests/numbering.test.ts:295 | six counters of 1 render as `1.1.1.1.1.1.` |
| MaxLevelTests.FoundAt | tests/numbering.test.ts:94-96 | `find` on a line meets the first change on it, and `toContain` holds for any prefix of that change's text |
| MaxLevelTests.Run | tests/numbering.test.ts:81-83 | running the engine on a fresh mock view with the suite's settings leaves exactly `NumberingChanges` in the editor |
| MaxLevelTests.NumberedFrom | tests/numbering.test.ts:83 | from an in-range heading on, the scan emits that heading's change, numbered with the advanced counters, and then the rest |
| MaxLevelTests.SkippedFrom | tests/numbering.test.ts:83 | from an out-of-range heading on, the scan emits what it emits from the next heading, with the same counters |
| MaxLevelTests.SkippedFixture | tests/numbering.test.ts:67-79 | the fixture has levels 1, 2, 4, 2 on lines 0 to 3 |
| MaxLevelTests.SkippedScan | tests/numbering.test.ts:66-97 | levels 1, 2, 4, 2 with `maxLevel = 3` give exactly the changes `1.` on line 0, `1.1.` on line 1 and `1.2.` on line 3 |
| MaxLevelTests.HeadingsAboveMaxLevelAreSkipped | tests/numbering.test.ts:66-97 | 3 changes; none on line 2; the change on line 3 contains `1.2` (it is `1.2.`) |
| MaxLevelTests.AtMaxFixture | tests/numbering.test.ts:100-112 | the fixture has levels 1, 2, 3, 4 on lines 0 to 3 |
| MaxLevelTests.AtMaxScan | tests/numbering.test.ts:99-130 | levels 1, 2, 3, 4 with `maxLevel = 3` give exactly `1.`, `1.1.`, `1.1.1.` on lines 0 to 2 |
| MaxLevelTests.HeadingsAtMaxLevelAreNumbered | tests/numbering.test.ts:99-130 | 3 changes; the change on line 2 contains `1.1.1` (it is `1.1.1.`); none on line 3 |
| MaxLevelTests.ContinuesFixture | tests/numbering.test.ts:133-149 | the fixture has levels 1, 2, 5, 6, 2, 3 on lines 0 to 5 |
| MaxLevelTests.ContinuesTail | tests/numbering.test.ts:159-167 | from counters `1.1.` past levels 5 and 6, the scan numbers level 2 as `1.2.` and then level 3 as `1.2.1.` |
| MaxLevelTests.ContinuesScan | tests/numbering.test.ts:132-168 | levels 1, 2, 5, 6, 2, 3 give exactly `1.`, `1.1.`, `1.2.`, `1.2.1.` on lines 0, 1, 4, 5 |
| MaxLevelTests.ContinuesFound | tests/numbering.test.ts:159-167 | on those changes, `find` gives `1.2.` on line 4 and `1.2.1.` on line 5, and each contains the number the test looks for |
| MaxLevelTests.NumberingContinuesAfterSkippedHeadings | tests/numbering.test.ts:132-168 | 4 changes; the change on line 4 contains `1.2` (it is `1.2.`); the change on line 5 contains `1.2.1` (it is `1.2.1.`) |
| MaxLevelTests.UndisturbedFixture | tests/numbering.test.ts:171-183 | the fixture has levels 1, 2, 4, 3 on lines 0 to 3 |
| MaxLevelTests.UndisturbedScan | tests/numbering.test.ts:170-196 | levels 1, 2, 4, 3 give exactly `1.`, `1.1.` and `1.1.1.` on lines 0, 1 and 3 |
| MaxLevelTests.HeadingsAboveMaxLevelDoNotAffectStack | tests/numbering.test.ts:170-196 | 3 changes; the change on line 3 contains `1.1.1` (it is `1.1.1.`) |
| MaxLevelTests.ConsecutiveFixture | tests/numbering.test.ts:199-213 | the fixture has levels 1, 4, 5, 6, 2 on lines 0 to 4 |
| MaxLevelTests.ConsecutiveScan | tests/numbering.test.ts:198-227 | levels 1, 4, 5, 6, 2 give exactly `1.` on line 0 and `1.1.` on line 4 |
| MaxLevelTests.ConsecutiveHeadingsAboveMaxLevelAreSkipped | tests/numbering.test.ts:198-227 | 2 changes; the change on line 4 contains `1.1` (it is `1.1.`) |
| MaxLevelTests.TopLevelFixture | tests/numbering.test.ts:232-244 | the fixture has levels 1, 2, 3, 1 on lines 0 to 3 |
| MaxLevelTests.TopLevelScan | tests/numbering.test.ts:229-262 | levels 1, 2, 3, 1 with `maxLevel = 1` give exactly `1.` on line 0 and `2.` on line 3 |
| MaxLevelTests.MaxLevelOneNumbersOnlyTopLevel | tests/numbering.test.ts:229-262 | 2 changes; the change on line 0 contains `1.` and the change on line 3 contains `2.` (they are exactly `1.` and `2.`) |
| MaxLevelTests.SixLevelsFixture | tests/numbering.test.ts:267-283 | the fixture has levels 1 to 6 on lines 0 to 5 |
| MaxLevelTests.SixLevelsScan | tests/numbering.test.ts:264-296 | levels 1 to 6 with `maxLevel = 6` give six changes, change `k` on line `k`, the last numbered `1.1.1.1.1.1.` |
| MaxLevelTests.MaxLevelSixNumbersAllHeadings | tests/numbering.test.ts:264-296 | 6 changes; the change on line 5 contains `1.1.1.1.1.1` (it is `1.1.1.1.1.1.`) |
| MaxLevelTests.PreviousLevelFixture | tests/numbering.test.ts:299-309 | the fixture has levels 2, 4, 2 on lines 0 to 2 |
| MaxLevelTests.PreviousLevelScan | tests/numbering.test.ts:298-327 | levels 2, 4, 2 give exactly `0.1.` on line 0 and `0.2.` on line 2 |
| MaxLevelTests.AboveMaxLevelDoesNotUpdatePreviousLevel | tests/numbering.test.ts:298-327 | 2 changes; the change on line 0 contains `0.1` (it is `0.1.`) and the change on line 2 contains `0.2` (it is `0.2.`) |

## Left out

- The engine itself lives in `src/numbering`, which is not part of this model. The counter
  stack, the in-range test on levels and the number strings are assumptions of the model,
  chosen to agree with what the tests assert. The lines below name each case the tests leave
  open and the choice the model makes there.
- Numbering.Fit: pads a skipped depth with 0 even under an existing ancestor, so levels 1 then 3
  (with `maxLevel` 3) give `1.` then `1.0.1.`. This is an assumption; the tests only show a
  leading 0 before any level-1 heading.
- Numbering.Advance: the same assumption, since it fits the stack before counting up.
- NumberingProperties.DeeperStartsAtOne: states that assumption for a heading two or more
  levels deeper than the one before it (levels 1, 3); no test skips a depth under an ancestor.
- Numbering.InRange: treats a heading below `firstLevel` like one above `maxLevel`, as
  transparent to the counters, so with `firstLevel` 2 the levels 2, 1, 3 give `1.` then `1.1.`.
  This is an assumption; every test sets `firstLevel` to 1.
- NumberingProperties.Transparent: its statement for a heading below `firstLevel` rests on that
  assumption.
- NumberingProperties.OutOfRangeIgnored: likewise for an inserted heading below `firstLevel`.
- Numbering.NumberString: writes the configured separator after every counter. This is an
  assumption for any separator other than `.`, the only one the tests use.
- Numbering.UpdateHeadingNumbering: sends all changes in exactly one `transaction` call. This is
  an assumption; the mock's `transaction` only appends, so the tests cannot tell one call from
  several calls that carry the same changes in the same order.
- Numbering.Settings: invalid settings (`maxLevel < firstLevel`, `firstLevel < 1`) and headings
  with a level below 1 are accepted silently. With `maxLevel < firstLevel` no heading is in
  range and no change is made; nothing in the tests says what the engine does with such input.
- TestSupport.CreateHeading: `end.col` is the title's length in Unicode code points, where
  JavaScript's `length` counts UTF-16 code units. The two differ only for characters outside the
  Basic Multilingual Plane (a one-emoji title has `end.col` 2 in JavaScript and 1 here). The
  fixtures' titles are ASCII and are unaffected.
- TestSupport.Substring: its indices count code points, not UTF-16 code units, for the same
  reason; the fixtures' lines are ASCII and are unaffected.
- TestSupport.MockEditor.GetRange: its `ch` offsets count code points, not UTF-16 code units, as
  `Substring` does; the fixtures are unaffected.
- `src/settingsTypes` (`DEFAULT_SETTINGS`, the settings record) and `src/activeViewHelpers`
  (`ViewInfo`) are not part of this model. The settings are reduced to `firstLevel`, `maxLevel`
  and the separator that the tests set. `ViewInfo` is reduced to the headings and the editor.
- Only the decimal style with `skipTopLevel = false` is modelled. The alphabetic, roman and
  "none" styles and skipping the top level are settings the tests never exercise.
- The change text is modelled as exactly the number string. The tests only require it to
  contain the number. Whatever else the engine writes (the space before the title, the range
  `to` it replaces, stripping an existing number) is not stated by the tests, so it is not
  modelled.
- Idempotent re-numbering (stripping a previous number before writing the new one) is left out
  for the same reason.
- Skipping a heading whose line `getLine` cannot read is left out.
  - The fixtures always give each heading a non-empty line.
  - `GetLine` and `GetRange` model the mock's behaviour on missing and empty lines.
  - The engine's reaction to them is not shown.
- A `previousLevel` variable, which a test name mentions, is not modelled as separate state. The
  model assumes that its only effect visible in the tests is that a heading above `maxLevel`
  leaves the counters alone, which is what `Transparent` and `OutOfRangeIgnored` state.
- The Obsidian types and casts (`Editor`, `EditorChange`, `HeadingCache`, `activeView`) keep only
  the fields the tests read. The Jest harness (`describe`, `beforeEach`, `expect`) is not
  modelled. `toContain` is the predicate `Contains` and `find` by line is `Find`.
- Applying the changes to a document, and the atomicity or undo behaviour of a transaction, are
  host I/O. The mock editor only records the changes.
- The test suite's settings are copied from the defaults before each test. The model passes the
  settings as a value instead.
