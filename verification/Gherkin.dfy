/** The Gherkin exporter, up to the lists handed to the template. */
module Gherkin {
  import opened Common
  import opened Text

  datatype StepType = NAVIGATE | CLICK | INPUT | ASSERT | WAIT | SCREENSHOT | API_CALL

  datatype TestStep = TestStep(
    action: string, locator: string, inputValue: string, expectedResult: string, stepType: StepType)

  datatype TestCase = TestCase(
    title: string, description: string, preconditions: seq<string>, steps: seq<TestStep>,
    expectedOutcome: string, testType: string)

  const INDENT2 := "        "

  /** Python's `a or b` on strings. */
  function Or(a: string, b: string): string {
    if a != "" then a else b
  }

  // ---------------------------------------------------------------------
  // Plain rendering
  // ---------------------------------------------------------------------

  /** The words before the quoted text of a step that has just one. */
  function Verb(t: StepType): string {
    match t
    case NAVIGATE => "I navigate to "
    case CLICK => "I click on "
    case INPUT => "I enter "
    case ASSERT => "I should see "
    case WAIT => "I wait for "
    case SCREENSHOT => "I take a screenshot of "
    case API_CALL => "I send a request to "
  }

  /** The first quoted text of a step. */
  function Shown(s: TestStep): string {
    match s.stepType
    case NAVIGATE => Or(s.locator, s.inputValue)
    case CLICK => Or(Or(s.locator, s.action), "the element")
    case INPUT => s.inputValue
    case ASSERT => Or(Or(s.expectedResult, s.locator), "the expected result")
    case WAIT => Or(s.locator, Or(s.inputValue, "1000") + "ms")
    case SCREENSHOT => Or(s.action, "the page")
    case API_CALL => s.locator
  }

  function Field(s: TestStep): string {
    Or(s.locator, "the field")
  }

  function Tail(s: TestStep): string {
    if s.stepType.INPUT? then " in the " + Quote(Field(s)) + " field" else ""
  }

  function StepText(s: TestStep): string {
    Verb(s.stepType) + Quote(Shown(s)) + Tail(s)
  }

  lemma Quoting(verb: string, opening: string, x: string)
    requires opening == verb + "\""
    ensures verb + Quote(x) + "" == opening + x + "\""
  {
  }

  lemma NavigateReads(s: TestStep)
    requires s.stepType == NAVIGATE
    ensures StepText(s) == "I navigate to \"" + (if s.locator != "" then s.locator else s.inputValue) + "\""
  {
    Quoting("I navigate to ", "I navigate to \"", Shown(s));
  }

  lemma ClickReads(s: TestStep)
    requires s.stepType == CLICK
    ensures StepText(s) == "I click on \"" + (if s.locator != "" then s.locator else if s.action != "" then s.action
                                             else "the element") + "\""
  {
    Quoting("I click on ", "I click on \"", Shown(s));
  }

  lemma QuotingTwo(verb: string, opening: string, x: string, mid: string, middle: string, f: string, tail: string, closing: string)
    requires opening == verb + "\"" && middle == "\"" + mid + "\"" && closing == "\"" + tail
    ensures verb + Quote(x) + (mid + Quote(f) + tail) == opening + x + middle + f + closing
  {
    Assoc(opening, x, middle);
    Assoc(opening + x, middle, f);
  }

  lemma {:induction false} InputReads(s: TestStep)
    requires s.stepType == INPUT
    ensures StepText(s) == "I enter \"" + s.inputValue + "\" in the \""
                         + (if s.locator != "" then s.locator else "the field") + "\" field"
  {
    hide Quote;
    QuotingTwo("I enter ", "I enter \"", s.inputValue, " in the ", "\" in the \"", Field(s), " field", "\" field");
  }

  lemma AssertReads(s: TestStep)
    requires s.stepType == ASSERT
    ensures StepText(s) == "I should see \"" + (if s.expectedResult != "" then s.expectedResult
                                               else if s.locator != "" then s.locator else "the expected result") + "\""
  {
    Quoting("I should see ", "I should see \"", Shown(s));
  }

  lemma WaitReads(s: TestStep)
    requires s.stepType == WAIT
    ensures s.locator != "" ==> StepText(s) == "I wait for \"" + s.locator + "\""
    ensures s.locator == "" ==>
              StepText(s) == "I wait for \"" + (if s.inputValue != "" then s.inputValue else "1000") + "ms\""
  {
    Quoting("I wait for ", "I wait for \"", Shown(s));
    assert "ms" + "\"" == "ms\"";
  }

  lemma ScreenshotReads(s: TestStep)
    requires s.stepType == SCREENSHOT
    ensures StepText(s) == "I take a screenshot of \"" + (if s.action != "" then s.action else "the page") + "\""
  {
    Quoting("I take a screenshot of ", "I take a screenshot of \"", Shown(s));
  }

  lemma ApiCallReads(s: TestStep)
    requires s.stepType == API_CALL
    ensures StepText(s) == "I send a request to \"" + s.locator + "\""
  {
    Quoting("I send a request to ", "I send a request to \"", Shown(s));
  }

  function Line(keyword: string, text: string): string {
    INDENT2 + keyword + " " + text
  }

  predicate AssertBefore(steps: seq<TestStep>, i: nat) {
    exists j :: 0 <= j < i && j < |steps| && steps[j].stepType == ASSERT
  }

  function FirstKeyword(s: TestStep): string {
    if s.stepType.NAVIGATE? then "Given" else "When"
  }

  /** The branches that pick a keyword. */
  function PlainKeywordOf(s: TestStep, first: bool, expectUsed: bool): string {
    if s.stepType.ASSERT? then (if !expectUsed then "Then" else "And")
    else if first then FirstKeyword(s)
    else "And"
  }

  function PlainKeyword(steps: seq<TestStep>, i: nat): string
    requires i < |steps|
  {
    PlainKeywordOf(steps[i], i == 0, AssertBefore(steps, i))
  }

  function PlainLine(steps: seq<TestStep>, i: nat): string
    requires i < |steps|
  {
    Line(PlainKeyword(steps, i), StepText(steps[i]))
  }

  function PlainLines(steps: seq<TestStep>): (lines: seq<string>)
    ensures |lines| == |steps|
  {
    if steps == [] then [] else PlainLines(steps[..|steps| - 1]) + [PlainLine(steps, |steps| - 1)]
  }

  lemma {:induction false} PlainLinesAt(steps: seq<TestStep>, i: nat)
    requires i < |steps|
    ensures PlainLines(steps)[i] == PlainLine(steps, i)
  {
    hide StepText;
    hide Line;
    if i < |steps| - 1 {
      PlainLinesAt(steps[..|steps| - 1], i);
      assert AssertBefore(steps[..|steps| - 1], i) <==> AssertBefore(steps, i);
    }
  }

  /** The whole plain rendering, line by line. */
  lemma {:induction false} PlainLinesRead(steps: seq<TestStep>, i: nat)
    requires i < |steps|
    ensures |PlainLines(steps)| == |steps|
    ensures steps[i].stepType == ASSERT && (forall j :: 0 <= j < i ==> steps[j].stepType != ASSERT) ==>
              PlainLines(steps)[i] == "        Then " + StepText(steps[i])
    ensures i > 0 && (steps[i].stepType == ASSERT ==> exists j :: 0 <= j < i && steps[j].stepType == ASSERT) ==>
              PlainLines(steps)[i] == "        And " + StepText(steps[i])
    ensures i == 0 && steps[0].stepType == NAVIGATE ==> PlainLines(steps)[0] == "        Given " + StepText(steps[0])
    ensures i == 0 && steps[0].stepType != NAVIGATE && steps[0].stepType != ASSERT ==>
              PlainLines(steps)[0] == "        When " + StepText(steps[0])
  {
    hide StepText;
    hide PlainLines;
    PlainLinesAt(steps, i);
    assert INDENT2 + "Then" + " " == "        Then ";
    assert INDENT2 + "And" + " " == "        And ";
    assert INDENT2 + "Given" + " " == "        Given ";
    assert INDENT2 + "When" + " " == "        When ";
  }

  method StepsToGherkinLines(steps: seq<TestStep>) returns (lines: seq<string>)
    ensures lines == PlainLines(steps)
  {
    hide StepText;
    hide Line;
    lines := [];
    var expectUsed := false;
    for i := 0 to |steps|
      invariant lines == PlainLines(steps[..i])
      invariant expectUsed <==> AssertBefore(steps, i)
    {
      var keyword := PlainKeywordOf(steps[i], i == 0, expectUsed);
      if steps[i].stepType.ASSERT? {
        expectUsed := true;
      }
      lines := lines + [Line(keyword, StepText(steps[i]))];
      assert steps[..i + 1][..i] == steps[..i];
    }
    assert steps[..|steps|] == steps;
  }

  // ---------------------------------------------------------------------
  // Outline
  // ---------------------------------------------------------------------

  const INPUT_SLOT := "<input>"
  const EXPECTED_SLOT := "<expected>"

  predicate HasInput(s: TestStep) {
    s.stepType.INPUT? && s.inputValue != ""
  }

  predicate HasExpected(s: TestStep) {
    s.stepType.ASSERT? && s.expectedResult != ""
  }

  function OutlineText(s: TestStep): string {
    if HasInput(s) then ReplaceAll(StepText(s), Quote(s.inputValue), Quote(INPUT_SLOT))
    else if HasExpected(s) then ReplaceAll(StepText(s), Quote(s.expectedResult), Quote(EXPECTED_SLOT))
    else StepText(s)
  }

  /** The branches that pick a template keyword. */
  function OutlineKeywordOf(s: TestStep, first: bool): string {
    if first then FirstKeyword(s) else if s.stepType.ASSERT? then "Then" else "And"
  }

  function OutlineKeyword(steps: seq<TestStep>, i: nat): string
    requires i < |steps|
  {
    OutlineKeywordOf(steps[i], i == 0)
  }

  function OutlineLine(steps: seq<TestStep>, i: nat): string
    requires i < |steps|
  {
    Line(OutlineKeyword(steps, i), OutlineText(steps[i]))
  }

  function OutlineLines(steps: seq<TestStep>): (lines: seq<string>)
    ensures |lines| == |steps|
  {
    if steps == [] then [] else OutlineLines(steps[..|steps| - 1]) + [OutlineLine(steps, |steps| - 1)]
  }

  lemma {:induction false} OutlineLinesAt(steps: seq<TestStep>, i: nat)
    requires i < |steps|
    ensures OutlineLines(steps)[i] == OutlineLine(steps, i)
  {
    hide StepText;
    hide Line;
    hide OutlineText;
    if i < |steps| - 1 {
      OutlineLinesAt(steps[..|steps| - 1], i);
    }
  }

  /** The whole template, line by line. */
  lemma {:induction false} OutlineLinesRead(steps: seq<TestStep>, i: nat)
    requires i < |steps|
    ensures |OutlineLines(steps)| == |steps|
    ensures i == 0 ==>
              OutlineLines(steps)[0]
              == (if steps[0].stepType == NAVIGATE then "        Given " else "        When ") + OutlineText(steps[0])
    ensures i > 0 ==>
              OutlineLines(steps)[i]
              == (if steps[i].stepType == ASSERT then "        Then " else "        And ") + OutlineText(steps[i])
  {
    hide OutlineText;
    hide OutlineLines;
    OutlineLinesAt(steps, i);
    assert INDENT2 + "Then" + " " == "        Then ";
    assert INDENT2 + "And" + " " == "        And ";
    assert INDENT2 + "Given" + " " == "        Given ";
    assert INDENT2 + "When" + " " == "        When ";
  }

  /** What a template step reads like. */
  lemma {:induction false} OutlineTextReads(s: TestStep)
    ensures s.stepType == INPUT && s.inputValue != "" ==>
              OutlineText(s) == ReplaceAll(StepText(s), "\"" + s.inputValue + "\"", "\"<input>\"")
    ensures s.stepType == ASSERT && s.expectedResult != "" ==>
              OutlineText(s) == ReplaceAll(StepText(s), "\"" + s.expectedResult + "\"", "\"<expected>\"")
    ensures (s.stepType == INPUT ==> s.inputValue == "") && (s.stepType == ASSERT ==> s.expectedResult == "") ==>
              OutlineText(s) == StepText(s)
  {
    hide StepText;
    hide ReplaceAll;
    assert Quote(INPUT_SLOT) == "\"<input>\"" && Quote(EXPECTED_SLOT) == "\"<expected>\"";
  }

  datatype Row = Row(input: string, expected: string)

  /** The last non-empty input value, or nothing. */
  function LastInput(steps: seq<TestStep>): Option<string> {
    if steps == [] then None
    else if HasInput(steps[|steps| - 1]) then Some(steps[|steps| - 1].inputValue)
    else LastInput(steps[..|steps| - 1])
  }

  function LastExpected(steps: seq<TestStep>): Option<string> {
    if steps == [] then None
    else if HasExpected(steps[|steps| - 1]) then Some(steps[|steps| - 1].expectedResult)
    else LastExpected(steps[..|steps| - 1])
  }

  function ExampleRow(tc: TestCase): Row {
    Row(if LastInput(tc.steps).Some? then LastInput(tc.steps).value else "",
        if LastExpected(tc.steps).Some? then LastExpected(tc.steps).value else Or(tc.expectedOutcome, "success"))
  }

  lemma {:induction false} LastInputIs(steps: seq<TestStep>, i: nat)
    requires i < |steps| && steps[i].stepType == INPUT && steps[i].inputValue != ""
    requires forall j :: i < j < |steps| ==> steps[j].stepType != INPUT || steps[j].inputValue == ""
    ensures LastInput(steps) == Some(steps[i].inputValue)
  {
    if i < |steps| - 1 {
      assert !HasInput(steps[|steps| - 1]);
      LastInputIs(steps[..|steps| - 1], i);
    }
  }

  lemma {:induction false} NoLastInput(steps: seq<TestStep>)
    requires forall j :: 0 <= j < |steps| ==> steps[j].stepType != INPUT || steps[j].inputValue == ""
    ensures LastInput(steps) == None
  {
    if steps != [] {
      NoLastInput(steps[..|steps| - 1]);
    }
  }

  lemma {:induction false} LastExpectedIs(steps: seq<TestStep>, i: nat)
    requires i < |steps| && steps[i].stepType == ASSERT && steps[i].expectedResult != ""
    requires forall j :: i < j < |steps| ==> steps[j].stepType != ASSERT || steps[j].expectedResult == ""
    ensures LastExpected(steps) == Some(steps[i].expectedResult)
  {
    if i < |steps| - 1 {
      assert !HasExpected(steps[|steps| - 1]);
      LastExpectedIs(steps[..|steps| - 1], i);
    }
  }

  lemma {:induction false} NoLastExpected(steps: seq<TestStep>)
    requires forall j :: 0 <= j < |steps| ==> steps[j].stepType != ASSERT || steps[j].expectedResult == ""
    ensures LastExpected(steps) == None
  {
    if steps != [] {
      NoLastExpected(steps[..|steps| - 1]);
    }
  }

  /** A row holds the last value entered in its case, or nothing. */
  lemma {:induction false} RowInputReads(tc: TestCase)
    ensures forall i :: 0 <= i < |tc.steps| && tc.steps[i].stepType == INPUT && tc.steps[i].inputValue != ""
                        && (forall j :: i < j < |tc.steps| ==> tc.steps[j].stepType != INPUT || tc.steps[j].inputValue == "")
                        ==> ExampleRow(tc).input == tc.steps[i].inputValue
    ensures (forall j :: 0 <= j < |tc.steps| ==> tc.steps[j].stepType != INPUT || tc.steps[j].inputValue == "") ==>
              ExampleRow(tc).input == ""
  {
    hide LastInput;
    forall i | 0 <= i < |tc.steps| && tc.steps[i].stepType == INPUT && tc.steps[i].inputValue != ""
               && forall j :: i < j < |tc.steps| ==> tc.steps[j].stepType != INPUT || tc.steps[j].inputValue == ""
      ensures ExampleRow(tc).input == tc.steps[i].inputValue
    {
      LastInputIs(tc.steps, i);
    }
    if forall j :: 0 <= j < |tc.steps| ==> tc.steps[j].stepType != INPUT || tc.steps[j].inputValue == "" {
      NoLastInput(tc.steps);
    }
  }

  /** A row holds the last text expected in its case, or the outcome of the case. */
  lemma {:induction false} RowExpectedReads(tc: TestCase)
    ensures forall i :: 0 <= i < |tc.steps| && tc.steps[i].stepType == ASSERT && tc.steps[i].expectedResult != ""
                        && (forall j :: i < j < |tc.steps| ==> tc.steps[j].stepType != ASSERT || tc.steps[j].expectedResult == "")
                        ==> ExampleRow(tc).expected == tc.steps[i].expectedResult
    ensures (forall j :: 0 <= j < |tc.steps| ==> tc.steps[j].stepType != ASSERT || tc.steps[j].expectedResult == "") ==>
              ExampleRow(tc).expected == if tc.expectedOutcome != "" then tc.expectedOutcome else "success"
  {
    hide LastExpected;
    forall i | 0 <= i < |tc.steps| && tc.steps[i].stepType == ASSERT && tc.steps[i].expectedResult != ""
               && forall j :: i < j < |tc.steps| ==> tc.steps[j].stepType != ASSERT || tc.steps[j].expectedResult == ""
      ensures ExampleRow(tc).expected == tc.steps[i].expectedResult
    {
      LastExpectedIs(tc.steps, i);
    }
    if forall j :: 0 <= j < |tc.steps| ==> tc.steps[j].stepType != ASSERT || tc.steps[j].expectedResult == "" {
      NoLastExpected(tc.steps);
    }
  }

  predicate AnyInput(steps: seq<TestStep>) {
    exists i :: 0 <= i < |steps| && HasInput(steps[i])
  }

  function ExampleRows(cases: seq<TestCase>): (rows: seq<Row>)
    ensures |rows| == |cases|
    ensures forall k :: 0 <= k < |cases| ==> rows[k] == ExampleRow(cases[k])
  {
    if cases == [] then [] else ExampleRows(cases[..|cases| - 1]) + [ExampleRow(cases[|cases| - 1])]
  }

  /** Template lines and one row per case, or nothing when the first case has no input. */
  function OutlineOf(cases: seq<TestCase>): (seq<string>, seq<Row>) {
    if cases == [] || !AnyInput(cases[0].steps) then ([], [])
    else (OutlineLines(cases[0].steps), ExampleRows(cases))
  }

  method TemplateLines(steps: seq<TestStep>) returns (outline: seq<string>, hasInput: bool)
    ensures outline == OutlineLines(steps) && hasInput == AnyInput(steps)
  {
    hide StepText;
    hide Line;
    hide ReplaceAll;
    outline, hasInput := [], false;
    for i := 0 to |steps|
      invariant outline == OutlineLines(steps[..i])
      invariant hasInput <==> exists k :: 0 <= k < i && HasInput(steps[k])
    {
      var step := steps[i];
      var text := StepText(step);
      if step.stepType.INPUT? && step.inputValue != "" {
        text := ReplaceAll(text, Quote(step.inputValue), Quote(INPUT_SLOT));
        hasInput := true;
      }
      if step.stepType.ASSERT? && step.expectedResult != "" {
        text := ReplaceAll(text, Quote(step.expectedResult), Quote(EXPECTED_SLOT));
      }
      outline := outline + [Line(OutlineKeywordOf(step, i == 0), text)];
      assert steps[..i + 1][..i] == steps[..i];
    }
    assert steps[..|steps|] == steps;
  }

  method BuildRow(tc: TestCase) returns (row: Row)
    ensures row == ExampleRow(tc)
  {
    var input: Option<string> := None;
    var expected: Option<string> := None;
    for i := 0 to |tc.steps|
      invariant input == LastInput(tc.steps[..i]) && expected == LastExpected(tc.steps[..i])
    {
      assert tc.steps[..i + 1][..i] == tc.steps[..i];
      if HasInput(tc.steps[i]) {
        input := Some(tc.steps[i].inputValue);
      }
      if HasExpected(tc.steps[i]) {
        expected := Some(tc.steps[i].expectedResult);
      }
    }
    assert tc.steps[..|tc.steps|] == tc.steps;
    row := Row(if input.Some? then input.value else "",
               if expected.Some? then expected.value else Or(tc.expectedOutcome, "success"));
  }

  method BuildOutlineSteps(cases: seq<TestCase>) returns (outline: seq<string>, examples: seq<Row>)
    ensures (outline, examples) == OutlineOf(cases)
  {
    hide OutlineLines;
    outline, examples := [], [];
    if cases == [] {
      return;
    }
    var hasInput;
    outline, hasInput := TemplateLines(cases[0].steps);
    if !hasInput {
      return [], [];
    }
    for n := 0 to |cases|
      invariant examples == ExampleRows(cases[..n])
    {
      var row := BuildRow(cases[n]);
      examples := examples + [row];
      assert cases[..n + 1][..n] == cases[..n];
    }
    assert cases[..|cases|] == cases;
  }

  // ---------------------------------------------------------------------
  // What an outline means: the placeholders of a line replaced by a row
  // ---------------------------------------------------------------------

  function Substitute(line: string, row: Row): string {
    ReplaceAll(ReplaceAll(line, INPUT_SLOT, row.input), EXPECTED_SLOT, row.expected)
  }

  function Instantiate(outline: seq<string>, row: Row): seq<string> {
    seq(|outline|, i requires 0 <= i < |outline| => Substitute(outline[i], row))
  }

  ghost predicate SlotFree(s: string) {
    Free(s, INPUT_SLOT) && Free(s, EXPECTED_SLOT)
  }

  /** The step can be turned into a template: its texts hold no placeholder, the
      texts to be cut out and the field hold no quote, and the value differs
      from the field. */
  ghost predicate Templatable(s: TestStep) {
    && SlotFree(Shown(s)) && SlotFree(Field(s))
    && (HasInput(s) ==> '\"' !in s.inputValue && '\"' !in Field(s) && s.inputValue != Field(s))
    && (HasExpected(s) ==> '\"' !in s.expectedResult)
  }

  /** The template step with the row's texts in place of its own. */
  function Fill(s: TestStep, row: Row): TestStep {
    if HasInput(s) then s.(inputValue := row.input)
    else if HasExpected(s) then s.(expectedResult := row.expected)
    else s
  }

  lemma DifferentTails(f: string)
    requires f != INPUT_SLOT
    ensures " in the " + Quote(INPUT_SLOT) + " field" != " in the " + Quote(f) + " field"
  {
    var a, b := " in the " + Quote(INPUT_SLOT) + " field", " in the " + Quote(f) + " field";
    if |f| == |INPUT_SLOT| {
      assert a[9..16] == INPUT_SLOT && b[9..16] == f;
    } else {
      assert |a| != |b|;
    }
  }

  /** Cutting the value out leaves the step with a placeholder as its value,
      exactly when the value is not also the name of the field. */
  lemma OutlineTextOfInput(s: TestStep)
    requires HasInput(s) && '\"' !in s.inputValue && '\"' !in Field(s) && s.inputValue != INPUT_SLOT
    ensures OutlineText(s) == StepText(s.(inputValue := INPUT_SLOT)) <==> s.inputValue != Field(s)
  {
    var f := Field(s);
    var rep := Quote(INPUT_SLOT);
    ReplaceTwoQuoted(Verb(INPUT), s.inputValue, " in the ", f, " field", rep);
    var t := s.(inputValue := INPUT_SLOT);
    var head := Verb(INPUT) + rep;
    assert StepText(t) == head + Tail(s);
    if s.inputValue == f {
      DifferentTails(f);
      assert OutlineText(s)[|head|..] == " in the " + rep + " field";
      assert StepText(t)[|head|..] == Tail(s);
    }
  }

  lemma OutlineTextOfExpected(s: TestStep)
    requires HasExpected(s) && '\"' !in s.expectedResult
    ensures OutlineText(s) == StepText(s.(expectedResult := EXPECTED_SLOT))
  {
    var v := s.expectedResult;
    var rep := Quote(EXPECTED_SLOT);
    assert StepText(s) == Verb(ASSERT) + Quote(v) + "";
    ReplaceQuoted(Verb(ASSERT), v, "", v, rep);
  }

  lemma VerbHasNoSlot(t: StepType)
    ensures '<' !in Verb(t)
  {
  }

  lemma SlotChars()
    ensures INPUT_SLOT != "" && INPUT_SLOT[0] == '<' && '\"' !in INPUT_SLOT
    ensures EXPECTED_SLOT != "" && EXPECTED_SLOT[0] == '<' && '\"' !in EXPECTED_SLOT
  {
  }

  lemma {:induction false} Rendered(lead: string, t: StepType, shown: string, tail: string, slot: string, rep: string)
    requires slot == INPUT_SLOT || slot == EXPECTED_SLOT
    requires '<' !in lead && ReplaceAll(tail, slot, rep) == tail
    ensures ReplaceAll(lead + (Verb(t) + Quote(shown) + tail), slot, rep)
         == lead + (Verb(t) + Quote(ReplaceAll(shown, slot, rep)) + tail)
  {
    VerbHasNoSlot(t);
    SlotChars();
    hide *;
    var head := lead + Verb(t);
    ReplaceInsideQuotes(head, shown, tail, slot, rep);
    assert lead + (Verb(t) + Quote(shown) + tail) == head + Quote(shown) + tail;
    var shown' := ReplaceAll(shown, slot, rep);
    assert lead + (Verb(t) + Quote(shown') + tail) == head + Quote(shown') + tail;
  }

  lemma TailUnchanged(s: TestStep, slot: string, rep: string)
    requires slot == INPUT_SLOT || slot == EXPECTED_SLOT
    requires Free(Field(s), slot)
    ensures ReplaceAll(Tail(s), slot, rep) == Tail(s)
  {
    if s.stepType.INPUT? {
      var f := Field(s);
      NoFirstCharFree(" field", slot);
      FreeUnchanged(" field", slot, rep);
      FreeUnchanged(f, slot, rep);
      ReplaceInsideQuotes(" in the ", f, " field", slot, rep);
    }
  }

  /** Replacing a placeholder in a step text acts on its first quoted text alone. */
  lemma ReplaceInText(lead: string, s: TestStep, slot: string, rep: string)
    requires slot == INPUT_SLOT || slot == EXPECTED_SLOT
    requires '<' !in lead && Free(Field(s), slot)
    ensures ReplaceAll(lead + StepText(s), slot, rep)
         == lead + (Verb(s.stepType) + Quote(ReplaceAll(Shown(s), slot, rep)) + Tail(s))
  {
    TailUnchanged(s, slot, rep);
    Rendered(lead, s.stepType, Shown(s), Tail(s), slot, rep);
  }

  lemma SlotNotFree(slot: string)
    ensures !Free(slot, slot)
  {
    assert slot[0..0 + |slot|] == slot;
    assert OccursAt(slot, slot, 0);
  }

  lemma SlotsAreApart()
    ensures Free(EXPECTED_SLOT, INPUT_SLOT)
  {
    forall i: nat
      ensures !OccursAt(EXPECTED_SLOT, INPUT_SLOT, i)
    {
      OccursChar(EXPECTED_SLOT, INPUT_SLOT, i, 0);
      OccursChar(EXPECTED_SLOT, INPUT_SLOT, i, 1);
      assert EXPECTED_SLOT[1] == 'e' && forall k :: 0 < k < |EXPECTED_SLOT| ==> EXPECTED_SLOT[k] != '<';
    }
  }

  lemma SlotIsReplaced(slot: string, rep: string)
    requires slot != ""
    ensures ReplaceAll(slot, slot, rep) == rep
  {
    assert slot[..|slot|] == slot && slot[|slot|..] == "";
    assert rep + "" == rep;
  }

  /** One line: substituting a row into the outline text gives the template
      step with the row's texts. */
  lemma SubstituteLine(lead: string, s: TestStep, row: Row)
    requires '<' !in lead && Templatable(s) && Free(row.input, EXPECTED_SLOT) && row.expected != ""
    ensures Substitute(lead + OutlineText(s), row) == lead + StepText(Fill(s, row))
  {
    var t := if HasInput(s) then s.(inputValue := INPUT_SLOT)
             else if HasExpected(s) then s.(expectedResult := EXPECTED_SLOT) else s;
    assert OutlineText(s) == StepText(t) && Field(t) == Field(s) by {
      if HasInput(s) {
        SlotNotFree(INPUT_SLOT);
        OutlineTextOfInput(s);
      } else if HasExpected(s) {
        OutlineTextOfExpected(s);
      }
    }
    ReplaceInText(lead, t, INPUT_SLOT, row.input);
    var u := if HasInput(s) then s.(inputValue := row.input) else t;
    assert ReplaceAll(Shown(t), INPUT_SLOT, row.input) == Shown(u) by {
      if HasInput(s) {
        SlotIsReplaced(INPUT_SLOT, row.input);
      } else if HasExpected(s) {
        SlotsAreApart();
        FreeUnchanged(EXPECTED_SLOT, INPUT_SLOT, row.input);
      } else {
        FreeUnchanged(Shown(s), INPUT_SLOT, row.input);
      }
    }
    assert ReplaceAll(lead + OutlineText(s), INPUT_SLOT, row.input) == lead + StepText(u);
    ReplaceInText(lead, u, EXPECTED_SLOT, row.expected);
    var v := Fill(s, row);
    assert ReplaceAll(Shown(u), EXPECTED_SLOT, row.expected) == Shown(v) by {
      if HasInput(s) {
        FreeUnchanged(row.input, EXPECTED_SLOT, row.expected);
      } else if HasExpected(s) {
        SlotIsReplaced(EXPECTED_SLOT, row.expected);
      } else {
        FreeUnchanged(Shown(s), EXPECTED_SLOT, row.expected);
      }
    }
  }

  // ---------------------------------------------------------------------
  // Outlines reproduce their cases
  // ---------------------------------------------------------------------

  predicate AssertsInPlace(steps: seq<TestStep>) {
    && (steps != [] ==> !steps[0].stepType.ASSERT?)
    && forall i, j :: 0 <= i < j < |steps| ==> !(steps[i].stepType.ASSERT? && steps[j].stepType.ASSERT?)
  }

  /** Template keywords and plain keywords agree exactly when there is at most
      one assertion and it does not come first. */
  lemma KeywordsAgreeIff(steps: seq<TestStep>)
    ensures (forall i :: 0 <= i < |steps| ==> OutlineKeyword(steps, i) == PlainKeyword(steps, i)) <==> AssertsInPlace(steps)
  {
    if AssertsInPlace(steps) {
      forall i | 0 <= i < |steps|
        ensures OutlineKeyword(steps, i) == PlainKeyword(steps, i)
      {
        assert steps[i].stepType.ASSERT? ==> i > 0 && !AssertBefore(steps, i);
      }
    } else if steps[0].stepType.ASSERT? {
      assert OutlineKeyword(steps, 0) == "When" && PlainKeyword(steps, 0) == "Then";
    } else {
      var i, j :| 0 <= i < j < |steps| && steps[i].stepType.ASSERT? && steps[j].stepType.ASSERT?;
      assert AssertBefore(steps, j);
      assert OutlineKeyword(steps, j) == "Then" && PlainKeyword(steps, j) == "And";
    }
  }

  /** The two steps differ at most in the value entered or the text expected. */
  predicate Matching(a: TestStep, b: TestStep) {
    && a.stepType == b.stepType
    && (HasInput(a) <==> HasInput(b))
    && (HasExpected(a) <==> HasExpected(b))
    && (a.stepType.INPUT? ==> Field(a) == Field(b))
    && (!HasInput(a) && !HasExpected(a) ==> Shown(a) == Shown(b))
  }

  predicate SameShape(a: seq<TestStep>, b: seq<TestStep>) {
    |a| == |b| && forall i :: 0 <= i < |a| ==> Matching(a[i], b[i])
  }

  /** One value is entered and one text expected, however often: what a row can hold. */
  predicate FitsRow(steps: seq<TestStep>) {
    && (forall i, j :: 0 <= i < |steps| && 0 <= j < |steps| && HasInput(steps[i]) && HasInput(steps[j]) ==>
          steps[i].inputValue == steps[j].inputValue)
    && (forall i, j :: 0 <= i < |steps| && 0 <= j < |steps| && HasExpected(steps[i]) && HasExpected(steps[j]) ==>
          steps[i].expectedResult == steps[j].expectedResult)
  }

  lemma {:induction false} LastInputFound(steps: seq<TestStep>, i: nat)
    requires i < |steps| && HasInput(steps[i])
    ensures LastInput(steps).Some?
    ensures exists j :: 0 <= j < |steps| && HasInput(steps[j]) && LastInput(steps) == Some(steps[j].inputValue)
  {
    var last := |steps| - 1;
    if !HasInput(steps[last]) {
      LastInputFound(steps[..last], i);
      var j :| 0 <= j < last && HasInput(steps[..last][j]) && LastInput(steps) == Some(steps[..last][j].inputValue);
      assert steps[..last][j] == steps[j];
    }
  }

  lemma {:induction false} LastExpectedFound(steps: seq<TestStep>, i: nat)
    requires i < |steps| && HasExpected(steps[i])
    ensures LastExpected(steps).Some?
    ensures exists j :: 0 <= j < |steps| && HasExpected(steps[j]) && LastExpected(steps) == Some(steps[j].expectedResult)
  {
    var last := |steps| - 1;
    if !HasExpected(steps[last]) {
      LastExpectedFound(steps[..last], i);
      var j :| 0 <= j < last && HasExpected(steps[..last][j]) && LastExpected(steps) == Some(steps[..last][j].expectedResult);
      assert steps[..last][j] == steps[j];
    }
  }

  lemma {:induction false} LastExpectedNonEmpty(steps: seq<TestStep>)
    ensures LastExpected(steps).Some? ==> LastExpected(steps).value != ""
  {
    if steps != [] {
      LastExpectedNonEmpty(steps[..|steps| - 1]);
    }
  }

  lemma RowFitsStep(tc: TestCase, a: TestStep, i: nat)
    requires i < |tc.steps| && FitsRow(tc.steps) && Matching(a, tc.steps[i])
    ensures StepText(Fill(a, ExampleRow(tc))) == StepText(tc.steps[i])
  {
    var b := tc.steps[i];
    var filled := Fill(a, ExampleRow(tc));
    if HasInput(a) {
      LastInputFound(tc.steps, i);
      assert filled.inputValue == b.inputValue;
    } else if HasExpected(a) {
      LastExpectedFound(tc.steps, i);
      assert filled.expectedResult == b.expectedResult;
    }
    assert Shown(filled) == Shown(b) && Tail(filled) == Tail(b);
  }

  /** Substituting a row into a template line keeps its keyword and fills its step. */
  lemma InstantiatedLine(steps: seq<TestStep>, i: nat, row: Row)
    requires i < |steps| && Templatable(steps[i]) && Free(row.input, EXPECTED_SLOT) && row.expected != ""
    ensures Substitute(OutlineLine(steps, i), row) == Line(OutlineKeyword(steps, i), StepText(Fill(steps[i], row)))
  {
    var keyword := OutlineKeyword(steps, i);
    var lead := INDENT2 + keyword + " ";
    assert '<' !in lead;
    SubstituteLine(lead, steps[i], row);
  }

  /** A line shows its keyword and its text, when the keyword is one word. */
  lemma LineIsReadable(k: string, k': string, text: string, text': string)
    requires ' ' !in k && ' ' !in k'
    ensures Line(k, text) == Line(k', text') <==> k == k' && text == text'
  {
    var a, b := Line(k, text), Line(k', text');
    if a == b {
      assert a[8 + |k|] == ' ' && b[8 + |k'|] == ' ';
      assert forall i :: 0 <= i < |k| ==> a[8 + i] == k[i];
      assert forall i :: 0 <= i < |k'| ==> b[8 + i] == k'[i];
      assert |k| == |k'|;
      assert a[8..8 + |k|] == k && b[8..8 + |k'|] == k';
      assert a[9 + |k|..] == text && b[9 + |k'|..] == text';
    }
  }

  /** Step `i` of the template, filled in, reads like step `i` of the case. */
  predicate ReadsLike(t: seq<TestStep>, c: seq<TestStep>, row: Row, i: nat)
    requires i < |t| && i < |c|
  {
    OutlineKeyword(t, i) == PlainKeyword(c, i) && StepText(Fill(t[i], row)) == StepText(c[i])
  }

  lemma {:induction false} InstantiatedLineIff(t: seq<TestStep>, c: seq<TestStep>, row: Row, i: nat)
    requires i < |t| && i < |c| && Templatable(t[i]) && Free(row.input, EXPECTED_SLOT) && row.expected != ""
    ensures Substitute(OutlineLines(t)[i], row) == PlainLines(c)[i] <==> ReadsLike(t, c, row, i)
  {
    hide StepText;
    hide Line;
    hide Substitute;
    hide Templatable;
    hide Free;
    hide Fill;
    hide OutlineLines;
    hide PlainLines;
    OutlineLinesAt(t, i);
    PlainLinesAt(c, i);
    InstantiatedLine(t, i, row);
    LineIsReadable(OutlineKeyword(t, i), PlainKeyword(c, i), StepText(Fill(t[i], row)), StepText(c[i]));
  }

  /** The template with a case's row is the plain rendering of the case, whatever
      the shapes of the two, if and only if they have as many steps and each filled
      in step reads like the case's. */
  lemma {:induction false} OutlineReproducesIff(t: seq<TestStep>, tc: TestCase)
    requires forall i :: 0 <= i < |t| ==> Templatable(t[i])
    requires Free(ExampleRow(tc).input, EXPECTED_SLOT)
    ensures Instantiate(OutlineLines(t), ExampleRow(tc)) == PlainLines(tc.steps)
       <==> |t| == |tc.steps| && forall i :: 0 <= i < |t| ==> ReadsLike(t, tc.steps, ExampleRow(tc), i)
  {
    hide OutlineLines;
    hide PlainLines;
    hide ReadsLike;
    hide Substitute;
    hide Templatable;
    hide Free;
    var c, row := tc.steps, ExampleRow(tc);
    LastExpectedNonEmpty(c);
    var filled := Instantiate(OutlineLines(t), row);
    if |t| == |c| {
      forall i | 0 <= i < |t|
        ensures filled[i] == PlainLines(c)[i] <==> ReadsLike(t, c, row, i)
      {
        InstantiatedLineIff(t, c, row, i);
      }
      if forall i :: 0 <= i < |t| ==> ReadsLike(t, c, row, i) {
        assert filled == PlainLines(c);
      }
    }
  }

  lemma {:induction false} SameShapeReadsLike(t: seq<TestStep>, tc: TestCase, i: nat)
    requires SameShape(t, tc.steps) && FitsRow(tc.steps) && i < |t|
    ensures ReadsLike(t, tc.steps, ExampleRow(tc), i) <==> OutlineKeyword(tc.steps, i) == PlainKeyword(tc.steps, i)
  {
    hide StepText;
    hide Fill;
    RowFitsStep(tc, t[i], i);
    assert Matching(t[i], tc.steps[i]);
    assert OutlineKeyword(t, i) == OutlineKeyword(tc.steps, i);
  }

  lemma {:induction false} CaseIsReproduced(t: seq<TestStep>, tc: TestCase)
    requires forall i :: 0 <= i < |t| ==> Templatable(t[i])
    requires SameShape(t, tc.steps) && FitsRow(tc.steps)
    requires Free(ExampleRow(tc).input, EXPECTED_SLOT)
    ensures Instantiate(OutlineLines(t), ExampleRow(tc)) == PlainLines(tc.steps) <==> AssertsInPlace(tc.steps)
  {
    hide OutlineLines;
    hide PlainLines;
    hide OutlineKeyword;
    hide PlainKeyword;
    hide ReadsLike;
    hide Instantiate;
    hide Templatable;
    hide FitsRow;
    hide Free;
    hide AssertsInPlace;
    OutlineReproducesIff(t, tc);
    forall i | 0 <= i < |t|
      ensures ReadsLike(t, tc.steps, ExampleRow(tc), i) <==> OutlineKeyword(tc.steps, i) == PlainKeyword(tc.steps, i)
    {
      SameShapeReadsLike(t, tc, i);
    }
    KeywordsAgreeIff(tc.steps);
  }

  /** The main case. For a case of the template's shape, the template with the
      case's row in place of the placeholders is exactly the plain rendering of
      the case, if and only if its one assertion, if any, is not its first step. */
  lemma {:induction false} OutlineReproducesCase(cases: seq<TestCase>, n: nat)
    requires n < |cases|
    requires forall i :: 0 <= i < |cases[0].steps| ==> Templatable(cases[0].steps[i])
    requires SameShape(cases[0].steps, cases[n].steps) && FitsRow(cases[n].steps)
    requires Free(ExampleRow(cases[n]).input, EXPECTED_SLOT)
    ensures Instantiate(OutlineLines(cases[0].steps), ExampleRows(cases)[n]) == PlainLines(cases[n].steps)
       <==> AssertsInPlace(cases[n].steps)
  {
    hide *;
    CaseIsReproduced(cases[0].steps, cases[n]);
  }

  // ---------------------------------------------------------------------
  // The scenario and outline lists
  // ---------------------------------------------------------------------

  datatype Scenario = Scenario(title: string, description: string, steps: seq<string>)
  datatype Outline = Outline(title: string, steps: seq<string>, examples: seq<Row>)

  predicate IsPositive(tc: TestCase) {
    tc.testType == "positive"
  }

  predicate IsDataDriven(tc: TestCase) {
    tc.testType == "boundary" || tc.testType == "negative"
  }

  /** The preconditions every case has. */
  function Shared(cases: seq<TestCase>): set<string> {
    if cases == [] then {}
    else set p | p in cases[0].preconditions && forall i :: 0 <= i < |cases| ==> p in cases[i].preconditions
  }

  function Background(cases: seq<TestCase>): set<string> {
    set p | p in Shared(cases) :: Line("Given", p)
  }

  /** The preconditions of a case that its own scenario repeats. */
  function Extra(tc: TestCase, background: set<string>): seq<string> {
    Filter(tc.preconditions, p => p !in background)
  }

  function GivenLines(preconditions: seq<string>): seq<string> {
    if preconditions == [] then []
    else GivenLines(preconditions[..|preconditions| - 1]) + [Line("Given", preconditions[|preconditions| - 1])]
  }

  function PositiveScenario(tc: TestCase, background: set<string>): Scenario {
    Scenario(tc.title, tc.description, GivenLines(Extra(tc, background)) + PlainLines(tc.steps))
  }

  function Suffixed(tc: TestCase): string {
    tc.title + " (" + tc.testType + ")"
  }

  function DataScenario(tc: TestCase): Scenario {
    Scenario(Suffixed(tc), tc.description, PlainLines(tc.steps))
  }

  function PositiveScenarios(cases: seq<TestCase>, background: set<string>): (r: seq<Scenario>)
    ensures |r| == |cases|
  {
    if cases == [] then []
    else PositiveScenarios(cases[..|cases| - 1], background) + [PositiveScenario(cases[|cases| - 1], background)]
  }

  lemma {:induction false} PositiveScenarioAt(cases: seq<TestCase>, background: set<string>, i: nat)
    requires i < |cases|
    ensures PositiveScenarios(cases, background)[i] == PositiveScenario(cases[i], background)
  {
    hide PositiveScenario;
    if i < |cases| - 1 {
      PositiveScenarioAt(cases[..|cases| - 1], background, i);
    }
  }

  function DataScenarios(cases: seq<TestCase>): (r: seq<Scenario>)
    ensures |r| == |cases|
  {
    if cases == [] then [] else DataScenarios(cases[..|cases| - 1]) + [DataScenario(cases[|cases| - 1])]
  }

  lemma {:induction false} DataScenarioAt(cases: seq<TestCase>, i: nat)
    requires i < |cases|
    ensures DataScenarios(cases)[i] == DataScenario(cases[i])
  {
    hide DataScenario;
    if i < |cases| - 1 {
      DataScenarioAt(cases[..|cases| - 1], i);
    }
  }

  lemma {:induction false} GivenLinesRead(preconditions: seq<string>)
    ensures |GivenLines(preconditions)| == |preconditions|
    ensures forall i :: 0 <= i < |preconditions| ==> GivenLines(preconditions)[i] == "        Given " + preconditions[i]
  {
    if preconditions != [] {
      GivenLinesRead(preconditions[..|preconditions| - 1]);
      assert INDENT2 + "Given" + " " == "        Given ";
    }
  }

  /** The scenario of a positive case: the preconditions it repeats, in order,
      and then its steps. */
  lemma {:induction false} PositiveScenarioReads(cases: seq<TestCase>, background: set<string>, i: nat)
    requires i < |cases|
    ensures var s, tc := PositiveScenarios(cases, background)[i], cases[i];
      var n := |Extra(tc, background)|;
      && s.title == tc.title && s.description == tc.description && |s.steps| == n + |tc.steps|
      && (forall j :: 0 <= j < n ==> s.steps[j] == "        Given " + Extra(tc, background)[j])
      && s.steps[n..] == PlainLines(tc.steps)
  {
    hide PlainLines;
    hide Extra;
    PositiveScenarioAt(cases, background, i);
    GivenLinesRead(Extra(cases[i], background));
  }

  lemma {:induction false} DataScenarioReads(cases: seq<TestCase>, i: nat)
    requires i < |cases|
    ensures var s, tc := DataScenarios(cases)[i], cases[i];
      && s.title == tc.title + " (" + tc.testType + ")" && s.description == tc.description
      && s.steps == PlainLines(tc.steps)
  {
    hide PlainLines;
    DataScenarioAt(cases, i);
  }

  /** The titles an outline takes over. */
  function Taken(cases: seq<TestCase>): set<string> {
    if cases == [] then {}
    else Taken(cases[..|cases| - 1]) + {cases[|cases| - 1].title, Suffixed(cases[|cases| - 1])}
  }

  function Without(scenarios: seq<Scenario>, titles: set<string>): (kept: seq<Scenario>)
    ensures |kept| <= |scenarios|
  {
    if scenarios == [] then []
    else
      var before := Without(scenarios[..|scenarios| - 1], titles);
      var s := scenarios[|scenarios| - 1];
      if s.title in titles then before else before + [s]
  }

  lemma {:induction false} WithoutMembers(scenarios: seq<Scenario>, titles: set<string>)
    ensures forall s :: s in Without(scenarios, titles) <==> s in scenarios && s.title !in titles
  {
    if scenarios != [] {
      WithoutMembers(scenarios[..|scenarios| - 1], titles);
      assert scenarios == scenarios[..|scenarios| - 1] + [scenarios[|scenarios| - 1]];
    }
  }

  /** Filtering keeps the order. */
  lemma {:induction false} WithoutAppend(a: seq<Scenario>, b: seq<Scenario>, titles: set<string>)
    ensures Without(a + b, titles) == Without(a, titles) + Without(b, titles)
  {
    if b == [] {
      assert a + b == a;
    } else {
      var last := |b| - 1;
      assert (a + b)[..|a + b| - 1] == a + b[..last];
      WithoutAppend(a, b[..last], titles);
    }
  }

  lemma {:induction false} WithoutTwice(scenarios: seq<Scenario>, a: set<string>, b: set<string>)
    ensures Without(Without(scenarios, a), b) == Without(scenarios, a + b)
  {
    if scenarios != [] {
      var init, s := scenarios[..|scenarios| - 1], scenarios[|scenarios| - 1];
      WithoutTwice(init, a, b);
      if s.title !in a {
        assert (Without(init, a) + [s])[..|Without(init, a)|] == Without(init, a);
      }
    }
  }

  lemma {:induction false} WithoutNothing(scenarios: seq<Scenario>)
    ensures Without(scenarios, {}) == scenarios
  {
    if scenarios != [] {
      WithoutNothing(scenarios[..|scenarios| - 1]);
    }
  }

  function Positives(cases: seq<TestCase>): seq<TestCase> {
    Filter(cases, IsPositive)
  }

  function DataDriven(cases: seq<TestCase>): seq<TestCase> {
    Filter(cases, IsDataDriven)
  }

  /** Every case of one of the three types is rendered once, in the given order. */
  lemma {:induction false} CasesAreSplit(before: seq<TestCase>, tc: TestCase, after: seq<TestCase>)
    ensures Positives(before + [tc] + after)
         == Positives(before) + (if tc.testType == "positive" then [tc] else []) + Positives(after)
    ensures DataDriven(before + [tc] + after)
         == DataDriven(before) + (if tc.testType in ["boundary", "negative"] then [tc] else []) + DataDriven(after)
  {
    FilterAppend(before + [tc], after, IsPositive);
    FilterAppend(before, [tc], IsPositive);
    FilterAppend(before + [tc], after, IsDataDriven);
    FilterAppend(before, [tc], IsDataDriven);
    assert [tc][..0] == [];
  }

  predicate HasOutline(cases: seq<TestCase>) {
    |DataDriven(cases)| > 1 && AnyInput(DataDriven(cases)[0].steps)
  }

  lemma {:induction false} HasOutlineIff(cases: seq<TestCase>)
    ensures HasOutline(cases)
       <==> |DataDriven(cases)| >= 2
            && exists i :: 0 <= i < |DataDriven(cases)[0].steps| && DataDriven(cases)[0].steps[i].stepType == INPUT
                           && DataDriven(cases)[0].steps[i].inputValue != ""
  {
    hide DataDriven;
  }

  method PlainScenarios(positives: seq<TestCase>, data: seq<TestCase>, background: set<string>) returns (scenarios: seq<Scenario>)
    ensures scenarios == PositiveScenarios(positives, background) + DataScenarios(data)
  {
    hide PlainLines;
    hide Suffixed;
    scenarios := [];
    for i := 0 to |positives|
      invariant scenarios == PositiveScenarios(positives[..i], background)
    {
      var lines := StepsToGherkinLines(positives[i].steps);
      var tc := positives[i];
      scenarios := scenarios + [Scenario(tc.title, tc.description, GivenLines(Extra(tc, background)) + lines)];
      assert positives[..i + 1][..i] == positives[..i];
    }
    assert positives[..|positives|] == positives;
    ghost var plain := scenarios;
    for i := 0 to |data|
      invariant scenarios == plain + DataScenarios(data[..i])
    {
      var lines := StepsToGherkinLines(data[i].steps);
      scenarios := scenarios + [Scenario(Suffixed(data[i]), data[i].description, lines)];
      assert data[..i + 1][..i] == data[..i];
    }
    assert data[..|data|] == data;
  }

  /** One pass over the scenario list for each case the outline covers. */
  method DropTaken(scenarios: seq<Scenario>, data: seq<TestCase>) returns (kept: seq<Scenario>)
    ensures kept == Without(scenarios, Taken(data))
  {
    kept := scenarios;
    WithoutNothing(scenarios);
    for i := 0 to |data|
      invariant kept == Without(scenarios, Taken(data[..i]))
    {
      WithoutTwice(scenarios, Taken(data[..i]), {data[i].title, Suffixed(data[i])});
      kept := Without(kept, {data[i].title, Suffixed(data[i])});
      assert data[..i + 1][..i] == data[..i];
    }
    assert data[..|data|] == data;
  }

  /** Everything the template is given besides the narrative. */
  method Export(feature: string, cases: seq<TestCase>) returns (scenarios: seq<Scenario>, outlines: seq<Outline>)
    ensures HasOutline(cases) ==>
              && outlines == [Outline(feature + " \U{2014} Data-Driven", OutlineLines(DataDriven(cases)[0].steps), ExampleRows(DataDriven(cases)))]
              && scenarios == Without(PositiveScenarios(Positives(cases), Background(cases)) + DataScenarios(DataDriven(cases)),
                                      Taken(DataDriven(cases)))
    ensures !HasOutline(cases) ==>
              && outlines == []
              && scenarios == PositiveScenarios(Positives(cases), Background(cases)) + DataScenarios(DataDriven(cases))
  {
    hide OutlineLines;
    hide Background;
    hide Suffixed;
    hide StepText;
    var data := DataDriven(cases);
    scenarios := PlainScenarios(Positives(cases), data, Background(cases));
    outlines := [];
    if |data| > 1 {
      var steps, examples := BuildOutlineSteps(data);
      if steps != [] && examples != [] {
        outlines := [Outline(feature + " \U{2014} Data-Driven", steps, examples)];
        scenarios := DropTaken(scenarios, data);
      }
    }
  }

  lemma {:induction false} TakenMembers(data: seq<TestCase>)
    ensures forall x :: x in Taken(data) <==> exists i :: 0 <= i < |data| && (x == data[i].title || x == Suffixed(data[i]))
  {
    if data != [] {
      var last := |data| - 1;
      TakenMembers(data[..last]);
      forall x | x in Taken(data)
        ensures exists i :: 0 <= i < |data| && (x == data[i].title || x == Suffixed(data[i]))
      {
        if x in Taken(data[..last]) {
          var i :| 0 <= i < last && (x == data[..last][i].title || x == Suffixed(data[..last][i]));
          assert data[..last][i] == data[i];
        } else {
          assert x == data[last].title || x == Suffixed(data[last]);
        }
      }
      forall i | 0 <= i < |data|
        ensures data[i].title in Taken(data) && Suffixed(data[i]) in Taken(data)
      {
        if i < last {
          assert data[..last][i] == data[i];
        }
      }
    }
  }

  /** With an outline no data-driven case is also a scenario, and a positive case
      stays exactly when its title is none of those the outline takes over. */
  lemma {:induction false} KeptScenarios(cases: seq<TestCase>, k: nat)
    requires k < |Positives(cases)|
    ensures var data := DataDriven(cases);
      var all := PositiveScenarios(Positives(cases), Background(cases)) + DataScenarios(data);
      var kept := Without(all, Taken(data));
      && (forall i :: 0 <= i < |data| ==> DataScenarios(data)[i] !in kept)
      && (PositiveScenarios(Positives(cases), Background(cases))[k] in kept
          <==> forall i :: 0 <= i < |data| ==>
                             Positives(cases)[k].title != data[i].title
                             && Positives(cases)[k].title != data[i].title + " (" + data[i].testType + ")")
  {
    hide PlainLines;
    hide Background;
    hide DataDriven;
    hide Positives;
    var data := DataDriven(cases);
    var positive := PositiveScenarios(Positives(cases), Background(cases));
    WithoutMembers(positive + DataScenarios(data), Taken(data));
    TakenMembers(data);
    assert (positive + DataScenarios(data))[k] == positive[k];
    PositiveScenarioAt(Positives(cases), Background(cases), k);
    forall i | 0 <= i < |data|
      ensures DataScenarios(data)[i].title in Taken(data)
    {
      DataScenarioAt(data, i);
    }
  }

  /** The filter meant to leave shared preconditions to the background compares
      them with whole rendered lines, so it leaves out exactly the preconditions
      that spell the line of one every case has; a shared one that does not start
      with a blank is always repeated. */
  lemma SharedPreconditionIsRepeated(cases: seq<TestCase>, tc: TestCase, p: string)
    requires cases != [] && p in tc.preconditions
    ensures p !in Extra(tc, Background(cases))
       <==> exists q :: (forall i :: 0 <= i < |cases| ==> q in cases[i].preconditions) && p == "        Given " + q
    ensures p == "" || p[0] != ' ' ==> p in Extra(tc, Background(cases))
  {
    assert forall q :: Line("Given", q) == "        Given " + q;
  }

  /** A line of the background is that of a precondition every case has. */
  lemma BackgroundReads(cases: seq<TestCase>, line: string)
    ensures line in Background(cases)
       <==> cases != []
            && exists q :: (forall i :: 0 <= i < |cases| ==> q in cases[i].preconditions) && line == "        Given " + q
  {
    assert forall q :: Line("Given", q) == "        Given " + q;
  }

  /** What a case repeats, in the order it lists them. */
  lemma {:induction false} ExtraInOrder(tc: TestCase, background: set<string>, before: seq<string>, p: string, after: seq<string>)
    ensures Extra(tc.(preconditions := before + [p] + after), background)
         == Extra(tc.(preconditions := before), background) + (if p in background then [] else [p])
            + Extra(tc.(preconditions := after), background)
  {
    var missing := p' => p' !in background;
    FilterAppend(before + [p], after, missing);
    FilterAppend(before, [p], missing);
    assert [p][..0] == [];
  }
}
