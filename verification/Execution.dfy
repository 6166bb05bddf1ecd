/** Running an approved bundle, the run report's counts and the traceability matrix. */
module Execution {
  import opened Common

  datatype Step = Step(id: nat, index: int, critical: bool)
  datatype Test = Test(id: nat, testId: string, reqIds: seq<string>, steps: seq<Step>)

  /** How a step turns out. A passing step yields the digest its screenshot would
      have; the screenshot taken after a failure may itself fail. */
  datatype Outcome = Passed(digest: string) | Failed(failShot: Option<string>)

  datatype Item = Item(test: nat, step: Step)

  datatype Status = PASS | FAIL
  datatype Result = Result(test: nat, step: nat, status: Status)
  datatype Shot = Shot(test: nat, stepIndex: int, failed: bool, digest: string)

  /** An evidence row; results are numbered in the order they are stored. */
  datatype Evidence = Evidence(result: nat, shot: Shot)

  /** The pair of variables that carries a screenshot from step to step. */
  datatype Held = Unset | Nothing | Holding(shot: Shot)

  datatype Run = Run(results: seq<Result>, evidence: seq<Evidence>, held: Held, anyFail: bool, raised: bool)

  type Outcomes = (nat, nat) -> Outcome

  function ItemsOf(t: Test): (items: seq<Item>)
    ensures |items| == |t.steps| && forall i :: 0 <= i < |items| ==> items[i] == Item(t.id, t.steps[i])
  {
    seq(|t.steps|, i requires 0 <= i < |t.steps| => Item(t.id, t.steps[i]))
  }

  /** The steps of all tests, in the order they are run. */
  function Plan(tests: seq<Test>): seq<Item> {
    if tests == [] then [] else Plan(tests[..|tests| - 1]) + ItemsOf(tests[|tests| - 1])
  }

  function OutcomeOf(o: Outcomes, item: Item): Outcome {
    o(item.test, item.step.id)
  }

  /** Whether a screenshot is attempted. */
  predicate Attempts(o: Outcomes, item: Item) {
    item.step.critical || OutcomeOf(o, item).Failed?
  }

  /** What an attempt leaves in the variables. */
  function Taken(o: Outcomes, item: Item): Held {
    match OutcomeOf(o, item)
    case Passed(digest) => Holding(Shot(item.test, item.step.index, false, digest))
    case Failed(shot) => if shot.Some? then Holding(Shot(item.test, item.step.index, true, shot.value)) else Nothing
  }

  function StatusOf(o: Outcomes, item: Item): Status {
    if OutcomeOf(o, item).Failed? then FAIL else PASS
  }

  const START := Run([], [], Unset, false, false)

  /** One step: the result is stored, then the variables are read, which raises
      when nothing has ever set them. */
  function Advance(r: Run, o: Outcomes, item: Item): Run {
    var held := if Attempts(o, item) then Taken(o, item) else r.held;
    Run(r.results + [Result(item.test, item.step.id, StatusOf(o, item))],
        r.evidence + (if held.Holding? then [Evidence(|r.results|, held.shot)] else []),
        held,
        r.anyFail || OutcomeOf(o, item).Failed?,
        held.Unset?)
  }

  function Execute(plan: seq<Item>, o: Outcomes): Run {
    if plan == [] then START
    else
      var r := Execute(plan[..|plan| - 1], o);
      if r.raised then r else Advance(r, o, plan[|plan| - 1])
  }

  // ---------------------------------------------------------------------
  // When a run returns, and what it leaves
  // ---------------------------------------------------------------------

  /** A run raises exactly when its very first step passes without being critical. */
  lemma {:induction false} RaisesIff(plan: seq<Item>, o: Outcomes)
    ensures Execute(plan, o).raised
       <==> plan != [] && !plan[0].step.critical && o(plan[0].test, plan[0].step.id).Passed?
    ensures !Execute(plan, o).raised && plan != [] ==> !Execute(plan, o).held.Unset?
    ensures Execute(plan, o).raised ==>
              Execute(plan, o).results == [Result(plan[0].test, plan[0].step.id, PASS)] && Execute(plan, o).evidence == []
  {
    if plan != [] {
      RaisesIff(plan[..|plan| - 1], o);
    }
  }

  lemma {:induction false} ResultsOf(plan: seq<Item>, o: Outcomes)
    requires !Execute(plan, o).raised
    ensures var r := Execute(plan, o);
      && |r.results| == |plan|
      && (forall i :: 0 <= i < |plan| ==> r.results[i] == Result(plan[i].test, plan[i].step.id, StatusOf(o, plan[i])))
      && (r.anyFail <==> exists i :: 0 <= i < |r.results| && r.results[i].status == FAIL)
  {
    if plan != [] {
      hide OutcomeOf;
      hide Attempts;
      hide Taken;
      var last := |plan| - 1;
      ResultsOf(plan[..last], o);
      var before, r := Execute(plan[..last], o), Execute(plan, o);
      assert forall i :: 0 <= i < last ==> r.results[i] == before.results[i] && plan[..last][i] == plan[i];
      assert r.results[last].status == StatusOf(o, plan[last]);
    }
  }

  /** A run that returns has one result per step, in order, which fails exactly
      when the step does, and has failed exactly when one of them has. */
  lemma {:induction false} OneResultPerStep(plan: seq<Item>, o: Outcomes)
    requires !Execute(plan, o).raised
    ensures var r := Execute(plan, o);
      && |r.results| == |plan|
      && (forall i :: 0 <= i < |plan| ==>
            && r.results[i].test == plan[i].test && r.results[i].step == plan[i].step.id
            && (r.results[i].status == FAIL <==> o(plan[i].test, plan[i].step.id).Failed?))
      && (r.anyFail <==> exists i :: 0 <= i < |r.results| && r.results[i].status == FAIL)
  {
    hide Execute;
    ResultsOf(plan, o);
  }

  /** `j` is the latest step up to `i` that is critical or fails: the latest that
      attempts a screenshot. */
  ghost predicate LastAttempt(plan: seq<Item>, o: Outcomes, i: int, j: int) {
    && 0 <= j <= i < |plan|
    && (plan[j].step.critical || o(plan[j].test, plan[j].step.id).Failed?)
    && forall k :: j < k <= i ==> !plan[k].step.critical && o(plan[k].test, plan[k].step.id).Passed?
  }

  lemma {:induction false} HeldIsLastAttempt(plan: seq<Item>, o: Outcomes, j: int)
    requires plan != [] && !Execute(plan, o).raised && LastAttempt(plan, o, |plan| - 1, j)
    ensures Execute(plan, o).held == Taken(o, plan[j])
  {
    var last := |plan| - 1;
    if j < last {
      assert !Attempts(o, plan[last]);
      assert forall k :: 0 <= k < last ==> plan[..last][k] == plan[k];
      HeldIsLastAttempt(plan[..last], o, j);
    }
  }

  lemma {:induction false} EvidenceIsEarlier(plan: seq<Item>, o: Outcomes)
    ensures forall e :: e in Execute(plan, o).evidence ==> e.result < |Execute(plan, o).results|
  {
    if plan != [] {
      EvidenceIsEarlier(plan[..|plan| - 1], o);
    }
  }

  lemma {:induction false} EvidenceIsTaken(plan: seq<Item>, o: Outcomes, i: int, j: int, shot: Shot)
    requires !Execute(plan, o).raised && LastAttempt(plan, o, i, j)
    ensures Evidence(i, shot) in Execute(plan, o).evidence <==> Taken(o, plan[j]) == Holding(shot)
    decreases |plan|
  {
    hide Taken;
    hide StatusOf;
    var last := |plan| - 1;
    var before := Execute(plan[..last], o);
    assert forall k :: 0 <= k < last ==> plan[..last][k] == plan[k];
    ResultsOf(plan[..last], o);
    if i < last {
      EvidenceIsTaken(plan[..last], o, i, j, shot);
    } else {
      HeldIsLastAttempt(plan, o, j);
      EvidenceIsEarlier(plan[..last], o);
    }
  }

  lemma AttemptInPlan(plan: seq<Item>, o: Outcomes, i: int, j: int)
    requires LastAttempt(plan, o, i, j)
    ensures 0 <= j <= i < |plan|
  {
  }

  /** The evidence of a result shows the latest step that is critical or fails: it
      bears that step's test, index and digest, and says whether it failed. There
      is none exactly when that step's failure screenshot failed too. */
  lemma {:induction false} EvidenceIsLastShot(plan: seq<Item>, o: Outcomes, i: int, j: int, shot: Shot)
    requires !Execute(plan, o).raised && LastAttempt(plan, o, i, j)
    ensures Evidence(i, shot) in Execute(plan, o).evidence
       <==> && shot.test == plan[j].test && shot.stepIndex == plan[j].step.index
            && match o(plan[j].test, plan[j].step.id)
               case Passed(digest) => !shot.failed && shot.digest == digest
               case Failed(failShot) => shot.failed && failShot == Some(shot.digest)
  {
    hide Execute;
    hide LastAttempt;
    EvidenceIsTaken(plan, o, i, j, shot);
    assert 0 <= j < |plan| by {
      AttemptInPlan(plan, o, i, j);
    }
  }

  ghost predicate InOrder(evidence: seq<Evidence>) {
    forall a, b :: 0 <= a < b < |evidence| ==> evidence[a].result < evidence[b].result
  }

  lemma AppendInOrder(evidence: seq<Evidence>, e: Evidence)
    requires InOrder(evidence) && forall x :: x in evidence ==> x.result < e.result
    ensures InOrder(evidence + [e])
  {
    assert forall a :: 0 <= a < |evidence| ==> evidence[a] in evidence;
  }

  /** Evidence is stored in the order of the results, one row for each at most. */
  lemma {:induction false} EvidenceInOrder(plan: seq<Item>, o: Outcomes)
    ensures InOrder(Execute(plan, o).evidence)
  {
    if plan != [] {
      hide Attempts;
      hide Taken;
      var before, r := Execute(plan[..|plan| - 1], o), Execute(plan, o);
      EvidenceInOrder(plan[..|plan| - 1], o);
      EvidenceIsEarlier(plan[..|plan| - 1], o);
      if !before.raised && r.held.Holding? {
        AppendInOrder(before.evidence, Evidence(|before.results|, r.held.shot));
      }
    }
  }

  /** In a run that returns every step has such a latest attempt. */
  lemma {:induction false} LastAttemptExists(plan: seq<Item>, o: Outcomes, i: nat) returns (j: int)
    requires i < |plan| && !Execute(plan, o).raised
    ensures LastAttempt(plan, o, i, j)
    decreases i
  {
    RaisesIff(plan, o);
    if plan[i].step.critical || o(plan[i].test, plan[i].step.id).Failed? {
      j := i;
    } else {
      j := LastAttemptExists(plan, o, i - 1);
    }
  }

  // ---------------------------------------------------------------------
  // The report
  // ---------------------------------------------------------------------

  function Fails(results: seq<Result>): nat {
    if results == [] then 0
    else Fails(results[..|results| - 1]) + if results[|results| - 1].status == FAIL then 1 else 0
  }

  lemma {:induction false} FailsPositiveIff(results: seq<Result>)
    ensures Fails(results) <= |results|
    ensures Fails(results) > 0 <==> exists i :: 0 <= i < |results| && results[i].status == FAIL
  {
    if results != [] {
      var last := |results| - 1;
      FailsPositiveIff(results[..last]);
      if i :| 0 <= i < last && results[i].status == FAIL {
        assert results[..last][i].status == FAIL;
      }
    }
  }

  function FailedAt(results: seq<Result>): set<nat> {
    set i: nat | i < |results| && results[i].status == FAIL
  }

  /** The fail count is the number of failed results. */
  lemma {:induction false} FailsIsCount(results: seq<Result>)
    ensures Fails(results) == |FailedAt(results)|
  {
    if results == [] {
      assert FailedAt(results) == {};
    } else {
      var last := |results| - 1;
      FailsIsCount(results[..last]);
      assert FailedAt(results) == FailedAt(results[..last]) + if results[last].status == FAIL then {last} else {};
    }
  }

  method ReportCounts(results: seq<Result>) returns (total: nat, passes: nat, fails: nat)
    ensures total == |results| && fails == Fails(results) && passes + fails == total
    ensures fails == |FailedAt(results)|
  {
    total, fails := |results|, 0;
    for i := 0 to |results|
      invariant fails == Fails(results[..i]) && fails <= i
    {
      assert results[..i + 1][..i] == results[..i];
      if results[i].status == FAIL {
        fails := fails + 1;
      }
    }
    assert results[..|results|] == results;
    FailsIsCount(results);
    passes := total - fails;
  }

  // ---------------------------------------------------------------------
  // The traceability matrix
  // ---------------------------------------------------------------------

  datatype Cell = Missing | Reported(status: Status)
  datatype RtmRow = RtmRow(reqId: string, testId: string, stepIndex: int, cell: Cell, shot: Option<Shot>)

  const UNMAPPED := "(unmapped)"

  /** The position of the first result stored for a step, if any. */
  function FirstResult(results: seq<Result>, test: nat, step: nat): Option<nat> {
    if results == [] then None
    else
      var last := |results| - 1;
      var earlier := FirstResult(results[..last], test, step);
      if earlier.Some? then earlier
      else if results[last].test == test && results[last].step == step then Some(last)
      else None
  }

  function FirstEvidence(evidence: seq<Evidence>, result: nat): Option<Shot> {
    if evidence == [] then None
    else
      var earlier := FirstEvidence(evidence[..|evidence| - 1], result);
      if earlier.Some? then earlier
      else if evidence[|evidence| - 1].result == result then Some(evidence[|evidence| - 1].shot)
      else None
  }

  /** The requirement ids a test is listed under: one row set even when there are none. */
  function Tags(t: Test): seq<string> {
    if t.reqIds == [] then [""] else t.reqIds
  }

  function RowFor(r: Run, t: Test, tag: string, s: Step): RtmRow {
    var found := FirstResult(r.results, t.id, s.id);
    RtmRow(if tag == "" then UNMAPPED else tag, t.testId, s.index,
           if found.Some? && found.value < |r.results| then Reported(r.results[found.value].status) else Missing,
           if found.Some? then FirstEvidence(r.evidence, found.value) else None)
  }

  function StepRows(r: Run, t: Test, tag: string, steps: seq<Step>): (rows: seq<RtmRow>)
    ensures |rows| == |steps|
  {
    if steps == [] then [] else StepRows(r, t, tag, steps[..|steps| - 1]) + [RowFor(r, t, tag, steps[|steps| - 1])]
  }

  function TagRows(r: Run, t: Test, tags: seq<string>): (rows: seq<RtmRow>)
    ensures |rows| == |tags| * |t.steps|
  {
    if tags == [] then []
    else
      assert |tags| * |t.steps| == (|tags| - 1) * |t.steps| + |t.steps|;
      TagRows(r, t, tags[..|tags| - 1]) + StepRows(r, t, tags[|tags| - 1], t.steps)
  }

  function RtmRows(r: Run, tests: seq<Test>): seq<RtmRow> {
    if tests == [] then []
    else RtmRows(r, tests[..|tests| - 1]) + TagRows(r, tests[|tests| - 1], Tags(tests[|tests| - 1]))
  }

  function Max1(n: nat): nat {
    if n == 0 then 1 else n
  }

  function RowCount(tests: seq<Test>): nat {
    if tests == [] then 0
    else RowCount(tests[..|tests| - 1]) + Max1(|tests[|tests| - 1].reqIds|) * |tests[|tests| - 1].steps|
  }

  /** One row for each step of each test, once per requirement or once unmapped. */
  lemma {:induction false} RtmRowCount(r: Run, tests: seq<Test>)
    ensures |RtmRows(r, tests)| == RowCount(tests)
  {
    if tests != [] {
      RtmRowCount(r, tests[..|tests| - 1]);
      assert |Tags(tests[|tests| - 1])| == Max1(|tests[|tests| - 1].reqIds|);
    }
  }

  lemma {:induction false} StepRowsAre(r: Run, t: Test, tag: string, steps: seq<Step>)
    ensures forall k :: 0 <= k < |steps| ==> StepRows(r, t, tag, steps)[k] == RowFor(r, t, tag, steps[k])
  {
    hide RowFor;
    if steps != [] {
      StepRowsAre(r, t, tag, steps[..|steps| - 1]);
    }
  }

  lemma {:induction false} TagRowIn(r: Run, t: Test, tags: seq<string>, l: nat, k: nat)
    requires l < |tags| && k < |t.steps|
    ensures RowFor(r, t, tags[l], t.steps[k]) in TagRows(r, t, tags)
  {
    hide RowFor;
    var last := |tags| - 1;
    if l < last {
      TagRowIn(r, t, tags[..last], l, k);
    } else {
      StepRowsAre(r, t, tags[last], t.steps);
      assert StepRows(r, t, tags[last], t.steps)[k] in TagRows(r, t, tags);
    }
  }

  lemma {:induction false} TagRowFrom(r: Run, t: Test, tags: seq<string>, row: RtmRow) returns (l: nat, k: nat)
    requires row in TagRows(r, t, tags)
    ensures l < |tags| && k < |t.steps| && row == RowFor(r, t, tags[l], t.steps[k])
  {
    hide RowFor;
    var last := |tags| - 1;
    if row in TagRows(r, t, tags[..last]) {
      l, k := TagRowFrom(r, t, tags[..last], row);
    } else {
      StepRowsAre(r, t, tags[last], t.steps);
      l := last;
      k :| 0 <= k < |t.steps| && row == StepRows(r, t, tags[last], t.steps)[k];
    }
  }

  lemma {:induction false} RtmRowIn(r: Run, tests: seq<Test>, n: nat, l: nat, k: nat)
    requires n < |tests| && l < |Tags(tests[n])| && k < |tests[n].steps|
    ensures RowFor(r, tests[n], Tags(tests[n])[l], tests[n].steps[k]) in RtmRows(r, tests)
  {
    hide RowFor;
    hide Tags;
    hide TagRows;
    var last := |tests| - 1;
    if n < last {
      RtmRowIn(r, tests[..last], n, l, k);
    } else {
      TagRowIn(r, tests[last], Tags(tests[last]), l, k);
    }
  }

  lemma {:induction false} RtmRowFrom(r: Run, tests: seq<Test>, row: RtmRow) returns (n: nat, l: nat, k: nat)
    requires row in RtmRows(r, tests)
    ensures n < |tests| && l < |Tags(tests[n])| && k < |tests[n].steps|
    ensures row == RowFor(r, tests[n], Tags(tests[n])[l], tests[n].steps[k])
  {
    hide RowFor;
    hide Tags;
    hide TagRows;
    var last := |tests| - 1;
    if row in RtmRows(r, tests[..last]) {
      n, l, k := RtmRowFrom(r, tests[..last], row);
    } else {
      n := last;
      l, k := TagRowFrom(r, tests[last], Tags(tests[last]), row);
    }
  }

  // ---------------------------------------------------------------------
  // One run, its report and its matrix
  // ---------------------------------------------------------------------

  /** No step is listed twice: step ids are primary keys. */
  ghost predicate DistinctSteps(plan: seq<Item>) {
    forall i, j :: 0 <= i < j < |plan| ==> plan[i].step.id != plan[j].step.id
  }

  lemma {:induction false} NoResult(results: seq<Result>, test: nat, step: nat)
    requires forall j :: 0 <= j < |results| ==> results[j].step != step
    ensures FirstResult(results, test, step) == None
  {
    if results != [] {
      NoResult(results[..|results| - 1], test, step);
    }
  }

  lemma {:induction false} FirstResultOf(results: seq<Result>, i: nat)
    requires i < |results|
    requires forall j :: 0 <= j < |results| && j != i ==> results[j].step != results[i].step
    ensures FirstResult(results, results[i].test, results[i].step) == Some(i)
  {
    var last := |results| - 1;
    if i < last {
      FirstResultOf(results[..last], i);
    } else {
      NoResult(results[..last], results[i].test, results[i].step);
    }
  }

  lemma {:induction false} PlanHas(tests: seq<Test>, n: nat, k: nat) returns (i: nat)
    requires n < |tests| && k < |tests[n].steps|
    ensures i < |Plan(tests)| && Plan(tests)[i] == Item(tests[n].id, tests[n].steps[k])
  {
    var last := |tests| - 1;
    if n < last {
      i := PlanHas(tests[..last], n, k);
    } else {
      i := |Plan(tests[..last])| + k;
    }
  }

  lemma {:induction false} PlanFrom(tests: seq<Test>, i: nat) returns (n: nat, k: nat)
    requires i < |Plan(tests)|
    ensures n < |tests| && k < |tests[n].steps| && Plan(tests)[i] == Item(tests[n].id, tests[n].steps[k])
  {
    var last := |tests| - 1;
    if i < |Plan(tests[..last])| {
      n, k := PlanFrom(tests[..last], i);
    } else {
      n, k := last, i - |Plan(tests[..last])|;
    }
  }

  /** The first result found for a step is its own. */
  lemma {:induction false} StepHasResult(plan: seq<Item>, o: Outcomes, i: nat)
    requires DistinctSteps(plan) && !Execute(plan, o).raised && i < |plan|
    ensures var r := Execute(plan, o);
      && FirstResult(r.results, plan[i].test, plan[i].step.id) == Some(i)
      && i < |r.results| && r.results[i].status == StatusOf(o, plan[i])
  {
    hide FirstResult;
    var r := Execute(plan, o);
    ResultsOf(plan, o);
    assert r.results[i] == Result(plan[i].test, plan[i].step.id, StatusOf(o, plan[i]));
    assert forall j :: 0 <= j < |r.results| ==> r.results[j].step == plan[j].step.id;
    FirstResultOf(r.results, i);
  }

  /** Each matrix row of a run that returned reports the outcome of its own step. */
  lemma RowReportsStep(tests: seq<Test>, o: Outcomes, n: nat, k: nat, tag: string)
    requires DistinctSteps(Plan(tests)) && !Execute(Plan(tests), o).raised
    requires n < |tests| && k < |tests[n].steps|
    ensures RowFor(Execute(Plan(tests), o), tests[n], tag, tests[n].steps[k]).cell
         == Reported(StatusOf(o, Item(tests[n].id, tests[n].steps[k])))
  {
    var plan := Plan(tests);
    var i := PlanHas(tests, n, k);
    StepHasResult(plan, o, i);
  }

  lemma {:induction false} FirstEvidenceFound(evidence: seq<Evidence>, i: nat)
    ensures FirstEvidence(evidence, i).Some? ==> Evidence(i, FirstEvidence(evidence, i).value) in evidence
    ensures FirstEvidence(evidence, i) == None ==> forall e :: e in evidence ==> e.result != i
  {
    if evidence != [] {
      FirstEvidenceFound(evidence[..|evidence| - 1], i);
    }
  }

  lemma {:induction false} EvidenceShown(plan: seq<Item>, o: Outcomes, i: nat, j: int)
    requires !Execute(plan, o).raised && LastAttempt(plan, o, i, j)
    ensures FirstEvidence(Execute(plan, o).evidence, i)
         == match Taken(o, plan[j]) case Holding(shot) => Some(shot) case _ => None
  {
    hide Taken;
    hide Execute;
    hide FirstEvidence;
    var r := Execute(plan, o);
    FirstEvidenceFound(r.evidence, i);
    forall shot
      ensures Evidence(i, shot) in r.evidence <==> Taken(o, plan[j]) == Holding(shot)
    {
      EvidenceIsTaken(plan, o, i, j, shot);
    }
  }

  /** Each matrix row shows the screenshot of the latest attempt up to its step,
      which is the step's own only if it is critical or has failed. */
  lemma {:induction false} RowShowsLastShot(tests: seq<Test>, o: Outcomes, n: nat, k: nat, tag: string, i: nat, j: int)
    requires DistinctSteps(Plan(tests)) && !Execute(Plan(tests), o).raised
    requires n < |tests| && k < |tests[n].steps|
    requires i < |Plan(tests)| && Plan(tests)[i] == Item(tests[n].id, tests[n].steps[k])
    requires LastAttempt(Plan(tests), o, i, j)
    ensures RowFor(Execute(Plan(tests), o), tests[n], tag, tests[n].steps[k]).shot
         == match Taken(o, Plan(tests)[j]) case Holding(shot) => Some(shot) case _ => None
  {
    hide Taken;
    hide Execute;
    hide Plan;
    hide FirstEvidence;
    hide FirstResult;
    StepHasResult(Plan(tests), o, i);
    EvidenceShown(Plan(tests), o, i, j);
  }

  /** Where the rows of the test's requirement `l` begin among those of the test. */
  function TagStart(t: Test, l: nat): nat {
    if l == 0 then 0 else TagStart(t, l - 1) + |t.steps|
  }

  lemma {:induction false} TagRowsLength(r: Run, t: Test, tags: seq<string>)
    ensures |TagRows(r, t, tags)| == TagStart(t, |tags|)
  {
    hide RowFor;
    if tags != [] {
      TagRowsLength(r, t, tags[..|tags| - 1]);
    }
  }

  lemma {:induction false} TagRowAt(r: Run, t: Test, tags: seq<string>, l: nat, k: nat)
    requires l < |tags| && k < |t.steps|
    ensures |TagRows(r, t, tags)| == TagStart(t, |tags|)
    ensures TagStart(t, l) + k < |TagRows(r, t, tags)|
    ensures TagRows(r, t, tags)[TagStart(t, l) + k] == RowFor(r, t, tags[l], t.steps[k])
  {
    hide RowFor;
    var last := |tags| - 1;
    TagRowsLength(r, t, tags);
    TagRowsLength(r, t, tags[..last]);
    if l < last {
      TagRowAt(r, t, tags[..last], l, k);
    } else {
      StepRowsAre(r, t, tags[last], t.steps);
    }
  }

  lemma {:induction false} TagStartIs(t: Test, l: nat)
    ensures TagStart(t, l) == l * |t.steps|
  {
    if l > 0 {
      TagStartIs(t, l - 1);
    }
  }

  /** The number of the matrix row for test `n`, requirement `l` and step `k`. */
  function RowNumber(tests: seq<Test>, n: nat, l: nat, k: nat): nat
    requires n < |tests|
  {
    RowCount(tests[..n]) + TagStart(tests[n], l) + k
  }

  lemma {:induction false} RtmRowAt(r: Run, tests: seq<Test>, n: nat, l: nat, k: nat)
    requires n < |tests| && l < |Tags(tests[n])| && k < |tests[n].steps|
    ensures var at := RowNumber(tests, n, l, k);
      at < |RtmRows(r, tests)| && RtmRows(r, tests)[at] == RowFor(r, tests[n], Tags(tests[n])[l], tests[n].steps[k])
  {
    hide RowFor;
    hide Tags;
    hide TagRows;
    hide TagStart;
    hide RowCount;
    var last := |tests| - 1;
    if n < last {
      RtmRowAt(r, tests[..last], n, l, k);
      assert tests[..last][..n] == tests[..n];
    } else {
      RtmRowCount(r, tests[..last]);
      TagRowAt(r, tests[last], Tags(tests[last]), l, k);
    }
  }

  lemma {:induction false} PlanAt(tests: seq<Test>, n: nat, k: nat)
    requires n < |tests| && k < |tests[n].steps|
    ensures var i := |Plan(tests[..n])| + k; i < |Plan(tests)| && Plan(tests)[i] == Item(tests[n].id, tests[n].steps[k])
  {
    var last := |tests| - 1;
    if n < last {
      PlanAt(tests[..last], n, k);
      assert tests[..last][..n] == tests[..n];
    }
  }

  /** The row is for requirement `l` and step `k` of the test, with that step's own
      outcome and the screenshot of step `shown`. */
  predicate IsRow(row: RtmRow, t: Test, l: nat, k: nat, o: Outcomes, shown: Item)
    requires l < Max1(|t.reqIds|) && k < |t.steps|
  {
    && row.reqId == (if t.reqIds == [] || t.reqIds[l] == "" then "(unmapped)" else t.reqIds[l])
    && row.testId == t.testId && row.stepIndex == t.steps[k].index
    && row.cell == Reported(if o(t.id, t.steps[k].id).Failed? then FAIL else PASS)
    && match o(shown.test, shown.step.id)
       case Passed(digest) => row.shot == Some(Shot(shown.test, shown.step.index, false, digest))
       case Failed(Some(digest)) => row.shot == Some(Shot(shown.test, shown.step.index, true, digest))
       case Failed(None) => row.shot == None
  }

  lemma {:induction false} RowIs(plan: seq<Item>, o: Outcomes, t: Test, l: nat, k: nat, i: nat, j: int)
    requires DistinctSteps(plan) && !Execute(plan, o).raised
    requires l < Max1(|t.reqIds|) && k < |t.steps| && i < |plan| && plan[i] == Item(t.id, t.steps[k])
    requires LastAttempt(plan, o, i, j) && 0 <= j < |plan|
    ensures IsRow(RowFor(Execute(plan, o), t, Tags(t)[l], t.steps[k]), t, l, k, o, plan[j])
  {
    hide Execute;
    hide FirstEvidence;
    hide FirstResult;
    hide LastAttempt;
    StepHasResult(plan, o, i);
    EvidenceShown(plan, o, i, j);
  }

  /** The matrix, row by row, of a run that returned: by test, then by requirement,
      then by step; each row names all three and shows the screenshot of the latest
      step up to its own that is critical or fails. */
  lemma {:induction false} MatrixRow(tests: seq<Test>, o: Outcomes, n: nat, l: nat, k: nat, i: nat, j: int)
    requires DistinctSteps(Plan(tests)) && !Execute(Plan(tests), o).raised
    requires n < |tests| && l < Max1(|tests[n].reqIds|) && k < |tests[n].steps|
    requires i == |Plan(tests[..n])| + k && LastAttempt(Plan(tests), o, i, j) && 0 <= j < |Plan(tests)|
    ensures var rows, at := RtmRows(Execute(Plan(tests), o), tests), RowNumber(tests, n, l, k);
      at < |rows| && IsRow(rows[at], tests[n], l, k, o, Plan(tests)[j])
  {
    hide Execute;
    hide Plan;
    hide RtmRows;
    hide RowNumber;
    hide RowFor;
    hide IsRow;
    hide LastAttempt;
    PlanAt(tests, n, k);
    RtmRowAt(Execute(Plan(tests), o), tests, n, l, k);
    RowIs(Plan(tests), o, tests[n], l, k, i, j);
  }

  ghost predicate SomeStepFails(plan: seq<Item>, o: Outcomes) {
    exists i :: 0 <= i < |plan| && o(plan[i].test, plan[i].step.id).Failed?
  }

  lemma {:induction false} RunFailsIff(plan: seq<Item>, o: Outcomes)
    requires !Execute(plan, o).raised
    ensures Execute(plan, o).anyFail <==> SomeStepFails(plan, o)
    ensures Fails(Execute(plan, o).results) > 0 <==> SomeStepFails(plan, o)
  {
    hide Execute;
    hide Fails;
    OneResultPerStep(plan, o);
    FailsPositiveIff(Execute(plan, o).results);
  }

  lemma {:induction false} MatrixShows(tests: seq<Test>, o: Outcomes, row: RtmRow)
    requires DistinctSteps(Plan(tests)) && !Execute(Plan(tests), o).raised
    requires row in RtmRows(Execute(Plan(tests), o), tests)
    ensures row.cell != Missing && (row.cell == Reported(FAIL) ==> SomeStepFails(Plan(tests), o))
  {
    hide RowFor;
    hide RtmRows;
    hide Execute;
    hide Plan;
    var n, l, k := RtmRowFrom(Execute(Plan(tests), o), tests, row);
    RowReportsStep(tests, o, n, k, Tags(tests[n])[l]);
    var i := PlanHas(tests, n, k);
  }

  lemma {:induction false} FailureIsShown(tests: seq<Test>, o: Outcomes)
    requires DistinctSteps(Plan(tests)) && !Execute(Plan(tests), o).raised && SomeStepFails(Plan(tests), o)
    ensures exists row :: row in RtmRows(Execute(Plan(tests), o), tests) && row.cell == Reported(FAIL)
  {
    hide RowFor;
    hide RtmRows;
    hide Execute;
    hide Plan;
    var plan := Plan(tests);
    var i :| 0 <= i < |plan| && o(plan[i].test, plan[i].step.id).Failed?;
    var n, k := PlanFrom(tests, i);
    RowReportsStep(tests, o, n, k, Tags(tests[n])[0]);
    RtmRowIn(Execute(plan, o), tests, n, 0, k);
  }

  /** For a run that returns: it has failed, its report counts a failure and its
      matrix shows a FAIL row exactly when some step failed; and the matrix has
      no missing result. */
  lemma {:induction false} RunReportAndMatrixAgree(tests: seq<Test>, o: Outcomes)
    requires DistinctSteps(Plan(tests)) && !Execute(Plan(tests), o).raised
    ensures var r := Execute(Plan(tests), o);
      && (r.anyFail <==> SomeStepFails(Plan(tests), o))
      && (Fails(r.results) > 0 <==> SomeStepFails(Plan(tests), o))
      && ((exists row :: row in RtmRows(r, tests) && row.cell == Reported(FAIL)) <==> SomeStepFails(Plan(tests), o))
      && (forall row :: row in RtmRows(r, tests) ==> row.cell != Missing)
  {
    hide *;
    var r := Execute(Plan(tests), o);
    RunFailsIff(Plan(tests), o);
    forall row | row in RtmRows(r, tests)
      ensures row.cell != Missing && (row.cell == Reported(FAIL) ==> SomeStepFails(Plan(tests), o))
    {
      MatrixShows(tests, o, row);
    }
    if SomeStepFails(Plan(tests), o) {
      FailureIsShown(tests, o);
    }
  }

  // ---------------------------------------------------------------------
  // The run and the matrix as loops
  // ---------------------------------------------------------------------

  datatype RunStatus = RUNNING | RUN_PASSED | RUN_FAILED

  lemma {:induction false} StaysRaised(plan: seq<Item>, more: seq<Item>, o: Outcomes)
    requires Execute(plan, o).raised
    ensures Execute(plan + more, o) == Execute(plan, o)
  {
    if more == [] {
      assert plan + more == plan;
    } else {
      assert (plan + more)[..|plan + more| - 1] == plan + more[..|more| - 1];
      StaysRaised(plan, more[..|more| - 1], o);
    }
  }

  lemma PlanStart(tests: seq<Test>, o: Outcomes)
    ensures Execute(Plan(tests[..0]), o) == START
  {
  }

  lemma PlanGrows(tests: seq<Test>, n: nat)
    requires n < |tests|
    ensures Plan(tests[..n + 1]) == Plan(tests[..n]) + ItemsOf(tests[n])
  {
    assert tests[..n + 1][..n] == tests[..n];
  }

  lemma {:induction false} PlanExtends(tests: seq<Test>, n: nat)
    requires n <= |tests|
    ensures Plan(tests[..n]) <= Plan(tests)
  {
    if n < |tests| {
      assert tests[..|tests| - 1][..n] == tests[..n];
      PlanExtends(tests[..|tests| - 1], n);
    } else {
      assert tests[..n] == tests;
    }
  }

  /** Once a run has raised, the tests that follow change nothing. */
  lemma {:induction false} NothingFollows(tests: seq<Test>, n: nat, o: Outcomes)
    requires n <= |tests| && Execute(Plan(tests[..n]), o).raised
    ensures Execute(Plan(tests), o) == Execute(Plan(tests[..n]), o)
  {
    hide Plan;
    hide Execute;
    PlanExtends(tests, n);
    var done := Plan(tests[..n]);
    var rest := Plan(tests)[|done|..];
    assert Plan(tests) == done + rest;
    StaysRaised(done, rest, o);
  }

  /** The steps done so far, with one more. */
  lemma OneMoreStep(before: seq<Item>, items: seq<Item>, k: nat)
    requires k < |items|
    ensures var done := before + items[..k + 1];
      done != [] && done[..|done| - 1] == before + items[..k] && done[|done| - 1] == items[k]
    ensures before + items == (before + items[..k + 1]) + items[k + 1..]
  {
  }

  class BundleRun {
    var results: seq<Result>
    var evidence: seq<Evidence>
    var status: RunStatus

    constructor ()
      ensures results == [] && evidence == [] && status == RUNNING
    {
      results, evidence, status := [], [], RUNNING;
    }

    /** Runs one step, stores its result, and stores evidence if a screenshot is held. */
    method ExecuteStep(test: nat, step: Step, o: Outcomes, held0: Held, anyFail0: bool)
      returns (held: Held, anyFail: bool, raised: bool)
      modifies this`results, this`evidence
      ensures Run(results, evidence, held, anyFail, raised)
           == Advance(Run(old(results), old(evidence), held0, anyFail0, false), o, Item(test, step))
    {
      held, anyFail := held0, anyFail0;
      var stepStatus := PASS;
      match o(test, step.id) {
        case Passed(digest) =>
          if step.critical {
            held := Holding(Shot(test, step.index, false, digest));
          }
        case Failed(shot) =>
          stepStatus := FAIL;
          anyFail := true;
          held := if shot.Some? then Holding(Shot(test, step.index, true, shot.value)) else Nothing;
      }
      results := results + [Result(test, step.id, stepStatus)];
      raised := held.Unset?;
      if held.Holding? {
        evidence := evidence + [Evidence(|results| - 1, held.shot)];
      }
    }

    /** Runs the steps of one test, stopping at the first that raises. */
    method ExecuteTest(t: Test, o: Outcomes, held0: Held, anyFail0: bool, ghost before: seq<Item>)
      returns (held: Held, anyFail: bool, raised: bool)
      requires Execute(before, o) == Run(results, evidence, held0, anyFail0, false)
      modifies this`results, this`evidence
      ensures Execute(before + ItemsOf(t), o) == Run(results, evidence, held, anyFail, raised)
    {
      hide Advance;
      held, anyFail, raised := held0, anyFail0, false;
      assert before + ItemsOf(t)[..0] == before;
      for k := 0 to |t.steps|
        invariant !raised && Execute(before + ItemsOf(t)[..k], o) == Run(results, evidence, held, anyFail, false)
      {
        OneMoreStep(before, ItemsOf(t), k);
        held, anyFail, raised := ExecuteStep(t.id, t.steps[k], o, held, anyFail);
        if raised {
          StaysRaised(before + ItemsOf(t)[..k + 1], ItemsOf(t)[k + 1..], o);
          return;
        }
      }
      assert ItemsOf(t)[..|t.steps|] == ItemsOf(t);
    }

    /** Runs every step of every test; a run that raises stays RUNNING. */
    method ExecuteBundle(tests: seq<Test>, o: Outcomes) returns (raised: bool)
      requires results == [] && evidence == [] && status == RUNNING
      modifies this
      ensures var r := Execute(Plan(tests), o);
        results == r.results && evidence == r.evidence && raised == r.raised
        && status == if r.raised then RUNNING else if r.anyFail then RUN_FAILED else RUN_PASSED
    {
      hide Plan;
      hide Execute;
      var anyFail, held := false, Unset;
      raised := false;
      PlanStart(tests, o);
      for n := 0 to |tests|
        invariant status == RUNNING && !raised
        invariant Execute(Plan(tests[..n]), o) == Run(results, evidence, held, anyFail, false)
      {
        PlanGrows(tests, n);
        held, anyFail, raised := ExecuteTest(tests[n], o, held, anyFail, Plan(tests[..n]));
        if raised {
          NothingFollows(tests, n + 1, o);
          return;
        }
      }
      assert tests[..|tests|] == tests;
      status := if anyFail then RUN_FAILED else RUN_PASSED;
    }
  }

  method BuildStepRows(r: Run, t: Test, tag: string, steps: seq<Step>) returns (rows: seq<RtmRow>)
    ensures rows == StepRows(r, t, tag, steps)
  {
    hide RowFor;
    rows := [];
    for k := 0 to |steps|
      invariant rows == StepRows(r, t, tag, steps[..k])
    {
      rows := rows + [RowFor(r, t, tag, steps[k])];
      assert steps[..k + 1][..k] == steps[..k];
    }
    assert steps[..|steps|] == steps;
  }

  method BuildTestRows(r: Run, t: Test, tags: seq<string>) returns (rows: seq<RtmRow>)
    ensures rows == TagRows(r, t, tags)
  {
    hide StepRows;
    rows := [];
    for l := 0 to |tags|
      invariant rows == TagRows(r, t, tags[..l])
    {
      var more := BuildStepRows(r, t, tags[l], t.steps);
      rows := rows + more;
      assert tags[..l + 1][..l] == tags[..l];
    }
    assert tags[..|tags|] == tags;
  }

  /** The matrix, built by three nested loops. */
  method BuildRtm(r: Run, tests: seq<Test>) returns (rows: seq<RtmRow>)
    ensures rows == RtmRows(r, tests)
  {
    hide TagRows;
    hide Tags;
    rows := [];
    for n := 0 to |tests|
      invariant rows == RtmRows(r, tests[..n])
    {
      var more := BuildTestRows(r, tests[n], Tags(tests[n]));
      rows := rows + more;
      assert tests[..n + 1][..n] == tests[..n];
    }
    assert tests[..|tests|] == tests;
  }
}
