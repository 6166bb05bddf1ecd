/** AI generation jobs: what any number of workers, creations, cancellations,
    redeliveries, exceptions and crashes leave in the two stores.

    Every commit to SQL or to Cosmos is one step, so every reachable state is a
    possible crash point. */
module JobWorker {
  import opened Common

  /** The text form of a UUID. */
  type Uuid = s: string | |s| == 36 witness "00000000-0000-0000-0000-000000000000"

  function Prefix8(req: Uuid): string {
    req[..8]
  }

  function ScriptDocId(job: Uuid, req: Uuid): string {
    "ts-gen-" + job + "-" + Prefix8(req)
  }

  function IndexId(job: Uuid): string {
    "gen-result-" + job
  }

  /** Two script documents share an id exactly when the job is the same and the
      requirement ids agree on their first eight characters. */
  lemma ScriptDocIdClash(job: Uuid, req: Uuid, job': Uuid, req': Uuid)
    ensures ScriptDocId(job, req) == "ts-gen-" + job + "-" + req[..8]
    ensures ScriptDocId(job, req) == ScriptDocId(job', req') <==> job == job' && req[..8] == req'[..8]
  {
    var a, b := ScriptDocId(job, req), ScriptDocId(job', req');
    assert a[7..43] == job && b[7..43] == job';
    assert a[44..] == req[..8] && b[44..] == req'[..8];
  }

  lemma IndexIdsDiffer(job: Uuid, job': Uuid, req: Uuid)
    ensures IndexId(job) != ScriptDocId(job', req)
    ensures IndexId(job) == IndexId(job') ==> job == job'
  {
    assert IndexId(job)[0] == 'g' && ScriptDocId(job', req)[0] == 't';
    assert IndexId(job)[11..] == job && IndexId(job')[11..] == job';
  }

  datatype Status = Pending | Processing | Completed | Failed | Cancelled

  datatype Job = Job(
    status: Status, startedAt: Option<nat>, completedAt: Option<nat>,
    resultId: Option<string>, error: Option<string>, requirementIds: seq<Uuid>)

  datatype Doc = ScriptDoc(job: Uuid, req: Uuid) | IndexDoc(job: Uuid, scripts: seq<string>)

  datatype ScriptRow = ScriptRow(req: Uuid, job: Uuid, docId: string)

  datatype Place = Starting | Loading | AtRequirement | Stored | RowCreated | Completing | Failing | Done

  /** One handling of one message: its place, the requirements still to do, and
      the script ids collected so far. */
  datatype Worker = Worker(job: Uuid, place: Place, todo: seq<Uuid>, scripts: seq<string>)

  datatype World = World(
    jobs: map<Uuid, Job>, published: set<Uuid>, docs: map<string, Doc>, rows: seq<ScriptRow>,
    processed: map<Uuid, bool>, workers: map<nat, Worker>)

  /** `_update_job_status` on a row that exists. */
  function UpdatedJob(job: Job, status: Status, resultId: Option<string>, error: Option<string>, now: nat): Job {
    job.(
      status := status,
      startedAt := if status == Processing then Some(now) else job.startedAt,
      completedAt := if status == Processing then None else Some(now),
      resultId := if resultId.Some? && resultId.value != "" then resultId else job.resultId,
      error := if error.Some? && error.value != "" then error else job.error)
  }

  function NewJob(requirementIds: seq<Uuid>): Job {
    Job(Pending, None, None, None, None, requirementIds)
  }

  function UpdateStatus(jobs: map<Uuid, Job>, job: Uuid, status: Status, resultId: Option<string>, error: Option<string>, now: nat): map<Uuid, Job> {
    if job in jobs then jobs[job := UpdatedJob(jobs[job], status, resultId, error, now)] else jobs
  }

  predicate Cancellable(job: Job) {
    job.status.Pending? || job.status.Processing?
  }

  datatype Action =
    | Publish(job: Uuid)                                  // the message goes out first ...
    | CommitJob(job: Uuid, requirementIds: seq<Uuid>)     // ... the row is committed at the end of the request
    | Cancel(job: Uuid, now: nat)
    | Deliver(w: nat, job: Uuid)
    | MarkProcessing(w: nat, now: nat)
    | Load(w: nat, found: seq<Uuid>)
    | Skip(w: nat)
    | Store(w: nat)
    | CreateRow(w: nat)
    | MarkRequirement(w: nat)
    | Index(w: nat)
    | Complete(w: nat, now: nat)
    | Raise(w: nat)
    | Fail(w: nat, error: string, now: nat)
    | Crash(w: nat)

  predicate At(s: World, w: nat, place: Place) {
    w in s.workers && s.workers[w].place == place
  }

  /** What the requirement query of a job may return: each stored requirement
      that the job asks for, once, in any order. */
  ghost predicate Answers(job: Job, processed: map<Uuid, bool>, found: seq<Uuid>) {
    Distinct(found) && forall r :: r in found <==> r in processed && r in job.requirementIds
  }

  ghost predicate Enabled(s: World, a: Action) {
    match a
    case Publish(job) => job !in s.published
    case CommitJob(job, _) => job in s.published && job !in s.jobs
    case Cancel(job, _) => job in s.jobs && Cancellable(s.jobs[job])
    case Deliver(w, job) => job in s.published && w !in s.workers
    case MarkProcessing(w, _) => At(s, w, Starting)
    case Load(w, found) =>
      && At(s, w, Loading)
      && s.workers[w].job in s.jobs
      && Answers(s.jobs[s.workers[w].job], s.processed, found)
    case Skip(w) => At(s, w, AtRequirement) && s.workers[w].todo != []
    case Store(w) => At(s, w, AtRequirement) && s.workers[w].todo != []
    case CreateRow(w) => At(s, w, Stored) && s.workers[w].todo != []
    case MarkRequirement(w) => At(s, w, RowCreated) && s.workers[w].todo != []
    case Index(w) => At(s, w, AtRequirement) && s.workers[w].todo == []
    case Complete(w, _) => At(s, w, Completing)
    case Raise(w) => w in s.workers && !s.workers[w].place.Done?
    case Fail(w, _, _) => At(s, w, Failing)
    case Crash(w) => w in s.workers
  }

  function Move(s: World, w: nat, place: Place): map<nat, Worker>
    requires w in s.workers
  {
    s.workers[w := s.workers[w].(place := place)]
  }

  ghost function Apply(s: World, a: Action): World
    requires Enabled(s, a)
  {
    match a
    case Publish(job) => s.(published := s.published + {job})
    case CommitJob(job, reqs) => s.(jobs := s.jobs[job := NewJob(reqs)])
    case Cancel(job, now) => s.(jobs := s.jobs[job := s.jobs[job].(status := Cancelled, completedAt := Some(now))])
    case Deliver(w, job) => s.(workers := s.workers[w := Worker(job, Starting, [], [])])
    case MarkProcessing(w, now) =>
      var job := s.workers[w].job;
      s.(jobs := UpdateStatus(s.jobs, job, Processing, None, None, now),
        workers := Move(s, w, Loading))
    case Load(w, found) =>
      s.(workers := s.workers[w := Worker(s.workers[w].job, if found == [] then Failing else AtRequirement, found, [])])
    case Skip(w) =>
      s.(workers := s.workers[w := s.workers[w].(todo := s.workers[w].todo[1..])])
    case Store(w) =>
      var k := s.workers[w];
      var id := ScriptDocId(k.job, k.todo[0]);
      s.(docs := s.docs[id := ScriptDoc(k.job, k.todo[0])],
        workers := s.workers[w := k.(place := Stored, scripts := k.scripts + [id])])
    case CreateRow(w) =>
      var k := s.workers[w];
      s.(rows := s.rows + [ScriptRow(k.todo[0], k.job, ScriptDocId(k.job, k.todo[0]))],
        workers := Move(s, w, RowCreated))
    case MarkRequirement(w) =>
      var k := s.workers[w];
      s.(processed := if k.todo[0] in s.processed then s.processed[k.todo[0] := true] else s.processed,
        workers := s.workers[w := k.(place := AtRequirement, todo := k.todo[1..])])
    case Index(w) =>
      var k := s.workers[w];
      s.(docs := s.docs[IndexId(k.job) := IndexDoc(k.job, k.scripts)], workers := Move(s, w, Completing))
    case Complete(w, now) =>
      var job := s.workers[w].job;
      s.(jobs := UpdateStatus(s.jobs, job, Completed, Some(IndexId(job)), None, now), workers := Move(s, w, Done))
    case Raise(w) =>
      s.(workers := Move(s, w, if s.workers[w].place.Starting? || s.workers[w].place.Failing? then Done else Failing))
    case Fail(w, error, now) =>
      s.(jobs := UpdateStatus(s.jobs, s.workers[w].job, Failed, None, Some(error), now), workers := Move(s, w, Done))
    case Crash(w) => s.(workers := Move(s, w, Done))
  }

  /** `run` leads from `s` to `t`. */
  ghost predicate Steps(s: World, run: seq<Action>, t: World) {
    if run == [] then s == t
    else
      var last := |run| - 1;
      exists m :: Steps(s, run[..last], m) && Enabled(m, run[last]) && t == Apply(m, run[last])
  }

  lemma Then(s: World, run: seq<Action>, t: World, a: Action)
    requires Steps(s, run, t) && Enabled(t, a)
    ensures Steps(s, run + [a], Apply(t, a))
  {
    assert (run + [a])[..|run|] == run;
  }

  lemma NoSteps(s: World)
    ensures Steps(s, [], s)
  {
  }

  lemma {:induction false} StepsTwice(s: World, run: seq<Action>, t: World, more: seq<Action>, u: World)
    requires Steps(s, run, t) && Steps(t, more, u)
    ensures Steps(s, run + more, u)
  {
    if more == [] {
      assert run + more == run;
    } else {
      var last := |more| - 1;
      var m :| Steps(t, more[..last], m) && Enabled(m, more[last]) && u == Apply(m, more[last]);
      StepsTwice(s, run, t, more[..last], m);
      Then(s, run + more[..last], m, more[last]);
      assert run + more == run + more[..last] + [more[last]];
    }
  }

  lemma {:induction false} FourMore(s: World, run: seq<Action>, t: World, a: seq<Action>, t1: World, t2: World, t3: World, u: World)
    requires Steps(s, run, t) && |a| == 4
    requires Enabled(t, a[0]) && t1 == Apply(t, a[0])
    requires Enabled(t1, a[1]) && t2 == Apply(t1, a[1])
    requires Enabled(t2, a[2]) && t3 == Apply(t2, a[2])
    requires Enabled(t3, a[3]) && u == Apply(t3, a[3])
    ensures Steps(s, run + a, u)
  {
    hide *;
    Then(s, run, t, a[0]);
    Then(s, run + [a[0]], t1, a[1]);
    Then(s, run + [a[0]] + [a[1]], t2, a[2]);
    Then(s, run + [a[0]] + [a[1]] + [a[2]], t3, a[3]);
    assert run + a == run + [a[0]] + [a[1]] + [a[2]] + [a[3]];
  }

  /** No job, no document, no worker; requirements exist and none is processed. */
  predicate Initial(s: World) {
    && s.jobs == map[] && s.published == {} && s.docs == map[] && s.rows == [] && s.workers == map[]
    && forall r :: r in s.processed ==> !s.processed[r]
  }

  // ---------------------------------------------------------------------
  // Invariant
  // ---------------------------------------------------------------------

  ghost predicate IsScript(docs: map<string, Doc>, id: string, job: Uuid) {
    id in docs && docs[id].ScriptDoc? && docs[id].job == job
  }

  ghost predicate DocOk(docs: map<string, Doc>, reqs: set<Uuid>, id: string, d: Doc) {
    match d
    case ScriptDoc(job, req) => id == ScriptDocId(job, req) && req in reqs
    case IndexDoc(job, scripts) => id == IndexId(job) && forall i :: 0 <= i < |scripts| ==> IsScript(docs, scripts[i], job)
  }

  ghost predicate DocsOk(docs: map<string, Doc>, reqs: set<Uuid>) {
    forall id :: id in docs ==> DocOk(docs, reqs, id, docs[id])
  }

  ghost predicate RowOk(docs: map<string, Doc>, reqs: set<Uuid>, r: ScriptRow) {
    r.docId == ScriptDocId(r.job, r.req) && IsScript(docs, r.docId, r.job) && r.req in reqs
  }

  ghost predicate HasRow(rows: seq<ScriptRow>, req: Uuid) {
    exists i :: 0 <= i < |rows| && rows[i].req == req
  }

  ghost predicate WorkerOk(s: World, k: Worker) {
    && (forall i :: 0 <= i < |k.todo| ==> k.todo[i] in s.processed)
    && (forall i :: 0 <= i < |k.scripts| ==> IsScript(s.docs, k.scripts[i], k.job))
    && (k.place.Stored? || k.place.RowCreated? ==> k.todo != [] && IsScript(s.docs, ScriptDocId(k.job, k.todo[0]), k.job))
    && (k.place.RowCreated? ==> k.todo != [] && HasRow(s.rows, k.todo[0]))
    && (k.place.Completing? ==> IndexId(k.job) in s.docs)
  }

  ghost predicate JobOk(s: World, id: Uuid, job: Job) {
    && (job.completedAt.Some? <==> job.status in {Completed, Failed, Cancelled})
    && (job.status == Completed ==> job.resultId.Some?)
    && (job.resultId.Some? ==> job.resultId.value == IndexId(id) && IndexId(id) in s.docs)
    && (job.status == Processing ==> job.startedAt.Some?)
  }

  ghost predicate Inv(s: World) {
    && DocsOk(s.docs, s.processed.Keys)
    && (forall i :: 0 <= i < |s.rows| ==> RowOk(s.docs, s.processed.Keys, s.rows[i]))
    && (forall r :: r in s.processed && s.processed[r] ==> HasRow(s.rows, r))
    && (forall w :: w in s.workers ==> WorkerOk(s, s.workers[w]))
    && (forall j :: j in s.jobs ==> JobOk(s, j, s.jobs[j]))
  }

  /** Documents are never lost and never change kind or job. */
  ghost predicate Extends(docs: map<string, Doc>, docs': map<string, Doc>) {
    forall id :: id in docs ==>
      id in docs' && docs'[id].job == docs[id].job && (docs'[id].ScriptDoc? <==> docs[id].ScriptDoc?)
  }

  lemma DocsStay(docs: map<string, Doc>, docs': map<string, Doc>, reqs: set<Uuid>, id: string)
    requires DocsOk(docs, reqs) && Extends(docs, docs') && docs'.Keys == docs.Keys + {id}
    requires forall x :: x in docs && x != id ==> docs'[x] == docs[x]
    requires DocOk(docs, reqs, id, docs'[id])
    ensures DocsOk(docs', reqs)
  {
    forall x | x in docs'
      ensures DocOk(docs', reqs, x, docs'[x])
    {
      if x != id {
        assert DocOk(docs, reqs, x, docs[x]);
      }
    }
  }

  lemma StoreExtends(docs: map<string, Doc>, reqs: set<Uuid>, job: Uuid, req: Uuid)
    requires DocsOk(docs, reqs) && req in reqs
    ensures var docs' := docs[ScriptDocId(job, req) := ScriptDoc(job, req)]; Extends(docs, docs') && DocsOk(docs', reqs)
  {
    var id := ScriptDocId(job, req);
    var docs' := docs[id := ScriptDoc(job, req)];
    if id in docs {
      assert DocOk(docs, reqs, id, docs[id]);
      match docs[id]
      case ScriptDoc(job', req') => ScriptDocIdClash(job, req, job', req');
      case IndexDoc(job', _) => IndexIdsDiffer(job', job, req);
    }
    DocsStay(docs, docs', reqs, id);
  }

  lemma IndexExtends(docs: map<string, Doc>, reqs: set<Uuid>, job: Uuid, scripts: seq<string>)
    requires DocsOk(docs, reqs) && forall i :: 0 <= i < |scripts| ==> IsScript(docs, scripts[i], job)
    ensures var docs' := docs[IndexId(job) := IndexDoc(job, scripts)]; Extends(docs, docs') && DocsOk(docs', reqs)
  {
    var id := IndexId(job);
    var docs' := docs[id := IndexDoc(job, scripts)];
    if id in docs {
      assert DocOk(docs, reqs, id, docs[id]);
      match docs[id]
      case ScriptDoc(job', req') => IndexIdsDiffer(job, job', req');
      case IndexDoc(job', _) => IndexIdsDiffer(job, job', job);
    }
    DocsStay(docs, docs', reqs, id);
  }

  lemma WorkerStays(s: World, t: World, k: Worker)
    requires WorkerOk(s, k) && Extends(s.docs, t.docs) && s.rows <= t.rows && s.processed.Keys == t.processed.Keys
    ensures WorkerOk(t, k)
  {
    if k.place.RowCreated? {
      var i :| 0 <= i < |s.rows| && s.rows[i].req == k.todo[0];
      assert t.rows[i].req == k.todo[0];
    }
  }

  /** What a step may do to the stores, and what that is enough for. */
  ghost predicate StoresGrow(s: World, t: World) {
    && Extends(s.docs, t.docs) && s.rows <= t.rows && s.processed.Keys == t.processed.Keys
    && DocsOk(t.docs, t.processed.Keys)
  }

  lemma ApplyGrows(s: World, a: Action)
    requires Inv(s) && Enabled(s, a)
    ensures StoresGrow(s, Apply(s, a))
  {
    match a
    case Store(w) =>
      assert WorkerOk(s, s.workers[w]);
      StoreExtends(s.docs, s.processed.Keys, s.workers[w].job, s.workers[w].todo[0]);
    case Index(w) =>
      assert WorkerOk(s, s.workers[w]);
      IndexExtends(s.docs, s.processed.Keys, s.workers[w].job, s.workers[w].scripts);
    case _ =>
  }

  lemma LoadIsStored(s: World, w: nat, found: seq<Uuid>)
    requires Enabled(s, Load(w, found))
    ensures forall i :: 0 <= i < |found| ==> found[i] in s.processed
  {
    assert forall i :: 0 <= i < |found| ==> found[i] in found;
  }

  lemma {:induction false} OwnWorkerOk(s: World, a: Action, w: nat)
    requires Enabled(s, a) && w in s.workers && WorkerOk(Apply(s, a), s.workers[w])
    requires Apply(s, a).workers[w] != s.workers[w] && s.processed.Keys == Apply(s, a).processed.Keys
    ensures WorkerOk(Apply(s, a), Apply(s, a).workers[w])
  {
    hide ScriptDocId;
    hide IndexId;
    hide UpdateStatus;
    hide Answers;
    var t := Apply(s, a);
    if a.Load? {
      LoadIsStored(s, w, a.found);
    }
    if a.CreateRow? {
      assert t.rows[|s.rows|].req == t.workers[w].todo[0];
    }
  }

  lemma ApplyKeepsWorkers(s: World, a: Action)
    requires Inv(s) && Enabled(s, a) && StoresGrow(s, Apply(s, a))
    ensures forall w :: w in Apply(s, a).workers ==> WorkerOk(Apply(s, a), Apply(s, a).workers[w])
  {
    var t := Apply(s, a);
    forall w | w in t.workers
      ensures WorkerOk(t, t.workers[w])
    {
      if w in s.workers {
        WorkerStays(s, t, s.workers[w]);
        if t.workers[w] != s.workers[w] {
          OwnWorkerOk(s, a, w);
        }
      }
    }
  }

  lemma {:induction false} ApplyKeepsRows(s: World, a: Action)
    requires Inv(s) && Enabled(s, a) && StoresGrow(s, Apply(s, a))
    ensures var t := Apply(s, a);
      && (forall i :: 0 <= i < |t.rows| ==> RowOk(t.docs, t.processed.Keys, t.rows[i]))
      && (forall r :: r in t.processed && t.processed[r] ==> HasRow(t.rows, r))
  {
    hide IndexId;
    hide UpdateStatus;
    hide Answers;
    var t := Apply(s, a);
    forall i | 0 <= i < |t.rows|
      ensures RowOk(t.docs, t.processed.Keys, t.rows[i])
    {
      if i < |s.rows| {
        assert RowOk(s.docs, s.processed.Keys, s.rows[i]);
      } else {
        assert WorkerOk(s, s.workers[a.w]);
      }
    }
    forall r | r in t.processed && t.processed[r]
      ensures HasRow(t.rows, r)
    {
      if a.MarkRequirement? && r == s.workers[a.w].todo[0] {
        assert WorkerOk(s, s.workers[a.w]);
      }
      assert HasRow(s.rows, r);
      var i :| 0 <= i < |s.rows| && s.rows[i].req == r;
      assert t.rows[i].req == r;
    }
  }

  lemma {:induction false} JobStaysOk(s: World, a: Action, j: Uuid)
    requires Enabled(s, a) && j in Apply(s, a).jobs && Extends(s.docs, Apply(s, a).docs)
    requires j in s.jobs ==> JobOk(s, j, s.jobs[j])
    requires a.Complete? ==> IndexId(s.workers[a.w].job) in s.docs
    ensures JobOk(Apply(s, a), j, Apply(s, a).jobs[j])
  {
    hide ScriptDocId;
    if a.Complete? {
      assert IndexId(s.workers[a.w].job) != "";
    }
  }

  lemma {:induction false} ApplyKeepsJobs(s: World, a: Action)
    requires Inv(s) && Enabled(s, a) && StoresGrow(s, Apply(s, a))
    ensures var t := Apply(s, a);
      forall j :: j in t.jobs ==> JobOk(t, j, t.jobs[j])
  {
    hide DocsOk;
    hide RowOk;
    hide JobOk;
    hide ScriptDocId;
    if a.Complete? {
      assert WorkerOk(s, s.workers[a.w]);
    }
    forall j | j in Apply(s, a).jobs
      ensures JobOk(Apply(s, a), j, Apply(s, a).jobs[j])
    {
      JobStaysOk(s, a, j);
    }
  }

  lemma {:induction false} RunKeepsInv(s: World, run: seq<Action>, t: World)
    requires Initial(s) && Steps(s, run, t)
    ensures Inv(t)
  {
    if run != [] {
      var last := |run| - 1;
      var m :| Steps(s, run[..last], m) && Enabled(m, run[last]) && t == Apply(m, run[last]);
      RunKeepsInv(s, run[..last], m);
      ApplyGrows(m, run[last]);
      ApplyKeepsWorkers(m, run[last]);
      ApplyKeepsRows(m, run[last]);
      ApplyKeepsJobs(m, run[last]);
    }
  }

  // ---------------------------------------------------------------------
  // What holds at every crash point
  // ---------------------------------------------------------------------

  /** A script row always points at a stored script document of its job, for a
      requirement with the same eight-character prefix. */
  ghost predicate RowHasDocument(t: World, r: ScriptRow) {
    r.docId in t.docs && t.docs[r.docId].ScriptDoc? && t.docs[r.docId].job == r.job
    && Prefix8(t.docs[r.docId].req) == Prefix8(r.req)
  }

  lemma RowsHaveDocuments(s: World, run: seq<Action>, t: World)
    requires Initial(s) && Steps(s, run, t)
    ensures forall i :: 0 <= i < |t.rows| ==> RowHasDocument(t, t.rows[i])
  {
    RunKeepsInv(s, run, t);
    forall i | 0 <= i < |t.rows|
      ensures RowHasDocument(t, t.rows[i])
    {
      var r := t.rows[i];
      assert RowOk(t.docs, t.processed.Keys, r);
      assert DocOk(t.docs, t.processed.Keys, r.docId, t.docs[r.docId]);
      ScriptDocIdClash(t.docs[r.docId].job, t.docs[r.docId].req, r.job, r.req);
    }
  }

  /** A requirement is only ever processed after its script row, and that row
      only after its document. */
  lemma ProcessedHasScript(s: World, run: seq<Action>, t: World, req: Uuid)
    requires Initial(s) && Steps(s, run, t) && req in t.processed && t.processed[req]
    ensures exists i :: 0 <= i < |t.rows| && t.rows[i].req == req && RowHasDocument(t, t.rows[i])
  {
    RunKeepsInv(s, run, t);
    RowsHaveDocuments(s, run, t);
  }

  // ---------------------------------------------------------------------
  // What an index stands for
  // ---------------------------------------------------------------------

  ghost predicate RowIsWhole(s: World, r: ScriptRow, job: Uuid, script: string) {
    r.job == job && r.docId == script && r.req in s.processed && s.processed[r.req]
  }

  /** The script has a row of the job, and that row's requirement is processed. */
  ghost predicate Whole(s: World, job: Uuid, script: string) {
    exists i :: 0 <= i < |s.rows| && RowIsWhole(s, s.rows[i], job, script)
  }

  ghost predicate AllWhole(s: World, job: Uuid, scripts: seq<string>) {
    forall x :: x in scripts ==> Whole(s, job, x)
  }

  /** All a worker has collected is whole, but for the script it is busy with. */
  ghost predicate Carried(s: World, k: Worker) {
    && (k.place in {AtRequirement, Completing} ==> AllWhole(s, k.job, k.scripts))
    && (k.place in {Stored, RowCreated} ==>
          && k.todo != [] && k.todo[0] in s.processed && k.scripts != []
          && k.scripts[|k.scripts| - 1] == ScriptDocId(k.job, k.todo[0])
          && AllWhole(s, k.job, k.scripts[..|k.scripts| - 1]))
    && (k.place == RowCreated ==>
          k.todo != [] && ScriptRow(k.todo[0], k.job, ScriptDocId(k.job, k.todo[0])) in s.rows)
  }

  ghost predicate AllCarried(s: World) {
    && (forall w :: w in s.workers ==> Carried(s, s.workers[w]))
    && (forall id :: id in s.docs && s.docs[id].IndexDoc? ==> AllWhole(s, s.docs[id].job, s.docs[id].scripts))
  }

  /** Rows are only added, and a processed requirement stays processed. */
  ghost predicate Advances(s: World, t: World) {
    && s.rows <= t.rows
    && forall r :: r in s.processed ==> r in t.processed && (s.processed[r] ==> t.processed[r])
  }

  lemma {:induction false} StepAdvances(s: World, a: Action)
    requires Enabled(s, a)
    ensures Advances(s, Apply(s, a))
  {
    hide Answers;
    hide UpdateStatus;
    hide ScriptDocId;
    hide IndexId;
  }

  lemma WholeStays(s: World, t: World, job: Uuid, scripts: seq<string>)
    requires Advances(s, t) && AllWhole(s, job, scripts)
    ensures AllWhole(t, job, scripts)
  {
    forall x | x in scripts
      ensures Whole(t, job, x)
    {
      assert Whole(s, job, x);
      var i :| 0 <= i < |s.rows| && RowIsWhole(s, s.rows[i], job, x);
      assert RowIsWhole(t, t.rows[i], job, x);
    }
  }

  lemma {:induction false} CarriedStays(s: World, t: World, k: Worker)
    requires Advances(s, t) && Carried(s, k)
    ensures Carried(t, k)
  {
    hide AllWhole;
    if k.place in {AtRequirement, Completing} {
      WholeStays(s, t, k.job, k.scripts);
    } else if k.place in {Stored, RowCreated} {
      WholeStays(s, t, k.job, k.scripts[..|k.scripts| - 1]);
    }
  }

  lemma NothingIsWhole(s: World, job: Uuid)
    ensures AllWhole(s, job, [])
  {
  }

  lemma MarkedIsWhole(s: World, a: Action, w: nat)
    requires a.MarkRequirement? && a.w == w && Enabled(s, a) && Carried(s, s.workers[w]) && Carried(Apply(s, a), s.workers[w])
    ensures AllWhole(Apply(s, a), s.workers[w].job, s.workers[w].scripts)
  {
    var t, k := Apply(s, a), s.workers[w];
    var row := ScriptRow(k.todo[0], k.job, ScriptDocId(k.job, k.todo[0]));
    var i :| 0 <= i < |t.rows| && t.rows[i] == row;
    assert RowIsWhole(t, t.rows[i], k.job, row.docId);
    forall x | x in k.scripts
      ensures Whole(t, k.job, x)
    {
      assert k.scripts == k.scripts[..|k.scripts| - 1] + [k.scripts[|k.scripts| - 1]];
    }
  }

  lemma {:induction false} StoreCarried(s: World, a: Action, w: nat)
    requires a.Store? && a.w == w && Enabled(s, a) && w in s.workers && WorkerOk(s, s.workers[w])
    requires Carried(s, s.workers[w]) && Carried(Apply(s, a), s.workers[w])
    ensures Carried(Apply(s, a), Apply(s, a).workers[w])
  {
    hide AllWhole;
    hide ScriptDocId;
    var k, k' := s.workers[w], Apply(s, a).workers[w];
    assert k'.scripts[..|k'.scripts| - 1] == k.scripts;
  }

  lemma {:induction false} OwnCarried(s: World, a: Action, w: nat)
    requires Enabled(s, a) && w in s.workers && WorkerOk(s, s.workers[w]) && Carried(s, s.workers[w])
    requires Carried(Apply(s, a), s.workers[w]) && Apply(s, a).workers[w] != s.workers[w]
    ensures Carried(Apply(s, a), Apply(s, a).workers[w])
  {
    hide AllWhole;
    hide Answers;
    hide UpdateStatus;
    hide ScriptDocId;
    hide IndexId;
    var t := Apply(s, a);
    match a {
      case Load(_, _) => NothingIsWhole(t, s.workers[w].job);
      case Store(_) => StoreCarried(s, a, w);
      case CreateRow(_) => assert t.rows[|s.rows|] in t.rows;
      case MarkRequirement(_) => MarkedIsWhole(s, a, w);
      case _ =>
    }
  }

  lemma {:induction false} ApplyKeepsCarried(s: World, a: Action)
    requires Inv(s) && AllCarried(s) && Enabled(s, a)
    ensures AllCarried(Apply(s, a))
  {
    hide AllWhole;
    hide Answers;
    hide UpdateStatus;
    hide ScriptDocId;
    hide IndexId;
    hide Advances;
    var t := Apply(s, a);
    StepAdvances(s, a);
    forall w | w in t.workers
      ensures Carried(t, t.workers[w])
    {
      if w in s.workers {
        CarriedStays(s, t, s.workers[w]);
        if t.workers[w] != s.workers[w] {
          OwnCarried(s, a, w);
        }
      }
    }
    forall id | id in t.docs && t.docs[id].IndexDoc?
      ensures AllWhole(t, t.docs[id].job, t.docs[id].scripts)
    {
      if a.Index? && t.docs[id] == IndexDoc(s.workers[a.w].job, s.workers[a.w].scripts) {
        assert Carried(s, s.workers[a.w]);
        WholeStays(s, t, t.docs[id].job, t.docs[id].scripts);
      } else {
        assert id in s.docs && t.docs[id] == s.docs[id];
        WholeStays(s, t, t.docs[id].job, t.docs[id].scripts);
      }
    }
  }

  lemma {:induction false} RunKeepsCarried(s: World, run: seq<Action>, t: World)
    requires Initial(s) && Steps(s, run, t)
    ensures AllCarried(t)
  {
    if run != [] {
      hide AllCarried;
      var last := |run| - 1;
      var m :| Steps(s, run[..last], m) && Enabled(m, run[last]) && t == Apply(m, run[last]);
      RunKeepsInv(s, run[..last], m);
      RunKeepsCarried(s, run[..last], m);
      ApplyKeepsCarried(m, run[last]);
    }
  }

  /** At every crash point each script that a generation index lists has a row of
      the index's job whose requirement is processed. */
  lemma {:induction false} IndexedScriptsAreProcessed(s: World, run: seq<Action>, t: World, id: string, script: string)
    requires Initial(s) && Steps(s, run, t)
    requires id in t.docs && t.docs[id].IndexDoc? && script in t.docs[id].scripts
    ensures exists i :: 0 <= i < |t.rows| && t.rows[i].job == t.docs[id].job && t.rows[i].docId == script
                        && t.rows[i].req in t.processed && t.processed[t.rows[i].req]
  {
    hide Steps;
    RunKeepsCarried(s, run, t);
    assert Whole(t, t.docs[id].job, script);
    var i :| 0 <= i < |t.rows| && RowIsWhole(t, t.rows[i], t.docs[id].job, script);
  }

  /** A worker that goes on from a created row to the next requirement leaves the
      one it had processed, if it is stored, and every other as it was. */
  lemma {:induction false} GoingOnMarks(s: World, a: Action, w: nat)
    requires Enabled(s, a) && w in s.workers && s.workers[w].place == RowCreated
    requires Apply(s, a).workers[w].place == AtRequirement
    ensures var t, req := Apply(s, a), s.workers[w].todo[0];
      && t.workers[w].todo == s.workers[w].todo[1..] && t.workers[w].scripts == s.workers[w].scripts
      && t.processed.Keys == s.processed.Keys
      && (req in s.processed ==> t.processed[req])
      && forall r :: r in s.processed && r != req ==> t.processed[r] == s.processed[r]
  {
  }

  // ---------------------------------------------------------------------
  // Whose document a row points at
  // ---------------------------------------------------------------------

  /** The stored requirements that a job asks for. */
  function Requirements(s: World, j: Uuid): set<Uuid> {
    if j in s.jobs then set r | r in s.processed && r in s.jobs[j].requirementIds else {}
  }

  /** Whatever is done for a job is done for a requirement it asks for. */
  ghost predicate Asked(s: World) {
    && (forall id :: id in s.docs && s.docs[id].ScriptDoc? ==> s.docs[id].req in Requirements(s, s.docs[id].job))
    && (forall i :: 0 <= i < |s.rows| ==> s.rows[i].req in Requirements(s, s.rows[i].job))
    && (forall w :: w in s.workers ==> forall r :: r in s.workers[w].todo ==> r in Requirements(s, s.workers[w].job))
  }

  lemma {:induction false} RequirementsStay(s: World, a: Action, j: Uuid)
    requires Enabled(s, a)
    ensures Requirements(s, j) <= Requirements(Apply(s, a), j)
    ensures j in s.jobs ==> j in Apply(s, a).jobs && Requirements(Apply(s, a), j) == Requirements(s, j)
  {
    hide ScriptDocId;
    hide IndexId;
    hide Answers;
    var t := Apply(s, a);
    assert a.MarkRequirement? ==> t.processed.Keys == s.processed.Keys;
    assert j in s.jobs ==> j in t.jobs && t.jobs[j].requirementIds == s.jobs[j].requirementIds;
  }

  lemma LoadIsAsked(s: World, w: nat, found: seq<Uuid>)
    requires Enabled(s, Load(w, found))
    ensures forall r :: r in found ==> r in Requirements(s, s.workers[w].job)
  {
  }

  lemma {:induction false} ApplyKeepsAsked(s: World, a: Action)
    requires Asked(s) && Enabled(s, a)
    ensures Asked(Apply(s, a))
  {
    hide Requirements;
    hide ScriptDocId;
    hide IndexId;
    hide UpdateStatus;
    hide Answers;
    var t := Apply(s, a);
    forall j
      ensures Requirements(s, j) <= Requirements(t, j)
    {
      RequirementsStay(s, a, j);
    }
    if a.Load? {
      LoadIsAsked(s, a.w, a.found);
    }
  }

  lemma NothingAsked(s: World)
    requires Initial(s)
    ensures Asked(s)
  {
  }

  lemma {:induction false} RunKeepsAsked(s: World, run: seq<Action>, t: World)
    requires Initial(s) && Steps(s, run, t)
    ensures Asked(t)
  {
    hide Asked;
    if run == [] {
      NothingAsked(s);
    } else {
      var last := |run| - 1;
      var m :| Steps(s, run[..last], m) && Enabled(m, run[last]) && t == Apply(m, run[last]);
      RunKeepsAsked(s, run[..last], m);
      ApplyKeepsAsked(m, run[last]);
    }
  }

  ghost predicate DistinctPrefixes(reqs: set<Uuid>) {
    forall r, r' :: r in reqs && r' in reqs && Prefix8(r) == Prefix8(r') ==> r == r'
  }

  ghost predicate RowOwnsDocument(t: World, r: ScriptRow) {
    r.docId in t.docs && t.docs[r.docId] == ScriptDoc(r.job, r.req)
  }

  ghost predicate OwnDocuments(t: World, j: Uuid) {
    forall i :: 0 <= i < |t.rows| && t.rows[i].job == j ==> RowOwnsDocument(t, t.rows[i])
  }

  /** When the requirements a job asks for have distinct prefixes, the document
      each of its rows points at is that requirement's own. */
  lemma {:induction false} RowHasOwnDocument(s: World, run: seq<Action>, t: World, j: Uuid)
    requires Initial(s) && Steps(s, run, t)
    requires DistinctPrefixes(Requirements(t, j))
    ensures OwnDocuments(t, j)
  {
    hide Requirements;
    RunKeepsInv(s, run, t);
    RunKeepsAsked(s, run, t);
    RowsHaveDocuments(s, run, t);
    forall i | 0 <= i < |t.rows| && t.rows[i].job == j
      ensures RowOwnsDocument(t, t.rows[i])
    {
      assert RowHasDocument(t, t.rows[i]);
      assert t.docs[t.rows[i].docId].req in Requirements(t, j);
    }
  }

  lemma {:induction false} ContinuationKeepsRequirements(t: World, more: seq<Action>, u: World, j: Uuid)
    requires Steps(t, more, u) && j in t.jobs
    ensures j in u.jobs && Requirements(u, j) == Requirements(t, j)
  {
    hide Requirements;
    if more != [] {
      var last := |more| - 1;
      var m :| Steps(t, more[..last], m) && Enabled(m, more[last]) && u == Apply(m, more[last]);
      ContinuationKeepsRequirements(t, more[..last], m, j);
      RequirementsStay(m, more[last], j);
    }
  }

  lemma {:induction false} Unused(ids: set<nat>) returns (w: nat)
    ensures forall x :: x in ids ==> x < w
  {
    if ids == {} {
      w := 0;
    } else {
      var x :| x in ids;
      var w' := Unused(ids - {x});
      w := if x < w' then w' else x + 1;
      assert forall y :: y in ids ==> y == x || y in ids - {x};
    }
  }

  lemma {:induction false} Listing(reqs: set<Uuid>) returns (found: seq<Uuid>)
    ensures Distinct(found) && forall r :: r in found <==> r in reqs
  {
    if reqs == {} {
      found := [];
    } else {
      var r :| r in reqs;
      var rest := Listing(reqs - {r});
      found := [r] + rest;
    }
  }

  /** Two of a job's requirements can come first in the answer to its query. */
  lemma {:induction false} TwoFirst(t: World, j: Uuid, req: Uuid, other: Uuid) returns (found: seq<Uuid>)
    requires j in t.jobs && req in Requirements(t, j) && other in Requirements(t, j) && req != other
    ensures Answers(t.jobs[j], t.processed, found) && |found| >= 2 && found[0] == req && found[1] == other
  {
    var rest := Listing(Requirements(t, j) - {req, other});
    found := [req, other] + rest;
    assert forall k :: 0 <= k < |rest| ==> rest[k] in rest;
  }

  lemma SameAnswers(job: Job, job': Job, processed: map<Uuid, bool>, found: seq<Uuid>)
    requires Answers(job, processed, found) && job'.requirementIds == job.requirementIds
    ensures Answers(job', processed, found)
  {
  }

  /** A job's message may be delivered once more, to a worker that has not been
      seen, which then sets out on the answer to the query. */
  lemma {:induction false} AnotherDelivery(t: World, j: Uuid, w: nat, found: seq<Uuid>) returns (more: seq<Action>, u: World)
    requires j in t.jobs && j in t.published && w !in t.workers
    requires Answers(t.jobs[j], t.processed, found) && found != []
    ensures Steps(t, more, u)
    ensures w in u.workers && u.workers[w] == Worker(j, AtRequirement, found, [])
  {
    hide Steps;
    hide Answers;
    assert Steps(t, [], t) by {
      NoSteps(t);
    }
    var t1 := Apply(t, Deliver(w, j));
    Then(t, [], t, Deliver(w, j));
    var t2 := Apply(t1, MarkProcessing(w, 0));
    Then(t, [] + [Deliver(w, j)], t1, MarkProcessing(w, 0));
    assert Answers(t2.jobs[j], t2.processed, found) by {
      SameAnswers(t.jobs[j], t2.jobs[j], t.processed, found);
    }
    Then(t, [] + [Deliver(w, j)] + [MarkProcessing(w, 0)], t2, Load(w, found));
    more := [] + [Deliver(w, j)] + [MarkProcessing(w, 0)] + [Load(w, found)];
    u := Apply(t2, Load(w, found));
  }

  /** The job has a row for the first requirement that points at the other's document. */
  ghost predicate LostDocument(u: World, job: Uuid, req: Uuid, other: Uuid) {
    exists i :: 0 <= i < |u.rows| && u.rows[i].req == req && u.rows[i].job == job
                && u.rows[i].docId in u.docs && u.docs[u.rows[i].docId] == ScriptDoc(job, other)
  }

  lemma SharedPrefixSteps(t: World, w: nat, req: Uuid, other: Uuid) returns (t1: World, t2: World, t3: World, u: World)
    requires At(t, w, AtRequirement) && |t.workers[w].todo| >= 2
    requires t.workers[w].todo[0] == req && t.workers[w].todo[1] == other && Prefix8(req) == Prefix8(other)
    ensures Enabled(t, Store(w)) && t1 == Apply(t, Store(w))
    ensures Enabled(t1, CreateRow(w)) && t2 == Apply(t1, CreateRow(w))
    ensures Enabled(t2, MarkRequirement(w)) && t3 == Apply(t2, MarkRequirement(w))
    ensures Enabled(t3, Store(w)) && u == Apply(t3, Store(w))
    ensures LostDocument(u, t.workers[w].job, req, other)
  {
    t1 := Apply(t, Store(w));
    t2 := Apply(t1, CreateRow(w));
    t3 := Apply(t2, MarkRequirement(w));
    assert t3.workers[w].todo[0] == other;
    u := Apply(t3, Store(w));
    assert u.rows[|t.rows|] == ScriptRow(req, t.workers[w].job, ScriptDocId(t.workers[w].job, req));
  }

  lemma {:induction false} StepKeepsPublished(s: World, a: Action)
    requires Enabled(s, a) && s.jobs.Keys <= s.published
    requires forall w :: w in s.workers ==> s.workers[w].job in s.published
    ensures var t := Apply(s, a);
      t.jobs.Keys <= t.published && forall w :: w in t.workers ==> t.workers[w].job in t.published
  {
    hide ScriptDocId;
    hide IndexId;
    assert s.published <= Apply(s, a).published;
  }

  /** A worker's message was published, so the row may still arrive. */
  lemma {:induction false} WorkersArePublished(s: World, run: seq<Action>, t: World)
    requires Initial(s) && Steps(s, run, t)
    ensures forall w :: w in t.workers ==> t.workers[w].job in t.published
    ensures t.jobs.Keys <= t.published
  {
    if run != [] {
      var last := |run| - 1;
      var m :| Steps(s, run[..last], m) && Enabled(m, run[last]) && t == Apply(m, run[last]);
      WorkersArePublished(s, run[..last], m);
      StepKeepsPublished(m, run[last]);
    }
  }

  /** Wherever a run stands, a job that asks for two requirements with the same
      prefix can go on to lose the document of the one to that of the other. */
  lemma {:induction false} SharedPrefixLosesDocument(s: World, run: seq<Action>, t: World, j: Uuid, req: Uuid, other: Uuid)
    requires Initial(s) && Steps(s, run, t) && j in t.jobs
    requires req in Requirements(t, j) && other in Requirements(t, j) && req != other && Prefix8(req) == Prefix8(other)
    ensures exists more, u :: Steps(t, more, u) && LostDocument(u, j, req, other)
  {
    hide Apply;
    hide Steps;
    hide Requirements;
    WorkersArePublished(s, run, t);
    var w := Unused(t.workers.Keys);
    var found := TwoFirst(t, j, req, other);
    var first, m := AnotherDelivery(t, j, w, found);
    var t1, t2, t3, u := SharedPrefixSteps(m, w, req, other);
    var rest := [Store(w), CreateRow(w), MarkRequirement(w), Store(w)];
    FourMore(t, first, m, rest, t1, t2, t3, u);
    assert Steps(t, first + rest, u) && LostDocument(u, j, req, other);
  }

  lemma LostIsNotOwn(u: World, j: Uuid, req: Uuid, other: Uuid)
    requires LostDocument(u, j, req, other) && req != other
    ensures !OwnDocuments(u, j)
  {
  }

  /** Whether rows keep their own documents. From any reachable state, however
      things go on, every row of a job points at its own requirement's document,
      if and only if the requirements the job asks for have distinct prefixes. */
  lemma {:induction false} OwnDocumentsIff(s: World, run: seq<Action>, t: World, j: Uuid)
    requires Initial(s) && Steps(s, run, t) && j in t.jobs
    ensures (forall more, u :: Steps(t, more, u) ==> OwnDocuments(u, j)) <==> DistinctPrefixes(Requirements(t, j))
  {
    hide Apply;
    hide Requirements;
    hide OwnDocuments;
    if DistinctPrefixes(Requirements(t, j)) {
      forall more, u | Steps(t, more, u)
        ensures OwnDocuments(u, j)
      {
        StepsTwice(s, run, t, more, u);
        ContinuationKeepsRequirements(t, more, u, j);
        RowHasOwnDocument(s, run + more, u, j);
      }
    } else {
      var req, other :| req in Requirements(t, j) && other in Requirements(t, j) && Prefix8(req) == Prefix8(other) && req != other;
      SharedPrefixLosesDocument(s, run, t, j, req, other);
      var more, u :| Steps(t, more, u) && LostDocument(u, j, req, other);
      LostIsNotOwn(u, j, req, other);
      assert Steps(t, more, u) && !OwnDocuments(u, j);
    }
  }

  // ---------------------------------------------------------------------
  // Results and status
  // ---------------------------------------------------------------------

  ghost predicate HasIndex(docs: map<string, Doc>, job: Uuid, id: string) {
    id in docs && docs[id].IndexDoc? && docs[id].job == job
  }

  /** Every generation index lists only stored script documents of its own job,
      and every recorded result is a stored index. */
  lemma ResultsExist(s: World, run: seq<Action>, t: World)
    requires Initial(s) && Steps(s, run, t)
    ensures forall id :: id in t.docs && t.docs[id].IndexDoc? ==>
              forall x :: x in t.docs[id].scripts ==> IsScript(t.docs, x, t.docs[id].job)
    ensures forall j :: j in t.jobs && t.jobs[j].status == Completed ==> t.jobs[j].resultId.Some?
    ensures forall j :: j in t.jobs && t.jobs[j].resultId.Some? ==> HasIndex(t.docs, j, t.jobs[j].resultId.value)
  {
    RunKeepsInv(s, run, t);
    forall id, x | id in t.docs && t.docs[id].IndexDoc? && x in t.docs[id].scripts
      ensures IsScript(t.docs, x, t.docs[id].job)
    {
      assert DocOk(t.docs, t.processed.Keys, id, t.docs[id]);
    }
    forall j | j in t.jobs && t.jobs[j].resultId.Some?
      ensures HasIndex(t.docs, j, t.jobs[j].resultId.value)
    {
      assert JobOk(t, j, t.jobs[j]);
      var id := IndexId(j);
      assert DocOk(t.docs, t.processed.Keys, id, t.docs[id]);
      match t.docs[id]
      case ScriptDoc(job, req) => IndexIdsDiffer(j, job, req);
      case IndexDoc(job, _) => IndexIdsDiffer(j, job, j);
    }
    forall j | j in t.jobs && t.jobs[j].status == Completed
      ensures t.jobs[j].resultId.Some?
    {
      assert JobOk(t, j, t.jobs[j]);
    }
  }

  /** The finish time is set exactly in the finished states, and a running job
      has a start time. */
  lemma Lifecycle(s: World, run: seq<Action>, t: World, j: Uuid)
    requires Initial(s) && Steps(s, run, t) && j in t.jobs
    ensures t.jobs[j].completedAt.Some? <==> t.jobs[j].status in {Completed, Failed, Cancelled}
    ensures t.jobs[j].status == Processing ==> t.jobs[j].startedAt.Some?
  {
    RunKeepsInv(s, run, t);
    assert JobOk(t, j, t.jobs[j]);
  }

  predicate WritesStatus(a: Action) {
    a.MarkProcessing? || a.Complete? || a.Fail?
  }

  // ---------------------------------------------------------------------
  // Finished jobs without a start time
  // ---------------------------------------------------------------------

  predicate FinishedUnstarted(s: World, j: Uuid) {
    j in s.jobs && s.jobs[j].status in {Completed, Failed} && s.jobs[j].startedAt == None
  }

  /** A worker of the job is past its PROCESSING update and not done. */
  ghost predicate UnderWay(s: World, j: Uuid, w: nat) {
    w in s.workers && s.workers[w].job == j && s.workers[w].place !in {Starting, Done}
  }

  ghost predicate AtRisk(s: World, j: Uuid) {
    j in s.jobs ==> s.jobs[j].startedAt == None && (FinishedUnstarted(s, j) || exists w :: UnderWay(s, j, w))
  }

  lemma {:induction false} StepKeepsSafe(s: World, a: Action, j: Uuid)
    requires Enabled(s, a) && !AtRisk(s, j)
    ensures !AtRisk(Apply(s, a), j)
  {
    hide ScriptDocId;
    hide IndexId;
    hide Answers;
    var t := Apply(s, a);
    assert s.jobs[j].startedAt.Some? ==> t.jobs[j].startedAt.Some?;
    assert WritesStatus(a) && s.jobs[j].startedAt == None ==> !UnderWay(s, j, a.w);
    if s.jobs[j].startedAt == None && t.jobs[j].startedAt == None {
      forall w
        ensures !UnderWay(t, j, w)
      {
        assert !UnderWay(s, j, w);
      }
    }
  }

  lemma {:induction false} ContinuationKeepsSafe(t: World, more: seq<Action>, u: World, j: Uuid)
    requires Steps(t, more, u) && !AtRisk(t, j)
    ensures !AtRisk(u, j)
  {
    hide AtRisk;
    if more != [] {
      var last := |more| - 1;
      var m :| Steps(t, more[..last], m) && Enabled(m, more[last]) && u == Apply(m, more[last]);
      ContinuationKeepsSafe(t, more[..last], m, j);
      StepKeepsSafe(m, more[last], j);
    }
  }

  lemma {:induction false} FailNow(t: World, j: Uuid, w: nat) returns (more: seq<Action>, u: World)
    requires j in t.jobs && w in t.workers && t.workers[w].job == j && t.workers[w].place.Failing?
    ensures Steps(t, more, u) && more == [Fail(w, "", 0)]
    ensures j in u.jobs && u.jobs[j].status == Failed && u.jobs[j].startedAt == t.jobs[j].startedAt
  {
    hide Steps;
    NoSteps(t);
    Then(t, [], t, Fail(w, "", 0));
    more, u := [] + [Fail(w, "", 0)], Apply(t, Fail(w, "", 0));
  }

  /** A worker under way can raise and then record the failure. */
  lemma {:induction false} CanFail(t: World, j: Uuid, w: nat) returns (more: seq<Action>, u: World)
    requires UnderWay(t, j, w) && j in t.jobs
    ensures Steps(t, more, u) && forall i :: 0 <= i < |more| ==> more[i].Raise? || more[i].Fail?
    ensures j in u.jobs && u.jobs[j].status == Failed && u.jobs[j].startedAt == t.jobs[j].startedAt
  {
    hide Steps;
    if t.workers[w].place.Failing? {
      more, u := FailNow(t, j, w);
    } else {
      NoSteps(t);
      Then(t, [], t, Raise(w));
      var m := Apply(t, Raise(w));
      var rest;
      rest, u := FailNow(m, j, w);
      StepsTwice(t, [] + [Raise(w)], m, rest, u);
      more := [] + [Raise(w)] + rest;
    }
  }

  lemma {:induction false} CanPublish(t: World, j: Uuid) returns (more: seq<Action>, m: World)
    ensures Steps(t, more, m) && j in m.published && m.jobs == t.jobs && m.workers == t.workers
  {
    hide Steps;
    NoSteps(t);
    m, more := t, [];
    if j !in t.published {
      Then(t, [], t, Publish(j));
      m := Apply(t, Publish(j));
      more := [] + [Publish(j)];
    }
  }

  /** The message is published before the row is committed, so a worker can miss
      the row of a job that is still to be committed. */
  lemma {:induction false} CanMissRow(t: World, j: Uuid, w: nat, reqs: seq<Uuid>) returns (more: seq<Action>, u: World)
    requires j !in t.jobs && w !in t.workers
    ensures Steps(t, more, u) && UnderWay(u, j, w) && j in u.jobs && u.jobs[j] == NewJob(reqs)
  {
    hide Steps;
    var m;
    more, m := CanPublish(t, j);
    Then(t, more, m, Deliver(w, j));
    var m1 := Apply(m, Deliver(w, j));
    Then(t, more + [Deliver(w, j)], m1, MarkProcessing(w, 0));
    var m2 := Apply(m1, MarkProcessing(w, 0));
    Then(t, more + [Deliver(w, j)] + [MarkProcessing(w, 0)], m2, CommitJob(j, reqs));
    u := Apply(m2, CommitJob(j, reqs));
    more := more + [Deliver(w, j)] + [MarkProcessing(w, 0)] + [CommitJob(j, reqs)];
  }

  /** Jobs that finish without a start time. From any state, some continuation
      leaves a job completed or failed without one, if and only if its row is
      still to be committed, or has no start time while the job has so finished
      or some worker of it is past its PROCESSING update and not done. */
  lemma {:induction false} FinishesUnstartedIff(t: World, j: Uuid)
    ensures (exists more, u :: Steps(t, more, u) && FinishedUnstarted(u, j)) <==> AtRisk(t, j)
  {
    hide Apply;
    if AtRisk(t, j) {
      if j !in t.jobs {
        var w := Unused(t.workers.Keys);
        var first, m := CanMissRow(t, j, w, []);
        var rest, u := CanFail(m, j, w);
        StepsTwice(t, first, m, rest, u);
        assert Steps(t, first + rest, u) && FinishedUnstarted(u, j);
      } else if FinishedUnstarted(t, j) {
        NoSteps(t);
        assert Steps(t, [], t) && FinishedUnstarted(t, j);
      } else {
        var w :| UnderWay(t, j, w);
        var more, u := CanFail(t, j, w);
      }
    } else if more, u :| Steps(t, more, u) && FinishedUnstarted(u, j) {
      ContinuationKeepsSafe(t, more, u, j);
    }
  }

  // ---------------------------------------------------------------------
  // Cancelled jobs
  // ---------------------------------------------------------------------

  predicate IsCancelled(s: World, j: Uuid) {
    j in s.jobs && s.jobs[j].status == Cancelled
  }

  predicate NoDelivery(run: seq<Action>, j: Uuid) {
    forall i :: 0 <= i < |run| ==> !(run[i].Deliver? && run[i].job == j)
  }

  /** No worker of the job has anything left to do. */
  ghost predicate AllDone(s: World, j: Uuid) {
    forall w :: w in s.workers && s.workers[w].job == j ==> s.workers[w].place.Done?
  }

  lemma {:induction false} StepKeepsCancelled(s: World, a: Action, j: Uuid)
    requires Enabled(s, a) && IsCancelled(s, j) && AllDone(s, j) && !(a.Deliver? && a.job == j)
    ensures IsCancelled(Apply(s, a), j) && AllDone(Apply(s, a), j)
  {
    hide ScriptDocId;
    hide IndexId;
    hide Answers;
    var t := Apply(s, a);
    if WritesStatus(a) {
      assert s.workers[a.w].job != j;
    }
    forall w | w in t.workers && t.workers[w].job == j
      ensures t.workers[w].place.Done?
    {
      assert w in s.workers && s.workers[w].job == j;
    }
  }

  lemma {:induction false} ContinuationKeepsCancelled(t: World, more: seq<Action>, u: World, j: Uuid)
    requires Steps(t, more, u) && NoDelivery(more, j) && IsCancelled(t, j) && AllDone(t, j)
    ensures IsCancelled(u, j) && AllDone(u, j)
  {
    hide IsCancelled;
    hide AllDone;
    hide Enabled;
    if more != [] {
      var last := |more| - 1;
      var m :| Steps(t, more[..last], m) && Enabled(m, more[last]) && u == Apply(m, more[last]);
      assert forall i :: 0 <= i < last ==> more[..last][i] == more[i];
      ContinuationKeepsCancelled(t, more[..last], m, j);
      StepKeepsCancelled(m, more[last], j);
    }
  }

  /** A worker with something left to do can write a status. */
  lemma {:induction false} CanWriteStatus(t: World, j: Uuid, w: nat) returns (more: seq<Action>, u: World)
    requires j in t.jobs && w in t.workers && t.workers[w].job == j && !t.workers[w].place.Done?
    ensures Steps(t, more, u) && NoDelivery(more, j) && j in u.jobs && u.jobs[j].status in {Processing, Failed}
  {
    hide Steps;
    NoSteps(t);
    if t.workers[w].place.Starting? {
      Then(t, [], t, MarkProcessing(w, 0));
      more, u := [] + [MarkProcessing(w, 0)], Apply(t, MarkProcessing(w, 0));
    } else {
      more, u := CanFail(t, j, w);
    }
  }

  /** When cancelling is final. Without a further delivery of its message, a
      cancelled job stays cancelled however things go on, if and only if no worker
      of it has anything left to do. */
  lemma {:induction false} StaysCancelledIff(t: World, j: Uuid)
    requires IsCancelled(t, j)
    ensures (forall more, u :: Steps(t, more, u) && NoDelivery(more, j) ==> IsCancelled(u, j)) <==> AllDone(t, j)
  {
    hide Apply;
    hide Enabled;
    if AllDone(t, j) {
      forall more, u | Steps(t, more, u) && NoDelivery(more, j)
        ensures IsCancelled(u, j)
      {
        ContinuationKeepsCancelled(t, more, u, j);
      }
    } else {
      var w :| w in t.workers && t.workers[w].job == j && !t.workers[w].place.Done?;
      var more, u := CanWriteStatus(t, j, w);
      assert Steps(t, more, u) && NoDelivery(more, j) && !IsCancelled(u, j);
    }
  }

  // ---------------------------------------------------------------------
  // Stranded jobs
  // ---------------------------------------------------------------------

  /** Nobody delivers the job's message again or cancels the job. */
  predicate Undisturbed(run: seq<Action>, j: Uuid) {
    forall i :: 0 <= i < |run| ==> !((run[i].Deliver? || run[i].Cancel?) && run[i].job == j)
  }

  lemma {:induction false} StepKeepsStranded(s: World, a: Action, j: Uuid)
    requires Enabled(s, a) && j in s.jobs && AllDone(s, j) && !((a.Deliver? || a.Cancel?) && a.job == j)
    ensures var t := Apply(s, a); j in t.jobs && t.jobs[j] == s.jobs[j] && AllDone(t, j)
  {
    hide ScriptDocId;
    hide IndexId;
    hide Answers;
    var t := Apply(s, a);
    if WritesStatus(a) {
      assert s.workers[a.w].job != j;
    }
    forall w | w in t.workers && t.workers[w].job == j
      ensures t.workers[w].place.Done?
    {
      assert w in s.workers && s.workers[w].job == j;
    }
  }

  lemma {:induction false} ContinuationKeepsStranded(t: World, more: seq<Action>, u: World, j: Uuid)
    requires Steps(t, more, u) && Undisturbed(more, j) && j in t.jobs && AllDone(t, j)
    ensures j in u.jobs && u.jobs[j] == t.jobs[j] && AllDone(u, j)
  {
    hide AllDone;
    hide Enabled;
    hide Apply;
    if more != [] {
      var last := |more| - 1;
      var m :| Steps(t, more[..last], m) && Enabled(m, more[last]) && u == Apply(m, more[last]);
      assert forall i :: 0 <= i < last ==> more[..last][i] == more[i];
      ContinuationKeepsStranded(t, more[..last], m, j);
      StepKeepsStranded(m, more[last], j);
    }
  }

  lemma {:induction false} StartNow(t: World, j: Uuid, w: nat) returns (more: seq<Action>, u: World)
    requires j in t.jobs && w in t.workers && t.workers[w].job == j && t.workers[w].place.Starting?
    ensures Steps(t, more, u) && more == [MarkProcessing(w, 0)] && UnderWay(u, j, w) && j in u.jobs
  {
    hide Steps;
    NoSteps(t);
    Then(t, [], t, MarkProcessing(w, 0));
    more, u := [] + [MarkProcessing(w, 0)], Apply(t, MarkProcessing(w, 0));
  }

  /** A worker that is not done can end its job. */
  lemma {:induction false} CanEnd(t: World, j: Uuid, w: nat) returns (more: seq<Action>, u: World)
    requires j in t.jobs && w in t.workers && t.workers[w].job == j && !t.workers[w].place.Done?
    ensures Steps(t, more, u) && Undisturbed(more, j) && j in u.jobs && u.jobs[j].status == Failed
  {
    hide Steps;
    hide Apply;
    hide Enabled;
    if t.workers[w].place.Starting? {
      var first, m := StartNow(t, j, w);
      var rest;
      rest, u := CanFail(m, j, w);
      StepsTwice(t, first, m, rest, u);
      more := first + rest;
    } else {
      more, u := CanFail(t, j, w);
    }
  }

  /** When a job is stranded. A PROCESSING job whose message is not delivered again
      and that nobody cancels can still end, if and only if some worker of it is
      not done; otherwise its row never changes. */
  lemma {:induction false} StrandedIff(t: World, j: Uuid)
    requires j in t.jobs && t.jobs[j].status == Processing
    ensures (exists more, u :: Steps(t, more, u) && Undisturbed(more, j) && j in u.jobs && u.jobs[j].status in {Completed, Failed})
       <==> exists w :: w in t.workers && t.workers[w].job == j && t.workers[w].place != Done
    ensures (forall w :: w in t.workers && t.workers[w].job == j ==> t.workers[w].place == Done) ==>
              forall more, u :: Steps(t, more, u) && Undisturbed(more, j) ==> j in u.jobs && u.jobs[j] == t.jobs[j]
  {
    hide Apply;
    hide Enabled;
    if w :| w in t.workers && t.workers[w].job == j && t.workers[w].place != Done {
      var more, u := CanEnd(t, j, w);
      assert Steps(t, more, u) && Undisturbed(more, j) && u.jobs[j].status in {Completed, Failed};
    } else {
      forall more, u | Steps(t, more, u) && Undisturbed(more, j)
        ensures j in u.jobs && u.jobs[j] == t.jobs[j]
      {
        ContinuationKeepsStranded(t, more, u, j);
      }
    }
  }

  /** Crashes alone can strand any job as it stands. */
  lemma {:induction false} CrashesStrand(t: World, j: Uuid, left: set<nat>) returns (more: seq<Action>, u: World)
    requires forall w :: w in t.workers && t.workers[w].job == j && t.workers[w].place != Done ==> w in left
    ensures Steps(t, more, u) && Undisturbed(more, j) && u.jobs == t.jobs
    ensures forall w :: w in u.workers && u.workers[w].job == j ==> u.workers[w].place == Done
    decreases left
  {
    hide Steps;
    NoSteps(t);
    if w :| w in t.workers && t.workers[w].job == j && t.workers[w].place != Done {
      var m := Apply(t, Crash(w));
      Then(t, [], t, Crash(w));
      var rest;
      rest, u := CrashesStrand(m, j, left - {w});
      StepsTwice(t, [] + [Crash(w)], m, rest, u);
      more := [] + [Crash(w)] + rest;
    } else {
      more, u := [], t;
    }
  }

  /** What a worker does from a point on, one requirement after the other. */
  lemma {:induction false} CanSkipAll(t: World, w: nat, todo: seq<Uuid>) returns (more: seq<Action>, u: World)
    requires w in t.workers && t.workers[w].place.AtRequirement? && t.workers[w].todo == todo
    ensures Steps(t, more, u) && forall i :: 0 <= i < |more| ==> more[i] == Skip(w)
    ensures u == t.(workers := t.workers[w := t.workers[w].(todo := [])])
    decreases |todo|
  {
    hide Steps;
    NoSteps(t);
    if todo == [] {
      more, u := [], t;
      assert t.workers[w := t.workers[w].(todo := [])] == t.workers;
    } else {
      var m := Apply(t, Skip(w));
      Then(t, [], t, Skip(w));
      var rest;
      rest, u := CanSkipAll(m, w, todo[1..]);
      StepsTwice(t, [] + [Skip(w)], m, rest, u);
      more := [] + [Skip(w)] + rest;
      assert u.workers == t.workers[w := t.workers[w].(todo := [])];
    }
  }

  /** A worker that has set out can complete the job. */
  lemma {:induction false} CanComplete(t: World, j: Uuid, w: nat) returns (more: seq<Action>, u: World)
    requires j in t.jobs && w in t.workers && t.workers[w].job == j && t.workers[w].place.AtRequirement?
    ensures Steps(t, more, u) && j in u.jobs && u.jobs[j].status == Completed
  {
    hide Steps;
    var first, m := CanSkipAll(t, w, t.workers[w].todo);
    Then(t, first, m, Index(w));
    var m1 := Apply(m, Index(w));
    Then(t, first + [Index(w)], m1, Complete(w, 0));
    more, u := first + [Index(w)] + [Complete(w, 0)], Apply(m1, Complete(w, 0));
  }

  ghost predicate CanReach(t: World, j: Uuid, status: Status) {
    exists more, u :: Steps(t, more, u) && j in u.jobs && u.jobs[j].status == status
  }

  lemma {:induction false} CanStart(t: World, j: Uuid, w: nat) returns (more: seq<Action>, u: World)
    requires j in t.jobs && j in t.published && w !in t.workers
    ensures Steps(t, more, u) && j in u.jobs && u.jobs[j].status == Processing
    ensures w in u.workers && u.workers[w].job == j && u.workers[w].place.Loading?
  {
    hide Steps;
    NoSteps(t);
    var m := Apply(t, Deliver(w, j));
    Then(t, [], t, Deliver(w, j));
    Then(t, [] + [Deliver(w, j)], m, MarkProcessing(w, 0));
    more, u := [] + [Deliver(w, j)] + [MarkProcessing(w, 0)], Apply(m, MarkProcessing(w, 0));
  }

  /** A further delivery revives any job: it can be running, or failed, again. */
  lemma {:induction false} DeliveryRevives(t: World, j: Uuid)
    requires j in t.jobs && j in t.published
    ensures CanReach(t, j, Processing) && CanReach(t, j, Failed)
  {
    var w := Unused(t.workers.Keys);
    var first, m := CanStart(t, j, w);
    var rest, u := CanFail(m, j, w);
    StepsTwice(t, first, m, rest, u);
    assert Steps(t, first, m) && m.jobs[j].status == Processing;
    assert Steps(t, first + rest, u) && u.jobs[j].status == Failed;
  }

  ghost predicate EarlyWorker(s: World, j: Uuid, w: nat) {
    w in s.workers && s.workers[w].job == j ==> s.workers[w].place in {Starting, Loading, Failing, Done}
  }

  /** A job that asks for nothing stored is not completed, and no worker of it
      gets past its query. */
  ghost predicate Idle(s: World, j: Uuid) {
    Requirements(s, j) == {} ==>
      && (j in s.jobs ==> s.jobs[j].status != Completed)
      && forall w :: EarlyWorker(s, j, w)
  }

  lemma {:induction false} StepKeepsEarly(s: World, a: Action, j: Uuid, w: nat)
    requires Enabled(s, a) && EarlyWorker(s, j, w) && Requirements(s, j) == {}
    ensures EarlyWorker(Apply(s, a), j, w)
  {
    hide Requirements;
    hide ScriptDocId;
    hide IndexId;
    hide Answers;
    hide UpdateStatus;
    if a.Load? {
      LoadIsAsked(s, a.w, a.found);
      assert a.found != [] ==> a.found[0] in a.found;
    }
  }

  lemma {:induction false} StepKeepsIdle(s: World, a: Action, j: Uuid)
    requires Enabled(s, a) && Idle(s, j)
    ensures Idle(Apply(s, a), j)
  {
    hide Requirements;
    hide ScriptDocId;
    hide IndexId;
    hide Answers;
    var t := Apply(s, a);
    RequirementsStay(s, a, j);
    if Requirements(t, j) == {} {
      assert a.Complete? ==> EarlyWorker(s, j, a.w);
      forall w
        ensures EarlyWorker(t, j, w)
      {
        assert EarlyWorker(s, j, w);
        StepKeepsEarly(s, a, j, w);
      }
    }
  }

  lemma {:induction false} RunKeepsIdle(s: World, run: seq<Action>, t: World, j: Uuid)
    requires Initial(s) && Steps(s, run, t)
    ensures Idle(t, j)
  {
    hide Requirements;
    if run != [] {
      hide Idle;
      var last := |run| - 1;
      var m :| Steps(s, run[..last], m) && Enabled(m, run[last]) && t == Apply(m, run[last]);
      RunKeepsIdle(s, run[..last], m, j);
      StepKeepsIdle(m, run[last], j);
    }
  }

  lemma {:induction false} QueryAnswer(t: World, j: Uuid) returns (found: seq<Uuid>)
    requires j in t.jobs && Requirements(t, j) != {}
    ensures Answers(t.jobs[j], t.processed, found) && found != []
  {
    found := Listing(Requirements(t, j));
    var r :| r in Requirements(t, j);
    assert r in found;
  }

  /** From any reachable state a job can still become completed, whatever its
      status, if and only if it asks for some stored requirement. */
  lemma {:induction false} CanCompleteIff(s: World, run: seq<Action>, t: World, j: Uuid)
    requires Initial(s) && Steps(s, run, t) && j in t.jobs
    ensures CanReach(t, j, Completed) <==> Requirements(t, j) != {}
  {
    hide Apply;
    hide Requirements;
    if Requirements(t, j) != {} {
      WorkersArePublished(s, run, t);
      var w := Unused(t.workers.Keys);
      var found := QueryAnswer(t, j);
      var start, v := AnotherDelivery(t, j, w, found);
      ContinuationKeepsRequirements(t, start, v, j);
      var finish, x := CanComplete(v, j, w);
      StepsTwice(t, start, v, finish, x);
      assert Steps(t, start + finish, x) && x.jobs[j].status == Completed;
    } else if CanReach(t, j, Completed) {
      var more, u :| Steps(t, more, u) && j in u.jobs && u.jobs[j].status == Completed;
      StepsTwice(s, run, t, more, u);
      RunKeepsIdle(s, run + more, u, j);
      ContinuationKeepsRequirements(t, more, u, j);
    }
  }

  // ---------------------------------------------------------------------
  // Runs without a miss
  // ---------------------------------------------------------------------

  /** The guard of `_update_job_status`, at the moment a PROCESSING update is made. */
  predicate FindsRow(s: World, a: Action) {
    a.MarkProcessing? ==> a.w in s.workers && s.workers[a.w].job in s.jobs
  }

  /** A run in which every PROCESSING update finds its row. */
  ghost predicate PromptSteps(s: World, run: seq<Action>, t: World) {
    if run == [] then s == t
    else
      var last := |run| - 1;
      exists m :: PromptSteps(s, run[..last], m) && Enabled(m, run[last]) && FindsRow(m, run[last]) && t == Apply(m, run[last])
  }

  ghost predicate Begun(s: World, j: Uuid) {
    if j in s.jobs then !AtRisk(s, j) else forall w :: !UnderWay(s, j, w)
  }

  lemma {:induction false} PromptStepKeepsBegun(s: World, a: Action, j: Uuid)
    requires Begun(s, j) && Enabled(s, a) && FindsRow(s, a)
    ensures Begun(Apply(s, a), j)
  {
    hide ScriptDocId;
    hide IndexId;
    var t := Apply(s, a);
    if j in s.jobs {
      StepKeepsSafe(s, a, j);
    } else {
      forall w
        ensures !UnderWay(t, j, w)
      {
        assert !UnderWay(s, j, w);
      }
    }
  }

  lemma {:induction false} PromptKeepsBegun(s: World, run: seq<Action>, t: World, j: Uuid)
    requires Initial(s) && PromptSteps(s, run, t)
    ensures Begun(t, j)
  {
    if run != [] {
      var last := |run| - 1;
      var m :| PromptSteps(s, run[..last], m) && Enabled(m, run[last]) && FindsRow(m, run[last]) && t == Apply(m, run[last]);
      PromptKeepsBegun(s, run[..last], m, j);
      PromptStepKeepsBegun(m, run[last], j);
    }
  }

  /** If every PROCESSING update finds its row, every completed or failed job
      has a start time. */
  lemma PromptJobsAreStarted(s: World, run: seq<Action>, t: World, j: Uuid)
    requires Initial(s) && PromptSteps(s, run, t)
    requires j in t.jobs && t.jobs[j].status in {Completed, Failed}
    ensures t.jobs[j].startedAt.Some?
  {
    PromptKeepsBegun(s, run, t, j);
  }

  // ---------------------------------------------------------------------
  // The handler itself, undisturbed
  // ---------------------------------------------------------------------

  /** How one requirement fares; the last four raise out of the loop. */
  datatype Outcome = Untestable | NoCases | NoScripts | Generated | GenerationRaises | StoreRaises | RowRaises | MarkRaises

  function NewScript(job: Uuid, req: Uuid, o: Outcome): seq<string> {
    if o.Generated? then [ScriptDocId(job, req)] else []
  }

  /** The script ids a loop over `reqs` collects when nothing raises. */
  function ScriptIds(job: Uuid, reqs: seq<Uuid>, outcomes: seq<Outcome>): seq<string>
    requires |reqs| == |outcomes|
  {
    if reqs == [] then []
    else
      var last := |reqs| - 1;
      ScriptIds(job, reqs[..last], outcomes[..last]) + NewScript(job, reqs[last], outcomes[last])
  }

  predicate Raises(o: Outcome) {
    o.GenerationRaises? || o.StoreRaises? || o.RowRaises? || o.MarkRaises?
  }

  datatype CancelReply = NotFound | Refused | Accepted

  const NOTHING_FOUND := "No requirements found for the given IDs."

  predicate AnyRaises(outcomes: seq<Outcome>) {
    exists i :: 0 <= i < |outcomes| && Raises(outcomes[i])
  }

  /** The stores without the job rows. */
  datatype Stores = Stores(docs: map<string, Doc>, rows: seq<ScriptRow>, processed: map<Uuid, bool>)

  /** What one requirement leaves in the stores, by how it fares. */
  function Treat(s: Stores, job: Uuid, req: Uuid, o: Outcome): Stores {
    var id := ScriptDocId(job, req);
    var docs := s.docs[id := ScriptDoc(job, req)];
    var rows := s.rows + [ScriptRow(req, job, id)];
    match o
    case RowRaises => s.(docs := docs)
    case MarkRaises => s.(docs := docs, rows := rows)
    case Generated => Stores(docs, rows, if req in s.processed then s.processed[req := true] else s.processed)
    case _ => s
  }

  /** What a loop over `reqs` leaves; the first outcome that raises ends it. */
  function TreatAll(s: Stores, job: Uuid, reqs: seq<Uuid>, outcomes: seq<Outcome>): Stores
    requires |reqs| == |outcomes|
  {
    if reqs == [] then s
    else
      var last := |reqs| - 1;
      var before := TreatAll(s, job, reqs[..last], outcomes[..last]);
      if AnyRaises(outcomes[..last]) then before else Treat(before, job, reqs[last], outcomes[last])
  }

  lemma {:induction false} RaisesEarly(s: Stores, job: Uuid, reqs: seq<Uuid>, outcomes: seq<Outcome>, n: nat)
    requires |reqs| == |outcomes| && n <= |reqs| && AnyRaises(outcomes[..n])
    ensures TreatAll(s, job, reqs, outcomes) == TreatAll(s, job, reqs[..n], outcomes[..n])
  {
    if n < |reqs| {
      var last := |reqs| - 1;
      assert reqs[..last][..n] == reqs[..n] && outcomes[..last][..n] == outcomes[..n];
      var i :| 0 <= i < n && Raises(outcomes[..n][i]);
      assert outcomes[..last][i] == outcomes[..n][i];
      RaisesEarly(s, job, reqs[..last], outcomes[..last], n);
    } else {
      assert reqs[..n] == reqs && outcomes[..n] == outcomes;
    }
  }

  function GeneratedAt(outcomes: seq<Outcome>): set<nat> {
    set i: nat | i < |outcomes| && outcomes[i].Generated?
  }

  lemma LastGenerated(outcomes: seq<Outcome>)
    requires outcomes != []
    ensures var last := |outcomes| - 1;
      && GeneratedAt(outcomes) == GeneratedAt(outcomes[..last]) + (if outcomes[last].Generated? then {last} else {})
      && last !in GeneratedAt(outcomes[..last])
  {
    assert forall i :: 0 <= i < |outcomes| - 1 ==> outcomes[..|outcomes| - 1][i] == outcomes[i];
  }

  lemma NoneGenerated()
    ensures GeneratedAt([]) == {}
  {
  }

  lemma {:induction false} AsManyIds(job: Uuid, reqs: seq<Uuid>, outcomes: seq<Outcome>)
    requires |reqs| == |outcomes|
    ensures |ScriptIds(job, reqs, outcomes)| == |GeneratedAt(outcomes)|
  {
    hide ScriptDocId;
    hide GeneratedAt;
    if reqs == [] {
      NoneGenerated();
    } else {
      var last := |reqs| - 1;
      AsManyIds(job, reqs[..last], outcomes[..last]);
      LastGenerated(outcomes);
    }
  }

  /** The ids are those of the generated requirements, in their order. */
  lemma {:induction false} ScriptIdAt(job: Uuid, reqs: seq<Uuid>, outcomes: seq<Outcome>, i: nat)
    requires |reqs| == |outcomes| && i < |reqs| && outcomes[i].Generated?
    ensures var k := |GeneratedAt(outcomes[..i])|;
      k < |ScriptIds(job, reqs, outcomes)| && ScriptIds(job, reqs, outcomes)[k] == ScriptDocId(job, reqs[i])
  {
    hide ScriptDocId;
    hide GeneratedAt;
    var last := |reqs| - 1;
    if i < last {
      assert outcomes[..last][..i] == outcomes[..i];
      ScriptIdAt(job, reqs[..last], outcomes[..last], i);
    } else {
      AsManyIds(job, reqs[..last], outcomes[..last]);
    }
  }

  /** How far one requirement gets: its document, its row and its mark are
      written in this order, and an exception leaves what was written before it. */
  lemma TreatOne(s: Stores, job: Uuid, req: Uuid, o: Outcome)
    ensures var t, id := Treat(s, job, req, o), ScriptDocId(job, req);
      && t.docs == s.docs + (if o in {Generated, RowRaises, MarkRaises} then map[id := ScriptDoc(job, req)] else map[])
      && t.rows == s.rows + (if o in {Generated, MarkRaises} then [ScriptRow(req, job, id)] else [])
      && t.processed.Keys == s.processed.Keys
      && forall r :: r in s.processed ==> (t.processed[r] <==> s.processed[r] || (o.Generated? && r == req))
  {
  }

  lemma TreatLast(s: Stores, job: Uuid, reqs: seq<Uuid>, outcomes: seq<Outcome>)
    requires |reqs| == |outcomes| && reqs != [] && !AnyRaises(outcomes)
    ensures var last := |reqs| - 1;
      && !AnyRaises(outcomes[..last]) && !Raises(outcomes[last])
      && TreatAll(s, job, reqs, outcomes) == Treat(TreatAll(s, job, reqs[..last], outcomes[..last]), job, reqs[last], outcomes[last])
  {
    var last := |reqs| - 1;
    assert forall i :: 0 <= i < last ==> outcomes[..last][i] == outcomes[i];
  }

  /** The rows a loop over `reqs` adds when nothing raises. */
  function RowsFor(job: Uuid, reqs: seq<Uuid>, outcomes: seq<Outcome>): seq<ScriptRow>
    requires |reqs| == |outcomes|
  {
    if reqs == [] then []
    else
      var last := |reqs| - 1;
      RowsFor(job, reqs[..last], outcomes[..last])
      + if outcomes[last].Generated? then [ScriptRow(reqs[last], job, ScriptDocId(job, reqs[last]))] else []
  }

  lemma {:induction false} TreatedRows(s: Stores, job: Uuid, reqs: seq<Uuid>, outcomes: seq<Outcome>)
    requires |reqs| == |outcomes| && !AnyRaises(outcomes)
    ensures TreatAll(s, job, reqs, outcomes).rows == s.rows + RowsFor(job, reqs, outcomes)
  {
    hide ScriptDocId;
    hide Treat;
    hide AnyRaises;
    if reqs == [] {
      assert s.rows + [] == s.rows;
    } else {
      var last := |reqs| - 1;
      TreatLast(s, job, reqs, outcomes);
      TreatOne(TreatAll(s, job, reqs[..last], outcomes[..last]), job, reqs[last], outcomes[last]);
      TreatedRows(s, job, reqs[..last], outcomes[..last]);
    }
  }

  lemma {:induction false} RowForEach(job: Uuid, reqs: seq<Uuid>, outcomes: seq<Outcome>)
    requires |reqs| == |outcomes|
    ensures forall i :: 0 <= i < |reqs| && outcomes[i].Generated? ==>
              ScriptRow(reqs[i], job, ScriptDocId(job, reqs[i])) in RowsFor(job, reqs, outcomes)
  {
    hide ScriptDocId;
    if reqs != [] {
      var last := |reqs| - 1;
      RowForEach(job, reqs[..last], outcomes[..last]);
      assert forall i :: 0 <= i < last ==> reqs[..last][i] == reqs[i] && outcomes[..last][i] == outcomes[i];
    }
  }

  lemma {:induction false} AsManyRows(job: Uuid, reqs: seq<Uuid>, outcomes: seq<Outcome>)
    requires |reqs| == |outcomes|
    ensures |RowsFor(job, reqs, outcomes)| == |GeneratedAt(outcomes)|
  {
    hide ScriptDocId;
    if reqs == [] {
      assert GeneratedAt(outcomes) == {};
    } else {
      var last := |reqs| - 1;
      AsManyRows(job, reqs[..last], outcomes[..last]);
      assert forall i :: 0 <= i < last ==> outcomes[..last][i] == outcomes[i];
      assert GeneratedAt(outcomes) == GeneratedAt(outcomes[..last]) + if outcomes[last].Generated? then {last} else {};
    }
  }

  predicate GeneratedFor(reqs: seq<Uuid>, outcomes: seq<Outcome>, r: Uuid)
    requires |reqs| == |outcomes|
  {
    exists i :: 0 <= i < |reqs| && outcomes[i].Generated? && reqs[i] == r
  }

  lemma {:induction false} TreatedFlags(s: Stores, job: Uuid, reqs: seq<Uuid>, outcomes: seq<Outcome>, r: Uuid)
    requires |reqs| == |outcomes| && !AnyRaises(outcomes)
    ensures var t := TreatAll(s, job, reqs, outcomes);
      && t.processed.Keys == s.processed.Keys
      && (r in s.processed ==> (t.processed[r] <==> s.processed[r] || GeneratedFor(reqs, outcomes, r)))
  {
    hide ScriptDocId;
    hide Treat;
    hide AnyRaises;
    hide Raises;
    if reqs != [] {
      var last := |reqs| - 1;
      TreatLast(s, job, reqs, outcomes);
      hide TreatAll;
      TreatOne(TreatAll(s, job, reqs[..last], outcomes[..last]), job, reqs[last], outcomes[last]);
      TreatedFlags(s, job, reqs[..last], outcomes[..last], r);
      assert forall i :: 0 <= i < last ==> reqs[..last][i] == reqs[i] && outcomes[..last][i] == outcomes[i];
    }
  }

  /** A loop that does not raise adds one row for each generated requirement, and
      processes these, if stored, and no others. */
  lemma {:induction false} TreatedAre(s: Stores, job: Uuid, reqs: seq<Uuid>, outcomes: seq<Outcome>)
    requires |reqs| == |outcomes| && !AnyRaises(outcomes)
    ensures var t := TreatAll(s, job, reqs, outcomes);
      && s.rows <= t.rows && |t.rows| == |s.rows| + |GeneratedAt(outcomes)|
      && (forall i :: 0 <= i < |reqs| && outcomes[i].Generated? ==>
            ScriptRow(reqs[i], job, ScriptDocId(job, reqs[i])) in t.rows[|s.rows|..])
      && t.processed.Keys == s.processed.Keys
      && (forall r :: r in s.processed ==>
            (t.processed[r] <==> s.processed[r] || exists i :: 0 <= i < |reqs| && outcomes[i].Generated? && reqs[i] == r))
  {
    hide TreatAll;
    hide RowsFor;
    hide ScriptDocId;
    TreatedRows(s, job, reqs, outcomes);
    RowForEach(job, reqs, outcomes);
    AsManyRows(job, reqs, outcomes);
    var rows := TreatAll(s, job, reqs, outcomes).rows;
    assert rows[|s.rows|..] == RowsFor(job, reqs, outcomes);
    forall r
      ensures var t := TreatAll(s, job, reqs, outcomes);
        && t.processed.Keys == s.processed.Keys
        && (r in s.processed ==> (t.processed[r] <==> s.processed[r] || GeneratedFor(reqs, outcomes, r)))
    {
      TreatedFlags(s, job, reqs, outcomes, r);
    }
  }

  class Handler {
    var jobs: map<Uuid, Job>
    var docs: map<string, Doc>
    var rows: seq<ScriptRow>
    var processed: map<Uuid, bool>
    ghost var world: World
    ghost var run: seq<Action>

    constructor (requirements: map<Uuid, bool>, ghost start: World)
      requires Initial(start) && start.processed == requirements
      ensures world == start && run == [] && Valid(start)
    {
      jobs, docs, rows, processed := map[], map[], [], requirements;
      world, run := start, [];
    }

    /** The stores are those of `world`, which `run` reaches from `start`. */
    ghost predicate Valid(start: World)
      reads this
    {
      && world.jobs == jobs && world.docs == docs && world.rows == rows && world.processed == processed
      && Steps(start, run, world)
    }

    function Kept(): Stores
      reads this
    {
      Stores(docs, rows, processed)
    }

    /** Worker `w` is inside the part that catches exceptions. */
    ghost predicate InHand(w: nat, job: Uuid)
      reads this
    {
      w in world.workers && world.workers[w].job == job && world.workers[w].place !in {Starting, Failing, Done}
    }

    ghost method Take(a: Action, start: World)
      requires Steps(start, run, world) && Enabled(world, a)
      modifies this`world, this`run
      ensures world == Apply(old(world), a) && run == old(run) + [a] && Steps(start, run, world)
    {
      Then(start, run, world, a);
      world := Apply(world, a);
      run := run + [a];
    }

    method UpdateJobStatus(job: Uuid, status: Status, resultId: Option<string>, error: Option<string>, now: nat)
      modifies this`jobs
      ensures jobs == UpdateStatus(old(jobs), job, status, resultId, error, now)
      ensures job !in old(jobs) ==> jobs == old(jobs)
      ensures job in old(jobs) ==>
                && jobs.Keys == old(jobs.Keys) && (forall j :: j in jobs && j != job ==> jobs[j] == old(jobs[j]))
                && jobs[job].status == status && jobs[job].requirementIds == old(jobs[job].requirementIds)
                && jobs[job].startedAt == (if status == Processing then Some(now) else old(jobs[job].startedAt))
                && jobs[job].completedAt == (if status == Processing then None else Some(now))
                && jobs[job].resultId == (if resultId in {None, Some("")} then old(jobs[job].resultId) else resultId)
                && jobs[job].error == (if error in {None, Some("")} then old(jobs[job].error) else error)
    {
      if job in jobs {
        var row := jobs[job].(status := status, completedAt := Some(now));
        if resultId.Some? && resultId.value != "" {
          row := row.(resultId := resultId);
        }
        if error.Some? && error.value != "" {
          row := row.(error := error);
        }
        if status == Processing {
          row := row.(startedAt := Some(now), completedAt := None);
        }
        jobs := jobs[job := row];
      }
    }

    /** The request that cancels a job; a job that has finished is left alone. */
    method CancelJob(job: Uuid, now: nat, ghost start: World) returns (reply: CancelReply)
      requires Valid(start)
      modifies this
      ensures Valid(start) && old(run) <= run && Kept() == old(Kept())
      ensures reply.NotFound? <==> job !in old(jobs)
      ensures reply.Accepted? <==> job in old(jobs) && old(jobs[job].status) in {Pending, Processing}
      ensures !reply.Accepted? ==> jobs == old(jobs)
      ensures reply.Accepted? ==>
                jobs == old(jobs)[job := old(jobs[job]).(status := Cancelled, completedAt := Some(now))]
    {
      hide Steps;
      if job !in jobs {
        return NotFound;
      }
      if !Cancellable(jobs[job]) {
        return Refused;
      }
      jobs := jobs[job := jobs[job].(status := Cancelled, completedAt := Some(now))];
      Take(Cancel(job, now), start);
      return Accepted;
    }

    method StoreTestScript(job: Uuid, req: Uuid, ghost w: nat, ghost start: World) returns (docId: string)
      requires Valid(start) && Enabled(world, Store(w)) && world.workers[w].job == job && world.workers[w].todo[0] == req
      modifies this
      ensures Valid(start) && old(run) <= run && world == Apply(old(world), Store(w)) && docId == ScriptDocId(job, req)
      ensures jobs == old(jobs) && Kept() == old(Kept()).(docs := old(docs)[docId := ScriptDoc(job, req)])
    {
      hide Steps;
      docId := ScriptDocId(job, req);
      docs := docs[docId := ScriptDoc(job, req)];
      Take(Store(w), start);
    }

    method CreateTestScriptRow(job: Uuid, req: Uuid, docId: string, ghost w: nat, ghost start: World)
      requires Valid(start) && Enabled(world, CreateRow(w)) && world.workers[w].job == job && world.workers[w].todo[0] == req
      requires docId == ScriptDocId(job, req)
      modifies this
      ensures Valid(start) && old(run) <= run && world == Apply(old(world), CreateRow(w))
      ensures jobs == old(jobs) && Kept() == old(Kept()).(rows := old(rows) + [ScriptRow(req, job, docId)])
    {
      hide Steps;
      rows := rows + [ScriptRow(req, job, docId)];
      Take(CreateRow(w), start);
    }

    method MarkRequirementProcessed(req: Uuid, ghost w: nat, ghost start: World)
      requires Valid(start) && Enabled(world, MarkRequirement(w)) && world.workers[w].todo[0] == req
      modifies this
      ensures Valid(start) && old(run) <= run && world == Apply(old(world), MarkRequirement(w))
      ensures jobs == old(jobs) && docs == old(docs) && rows == old(rows)
      ensures processed == if req in old(processed) then old(processed)[req := true] else old(processed)
    {
      hide Steps;
      if req in processed {
        processed := processed[req := true];
      }
      Take(MarkRequirement(w), start);
    }

    /** Writes the document, the row and the requirement status of one
        generated requirement, stopping where the outcome says so. */
    method StoreScript(job: Uuid, req: Uuid, outcome: Outcome, ghost w: nat, ghost start: World) returns (raised: bool)
      requires Valid(start) && At(world, w, AtRequirement) && world.workers[w].job == job
      requires world.workers[w].todo != [] && world.workers[w].todo[0] == req
      requires outcome.Generated? || outcome.StoreRaises? || outcome.RowRaises? || outcome.MarkRaises?
      modifies this
      ensures Valid(start) && jobs == old(jobs) && raised == !outcome.Generated?
      ensures var k := old(world.workers[w]);
        !raised ==> At(world, w, AtRequirement)
                    && world.workers[w] == Worker(job, AtRequirement, k.todo[1..], k.scripts + [ScriptDocId(job, req)])
      ensures raised ==> InHand(w, job)
      ensures old(run) <= run && Kept() == Treat(old(Kept()), job, req, outcome)
    {
      hide Steps;
      if outcome.StoreRaises? {
        return true;
      }
      var docId := StoreTestScript(job, req, w, start);
      if outcome.RowRaises? {
        return true;
      }
      CreateTestScriptRow(job, req, docId, w, start);
      if outcome.MarkRaises? {
        return true;
      }
      MarkRequirementProcessed(req, w, start);
      return false;
    }

    /** The body of the loop over the requirements. */
    method GenerateOne(job: Uuid, req: Uuid, outcome: Outcome, ghost w: nat, ghost start: World) returns (raised: bool)
      requires Valid(start) && At(world, w, AtRequirement) && world.workers[w].job == job
      requires world.workers[w].todo != [] && world.workers[w].todo[0] == req
      modifies this
      ensures Valid(start) && jobs == old(jobs) && old(run) <= run && raised == Raises(outcome)
      ensures Kept() == Treat(old(Kept()), job, req, outcome)
      ensures var k := old(world.workers[w]);
        !raised ==> At(world, w, AtRequirement) && world.workers[w] == Worker(job, AtRequirement, k.todo[1..], k.scripts + NewScript(job, req, outcome))
      ensures raised ==> InHand(w, job)
    {
      hide Steps;
      if outcome.GenerationRaises? {
        return true;
      }
      if Raises(outcome) || outcome.Generated? {
        raised := StoreScript(job, req, outcome, w, start);
      } else {
        ghost var scripts := world.workers[w].scripts;
        assert scripts + [] == scripts;
        Take(Skip(w), start);
        return false;
      }
    }

    /** The loop over the requirements. */
    method GenerateAll(job: Uuid, found: seq<Uuid>, outcomes: seq<Outcome>, ghost w: nat, ghost start: World)
      returns (raised: bool, scripts: seq<string>)
      requires Valid(start) && |outcomes| == |found|
      requires w in world.workers && world.workers[w] == Worker(job, AtRequirement, found, [])
      modifies this
      ensures Valid(start) && jobs == old(jobs) && old(run) <= run
      ensures Kept() == TreatAll(old(Kept()), job, found, outcomes)
      ensures raised <==> AnyRaises(outcomes)
      ensures !raised ==> scripts == ScriptIds(job, found, outcomes)
      ensures !raised ==> w in world.workers && world.workers[w] == Worker(job, AtRequirement, [], scripts)
      ensures raised ==> InHand(w, job)
    {
      hide Steps;
      hide Treat;
      hide Raises;
      hide ScriptDocId;
      scripts := [];
      for i := 0 to |found|
        invariant Valid(start) && jobs == old(jobs) && old(run) <= run
        invariant !AnyRaises(outcomes[..i])
        invariant Kept() == TreatAll(old(Kept()), job, found[..i], outcomes[..i])
        invariant scripts == ScriptIds(job, found[..i], outcomes[..i])
        invariant w in world.workers && world.workers[w] == Worker(job, AtRequirement, found[i..], scripts)
      {
        assert found[..i + 1][..i] == found[..i] && outcomes[..i + 1][..i] == outcomes[..i];
        assert found[i..][0] == found[i] && found[i..][1..] == found[i + 1..];
        var stop := GenerateOne(job, found[i], outcomes[i], w, start);
        if stop {
          assert Raises(outcomes[..i + 1][i]);
          RaisesEarly(old(Kept()), job, found, outcomes, i + 1);
          return true, scripts;
        }
        scripts := scripts + NewScript(job, found[i], outcomes[i]);
      }
      assert found[..|found|] == found && outcomes[..|outcomes|] == outcomes;
      return false, scripts;
    }

    /** Handles one message; `found` is what the requirement query returns. A
        normal return with requirements leaves the job completed, its index
        listing exactly the generated scripts, in order, one new row for each of
        them, and their requirements processed and no others. */
    method HandleAiJob(job: Uuid, found: seq<Uuid>, outcomes: seq<Outcome>, indexRaises: bool, error: string, now: nat,
                       ghost w: nat, ghost start: World)
      returns (raised: bool)
      requires Valid(start) && At(world, w, Starting) && world.workers[w].job == job
      requires job in jobs ==> Answers(jobs[job], processed, found)
      requires |outcomes| == |found|
      modifies this
      ensures Valid(start) && At(world, w, Done) && old(run) <= run
      ensures raised <==> job !in old(jobs) || (found != [] && (indexRaises || AnyRaises(outcomes)))
      ensures jobs.Keys == old(jobs.Keys)
      ensures job in jobs && (raised || found == []) ==> jobs[job].status == Failed
      ensures !raised && found != [] ==>
                && jobs[job].status == Completed && jobs[job].resultId == Some(IndexId(job))
                && IndexId(job) in docs && docs[IndexId(job)] == IndexDoc(job, ScriptIds(job, found, outcomes))
      ensures job !in old(jobs) ==> jobs == old(jobs) && Kept() == old(Kept())
      ensures job in jobs ==>
                && jobs[job].startedAt == Some(now) && jobs[job].completedAt == Some(now)
                && jobs[job].requirementIds == old(jobs[job].requirementIds)
                && (raised && error != "" ==> jobs[job].error == Some(error))
                && (found == [] ==> jobs[job].error == Some("No requirements found for the given IDs."))
                && (raised || found == [] ==> jobs[job].resultId == old(jobs[job].resultId))
      ensures forall j :: j in jobs && j != job ==> jobs[j] == old(jobs[j])
      ensures job in jobs ==> rows == TreatAll(old(Kept()), job, found, outcomes).rows
      ensures job in jobs ==> processed == TreatAll(old(Kept()), job, found, outcomes).processed
      ensures !raised ==>
                && old(rows) <= rows && |rows| == old(|rows|) + |GeneratedAt(outcomes)|
                && (forall i :: 0 <= i < |found| && outcomes[i].Generated? ==>
                      ScriptRow(found[i], job, ScriptDocId(job, found[i])) in rows[old(|rows|)..])
                && processed.Keys == old(processed.Keys)
                && (forall r :: r in processed ==>
                      (processed[r] <==> old(processed[r]) || exists i :: 0 <= i < |found| && outcomes[i].Generated? && found[i] == r))
    {
      hide Steps;
      hide TreatAll;
      hide Treat;
      StartJob(job, now, w, start);
      raised := true;
      if job in jobs {
        raised := TryJob(job, found, outcomes, indexRaises, now, w, start);
        if !AnyRaises(outcomes) {
          TreatedAre(old(Kept()), job, found, outcomes);
        }
      }
      if raised {
        FailJob(job, error, now, w, start);
      }
    }

    /** The guarded part: everything between the two status updates. */
    method TryJob(job: Uuid, found: seq<Uuid>, outcomes: seq<Outcome>, indexRaises: bool, now: nat, ghost w: nat, ghost start: World)
      returns (raised: bool)
      requires Valid(start) && Enabled(world, Load(w, found)) && world.workers[w].job == job
      requires |outcomes| == |found|
      modifies this
      ensures Valid(start) && old(run) <= run && jobs.Keys == old(jobs.Keys)
      ensures raised <==> found != [] && (indexRaises || AnyRaises(outcomes))
      ensures Kept().(docs := old(docs)) == TreatAll(old(Kept()), job, found, outcomes).(docs := old(docs))
      ensures docs == if raised || found == [] then TreatAll(old(Kept()), job, found, outcomes).docs
                      else TreatAll(old(Kept()), job, found, outcomes).docs[IndexId(job) := IndexDoc(job, ScriptIds(job, found, outcomes))]
      ensures jobs == if raised then old(jobs)
                      else if found == [] then UpdateStatus(old(jobs), job, Failed, None, Some(NOTHING_FOUND), now)
                      else UpdateStatus(old(jobs), job, Completed, Some(IndexId(job)), None, now)
      ensures if raised then InHand(w, job) else At(world, w, Done)
      ensures !raised && found == [] ==> jobs[job].status == Failed
      ensures !raised && found != [] ==>
                && jobs[job].status == Completed && jobs[job].resultId == Some(IndexId(job))
                && IndexId(job) in docs && docs[IndexId(job)] == IndexDoc(job, ScriptIds(job, found, outcomes))
    {
      hide Steps;
      Take(Load(w, found), start);
      if found == [] {
        ReportNothingFound(job, now, w, start);
        return false;
      }
      var scripts;
      raised, scripts := GenerateAll(job, found, outcomes, w, start);
      raised := raised || indexRaises;
      if !raised {
        StoreResult(job, scripts, now, w, start);
      }
    }

    method StartJob(job: Uuid, now: nat, ghost w: nat, ghost start: World)
      requires Valid(start) && At(world, w, Starting) && world.workers[w].job == job
      modifies this
      ensures Valid(start) && old(run) <= run && Kept() == old(Kept())
      ensures jobs == UpdateStatus(old(jobs), job, Processing, None, None, now)
      ensures At(world, w, Loading) && world.workers[w].job == job
    {
      hide Steps;
      UpdateJobStatus(job, Processing, None, None, now);
      Take(MarkProcessing(w, now), start);
    }

    method ReportNothingFound(job: Uuid, now: nat, ghost w: nat, ghost start: World)
      requires Valid(start) && At(world, w, Failing) && world.workers[w].job == job
      modifies this
      ensures Valid(start) && old(run) <= run && At(world, w, Done) && Kept() == old(Kept())
      ensures jobs == UpdateStatus(old(jobs), job, Failed, None, Some(NOTHING_FOUND), now)
    {
      hide Steps;
      UpdateJobStatus(job, Failed, None, Some(NOTHING_FOUND), now);
      Take(Fail(w, NOTHING_FOUND, now), start);
    }

    /** Writes the index, then completes the job. */
    method StoreResult(job: Uuid, scripts: seq<string>, now: nat, ghost w: nat, ghost start: World)
      requires Valid(start) && w in world.workers && world.workers[w] == Worker(job, AtRequirement, [], scripts)
      requires job in jobs
      modifies this
      ensures Valid(start) && At(world, w, Done) && old(run) <= run
      ensures jobs == UpdateStatus(old(jobs), job, Completed, Some(IndexId(job)), None, now)
      ensures Kept() == old(Kept()).(docs := old(docs)[IndexId(job) := IndexDoc(job, scripts)])
    {
      hide Steps;
      StoreIndex(job, scripts, w, start);
      UpdateJobStatus(job, Completed, Some(IndexId(job)), None, now);
      Take(Complete(w, now), start);
    }

    method StoreIndex(job: Uuid, scripts: seq<string>, ghost w: nat, ghost start: World)
      requires Valid(start) && w in world.workers && world.workers[w] == Worker(job, AtRequirement, [], scripts)
      modifies this
      ensures Valid(start) && old(run) <= run && jobs == old(jobs)
      ensures Kept() == old(Kept()).(docs := old(docs)[IndexId(job) := IndexDoc(job, scripts)])
      ensures At(world, w, Completing) && world.workers[w].job == job
    {
      hide Steps;
      docs := docs[IndexId(job) := IndexDoc(job, scripts)];
      Take(Index(w), start);
    }

    /** The exception handler: record the failure, if the row is there. */
    method FailJob(job: Uuid, error: string, now: nat, ghost w: nat, ghost start: World)
      requires Valid(start) && InHand(w, job)
      modifies this
      ensures Valid(start) && At(world, w, Done) && old(run) <= run && Kept() == old(Kept())
      ensures jobs == UpdateStatus(old(jobs), job, Failed, None, Some(error), now)
    {
      hide Steps;
      Take(Raise(w), start);
      UpdateJobStatus(job, Failed, None, Some(error), now);
      Take(Fail(w, error, now), start);
    }
  }
}
