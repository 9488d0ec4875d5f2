/**
 The image generation worker (backend/image_studio/{adapter,job_runner,worker_runtime}.py). A
 delivery performs a sequence of durable effects; a crash cuts that sequence anywhere, and the
 job is delivered again from what was committed. Deliveries of one job do not overlap.
 */
module ImageJob {
  import opened Common
  import opened Decimal

  datatype Status = Queued | Submitted | Running | Ingesting | Succeeded | Blocked | Failed | Cancelled | TimedOut

  datatype ErrorCode =
    | SubmitFailed | SnapshotNotFound | ReconcileFailed | RuntimeBlocked | GenerationFailed
    | NoOutput | OutputMismatch | RetryableIngest

  datatype Job = Job(
    id: string, run: string, node: string, key: string,
    status: Status, item: Option<string>, batch: Option<string>, session: Option<string>,
    outputs: seq<string>, error: Option<ErrorCode>
  )

  datatype Submission = Submission(item: string, batch: Option<string>, session: Option<string>)

  datatype QueueStatus = QQueued | QRunning | QCompleted | QFailed | QCancelled | QBlocked

  datatype QueueState = QueueState(status: QueueStatus, names: seq<string>)

  /**
   What one delivery meets: whether the snapshot exists, belongs to the job and has a graph,
   the sidecar's answers (None for an exception), the asset made of each output (None when its
   import fails) and whether all stored assets can be loaded.
   */
  datatype Env = Env(
    snapshotFound: bool, scopeFits: bool, hasGraph: bool,
    submission: Option<Submission>, queue: Option<QueueState>,
    imports: nat -> Option<string>, assetsFound: bool
  )

  datatype Effect =
    | Enqueue(key: string)
    | Import(name: string, asset: string)
    | Commit(job: Job)
    | Poll(id: string)
    | Resume(run: string, node: string, assets: seq<string>)

  // ---------------------------------------------------------------------------
  // Sidecar answers
  // ---------------------------------------------------------------------------

  /** One entry of the sidecar's output list, reduced to its two places for a name. */
  datatype Output = Malformed | Output(direct: Option<string>, nested: Option<string>)

  function NameOf(o: Output): Option<string> {
    var candidate := if o.Malformed? then None else if o.direct.Some? then o.direct else o.nested;
    if candidate == Some("") then None else candidate
  }

  /** The name of an output is the direct one, or without a direct one the nested one; an empty one is none. */
  lemma NameIs(o: Output, name: string)
    ensures NameOf(o) == Some(name) <==>
      o.Output? && name != "" && (o.direct == Some(name) || (o.direct.None? && o.nested == Some(name)))
  {}

  /** The names are those of the outputs, each once. */
  ghost predicate NamesOf(outputs: seq<Output>, names: seq<string>) {
    Distinct(names) && forall n :: n in names <==> Named(outputs, n)
  }

  ghost predicate Named(outputs: seq<Output>, name: string) {
    exists i :: 0 <= i < |outputs| && NameOf(outputs[i]) == Some(name)
  }

  /** The index of the first output with that name. */
  function FirstNamed(outputs: seq<Output>, name: string): nat {
    if outputs == [] || NameOf(outputs[0]) == Some(name) then 0 else 1 + FirstNamed(outputs[1..], name)
  }

  lemma {:induction false} FirstNamedIsFirst(outputs: seq<Output>, name: string, i: nat)
    requires i < |outputs| && NameOf(outputs[i]) == Some(name)
    requires forall j :: 0 <= j < i ==> NameOf(outputs[j]) != Some(name)
    ensures FirstNamed(outputs, name) == i
  {
    if i > 0 {
      assert forall j :: 0 <= j < i - 1 ==> outputs[1..][j] == outputs[j + 1];
      FirstNamedIsFirst(outputs[1..], name, i - 1);
    }
  }

  /** _image_names: each name once, in the order of first mention. */
  method ImageNames(outputs: seq<Output>) returns (names: seq<string>)
    ensures NamesOf(outputs, names)
    ensures forall j, k :: 0 <= j < k < |names| ==> FirstNamed(outputs, names[j]) < FirstNamed(outputs, names[k])
  {
    names := [];
    for i := 0 to |outputs|
      invariant NamesOf(outputs[..i], names)
      invariant forall j :: 0 <= j < |names| ==> FirstNamed(outputs, names[j]) < i
      invariant forall j, k :: 0 <= j < k < |names| ==> FirstNamed(outputs, names[j]) < FirstNamed(outputs, names[k])
    {
      var name := NameOf(outputs[i]);
      assert forall n :: Named(outputs[..i + 1], n) <==> Named(outputs[..i], n) || name == Some(n) by {
        assert outputs[..i + 1] == outputs[..i] + [outputs[i]];
        assert outputs[..i + 1][i] == outputs[i];
        forall n | Named(outputs[..i], n)
          ensures Named(outputs[..i + 1], n)
        {
          var k :| 0 <= k < i && NameOf(outputs[..i][k]) == Some(n);
          assert outputs[..i + 1][k] == outputs[..i][k];
        }
      }
      if name.Some? && name.value !in names {
        assert forall j :: 0 <= j < i ==> outputs[..i][j] == outputs[j];
        FirstNamedIsFirst(outputs, name.value, i);
        names := names + [name.value];
      }
    }
    assert outputs[..|outputs|] == outputs;
  }

  // ---------------------------------------------------------------------------
  // One delivery, as the effects it would perform without a crash
  // ---------------------------------------------------------------------------

  function Advance(job: Job, status: Status, error: Option<ErrorCode>): Job {
    job.(status := status, error := error)
  }

  /** A result that carries neither the binding nor the outputs: committing it clears them. */
  function Wiped(job: Job, status: Status, error: ErrorCode): Job {
    job.(status := status, item := None, batch := None, session := None, outputs := [], error := Some(error))
  }

  /** before; then the commit of `final`; then after. Nothing at all when final is None. */
  datatype Plan = Plan(before: seq<Effect>, final: Job) | Nothing

  function SubmitPlan(job: Job, e: Env): Plan {
    if !e.scopeFits then Plan([], Wiped(job, Blocked, SubmitFailed))
    else if job.item.Some? then Plan([], Advance(job, Submitted, None))
    else if !e.hasGraph then Plan([], Wiped(job, Blocked, SubmitFailed))
    else if e.submission.None? then Plan([Enqueue(job.key)], Wiped(job, Blocked, SubmitFailed))
    else
      var s := e.submission.value;
      Plan([Enqueue(job.key)],
        Advance(job, Submitted, None).(item := Some(s.item), batch := s.batch, session := s.session))
  }

  /** The assets made of names[from..], up to the first import that fails. */
  function Imported(names: seq<string>, from: nat, e: Env): (assets: seq<string>)
    ensures |assets| <= if from <= |names| then |names| - from else 0
    decreases |names| - from
  {
    if from >= |names| || e.imports(from).None? then [] else [e.imports(from).value] + Imported(names, from + 1, e)
  }

  function ImportEffects(names: seq<string>, assets: seq<string>): seq<Effect>
    requires |assets| <= |names|
  {
    if assets == [] then [] else [Import(names[0], assets[0])] + ImportEffects(names[1..], assets[1..])
  }

  function IngestPlan(job: Job, names: seq<string>, e: Env): Plan {
    if names == [] then Plan([], Advance(job, Failed, Some(NoOutput)))
    else if |job.outputs| > |names| then Plan([], Advance(job, Failed, Some(OutputMismatch)))
    else
      var done := |job.outputs|;
      var assets := Imported(names, done, e);
      var effects := [Commit(Advance(job, Ingesting, None))] + ImportEffects(names[done..], assets);
      var stored := job.(outputs := job.outputs + assets);
      if done + |assets| < |names| then Plan(effects, Advance(stored, Failed, Some(RetryableIngest)))
      else Plan(effects, Advance(stored, Succeeded, None))
  }

  function ReconcilePlan(job: Job, e: Env): Plan {
    if job.item.None? then Plan([], Advance(job, Blocked, Some(RuntimeBlocked)))
    else if e.queue.None? then Plan([], Advance(job, Failed, Some(ReconcileFailed)))
    else
      match e.queue.value.status
      case QCompleted => IngestPlan(job, e.queue.value.names, e)
      case QQueued => Plan([], Advance(job, Submitted, None))
      case QRunning => Plan([], Advance(job, Running, None))
      case QCancelled => Plan([], Advance(job, Cancelled, None))
      case QBlocked => Plan([], Advance(job, Blocked, Some(RuntimeBlocked)))
      case QFailed => Plan([], Advance(job, Failed, Some(GenerationFailed)))
  }

  /** The empty queue item id counts as missing here, though the adapter takes it for a submission. */
  predicate NotSubmitted(job: Job) {
    job.item.None? || job.item == Some("")
  }

  function DrivePlan(job: Job, e: Env): Plan {
    if job.status == Queued || (job.status == Submitted && NotSubmitted(job)) then SubmitPlan(job, e)
    else if job.status == Failed && job.error == Some(RetryableIngest) then
      (if job.item.None? then Nothing else ReconcilePlan(job, e))
    else if job.status == Submitted || job.status == Running || job.status == Ingesting then ReconcilePlan(job, e)
    else Nothing
  }

  /** What is scheduled once the final status is committed. */
  function Schedule(job: Job, e: Env): seq<Effect> {
    if job.status == Succeeded then (if e.assetsFound then [Resume(job.run, job.node, job.outputs)] else [])
    else if job.status == Submitted || job.status == Running || job.status == Ingesting then [Poll(job.id)]
    else []
  }

  /** execute_image_generation_job */
  function Effects(job: Job, e: Env): seq<Effect> {
    if !e.snapshotFound then [Commit(Wiped(job, Failed, SnapshotNotFound))]
    else if job.status == Succeeded then Schedule(job, e)
    else
      var plan := DrivePlan(job, e);
      if plan.Nothing? then [] else plan.before + ([Commit(plan.final)] + Schedule(plan.final, e))
  }

  // ---------------------------------------------------------------------------
  // The worker in place
  // ---------------------------------------------------------------------------

  class ImageWorker {
    var job: Job
    var log: seq<Effect>

    constructor (stored: Job)
      ensures job == stored && log == []
    {
      job, log := stored, [];
    }

    /** _persist_job_result */
    method Persist(result: Job)
      modifies this
      ensures job == result && log == old(log) + [Commit(result)]
    {
      job := result;
      log := log + [Commit(job)];
    }

    /** submit, with the worker's handler for its exceptions */
    method Submit(e: Env) returns (result: Job)
      modifies this`log
      ensures var plan := SubmitPlan(job, e); log == old(log) + plan.before && result == plan.final
    {
      if !e.scopeFits {
        return Wiped(job, Blocked, SubmitFailed);
      }
      if job.item.Some? {
        return Advance(job, Submitted, None);
      }
      if !e.hasGraph {
        return Wiped(job, Blocked, SubmitFailed);
      }
      log := log + [Enqueue(job.key)];
      if e.submission.None? {
        return Wiped(job, Blocked, SubmitFailed);
      }
      var s := e.submission.value;
      return Advance(job, Submitted, None).(item := Some(s.item), batch := s.batch, session := s.session);
    }

    /** _ingest_outputs */
    method IngestOutputs(names: seq<string>, e: Env) returns (result: Job)
      modifies this
      ensures var plan := IngestPlan(old(job), names, e); log == old(log) + plan.before && result == plan.final
    {
      if names == [] {
        return Advance(job, Failed, Some(NoOutput));
      }
      if |job.outputs| > |names| {
        return Advance(job, Failed, Some(OutputMismatch));
      }
      var assets := job.outputs;
      ghost var done := |job.outputs|;
      Persist(Advance(job, Ingesting, None));
      ghost var mark := log;
      var i := |assets|;
      while i < |names|
        invariant done <= i <= |names| && |assets| == i
        invariant assets + Imported(names, i, e) == old(job).outputs + Imported(names, done, e)
        invariant log + ImportEffects(names[i..], Imported(names, i, e)) ==
          mark + ImportEffects(names[done..], Imported(names, done, e))
        invariant job == Advance(old(job), Ingesting, None)
      {
        var asset := e.imports(i);
        if asset.None? {
          result := Advance(job.(outputs := assets), Failed, Some(RetryableIngest));
          ConcatAssociative(old(log), [Commit(job)], ImportEffects(names[done..], Imported(names, done, e)));
          return;
        }
        UnfoldImport(names, i, e);
        ConcatAssociative(log, [Import(names[i], asset.value)],
          ImportEffects(names[i + 1..], Imported(names, i + 1, e)));
        ConcatAssociative(assets, [asset.value], Imported(names, i + 1, e));
        log := log + [Import(names[i], asset.value)];
        assets := assets + [asset.value];
        i := i + 1;
      }
      ConcatAssociative(old(log), [Commit(job)], ImportEffects(names[done..], Imported(names, done, e)));
      return Advance(job.(outputs := assets), Succeeded, None);
    }

    /** reconcile */
    method Reconcile(e: Env) returns (result: Job)
      modifies this
      ensures var plan := ReconcilePlan(old(job), e); log == old(log) + plan.before && result == plan.final
    {
      if job.item.None? {
        return Advance(job, Blocked, Some(RuntimeBlocked));
      }
      if e.queue.None? {
        return Advance(job, Failed, Some(ReconcileFailed));
      }
      match e.queue.value.status
      case QCompleted => result := IngestOutputs(e.queue.value.names, e);
      case QQueued => result := Advance(job, Submitted, None);
      case QRunning => result := Advance(job, Running, None);
      case QCancelled => result := Advance(job, Cancelled, None);
      case QBlocked => result := Advance(job, Blocked, Some(RuntimeBlocked));
      case QFailed => result := Advance(job, Failed, Some(GenerationFailed));
    }

    method ScheduleNext(e: Env)
      modifies this`log
      ensures log == old(log) + Schedule(job, e)
    {
      if job.status == Succeeded {
        if e.assetsFound {
          log := log + [Resume(job.run, job.node, job.outputs)];
        }
      } else if job.status == Submitted || job.status == Running || job.status == Ingesting {
        log := log + [Poll(job.id)];
      }
    }

    /** execute_image_generation_job with drive_image_generation_job */
    method Execute(e: Env)
      modifies this
      ensures log == old(log) + Effects(old(job), e)
      ensures job == Durable(old(job), Effects(old(job), e))
    {
      if !e.snapshotFound {
        Persist(Wiped(job, Failed, SnapshotNotFound));
        return;
      }
      if job.status == Succeeded {
        ScheduleNext(e);
        return;
      }
      var plan := DrivePlan(job, e);
      var result: Job;
      if job.status == Queued || (job.status == Submitted && NotSubmitted(job)) {
        result := Submit(e);
      } else if job.status == Failed && job.error == Some(RetryableIngest) {
        if job.item.None? {
          return;
        }
        result := Reconcile(e);
      } else if job.status == Submitted || job.status == Running || job.status == Ingesting {
        result := Reconcile(e);
      } else {
        return;
      }
      Persist(result);
      ScheduleNext(e);
      ConcatAssociative(old(log) + plan.before, [Commit(plan.final)], Schedule(plan.final, e));
      ConcatAssociative(old(log), plan.before, [Commit(plan.final)] + Schedule(plan.final, e));
      DurableFinal(old(job), plan.before, plan.final, Schedule(plan.final, e));
    }
  }

  lemma UnfoldImport(names: seq<string>, i: nat, e: Env)
    requires i < |names| && e.imports(i).Some?
    ensures Imported(names, i, e) == [e.imports(i).value] + Imported(names, i + 1, e)
    ensures ImportEffects(names[i..], Imported(names, i, e))
         == [Import(names[i], e.imports(i).value)] + ImportEffects(names[i + 1..], Imported(names, i + 1, e))
  {}

  // ---------------------------------------------------------------------------
  // Crashes and redelivery
  // ---------------------------------------------------------------------------

  /** The job as the database has it after those effects. */
  function Durable(job: Job, effects: seq<Effect>): Job {
    if effects == [] then job
    else
      var last := effects[|effects| - 1];
      if last.Commit? then last.job else Durable(job, effects[..|effects| - 1])
  }

  predicate Commits(effects: seq<Effect>) {
    exists i :: 0 <= i < |effects| && effects[i].Commit?
  }

  lemma {:induction false} DurableAppend(job: Job, a: seq<Effect>, b: seq<Effect>)
    ensures Durable(job, a + b) == Durable(Durable(job, a), b)
  {
    if b == [] {
      assert a + b == a;
    } else {
      assert (a + b)[..|a + b| - 1] == a + b[..|b| - 1];
      DurableAppend(job, a, b[..|b| - 1]);
    }
  }

  lemma {:induction false} DurableUnchanged(job: Job, effects: seq<Effect>)
    requires forall x <- effects :: !x.Commit?
    ensures Durable(job, effects) == job
  {
    if effects != [] {
      assert effects[|effects| - 1] in effects;
      DurableUnchanged(job, effects[..|effects| - 1]);
    }
  }

  lemma DurableFinal(job: Job, before: seq<Effect>, final: Job, after: seq<Effect>)
    requires forall x <- after :: !x.Commit?
    ensures Durable(job, before + ([Commit(final)] + after)) == final
  {
    ConcatAssociative(before, [Commit(final)], after);
    DurableAppend(job, before + [Commit(final)], after);
    DurableUnchanged(final, after);
  }

  /** A delivery that crashes before its effect number `crash`, if it has that many. */
  datatype Delivery = Delivery(env: Env, crash: nat)

  function Performed(job: Job, d: Delivery): seq<Effect> {
    var effects := Effects(job, d.env);
    effects[..if d.crash <= |effects| then d.crash else |effects|]
  }

  /** Everything performed for a job over a sequence of deliveries. */
  function Log(job: Job, deliveries: seq<Delivery>): seq<Effect> {
    if deliveries == [] then []
    else
      var before := Log(job, deliveries[..|deliveries| - 1]);
      before + Performed(Durable(job, before), deliveries[|deliveries| - 1])
  }

  // ---------------------------------------------------------------------------
  // What a delivery can do, wherever it is cut
  // ---------------------------------------------------------------------------

  lemma {:induction false} ImportsAre(names: seq<string>, assets: seq<string>)
    requires |assets| <= |names|
    ensures |ImportEffects(names, assets)| == |assets|
    ensures forall k :: 0 <= k < |assets| ==> ImportEffects(names, assets)[k] == Import(names[k], assets[k])
  {
    if assets != [] {
      ImportsAre(names[1..], assets[1..]);
    }
  }

  /** Before the final commit a delivery either enqueues once under the job's key, or checkpoints and imports. */
  ghost predicate Shaped(job: Job, before: seq<Effect>) {
    || before == []
    || (before == [Enqueue(job.key)] && job.item.None? && (job.status == Queued || job.status == Submitted))
    || (before[0] == Commit(Advance(job, Ingesting, None)) && job.item.Some?
        && forall k :: 1 <= k < |before| ==> before[k].Import?)
  }

  lemma PlansAreShaped(job: Job, e: Env)
    requires DrivePlan(job, e).Plan?
    ensures Shaped(job, DrivePlan(job, e).before)
  {
    var plan := DrivePlan(job, e);
    if plan == ReconcilePlan(job, e) && job.item.Some? && e.queue.Some? && e.queue.value.status == QCompleted {
      var names, done := e.queue.value.names, |job.outputs|;
      if done <= |names| {
        ImportsAre(names[done..], Imported(names, done, e));
      }
    }
  }

  /** The states the database can be left in by a delivery that is cut before its final commit. */
  ghost predicate Interrupted(job: Job, d: Job) {
    d == job || (d == Advance(job, Ingesting, None) && job.item.Some?)
  }

  lemma {:induction false} DurableBefore(job: Job, before: seq<Effect>, k: nat)
    requires Shaped(job, before) && k <= |before|
    ensures Interrupted(job, Durable(job, before[..k]))
  {
    if k > 0 {
      assert before[..k][..k - 1] == before[..k - 1];
      DurableBefore(job, before, k - 1);
    }
  }

  /** The final state of a delivery, when it has one. */
  function Final(job: Job, e: Env): Option<Job> {
    if !e.snapshotFound then Some(Wiped(job, Failed, SnapshotNotFound))
    else if job.status == Succeeded || DrivePlan(job, e).Nothing? then None
    else Some(DrivePlan(job, e).final)
  }

  function Before(job: Job, e: Env): seq<Effect> {
    if !e.snapshotFound || job.status == Succeeded || DrivePlan(job, e).Nothing? then [] else DrivePlan(job, e).before
  }

  function Afterwards(job: Job, e: Env): seq<Effect> {
    if !e.snapshotFound then []
    else if job.status == Succeeded then Schedule(job, e)
    else if DrivePlan(job, e).Nothing? then []
    else Schedule(DrivePlan(job, e).final, e)
  }

  lemma EffectsSplit(job: Job, e: Env)
    ensures Effects(job, e) ==
      Before(job, e) + ((if Final(job, e).None? then [] else [Commit(Final(job, e).value)]) + Afterwards(job, e))
    ensures Shaped(job, Before(job, e))
    ensures Final(job, e).None? ==> Before(job, e) == []
  {
    if e.snapshotFound && job.status != Succeeded && DrivePlan(job, e).Plan? {
      PlansAreShaped(job, e);
    }
  }

  lemma CutAfterFinal(job: Job, before: seq<Effect>, final: Job, after: seq<Effect>, k: nat)
    requires |before| < k <= |before| + 1 + |after| && forall x <- after :: !x.Commit?
    ensures var all := before + ([Commit(final)] + after);
      all[..k] == before + ([Commit(final)] + after[..k - |before| - 1]) && Durable(job, all[..k]) == final
  {
    var rest := after[..k - |before| - 1];
    assert (before + ([Commit(final)] + after))[..k] == before + ([Commit(final)] + rest);
    DurableFinal(job, before, final, rest);
  }

  /**
   Wherever a delivery is cut: either nothing but the ingest checkpoint was committed, or all
   effects up to the final commit happened and the database holds the final state.
   */
  lemma CutCases(job: Job, e: Env, k: nat)
    requires k <= |Effects(job, e)|
    ensures var d := Durable(job, Effects(job, e)[..k]);
      if Final(job, e).Some? && k > |Before(job, e)| then
        d == Final(job, e).value && Before(job, e) <= Effects(job, e)[..k]
      else Interrupted(job, d)
  {
    var before, after := Before(job, e), Afterwards(job, e);
    EffectsSplit(job, e);
    if Final(job, e).None? {
      assert Effects(job, e) == after;
      DurableUnchanged(job, after[..k]);
    } else if k > |before| {
      CutAfterFinal(job, before, Final(job, e).value, after, k);
    } else {
      assert Effects(job, e)[..k] == before[..k];
      DurableBefore(job, before, k);
    }
  }

  function Cut(job: Job, d: Delivery): nat {
    if d.crash <= |Effects(job, d.env)| then d.crash else |Effects(job, d.env)|
  }

  lemma LogGrows(job: Job, deliveries: seq<Delivery>)
    requires deliveries != []
    ensures var before, d := Log(job, deliveries[..|deliveries| - 1]), deliveries[|deliveries| - 1];
      var now := Durable(job, before);
      && Log(job, deliveries) == before + Effects(now, d.env)[..Cut(now, d)]
      && Durable(job, Log(job, deliveries)) == Durable(now, Effects(now, d.env)[..Cut(now, d)])
  {
    var before, d := Log(job, deliveries[..|deliveries| - 1]), deliveries[|deliveries| - 1];
    DurableAppend(job, before, Performed(Durable(job, before), d));
  }

  // ---------------------------------------------------------------------------
  // What a complete delivery makes of each answer
  // ---------------------------------------------------------------------------

  /** The job is to be submitted and has no queue item. */
  predicate Unsubmitted(j: Job) {
    (j.status == Queued || j.status == Submitted) && j.item.None?
  }

  /**
   A submission that is answered: one enqueue, then the answer's item, batch and session are
   committed with SUBMITTED, then the poll.
   */
  lemma SubmissionIsRecorded(job: Job, e: Env)
    requires Unsubmitted(job) && e.snapshotFound && e.scopeFits && e.hasGraph && e.submission.Some?
    ensures var s := e.submission.value;
      var submitted := Job(job.id, job.run, job.node, job.key,
                           Submitted, Some(s.item), s.batch, s.session, job.outputs, None);
      && Effects(job, e) == [Enqueue(job.key), Commit(submitted), Poll(job.id)]
      && Durable(job, Effects(job, e)) == submitted
  {
    var submitted := Final(job, e).value;
    DurableFinal(job, [Enqueue(job.key)], submitted, [Poll(job.id)]);
  }

  /** Any other blocks the job and clears its fields; the sidecar was asked only if scope and graph were fine. */
  lemma SubmissionIsRefused(job: Job, e: Env)
    requires Unsubmitted(job) && e.snapshotFound && !(e.scopeFits && e.hasGraph && e.submission.Some?)
    ensures var blocked := Job(job.id, job.run, job.node, job.key, Blocked, None, None, None, [], Some(SubmitFailed));
      && Effects(job, e) == (if e.scopeFits && e.hasGraph then [Enqueue(job.key)] else []) + [Commit(blocked)]
      && Durable(job, Effects(job, e)) == blocked
  {
    DurableFinal(job, Before(job, e), Final(job, e).value, []);
  }

  /** Without its snapshot any job fails and is cleared, whatever it holds. */
  lemma SnapshotIsMissing(job: Job, e: Env)
    requires !e.snapshotFound
    ensures var failed := Job(job.id, job.run, job.node, job.key, Failed, None, None, None, [], Some(SnapshotNotFound));
      Effects(job, e) == [Commit(failed)]
  {}

  /**
   A job to be submitted that already has an item is not enqueued: it goes on to be polled, or is
   blocked and cleared if the snapshot is not its own.
   */
  lemma RecordedItemIsKept(job: Job, e: Env)
    requires job.item.Some? && e.snapshotFound
    requires job.status == Queued || (job.status == Submitted && job.item == Some(""))
    ensures e.scopeFits ==>
      Effects(job, e) == [Commit(job.(status := Submitted, error := None)), Poll(job.id)]
    ensures !e.scopeFits ==>
      var blocked := Job(job.id, job.run, job.node, job.key, Blocked, None, None, None, [], Some(SubmitFailed));
      Effects(job, e) == [Commit(blocked)]
  {}

  /** The job waits for the sidecar and has an item to ask for. */
  predicate Awaiting(j: Job) {
    && j.item.Some?
    && ((j.status == Submitted && j.item != Some("")) || j.status == Running || j.status == Ingesting
        || (j.status == Failed && j.error == Some(RetryableIngest)))
  }

  /** What an answer other than a completion makes of status and error. */
  function AnswerOf(queue: Option<QueueState>): (Status, Option<ErrorCode>)
    requires queue.Some? ==> queue.value.status != QCompleted
  {
    match queue
    case None => (Failed, Some(ReconcileFailed))
    case Some(QueueState(QQueued, _)) => (Submitted, None)
    case Some(QueueState(QRunning, _)) => (Running, None)
    case Some(QueueState(QFailed, _)) => (Failed, Some(GenerationFailed))
    case Some(QueueState(QCancelled, _)) => (Cancelled, None)
    case Some(QueueState(QBlocked, _)) => (Blocked, Some(RuntimeBlocked))
  }

  /** Nothing else of the job changes, and it is polled again exactly while the item is queued or running. */
  lemma AnswerIsRecorded(job: Job, e: Env)
    requires Awaiting(job) && e.snapshotFound && (e.queue.Some? ==> e.queue.value.status != QCompleted)
    ensures var answer := AnswerOf(e.queue);
      var after := job.(status := answer.0, error := answer.1);
      var polled := e.queue.Some? && e.queue.value.status in {QQueued, QRunning};
      && Effects(job, e) == [Commit(after)] + (if polled then [Poll(job.id)] else [])
      && Durable(job, Effects(job, e)) == after
  {
    var answer := AnswerOf(e.queue);
    var after := job.(status := answer.0, error := answer.1);
    AnswerPlan(job, e);
    hide DrivePlan, Durable, AnswerOf;
    DurableFinal(job, [], after, Schedule(after, e));
    assert [] + ([Commit(after)] + Schedule(after, e)) == [Commit(after)] + Schedule(after, e);
  }

  lemma AnswerPlan(job: Job, e: Env)
    requires Awaiting(job) && (e.queue.Some? ==> e.queue.value.status != QCompleted)
    ensures var answer := AnswerOf(e.queue);
      var after := job.(status := answer.0, error := answer.1);
      DrivePlan(job, e) == Plan([], after) && after.status != Succeeded
    ensures var polled := e.queue.Some? && e.queue.value.status in {QQueued, QRunning};
      AnswerOf(e.queue).0 in {Submitted, Running, Ingesting} <==> polled
  {}

  /** A job under way without an item cannot be asked for. */
  lemma NothingToAskFor(job: Job, e: Env)
    requires (job.status == Running || job.status == Ingesting) && job.item.None? && e.snapshotFound
    ensures Effects(job, e) == [Commit(job.(status := Blocked, error := Some(RuntimeBlocked)))]
  {}

  /** A completed item without outputs, or with fewer than are stored already, fails the job as it is. */
  lemma CompletedWithoutOutputs(job: Job, e: Env)
    requires Awaiting(job) && e.snapshotFound && e.queue.Some? && e.queue.value.status == QCompleted
    requires var names := e.queue.value.names; names == [] || |names| < |job.outputs|
    ensures var error := if e.queue.value.names == [] then NoOutput else OutputMismatch;
      Effects(job, e) == [Commit(job.(status := Failed, error := Some(error)))]
  {}

  lemma {:induction false} ImportedUpTo(names: seq<string>, from: nat, e: Env, m: nat)
    requires from <= m <= |names| && (m < |names| ==> e.imports(m).None?)
    requires forall i :: from <= i < m ==> e.imports(i).Some?
    ensures |Imported(names, from, e)| == m - from
    ensures forall i :: from <= i < m ==> Imported(names, from, e)[i - from] == e.imports(i).value
    decreases m - from
  {
    if from < m {
      ImportedUpTo(names, from + 1, e, m);
    }
  }

  /** The outputs from the first that is not stored yet up to m can be imported, and m cannot. */
  ghost predicate ImportsUpTo(job: Job, names: seq<string>, e: Env, m: nat) {
    && |job.outputs| <= m <= |names|
    && (m < |names| ==> e.imports(m).None?)
    && forall i :: |job.outputs| <= i < m ==> e.imports(i).Some?
  }

  /** The job with the outputs up to m: succeeded if they are all, and otherwise failed, to be retried. */
  ghost predicate Ingested(job: Job, names: seq<string>, e: Env, m: nat, after: Job) {
    && |after.outputs| == m && job.outputs <= after.outputs
    && (forall i :: |job.outputs| <= i < m ==> e.imports(i) == Some(after.outputs[i]))
    && after == job.(outputs := after.outputs, status := if m == |names| then Succeeded else Failed,
                     error := if m == |names| then None else Some(RetryableIngest))
  }

  lemma IngestPlanShape(job: Job, names: seq<string>, e: Env, m: nat)
    requires names != [] && ImportsUpTo(job, names, e, m)
    ensures var assets := Imported(names, |job.outputs|, e);
      var all := m == |names|;
      && |assets| == m - |job.outputs|
      && IngestPlan(job, names, e) ==
           Plan([Commit(Advance(job, Ingesting, None))] + ImportEffects(names[|job.outputs|..], assets),
                Advance(job.(outputs := job.outputs + assets), if all then Succeeded else Failed,
                        if all then None else Some(RetryableIngest)))
  {
    ImportedUpTo(names, |job.outputs|, e, m);
  }

  lemma StoredAt(job: Job, names: seq<string>, e: Env, m: nat, assets: seq<string>, i: nat)
    requires ImportsUpTo(job, names, e, m) && assets == Imported(names, |job.outputs|, e) && |job.outputs| <= i < m
    ensures |assets| == m - |job.outputs|
    ensures e.imports(i) == Some((job.outputs + assets)[i])
    ensures var imports := ImportEffects(names[|job.outputs|..], assets);
      |imports| == |assets| && imports[i - |job.outputs|] == Import(names[i], (job.outputs + assets)[i])
  {
    ImportedUpTo(names, |job.outputs|, e, m);
    ImportsAre(names[|job.outputs|..], assets);
  }

  lemma IngestEnds(job: Job, names: seq<string>, e: Env, m: nat)
    requires names != [] && ImportsUpTo(job, names, e, m)
    ensures IngestPlan(job, names, e).Plan? && Ingested(job, names, e, m, IngestPlan(job, names, e).final)
  {
    var assets := Imported(names, |job.outputs|, e);
    IngestPlanShape(job, names, e, m);
    var final := IngestPlan(job, names, e).final;
    hide IngestPlan, Imported, ImportEffects;
    forall i | |job.outputs| <= i < m
      ensures e.imports(i) == Some(final.outputs[i])
    {
      StoredAt(job, names, e, m, assets, i);
    }
  }

  lemma IngestBegins(job: Job, names: seq<string>, e: Env, m: nat)
    requires names != [] && ImportsUpTo(job, names, e, m)
    ensures var before := IngestPlan(job, names, e).before;
      |before| == 1 + m - |job.outputs| && before[0] == Commit(job.(status := Ingesting, error := None))
  {
    IngestPlanShape(job, names, e, m);
    ImportsAre(names[|job.outputs|..], Imported(names, |job.outputs|, e));
  }

  lemma IngestImports(job: Job, names: seq<string>, e: Env, m: nat, i: nat)
    requires names != [] && ImportsUpTo(job, names, e, m) && |job.outputs| <= i < m
    ensures var plan, k := IngestPlan(job, names, e), 1 + i - |job.outputs|;
      && plan.Plan? && k < |plan.before| && i < |plan.final.outputs|
      && plan.before[k] == Import(names[i], plan.final.outputs[i])
  {
    IngestPlanShape(job, names, e, m);
    StoredAt(job, names, e, m, Imported(names, |job.outputs|, e), i);
  }

  /**
   A completed item: from the first output that is not stored yet, up to the first whose import
   fails (m), each is imported and stored in its place. With all of them the job has succeeded
   and resumes the run; otherwise it fails, to be retried from there.
   */
  lemma CompletedIsIngested(job: Job, e: Env, m: nat)
    requires Awaiting(job) && e.snapshotFound && e.queue.Some? && e.queue.value.status == QCompleted
    requires e.queue.value.names != [] && ImportsUpTo(job, e.queue.value.names, e, m)
    ensures var names, done := e.queue.value.names, |job.outputs|;
      var effects, after := Effects(job, e), Durable(job, Effects(job, e));
      && Ingested(job, names, e, m, after)
      && |effects| == 2 + m - done + (if m == |names| && e.assetsFound then 1 else 0)
      && effects[0] == Commit(job.(status := Ingesting, error := None))
      && (forall i :: done <= i < m ==> effects[1 + i - done] == Import(names[i], after.outputs[i]))
      && effects[1 + m - done] == Commit(after)
      && (m == |names| && e.assetsFound ==> effects[2 + m - done] == Resume(job.run, job.node, after.outputs))
  {
    var names := e.queue.value.names;
    var plan := IngestPlan(job, names, e);
    IngestEnds(job, names, e, m);
    IngestBegins(job, names, e, m);
    assert DrivePlan(job, e) == plan;
    hide IngestPlan, DrivePlan, Durable, ImportsUpTo;
    DurableFinal(job, plan.before, plan.final, Schedule(plan.final, e));
    forall i | |job.outputs| <= i < m
      ensures plan.before[1 + i - |job.outputs|] == Import(names[i], plan.final.outputs[i])
    {
      IngestImports(job, names, e, m, i);
    }
  }

  // ---------------------------------------------------------------------------
  // At most one queue item
  // ---------------------------------------------------------------------------

  predicate SameJob(a: Job, b: Job) {
    a.id == b.id && a.run == b.run && a.node == b.node && a.key == b.key
  }

  /** A queue item id is recorded, or the job has moved past submission for good. */
  predicate Settled(j: Job) {
    j.item.Some? || (j.status != Queued && j.status != Submitted)
  }

  lemma FinalKeepsSettled(job: Job, e: Env)
    requires Final(job, e).Some?
    ensures SameJob(job, Final(job, e).value)
    ensures Settled(job) ==> Settled(Final(job, e).value)
    ensures Final(job, e).value.item.Some? && job.item.Some? ==> Final(job, e).value.item == job.item
  {}

  lemma DeliveryEnqueues(job: Job, e: Env, k: nat)
    requires k <= |Effects(job, e)|
    ensures forall i :: 0 <= i < k && Effects(job, e)[i].Enqueue? ==>
      Effects(job, e)[i] == Enqueue(job.key) && !Settled(job)
  {
    EffectsSplit(job, e);
  }

  lemma DeliveryKeepsSettled(job: Job, e: Env, k: nat)
    requires k <= |Effects(job, e)|
    ensures var d := Durable(job, Effects(job, e)[..k]); SameJob(job, d) && (Settled(job) ==> Settled(d))
  {
    CutCases(job, e, k);
    if Final(job, e).Some? {
      FinalKeepsSettled(job, e);
    }
  }

  /**
   Over every sequence of deliveries and crashes every enqueue carries the job's one
   idempotency key.
   */
  lemma {:induction false} OneIdempotencyKey(job: Job, deliveries: seq<Delivery>)
    ensures forall x <- Log(job, deliveries) :: x.Enqueue? ==> x == Enqueue(job.key)
    ensures SameJob(job, Durable(job, Log(job, deliveries)))
  {
    if deliveries != [] {
      var before, d := Log(job, deliveries[..|deliveries| - 1]), deliveries[|deliveries| - 1];
      var now := Durable(job, before);
      OneIdempotencyKey(job, deliveries[..|deliveries| - 1]);
      LogGrows(job, deliveries);
      DeliveryEnqueues(now, d.env, Cut(now, d));
      DeliveryKeepsSettled(now, d.env, Cut(now, d));
    }
  }

  /** Once a queue item id is recorded, no later delivery enqueues again, whatever happens. */
  lemma {:induction false} NoSecondEnqueue(job: Job, deliveries: seq<Delivery>)
    requires Settled(job)
    ensures forall x <- Log(job, deliveries) :: !x.Enqueue?
    ensures Settled(Durable(job, Log(job, deliveries)))
  {
    if deliveries != [] {
      var before, d := Log(job, deliveries[..|deliveries| - 1]), deliveries[|deliveries| - 1];
      var now := Durable(job, before);
      NoSecondEnqueue(job, deliveries[..|deliveries| - 1]);
      LogGrows(job, deliveries);
      DeliveryEnqueues(now, d.env, Cut(now, d));
      DeliveryKeepsSettled(now, d.env, Cut(now, d));
    }
  }

  function Enqueues(log: seq<Effect>): nat {
    if log == [] then 0 else Enqueues(log[..|log| - 1]) + if log[|log| - 1].Enqueue? then 1 else 0
  }

  lemma {:induction false} EnqueuesAppend(a: seq<Effect>, b: seq<Effect>)
    ensures Enqueues(a + b) == Enqueues(a) + Enqueues(b)
  {
    if b == [] {
      assert a + b == a;
    } else {
      assert (a + b)[..|a + b| - 1] == a + b[..|b| - 1];
      EnqueuesAppend(a, b[..|b| - 1]);
    }
  }

  lemma {:induction false} NoEnqueues(log: seq<Effect>)
    requires forall x <- log :: !x.Enqueue?
    ensures Enqueues(log) == 0
  {
    if log != [] {
      assert log[|log| - 1] in log;
      NoEnqueues(log[..|log| - 1]);
    }
  }

  /** The deliveries that are cut before the commit that was to end them. */
  ghost function CutShort(job: Job, deliveries: seq<Delivery>): nat {
    if deliveries == [] then 0
    else
      var front, d := deliveries[..|deliveries| - 1], deliveries[|deliveries| - 1];
      var now := Durable(job, Log(job, front));
      CutShort(job, front) + if Cut(now, d) <= |Before(now, d.env)| then 1 else 0
  }

  /** A delivery that has something to submit and reaches its commit leaves nothing to submit. */
  lemma FinalSettles(job: Job, e: Env)
    requires !Settled(job) && Final(job, e).Some?
    ensures Settled(Final(job, e).value)
  {}

  lemma EnqueuesFirst(job: Job, e: Env)
    ensures forall i :: 0 < i < |Effects(job, e)| ==> !Effects(job, e)[i].Enqueue?
  {
    EffectsSplit(job, e);
  }

  lemma DeliverySettles(job: Job, e: Env, k: nat)
    requires k <= |Effects(job, e)| && !Settled(job)
    ensures Enqueues(Effects(job, e)[..k]) <= 1
    ensures k > |Before(job, e)| ==> Settled(Durable(job, Effects(job, e)[..k]))
  {
    hide Effects, Durable, Before, Final, Settled;
    AlwaysEnds(job, e);
    CutCases(job, e, k);
    FinalSettles(job, e);
    EnqueuesFirst(job, e);
    var all := Effects(job, e)[..k];
    if k > 0 {
      assert all == [all[0]] + all[1..];
      EnqueuesAppend([all[0]], all[1..]);
      NoEnqueues(all[1..]);
      assert [all[0]][..0] == [];
    }
  }

  lemma AlwaysEnds(job: Job, e: Env)
    requires !Settled(job)
    ensures Final(job, e).Some?
  {}

  /**
   Over every sequence of deliveries and crashes a job is enqueued at most once, plus once for
   each delivery that was cut before its commit: a complete one records what the sidecar said.
   */
  lemma {:induction false} EnqueuedOnceUnlessCut(job: Job, deliveries: seq<Delivery>)
    ensures Enqueues(Log(job, deliveries)) + (if Settled(Durable(job, Log(job, deliveries))) then 0 else 1)
      <= 1 + CutShort(job, deliveries)
  {
    if deliveries != [] {
      var front, d := deliveries[..|deliveries| - 1], deliveries[|deliveries| - 1];
      var before := Log(job, front);
      var now := Durable(job, before);
      var k := Cut(now, d);
      EnqueuedOnceUnlessCut(job, front);
      LogGrows(job, deliveries);
      EnqueuesAppend(before, Effects(now, d.env)[..k]);
      if Settled(now) {
        DeliveryEnqueues(now, d.env, k);
        NoEnqueues(Effects(now, d.env)[..k]);
        DeliveryKeepsSettled(now, d.env, k);
      } else {
        DeliverySettles(now, d.env, k);
      }
    }
  }

  // ---------------------------------------------------------------------------
  // Stored assets
  // ---------------------------------------------------------------------------

  /** The sidecar's output list does not change once the item is completed. */
  ghost predicate Stable(e: Env, names: seq<string>) {
    e.queue.Some? && e.queue.value.status == QCompleted ==> e.queue.value.names == names
  }

  /** The stored assets are those imported for the sidecar's first outputs, in order, and for all of them on success. */
  ghost predicate Faithful(j: Job, log: seq<Effect>, names: seq<string>) {
    && |j.outputs| <= |names|
    && (forall k :: 0 <= k < |j.outputs| ==> Import(names[k], j.outputs[k]) in log)
    && (j.status == Succeeded ==> |j.outputs| == |names| > 0)
  }

  lemma InterruptedFaithful(job: Job, d: Job, log: seq<Effect>, more: seq<Effect>, names: seq<string>)
    requires Faithful(job, log, names) && Interrupted(job, d)
    ensures Faithful(d, log + more, names)
  {}

  lemma IngestFaithful(job: Job, names: seq<string>, e: Env, log: seq<Effect>)
    requires Faithful(job, log, names) && job.status != Succeeded
    ensures Faithful(IngestPlan(job, names, e).final, log + IngestPlan(job, names, e).before, names)
  {
    var plan, done := IngestPlan(job, names, e), |job.outputs|;
    var assets := Imported(names, done, e);
    ImportsAre(names[done..], assets);
    if names != [] {
      forall k | done <= k < done + |assets|
        ensures Import(names[k], (job.outputs + assets)[k]) in plan.before
      {
        assert plan.before[1 + (k - done)] == ImportEffects(names[done..], assets)[k - done];
      }
    }
  }

  lemma FinalFaithful(job: Job, e: Env, log: seq<Effect>, names: seq<string>)
    requires Faithful(job, log, names) && Stable(e, names) && Final(job, e).Some?
    ensures Faithful(Final(job, e).value, log + Before(job, e), names)
  {
    if e.snapshotFound && DrivePlan(job, e) == IngestPlan(job, names, e) {
      IngestFaithful(job, names, e, log);
    }
  }

  lemma DeliveryFaithful(job: Job, e: Env, k: nat, log: seq<Effect>, names: seq<string>)
    requires k <= |Effects(job, e)| && Faithful(job, log, names) && Stable(e, names)
    ensures Faithful(Durable(job, Effects(job, e)[..k]), log + Effects(job, e)[..k], names)
  {
    var done := Effects(job, e)[..k];
    CutCases(job, e, k);
    if Final(job, e).Some? && k > |Before(job, e)| {
      FinalFaithful(job, e, log, names);
      assert done == Before(job, e) + done[|Before(job, e)|..];
    } else {
      InterruptedFaithful(job, Durable(job, done), log, done, names);
    }
  }

  /**
   Over every sequence of deliveries and crashes of a fresh job whose sidecar output list is
   stable: the stored asset ids are an in-order prefix of the sidecar's outputs, each made by
   an import of its own output, and on success there is one for every output.
   */
  lemma {:induction false} StoredAssetsAreAPrefix(job: Job, deliveries: seq<Delivery>, names: seq<string>)
    requires job.outputs == [] && job.status != Succeeded
    requires forall d <- deliveries :: Stable(d.env, names)
    ensures Faithful(Durable(job, Log(job, deliveries)), Log(job, deliveries), names)
  {
    if deliveries != [] {
      var before, d := Log(job, deliveries[..|deliveries| - 1]), deliveries[|deliveries| - 1];
      var now := Durable(job, before);
      assert d in deliveries;
      StoredAssetsAreAPrefix(job, deliveries[..|deliveries| - 1], names);
      LogGrows(job, deliveries);
      DeliveryFaithful(now, d.env, Cut(now, d), before, names);
    }
  }

  // ---------------------------------------------------------------------------
  // Persist, then schedule
  // ---------------------------------------------------------------------------

  /** The effect is backed by what the database holds when it happens. */
  ghost predicate Announces(x: Effect, durable: Job) {
    match x
    case Poll(id) =>
      id == durable.id && (durable.status == Submitted || durable.status == Running || durable.status == Ingesting)
    case Resume(run, node, assets) =>
      run == durable.run && node == durable.node && assets == durable.outputs && durable.status == Succeeded
    case _ => true
  }

  lemma DeliveryAnnounces(job: Job, e: Env, k: nat)
    requires k < |Effects(job, e)|
    ensures Announces(Effects(job, e)[k], Durable(job, Effects(job, e)[..k]))
  {
    EffectsSplit(job, e);
    CutCases(job, e, k);
    if Final(job, e).None? {
      assert Effects(job, e) == Afterwards(job, e);
      if job.status == Succeeded && e.snapshotFound {
        DurableUnchanged(job, Effects(job, e)[..k]);
      }
    }
  }

  /**
   Over every sequence of deliveries and crashes every poll and every resume is scheduled only
   after the status it announces, and the assets it hands over, are committed.
   */
  lemma {:induction false} ScheduledOnlyAfterCommit(job: Job, deliveries: seq<Delivery>, i: nat)
    requires i < |Log(job, deliveries)|
    ensures Announces(Log(job, deliveries)[i], Durable(job, Log(job, deliveries)[..i]))
  {
    hide Announces, Effects, Durable;
    var before, d := Log(job, deliveries[..|deliveries| - 1]), deliveries[|deliveries| - 1];
    var now, log := Durable(job, before), Log(job, deliveries);
    LogGrows(job, deliveries);
    if i < |before| {
      assert log[..i] == before[..i] && log[i] == before[i];
      ScheduledOnlyAfterCommit(job, deliveries[..|deliveries| - 1], i);
    } else {
      var effects, k := Effects(now, d.env), i - |before|;
      assert log[..i] == before + effects[..k] && log[i] == effects[k];
      DurableAppend(job, before, effects[..k]);
      DeliveryAnnounces(now, d.env, k);
    }
  }

  // ---------------------------------------------------------------------------
  // Terminal states
  // ---------------------------------------------------------------------------

  /** The states that a delivery does not continue from. */
  predicate Terminal(j: Job) {
    || j.status == Succeeded || j.status == Blocked || j.status == Cancelled || j.status == TimedOut
    || (j.status == Failed && (j.error != Some(RetryableIngest) || j.item.None?))
  }

  /**
   A delivery that runs to its end keeps a terminal job as it is if and only if the snapshot
   is still there (or its loss is what the job already records): a missing snapshot
   overwrites even a success and its outputs.
   */
  lemma TerminalKeptIff(job: Job, e: Env)
    requires Terminal(job)
    ensures Durable(job, Effects(job, e)) == job <==> e.snapshotFound || job == Wiped(job, Failed, SnapshotNotFound)
    ensures e.snapshotFound && job.status != Succeeded ==> Effects(job, e) == []
    ensures e.snapshotFound && job.status == Succeeded ==> Effects(job, e) == Schedule(job, e)
  {}

  /** With the snapshot in place a terminal state is final over all deliveries and crashes. */
  lemma {:induction false} TerminalIsFinal(job: Job, deliveries: seq<Delivery>)
    requires Terminal(job) && forall d <- deliveries :: d.env.snapshotFound
    ensures Durable(job, Log(job, deliveries)) == job
    ensures forall x <- Log(job, deliveries) :: x == Resume(job.run, job.node, job.outputs)
  {
    if deliveries != [] {
      var d := deliveries[|deliveries| - 1];
      assert d in deliveries;
      TerminalIsFinal(job, deliveries[..|deliveries| - 1]);
      LogGrows(job, deliveries);
      TerminalKeptIff(job, d.env);
      DurableUnchanged(job, Effects(job, d.env)[..Cut(job, d)]);
    }
  }

  /** A job waits for exactly one thing: it is terminal, or the next full delivery commits something. */
  lemma NotTerminalMeansProgress(job: Job, e: Env)
    requires e.snapshotFound
    ensures !Terminal(job) <==> Commits(Effects(job, e))
  {
    EffectsSplit(job, e);
    if !Terminal(job) {
      assert Effects(job, e)[|Before(job, e)|].Commit?;
    }
  }

  // ---------------------------------------------------------------------------
  // The idempotency identity
  // ---------------------------------------------------------------------------

  const UNIT_SEPARATOR: char := '\U{1f}'

  /** What the idempotency key is a digest of. */
  function Identity(run: string, node: string, attempt: nat): string {
    run + ([UNIT_SEPARATOR] + (node + ([UNIT_SEPARATOR] + PrintNat(attempt))))
  }

  /** What create asks of an attempt. */
  predicate IsAttempt(run: string, node: string, attempt: nat) {
    run != "" && node != "" && attempt >= 1
  }

  /** Run and node as they stand in the identity. */
  function Joined(run: string, node: string): string {
    run + ([UNIT_SEPARATOR] + node)
  }

  lemma {:induction false} NumeralsHaveNoSeparator(n: nat)
    ensures UNIT_SEPARATOR !in PrintNat(n)
  {
    PrintedDigitsParse(n);
  }

  /**
   Two ways to read the same joined string: the shorter run is cut at a separator of the longer
   one, and vice versa.
   */
  lemma OtherCut(r: string, n: string, r': string, n': string)
    requires Joined(r, n) == Joined(r', n')
    ensures |r| == |r'| ==> r == r' && n == n'
    ensures |r'| < |r| ==> r[|r'|] == UNIT_SEPARATOR
    ensures |r| < |r'| ==> |r'| - |r| - 1 < |n| && n[|r'| - |r| - 1] == UNIT_SEPARATOR && |n'| == |n| - (|r'| - |r|)
  {
    var s := Joined(r, n);
    assert s[|r'|] == UNIT_SEPARATOR && |s| == |r| + 1 + |n| == |r'| + 1 + |n'|;
    assert s[..|r|] == r && s[|r| + 1..] == n && s[..|r'|] == r' && s[|r'| + 1..] == n';
  }

  /** The number cannot be confused with what precedes it. */
  lemma AttemptIsLast(x: string, a: nat, y: string, b: nat)
    requires Joined(x, PrintNat(a)) == Joined(y, PrintNat(b))
    ensures x == y && a == b
  {
    NumeralsHaveNoSeparator(a);
    NumeralsHaveNoSeparator(b);
    OtherCut(x, PrintNat(a), y, PrintNat(b));
    OtherCut(y, PrintNat(b), x, PrintNat(a));
    PrintedDigitsParse(a);
    PrintedDigitsParse(b);
  }

  lemma EqualIdentities(r: string, n: string, a: nat, r': string, n': string, a': nat)
    ensures Identity(r, n, a) == Identity(r', n', a') <==> Joined(r, n) == Joined(r', n') && a == a'
  {
    assert Identity(r, n, a) == Joined(Joined(r, n), PrintNat(a));
    assert Identity(r', n', a') == Joined(Joined(r', n'), PrintNat(a'));
    if Identity(r, n, a) == Identity(r', n', a') {
      AttemptIsLast(Joined(r, n), a, Joined(r', n'), a');
    }
  }

  /** If neither id contains the separator no other attempt, whatever its ids, has the same identity. */
  lemma IdentityIsInjective(r: string, n: string, a: nat, r': string, n': string, a': nat)
    requires UNIT_SEPARATOR !in r && UNIT_SEPARATOR !in n
    requires Identity(r, n, a) == Identity(r', n', a')
    ensures r == r' && n == n' && a == a'
  {
    EqualIdentities(r, n, a, r', n', a');
    OtherCut(r, n, r', n');
  }

  /**
   A separator that leaves something on both of its sides: not the first character of the run
   nor the last of the node.
   */
  predicate HasInnerSeparator(run: string, node: string) {
    || (exists i :: 1 <= i < |run| && run[i] == UNIT_SEPARATOR)
    || (exists j :: 0 <= j < |node| - 1 && node[j] == UNIT_SEPARATOR)
  }

  ghost predicate UniqueIdentity(r: string, n: string, a: nat) {
    forall r', n', a' :: IsAttempt(r', n', a') && Identity(r', n', a') == Identity(r, n, a) ==>
      r' == r && n' == n && a' == a
  }

  /** A separator inside the run can be read as its end, one inside the node as its beginning. */
  lemma IdentityCanCollide(r: string, n: string, a: nat) returns (r': string, n': string)
    requires IsAttempt(r, n, a) && HasInnerSeparator(r, n)
    ensures IsAttempt(r', n', a) && Identity(r', n', a) == Identity(r, n, a) && (r' != r || n' != n)
  {
    if i :| 1 <= i < |r| && r[i] == UNIT_SEPARATOR {
      r', n' := r[..i], Joined(r[i + 1..], n);
      assert r == Joined(r[..i], r[i + 1..]);
    } else {
      var j :| 0 <= j < |n| - 1 && n[j] == UNIT_SEPARATOR;
      r', n' := Joined(r, n[..j]), n[j + 1..];
      assert n == Joined(n[..j], n[j + 1..]);
    }
    assert Joined(r', n') == Joined(r, n);
    EqualIdentities(r, n, a, r', n', a);
  }

  /**
   Among the attempts that create accepts, one has an identity of its own if and only if
   neither id has an inner separator. (At the very start of the run or the very end of the
   node a separator is harmless: reading it as the boundary would leave an empty id.)
   */
  lemma IdentityUniqueIff(r: string, n: string, a: nat)
    requires IsAttempt(r, n, a)
    ensures UniqueIdentity(r, n, a) <==> !HasInnerSeparator(r, n)
  {
    if HasInnerSeparator(r, n) {
      var r', n' := IdentityCanCollide(r, n, a);
      assert IsAttempt(r', n', a) && Identity(r', n', a) == Identity(r, n, a);
    } else {
      forall r', n', a' | IsAttempt(r', n', a') && Identity(r', n', a') == Identity(r, n, a)
        ensures r' == r && n' == n && a' == a
      {
        EqualIdentities(r, n, a, r', n', a');
        OtherCut(r, n, r', n');
      }
    }
  }
}
