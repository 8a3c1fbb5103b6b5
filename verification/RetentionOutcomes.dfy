/** What a tick of the retention pipeline does to each analysis, by its inputs: raw Job conditions,
    raw document times, the record and the config. */
module RetentionOutcomes {
  import opened Basics
  import opened Ordering
  import opened Records
  import opened Retention
  import opened RetentionRuns
  import opened RetentionRecovery

  // ---------------------------------------------------------------- raw inputs

  /** Document i is the last completed one of the id. */
  predicate LastCompleted(docs: seq<Doc>, id: string, i: int) {
    && 0 <= i < |docs| && docs[i].id == id && docs[i].completed
    && forall j :: i < j < |docs| ==> !(docs[j].id == id && docs[j].completed)
  }

  /** The listing by id: the last completed document of each id that is not empty. */
  lemma {:induction false} CompletedByIdIs(docs: seq<Doc>, id: string)
    ensures id in CompletedById(docs) <==> id != "" && exists i :: 0 <= i < |docs| && LastCompleted(docs, id, i)
    ensures forall i :: id != "" && LastCompleted(docs, id, i) ==>
              id in CompletedById(docs) && CompletedById(docs)[id] == docs[i]
  {
    if docs != [] {
      var n := |docs| - 1;
      var front := docs[..n];
      CompletedByIdIs(front, id);
      assert forall j :: 0 <= j < n ==> front[j] == docs[j];
      if docs[n].id == id && docs[n].completed {
        assert LastCompleted(docs, id, n);
      } else {
        assert forall i :: LastCompleted(front, id, i) <==> LastCompleted(docs, id, i);
      }
    }
  }

  /** Completed at least the retention time ago, by `updated_at`, else by `created_at`. */
  predicate Old(d: Doc, now: Time, retention: int) {
    || (d.updatedAt.Some? && now - d.updatedAt.value >= retention)
    || (d.updatedAt.None? && d.createdAt.Some? && now - d.createdAt.value >= retention)
  }

  lemma {:induction false} ListedAreCompleted(docs: seq<Doc>, id: string)
    requires id in CompletedById(docs)
    ensures CompletedById(docs)[id].completed && CompletedById(docs)[id].id == id && id != ""
  {
    if docs != [] {
      var d := docs[|docs| - 1];
      if !(d.id != "" && d.completed && d.id == id) { ListedAreCompleted(docs[..|docs| - 1], id); }
    }
  }

  /** The analysis has no record, and is listed and old. */
  predicate Waits(w: World, s: Step, id: string)
    requires s.TickStep?
  {
    id !in w.archived && DocAt(w, id).Some? && Old(DocAt(w, id).value, s.now, s.cfg.retention)
  }

  lemma DueIff(w: World, s: Step, id: string)
    requires s.TickStep? && CanTick(w, s)
    ensures id in DueIds(w, s) <==> Waits(w, s, id)
  {
    if id in CompletedById(w.server) {
      ListedAreCompleted(w.server, id);
      assert id in Elements(s.listing);
    }
    assert id in s.listing <==> id in Elements(s.listing);
  }

  predicate Purges(cfg: Config) { cfg.purge && !cfg.dryRun }

  predicate JobIs(w: World, r: ArchivedRecord, complete: bool) {
    r.jobName.Some? && r.jobName.value in w.jobs &&
    if complete then IsComplete(w.jobs[r.jobName.value]) else IsRunning(w.jobs[r.jobName.value])
  }

  /** The record is verified, or its Job is found Complete now. */
  predicate Proves(w: World, r: ArchivedRecord) { r.verifiedAt.Some? || JobIs(w, r, true) }

  // ---------------------------------------------------------------- a tracked analysis

  ghost predicate Created(w: World, after: World, id: string) {
    exists i :: |w.log| <= i < |after.log| && after.log[i].CreateJob? && after.log[i].id == id
  }

  /** Record, deletion and Job creation of one analysis from one world to another. */
  ghost predicate Result(w: World, after: World, id: string, record: Option<ArchivedRecord>, deleted: bool,
                         created: bool) {
    Grows(w, after) && RecordAt(after, id) == record && (Deleted(w, after, id) <==> deleted) &&
        (Created(w, after, id) <==> created)
  }

  lemma DoResult(w: World, e: Effect, id: string)
    requires !Do(w, e).crashed
    ensures Result(w, Do(w, e), id, RecordAt(Do(w, e), id), e == DeleteAnalysis(id), e.CreateJob? && e.id == id)
  {
    assert Do(w, e).log[|w.log|] == e;
  }

  lemma ResultThen(a: World, b: World, c: World, id: string, ra: Option<ArchivedRecord>, rb: Option<ArchivedRecord>,
                   d: bool, k: bool, d2: bool, k2: bool)
    requires Result(a, b, id, ra, d, k) && Result(b, c, id, rb, d2, k2)
    ensures Result(a, c, id, rb, d || d2, k || k2)
  {
    assert c.log[..|b.log|] == b.log;
    assert c.log[..|a.log|] == c.log[..|b.log|][..|a.log|];
    assert forall i :: 0 <= i < |b.log| ==> c.log[i] == b.log[i];
  }

  lemma ApartResult(a: World, b: World, id: string)
    requires Apart(a, b, id)
    ensures Result(a, b, id, RecordAt(a, id), false, false)
  {}

  lemma Sandwich(a: World, b: World, c: World, d: World, id: string, r: Option<ArchivedRecord>, x: bool, k: bool)
    requires Apart(a, b, id) && Result(b, c, id, r, x, k) && Apart(c, d, id)
    ensures Result(a, d, id, r, x, k)
  {
    ApartResult(a, b, id);
    ApartResult(c, d, id);
    ResultThen(a, b, c, id, RecordAt(a, id), r, false, false, x, k);
    ResultThen(a, c, d, id, r, r, x, k, false, false);
  }

  lemma DeleteResult(w: World, cfg: Config, id: string)
    requires !DeleteVerified(w, cfg, id).crashed
    ensures Result(w, DeleteVerified(w, cfg, id), id, if Purges(cfg) then None else RecordAt(w, id), Purges(cfg), false)
  {
    if Purges(cfg) {
      var mid := Do(w, DeleteAnalysis(id));
      DoResult(w, DeleteAnalysis(id), id);
      DoResult(mid, ClearRecord(id), id);
      ResultThen(w, mid, Do(mid, ClearRecord(id)), id, RecordAt(mid, id), None, true, false, false, false);
    }
  }

  lemma TwoResult(w: World, e: Effect, f: Effect, id: string)
    requires e.Observed? && (f.PutRecord? || f.ClearRecord?) && f.id == id && !Do(Do(w, e), f).crashed
    ensures Result(w, Do(Do(w, e), f), id, if f.PutRecord? then Some(f.record) else None, false, false)
  {
    DoResult(w, e, id);
    DoResult(Do(w, e), f, id);
    ResultThen(w, Do(w, e), Do(Do(w, e), f), id, RecordAt(Do(w, e), id), RecordAt(Do(Do(w, e), f), id), false, false,
               false, false);
  }

  lemma VerifyResult(w: World, e: Effect, r: ArchivedRecord, cfg: Config, id: string)
    requires e.Observed? && !DeleteVerified(Do(Do(w, e), PutRecord(id, r)), cfg, id).crashed
    ensures Result(w, DeleteVerified(Do(Do(w, e), PutRecord(id, r)), cfg, id), id,
                   if Purges(cfg) then None else Some(r), Purges(cfg), false)
  {
    var put := Do(Do(w, e), PutRecord(id, r));
    TwoResult(w, e, PutRecord(id, r), id);
    DeleteResult(put, cfg, id);
    ResultThen(w, put, DeleteVerified(put, cfg, id), id, Some(r), if Purges(cfg) then None
               else Some(r), false, false, Purges(cfg), false);
  }

  /** The record that a completed tick leaves for a tracked analysis. */
  function RecordLeft(w: World, cfg: Config, now: Time, listed: bool, r: ArchivedRecord): Option<ArchivedRecord> {
    if !listed then None
    else if Proves(w, r) then
      (if Purges(cfg) then None else Some(if r.verifiedAt.Some? then r else r.(verifiedAt := Some(now))))
    else if (r.jobName.None? && cfg.dryRun) || JobIs(w, r, false) then Some(r)
    else None
  }

  lemma ReconcileResult(w: World, cfg: Config, now: Time, completed: set<string>, id: string, r: ArchivedRecord)
    requires RecordAt(w, id) == Some(r) && !Reconcile(w, cfg, now, completed, id, r).crashed
    ensures Result(w, Reconcile(w, cfg, now, completed, id, r), id, RecordLeft(w, cfg, now, id in completed, r),
                   id in completed && Proves(w, r) && Purges(cfg), false)
  {
    if id !in completed {
      DoResult(w, ClearRecord(id), id);
    } else if r.verifiedAt.Some? {
      DeleteResult(w, cfg, id);
    } else if r.jobName.None? {
      if !cfg.dryRun { DoResult(w, ClearRecord(id), id); }
    } else {
      ReconcileJobResult(w, cfg, now, completed, id, r);
    }
  }

  lemma ReconcileJobResult(w: World, cfg: Config, now: Time, completed: set<string>, id: string, r: ArchivedRecord)
    requires RecordAt(w, id) == Some(r) && !Reconcile(w, cfg, now, completed, id, r).crashed
    requires id in completed && r.verifiedAt.None? && r.jobName.Some?
    ensures Result(w, Reconcile(w, cfg, now, completed, id, r), id, RecordLeft(w, cfg, now, true, r), Proves(w, r) &&
                   Purges(cfg), false)
  {
    var job := Lookup(w.jobs, r.jobName.value);
    var e := Observed(r.jobName.value, job);
    if job.Some? { TerminalIff(job.value); }
    if job.Some? && TerminalCondition(job.value) == Some(Complete) {
      VerifyResult(w, e, r.(verifiedAt := Some(now)), cfg, id);
    } else if job.Some? && TerminalCondition(job.value).None? {
      DoResult(w, e, id);
    } else {
      TwoResult(w, e, ClearRecord(id), id);
    }
  }

  /** What a completed tick does to a tracked analysis. It is deleted exactly when it is listed, purge is
      on, dry-run is off, and its record is verified or its Job is Complete by the raw conditions; it gets
      no new Job. Its record goes when it is deleted or no longer listed, when its Job is missing or
      Failed, or when it is a dry-run marker and dry-run is off; it is stamped when the Job is Complete;
      and it is left alone otherwise. */
  lemma TrackedOutcome(w: World, s: Step, name: string -> string, id: string)
    requires s.TickStep? && CanTick(w, s) && Active(s.cfg) && id in w.archived && !TickFrom(w, s, name).crashed
    ensures var r, listed := w.archived[id], DocAt(w, id).Some?;
            Result(w, TickFrom(w, s, name), id, RecordLeft(w, s.cfg, s.now, listed, r), listed && Proves(w, r) &&
                   Purges(s.cfg), false)
  {
    var at := TrackedInTick(w, s, name, id);
    var keys, r := CompletedById(w.server).Keys, w.archived[id];
    ReconcileResult(at, s.cfg, s.now, keys, id, r);
    Sandwich(Start(w, s), at, Reconcile(at, s.cfg, s.now, keys, id, r), TickFrom(w, s, name), id,
             RecordLeft(w, s.cfg, s.now, id in keys, r), id in keys && Proves(w, r) && Purges(s.cfg), false);
  }

  // ---------------------------------------------------------------- a due analysis

  /** The Job is there and has not failed. */
  predicate Usable(job: Option<Job>) { job.Some? && !IsFailed(job.value) }

  predicate Done(job: Option<Job>) { job.Some? && IsComplete(job.value) }

  /** The record that a completed tick leaves for a due analysis that is not deleted. */
  function NewRecord(cfg: Config, now: Time, job: Option<Job>, name: string): ArchivedRecord {
    ArchivedRecord(cfg.backend, Some(cfg.bucket), if Done(job) then Some(now) else None,
                   if cfg.dryRun && !Usable(job) then None else Some(name), Some(now))
  }

  lemma DoneIsUsable(job: Job)
    ensures IsComplete(job) ==> !IsFailed(job)
    ensures IsRunning(job) <==> !IsComplete(job) && !IsFailed(job)
  {
    TerminalIff(job);
    match TerminalCondition(job)
    case None =>
    case Some(Complete) =>
    case Some(Failed) =>
  }

  lemma CreateResult(w: World, e: Effect, remove: bool, id: string, job: string, r: ArchivedRecord)
    requires e.Observed?
    requires var freed := if remove then Do(Do(w, e), RemoveJob(job)) else Do(w, e);
             !Do(Do(freed, CreateJob(id, job)), PutRecord(id, r)).crashed
    ensures var freed := if remove then Do(Do(w, e), RemoveJob(job)) else Do(w, e);
            var after := Do(Do(freed, CreateJob(id, job)), PutRecord(id, r));
            Result(w, after, id, Some(r), false, true) && Lookup(after.jobs, job) == Some([])
  {
    var seen := Do(w, e);
    var freed := if remove then Do(seen, RemoveJob(job)) else seen;
    var created := Do(freed, CreateJob(id, job));
    DoResult(w, e, id);
    if remove {
      DoResult(seen, RemoveJob(job), id);
      ResultThen(w, seen, freed, id, RecordAt(seen, id), RecordAt(freed, id), false, false, false, false);
    }
    DoResult(freed, CreateJob(id, job), id);
    ResultThen(w, freed, created, id, RecordAt(freed, id), RecordAt(created, id), false, false, false, true);
    DoResult(created, PutRecord(id, r), id);
    ResultThen(w, created, Do(created, PutRecord(id, r)), id, RecordAt(created, id), Some(r), false, true, false,
               false);
  }

  lemma PutJobs(w: World, e: Effect, r: ArchivedRecord, cfg: Config, id: string)
    requires e.Observed?
    ensures Do(Do(w, e), PutRecord(id, r)).jobs == w.jobs
    ensures DeleteVerified(Do(Do(w, e), PutRecord(id, r)), cfg, id).jobs == w.jobs
  {
    DoJobs(w, e, "");
    DoJobs(Do(w, e), PutRecord(id, r), "");
    VerifyJobs(w, e, r, cfg, id);
  }

  /** Spawning, as a choice between four outcomes by the raw conditions. */
  lemma SpawnCases(w: World, cfg: Config, now: Time, id: string, name: string)
    ensures var job, after := Lookup(w.jobs, name), Spawn(w, cfg, now, id, name);
            var seen, put := Do(w, Observed(name, job)), PutRecord(id, NewRecord(cfg, now, job, name));
            var freed := if job.Some? then Do(seen, RemoveJob(name)) else seen;
            after == if Done(job) then DeleteVerified(Do(seen, put), cfg, id)
                     else if Usable(job) || cfg.dryRun then Do(seen, put)
                     else Do(Do(freed, CreateJob(id, name)), put)
  {
    var job := Lookup(w.jobs, name);
    if job.Some? {
      TerminalIff(job.value);
      DoneIsUsable(job.value);
    }
  }

  lemma SpawnResult(w: World, cfg: Config, now: Time, id: string, name: string)
    requires !Spawn(w, cfg, now, id, name).crashed
    ensures var job, after := Lookup(w.jobs, name), Spawn(w, cfg, now, id, name);
            var deleted, created := Done(job) && Purges(cfg), !Usable(job) && !cfg.dryRun;
            && Result(w, after, id, if deleted then None else Some(NewRecord(cfg, now, job, name)), deleted, created)
            && Lookup(after.jobs, name) == if created then Some([]) else job
  {
    var job := Lookup(w.jobs, name);
    var e, r := Observed(name, job), NewRecord(cfg, now, job, name);
    SpawnCases(w, cfg, now, id, name);
    if job.Some? { DoneIsUsable(job.value); }
    PutJobs(w, e, r, cfg, id);
    if Done(job) {
      VerifyResult(w, e, r, cfg, id);
    } else if Usable(job) || cfg.dryRun {
      TwoResult(w, e, PutRecord(id, r), id);
    } else {
      CreateResult(w, e, job.Some?, id, name, r);
    }
  }

  /** What a completed tick does to an analysis that has no record and is listed and old, if no other
      shares its Job name. Its Job, by the raw conditions, decides: Complete, it is verified at once, and
      deleted exactly when purge is on and dry-run off; running, it is adopted; missing or Failed, a new
      Job takes its place, and nothing but a marker is written under dry-run. */
  lemma DueOutcome(w: World, s: Step, name: string -> string, id: string)
    requires s.TickStep? && CanTick(w, s) && Active(s.cfg) && Waits(w, s, id) && Unshared(name, id)
    requires !TickFrom(w, s, name).crashed
    ensures var job, after := Lookup(w.jobs, name(id)), TickFrom(w, s, name);
            var deleted, created := Done(job) && Purges(s.cfg), !Usable(job) && !s.cfg.dryRun;
            && Result(w, after, id, if deleted then None
                      else Some(NewRecord(s.cfg, s.now, job, name(id))), deleted, created)
            && Lookup(after.jobs, name(id)) == if created then Some([]) else job
  {
    DueIff(w, s, id);
    var at := DueInTick(w, s, name, id);
    var job := Lookup(w.jobs, name(id));
    var deleted, created := Done(job) && Purges(s.cfg), !Usable(job) && !s.cfg.dryRun;
    SpawnResult(at, s.cfg, s.now, id, name(id));
    Sandwich(Start(w, s), at, Spawn(at, s.cfg, s.now, id, name(id)), TickFrom(w, s, name), id,
             if deleted then None else Some(NewRecord(s.cfg, s.now, job, name(id))), deleted, created);
  }

  // ---------------------------------------------------------------- everybody else

  /** An analysis without a record that is not listed, or too young, is left alone by every tick, and so is
      every analysis by a tick of a pipeline that is off or not fully configured. */
  lemma OthersUntouched(w: World, s: Step, name: string -> string, id: string)
    requires s.TickStep? && CanTick(w, s)
    requires !(s.cfg.archive && s.cfg.backend != "" && s.cfg.bucket != "" && s.cfg.secretRef != "")
             || (id !in w.archived && !Waits(w, s, id))
    ensures Apart(Start(w, s), TickFrom(w, s, name), id)
  {
    if Active(s.cfg) {
      DueIff(w, s, id);
      TickParts(w, s, name);
      var keys := CompletedById(w.server).Keys;
      assert forall i :: 0 <= i < |s.order| ==> s.order[i] in Elements(s.order);
      DoApart(Start(w, s), Listed(keys), id);
      ReconcileAllApart(ListedWorld(w, s), s.cfg, s.now, keys, w.archived, s.order, id);
      ApartTransitive(Start(w, s), ListedWorld(w, s), Reconciled(w, s), id);
      SpawnAllApart(Reconciled(w, s), s.cfg, s.now, DueIds(w, s), name, id);
      ApartTransitive(Start(w, s), Reconciled(w, s), TickFrom(w, s, name), id);
    }
  }
}
