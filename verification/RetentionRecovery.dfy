/** What the retention pipeline recovers from, and what it never does twice. */
module RetentionRecovery {
  import opened Basics
  import opened Ordering
  import opened Records
  import opened Retention
  import opened RetentionRuns

  // ---------------------------------------------------------------- no second Job

  /** The Job exists and has not failed: it is running or Complete. */
  predicate Standing(w: World, job: string) {
    job in w.jobs && !IsFailed(w.jobs[job])
  }

  predicate TouchesJob(e: Effect, job: string) {
    (e.CreateJob? && e.job == job) || (e.RemoveJob? && e.job == job)
  }

  /** Since `w` the log grew by effects none of which satisfies `bad`. */
  ghost predicate GrewWithout(w: World, after: World, bad: Effect -> bool) {
    Grows(w, after) && forall i :: |w.log| <= i < |after.log| ==> !bad(after.log[i])
  }

  lemma GrewTransitive(a: World, b: World, c: World, bad: Effect -> bool)
    requires GrewWithout(a, b, bad) && GrewWithout(b, c, bad)
    ensures GrewWithout(a, c, bad)
  {
    assert c.log[..|a.log|] == c.log[..|b.log|][..|a.log|];
    forall i | |a.log| <= i < |c.log| ensures !bad(c.log[i]) {
      if i < |b.log| { assert c.log[i] == c.log[..|b.log|][i]; }
    }
  }

  /** A standing Job is neither replaced nor removed, and nothing is created under its name. */
  ghost predicate LeavesJob(w: World, after: World, job: string) {
    Standing(w, job) ==>
      && Standing(after, job) && after.jobs[job] == w.jobs[job]
      && GrewWithout(w, after, e => TouchesJob(e, job))
  }

  lemma LeavesTransitive(a: World, b: World, c: World, job: string)
    requires LeavesJob(a, b, job) && LeavesJob(b, c, job)
    ensures LeavesJob(a, c, job)
  {
    if Standing(a, job) { GrewTransitive(a, b, c, e => TouchesJob(e, job)); }
  }

  lemma DoLeavesJob(w: World, e: Effect, job: string)
    requires !TouchesJob(e, job)
    ensures LeavesJob(w, Do(w, e), job)
  {}

  lemma DeleteVerifiedLeavesJob(w: World, cfg: Config, id: string, job: string)
    ensures LeavesJob(w, DeleteVerified(w, cfg, id), job)
  {
    DoLeavesJob(w, DeleteAnalysis(id), job);
    DoLeavesJob(Do(w, DeleteAnalysis(id)), ClearRecord(id), job);
    LeavesTransitive(w, Do(w, DeleteAnalysis(id)), Do(Do(w, DeleteAnalysis(id)), ClearRecord(id)), job);
  }

  lemma ReconcileLeavesJob(w: World, cfg: Config, now: Time, completed: set<string>, id: string, r: ArchivedRecord,
                           job: string)
    ensures LeavesJob(w, Reconcile(w, cfg, now, completed, id, r), job)
  {
    DoLeavesJob(w, ClearRecord(id), job);
    DeleteVerifiedLeavesJob(w, cfg, id, job);
    if r.jobName.Some? {
      var e := Observed(r.jobName.value, Lookup(w.jobs, r.jobName.value));
      var put := PutRecord(id, r.(verifiedAt := Some(now)));
      var seen := Do(w, e);
      DoLeavesJob(w, e, job);
      DoLeavesJob(seen, ClearRecord(id), job);
      LeavesTransitive(w, seen, Do(seen, ClearRecord(id)), job);
      DoLeavesJob(seen, put, job);
      LeavesTransitive(w, seen, Do(seen, put), job);
      DeleteVerifiedLeavesJob(Do(seen, put), cfg, id, job);
      LeavesTransitive(w, Do(seen, put), DeleteVerified(Do(seen, put), cfg, id), job);
    }
  }

  lemma PutLeavesJob(w: World, e: Effect, id: string, r: ArchivedRecord, cfg: Config, job: string)
    requires e.Observed?
    ensures var put := Do(Do(w, e), PutRecord(id, r));
            LeavesJob(w, put, job) && LeavesJob(w, DeleteVerified(put, cfg, id), job)
  {
    var seen, put := Do(w, e), Do(Do(w, e), PutRecord(id, r));
    DoLeavesJob(w, e, job);
    DoLeavesJob(seen, PutRecord(id, r), job);
    LeavesTransitive(w, seen, put, job);
    DeleteVerifiedLeavesJob(put, cfg, id, job);
    LeavesTransitive(w, put, DeleteVerified(put, cfg, id), job);
  }

  lemma SpawnLeavesJob(w: World, cfg: Config, now: Time, id: string, name: string, job: string)
    ensures LeavesJob(w, Spawn(w, cfg, now, id, name), job)
  {
    var existing := Lookup(w.jobs, name);
    var e := Observed(name, existing);
    if existing.Some? { TerminalIff(existing.value); }
    if existing.Some? && TerminalCondition(existing.value).None? {
      PutLeavesJob(w, e, id, InFlight(cfg, now, Some(name)), cfg, job);
    } else if existing.Some? && TerminalCondition(existing.value).value.Complete? {
      PutLeavesJob(w, e, id, InFlight(cfg, now, Some(name)).(verifiedAt := Some(now)), cfg, job);
    } else if cfg.dryRun {
      PutLeavesJob(w, e, id, InFlight(cfg, now, None), cfg, job);
    } else if Standing(w, job) {
      DoLeavesJob(w, e, job);
      RespawnLeavesJob(w, Do(w, e), existing.Some?, id, name, InFlight(cfg, now, Some(name)), job);
    }
  }

  lemma RespawnLeavesJob(w: World, seen: World, remove: bool, id: string, name: string, r: ArchivedRecord, job: string)
    requires LeavesJob(w, seen, job) && name != job
    ensures var freed := if remove then Do(seen, RemoveJob(name)) else seen;
            LeavesJob(w, Do(Do(freed, CreateJob(id, name)), PutRecord(id, r)), job)
  {
    var freed := if remove then Do(seen, RemoveJob(name)) else seen;
    var created := Do(freed, CreateJob(id, name));
    DoLeavesJob(seen, RemoveJob(name), job);
    LeavesTransitive(w, seen, Do(seen, RemoveJob(name)), job);
    DoLeavesJob(freed, CreateJob(id, name), job);
    LeavesTransitive(w, freed, created, job);
    DoLeavesJob(created, PutRecord(id, r), job);
    LeavesTransitive(w, created, Do(created, PutRecord(id, r)), job);
  }

  lemma {:induction false} ReconcileAllLeavesJob(w: World, cfg: Config, now: Time, completed: set<string>,
                                                 tracked: map<string, ArchivedRecord>, order: seq<string>, job: string)
    requires forall i :: 0 <= i < |order| ==> order[i] in tracked
    ensures LeavesJob(w, ReconcileAll(w, cfg, now, completed, tracked, order), job)
  {
    if order != [] {
      var front, id := order[..|order| - 1], order[|order| - 1];
      var mid := ReconcileAll(w, cfg, now, completed, tracked, front);
      ReconcileAllLeavesJob(w, cfg, now, completed, tracked, front, job);
      ReconcileLeavesJob(mid, cfg, now, completed, id, tracked[id], job);
      LeavesTransitive(w, mid, Reconcile(mid, cfg, now, completed, id, tracked[id]), job);
    }
  }

  lemma {:induction false} SpawnAllLeavesJob(w: World, cfg: Config, now: Time, due: seq<string>, name: string -> string,
                                             job: string)
    ensures LeavesJob(w, SpawnAll(w, cfg, now, due, name), job)
  {
    if due != [] {
      var front, id := due[..|due| - 1], due[|due| - 1];
      var mid := SpawnAll(w, cfg, now, front, name);
      SpawnAllLeavesJob(w, cfg, now, front, name, job);
      SpawnLeavesJob(mid, cfg, now, id, name(id), job);
      LeavesTransitive(w, mid, Spawn(mid, cfg, now, id, name(id)), job);
    }
  }

  /** The parts of a tick of an active pipeline. */
  function Start(w: World, s: Step): World
    requires s.TickStep?
  {
    w.(fuel := s.fuel, crashed := false)
  }

  function ListedWorld(w: World, s: Step): World
    requires s.TickStep?
  {
    Do(Start(w, s), Listed(CompletedById(w.server).Keys))
  }

  function Reconciled(w: World, s: Step): World
    requires s.TickStep? && CanTick(w, s)
  {
    assert forall i :: 0 <= i < |s.order| ==> s.order[i] in Elements(s.order);
    ReconcileAll(ListedWorld(w, s), s.cfg, s.now, CompletedById(w.server).Keys, w.archived, s.order)
  }

  function DueIds(w: World, s: Step): seq<string>
    requires s.TickStep?
  {
    Due(s.listing, CompletedById(w.server), w.archived.Keys, s.now, s.cfg.retention)
  }

  lemma TickParts(w: World, s: Step, name: string -> string)
    requires s.TickStep? && CanTick(w, s) && Active(s.cfg)
    ensures TickFrom(w, s, name) == SpawnAll(Reconciled(w, s), s.cfg, s.now, DueIds(w, s), name)
  {}

  /** Never a second Job: while a Job is running or Complete, no tick, crashed or not, creates,
      replaces or removes a Job of its name. */
  lemma NoSecondJob(w: World, s: Step, name: string -> string, job: string)
    requires s.TickStep? && CanTick(w, s)
    ensures LeavesJob(w, TickFrom(w, s, name), job)
  {
    if Active(s.cfg) {
      TickParts(w, s, name);
      assert forall i :: 0 <= i < |s.order| ==> s.order[i] in Elements(s.order);
      DoLeavesJob(Start(w, s), Listed(CompletedById(w.server).Keys), job);
      ReconcileAllLeavesJob(ListedWorld(w, s), s.cfg, s.now, CompletedById(w.server).Keys, w.archived, s.order, job);
      LeavesTransitive(Start(w, s), ListedWorld(w, s), Reconciled(w, s), job);
      SpawnAllLeavesJob(Reconciled(w, s), s.cfg, s.now, DueIds(w, s), name, job);
      LeavesTransitive(Start(w, s), Reconciled(w, s), TickFrom(w, s, name), job);
    }
  }

  // ---------------------------------------------------------------- dry-run

  predicate ClusterMutation(e: Effect) { e.CreateJob? || e.RemoveJob? || e.DeleteAnalysis? }

  ghost predicate Harmless(w: World, after: World) {
    after.jobs == w.jobs && after.server == w.server && GrewWithout(w, after, ClusterMutation)
  }

  lemma HarmlessTransitive(a: World, b: World, c: World)
    requires Harmless(a, b) && Harmless(b, c)
    ensures Harmless(a, c)
  {
    GrewTransitive(a, b, c, ClusterMutation);
  }

  lemma DoHarmless(w: World, e: Effect)
    requires !ClusterMutation(e)
    ensures Harmless(w, Do(w, e))
  {}

  lemma ReconcileHarmless(w: World, cfg: Config, now: Time, completed: set<string>, id: string, r: ArchivedRecord)
    requires cfg.dryRun
    ensures Harmless(w, Reconcile(w, cfg, now, completed, id, r))
  {
    DoHarmless(w, ClearRecord(id));
    if r.jobName.Some? {
      var e := Observed(r.jobName.value, Lookup(w.jobs, r.jobName.value));
      var put := PutRecord(id, r.(verifiedAt := Some(now)));
      DoHarmless(w, e);
      DoHarmless(Do(w, e), ClearRecord(id));
      DoHarmless(Do(w, e), put);
      HarmlessTransitive(w, Do(w, e), Do(Do(w, e), ClearRecord(id)));
      HarmlessTransitive(w, Do(w, e), Do(Do(w, e), put));
    }
  }

  lemma SpawnHarmless(w: World, cfg: Config, now: Time, id: string, job: string)
    requires cfg.dryRun
    ensures Harmless(w, Spawn(w, cfg, now, id, job))
  {
    var existing := Lookup(w.jobs, job);
    var seen := Do(w, Observed(job, existing));
    DoHarmless(w, Observed(job, existing));
    var r := if existing.Some? && TerminalCondition(existing.value) == Some(Complete)
             then InFlight(cfg, now, Some(job)).(verifiedAt := Some(now))
             else if existing.Some? && TerminalCondition(existing.value).None? then InFlight(cfg, now, Some(job))
             else InFlight(cfg, now, None);
    DoHarmless(seen, PutRecord(id, r));
    HarmlessTransitive(w, seen, Do(seen, PutRecord(id, r)));
  }

  lemma {:induction false} PhasesHarmless(w: World, cfg: Config, now: Time, completed: set<string>,
                                          tracked: map<string, ArchivedRecord>,
                                          order: seq<string>, due: seq<string>, name: string -> string)
    requires cfg.dryRun && forall i :: 0 <= i < |order| ==> order[i] in tracked
    ensures Harmless(w, SpawnAll(ReconcileAll(w, cfg, now, completed, tracked, order), cfg, now, due, name))
    decreases |order| + |due|
  {
    if due != [] {
      var front, id := due[..|due| - 1], due[|due| - 1];
      PhasesHarmless(w, cfg, now, completed, tracked, order, front, name);
      var mid := SpawnAll(ReconcileAll(w, cfg, now, completed, tracked, order), cfg, now, front, name);
      SpawnHarmless(mid, cfg, now, id, name(id));
      HarmlessTransitive(w, mid, Spawn(mid, cfg, now, id, name(id)));
    } else if order != [] {
      var front, id := order[..|order| - 1], order[|order| - 1];
      PhasesHarmless(w, cfg, now, completed, tracked, front, [], name);
      var mid := ReconcileAll(w, cfg, now, completed, tracked, front);
      ReconcileHarmless(mid, cfg, now, completed, id, tracked[id]);
      HarmlessTransitive(w, mid, Reconcile(mid, cfg, now, completed, id, tracked[id]));
    }
  }

  /** A dry-run tick leaves Jobs and analyses alone, wherever it stops. */
  lemma DryRunMutatesNothing(w: World, s: Step, name: string -> string)
    requires s.TickStep? && CanTick(w, s) && s.cfg.dryRun
    ensures Harmless(w, TickFrom(w, s, name))
  {
    if Active(s.cfg) {
      TickParts(w, s, name);
      assert forall i :: 0 <= i < |s.order| ==> s.order[i] in Elements(s.order);
      DoHarmless(Start(w, s), Listed(CompletedById(w.server).Keys));
      PhasesHarmless(ListedWorld(w, s), s.cfg, s.now, CompletedById(w.server).Keys, w.archived, s.order, DueIds(w, s),
                     name);
      HarmlessTransitive(Start(w, s), ListedWorld(w, s), TickFrom(w, s, name));
    }
  }

  // ---------------------------------------------------------------- following one analysis

  predicate Concerns(e: Effect, id: string) {
    match e
    case PutRecord(x, _) => x == id
    case ClearRecord(x) => x == id
    case DeleteAnalysis(x) => x == id
    case CreateJob(x, _) => x == id
    case _ => false
  }

  function RecordAt(w: World, id: string): Option<ArchivedRecord> {
    if id in w.archived then Some(w.archived[id]) else None
  }

  function DocAt(w: World, id: string): Option<Doc> {
    if id in CompletedById(w.server) then Some(CompletedById(w.server)[id]) else None
  }

  /** Nothing that concerns the analysis happened, and the tick went on at least as far. */
  ghost predicate Apart(w: World, after: World, id: string) {
    && RecordAt(after, id) == RecordAt(w, id)
    && DocAt(after, id) == DocAt(w, id)
    && GrewWithout(w, after, e => Concerns(e, id))
    && (w.crashed ==> after.crashed)
  }

  lemma ApartTransitive(a: World, b: World, c: World, id: string)
    requires Apart(a, b, id) && Apart(b, c, id)
    ensures Apart(a, c, id)
  {
    GrewTransitive(a, b, c, e => Concerns(e, id));
  }

  lemma {:induction false} WithoutCompleted(docs: seq<Doc>, id: string)
    ensures CompletedById(Without(docs, id)) == CompletedById(docs) - {id}
  {
    if docs != [] {
      var front, d := docs[..|docs| - 1], docs[|docs| - 1];
      WithoutCompleted(front, id);
      var kept := Without(front, id);
      if d.id != id { assert (kept + [d])[..|kept|] == kept; }
    }
  }

  lemma DoApart(w: World, e: Effect, id: string)
    requires !Concerns(e, id)
    ensures Apart(w, Do(w, e), id)
  {
    if e.DeleteAnalysis? { WithoutCompleted(w.server, e.id); }
  }

  lemma DeleteVerifiedApart(w: World, cfg: Config, other: string, id: string)
    requires other != id
    ensures Apart(w, DeleteVerified(w, cfg, other), id)
  {
    DoApart(w, DeleteAnalysis(other), id);
    DoApart(Do(w, DeleteAnalysis(other)), ClearRecord(other), id);
    ApartTransitive(w, Do(w, DeleteAnalysis(other)), Do(Do(w, DeleteAnalysis(other)), ClearRecord(other)), id);
  }

  lemma ReconcileApart(w: World, cfg: Config, now: Time, completed: set<string>, other: string, r: ArchivedRecord,
                       id: string)
    requires other != id
    ensures Apart(w, Reconcile(w, cfg, now, completed, other, r), id)
  {
    DoApart(w, ClearRecord(other), id);
    DeleteVerifiedApart(w, cfg, other, id);
    if r.jobName.Some? {
      var e := Observed(r.jobName.value, Lookup(w.jobs, r.jobName.value));
      DoApart(w, e, id);
      DoTwoApart(w, e, ClearRecord(other), id);
      PutDeleteApart(w, e, r.(verifiedAt := Some(now)), cfg, other, id);
    }
  }

  lemma DoTwoApart(w: World, e: Effect, clear: Effect, id: string)
    requires e.Observed? && clear.ClearRecord? && clear.id != id
    ensures Apart(w, Do(Do(w, e), clear), id)
  {
    DoApart(w, e, id);
    DoApart(Do(w, e), clear, id);
    ApartTransitive(w, Do(w, e), Do(Do(w, e), clear), id);
  }

  lemma PutDeleteApart(w: World, e: Effect, r: ArchivedRecord, cfg: Config, other: string, id: string)
    requires e.Observed? && other != id
    ensures Apart(w, DeleteVerified(Do(Do(w, e), PutRecord(other, r)), cfg, other), id)
  {
    var seen, put := Do(w, e), Do(Do(w, e), PutRecord(other, r));
    DoApart(w, e, id);
    DoApart(seen, PutRecord(other, r), id);
    ApartTransitive(w, seen, put, id);
    DeleteVerifiedApart(put, cfg, other, id);
    ApartTransitive(w, put, DeleteVerified(put, cfg, other), id);
  }

  lemma SpawnApart(w: World, cfg: Config, now: Time, other: string, job: string, id: string)
    requires other != id
    ensures Apart(w, Spawn(w, cfg, now, other, job), id)
  {
    var existing := Lookup(w.jobs, job);
    var seen := Do(w, Observed(job, existing));
    DoApart(w, Observed(job, existing), id);
    if existing.Some? && TerminalCondition(existing.value) == Some(Complete) {
      var put := PutRecord(other, InFlight(cfg, now, Some(job)).(verifiedAt := Some(now)));
      DoApart(seen, put, id);
      ApartTransitive(w, seen, Do(seen, put), id);
      DeleteVerifiedApart(Do(seen, put), cfg, other, id);
      ApartTransitive(w, Do(seen, put), DeleteVerified(Do(seen, put), cfg, other), id);
    } else {
      SpawnTailApart(w, seen, cfg, now, other, job, id);
      var freed := if existing.Some? then Do(seen, RemoveJob(job)) else seen;
      DoApart(seen, RemoveJob(job), id);
      ApartTransitive(w, seen, Do(seen, RemoveJob(job)), id);
      DoApart(freed, CreateJob(other, job), id);
      ApartTransitive(w, freed, Do(freed, CreateJob(other, job)), id);
      SpawnTailApart(w, Do(freed, CreateJob(other, job)), cfg, now, other, job, id);
    }
  }

  lemma SpawnTailApart(w: World, mid: World, cfg: Config, now: Time, other: string, job: string, id: string)
    requires other != id && Apart(w, mid, id)
    ensures Apart(w, Do(mid, PutRecord(other, InFlight(cfg, now, Some(job)))), id)
    ensures Apart(w, Do(mid, PutRecord(other, InFlight(cfg, now, None))), id)
  {
    DoApart(mid, PutRecord(other, InFlight(cfg, now, Some(job))), id);
    DoApart(mid, PutRecord(other, InFlight(cfg, now, None)), id);
    ApartTransitive(w, mid, Do(mid, PutRecord(other, InFlight(cfg, now, Some(job)))), id);
    ApartTransitive(w, mid, Do(mid, PutRecord(other, InFlight(cfg, now, None))), id);
  }

  /** Phase A for an analysis it does not track, or before it gets to it. */
  lemma {:induction false} ReconcileAllApart(w: World, cfg: Config, now: Time, completed: set<string>,
                                             tracked: map<string, ArchivedRecord>, order: seq<string>, id: string)
    requires (forall i :: 0 <= i < |order| ==> order[i] in tracked) && id !in order
    ensures Apart(w, ReconcileAll(w, cfg, now, completed, tracked, order), id)
  {
    if order != [] {
      var front, other := order[..|order| - 1], order[|order| - 1];
      var mid := ReconcileAll(w, cfg, now, completed, tracked, front);
      ReconcileAllApart(w, cfg, now, completed, tracked, front, id);
      ReconcileApart(mid, cfg, now, completed, other, tracked[other], id);
      ApartTransitive(w, mid, Reconcile(mid, cfg, now, completed, other, tracked[other]), id);
    }
  }

  lemma {:induction false} SpawnAllApart(w: World, cfg: Config, now: Time, due: seq<string>, name: string -> string,
                                         id: string)
    requires id !in due
    ensures Apart(w, SpawnAll(w, cfg, now, due, name), id)
  {
    if due != [] {
      var front, other := due[..|due| - 1], due[|due| - 1];
      var mid := SpawnAll(w, cfg, now, front, name);
      SpawnAllApart(w, cfg, now, front, name, id);
      SpawnApart(mid, cfg, now, other, name(other), id);
      ApartTransitive(w, mid, Spawn(mid, cfg, now, other, name(other)), id);
    }
  }

  lemma DoJobs(w: World, e: Effect, job: string)
    ensures !e.CreateJob? && !e.RemoveJob? ==> Do(w, e).jobs == w.jobs
    ensures !TouchesJob(e, job) ==> Lookup(Do(w, e).jobs, job) == Lookup(w.jobs, job)
  {}

  lemma DeleteJobs(w: World, cfg: Config, id: string)
    ensures DeleteVerified(w, cfg, id).jobs == w.jobs
  {
    DoJobs(w, DeleteAnalysis(id), "");
    DoJobs(Do(w, DeleteAnalysis(id)), ClearRecord(id), "");
  }

  lemma VerifyJobs(w: World, e: Effect, r: ArchivedRecord, cfg: Config, id: string)
    requires e.Observed?
    ensures DeleteVerified(Do(Do(w, e), PutRecord(id, r)), cfg, id).jobs == w.jobs
  {
    DoJobs(w, e, "");
    DoJobs(Do(w, e), PutRecord(id, r), "");
    DeleteJobs(Do(Do(w, e), PutRecord(id, r)), cfg, id);
  }

  lemma ReconcileJobs(w: World, cfg: Config, now: Time, completed: set<string>, id: string, r: ArchivedRecord)
    ensures Reconcile(w, cfg, now, completed, id, r).jobs == w.jobs
  {
    if id !in completed {
      DoJobs(w, ClearRecord(id), "");
    } else if r.verifiedAt.Some? {
      DeleteJobs(w, cfg, id);
    } else if r.jobName.None? {
      DoJobs(w, ClearRecord(id), "");
    } else {
      var e := Observed(r.jobName.value, Lookup(w.jobs, r.jobName.value));
      VerifyJobs(w, e, r.(verifiedAt := Some(now)), cfg, id);
      DoJobs(w, e, "");
      DoJobs(Do(w, e), ClearRecord(id), "");
    }
  }

  lemma {:induction false} ReconcileAllJobs(w: World, cfg: Config, now: Time, completed: set<string>,
                                            tracked: map<string, ArchivedRecord>, order: seq<string>)
    requires forall i :: 0 <= i < |order| ==> order[i] in tracked
    ensures ReconcileAll(w, cfg, now, completed, tracked, order).jobs == w.jobs
  {
    if order != [] {
      var front, id := order[..|order| - 1], order[|order| - 1];
      ReconcileAllJobs(w, cfg, now, completed, tracked, front);
      ReconcileJobs(ReconcileAll(w, cfg, now, completed, tracked, front), cfg, now, completed, id, tracked[id]);
    }
  }

  lemma CreateJobs(w: World, e: Effect, remove: bool, id: string, name: string, r: ArchivedRecord, job: string)
    requires e.Observed? && name != job
    ensures var freed := if remove then Do(Do(w, e), RemoveJob(name)) else Do(w, e);
            Lookup(Do(Do(freed, CreateJob(id, name)), PutRecord(id, r)).jobs, job) == Lookup(w.jobs, job)
  {
    var freed := if remove then Do(Do(w, e), RemoveJob(name)) else Do(w, e);
    DoJobs(w, e, job);
    DoJobs(Do(w, e), RemoveJob(name), job);
    DoJobs(freed, CreateJob(id, name), job);
    DoJobs(Do(freed, CreateJob(id, name)), PutRecord(id, r), job);
  }

  lemma SpawnJobs(w: World, cfg: Config, now: Time, id: string, name: string, job: string)
    requires name != job
    ensures Lookup(Spawn(w, cfg, now, id, name).jobs, job) == Lookup(w.jobs, job)
  {
    var existing := Lookup(w.jobs, name);
    var e := Observed(name, existing);
    DoJobs(w, e, job);
    if existing.Some? && TerminalCondition(existing.value) == Some(Complete) {
      VerifyJobs(w, e, InFlight(cfg, now, Some(name)).(verifiedAt := Some(now)), cfg, id);
    } else if existing.Some? && TerminalCondition(existing.value).None? {
      DoJobs(Do(w, e), PutRecord(id, InFlight(cfg, now, Some(name))), job);
    } else if cfg.dryRun {
      DoJobs(Do(w, e), PutRecord(id, InFlight(cfg, now, None)), job);
    } else {
      CreateJobs(w, e, existing.Some?, id, name, InFlight(cfg, now, Some(name)), job);
    }
  }

  lemma {:induction false} SpawnAllJobs(w: World, cfg: Config, now: Time, due: seq<string>, name: string -> string,
                                        job: string)
    requires forall x :: x in due ==> name(x) != job
    ensures Lookup(SpawnAll(w, cfg, now, due, name).jobs, job) == Lookup(w.jobs, job)
  {
    if due != [] {
      var front, id := due[..|due| - 1], due[|due| - 1];
      assert due == front + [id];
      SpawnAllJobs(w, cfg, now, front, name, job);
      SpawnJobs(SpawnAll(w, cfg, now, front, name), cfg, now, id, name(id), job);
    }
  }

  /** No other analysis has the same Job name. */
  ghost predicate Unshared(name: string -> string, id: string) { forall x :: x != id ==> name(x) != name(id) }

  /** Phase A handles a tracked analysis once, and everything before and after is apart from it. */
  lemma {:induction false} ReconcileAllAt(w: World, cfg: Config, now: Time, completed: set<string>,
                                          tracked: map<string, ArchivedRecord>, order: seq<string>, id: string,
                                          job: string) returns (at: World)
    requires (forall i :: 0 <= i < |order| ==> order[i] in tracked) && id in order && Distinct(order)
    ensures Apart(w, at, id) && LeavesJob(w, at, job) && at.jobs == w.jobs
    ensures Apart(Reconcile(at, cfg, now, completed, id, tracked[id]),
                  ReconcileAll(w, cfg, now, completed, tracked, order), id)
  {
    var front, last := order[..|order| - 1], order[|order| - 1];
    if last == id {
      at := ReconcileAll(w, cfg, now, completed, tracked, front);
      ReconcileAllApart(w, cfg, now, completed, tracked, front, id);
      ReconcileAllLeavesJob(w, cfg, now, completed, tracked, front, job);
      ReconcileAllJobs(w, cfg, now, completed, tracked, front);
    } else {
      at := ReconcileAllAt(w, cfg, now, completed, tracked, front, id, job);
      var mid := ReconcileAll(w, cfg, now, completed, tracked, front);
      ReconcileApart(mid, cfg, now, completed, last, tracked[last], id);
      ApartTransitive(Reconcile(at, cfg, now, completed, id, tracked[id]), mid,
                      Reconcile(mid, cfg, now, completed, last, tracked[last]), id);
    }
  }

  lemma {:induction false} SpawnAllAt(w: World, cfg: Config, now: Time, due: seq<string>, name: string -> string,
                                      id: string, job: string) returns (at: World)
    requires id in due && Distinct(due)
    ensures Apart(w, at, id) && LeavesJob(w, at, job)
    ensures Apart(Spawn(at, cfg, now, id, name(id)), SpawnAll(w, cfg, now, due, name), id)
    ensures Unshared(name, id) ==>
              && Lookup(at.jobs, name(id)) == Lookup(w.jobs, name(id))
              && Lookup(SpawnAll(w, cfg, now, due, name).jobs, name(id)) ==
                   Lookup(Spawn(at, cfg, now, id, name(id)).jobs, name(id))
  {
    var front, last := due[..|due| - 1], due[|due| - 1];
    assert due == front + [last];
    if last == id {
      if Unshared(name, id) { SpawnAllJobs(w, cfg, now, front, name, name(id)); }
      at := SpawnAll(w, cfg, now, front, name);
      SpawnAllApart(w, cfg, now, front, name, id);
      SpawnAllLeavesJob(w, cfg, now, front, name, job);
    } else {
      at := SpawnAllAt(w, cfg, now, front, name, id, job);
      var mid := SpawnAll(w, cfg, now, front, name);
      SpawnApart(mid, cfg, now, last, name(last), id);
      ApartTransitive(Spawn(at, cfg, now, id, name(id)), mid, Spawn(mid, cfg, now, last, name(last)), id);
      if Unshared(name, id) { SpawnJobs(mid, cfg, now, last, name(last), name(id)); }
    }
  }

  lemma {:induction false} DueDistinct(listing: seq<string>, byId: map<string, Doc>, tracked: set<string>, now: Time,
                                       retention: int)
    requires Distinct(listing)
    ensures Distinct(Due(listing, byId, tracked, now, retention))
  {
    if listing != [] {
      var front := listing[..|listing| - 1];
      DueDistinct(front, byId, tracked, now, retention);
      assert forall x :: x in Due(front, byId, tracked, now, retention) ==> x in front;
    }
  }

  /** A tracked analysis in a tick: reconciled once, apart from everything else. */
  lemma TrackedInTick(w: World, s: Step, name: string -> string, id: string) returns (at: World)
    requires s.TickStep? && CanTick(w, s) && Active(s.cfg) && id in w.archived
    ensures Apart(Start(w, s), at, id) && LeavesJob(w, at, name(id)) && at.jobs == w.jobs
    ensures Apart(Reconcile(at, s.cfg, s.now, CompletedById(w.server).Keys, id, w.archived[id]), TickFrom(w, s, name),
                  id)
  {
    TickParts(w, s, name);
    var keys, job := CompletedById(w.server).Keys, name(id);
    assert forall i :: 0 <= i < |s.order| ==> s.order[i] in Elements(s.order);
    assert id in Elements(s.order);
    DoApart(Start(w, s), Listed(keys), id);
    DoLeavesJob(Start(w, s), Listed(keys), job);
    at := ReconcileAllAt(ListedWorld(w, s), s.cfg, s.now, keys, w.archived, s.order, id, job);
    ApartTransitive(Start(w, s), ListedWorld(w, s), at, id);
    LeavesTransitive(Start(w, s), ListedWorld(w, s), at, job);
    SpawnAllApart(Reconciled(w, s), s.cfg, s.now, DueIds(w, s), name, id);
    ApartTransitive(Reconcile(at, s.cfg, s.now, keys, id, w.archived[id]), Reconciled(w, s), TickFrom(w, s, name), id);
  }

  /** An untracked due analysis in a tick: spawned or adopted once. */
  lemma DueInTick(w: World, s: Step, name: string -> string, id: string) returns (at: World)
    requires s.TickStep? && CanTick(w, s) && Active(s.cfg) && id in DueIds(w, s)
    ensures Apart(Start(w, s), at, id) && LeavesJob(w, at, name(id))
    ensures Apart(Spawn(at, s.cfg, s.now, id, name(id)), TickFrom(w, s, name), id)
    ensures Unshared(name, id) ==>
              && Lookup(at.jobs, name(id)) == Lookup(w.jobs, name(id))
              && Lookup(TickFrom(w, s, name).jobs, name(id)) ==
                   Lookup(Spawn(at, s.cfg, s.now, id, name(id)).jobs, name(id))
  {
    TickParts(w, s, name);
    var keys, job := CompletedById(w.server).Keys, name(id);
    assert forall i :: 0 <= i < |s.order| ==> s.order[i] in Elements(s.order);
    DoApart(Start(w, s), Listed(keys), id);
    DoLeavesJob(Start(w, s), Listed(keys), job);
    ReconcileAllApart(ListedWorld(w, s), s.cfg, s.now, keys, w.archived, s.order, id);
    ReconcileAllLeavesJob(ListedWorld(w, s), s.cfg, s.now, keys, w.archived, s.order, job);
    ApartTransitive(Start(w, s), ListedWorld(w, s), Reconciled(w, s), id);
    LeavesTransitive(Start(w, s), ListedWorld(w, s), Reconciled(w, s), job);
    DueDistinct(s.listing, CompletedById(w.server), w.archived.Keys, s.now, s.cfg.retention);
    ReconcileAllJobs(ListedWorld(w, s), s.cfg, s.now, keys, w.archived, s.order);
    at := SpawnAllAt(Reconciled(w, s), s.cfg, s.now, DueIds(w, s), name, id, job);
    ApartTransitive(Start(w, s), Reconciled(w, s), at, id);
    LeavesTransitive(Start(w, s), Reconciled(w, s), at, job);
  }

  // ---------------------------------------------------------------- recovery

  /** Since `w`, the analysis was deleted. */
  ghost predicate Deleted(w: World, after: World, id: string) {
    exists i :: |w.log| <= i < |after.log| && after.log[i] == DeleteAnalysis(id)
  }

  lemma DeletedLater(a: World, b: World, c: World, id: string)
    requires Grows(a, b) && Deleted(a, b, id) && Grows(b, c)
    ensures Deleted(a, c, id)
  {
    var i :| |a.log| <= i < |b.log| && b.log[i] == DeleteAnalysis(id);
    assert c.log[..|b.log|][i] == c.log[i];
  }

  lemma DeletedEarlier(a: World, b: World, c: World, id: string)
    requires Grows(a, b) && Deleted(b, c, id)
    ensures Deleted(a, c, id)
  {
    var i :| |b.log| <= i < |c.log| && c.log[i] == DeleteAnalysis(id);
  }

  lemma DeletedInside(a: World, b: World, c: World, d: World, id: string)
    requires Grows(a, b) && Grows(b, c) && Deleted(b, c, id) && Grows(c, d)
    ensures Deleted(a, d, id)
  {
    DeletedEarlier(a, b, c, id);
    assert c.log[..|b.log|][..|a.log|] == c.log[..|a.log|];
    DeletedLater(a, c, d, id);
  }

  /** A lost prune: the analysis is gone from the API. The tick retires the record and does not
      delete again, and even a crashed tick does not delete. */
  lemma LostPruneIsRetired(w: World, s: Step, name: string -> string, id: string)
    requires s.TickStep? && CanTick(w, s) && Active(s.cfg)
    requires id in w.archived && DocAt(w, id).None?
    ensures var after := TickFrom(w, s, name);
            !Deleted(w, after, id) && (!after.crashed ==> id !in after.archived)
  {
    var at := TrackedInTick(w, s, name, id);
    var after := TickFrom(w, s, name);
    var cleared := Do(at, ClearRecord(id));
    forall i | |w.log| <= i < |after.log| ensures after.log[i] != DeleteAnalysis(id) {
      if i < |at.log| { assert after.log[..|cleared.log|][..|at.log|][i] == after.log[i]; }
      else if i < |cleared.log| { assert after.log[..|cleared.log|][i] == after.log[i]; }
    }
  }

  lemma SpawnAdopts(at: World, after: World, cfg: Config, now: Time, id: string, job: string)
    requires job in at.jobs && TerminalCondition(at.jobs[job]).None?
    requires Apart(Spawn(at, cfg, now, id, job), after, id) && !after.crashed
    ensures RecordAt(after, id) == Some(InFlight(cfg, now, Some(job)))
  {}

  /** A lost record write: the Job runs, no record tracks it. The tick adopts the Job. */
  lemma LostRecordIsAdopted(w: World, s: Step, name: string -> string, id: string)
    requires s.TickStep? && CanTick(w, s) && Active(s.cfg) && id in DueIds(w, s)
    requires name(id) in w.jobs && IsRunning(w.jobs[name(id)])
    requires !TickFrom(w, s, name).crashed
    ensures RecordAt(TickFrom(w, s, name), id) == Some(InFlight(s.cfg, s.now, Some(name(id))))
  {
    TerminalIff(w.jobs[name(id)]);
    var at := DueInTick(w, s, name, id);
    SpawnAdopts(at, TickFrom(w, s, name), s.cfg, s.now, id, name(id));
  }

  predicate CanDelete(cfg: Config) { Active(cfg) && cfg.purge && !cfg.dryRun }

  lemma DeleteVerifiedDeletes(w: World, cfg: Config, id: string)
    requires CanDelete(cfg)
    ensures var after := DeleteVerified(w, cfg, id);
            !after.crashed ==>
              Grows(w, after) && Deleted(w, after, id) && id !in after.archived && DocAt(after, id).None?
  {
    var after := DeleteVerified(w, cfg, id);
    if !after.crashed {
      WithoutCompleted(w.server, id);
      assert after.log[|w.log|] == DeleteAnalysis(id);
    }
  }

  /** Deleted in this tick and gone, or a dry-run marker was cleared and everything else stands. */
  ghost predicate Progress(w: World, after: World, id: string) {
    && id !in after.archived
    && (if id in w.archived && w.archived[id].verifiedAt.None? && w.archived[id].jobName.None?
        then DocAt(after, id) == DocAt(w, id)
        else Deleted(w, after, id) && DocAt(after, id).None?)
  }

  lemma ReconcileProgress(at: World, cfg: Config, now: Time, completed: set<string>, id: string, r: ArchivedRecord,
                          job: string)
    requires CanDelete(cfg) && id in completed && (r.jobName.Some? ==> r.jobName.value == job)
    requires job in at.jobs && TerminalCondition(at.jobs[job]) == Some(Complete)
    ensures var after := Reconcile(at, cfg, now, completed, id, r);
            !after.crashed ==>
              && Grows(at, after) && id !in after.archived
              && (if r.verifiedAt.None? && r.jobName.None? then DocAt(after, id) == DocAt(at, id)
                  else Deleted(at, after, id) && DocAt(after, id).None?)
  {
    if r.verifiedAt.Some? {
      DeleteVerifiedDeletes(at, cfg, id);
    } else if r.jobName.Some? {
      var put := Do(Do(at, Observed(job, Some(at.jobs[job]))), PutRecord(id, r.(verifiedAt := Some(now))));
      DeleteVerifiedDeletes(put, cfg, id);
      var after := DeleteVerified(put, cfg, id);
      if !after.crashed {
        assert after.log[..|put.log|][..|at.log|] == at.log;
        DeletedEarlier(at, put, after, id);
      }
    }
  }

  lemma SpawnProgress(at: World, cfg: Config, now: Time, id: string, job: string)
    requires CanDelete(cfg) && job in at.jobs && TerminalCondition(at.jobs[job]) == Some(Complete)
    ensures var after := Spawn(at, cfg, now, id, job);
            !after.crashed ==>
              Grows(at, after) && id !in after.archived && Deleted(at, after, id) && DocAt(after, id).None?
  {
    var put := Do(Do(at, Observed(job, Some(at.jobs[job]))),
                  PutRecord(id, InFlight(cfg, now, Some(job)).(verifiedAt := Some(now))));
    DeleteVerifiedDeletes(put, cfg, id);
    var after := DeleteVerified(put, cfg, id);
    if !after.crashed {
      assert after.log[..|put.log|][..|at.log|] == at.log;
      DeletedEarlier(at, put, after, id);
    }
  }

  lemma TrackedProgress(w: World, s: Step, name: string -> string, id: string)
    requires s.TickStep? && CanTick(w, s) && CanDelete(s.cfg) && !TickFrom(w, s, name).crashed
    requires id in w.archived && RecordOk(id, w.archived[id], w.log, name)
    requires DocAt(w, id).Some? && Eligible(DocAt(w, id).value, s.now, s.cfg.retention)
    requires name(id) in w.jobs && TerminalCondition(w.jobs[name(id)]) == Some(Complete)
    ensures Progress(w, TickFrom(w, s, name), id)
  {
    var after, job := TickFrom(w, s, name), name(id);
    TerminalIff(w.jobs[name(id)]);
    var at := TrackedInTick(w, s, name, id);
    var done := Reconcile(at, s.cfg, s.now, CompletedById(w.server).Keys, id, w.archived[id]);
    ReconcileProgress(at, s.cfg, s.now, CompletedById(w.server).Keys, id, w.archived[id], job);
    if Deleted(at, done, id) { DeletedInside(w, at, done, after, id); }
  }

  lemma DueProgress(w: World, s: Step, name: string -> string, id: string)
    requires s.TickStep? && CanTick(w, s) && CanDelete(s.cfg) && !TickFrom(w, s, name).crashed
    requires id !in w.archived && DocAt(w, id).Some? && Eligible(DocAt(w, id).value, s.now, s.cfg.retention)
    requires name(id) in w.jobs && TerminalCondition(w.jobs[name(id)]) == Some(Complete)
    ensures Progress(w, TickFrom(w, s, name), id)
  {
    var after, job := TickFrom(w, s, name), name(id);
    assert id in Elements(s.listing);
    TerminalIff(w.jobs[name(id)]);
    var at := DueInTick(w, s, name, id);
    SpawnProgress(at, s.cfg, s.now, id, job);
    DeletedInside(w, at, Spawn(at, s.cfg, s.now, id, job), after, id);
  }

  /** A fault-free tick with the Job Complete and the analysis due or tracked makes progress. */
  lemma TickProgress(w: World, s: Step, name: string -> string, id: string)
    requires s.TickStep? && CanTick(w, s) && CanDelete(s.cfg) && !TickFrom(w, s, name).crashed
    requires id in w.archived ==> RecordOk(id, w.archived[id], w.log, name)
    requires DocAt(w, id).Some? && Eligible(DocAt(w, id).value, s.now, s.cfg.retention)
    requires name(id) in w.jobs && TerminalCondition(w.jobs[name(id)]) == Some(Complete)
    ensures Progress(w, TickFrom(w, s, name), id)
  {
    if id in w.archived { TrackedProgress(w, s, name, id); } else { DueProgress(w, s, name, id); }
  }

  /** An analysis that is neither tracked nor listed is left alone. */
  lemma UnknownUntouched(w: World, s: Step, name: string -> string, id: string)
    requires s.TickStep? && CanTick(w, s) && id !in w.archived && DocAt(w, id).None?
    ensures id !in TickFrom(w, s, name).archived && Grows(w, TickFrom(w, s, name))
  {
    if Active(s.cfg) {
      TickParts(w, s, name);
      var keys := CompletedById(w.server).Keys;
      assert forall i :: 0 <= i < |s.order| ==> s.order[i] in Elements(s.order);
      DoApart(Start(w, s), Listed(keys), id);
      ReconcileAllApart(ListedWorld(w, s), s.cfg, s.now, keys, w.archived, s.order, id);
      ApartTransitive(Start(w, s), ListedWorld(w, s), Reconciled(w, s), id);
      SpawnAllApart(Reconciled(w, s), s.cfg, s.now, DueIds(w, s), name, id);
      ApartTransitive(Start(w, s), Reconciled(w, s), TickFrom(w, s, name), id);
    }
  }

  /** Recovery: from every world reachable with crashes, whatever record the analysis has, once its
      Job is Complete and it is still listed and eligible, two fault-free ticks with purge on and
      dry-run off delete it and leave no record. */
  lemma TwoTicksFinish(worlds: seq<World>, steps: seq<Step>, name: string -> string, id: string, s1: Step, s2: Step)
    requires IsRun(worlds, steps, name) && s1.TickStep? && s2.TickStep?
    requires var w := worlds[|worlds| - 1];
             && DocAt(w, id).Some? && Eligible(DocAt(w, id).value, s1.now, s1.cfg.retention)
             && name(id) in w.jobs && IsComplete(w.jobs[name(id)])
             && CanTick(w, s1) && CanTick(TickFrom(w, s1, name), s2)
             && !TickFrom(w, s1, name).crashed && !TickFrom(TickFrom(w, s1, name), s2, name).crashed
    requires CanDelete(s1.cfg) && CanDelete(s2.cfg) && s1.cfg.retention == s2.cfg.retention && s1.now <= s2.now
    ensures var w := worlds[|worlds| - 1];
            var after := TickFrom(TickFrom(w, s1, name), s2, name);
            Deleted(w, after, id) && id !in after.archived
  {
    var w := worlds[|worlds| - 1];
    RunSound(worlds, steps, name, |worlds| - 1);
    TerminalIff(w.jobs[name(id)]);
    var mid := TickFrom(w, s1, name);
    var after := TickFrom(mid, s2, name);
    TickProgress(w, s1, name, id);
    NoSecondJob(w, s1, name, name(id));
    if DocAt(mid, id).None? {
      UnknownUntouched(mid, s2, name, id);
      DeletedLater(w, mid, after, id);
    } else {
      TickProgress(mid, s2, name, id);
      DeletedEarlier(w, mid, after, id);
    }
  }
}
