/** The cardinal rule and crash recovery, over whole runs of the retention pipeline. */
module RetentionRuns {
  import opened Basics
  import opened Ordering
  import opened Records
  import opened Retention

  /** A scheduled tick with its own config and crash point; any change of Jobs and analyses that is not
      the pipeline's; or a record dropped by the hygiene prune or by cap eviction. */
  datatype Step =
    | TickStep(cfg: Config, now: Time, order: seq<string>, listing: seq<string>, fuel: nat)
    | Environment(jobs: map<string, Job>, server: seq<Doc>)
    | Forget(id: string)

  predicate CanTick(w: World, s: Step)
    requires s.TickStep?
  {
    Lists(s.order, w.archived.Keys) && Lists(s.listing, CompletedById(w.server).Keys)
  }

  function TickFrom(w: World, s: Step, name: string -> string): World
    requires s.TickStep? && CanTick(w, s)
  {
    Tick(w.(fuel := s.fuel, crashed := false), s.cfg, s.now, s.order, s.listing, name)
  }

  ghost predicate Next(w: World, s: Step, after: World, name: string -> string) {
    match s
    case TickStep(_, _, _, _, _) => CanTick(w, s) && after == TickFrom(w, s, name)
    case Environment(jobs, server) => after == w.(jobs := jobs, server := server)
    case Forget(id) => after == Do(w.(fuel := 1, crashed := false), ClearRecord(id))
  }

  ghost predicate IsRun(worlds: seq<World>, steps: seq<Step>, name: string -> string) {
    && |worlds| == |steps| + 1
    && worlds[0].archived == map[] && worlds[0].log == []
    && forall i :: 0 <= i < |steps| ==> Next(worlds[i], steps[i], worlds[i + 1], name)
  }

  // ---------------------------------------------------------------- the cardinal rule

  /** The Job was seen, and its first true terminal condition was Complete. */
  predicate SawComplete(e: Effect, job: string) {
    e.Observed? && e.job == job && e.state.Some? && IsComplete(e.state.value)
  }

  /** The Job was observed Complete at some point of the log. */
  predicate Proven(log: seq<Effect>, job: string) { exists i :: 0 <= i < |log| && SawComplete(log[i], job) }

  /** The ids of the last listing. */
  function LastListed(log: seq<Effect>): set<string> {
    if log == [] then {}
    else if log[|log| - 1].Listed? then log[|log| - 1].ids
    else LastListed(log[..|log| - 1])
  }

  predicate RecordOk(id: string, r: ArchivedRecord, log: seq<Effect>, name: string -> string) {
    && (r.jobName.Some? ==> r.jobName.value == name(id))
    && (r.verifiedAt.Some? ==> Proven(log, name(id)))
  }

  /** Entry i, if it is a delete, was earned: the analysis' own Job had been observed Complete
      and the tick's listing had the analysis completed. */
  predicate Earned(log: seq<Effect>, i: int, name: string -> string)
    requires 0 <= i < |log|
  {
    log[i].DeleteAnalysis? ==> Proven(log[..i], name(log[i].id)) && log[i].id in LastListed(log[..i])
  }

  predicate CardinalRule(log: seq<Effect>, name: string -> string) {
    forall i :: 0 <= i < |log| ==> Earned(log, i, name)
  }

  predicate Sound(w: World, name: string -> string) {
    && CardinalRule(w.log, name)
    && forall id :: id in w.archived ==> RecordOk(id, w.archived[id], w.log, name)
  }

  lemma ProvenGrows(log: seq<Effect>, e: Effect, job: string)
    ensures Proven(log, job) || SawComplete(e, job) <==> Proven(log + [e], job)
  {
    if Proven(log, job) {
      var i :| 0 <= i < |log| && SawComplete(log[i], job);
      assert SawComplete((log + [e])[i], job);
    }
    if SawComplete(e, job) { assert SawComplete((log + [e])[|log|], job); }
  }

  lemma RuleGrows(log: seq<Effect>, e: Effect, name: string -> string)
    requires CardinalRule(log, name)
    requires e.DeleteAnalysis? ==> Proven(log, name(e.id)) && e.id in LastListed(log)
    ensures CardinalRule(log + [e], name)
    ensures LastListed(log + [e]) == if e.Listed? then e.ids else LastListed(log)
  {
    var more := log + [e];
    assert more[..|log|] == log;
    forall i | 0 <= i < |more| ensures Earned(more, i, name) {
      assert more[..i] == log[..i];
      assert i < |log| ==> Earned(log, i, name);
    }
  }

  /** When an effect is in order. */
  predicate Fits(w: World, e: Effect, name: string -> string) {
    match e
    case PutRecord(id, r) => RecordOk(id, r, w.log, name)
    case DeleteAnalysis(id) => Proven(w.log, name(id)) && id in LastListed(w.log)
    case _ => true
  }

  lemma DoSound(w: World, e: Effect, name: string -> string)
    requires Sound(w, name) && (!w.crashed ==> Fits(w, e, name))
    ensures Sound(Do(w, e), name)
    ensures !Do(w, e).crashed ==> !w.crashed && Do(w, e).log == w.log + [e]
  {
    if !w.crashed && w.fuel > 0 {
      RuleGrows(w.log, e, name);
      forall id | id in Do(w, e).archived ensures RecordOk(id, Do(w, e).archived[id], w.log + [e], name) {
        ProvenGrows(w.log, e, name(id));
      }
    }
  }

  /** Inside a tick: sound, and the listing in force is the tick's. */
  predicate Ticking(w: World, completed: set<string>, name: string -> string) {
    Sound(w, name) && (!w.crashed ==> LastListed(w.log) == completed)
  }

  lemma DoTicking(w: World, e: Effect, completed: set<string>, name: string -> string)
    requires Ticking(w, completed, name) && !e.Listed? && (!w.crashed ==> Fits(w, e, name))
    ensures Ticking(Do(w, e), completed, name)
    ensures !Do(w, e).crashed ==> !w.crashed && Do(w, e).log == w.log + [e]
  {
    DoSound(w, e, name);
    RuleGrows(w.log, if w.crashed then Observed("", None) else e, name);
  }

  lemma DeleteVerifiedTicking(w: World, cfg: Config, id: string, completed: set<string>, name: string -> string)
    requires Ticking(w, completed, name) && id in completed && (!w.crashed ==> Proven(w.log, name(id)))
    ensures Ticking(DeleteVerified(w, cfg, id), completed, name)
  {
    if cfg.purge && !cfg.dryRun {
      DoTicking(w, DeleteAnalysis(id), completed, name);
      DoTicking(Do(w, DeleteAnalysis(id)), ClearRecord(id), completed, name);
    }
  }

  /** Observe the Job, then record it verified, then delete: every step is in order. */
  lemma VerifyTicking(w: World, cfg: Config, id: string, job: Job, r: ArchivedRecord, completed: set<string>,
                      name: string -> string)
    requires Ticking(w, completed, name) && id in completed
    requires TerminalCondition(job) == Some(Complete) && r.jobName == Some(name(id))
    ensures Ticking(DeleteVerified(Do(Do(w, Observed(name(id), Some(job))), PutRecord(id, r)), cfg, id), completed,
                    name)
  {
    var e := Observed(name(id), Some(job));
    TerminalIff(job);
    DoTicking(w, e, completed, name);
    var seen := Do(w, e);
    ProvenGrows(w.log, e, name(id));
    DoTicking(seen, PutRecord(id, r), completed, name);
    ProvenGrows(seen.log, PutRecord(id, r), name(id));
    DeleteVerifiedTicking(Do(seen, PutRecord(id, r)), cfg, id, completed, name);
  }

  lemma ReconcileTicking(w: World, cfg: Config, now: Time, completed: set<string>, id: string, r: ArchivedRecord,
                         name: string -> string)
    requires Ticking(w, completed, name) && RecordOk(id, r, w.log, name)
    ensures Ticking(Reconcile(w, cfg, now, completed, id, r), completed, name)
  {
    if id !in completed {
      DoTicking(w, ClearRecord(id), completed, name);
    } else if r.verifiedAt.Some? {
      DeleteVerifiedTicking(w, cfg, id, completed, name);
    } else if r.jobName.None? {
      DoTicking(w, ClearRecord(id), completed, name);
    } else {
      var job := Lookup(w.jobs, r.jobName.value);
      var e := Observed(r.jobName.value, job);
      DoTicking(w, e, completed, name);
      DoTicking(Do(w, e), ClearRecord(id), completed, name);
      if job.Some? && TerminalCondition(job.value) == Some(Complete) {
        VerifyTicking(w, cfg, id, job.value, r.(verifiedAt := Some(now)), completed, name);
      }
    }
  }

  lemma SpawnTicking(w: World, cfg: Config, now: Time, completed: set<string>, id: string, name: string -> string)
    requires Ticking(w, completed, name) && id in completed
    ensures Ticking(Spawn(w, cfg, now, id, name(id)), completed, name)
  {
    var job, existing := name(id), Lookup(w.jobs, name(id));
    var e := Observed(job, existing);
    DoTicking(w, e, completed, name);
    var seen := Do(w, e);
    if existing.Some? && TerminalCondition(existing.value) == Some(Complete) {
      VerifyTicking(w, cfg, id, existing.value, InFlight(cfg, now, Some(job)).(verifiedAt := Some(now)), completed,
                    name);
    } else {
      DoTicking(seen, PutRecord(id, InFlight(cfg, now, Some(job))), completed, name);
      DoTicking(seen, PutRecord(id, InFlight(cfg, now, None)), completed, name);
      DoTicking(seen, RemoveJob(job), completed, name);
      var freed := if existing.Some? then Do(seen, RemoveJob(job)) else seen;
      DoTicking(freed, CreateJob(id, job), completed, name);
      DoTicking(Do(freed, CreateJob(id, job)), PutRecord(id, InFlight(cfg, now, Some(job))), completed, name);
    }
  }

  /** The log only grows. */
  predicate Grows(w: World, after: World) { |w.log| <= |after.log| && after.log[..|w.log|] == w.log }

  lemma ReconcileGrows(w: World, cfg: Config, now: Time, completed: set<string>, id: string, r: ArchivedRecord)
    ensures Grows(w, Reconcile(w, cfg, now, completed, id, r))
  {}

  lemma RecordStaysOk(id: string, r: ArchivedRecord, w: World, after: World, name: string -> string)
    requires RecordOk(id, r, w.log, name) && Grows(w, after)
    ensures RecordOk(id, r, after.log, name)
  {
    if r.verifiedAt.Some? {
      var i :| 0 <= i < |w.log| && SawComplete(w.log[i], name(id));
      assert after.log[..|w.log|][i] == after.log[i];
    }
  }

  lemma {:induction false} ReconcileAllTicking(w: World, cfg: Config, now: Time, completed: set<string>,
                                               tracked: map<string, ArchivedRecord>, order: seq<string>,
                                               name: string -> string)
    requires Ticking(w, completed, name)
    requires forall i :: 0 <= i < |order| ==> order[i] in tracked
    requires forall id :: id in tracked ==> RecordOk(id, tracked[id], w.log, name)
    ensures Ticking(ReconcileAll(w, cfg, now, completed, tracked, order), completed, name)
    ensures Grows(w, ReconcileAll(w, cfg, now, completed, tracked, order))
  {
    if order != [] {
      var front, id := order[..|order| - 1], order[|order| - 1];
      ReconcileAllTicking(w, cfg, now, completed, tracked, front, name);
      var mid := ReconcileAll(w, cfg, now, completed, tracked, front);
      RecordStaysOk(id, tracked[id], w, mid, name);
      ReconcileTicking(mid, cfg, now, completed, id, tracked[id], name);
      ReconcileGrows(mid, cfg, now, completed, id, tracked[id]);
    }
  }

  lemma {:induction false} SpawnAllTicking(w: World, cfg: Config, now: Time, completed: set<string>, due: seq<string>,
                                           name: string -> string)
    requires Ticking(w, completed, name) && forall i :: 0 <= i < |due| ==> due[i] in completed
    ensures Ticking(SpawnAll(w, cfg, now, due, name), completed, name)
  {
    if due != [] {
      var front := due[..|due| - 1];
      SpawnAllTicking(w, cfg, now, completed, front, name);
      SpawnTicking(SpawnAll(w, cfg, now, front, name), cfg, now, completed, due[|due| - 1], name);
    }
  }

  lemma TickSound(w: World, s: Step, name: string -> string)
    requires s.TickStep? && CanTick(w, s) && Sound(w, name)
    ensures Sound(TickFrom(w, s, name), name)
  {
    var start := w.(fuel := s.fuel, crashed := false);
    if Active(s.cfg) {
      var byId := CompletedById(w.server);
      var listed := Do(start, Listed(byId.Keys));
      DoSound(start, Listed(byId.Keys), name);
      RuleGrows(start.log, Listed(byId.Keys), name);
      forall i | 0 <= i < |s.order| ensures s.order[i] in w.archived { assert s.order[i] in Elements(s.order); }
      forall id | id in w.archived ensures RecordOk(id, w.archived[id], listed.log, name) {
        RecordStaysOk(id, w.archived[id], start, listed, name);
      }
      ReconcileAllTicking(listed, s.cfg, s.now, byId.Keys, w.archived, s.order, name);
      var reconciled := ReconcileAll(listed, s.cfg, s.now, byId.Keys, w.archived, s.order);
      SpawnAllTicking(reconciled, s.cfg, s.now, byId.Keys,
                      Due(s.listing, byId, w.archived.Keys, s.now, s.cfg.retention), name);
    }
  }

  lemma {:induction false} RunSound(worlds: seq<World>, steps: seq<Step>, name: string -> string, i: nat)
    requires IsRun(worlds, steps, name) && i < |worlds|
    ensures Sound(worlds[i], name)
  {
    if i > 0 {
      RunSound(worlds, steps, name, i - 1);
      assert Next(worlds[i - 1], steps[i - 1], worlds[i], name);
      NextSound(worlds[i - 1], steps[i - 1], worlds[i], name);
    }
  }

  lemma NextSound(w: World, s: Step, after: World, name: string -> string)
    requires Sound(w, name) && Next(w, s, after, name)
    ensures Sound(after, name)
  {
    match s
    case TickStep(_, _, _, _, _) => TickSound(w, s, name);
    case Environment(_, _) =>
    case Forget(id) => DoSound(w.(fuel := 1, crashed := false), ClearRecord(id), name);
  }

  /** The cardinal rule over whole runs: from empty records, with any Job outcomes, any change of
      the analyses, records dropped by others, config changing between ticks and a crash at any
      effect, an analysis is deleted only after the Job of its own name was observed Complete, and only
      in a tick that listed the analysis as completed. */
  lemma NeverDeletedUnverified(worlds: seq<World>, steps: seq<Step>, name: string -> string)
    requires IsRun(worlds, steps, name)
    ensures CardinalRule(worlds[|worlds| - 1].log, name)
  {
    RunSound(worlds, steps, name, |worlds| - 1);
  }
}
