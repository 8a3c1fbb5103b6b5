/** The order in which the retention pipeline writes, which is what makes it safe to crash anywhere. */
module RetentionOrder {
  import opened Basics
  import opened Ordering
  import opened Records
  import opened Retention
  import opened RetentionRuns
  import opened RetentionRecovery

  /** The record of the analysis that the log leaves in force. */
  function InForce(log: seq<Effect>, id: string): Option<ArchivedRecord> {
    if log == [] then None
    else
      var e := log[|log| - 1];
      if e.PutRecord? && e.id == id then Some(e.record)
      else if e == ClearRecord(id) then None
      else InForce(log[..|log| - 1], id)
  }

  /** The last that the log knows of the Job: it was seen or created, and not removed since. */
  predicate KnownJob(log: seq<Effect>, job: string) {
    log != [] &&
    var e := log[|log| - 1];
    if e.Observed? && e.job == job then e.state.Some?
    else if e.CreateJob? && e.job == job then true
    else if e == RemoveJob(job) then false
    else KnownJob(log[..|log| - 1], job)
  }

  predicate Verified(r: Option<ArchivedRecord>) { r.Some? && r.value.verifiedAt.Some? }

  /** What must have been written, or seen, before the effect. */
  predicate Prepared(log: seq<Effect>, e: Effect) {
    match e
    case DeleteAnalysis(id) => Verified(InForce(log, id))
    case PutRecord(_, r) => r.jobName.Some? ==> KnownJob(log, r.jobName.value)
    case _ => true
  }

  predicate InOrder(log: seq<Effect>) { forall i :: 0 <= i < |log| ==> Prepared(log[..i], log[i]) }

  /** The log is in order, and the records are those it leaves in force. */
  ghost predicate Written(w: World) { InOrder(w.log) && forall id :: RecordAt(w, id) == InForce(w.log, id) }

  lemma InOrderGrows(log: seq<Effect>, e: Effect)
    requires InOrder(log) && Prepared(log, e)
    ensures InOrder(log + [e])
  {
    var more := log + [e];
    forall i | 0 <= i < |more| ensures Prepared(more[..i], more[i]) { assert more[..i] == log[..i]; }
    assert more[..|log|] == log;
  }

  lemma InForceGrows(log: seq<Effect>, e: Effect, id: string)
    ensures InForce(log + [e], id) ==
              if e.PutRecord? && e.id == id then Some(e.record) else if e == ClearRecord(id) then None
              else InForce(log, id)
  {
    assert (log + [e])[..|log|] == log;
  }

  lemma KnownNow(log: seq<Effect>, e: Effect, job: string)
    requires (e.Observed? && e.job == job && e.state.Some?) || (e.CreateJob? && e.job == job)
    ensures KnownJob(log + [e], job)
  {}

  lemma DoWritten(w: World, e: Effect)
    requires Written(w) && (!w.crashed ==> Prepared(w.log, e))
    ensures Written(Do(w, e))
  {
    if !w.crashed && w.fuel > 0 {
      InOrderGrows(w.log, e);
      forall id ensures RecordAt(Do(w, e), id) == InForce(w.log + [e], id) { InForceGrows(w.log, e, id); }
    }
  }

  lemma DeleteWritten(w: World, cfg: Config, id: string)
    requires Written(w) && (!w.crashed ==> Verified(RecordAt(w, id)))
    ensures Written(DeleteVerified(w, cfg, id))
  {
    DoWritten(w, DeleteAnalysis(id));
    DoWritten(Do(w, DeleteAnalysis(id)), ClearRecord(id));
  }

  /** See the Job, or create it; then record it. */
  lemma PutWritten(w: World, e: Effect, id: string, r: ArchivedRecord)
    requires Written(w) && (e.CreateJob? || e.Observed?)
    requires r.jobName.Some? ==> r.jobName.value == e.job && (e.Observed? ==> e.state.Some?)
    ensures Written(Do(w, e)) && Written(Do(Do(w, e), PutRecord(id, r)))
  {
    DoWritten(w, e);
    if !Do(w, e).crashed && r.jobName.Some? { KnownNow(w.log, e, r.jobName.value); }
    DoWritten(Do(w, e), PutRecord(id, r));
  }

  lemma VerifyWritten(w: World, e: Effect, cfg: Config, id: string, r: ArchivedRecord)
    requires Written(w) && e.Observed? && e.state.Some? && r.jobName == Some(e.job) && r.verifiedAt.Some?
    ensures Written(DeleteVerified(Do(Do(w, e), PutRecord(id, r)), cfg, id))
  {
    PutWritten(w, e, id, r);
    DeleteWritten(Do(Do(w, e), PutRecord(id, r)), cfg, id);
  }

  lemma ReconcileWritten(w: World, cfg: Config, now: Time, completed: set<string>, id: string, r: ArchivedRecord)
    requires Written(w) && RecordAt(w, id) == Some(r)
    ensures Written(Reconcile(w, cfg, now, completed, id, r))
  {
    if id !in completed || r.verifiedAt.Some? || r.jobName.None? {
      DoWritten(w, ClearRecord(id));
      if r.verifiedAt.Some? { DeleteWritten(w, cfg, id); }
    } else {
      var job := Lookup(w.jobs, r.jobName.value);
      var e := Observed(r.jobName.value, job);
      DoWritten(w, e);
      DoWritten(Do(w, e), ClearRecord(id));
      if job.Some? { VerifyWritten(w, e, cfg, id, r.(verifiedAt := Some(now))); }
    }
  }

  lemma SpawnWritten(w: World, cfg: Config, now: Time, id: string, name: string)
    requires Written(w)
    ensures Written(Spawn(w, cfg, now, id, name))
  {
    var existing := Lookup(w.jobs, name);
    var e := Observed(name, existing);
    DoWritten(w, e);
    if existing.Some? && TerminalCondition(existing.value) == Some(Complete) {
      VerifyWritten(w, e, cfg, id, InFlight(cfg, now, Some(name)).(verifiedAt := Some(now)));
    } else if existing.Some? && TerminalCondition(existing.value).None? {
      PutWritten(w, e, id, InFlight(cfg, now, Some(name)));
    } else if cfg.dryRun {
      PutWritten(w, e, id, InFlight(cfg, now, None));
    } else {
      DoWritten(Do(w, e), RemoveJob(name));
      var freed := if existing.Some? then Do(Do(w, e), RemoveJob(name)) else Do(w, e);
      PutWritten(freed, CreateJob(id, name), id, InFlight(cfg, now, Some(name)));
    }
  }

  lemma {:induction false} ReconcileAllWritten(w: World, cfg: Config, now: Time, completed: set<string>,
                                               tracked: map<string, ArchivedRecord>, order: seq<string>)
    requires Written(w) && w.archived == tracked && Distinct(order)
    requires forall i :: 0 <= i < |order| ==> order[i] in tracked
    ensures Written(ReconcileAll(w, cfg, now, completed, tracked, order))
  {
    if order != [] {
      var front, id := order[..|order| - 1], order[|order| - 1];
      ReconcileAllWritten(w, cfg, now, completed, tracked, front);
      ReconcileAllApart(w, cfg, now, completed, tracked, front, id);
      ReconcileWritten(ReconcileAll(w, cfg, now, completed, tracked, front), cfg, now, completed, id, tracked[id]);
    }
  }

  lemma {:induction false} SpawnAllWritten(w: World, cfg: Config, now: Time, due: seq<string>, name: string -> string)
    requires Written(w)
    ensures Written(SpawnAll(w, cfg, now, due, name))
  {
    if due != [] {
      var front, id := due[..|due| - 1], due[|due| - 1];
      SpawnAllWritten(w, cfg, now, front, name);
      SpawnWritten(SpawnAll(w, cfg, now, front, name), cfg, now, id, name(id));
    }
  }

  lemma NextWritten(w: World, s: Step, after: World, name: string -> string)
    requires Written(w) && Next(w, s, after, name)
    ensures Written(after)
  {
    match s
    case TickStep(_, _, _, _, _) =>
      if Active(s.cfg) {
        TickParts(w, s, name);
        var keys := CompletedById(w.server).Keys;
        assert forall i :: 0 <= i < |s.order| ==> s.order[i] in Elements(s.order);
        DoWritten(Start(w, s), Listed(keys));
        ReconcileAllWritten(ListedWorld(w, s), s.cfg, s.now, keys, w.archived, s.order);
        SpawnAllWritten(Reconciled(w, s), s.cfg, s.now, DueIds(w, s), name);
      }
    case Environment(_, _) =>
      assert forall id :: RecordAt(after, id) == RecordAt(w, id);
    case Forget(id) =>
      var start := w.(fuel := 1, crashed := false);
      assert forall x :: RecordAt(start, x) == RecordAt(w, x);
      DoWritten(start, ClearRecord(id));
  }

  /** Over whole runs, with a crash at any effect: an analysis is deleted only while its own record stands
      and is verified, so that the stamp is written before the delete and the record cleared after it; and
      a record names a Job only once the Job was seen or created, and not removed since. */
  lemma {:induction false} WritesComeInOrder(worlds: seq<World>, steps: seq<Step>, name: string -> string, i: nat)
    requires IsRun(worlds, steps, name) && i < |worlds|
    ensures InOrder(worlds[i].log) && forall id :: RecordAt(worlds[i], id) == InForce(worlds[i].log, id)
  {
    if i > 0 {
      WritesComeInOrder(worlds, steps, name, i - 1);
      assert Next(worlds[i - 1], steps[i - 1], worlds[i], name);
      NextWritten(worlds[i - 1], steps[i - 1], worlds[i], name);
    }
  }
}
