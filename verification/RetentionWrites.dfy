/** The record writes of the retention pipeline: each carries what is stored, and together they do to
    the table of records what the pipeline does to its own map. */
module RetentionWrites {
  import opened Basics
  import opened Ordering
  import opened Records
  import opened StatusRefinement
  import opened Retention
  import opened RetentionRuns
  import opened RetentionRecovery

  /** The status write that an effect makes, if any. */
  function WriteOf(e: Effect): Option<Write> {
    match e
    case PutRecord(id, r) => Some(Put(id, Archived(r)))
    case ClearRecord(id) => Some(Drop(ArchivedAnalyses, id))
    case _ => None
  }

  function WritesOf(log: seq<Effect>): seq<Write> {
    if log == [] then []
    else
      var front, x := WritesOf(log[..|log| - 1]), WriteOf(log[|log| - 1]);
      if x.Some? then front + [x.value] else front
  }

  /** At (f, k) the table holds the pipeline's record, or what the base holds if f is another map. */
  predicate ShowsAt(t: Table, base: Table, archived: map<string, ArchivedRecord>, f: Field, k: string) {
    if f == ArchivedAnalyses
    then ((f, k) in t <==> k in archived) && (k in archived ==> t[(f, k)] == Archived(archived[k]))
    else ((f, k) in t <==> (f, k) in base) && ((f, k) in base ==> t[(f, k)] == base[(f, k)])
  }

  ghost predicate Shows(t: Table, base: Table, w: World) { forall f, k :: ShowsAt(t, base, w.archived, f, k) }

  /** Since entry n of the log every write was admissible, and they made of the base what `w` holds. */
  ghost predicate Follows(base: Table, n: nat, w: World) {
    && n <= |w.log| && AllAdmissible(base, WritesOf(w.log[n..]))
    && Shows(Plain(base, WritesOf(w.log[n..])), base, w)
  }

  /** A put carries what is recorded. */
  predicate CarriesHere(w: World, id: string, r: ArchivedRecord) {
    id in w.archived ==> Carries(Archived(w.archived[id]), Archived(r))
  }

  lemma ShowsChange(t: Table, base: Table, w: World, e: Effect)
    requires Shows(t, base, w) && (e.PutRecord? ==> CarriesHere(w, e.id, e.record))
    ensures WriteOf(e).Some? ==>
              Admissible(t, WriteOf(e).value) && Shows(ApplyPlain(t, WriteOf(e).value), base, Change(w, e))
    ensures WriteOf(e).None? ==> Shows(t, base, Change(w, e))
  {
    if e.PutRecord? || e.ClearRecord? {
      assert ShowsAt(t, base, w.archived, ArchivedAnalyses, e.id);
      forall f, k ensures ShowsAt(ApplyPlain(t, WriteOf(e).value), base, Change(w, e).archived, f, k) {
        assert ShowsAt(t, base, w.archived, f, k);
      }
    }
  }

  lemma WritesGrow(log: seq<Effect>, e: Effect)
    ensures WritesOf(log + [e]) == if WriteOf(e).Some? then WritesOf(log) + [WriteOf(e).value] else WritesOf(log)
  {
    assert (log + [e])[..|log|] == log;
  }

  lemma DoFollows(base: Table, n: nat, w: World, e: Effect)
    requires Follows(base, n, w) && InOrder(w, e)
    ensures Follows(base, n, Do(w, e))
  {
    if !w.crashed && w.fuel > 0 {
      assert (w.log + [e])[n..] == w.log[n..] + [e];
      ChangeFollows(base, WritesOf(w.log[n..]), w, e);
      WritesGrow(w.log[n..], e);
    }
  }

  lemma ChangeFollows(base: Table, writes: seq<Write>, w: World, e: Effect)
    requires AllAdmissible(base, writes) && Shows(Plain(base, writes), base, w)
    requires e.PutRecord? ==> CarriesHere(w, e.id, e.record)
    ensures var more := if WriteOf(e).Some? then writes + [WriteOf(e).value] else writes;
            AllAdmissible(base, more) && Shows(Plain(base, more), base, Change(w, e))
  {
    ShowsChange(Plain(base, writes), base, w, e);
    if WriteOf(e).Some? { AdmissibleGrows(base, writes, WriteOf(e).value); }
  }

  // ---------------------------------------------------------------- any invariant of orderly effects

  predicate InOrder(w: World, e: Effect) {
    e.PutRecord? && !w.crashed ==> CarriesHere(w, e.id, e.record)
  }

  /** The invariant survives every effect whose put carries what is recorded. */
  ghost predicate Preserved(inv: World -> bool) {
    forall w, e :: inv(w) && InOrder(w, e) ==> inv(Do(w, e))
  }

  lemma DoKeeps(w: World, e: Effect, inv: World -> bool)
    requires Preserved(inv) && inv(w) && InOrder(w, e)
    ensures inv(Do(w, e))
  {}

  lemma DeleteVerifiedKeeps(w: World, cfg: Config, id: string, inv: World -> bool)
    requires Preserved(inv) && inv(w)
    ensures inv(DeleteVerified(w, cfg, id))
  {
    DoKeeps(w, DeleteAnalysis(id), inv);
    DoKeeps(Do(w, DeleteAnalysis(id)), ClearRecord(id), inv);
  }

  lemma ReconcileKeeps(w: World, cfg: Config, now: Time, completed: set<string>, id: string, r: ArchivedRecord,
                       inv: World -> bool)
    requires Preserved(inv) && inv(w) && RecordAt(w, id) == Some(r)
    ensures inv(Reconcile(w, cfg, now, completed, id, r))
  {
    DoKeeps(w, ClearRecord(id), inv);
    DeleteVerifiedKeeps(w, cfg, id, inv);
    if r.jobName.Some? {
      var e, put := Observed(r.jobName.value, Lookup(w.jobs, r.jobName.value)),
                    PutRecord(id, r.(verifiedAt := Some(now)));
      DoKeeps(w, e, inv);
      DoKeeps(Do(w, e), ClearRecord(id), inv);
      if r.verifiedAt.None? {
        DoKeeps(Do(w, e), put, inv);
        DeleteVerifiedKeeps(Do(Do(w, e), put), cfg, id, inv);
      }
    }
  }

  lemma SpawnKeeps(w: World, cfg: Config, now: Time, id: string, job: string, inv: World -> bool)
    requires Preserved(inv) && inv(w) && id !in w.archived
    ensures inv(Spawn(w, cfg, now, id, job))
  {
    var existing := Lookup(w.jobs, job);
    var seen := Do(w, Observed(job, existing));
    var complete := PutRecord(id, InFlight(cfg, now, Some(job)).(verifiedAt := Some(now)));
    DoKeeps(w, Observed(job, existing), inv);
    DoKeeps(seen, complete, inv);
    DeleteVerifiedKeeps(Do(seen, complete), cfg, id, inv);
    DoKeeps(seen, PutRecord(id, InFlight(cfg, now, Some(job))), inv);
    DoKeeps(seen, PutRecord(id, InFlight(cfg, now, None)), inv);
    DoKeeps(seen, RemoveJob(job), inv);
    var freed := if existing.Some? then Do(seen, RemoveJob(job)) else seen;
    DoKeeps(freed, CreateJob(id, job), inv);
    DoKeeps(Do(freed, CreateJob(id, job)), PutRecord(id, InFlight(cfg, now, Some(job))), inv);
  }

  lemma {:induction false} ReconcileAllKeeps(w: World, cfg: Config, now: Time, completed: set<string>,
                                             tracked: map<string, ArchivedRecord>, order: seq<string>,
                                             inv: World -> bool)
    requires Preserved(inv) && inv(w) && w.archived == tracked && Distinct(order)
    requires forall i :: 0 <= i < |order| ==> order[i] in tracked
    ensures inv(ReconcileAll(w, cfg, now, completed, tracked, order))
  {
    if order != [] {
      var front, id := order[..|order| - 1], order[|order| - 1];
      ReconcileAllKeeps(w, cfg, now, completed, tracked, front, inv);
      ReconcileAllApart(w, cfg, now, completed, tracked, front, id);
      ReconcileKeeps(ReconcileAll(w, cfg, now, completed, tracked, front), cfg, now, completed, id, tracked[id], inv);
    }
  }

  lemma {:induction false} SpawnAllKeeps(w: World, cfg: Config, now: Time, due: seq<string>, name: string -> string,
                                         inv: World -> bool)
    requires Preserved(inv) && inv(w) && Distinct(due) && forall i :: 0 <= i < |due| ==> due[i] !in w.archived
    ensures inv(SpawnAll(w, cfg, now, due, name))
  {
    if due != [] {
      var front, id := due[..|due| - 1], due[|due| - 1];
      SpawnAllKeeps(w, cfg, now, front, name, inv);
      SpawnAllApart(w, cfg, now, front, name, id);
      SpawnKeeps(SpawnAll(w, cfg, now, front, name), cfg, now, id, name(id), inv);
    }
  }

  /** Phase A leaves untracked ids untracked. */
  lemma DueUntracked(w: World, s: Step, i: int)
    requires s.TickStep? && CanTick(w, s) && 0 <= i < |DueIds(w, s)|
    ensures DueIds(w, s)[i] !in Reconciled(w, s).archived
  {
    var id := DueIds(w, s)[i];
    assert forall k :: 0 <= k < |s.order| ==> s.order[k] in Elements(s.order);
    assert id in DueIds(w, s);
    ReconcileAllApart(ListedWorld(w, s), s.cfg, s.now, CompletedById(w.server).Keys, w.archived, s.order, id);
    assert id !in ListedWorld(w, s).archived;
    assert RecordAt(Reconciled(w, s), id).None?;
  }

  lemma PhaseAKeeps(w: World, s: Step, inv: World -> bool)
    requires s.TickStep? && CanTick(w, s) && Preserved(inv) && inv(Start(w, s))
    ensures inv(Reconciled(w, s))
  {
    assert forall i :: 0 <= i < |s.order| ==> s.order[i] in Elements(s.order);
    DoKeeps(Start(w, s), Listed(CompletedById(w.server).Keys), inv);
    ReconcileAllKeeps(ListedWorld(w, s), s.cfg, s.now, CompletedById(w.server).Keys, w.archived, s.order, inv);
  }

  lemma TickKeeps(w: World, s: Step, name: string -> string, inv: World -> bool)
    requires s.TickStep? && CanTick(w, s) && Preserved(inv) && inv(Start(w, s))
    ensures inv(TickFrom(w, s, name))
  {
    if Active(s.cfg) {
      TickParts(w, s, name);
      PhaseAKeeps(w, s, inv);
      DueDistinct(s.listing, CompletedById(w.server), w.archived.Keys, s.now, s.cfg.retention);
      forall i | 0 <= i < |DueIds(w, s)|
        ensures DueIds(w, s)[i] !in Reconciled(w, s).archived
      {
        DueUntracked(w, s, i);
      }
      SpawnAllKeeps(Reconciled(w, s), s.cfg, s.now, DueIds(w, s), name, inv);
    }
  }

  /** Every step of the pipeline, with a crash anywhere, writes admissibly, and the writes make the
      table show the records that it leaves. */
  lemma NextFollows(base: Table, w: World, s: Step, after: World, name: string -> string)
    requires Next(w, s, after, name) && Shows(base, base, w)
    ensures Follows(base, |w.log|, after)
  {
    var inv := (x: World) => Follows(base, |w.log|, x);
    assert w.log[|w.log|..] == [];
    forall x: World, e | inv(x) && InOrder(x, e) ensures inv(Do(x, e)) { DoFollows(base, |w.log|, x, e); }
    match s
    case TickStep(_, _, _, _, _) =>
      assert inv(Start(w, s));
      TickKeeps(w, s, name, inv);
    case Environment(_, _) =>
    case Forget(id) => DoFollows(base, |w.log|, w.(fuel := 1, crashed := false), ClearRecord(id));
  }
}
