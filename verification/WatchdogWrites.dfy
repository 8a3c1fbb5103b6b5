/** The status writes of the watchdog: clocks, requeue records, and the prune that cuts all five maps. */
module WatchdogWrites {
  import opened Basics
  import opened Ordering
  import opened Records
  import opened StatusRefinement
  import opened Watchdog
  import opened WatchdogRuns

  /** The status write that an effect makes, if any. */
  function WriteOf(e: Effect): Option<Write> {
    match e
    case ClearSince(id) => Some(Drop(StartedSince, id))
    case SetSince(id, at) => Some(Put(id, Since(at)))
    case PutRequeue(id, r) => Some(Put(id, Requeue(r)))
    case Prune(datapoints, analyses) => Some(Retain(Some(analyses), Some(datapoints)))
    case _ => None
  }

  function WritesOf(log: seq<Effect>): seq<Write> {
    if log == [] then []
    else
      var front, x := WritesOf(log[..|log| - 1]), WriteOf(log[|log| - 1]);
      if x.Some? then front + [x.value] else front
  }

  /** The keys that the watchdog sees in a map of analyses. */
  function KeysIn(s: Status, f: Field): set<string> {
    match f
    case SoftStops => s.softStops
    case ArchivedAnalyses => s.archived
    case StoppedAnalyses => s.stopped
    case _ => {}
  }

  /** At (f, k) the table holds the watchdog's own record, or, in a map of analyses, what the base holds
      of the keys that are left. */
  predicate ShowsAt(t: Table, base: Table, s: Status, f: Field, k: string) {
    match f
    case Requeues => ((f, k) in t <==> k in s.requeues) && (k in s.requeues ==> t[(f, k)] == Requeue(s.requeues[k]))
    case StartedSince => ((f, k) in t <==> k in s.since) && (k in s.since ==> t[(f, k)] == Since(s.since[k]))
    case _ =>
      && ((f, k) in t <==> k in KeysIn(s, f))
      && (k in KeysIn(s, f) ==> (f, k) in base && t[(f, k)] == base[(f, k)])
  }

  ghost predicate Shows(t: Table, base: Table, w: World) { forall f, k :: ShowsAt(t, base, w.status, f, k) }

  /** Since entry n of the log every write was admissible, and they made of the base what `w` holds. */
  ghost predicate Follows(base: Table, n: nat, w: World) {
    && n <= |w.log| && AllAdmissible(base, WritesOf(w.log[n..]))
    && Shows(Plain(base, WritesOf(w.log[n..])), base, w)
  }

  lemma WriteShows(t: Table, base: Table, w: World, e: Effect, f: Field, k: string)
    requires Shows(t, base, w) && WriteOf(e).Some?
    ensures ShowsAt(ApplyPlain(t, WriteOf(e).value), base, Change(w.status, e), f, k)
  {
    assert ShowsAt(t, base, w.status, f, k);
  }

  lemma WriteAdmissible(t: Table, base: Table, w: World, e: Effect)
    requires Shows(t, base, w) && WriteOf(e).Some?
    ensures Admissible(t, WriteOf(e).value)
  {
    if e.PutRequeue? { assert ShowsAt(t, base, w.status, Requeues, e.id); }
    if e.SetSince? { assert ShowsAt(t, base, w.status, StartedSince, e.id); }
  }

  lemma WritesGrow(log: seq<Effect>, e: Effect)
    ensures WritesOf(log + [e]) == if WriteOf(e).Some? then WritesOf(log) + [WriteOf(e).value] else WritesOf(log)
  {
    assert (log + [e])[..|log|] == log;
  }

  lemma DoFollows(base: Table, n: nat, w: World, e: Effect)
    requires Follows(base, n, w)
    ensures Follows(base, n, Do(w, e))
  {
    if !w.crashed && w.fuel > 0 {
      var since := w.log[n..];
      var t := Plain(base, WritesOf(since));
      assert (w.log + [e])[n..] == since + [e];
      WritesGrow(since, e);
      if WriteOf(e).Some? {
        WriteAdmissible(t, base, w, e);
        AdmissibleGrows(base, WritesOf(since), WriteOf(e).value);
        forall f, k
          ensures ShowsAt(ApplyPlain(t, WriteOf(e).value), base, Change(w.status, e), f, k)
        {
          WriteShows(t, base, w, e, f, k);
        }
      }
    }
  }

  /** The cache is no part of the status. */
  lemma CacheFollows(base: Table, n: nat, w: World, cache: Cache)
    requires Follows(base, n, w)
    ensures Follows(base, n, w.(cache := cache))
  {}

  lemma SweepFollows(base: Table, n: nat, w: World, datapoints: set<string>, analyses: set<string>)
    requires Follows(base, n, w)
    ensures Follows(base, n, Sweep(w, datapoints, analyses))
  {
    var pruned := Do(w, PruneEffect(w.cache, datapoints, analyses));
    DoFollows(base, n, w, PruneEffect(w.cache, datapoints, analyses));
    CacheFollows(base, n, pruned, Retire(w.cache));
  }

  lemma HygieneFollows(base: Table, n: nat, w: World, datapoints: set<string>, analyses: set<string>)
    requires Follows(base, n, w)
    ensures Follows(base, n, Hygiene(w, datapoints, analyses))
  {
    var checked := Do(w, Checked(datapoints, analyses));
    CacheFollows(base, n, w, w.cache.(absentDatapoints := map[], absentAnalyses := map[]));
    DoFollows(base, n, w, Checked(datapoints, analyses));
    CacheFollows(base, n, checked, CheckedCache(w, datapoints, analyses));
    SweepFollows(base, n, checked.(cache := CheckedCache(w, datapoints, analyses)), datapoints, analyses);
  }

  lemma FinishFollows(base: Table, n: nat, w: World, v: Views)
    requires Follows(base, n, w)
    ensures Follows(base, n, Finish(w, v))
  {
    CacheFollows(base, n, w, Counted(w).cache);
    HygieneFollows(base, n, Counted(w), Elements(v.started) + v.heavyDatapoints, v.heavyAnalyses);
  }

  /** Every poll, with a failure anywhere, writes admissibly, and the writes make the table show the
      clocks, the budgets and the keys that it leaves. */
  lemma PollFollows(base: Table, w: World, s: Step)
    requires s.Poll? && Shows(base, base, w)
    ensures Follows(base, |w.log|, PollFrom(w, s))
  {
    var start, n := w.(fuel := s.fuel, crashed := false), |w.log|;
    var inv := (x: World) => Follows(base, n, x);
    assert w.log[n..] == [];
    assert inv(start);
    forall x: World, e: Effect | inv(x) && !e.Checked? && !e.Prune? ensures inv(Do(x, e)) { DoFollows(base, n, x, e); }
    forall x: World, id | inv(x) ensures inv(Noted(x, id)) { CacheFollows(base, n, x, Noted(x, id).cache); }
    ActedKeeps(start, s.cfg, s.now, s.views, inv);
    FinishFollows(base, n, Acted(start, s.cfg, s.now, s.views), s.views);
  }
}
