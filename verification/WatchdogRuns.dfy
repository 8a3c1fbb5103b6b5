/** The requeue budget, the pacing of requeues and the debounced age-out, over whole runs. */
module WatchdogRuns {
  import opened Basics
  import opened Ordering
  import opened Records
  import opened Watchdog

  /** A poll with its own config, views and crash point; a process bounce, which loses the caches;
      writes of the other handlers to the analysis maps; and cap eviction of anchors. */
  datatype Step =
    | Poll(cfg: Config, now: Time, views: Views, fuel: nat)
    | Bounce
    | Others(softStops: set<string>, archived: set<string>, stopped: set<string>)
    | Evict(requeues: set<string>, clocks: set<string>)

  function PollFrom(w: World, s: Step): World
    requires s.Poll?
  {
    Tick(w.(fuel := s.fuel, crashed := false), s.cfg, s.now, s.views)
  }

  predicate Next(w: World, s: Step, after: World) {
    match s
    case Poll(_, _, views, _) => ValidViews(w.status, views) && after == PollFrom(w, s)
    case Bounce => after == w.(cache := FRESH_CACHE)
    case Others(a, b, c) => after == w.(status := w.status.(softStops := a, archived := b, stopped := c))
    case Evict(r, c) => after == w.(status := w.status.(requeues := w.status.requeues - r, since := w.status.since - c))
  }

  predicate IsRun(worlds: seq<World>, steps: seq<Step>) {
    && |worlds| == |steps| + 1
    && worlds[0].log == [] && worlds[0].status.requeues == map[] && worlds[0].cache == FRESH_CACHE
    && forall i :: 0 <= i < |steps| ==> Next(worlds[i], steps[i], worlds[i + 1])
  }

  // ---------------------------------------------------------------- what acting on datapoints keeps

  /** The invariant survives every effect of the requeue loops, and noting an exhausted datapoint. */
  ghost predicate ActKept(inv: World -> bool) {
    && (forall w, e: Effect :: inv(w) && !e.Checked? && !e.Prune? ==> inv(Do(w, e)))
    && (forall w, id :: inv(w) ==> inv(Noted(w, id)))
  }

  lemma {:induction false} ClearAllKeeps(w: World, departed: seq<string>, inv: World -> bool)
    requires ActKept(inv) && inv(w)
    ensures inv(ClearAll(w, departed))
  {
    if departed != [] { ClearAllKeeps(w, departed[..|departed| - 1], inv); }
  }

  lemma {:induction false} ObserveAllKeeps(w: World, now: Time, started: seq<string>, inv: World -> bool)
    requires ActKept(inv) && inv(w)
    ensures inv(ObserveAll(w, now, started))
  {
    if started != [] { ObserveAllKeeps(w, now, started[..|started| - 1], inv); }
  }

  lemma SendKeeps(w: World, call: Effect, now: Time, id: string, inv: World -> bool)
    requires ActKept(inv) && inv(w) && !call.Checked? && !call.Prune?
    ensures inv(Send(w, call, now, id))
  {
    assert inv(Do(w, call));
  }

  lemma RequeueOneKeeps(w: World, cfg: Config, now: Time, id: string, inv: World -> bool)
    requires ActKept(inv) && inv(w)
    ensures inv(RequeueOne(w, cfg, now, id))
  {
    SendKeeps(w, if cfg.dryRun then Suppressed(id, now) else RequeueCall(id, now), now, id, inv);
  }

  lemma {:induction false} RequeueAllKeeps(w: World, cfg: Config, now: Time, started: seq<string>, inv: World -> bool)
    requires ActKept(inv) && inv(w)
    ensures inv(RequeueAll(w, cfg, now, started))
  {
    if started != [] {
      var front := started[..|started| - 1];
      RequeueAllKeeps(w, cfg, now, front, inv);
      RequeueOneKeeps(RequeueAll(w, cfg, now, front), cfg, now, started[|started| - 1], inv);
    }
  }

  lemma ActedKeeps(w: World, cfg: Config, now: Time, v: Views, inv: World -> bool)
    requires ActKept(inv) && inv(w)
    ensures inv(Acted(w, cfg, now, v))
  {
    ClearAllKeeps(w, v.departed, inv);
    ObserveAllKeeps(ClearAll(w, v.departed), now, v.started, inv);
    RequeueAllKeeps(ObserveAll(ClearAll(w, v.departed), now, v.started), cfg, now, v.started, inv);
  }

  // ---------------------------------------------------------------- requeue budget

  predicate IsCall(e: Effect, id: string) { (e.RequeueCall? || e.Suppressed?) && e.id == id }

  /** Requeue calls for the datapoint, real or withheld by dry-run. */
  function Calls(log: seq<Effect>, id: string): nat {
    if log == [] then 0 else Calls(log[..|log| - 1], id) + if IsCall(log[|log| - 1], id) then 1 else 0
  }

  /** Calls that the recorded budget does not account for. */
  function Owed(w: World, id: string): int { Calls(w.log, id) - Budget(w.status, id) }

  /** The effect neither calls for the datapoint nor touches its budget. */
  predicate Neutral(e: Effect, id: string) {
    !IsCall(e, id) && !(e.PutRequeue? && e.id == id) && (e.Prune? ==> id in e.liveDatapoints)
  }

  /** Same calls, same budget entry. */
  predicate SameAccount(w: World, after: World, id: string) {
    && |w.log| <= |after.log|
    && Calls(after.log, id) == Calls(w.log, id)
    && (id in after.status.requeues <==> id in w.status.requeues)
    && (id in w.status.requeues ==> after.status.requeues[id] == w.status.requeues[id])
    && (w.crashed ==> after.crashed)
  }

  lemma CallsAppend(log: seq<Effect>, e: Effect, id: string)
    ensures Calls(log + [e], id) == Calls(log, id) + if IsCall(e, id) then 1 else 0
  {
    assert (log + [e])[..|log|] == log;
  }

  lemma ChangeNeutral(s: Status, e: Effect, id: string)
    requires Neutral(e, id)
    ensures id in Change(s, e).requeues <==> id in s.requeues
    ensures id in s.requeues ==> Change(s, e).requeues[id] == s.requeues[id]
  {}

  lemma DoNeutral(w: World, e: Effect, id: string)
    requires Neutral(e, id)
    ensures SameAccount(w, Do(w, e), id)
  {
    ChangeNeutral(w.status, e, id);
    CallsAppend(w.log, e, id);
  }

  lemma {:induction false} ClearAllNeutral(w: World, departed: seq<string>, id: string)
    ensures SameAccount(w, ClearAll(w, departed), id)
  {
    if departed != [] {
      var front := departed[..|departed| - 1];
      ClearAllNeutral(w, front, id);
      DoNeutral(ClearAll(w, front), ClearSince(departed[|departed| - 1]), id);
    }
  }

  lemma {:induction false} ObserveAllNeutral(w: World, now: Time, started: seq<string>, id: string)
    ensures SameAccount(w, ObserveAll(w, now, started), id)
  {
    if started != [] {
      var front := started[..|started| - 1];
      ObserveAllNeutral(w, now, front, id);
      DoNeutral(ObserveAll(w, now, front), SetSince(started[|started| - 1], now), id);
    }
  }

  lemma SameTransitive(a: World, b: World, c: World, id: string)
    requires SameAccount(a, b, id) && SameAccount(b, c, id)
    ensures SameAccount(a, c, id)
  {}

  lemma DoThreeNeutral(w: World, e: Effect, f: Effect, g: Effect, id: string)
    requires Neutral(e, id) && Neutral(f, id) && Neutral(g, id)
    ensures SameAccount(w, Do(Do(Do(w, e), f), g), id)
  {
    var w1, w2 := Do(w, e), Do(Do(w, e), f);
    DoNeutral(w, e, id);
    DoNeutral(w1, f, id);
    DoNeutral(w2, g, id);
    SameTransitive(w, w1, w2, id);
    SameTransitive(w, w2, Do(w2, g), id);
  }

  lemma WarnNeutral(w: World, other: string, id: string)
    ensures SameAccount(w, Warn(w, other), id)
  {
    DoNeutral(Noted(w, other), Exhausted(other), id);
  }

  lemma SendOtherNeutral(w: World, call: Effect, now: Time, other: string, id: string)
    requires other != id && IsCall(call, other)
    ensures SameAccount(w, Send(w, call, now, other), id)
  {
    DoThreeNeutral(w, call, PutRequeue(other, RequeueRecord(Budget(w.status, other) + 1, now)), SetSince(other, now),
                   id);
  }

  lemma RequeueOtherNeutral(w: World, cfg: Config, now: Time, other: string, id: string)
    requires other != id
    ensures SameAccount(w, RequeueOne(w, cfg, now, other), id)
  {
    WarnNeutral(w, other, id);
    SendOtherNeutral(w, if cfg.dryRun then Suppressed(other, now) else RequeueCall(other, now), now, other, id);
  }

  lemma {:induction false} RequeueAllNeutral(w: World, cfg: Config, now: Time, started: seq<string>, id: string)
    requires id !in started
    ensures SameAccount(w, RequeueAll(w, cfg, now, started), id)
  {
    if started != [] {
      var front := started[..|started| - 1];
      RequeueAllNeutral(w, cfg, now, front, id);
      RequeueOtherNeutral(RequeueAll(w, cfg, now, front), cfg, now, started[|started| - 1], id);
    }
  }

  /** Since `w` the datapoint was called for, and that was the last thing done: the write of its
      record raised. */
  predicate Unrecorded(w: World, after: World, id: string) {
    after.crashed && |w.log| < |after.log| && IsCall(after.log[|after.log| - 1], id)
  }

  /** What one tick may do to the account: keep what is owed, or owe one more and fail before it is
      recorded; the budget stays within the limit. */
  predicate Accounted(w: World, after: World, id: string, limit: int) {
    && |w.log| <= |after.log|
    && Owed(after, id) <= Owed(w, id) + (if Unrecorded(w, after, id) then 1 else 0)
    && (Budget(w.status, id) <= limit ==> Budget(after.status, id) <= limit)
  }

  lemma DoCall(w: World, call: Effect, id: string)
    requires IsCall(call, id)
    ensures Budget(Do(w, call).status, id) == Budget(w.status, id)
    ensures Calls(Do(w, call).log, id) == Calls(w.log, id) + if Do(w, call).crashed then 0 else 1
  {
    CallsAppend(w.log, call, id);
  }

  lemma DoPut(w: World, id: string, r: RequeueRecord)
    ensures var after := Do(w, PutRequeue(id, r));
            && Calls(after.log, id) == Calls(w.log, id)
            && Budget(after.status, id) == if after.crashed then Budget(w.status, id) else r.count
  {
    CallsAppend(w.log, PutRequeue(id, r), id);
  }

  /** The call, its record and the fresh clock: balanced when all land, one call owed otherwise. */
  lemma CallAndRecord(w: World, call: Effect, now: Time, id: string, limit: int)
    requires IsCall(call, id) && Budget(w.status, id) < limit
    ensures Accounted(w, Send(w, call, now, id), id, limit)
  {
    var r := RequeueRecord(Budget(w.status, id) + 1, now);
    var w1 := Do(w, call);
    var w2 := Do(w1, PutRequeue(id, r));
    DoCall(w, call, id);
    DoPut(w1, id, r);
    DoNeutral(w2, SetSince(id, now), id);
  }

  lemma RequeueOneAccounted(w: World, cfg: Config, now: Time, id: string, limit: int)
    requires cfg.maxRequeues <= limit
    ensures Accounted(w, RequeueOne(w, cfg, now, id), id, limit)
  {
    if Budget(w.status, id) >= cfg.maxRequeues {
      WarnNeutral(w, id, id);
    } else if w.crashed {
      RequeueCrashed(w, cfg, now, id);
    } else {
      CallAndRecord(w, if cfg.dryRun then Suppressed(id, now) else RequeueCall(id, now), now, id, limit);
    }
  }

  lemma {:induction false} RequeueAllAccounted(w: World, cfg: Config, now: Time, started: seq<string>, id: string,
                                               limit: int)
    requires Distinct(started) && cfg.maxRequeues <= limit
    ensures Accounted(w, RequeueAll(w, cfg, now, started), id, limit)
    ensures w.crashed ==> RequeueAll(w, cfg, now, started) == w
  {
    if started != [] {
      var front, last := started[..|started| - 1], started[|started| - 1];
      var mid := RequeueAll(w, cfg, now, front);
      RequeueAllAccounted(w, cfg, now, front, id, limit);
      if mid.crashed {
        RequeueCrashed(mid, cfg, now, last);
      } else if last == id {
        RequeueAllNeutral(w, cfg, now, front, id);
        RequeueOneAccounted(mid, cfg, now, id, limit);
      } else {
        RequeueOtherNeutral(mid, cfg, now, last, id);
      }
    }
  }

  lemma ActedAccounted(w: World, cfg: Config, now: Time, v: Views, id: string, limit: int)
    requires Distinct(v.started) && !w.crashed && cfg.maxRequeues <= limit
    ensures Accounted(w, Acted(w, cfg, now, v), id, limit)
    ensures id !in v.started ==> SameAccount(w, Acted(w, cfg, now, v), id)
  {
    var cleared := ClearAll(w, v.departed);
    var observed := ObserveAll(cleared, now, v.started);
    ClearAllNeutral(w, v.departed, id);
    ObserveAllNeutral(cleared, now, v.started, id);
    RequeueAllAccounted(observed, cfg, now, v.started, id, limit);
    if id !in v.started { RequeueAllNeutral(observed, cfg, now, v.started, id); }
  }

  lemma SweepNeutral(w: World, datapoints: set<string>, analyses: set<string>, id: string)
    requires id in w.status.requeues ==> id in Sweep(w, datapoints, analyses).status.requeues
    ensures SameAccount(w, Sweep(w, datapoints, analyses), id)
  {
    CallsAppend(w.log, PruneEffect(w.cache, datapoints, analyses), id);
  }

  /** A hygiene pass that keeps the entry leaves the account alone. */
  lemma HygieneNeutral(w: World, datapoints: set<string>, analyses: set<string>, id: string)
    requires id in w.status.requeues ==> id in Hygiene(w, datapoints, analyses).status.requeues
    ensures SameAccount(w, Hygiene(w, datapoints, analyses), id)
  {
    var checked := Do(w, Checked(datapoints, analyses));
    CallsAppend(w.log, Checked(datapoints, analyses), id);
    if !w.crashed && !checked.crashed && !(w.status.requeues == map[] && TrackedAnalyses(w.status) == {}) {
      SweepNeutral(checked.(cache := CheckedCache(w, datapoints, analyses)), datapoints, analyses, id);
    }
  }

  lemma CleanNeutral(w: World, v: Views, id: string)
    requires id in w.status.requeues ==> id in Clean(w, v).status.requeues
    ensures SameAccount(w, Clean(w, v), id)
  {
    HygieneNeutral(w, Elements(v.started) + v.heavyDatapoints, v.heavyAnalyses, id);
  }

  lemma FinishedNeutral(w: World, cleaned: World, id: string)
    requires (id in w.status.requeues ==> id in cleaned.status.requeues) ==> SameAccount(Counted(w), cleaned, id)
    requires id in w.status.requeues ==> id in Finished(w, cleaned).status.requeues
    ensures SameAccount(w, Finished(w, cleaned), id)
  {}

  lemma FinishNeutral(w: World, v: Views, id: string)
    requires id in w.status.requeues ==> id in Finish(w, v).status.requeues
    ensures SameAccount(w, Finish(w, v), id)
  {
    var cleaned := Clean(Counted(w), v);
    if id in w.status.requeues ==> id in cleaned.status.requeues { CleanNeutral(Counted(w), v, id); }
    FinishedNeutral(w, cleaned, id);
  }

  /** A pass spares the started datapoints. */
  lemma FinishSpares(w: World, v: Views, id: string)
    requires id in v.started && id in w.status.requeues
    ensures id in Finish(w, v).status.requeues
  {
    assert id in Elements(v.started);
  }

  lemma PollAccounted(w: World, s: Step, id: string, limit: int)
    requires s.Poll? && ValidViews(w.status, s.views) && s.cfg.maxRequeues <= limit
    requires id in w.status.requeues ==> id in PollFrom(w, s).status.requeues
    ensures Accounted(w, PollFrom(w, s), id, limit)
  {
    var start := w.(fuel := s.fuel, crashed := false);
    var acted := Acted(start, s.cfg, s.now, s.views);
    ActedAccounted(start, s.cfg, s.now, s.views, id, limit);
    if id in s.views.started && id in acted.status.requeues { FinishSpares(acted, s.views, id); }
    FinishNeutral(acted, s.views, id);
  }

  /** Polls that called for the datapoint and failed before recording it. */
  function UnrecordedPolls(worlds: seq<World>, steps: seq<Step>, id: string): nat
    requires |worlds| == |steps| + 1
  {
    if steps == [] then 0
    else
      var n := |steps| - 1;
      UnrecordedPolls(worlds[..|steps|], steps[..n], id)
      + if steps[n].Poll? && Unrecorded(worlds[n], worlds[n + 1], id) then 1 else 0
  }

  /** The step drops the datapoint's entry, by a prune or by eviction. */
  predicate Drops(w: World, after: World, id: string) { id in w.status.requeues && id !in after.status.requeues }

  function Dropped(worlds: seq<World>, id: string): nat {
    if |worlds| <= 1 then 0
    else
      var n := |worlds| - 1;
      Dropped(worlds[..n], id) + if Drops(worlds[n - 1], worlds[n], id) then 1 else 0
  }

  /** No poll has a higher limit. */
  predicate Limited(steps: seq<Step>, limit: int) {
    forall i :: 0 <= i < |steps| && steps[i].Poll? ==> steps[i].cfg.maxRequeues <= limit
  }

  lemma ActedRetains(w: World, cfg: Config, now: Time, v: Views, id: string)
    requires id in w.status.requeues
    ensures id in Acted(w, cfg, now, v).status.requeues
  {
    ActedKeeps(w, cfg, now, v, (x: World) => id in x.status.requeues);
  }

  /** A poll that drops the entry did not call for the datapoint. */
  lemma PollDrop(w: World, s: Step, id: string)
    requires s.Poll? && ValidViews(w.status, s.views) && Drops(w, PollFrom(w, s), id)
    ensures Calls(PollFrom(w, s).log, id) == Calls(w.log, id)
  {
    var start := w.(fuel := s.fuel, crashed := false);
    var acted := Acted(start, s.cfg, s.now, s.views);
    ActedRetains(start, s.cfg, s.now, s.views, id);
    if id in s.views.started { FinishSpares(acted, s.views, id); }
    ActedAccounted(start, s.cfg, s.now, s.views, id, s.cfg.maxRequeues);
    FinishCalls(acted, s.views, id);
  }

  lemma SweepCalls(w: World, datapoints: set<string>, analyses: set<string>, id: string)
    ensures Calls(Sweep(w, datapoints, analyses).log, id) == Calls(w.log, id)
  {
    CallsAppend(w.log, PruneEffect(w.cache, datapoints, analyses), id);
  }

  lemma HygieneCalls(w: World, datapoints: set<string>, analyses: set<string>, id: string)
    ensures Calls(Hygiene(w, datapoints, analyses).log, id) == Calls(w.log, id)
  {
    var checked := Do(w, Checked(datapoints, analyses));
    CallsAppend(w.log, Checked(datapoints, analyses), id);
    SweepCalls(checked.(cache := CheckedCache(w, datapoints, analyses)), datapoints, analyses, id);
  }

  lemma FinishCalls(w: World, v: Views, id: string)
    ensures Calls(Finish(w, v).log, id) == Calls(w.log, id)
  {
    HygieneCalls(Counted(w), Elements(v.started) + v.heavyDatapoints, v.heavyAnalyses, id);
  }

  lemma NextAccounted(w: World, s: Step, after: World, id: string, limit: int)
    requires Next(w, s, after) && 0 <= limit && (s.Poll? ==> s.cfg.maxRequeues <= limit) &&
             Budget(w.status, id) <= limit
    ensures Owed(after, id) <= Owed(w, id) + (if Drops(w, after, id) then limit else 0)
                               + (if s.Poll? && Unrecorded(w, after, id) then 1 else 0)
    ensures Budget(after.status, id) <= limit
  {
    if s.Poll? {
      if Drops(w, after, id) { PollDrop(w, s, id); } else { PollAccounted(w, s, id, limit); }
    }
  }

  lemma {:induction false} RunAccounted(worlds: seq<World>, steps: seq<Step>, id: string, limit: int)
    requires IsRun(worlds, steps) && 0 <= limit && Limited(steps, limit)
    ensures Owed(worlds[|steps|], id) <= limit * Dropped(worlds, id) + UnrecordedPolls(worlds, steps, id)
    ensures Budget(worlds[|steps|].status, id) <= limit
  {
    if steps != [] {
      var n := |steps| - 1;
      var ws, ss := worlds[..|steps|], steps[..n];
      RunAccounted(ws, ss, id, limit);
      assert ws[|ss|] == worlds[n] && Next(worlds[n], steps[n], worlds[n + 1]);
      NextAccounted(worlds[n], steps[n], worlds[n + 1], id, limit);
      OneMoreDrop(limit, Dropped(ws, id), if Drops(worlds[n], worlds[n + 1], id) then 1 else 0);
    }
  }

  lemma OneMoreDrop(limit: int, drops: int, more: int)
    ensures limit * (drops + more) == limit * drops + limit * more
  {}

  /** The requeue budget over whole runs: a datapoint gets at most `maxAutoRequeues` calls, dry-run ones
      included, for each life of its `requeues` entry, plus one per poll that called for it and failed
      before recording the call; polls that fail otherwise, process bounces, departures, re-entries and
      lower limits in between add nothing. An entry that is never dropped has one life. */
  lemma RequeueBudget(worlds: seq<World>, steps: seq<Step>, id: string, limit: int)
    requires IsRun(worlds, steps) && 0 <= limit && Limited(steps, limit)
    ensures Calls(worlds[|steps|].log, id) <= limit * (1 + Dropped(worlds, id)) + UnrecordedPolls(worlds, steps, id)
  {
    RunAccounted(worlds, steps, id, limit);
    OneMoreDrop(limit, Dropped(worlds, id), 1);
  }
}
