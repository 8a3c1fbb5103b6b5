/** Pacing of requeues and the debounced age-out of anchors. */
module WatchdogAnchors {
  import opened Basics
  import opened Ordering
  import opened Records
  import opened Watchdog
  import opened WatchdogRuns

  // ---------------------------------------------------------------- pacing

  /** Inside a poll that began in `w0`: the clock of the datapoint is its old one or now, a call
      means it was overdue at the start, and after a call that went through the clock is now. */
  predicate Clocked(w0: World, w: World, id: string, now: Time, maxRuntime: int) {
    && (id in w.status.since ==>
        w.status.since[id] == now || (id in w0.status.since && w.status.since[id] == w0.status.since[id]))
    && Calls(w0.log, id) <= Calls(w.log, id)
    && (Calls(w0.log, id) < Calls(w.log, id) ==>
      && id in w0.status.since && now - w0.status.since[id] > maxRuntime
      && (!w.crashed && id in w.status.since ==> w.status.since[id] == now))
  }

  predicate Timely(e: Effect, id: string, now: Time) {
    !IsCall(e, id) && (e.SetSince? ==> e.at == now)
  }

  lemma DoClocked(w0: World, w: World, e: Effect, id: string, now: Time, maxRuntime: int)
    requires Clocked(w0, w, id, now, maxRuntime) && Timely(e, id, now)
    ensures Clocked(w0, Do(w, e), id, now, maxRuntime)
  {
    CallsAppend(w.log, e, id);
  }

  lemma {:induction false} ClearAllClocked(w0: World, w: World, departed: seq<string>, id: string, now: Time,
                                           maxRuntime: int)
    requires Clocked(w0, w, id, now, maxRuntime)
    ensures Clocked(w0, ClearAll(w, departed), id, now, maxRuntime)
  {
    if departed != [] {
      var front := departed[..|departed| - 1];
      ClearAllClocked(w0, w, front, id, now, maxRuntime);
      DoClocked(w0, ClearAll(w, front), ClearSince(departed[|departed| - 1]), id, now, maxRuntime);
    }
  }

  lemma {:induction false} ObserveAllClocked(w0: World, w: World, started: seq<string>, id: string, now: Time,
                                             maxRuntime: int)
    requires Clocked(w0, w, id, now, maxRuntime)
    ensures Clocked(w0, ObserveAll(w, now, started), id, now, maxRuntime)
  {
    if started != [] {
      var front := started[..|started| - 1];
      ObserveAllClocked(w0, w, front, id, now, maxRuntime);
      DoClocked(w0, ObserveAll(w, now, front), SetSince(started[|started| - 1], now), id, now, maxRuntime);
    }
  }

  lemma CallClocked(w0: World, w: World, call: Effect, r: RequeueRecord, id: string, now: Time, maxRuntime: int)
    requires Clocked(w0, w, id, now, maxRuntime) && IsCall(call, id) && 0 <= maxRuntime
    requires id in w.status.since && now - w.status.since[id] > maxRuntime
    ensures Clocked(w0, Do(Do(Do(w, call), PutRequeue(id, r)), SetSince(id, now)), id, now, maxRuntime)
  {
    var w1 := Do(w, call);
    DoCall(w, call, id);
    DoPut(w1, id, r);
    SinceKept(w, call);
    SinceKept(w1, PutRequeue(id, r));
    ClockRestarts(w0, w, Do(w1, PutRequeue(id, r)), id, now, maxRuntime);
  }

  lemma SinceKept(w: World, e: Effect)
    requires e.RequeueCall? || e.Suppressed? || e.PutRequeue?
    ensures Do(w, e).status.since == w.status.since
  {}

  /** After a call of an overdue datapoint the clock restarts, or the poll fails. */
  lemma ClockRestarts(w0: World, w: World, called: World, id: string, now: Time, maxRuntime: int)
    requires Clocked(w0, w, id, now, maxRuntime) && 0 <= maxRuntime
    requires id in w.status.since && now - w.status.since[id] > maxRuntime
    requires called.status.since == w.status.since && Calls(w.log, id) <= Calls(called.log, id)
    ensures Clocked(w0, Do(called, SetSince(id, now)), id, now, maxRuntime)
  {
    CallsAppend(called.log, SetSince(id, now), id);
  }

  lemma DoThreeClocked(w0: World, w: World, e: Effect, f: Effect, g: Effect, id: string, now: Time, maxRuntime: int)
    requires Clocked(w0, w, id, now, maxRuntime) && Timely(e, id, now) && Timely(f, id, now) && Timely(g, id, now)
    ensures Clocked(w0, Do(Do(Do(w, e), f), g), id, now, maxRuntime)
  {
    DoClocked(w0, w, e, id, now, maxRuntime);
    DoClocked(w0, Do(w, e), f, id, now, maxRuntime);
    DoClocked(w0, Do(Do(w, e), f), g, id, now, maxRuntime);
  }

  lemma SendOtherClocked(w0: World, w: World, call: Effect, other: string, id: string, now: Time, maxRuntime: int)
    requires Clocked(w0, w, id, now, maxRuntime) && IsCall(call, other) && other != id
    ensures Clocked(w0, Send(w, call, now, other), id, now, maxRuntime)
  {
    var r := RequeueRecord(Budget(w.status, other) + 1, now);
    DoThreeClocked(w0, w, call, PutRequeue(other, r), SetSince(other, now), id, now, maxRuntime);
  }

  lemma SendClocked(w0: World, w: World, call: Effect, other: string, id: string, now: Time, maxRuntime: int)
    requires Clocked(w0, w, id, now, maxRuntime) && IsCall(call, other) && 0 <= maxRuntime
    requires other in w.status.since && now - w.status.since[other] > maxRuntime
    ensures Clocked(w0, Send(w, call, now, other), id, now, maxRuntime)
  {
    if other == id {
      CallClocked(w0, w, call, RequeueRecord(Budget(w.status, id) + 1, now), id, now, maxRuntime);
    } else {
      SendOtherClocked(w0, w, call, other, id, now, maxRuntime);
    }
  }

  lemma RequeueClocked(w0: World, w: World, cfg: Config, other: string, id: string, now: Time)
    requires Clocked(w0, w, id, now, cfg.maxRuntime) && 0 <= cfg.maxRuntime
    ensures Clocked(w0, RequeueOne(w, cfg, now, other), id, now, cfg.maxRuntime)
  {
    var call := if cfg.dryRun then Suppressed(other, now) else RequeueCall(other, now);
    if Overdue(w.status, cfg, now, other) {
      WarnClocked(w0, w, other, id, now, cfg.maxRuntime);
      SendClocked(w0, w, call, other, id, now, cfg.maxRuntime);
    }
  }

  lemma WarnClocked(w0: World, w: World, other: string, id: string, now: Time, maxRuntime: int)
    requires Clocked(w0, w, id, now, maxRuntime)
    ensures Clocked(w0, Warn(w, other), id, now, maxRuntime)
  {
    DoClocked(w0, Noted(w, other), Exhausted(other), id, now, maxRuntime);
  }

  lemma {:induction false} RequeueAllClocked(w0: World, w: World, cfg: Config, started: seq<string>, id: string,
                                             now: Time)
    requires Clocked(w0, w, id, now, cfg.maxRuntime) && 0 <= cfg.maxRuntime
    ensures Clocked(w0, RequeueAll(w, cfg, now, started), id, now, cfg.maxRuntime)
  {
    if started != [] {
      var front := started[..|started| - 1];
      RequeueAllClocked(w0, w, cfg, front, id, now);
      RequeueClocked(w0, RequeueAll(w, cfg, now, front), cfg, started[|started| - 1], id, now);
    }
  }

  lemma SweepClocked(w0: World, w: World, datapoints: set<string>, analyses: set<string>, id: string, now: Time,
                     maxRuntime: int)
    requires Clocked(w0, w, id, now, maxRuntime)
    ensures Clocked(w0, Sweep(w, datapoints, analyses), id, now, maxRuntime)
  {
    DoClocked(w0, w, PruneEffect(w.cache, datapoints, analyses), id, now, maxRuntime);
  }

  lemma HygieneClocked(w0: World, w: World, datapoints: set<string>, analyses: set<string>, id: string, now: Time,
                       maxRuntime: int)
    requires Clocked(w0, w, id, now, maxRuntime)
    ensures Clocked(w0, Hygiene(w, datapoints, analyses), id, now, maxRuntime)
  {
    var checked := Do(w, Checked(datapoints, analyses));
    DoClocked(w0, w, Checked(datapoints, analyses), id, now, maxRuntime);
    SweepClocked(w0, checked.(cache := CheckedCache(w, datapoints, analyses)), datapoints, analyses, id, now,
                 maxRuntime);
  }

  lemma CleanClocked(w0: World, w: World, v: Views, id: string, now: Time, maxRuntime: int)
    requires Clocked(w0, w, id, now, maxRuntime)
    ensures Clocked(w0, Clean(w, v), id, now, maxRuntime)
  {
    HygieneClocked(w0, w, Elements(v.started) + v.heavyDatapoints, v.heavyAnalyses, id, now, maxRuntime);
  }

  lemma FinishClocked(w0: World, w: World, v: Views, id: string, now: Time, maxRuntime: int)
    requires Clocked(w0, w, id, now, maxRuntime)
    ensures Clocked(w0, Finish(w, v), id, now, maxRuntime)
  {
    CleanClocked(w0, Counted(w), v, id, now, maxRuntime);
  }

  lemma ActedClocked(w: World, cfg: Config, now: Time, v: Views, id: string)
    requires 0 <= cfg.maxRuntime
    ensures Clocked(w, Acted(w, cfg, now, v), id, now, cfg.maxRuntime)
  {
    var cleared := ClearAll(w, v.departed);
    ClearAllClocked(w, w, v.departed, id, now, cfg.maxRuntime);
    var observed := ObserveAll(cleared, now, v.started);
    ObserveAllClocked(w, cleared, v.started, id, now, cfg.maxRuntime);
    RequeueAllClocked(w, observed, cfg, v.started, id, now);
  }

  lemma PollClocked(w: World, s: Step, id: string)
    requires s.Poll? && 0 <= s.cfg.maxRuntime
    ensures Clocked(w, PollFrom(w, s), id, s.now, s.cfg.maxRuntime)
  {
    var start := w.(fuel := s.fuel, crashed := false);
    ActedClocked(start, s.cfg, s.now, s.views, id);
    FinishClocked(start, Acted(start, s.cfg, s.now, s.views), s.views, id, s.now, s.cfg.maxRuntime);
  }

  /** Every clock of the datapoint starts at t or later. */
  predicate ClockFrom(w: World, id: string, t: Time) { id in w.status.since ==> w.status.since[id] >= t }

  predicate CalledIn(worlds: seq<World>, i: int, id: string)
    requires 0 <= i < |worlds| - 1
  {
    Calls(worlds[i].log, id) < Calls(worlds[i + 1].log, id)
  }

  /** The polls of the run do not go back in time; their runtime limits are free, but not negative. */
  predicate Timed(steps: seq<Step>) {
    && (forall i, j :: 0 <= i <= j < |steps| && steps[i].Poll? && steps[j].Poll? ==> steps[i].now <= steps[j].now)
    && (forall i :: 0 <= i < |steps| && steps[i].Poll? ==> 0 <= steps[i].cfg.maxRuntime)
  }

  lemma NextAt(worlds: seq<World>, steps: seq<Step>, i: nat)
    requires IsRun(worlds, steps) && i < |steps|
    ensures Next(worlds[i], steps[i], worlds[i + 1])
  {}

  lemma NextClock(w: World, s: Step, after: World, id: string, t: Time)
    requires Next(w, s, after) && ClockFrom(w, id, t) && (s.Poll? ==> t <= s.now && 0 <= s.cfg.maxRuntime)
    ensures ClockFrom(after, id, t)
  {
    if s.Poll? { PollClocked(w, s, id); }
  }

  lemma {:induction false} ClockStays(worlds: seq<World>, steps: seq<Step>, id: string, i: nat, j: nat)
    requires IsRun(worlds, steps) && Timed(steps)
    requires i < |steps| && steps[i].Poll? && i < j <= |steps| && ClockFrom(worlds[i + 1], id, steps[i].now)
    ensures ClockFrom(worlds[j], id, steps[i].now)
  {
    if j > i + 1 {
      ClockStays(worlds, steps, id, i, j - 1);
      NextAt(worlds, steps, j - 1);
      NextClock(worlds[j - 1], steps[j - 1], worlds[j], id, steps[i].now);
    }
  }

  /** Pacing over whole runs: after a requeue by a poll that completed, the next requeue of the
      same datapoint comes more than `maxDatapointRuntimeMinutes`, as it is then, later, across
      departures, re-entries, evictions, failed polls, process bounces and changes of the limit. */
  lemma RequeuesArePaced(worlds: seq<World>, steps: seq<Step>, id: string, i: nat, j: nat)
    requires IsRun(worlds, steps) && Timed(steps)
    requires i < j < |steps| && steps[i].Poll? && steps[j].Poll?
    requires CalledIn(worlds, i, id) && !worlds[i + 1].crashed && CalledIn(worlds, j, id)
    ensures steps[j].now - steps[i].now > steps[j].cfg.maxRuntime
  {
    NextAt(worlds, steps, i);
    PollClocked(worlds[i], steps[i], id);
    ClockStays(worlds, steps, id, i, j);
    NextAt(worlds, steps, j);
    PollClocked(worlds[j], steps[j], id);
  }

  // ---------------------------------------------------------------- debounced age-out

  predicate SawAbsent(e: Effect, id: string, datapoint: bool) {
    e.Checked? && id !in (if datapoint then e.datapoints else e.analyses)
  }

  /** The most recent heavy checks in a row that found the id in no live view. */
  function AbsentStreak(log: seq<Effect>, id: string, datapoint: bool): nat {
    if log == [] then 0
    else
      var front, e := log[..|log| - 1], log[|log| - 1];
      if !e.Checked? then AbsentStreak(front, id, datapoint)
      else if SawAbsent(e, id, datapoint) then 1 + AbsentStreak(front, id, datapoint)
      else 0
  }

  predicate Backed(counters: map<string, nat>, log: seq<Effect>, datapoint: bool) {
    forall k :: k in counters ==> counters[k] <= AbsentStreak(log, k, datapoint)
  }

  /** The absence counters never claim more than the log shows. */
  predicate CountersBacked(w: World) {
    Backed(w.cache.absentDatapoints, w.log, true) && Backed(w.cache.absentAnalyses, w.log, false)
  }

  lemma StreakAppend(log: seq<Effect>, e: Effect, id: string, datapoint: bool)
    ensures AbsentStreak(log + [e], id, datapoint) ==
              if !e.Checked? then AbsentStreak(log, id, datapoint)
              else if SawAbsent(e, id, datapoint) then 1 + AbsentStreak(log, id, datapoint) else 0
  {
    assert (log + [e])[..|log|] == log;
  }

  lemma BackedAppend(counters: map<string, nat>, log: seq<Effect>, e: Effect, datapoint: bool)
    requires Backed(counters, log, datapoint) && !e.Checked?
    ensures Backed(counters, log + [e], datapoint)
  {
    forall k | k in counters
      ensures counters[k] <= AbsentStreak(log + [e], k, datapoint)
    {
      StreakAppend(log, e, k, datapoint);
    }
  }

  lemma BumpBacked(counters: map<string, nat>, log: seq<Effect>, tracked: set<string>, live: set<string>, e: Effect,
                   datapoint: bool)
    requires Backed(counters, log, datapoint) && e.Checked? && live == (if datapoint then e.datapoints else e.analyses)
    ensures Backed(Bumped(counters, tracked, live), log + [e], datapoint)
  {
    forall k | k in Bumped(counters, tracked, live)
      ensures Bumped(counters, tracked, live)[k] <= AbsentStreak(log + [e], k, datapoint)
    {
      StreakAppend(log, e, k, datapoint);
    }
  }

  lemma DoBacked(w: World, e: Effect)
    requires CountersBacked(w) && !e.Checked?
    ensures CountersBacked(Do(w, e)) && Do(w, e).cache == w.cache
  {
    BackedAppend(w.cache.absentDatapoints, w.log, e, true);
    BackedAppend(w.cache.absentAnalyses, w.log, e, false);
  }

  /** Acting on datapoints leaves the counters alone and no hygiene map loses a key. */
  predicate Undropped(w: World, after: World) {
    && w.status.requeues.Keys <= after.status.requeues.Keys
    && after.status.softStops == w.status.softStops && after.status.archived == w.status.archived
    && CountersBacked(after)
  }

  lemma DoUndropped(w0: World, w: World, e: Effect)
    requires Undropped(w0, w) && !e.Checked? && !e.Prune?
    ensures Undropped(w0, Do(w, e))
  {
    DoBacked(w, e);
  }

  /** An id that left one of the debounced maps was absent in three heavy checks in a row. */
  ghost predicate DropsWereAbsent(w: World, after: World) {
    && (forall id :: id in w.status.requeues && id !in after.status.requeues ==>
        AbsentStreak(after.log, id, true) >= GONE_CONFIRMATIONS)
    && (forall id :: id in w.status.softStops && id !in after.status.softStops ==>
        AbsentStreak(after.log, id, false) >= GONE_CONFIRMATIONS)
    && (forall id :: id in w.status.archived && id !in after.status.archived ==>
        AbsentStreak(after.log, id, false) >= GONE_CONFIRMATIONS)
  }

  /** What the counters of a pass confirm gone was absent from its three latest heavy checks. */
  lemma ConfirmedWereAbsent(counters: map<string, nat>, log: seq<Effect>, datapoint: bool, id: string)
    requires Backed(counters, log, datapoint) && id in Confirmed(counters)
    ensures AbsentStreak(log, id, datapoint) >= GONE_CONFIRMATIONS
  {}

  lemma BumpedBacked(w: World, datapoints: set<string>, analyses: set<string>)
    requires CountersBacked(w)
    ensures CountersBacked(w.(cache := CheckedCache(w, datapoints, analyses),
                              log := w.log + [Checked(datapoints, analyses)]))
  {
    var e := Checked(datapoints, analyses);
    BumpBacked(w.cache.absentDatapoints, w.log, w.status.requeues.Keys, datapoints, e, true);
    BumpBacked(w.cache.absentAnalyses, w.log, TrackedAnalyses(w.status), analyses, e, false);
  }

  /** The analyses that a prune keeps: the live ones and those awaiting confirmation. */
  function KeptLive(c: Cache, analyses: set<string>): set<string> {
    analyses + (c.absentAnalyses.Keys - Confirmed(c.absentAnalyses))
  }

  /** The prune takes only confirmed ids out of the debounced maps. */
  lemma PruneDrops(s: Status, c: Cache, datapoints: set<string>, analyses: set<string>, log: seq<Effect>)
    requires Backed(c.absentDatapoints, log, true) && Backed(c.absentAnalyses, log, false)
    requires s.requeues.Keys - datapoints <= c.absentDatapoints.Keys
    requires TrackedAnalyses(s) - analyses <= c.absentAnalyses.Keys
    ensures var after := Change(s, PruneEffect(c, datapoints, analyses));
            && (forall id :: id in s.requeues && id !in after.requeues ==>
                AbsentStreak(log, id, true) >= GONE_CONFIRMATIONS)
            && (forall id :: id in TrackedAnalyses(s) && id !in KeptLive(c, analyses) ==>
                AbsentStreak(log, id, false) >= GONE_CONFIRMATIONS)
  {
    var after := Change(s, PruneEffect(c, datapoints, analyses));
    forall id | id in s.requeues && id !in after.requeues ensures AbsentStreak(log, id, true) >= GONE_CONFIRMATIONS {
      ConfirmedWereAbsent(c.absentDatapoints, log, true, id);
    }
    forall id | id in TrackedAnalyses(s) && id !in KeptLive(c, analyses)
      ensures AbsentStreak(log, id, false) >= GONE_CONFIRMATIONS
    {
      ConfirmedWereAbsent(c.absentAnalyses, log, false, id);
    }
  }

  lemma RetireBacked(c: Cache, log: seq<Effect>)
    requires Backed(c.absentDatapoints, log, true) && Backed(c.absentAnalyses, log, false)
    ensures Backed(Retire(c).absentDatapoints, log, true) && Backed(Retire(c).absentAnalyses, log, false)
  {}

  /** A pass whose check went through: counted, then pruned if something was confirmed. */
  lemma CountedDrops(w: World, datapoints: set<string>, analyses: set<string>)
    requires CountersBacked(w)
    requires w.status.requeues.Keys - datapoints <= w.cache.absentDatapoints.Keys
    requires TrackedAnalyses(w.status) - analyses <= w.cache.absentAnalyses.Keys
    ensures var pruned := Do(w, PruneEffect(w.cache, datapoints, analyses));
            DropsWereAbsent(w, pruned) && CountersBacked(pruned) && CountersBacked(pruned.(cache := Retire(w.cache)))
  {
    var p := PruneEffect(w.cache, datapoints, analyses);
    var pruned := Do(w, p);
    DoBacked(w, p);
    RetireBacked(w.cache, pruned.log);
    if !w.crashed && w.fuel > 0 {
      PruneDrops(w.status, w.cache, datapoints, analyses, pruned.log);
    }
  }

  lemma HygieneDrops(w: World, datapoints: set<string>, analyses: set<string>)
    requires CountersBacked(w)
    ensures DropsWereAbsent(w, Hygiene(w, datapoints, analyses)) && CountersBacked(Hygiene(w, datapoints, analyses))
  {
    var checked := Do(w, Checked(datapoints, analyses));
    if !checked.crashed {
      BumpedBacked(w, datapoints, analyses);
      CountedDrops(checked.(cache := CheckedCache(w, datapoints, analyses)), datapoints, analyses);
    }
  }

  lemma ActedUndropped(w: World, cfg: Config, now: Time, v: Views)
    requires CountersBacked(w)
    ensures Undropped(w, Acted(w, cfg, now, v))
  {
    var inv := (x: World) => Undropped(w, x);
    forall x: World, e: Effect | inv(x) && !e.Checked? && !e.Prune? ensures inv(Do(x, e)) { DoUndropped(w, x, e); }
    assert forall x: World, id :: inv(x) ==> inv(Noted(x, id));
    ActedKeeps(w, cfg, now, v, inv);
  }

  lemma CleanDrops(w: World, v: Views)
    requires CountersBacked(w)
    ensures DropsWereAbsent(w, Clean(w, v)) && CountersBacked(Clean(w, v))
  {
    HygieneDrops(w, Elements(v.started) + v.heavyDatapoints, v.heavyAnalyses);
  }

  lemma FinishDrops(w: World, v: Views)
    requires CountersBacked(w)
    ensures DropsWereAbsent(w, Finish(w, v)) && CountersBacked(Finish(w, v))
  {
    CleanDrops(Counted(w), v);
  }

  lemma DropsCompose(w: World, mid: World, after: World)
    requires Undropped(w, mid) && DropsWereAbsent(mid, after)
    ensures DropsWereAbsent(w, after)
  {}

  lemma TickDrops(w: World, cfg: Config, now: Time, v: Views)
    requires CountersBacked(w)
    ensures DropsWereAbsent(w, Tick(w, cfg, now, v)) && CountersBacked(Tick(w, cfg, now, v))
  {
    ActedUndropped(w, cfg, now, v);
    FinishDrops(Acted(w, cfg, now, v), v);
    DropsCompose(w, Acted(w, cfg, now, v), Tick(w, cfg, now, v));
  }

  lemma NextBacked(w: World, s: Step, after: World)
    requires Next(w, s, after) && CountersBacked(w)
    ensures CountersBacked(after) && (s.Poll? ==> DropsWereAbsent(w, after))
  {
    if s.Poll? { TickDrops(w.(fuel := s.fuel, crashed := false), s.cfg, s.now, s.views); }
  }

  lemma {:induction false} RunBacked(worlds: seq<World>, steps: seq<Step>, i: nat)
    requires IsRun(worlds, steps) && i <= |steps|
    ensures CountersBacked(worlds[i])
  {
    if i > 0 {
      RunBacked(worlds, steps, i - 1);
      NextAt(worlds, steps, i - 1);
      NextBacked(worlds[i - 1], steps[i - 1], worlds[i]);
    }
  }

  /** The debounced age-out over whole runs: a poll removes a `requeues`, `softStops` or
      `archivedAnalyses` entry only if the id was in no live view of its three latest heavy checks. */
  lemma DebouncedAgeOut(worlds: seq<World>, steps: seq<Step>, i: nat)
    requires IsRun(worlds, steps) && i < |steps| && steps[i].Poll?
    ensures DropsWereAbsent(worlds[i], worlds[i + 1])
  {
    RunBacked(worlds, steps, i);
    NextAt(worlds, steps, i);
    NextBacked(worlds[i], steps[i], worlds[i + 1]);
  }

  // ---------------------------------------------------------------- clocks of started datapoints

  /** Effects that cannot remove the clock of the datapoint. */
  predicate SparesClock(e: Effect, id: string) {
    (e.ClearSince? ==> e.id != id) && (e.Prune? ==> id in e.liveDatapoints)
  }

  lemma DoSpares(w: World, e: Effect, id: string)
    requires id in w.status.since && SparesClock(e, id)
    ensures id in Do(w, e).status.since
  {}

  lemma {:induction false} ClearAllSpares(w: World, departed: seq<string>, id: string)
    requires id in w.status.since && id !in departed
    ensures id in ClearAll(w, departed).status.since
  {
    if departed != [] {
      ClearAllSpares(w, departed[..|departed| - 1], id);
    }
  }

  lemma {:induction false} ObserveAllSpares(w: World, now: Time, started: seq<string>, id: string)
    requires id in w.status.since
    ensures id in ObserveAll(w, now, started).status.since
  {
    if started != [] { ObserveAllSpares(w, now, started[..|started| - 1], id); }
  }

  lemma RequeueSpares(w: World, cfg: Config, now: Time, other: string, id: string)
    requires id in w.status.since
    ensures id in RequeueOne(w, cfg, now, other).status.since
  {
    var call := if cfg.dryRun then Suppressed(other, now) else RequeueCall(other, now);
    var put := PutRequeue(other, RequeueRecord(Budget(w.status, other) + 1, now));
    DoSpares(w, call, id);
    DoSpares(Do(w, call), put, id);
    DoSpares(Do(Do(w, call), put), SetSince(other, now), id);
  }

  lemma {:induction false} RequeueAllSpares(w: World, cfg: Config, now: Time, started: seq<string>, id: string)
    requires id in w.status.since
    ensures id in RequeueAll(w, cfg, now, started).status.since
  {
    if started != [] {
      RequeueAllSpares(w, cfg, now, started[..|started| - 1], id);
      RequeueSpares(RequeueAll(w, cfg, now, started[..|started| - 1]), cfg, now, started[|started| - 1], id);
    }
  }

  lemma HygieneSpares(w: World, datapoints: set<string>, analyses: set<string>, id: string)
    requires id in w.status.since && id in datapoints
    ensures id in Hygiene(w, datapoints, analyses).status.since
  {
    var checked := Do(w, Checked(datapoints, analyses));
    var bumped := CheckedCache(w, datapoints, analyses);
    DoSpares(w, Checked(datapoints, analyses), id);
    DoSpares(checked.(cache := bumped), PruneEffect(bumped, datapoints, analyses), id);
  }

  /** No poll, wherever it fails, removes the clock of a datapoint that it saw started. */
  lemma StartedClockIsKept(w: World, s: Step, id: string)
    requires s.Poll? && ValidViews(w.status, s.views) && id in s.views.started && id in w.status.since
    ensures id in PollFrom(w, s).status.since
  {
    var start, v := w.(fuel := s.fuel, crashed := false), s.views;
    assert id in Elements(v.started) && id !in v.departed;
    ClearAllSpares(start, v.departed, id);
    ObserveAllSpares(ClearAll(start, v.departed), s.now, v.started, id);
    RequeueAllSpares(ObserveAll(ClearAll(start, v.departed), s.now, v.started), s.cfg, s.now, v.started, id);
    var acted := Acted(start, s.cfg, s.now, v);
    HygieneSpares(Counted(acted), Elements(v.started) + v.heavyDatapoints, v.heavyAnalyses, id);
  }
}
