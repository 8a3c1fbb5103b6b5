/** What a hygiene pass removes and what it protects: the exact rule, the map it does not debounce,
    and the live ids that cap eviction spares. */
module WatchdogHygiene {
  import opened Basics
  import opened Ordering
  import opened Records
  import Json
  import Store = StatusStore
  import opened Watchdog
  import opened WatchdogRuns
  import opened WatchdogAnchors

  // ---------------------------------------------------------------- the rule

  function GoneDatapoints(w: World, datapoints: set<string>): set<string> {
    Confirmed(Bumped(w.cache.absentDatapoints, w.status.requeues.Keys, datapoints))
  }

  function GoneAnalyses(w: World, analyses: set<string>): set<string> {
    Confirmed(Bumped(w.cache.absentAnalyses, TrackedAnalyses(w.status), analyses))
  }

  /** The pass confirms something gone, and so prunes. */
  predicate Prunes(w: World, datapoints: set<string>, analyses: set<string>) {
    GoneDatapoints(w, datapoints) != {} || GoneAnalyses(w, analyses) != {}
  }

  /** The pass runs to its end and there is something to track. */
  predicate Passes(w: World, datapoints: set<string>, analyses: set<string>) {
    && !w.crashed && !Hygiene(w, datapoints, analyses).crashed
    && (w.status.requeues != map[] || TrackedAnalyses(w.status) != {})
  }

  /** What a prune keeps of the analysis ids: the live ones and the tracked ones not confirmed. */
  lemma KeptAnalyses(w: World, analyses: set<string>, k: string)
    ensures var absent := Bumped(w.cache.absentAnalyses, TrackedAnalyses(w.status), analyses);
            k in analyses + (absent.Keys - Confirmed(absent)) <==>
              k in analyses || (k in TrackedAnalyses(w.status) && k !in GoneAnalyses(w, analyses))
  {}

  lemma KeptDatapoints(w: World, datapoints: set<string>, k: string)
    ensures var absent := Bumped(w.cache.absentDatapoints, w.status.requeues.Keys, datapoints);
            k in datapoints + (absent.Keys - Confirmed(absent)) <==>
              k in datapoints || (k in w.status.requeues && k !in GoneDatapoints(w, datapoints))
  {}

  lemma PassResult(w: World, datapoints: set<string>, analyses: set<string>)
    requires Passes(w, datapoints, analyses)
    ensures Hygiene(w, datapoints, analyses).status ==
              if Prunes(w, datapoints, analyses)
              then Change(w.status, PruneEffect(CheckedCache(w, datapoints, analyses), datapoints, analyses))
              else w.status
  {}

  /** The exact rule of a completed pass. From `requeues`, `softStops` and `archivedAnalyses` go the
      confirmed ids and no others. From `stoppedAnalyses`, whose ids are not tracked, an id goes exactly
      when something is confirmed, the id is in no live view, and it is untracked or itself confirmed.
      A clock goes when something is confirmed and its datapoint is neither live nor still tracked. */
  lemma HygieneRemovesConfirmed(w: World, datapoints: set<string>, analyses: set<string>, k: string)
    requires Passes(w, datapoints, analyses)
    ensures var s, after := w.status, Hygiene(w, datapoints, analyses).status;
            && (k in s.requeues ==> (k !in after.requeues <==> k in GoneDatapoints(w, datapoints)))
            && (k in s.softStops ==> (k !in after.softStops <==> k in GoneAnalyses(w, analyses)))
            && (k in s.archived ==> (k !in after.archived <==> k in GoneAnalyses(w, analyses)))
            && (k in s.stopped ==>
                 (k !in after.stopped <==>
                   && Prunes(w, datapoints, analyses) && k !in analyses
                   && (k in TrackedAnalyses(s) ==> k in GoneAnalyses(w, analyses))))
            && (k in s.since ==>
                 (k !in after.since <==>
                   && Prunes(w, datapoints, analyses) && k !in datapoints
                   && (k in s.requeues ==> k in GoneDatapoints(w, datapoints))))
  {
    PassResult(w, datapoints, analyses);
    KeptAnalyses(w, analyses, k);
    KeptDatapoints(w, datapoints, k);
  }

  // ---------------------------------------------------------------- a stop record gone at once

  const LEFTOVERS := Status(map[], map[], {"a"}, {}, {"b"})

  function Checks(n: nat): seq<Effect> { if n == 0 then [] else Checks(n - 1) + [Checked({}, {"b"})] }

  /** After n heavy checks that listed "b" and not "a", and some polls: the anchor of "a" is left over,
      and so is a stop record of "b". */
  function Idle(ticks: nat, n: nat): World {
    var absent: map<string, nat> := if n == 0 then map[] else map["a" := n];
    var registry := if n == 0 then map[] else Registered(map[], {}, {"b"});
    World(LEFTOVERS, Cache({}, ticks, map[], absent, registry), Checks(n), 0, false)
  }

  /** A poll that finds nothing started. */
  function Lull(heavy: set<string>, fuel: nat): Step { Poll(Config(0, 0, false), 0, Views([], [], {}, heavy), fuel) }

  lemma LullActs(w: World, heavy: set<string>, fuel: nat)
    requires w.status == LEFTOVERS
    ensures ValidViews(w.status, Lull(heavy, fuel).views)
    ensures PollFrom(w, Lull(heavy, fuel)) ==
              var counted := Counted(w.(fuel := fuel, crashed := false));
              if counted.cache.ticks % PRUNE_EVERY_N_TICKS == 0 then Hygiene(counted, {}, heavy) else counted
  {
    assert Elements([]) == {};
    assert Elements([]) + {} == {};
  }

  lemma QuietLull(ticks: nat, n: nat)
    requires (ticks + 1) % PRUNE_EVERY_N_TICKS != 0
    ensures Next(Idle(ticks, n), Lull({"b"}, 0), Idle(ticks + 1, n))
  {
    LullActs(Idle(ticks, n), {"b"}, 0);
  }

  lemma BumpedLeftovers(n: nat, live: set<string>)
    requires "a" !in live
    ensures Bumped(if n == 0 then map[] else map["a" := n], TrackedAnalyses(LEFTOVERS), live) == map["a" := n + 1]
    ensures Confirmed(map["a" := n + 1]) == if n + 1 >= GONE_CONFIRMATIONS then {"a"} else {}
    ensures Bumped(map[], LEFTOVERS.requeues.Keys, {}) == map[] && Confirmed(map[]) == {}
  {}

  /** The world that a check leaves, before anything is confirmed. */
  lemma CheckedLeftovers(ticks: nat, n: nat, heavy: set<string>, fuel: nat)
    requires "a" !in heavy && fuel > 0
    ensures var w := Idle(ticks, n).(fuel := fuel);
            CheckedCache(w, {}, heavy) ==
              Cache({}, ticks, map[], map["a" := n + 1], Registered(w.cache.registry, {}, heavy))
  {
    BumpedLeftovers(n, heavy);
  }

  lemma HeavyLull(ticks: nat, n: nat)
    requires (ticks + 1) % PRUNE_EVERY_N_TICKS == 0 && n + 1 < GONE_CONFIRMATIONS
    ensures Next(Idle(ticks, n), Lull({"b"}, 1), Idle(ticks + 1, n + 1))
  {
    var counted := Idle(ticks + 1, n).(fuel := 1);
    LullActs(Idle(ticks, n), {"b"}, 1);
    CheckedLeftovers(ticks + 1, n, {"b"}, 1);
    BumpedLeftovers(n, {"b"});
    RegisteredOver({}, {"b"}, {}, {"b"});
    assert Hygiene(counted, {}, {"b"}) == Do(counted, Checked({}, {"b"})).(cache := CheckedCache(counted, {}, {"b"}));
  }

  /** The check that no longer lists "b" is the third that does not list "a". */
  lemma LastLull(ticks: nat)
    requires (ticks + 1) % PRUNE_EVERY_N_TICKS == 0
    ensures var after := PollFrom(Idle(ticks, 2), Lull({}, 2));
            && Next(Idle(ticks, 2), Lull({}, 2), after) && after.status.stopped == {}
            && after.log == Checks(2) + [Checked({}, {})] + [Prune({}, {})]
  {
    var counted := Idle(ticks + 1, 2).(fuel := 2);
    LullActs(Idle(ticks, 2), {}, 2);
    CheckedLeftovers(ticks + 1, 2, {}, 2);
    BumpedLeftovers(2, {});
    var checked := Do(counted, Checked({}, {})).(cache := CheckedCache(counted, {}, {}));
    SweptLeftovers(checked);
    assert Hygiene(counted, {}, {}) == Sweep(checked, {}, {});
  }

  lemma SweptLeftovers(w: World)
    requires w.status == LEFTOVERS && !w.crashed && w.fuel == 1
    requires w.cache.absentDatapoints == map[] && w.cache.absentAnalyses == map["a" := 3]
    ensures Sweep(w, {}, {}).status.stopped == {} && Sweep(w, {}, {}).log == w.log + [Prune({}, {})]
  {
    BumpedLeftovers(2, {});
    assert PruneEffect(w.cache, {}, {}) == Prune({}, {});
    assert LEFTOVERS.stopped * {} == {};
  }

  lemma StreakOfB()
    ensures AbsentStreak(Checks(2) + [Checked({}, {})] + [Prune({}, {})], "b", false) == 1
  {
    var seen := Checks(2);
    assert Checks(1) == Checks(0) + [Checked({}, {"b"})];
    StreakAppend(Checks(1), Checked({}, {"b"}), "b", false);
    StreakAppend(seen, Checked({}, {}), "b", false);
    StreakAppend(seen + [Checked({}, {})], Prune({}, {}), "b", false);
  }

  /** Twenty-nine polls, two of them heavy. */
  function LullAt(k: nat): Step {
    if k == 29 then Lull({}, 2) else Lull({"b"}, if (k + 1) % PRUNE_EVERY_N_TICKS == 0 then 1 else 0)
  }

  function IdleAt(k: nat): World {
    if k == 30 then PollFrom(Idle(29, 2), Lull({}, 2)) else Idle(k, k / PRUNE_EVERY_N_TICKS)
  }

  lemma LullStep(k: nat)
    requires k < 30
    ensures Next(IdleAt(k), LullAt(k), IdleAt(k + 1))
  {
    if k == 29 {
      LastLull(29);
    } else if (k + 1) % PRUNE_EVERY_N_TICKS == 0 {
      HeavyLull(k, k / PRUNE_EVERY_N_TICKS);
    } else {
      QuietLull(k, k / PRUNE_EVERY_N_TICKS);
    }
  }

  /** `stoppedAnalyses` is not debounced: a run, from a fresh process, in which a stop record goes with
      the first heavy check that does not list its analysis. */
  lemma StoppedIsNotDebounced() returns (worlds: seq<World>, steps: seq<Step>)
    ensures IsRun(worlds, steps) && |steps| == 30 && steps[29].Poll?
    ensures "b" in worlds[29].status.stopped && "b" !in worlds[30].status.stopped
    ensures AbsentStreak(worlds[30].log, "b", false) == 1
  {
    worlds := seq(31, k requires 0 <= k < 31 => IdleAt(k));
    steps := seq(30, k requires 0 <= k < 30 => LullAt(k));
    forall i | 0 <= i < 30 ensures Next(worlds[i], steps[i], worlds[i + 1]) { LullStep(i); }
    LastLull(29);
    StreakOfB();
  }

  // ---------------------------------------------------------------- live ids and cap eviction

  /** The last heavy check. */
  function LastCheck(log: seq<Effect>): Option<Effect> {
    if log == [] then None
    else if log[|log| - 1].Checked? then Some(log[|log| - 1])
    else LastCheck(log[..|log| - 1])
  }

  /** What is registered is what the last heavy check saw alive, or nothing in a process without one. */
  predicate RegistryTrue(w: World) {
    var last := LastCheck(w.log);
    w.cache.registry == map[]
    || (last.Some? && last.value.Checked? &&
        w.cache.registry == Registered(map[], last.value.datapoints, last.value.analyses))
  }

  lemma LastCheckGrows(log: seq<Effect>, e: Effect)
    ensures LastCheck(log + [e]) == if e.Checked? then Some(e) else LastCheck(log)
  {
    assert (log + [e])[..|log|] == log;
  }

  lemma DoRegistry(w: World, e: Effect)
    requires RegistryTrue(w) && !e.Checked?
    ensures RegistryTrue(Do(w, e))
  {
    LastCheckGrows(w.log, e);
  }

  lemma RegisteredOver(d: set<string>, a: set<string>, datapoints: set<string>, analyses: set<string>)
    ensures Registered(Registered(map[], d, a), datapoints, analyses) == Registered(map[], datapoints, analyses)
  {}

  lemma SweepRegistry(w: World, datapoints: set<string>, analyses: set<string>)
    requires RegistryTrue(w)
    ensures RegistryTrue(Sweep(w, datapoints, analyses))
  {
    DoRegistry(w, PruneEffect(w.cache, datapoints, analyses));
  }

  lemma HygieneRegistry(w: World, datapoints: set<string>, analyses: set<string>)
    requires RegistryTrue(w)
    ensures RegistryTrue(Hygiene(w, datapoints, analyses))
  {
    var checked := Do(w, Checked(datapoints, analyses));
    if !w.crashed && !checked.crashed {
      LastCheckGrows(w.log, Checked(datapoints, analyses));
      if w.cache.registry != map[] {
        var last := LastCheck(w.log).value;
        RegisteredOver(last.datapoints, last.analyses, datapoints, analyses);
      }
      SweepRegistry(checked.(cache := CheckedCache(w, datapoints, analyses)), datapoints, analyses);
    }
  }

  lemma NextRegistry(w: World, s: Step, after: World)
    requires Next(w, s, after) && RegistryTrue(w)
    ensures RegistryTrue(after)
  {
    if s.Poll? {
      var start := w.(fuel := s.fuel, crashed := false);
      var inv := (x: World) => RegistryTrue(x);
      forall x: World, e: Effect | inv(x) && !e.Checked? && !e.Prune? ensures inv(Do(x, e)) { DoRegistry(x, e); }
      assert forall x: World, id :: inv(x) ==> inv(Noted(x, id));
      ActedKeeps(start, s.cfg, s.now, s.views, inv);
      var acted := Acted(start, s.cfg, s.now, s.views);
      HygieneRegistry(Counted(acted), Elements(s.views.started) + s.views.heavyDatapoints, s.views.heavyAnalyses);
    }
  }

  lemma {:induction false} RunRegistry(worlds: seq<World>, steps: seq<Step>, i: nat)
    requires IsRun(worlds, steps) && i <= |steps|
    ensures RegistryTrue(worlds[i])
  {
    if i > 0 {
      RunRegistry(worlds, steps, i - 1);
      NextAt(worlds, steps, i - 1);
      NextRegistry(worlds[i - 1], steps[i - 1], worlds[i]);
    }
  }

  /** The ids protected in each map are those that the last heavy check saw alive. */
  lemma ProtectedAreAlive(d: set<string>, a: set<string>)
    ensures Store.Protected(Registered(map[], d, a), Store.REQUEUES) == d
    ensures Store.Protected(Registered(map[], d, a), Store.STARTED_SINCE) == d
    ensures Store.Protected(Registered(map[], d, a), Store.SOFT_STOPS) == a
    ensures Store.Protected(Registered(map[], d, a), Store.ARCHIVED_ANALYSES) == a
    ensures Store.Protected(Registered(map[], d, a), Store.STOPPED_ANALYSES) == {}
  {}

  /** The four maps that the pass registers. */
  predicate Anchors(f: string) {
    f == Store.REQUEUES || f == Store.STARTED_SINCE || f == Store.SOFT_STOPS || f == Store.ARCHIVED_ANALYSES
  }

  /** The ids of the map that the last heavy check saw alive. */
  function Alive(log: seq<Effect>, f: string): set<string> {
    var last := LastCheck(log);
    if last.None? || !last.value.Checked? then {}
    else if f == Store.REQUEUES || f == Store.STARTED_SINCE then last.value.datapoints
    else last.value.analyses
  }

  lemma RegistryIsAlive(w: World, f: string)
    requires RegistryTrue(w) && w.cache.registry != map[] && Anchors(f)
    ensures Store.Protected(w.cache.registry, f) == Alive(w.log, f)
  {
    var last := LastCheck(w.log).value;
    ProtectedAreAlive(last.datapoints, last.analyses);
  }

  /** Cap eviction spares live anchors: at every moment of a run whose process has made a heavy check,
      a write to a full map, as the store makes it, drops another entry that the last check saw alive
      only if every entry that is left, but the one written, was seen alive too. */
  lemma LiveAnchorsGoLast(worlds: seq<World>, steps: seq<Step>, i: nat, status: Json.Value, f: string, key: string,
                          encoded: Json.Value, id: string)
    requires IsRun(worlds, steps) && i <= |steps| && worlds[i].cache.registry != map[] && Anchors(f)
    requires Json.NullFree(status) && encoded != Json.Null && Store.Current(status, f, key) != encoded
    requires |Store.Entries(status, f)| >= Store.STATUS_MAP_MAX_ENTRIES
    requires var op := Store.Set(f, key, encoded, Store.Protected(worlds[i].cache.registry, f));
             id in Store.Entries(status, f) && id != key && id !in Store.Entries(Store.Apply(op, status), f)
    requires id in Alive(worlds[i].log, f)
    ensures var op := Store.Set(f, key, encoded, Store.Protected(worlds[i].cache.registry, f));
            forall u :: u in Store.Entries(Store.Apply(op, status), f) && u != key ==> u in Alive(worlds[i].log, f)
  {
    RunRegistry(worlds, steps, i);
    RegistryIsAlive(worlds[i], f);
    Store.CapEviction(status, f, key, encoded, Store.Protected(worlds[i].cache.registry, f));
  }
}
