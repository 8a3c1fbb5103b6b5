/** The zombie-datapoint watchdog and its anchor hygiene: one tick as a step function over the
    durable maps and the per-process caches, with a crash at any effect boundary, and as code. */
module Watchdog {
  import opened Basics
  import opened Ordering
  import opened Records
  import StatusStore

  const PRUNE_EVERY_N_TICKS := 10
  const GONE_CONFIRMATIONS := 3

  datatype Config = Config(maxRuntime: int, maxRequeues: int, dryRun: bool)

  /** What the tick does or observes, in order. `Suppressed` is a requeue withheld by dry-run;
      `Checked` is one heavy liveness view, of datapoints and of analyses. */
  datatype Effect =
    | ClearSince(id: string)
    | SetSince(id: string, at: Time)
    | RequeueCall(id: string, at: Time)
    | Suppressed(id: string, at: Time)
    | PutRequeue(id: string, record: RequeueRecord)
    | Exhausted(id: string)
    | Checked(datapoints: set<string>, analyses: set<string>)
    | Prune(liveDatapoints: set<string>, liveAnalyses: set<string>)

  /** The status maps; of the three analysis maps only the keys matter here. */
  datatype Status = Status(since: map<string, Time>, requeues: map<string, RequeueRecord>,
                           softStops: set<string>, archived: set<string>, stopped: set<string>)

  /** Per-process state: the exhaustion dedup set, the tick counter, the absence counters, and the live
      ids registered with the store for cap eviction. */
  datatype Cache = Cache(exhaustedSeen: set<string>, ticks: nat, absentDatapoints: map<string, nat>,
                         absentAnalyses: map<string, nat>, registry: StatusStore.Registry)

  const FRESH_CACHE := Cache({}, 0, map[], map[], map[])

  /** `fuel` effects succeed, then one raises; after that nothing happens in the tick. */
  datatype World = World(status: Status, cache: Cache, log: seq<Effect>, fuel: nat, crashed: bool)

  function Change(s: Status, e: Effect): Status {
    match e
    case ClearSince(id) => s.(since := s.since - {id})
    case SetSince(id, at) => s.(since := s.since[id := at])
    case PutRequeue(id, r) => s.(requeues := s.requeues[id := r])
    case Prune(datapoints, analyses) => Pruned(s, datapoints, analyses)
    case _ => s
  }

  function Pruned(s: Status, datapoints: set<string>, analyses: set<string>): Status {
    Status(map k | k in s.since && k in datapoints :: s.since[k],
           map k | k in s.requeues && k in datapoints :: s.requeues[k],
           s.softStops * analyses, s.archived * analyses, s.stopped * analyses)
  }

  function Do(w: World, e: Effect): World {
    if w.crashed then w
    else if w.fuel == 0 then w.(crashed := true)
    else w.(status := Change(w.status, e), fuel := w.fuel - 1, log := w.log + [e])
  }

  // ---------------------------------------------------------------- requeues

  function Budget(s: Status, id: string): int { if id in s.requeues then s.requeues[id].count else 0 }

  function ClearAll(w: World, departed: seq<string>): World {
    if departed == [] then w else Do(ClearAll(w, departed[..|departed| - 1]), ClearSince(departed[|departed| - 1]))
  }

  function Observe(w: World, now: Time, id: string): World {
    if id in w.status.since then w else Do(w, SetSince(id, now))
  }

  function ObserveAll(w: World, now: Time, started: seq<string>): World {
    if started == [] then w else Observe(ObserveAll(w, now, started[..|started| - 1]), now, started[|started| - 1])
  }

  predicate Overdue(s: Status, cfg: Config, now: Time, id: string) {
    id in s.since && now - s.since[id] > cfg.maxRuntime
  }

  function Noted(w: World, id: string): World { w.(cache := w.cache.(exhaustedSeen := w.cache.exhaustedSeen + {id})) }

  function Warn(w: World, id: string): World {
    if w.crashed || id in w.cache.exhaustedSeen then w else Do(Noted(w, id), Exhausted(id))
  }

  /** Requeue (or suppress), then record, then restart the clock. */
  function RequeueOne(w: World, cfg: Config, now: Time, id: string): World {
    if !Overdue(w.status, cfg, now, id) then w
    else if Budget(w.status, id) >= cfg.maxRequeues then Warn(w, id)
    else Send(w, if cfg.dryRun then Suppressed(id, now) else RequeueCall(id, now), now, id)
  }

  function Send(w: World, call: Effect, now: Time, id: string): World {
    Do(Do(Do(w, call), PutRequeue(id, RequeueRecord(Budget(w.status, id) + 1, now))), SetSince(id, now))
  }

  function RequeueAll(w: World, cfg: Config, now: Time, started: seq<string>): World {
    if started == [] then w
    else RequeueOne(RequeueAll(w, cfg, now, started[..|started| - 1]), cfg, now, started[|started| - 1])
  }

  // ---------------------------------------------------------------- hygiene

  /** Absent tracked ids gain one, ids seen alive and ids no longer tracked drop out. */
  function Bumped(counters: map<string, nat>, tracked: set<string>, live: set<string>): map<string, nat> {
    map k | k in tracked && k !in live :: (if k in counters then counters[k] else 0) + 1
  }

  function Confirmed(counters: map<string, nat>): set<string> {
    set k | k in counters && counters[k] >= GONE_CONFIRMATIONS
  }

  function TrackedAnalyses(s: Status): set<string> { s.softStops + s.archived }

  /** Counters retired for the ids that the prune removed. */
  function Retire(c: Cache): Cache {
    c.(absentDatapoints := c.absentDatapoints - Confirmed(c.absentDatapoints),
       absentAnalyses := c.absentAnalyses - Confirmed(c.absentAnalyses))
  }

  /** The prune of a pass whose counters are `c`: what is live or not yet confirmed stays. */
  function PruneEffect(c: Cache, datapoints: set<string>, analyses: set<string>): Effect {
    Prune(datapoints + (c.absentDatapoints.Keys - Confirmed(c.absentDatapoints)),
          analyses + (c.absentAnalyses.Keys - Confirmed(c.absentAnalyses)))
  }

  /** The live views of a check, registered for the four maps that hold anchors. */
  function Registered(registry: StatusStore.Registry, datapoints: set<string>,
                      analyses: set<string>): StatusStore.Registry {
    var first := StatusStore.Protect(registry, StatusStore.REQUEUES, datapoints);
    var second := StatusStore.Protect(first, StatusStore.STARTED_SINCE, datapoints);
    var third := StatusStore.Protect(second, StatusStore.SOFT_STOPS, analyses);
    StatusStore.Protect(third, StatusStore.ARCHIVED_ANALYSES, analyses)
  }

  /** The cache after a heavy check: counters bumped, live ids registered. */
  function CheckedCache(w: World, datapoints: set<string>, analyses: set<string>): Cache {
    w.cache.(absentDatapoints := Bumped(w.cache.absentDatapoints, w.status.requeues.Keys, datapoints),
             absentAnalyses := Bumped(w.cache.absentAnalyses, TrackedAnalyses(w.status), analyses),
             registry := Registered(w.cache.registry, datapoints, analyses))
  }

  /** The prune, once the counters are bumped and if they confirm anything gone. */
  function Sweep(w: World, datapoints: set<string>, analyses: set<string>): World {
    if Confirmed(w.cache.absentDatapoints) == {} && Confirmed(w.cache.absentAnalyses) == {} then w
    else
      var pruned := Do(w, PruneEffect(w.cache, datapoints, analyses));
      if pruned.crashed then pruned else pruned.(cache := Retire(w.cache))
  }

  function Hygiene(w: World, datapoints: set<string>, analyses: set<string>): World {
    if w.crashed then w
    else if w.status.requeues == map[] && TrackedAnalyses(w.status) == {} then
      w.(cache := w.cache.(absentDatapoints := map[], absentAnalyses := map[]))
    else
      var checked := Do(w, Checked(datapoints, analyses));
      if checked.crashed then checked
      else Sweep(checked.(cache := CheckedCache(w, datapoints, analyses)), datapoints, analyses)
  }

  // ---------------------------------------------------------------- the tick

  /** What the server reports to one tick, and the order in which departed clocks are dropped.
      `heavyDatapoints` and `heavyAnalyses` are the full listings that a hygiene pass reads. */
  datatype Views = Views(started: seq<string>, departed: seq<string>, heavyDatapoints: set<string>,
                         heavyAnalyses: set<string>)

  predicate ValidViews(s: Status, v: Views) {
    Distinct(v.started) && Lists(v.departed, s.since.Keys - Elements(v.started))
  }

  function Acted(w: World, cfg: Config, now: Time, v: Views): World {
    RequeueAll(ObserveAll(ClearAll(w, v.departed), now, v.started), cfg, now, v.started)
  }

  function Counted(w: World): World { w.(cache := w.cache.(ticks := w.cache.ticks + 1)) }

  /** A hygiene pass over the views of one poll. */
  function Clean(w: World, v: Views): World { Hygiene(w, Elements(v.started) + v.heavyDatapoints, v.heavyAnalyses) }

  /** The poll is counted, and every tenth one of the process cleans up. */
  function Finish(w: World, v: Views): World { Finished(w, Clean(Counted(w), v)) }

  function Finished(w: World, cleaned: World): World {
    if w.crashed then w else if (w.cache.ticks + 1) % PRUNE_EVERY_N_TICKS == 0 then cleaned else Counted(w)
  }

  function Tick(w: World, cfg: Config, now: Time, v: Views): World { Finish(Acted(w, cfg, now, v), v) }

  // ---------------------------------------------------------------- imperative code

  /** Advances the absence counters in place, one tracked id after the other. */
  method BumpAbsences(before: map<string, nat>, tracked: set<string>,
                      live: set<string>) returns (counters: map<string, nat>)
    ensures counters == Bumped(before, tracked, live)
  {
    counters := before;
    var todo := tracked;
    while todo != {}
      invariant todo <= tracked
      invariant forall k :: k in counters ==> k in before || k in tracked
      invariant forall k :: k in todo || k !in tracked ==>
                  (k in counters <==> k in before) && (k in counters ==> counters[k] == before[k])
      invariant forall k :: k in tracked && k !in todo ==> (k in counters <==> k !in live)
      invariant forall k :: k in tracked && k !in todo && k !in live ==>
                  counters[k] == (if k in before then before[k] else 0) + 1
      decreases todo
    {
      var k :| k in todo;
      if k in live {
        counters := counters - {k};
      } else {
        counters := counters[k := (if k in counters then counters[k] else 0) + 1];
      }
      todo := todo - {k};
    }
    var stale := counters.Keys - tracked;
    counters := counters - stale;
  }

  class Monitor {
    var status: Status
    var cache: Cache
    var log: seq<Effect>
    var fuel: nat
    var crashed: bool

    function View(): World
      reads this
    {
      World(status, cache, log, fuel, crashed)
    }

    /** One effect; raises (answers false) when the fuel is spent. */
    method Perform(e: Effect) returns (ok: bool)
      modifies this`status, this`log, this`fuel, this`crashed
      ensures View() == Do(old(View()), e) && ok == !crashed
    {
      if crashed || fuel == 0 {
        crashed := true;
        return false;
      }
      status, fuel, log := Change(status, e), fuel - 1, log + [e];
      return true;
    }

    /** The requeue of one datapoint, against the budget and the clock that were read before. */
    method RunRequeue(cfg: Config, now: Time, id: string, since: Time, budget: int)
      requires !crashed ==> id in status.since && status.since[id] == since && budget == Budget(status, id)
      modifies this
      ensures View() == RequeueOne(old(View()), cfg, now, id)
    {
      if crashed || now - since <= cfg.maxRuntime { return; }
      var ok;
      if budget >= cfg.maxRequeues {
        if id !in cache.exhaustedSeen {
          cache := cache.(exhaustedSeen := cache.exhaustedSeen + {id});
          ok := Perform(Exhausted(id));
        }
        return;
      }
      ok := Perform(if cfg.dryRun then Suppressed(id, now) else RequeueCall(id, now));
      if !ok { return; }
      ok := Perform(PutRequeue(id, RequeueRecord(budget + 1, now)));
      if ok { ok := Perform(SetSince(id, now)); }
    }

    /** The four registrations of a hygiene pass. */
    method Register(datapoints: set<string>, analyses: set<string>)
      modifies this`cache
      ensures cache == old(cache).(registry := Registered(old(cache).registry, datapoints, analyses))
    {
      var registry := StatusStore.Protect(cache.registry, StatusStore.REQUEUES, datapoints);
      registry := StatusStore.Protect(registry, StatusStore.STARTED_SINCE, datapoints);
      registry := StatusStore.Protect(registry, StatusStore.SOFT_STOPS, analyses);
      registry := StatusStore.Protect(registry, StatusStore.ARCHIVED_ANALYSES, analyses);
      cache := cache.(registry := registry);
    }

    method RunAnchorHygiene(datapoints: set<string>, analyses: set<string>)
      modifies this
      ensures View() == Hygiene(old(View()), datapoints, analyses)
    {
      if crashed { return; }
      var trackedDatapoints, trackedAnalyses := status.requeues.Keys, TrackedAnalyses(status);
      if trackedDatapoints == {} && trackedAnalyses == {} {
        assert status.requeues == map[];
        cache := cache.(absentDatapoints := map[], absentAnalyses := map[]);
        return;
      }
      assert !(status.requeues == map[] && TrackedAnalyses(status) == {});
      var ok := Perform(Checked(datapoints, analyses));
      if !ok { return; }
      var absent := BumpAbsences(cache.absentDatapoints, trackedDatapoints, datapoints);
      cache := cache.(absentDatapoints := absent);
      absent := BumpAbsences(cache.absentAnalyses, trackedAnalyses, analyses);
      cache := cache.(absentAnalyses := absent);
      Register(datapoints, analyses);
      if Confirmed(cache.absentDatapoints) == {} && Confirmed(cache.absentAnalyses) == {} { return; }
      ok := Perform(PruneEffect(cache, datapoints, analyses));
      if ok { cache := Retire(cache); }
    }

    /** Departure prune: returns the local copy of the clocks that are left. Once an effect has
        raised, the remaining calls of a tick do nothing. */
    method DropDeparted(departed: seq<string>) returns (startedSince: map<string, Time>)
      modifies this`status, this`log, this`fuel, this`crashed
      ensures View() == ClearAll(old(View()), departed)
      ensures !crashed ==> startedSince == status.since
    {
      startedSince := status.since;
      for i := 0 to |departed|
        invariant View() == ClearAll(old(View()), departed[..i])
        invariant !crashed ==> startedSince == status.since
      {
        assert departed[..i + 1][..i] == departed[..i];
        var ok := Perform(ClearSince(departed[i]));
        startedSince := startedSince - {departed[i]};
      }
      assert departed[..|departed|] == departed;
    }

    /** First observation: a fresh clock for every started datapoint without one. */
    method ObserveStarted(now: Time, started: seq<string>,
                          before: map<string, Time>) returns (startedSince: map<string, Time>)
      requires !crashed ==> before == status.since
      modifies this`status, this`log, this`fuel, this`crashed
      ensures View() == ObserveAll(old(View()), now, started)
      ensures !crashed ==> startedSince == status.since
      ensures forall i :: 0 <= i < |started| ==> started[i] in startedSince
    {
      startedSince := before;
      for i := 0 to |started|
        invariant View() == ObserveAll(old(View()), now, started[..i])
        invariant !crashed ==> startedSince == status.since
        invariant forall j :: 0 <= j < i ==> started[j] in startedSince
      {
        assert started[..i + 1][..i] == started[..i];
        if started[i] !in startedSince {
          var ok := Perform(SetSince(started[i], now));
          startedSince := startedSince[started[i] := now];
        }
      }
      assert started[..|started|] == started;
    }

    method RequeueOverdue(cfg: Config, now: Time, started: seq<string>, startedSince: map<string, Time>)
      requires Distinct(started) && (!crashed ==> startedSince == status.since)
      requires forall i :: 0 <= i < |started| ==> started[i] in startedSince
      modifies this
      ensures View() == RequeueAll(old(View()), cfg, now, started)
    {
      var requeues := status.requeues;
      for i := 0 to |started|
        invariant View() == RequeueAll(old(View()), cfg, now, started[..i])
        invariant !crashed ==> Unhandled(status, started, i, startedSince, requeues)
      {
        var id := started[i];
        assert started[..i + 1][..i] == started[..i];
        UnhandledStays(View(), cfg, now, started, i, startedSince, requeues);
        RunRequeue(cfg, now, id, startedSince[id], if id in requeues then requeues[id].count else 0);
      }
      assert started[..|started|] == started;
    }

    /** Departures, first observations and requeues, by local copies of clocks and budgets that are
        read from the store before the loops. */
    method RunActions(cfg: Config, now: Time, v: Views)
      requires ValidViews(status, v)
      modifies this
      ensures View() == Acted(old(View()), cfg, now, v)
    {
      var startedSince := DropDeparted(v.departed);
      startedSince := ObserveStarted(now, v.started, startedSince);
      RequeueOverdue(cfg, now, v.started, startedSince);
    }

    /** The poll is counted; every tenth one of the process runs a hygiene pass. */
    method RunFinish(v: Views)
      modifies this
      ensures View() == Finish(old(View()), v)
    {
      if crashed { return; }
      cache := cache.(ticks := cache.ticks + 1);
      if cache.ticks % PRUNE_EVERY_N_TICKS == 0 {
        RunAnchorHygiene(Elements(v.started) + v.heavyDatapoints, v.heavyAnalyses);
      }
    }

    /** One watchdog poll: it changes the world as `Tick` says. */
    method RunWatchdogTick(cfg: Config, now: Time, v: Views)
      requires ValidViews(status, v)
      modifies this
      ensures View() == Tick(old(View()), cfg, now, v)
    {
      RunActions(cfg, now, v);
      RunFinish(v);
    }
  }

  /** The local copies agree with the store on one datapoint. */
  predicate CopyHolds(s: Status, id: string, startedSince: map<string, Time>, requeues: map<string, RequeueRecord>) {
    && id in startedSince && id in s.since && startedSince[id] == s.since[id]
    && (id in requeues <==> id in s.requeues) && (id in requeues ==> requeues[id] == s.requeues[id])
  }

  /** They agree on the datapoints not yet handled. */
  predicate Unhandled(s: Status, started: seq<string>, i: nat, startedSince: map<string, Time>,
                      requeues: map<string, RequeueRecord>) {
    forall j :: i <= j < |started| ==> CopyHolds(s, started[j], startedSince, requeues)
  }

  lemma RequeueElsewhere(w: World, cfg: Config, now: Time, id: string, other: string,
                         startedSince: map<string, Time>, requeues: map<string, RequeueRecord>)
    requires other != id && CopyHolds(w.status, other, startedSince, requeues)
    ensures CopyHolds(RequeueOne(w, cfg, now, id).status, other, startedSince, requeues)
  {}

  lemma UnhandledStays(w: World, cfg: Config, now: Time, started: seq<string>, i: nat,
                       startedSince: map<string, Time>, requeues: map<string, RequeueRecord>)
    requires Distinct(started) && i < |started| &&
             (!w.crashed ==> Unhandled(w.status, started, i, startedSince, requeues))
    ensures var after := RequeueOne(w, cfg, now, started[i]);
            !after.crashed ==> Unhandled(after.status, started, i + 1, startedSince, requeues)
  {
    if !w.crashed {
      forall j | i < j < |started|
        ensures CopyHolds(RequeueOne(w, cfg, now, started[i]).status, started[j], startedSince, requeues)
      {
        RequeueElsewhere(w, cfg, now, started[i], started[j], startedSince, requeues);
      }
    } else {
      RequeueCrashed(w, cfg, now, started[i]);
    }
  }

  lemma RequeueCrashed(w: World, cfg: Config, now: Time, id: string)
    requires w.crashed
    ensures RequeueOne(w, cfg, now, id) == w
  {}
}
