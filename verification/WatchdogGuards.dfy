/** What one poll of the watchdog does to each datapoint, by its inputs: dry-run, the clock and the count
    at the start of the poll, and the limits. */
module WatchdogGuards {
  import opened Basics
  import opened Ordering
  import opened Records
  import opened Watchdog
  import opened WatchdogRuns
  import opened WatchdogAnchors

  // ---------------------------------------------------------------- dry-run

  /** Requeues are sent by live polls and withheld by dry-run ones, and each is recorded right after it. */
  predicate Suits(log: seq<Effect>, i: int, dryRun: bool)
    requires 0 <= i < |log|
  {
    match log[i]
    case RequeueCall(_, _) => !dryRun
    case Suppressed(_, _) => dryRun
    case PutRequeue(id, _) => i > 0 && IsCall(log[i - 1], id)
    case _ => true
  }

  predicate Grows(w: World, after: World) { |w.log| <= |after.log| && after.log[..|w.log|] == w.log }

  /** Everything logged since `w` suits the config. */
  predicate AllSuit(w: World, after: World, dryRun: bool) {
    Grows(w, after) && forall i :: |w.log| <= i < |after.log| ==> Suits(after.log, i, dryRun)
  }

  lemma DoSuits(w0: World, w: World, e: Effect, dryRun: bool)
    requires AllSuit(w0, w, dryRun) && (!w.crashed ==> Suits(w.log + [e], |w.log|, dryRun))
    ensures AllSuit(w0, Do(w, e), dryRun)
  {
    var more := w.log + [e];
    forall i | |w0.log| <= i < |w.log| ensures Suits(more, i, dryRun) { assert Suits(w.log, i, dryRun); }
  }

  lemma {:induction false} ClearAllSuits(w0: World, w: World, departed: seq<string>, dryRun: bool)
    requires AllSuit(w0, w, dryRun)
    ensures AllSuit(w0, ClearAll(w, departed), dryRun)
  {
    if departed != [] {
      var front := departed[..|departed| - 1];
      ClearAllSuits(w0, w, front, dryRun);
      DoSuits(w0, ClearAll(w, front), ClearSince(departed[|departed| - 1]), dryRun);
    }
  }

  lemma {:induction false} ObserveAllSuits(w0: World, w: World, now: Time, started: seq<string>, dryRun: bool)
    requires AllSuit(w0, w, dryRun)
    ensures AllSuit(w0, ObserveAll(w, now, started), dryRun)
  {
    if started != [] {
      var front := started[..|started| - 1];
      ObserveAllSuits(w0, w, now, front, dryRun);
      DoSuits(w0, ObserveAll(w, now, front), SetSince(started[|started| - 1], now), dryRun);
    }
  }

  lemma SendSuits(w0: World, w: World, call: Effect, now: Time, id: string, dryRun: bool)
    requires AllSuit(w0, w, dryRun) && call == if dryRun then Suppressed(id, now) else RequeueCall(id, now)
    ensures AllSuit(w0, Send(w, call, now, id), dryRun)
  {
    var put := PutRequeue(id, RequeueRecord(Budget(w.status, id) + 1, now));
    DoSuits(w0, w, call, dryRun);
    DoSuits(w0, Do(w, call), put, dryRun);
    DoSuits(w0, Do(Do(w, call), put), SetSince(id, now), dryRun);
  }

  lemma RequeueOneSuits(w0: World, w: World, cfg: Config, now: Time, id: string)
    requires AllSuit(w0, w, cfg.dryRun)
    ensures AllSuit(w0, RequeueOne(w, cfg, now, id), cfg.dryRun)
  {
    if Overdue(w.status, cfg, now, id) {
      if Budget(w.status, id) >= cfg.maxRequeues {
        DoSuits(w0, Noted(w, id), Exhausted(id), cfg.dryRun);
      } else {
        SendSuits(w0, w, if cfg.dryRun then Suppressed(id, now) else RequeueCall(id, now), now, id, cfg.dryRun);
      }
    }
  }

  lemma {:induction false} RequeueAllSuits(w0: World, w: World, cfg: Config, now: Time, started: seq<string>)
    requires AllSuit(w0, w, cfg.dryRun)
    ensures AllSuit(w0, RequeueAll(w, cfg, now, started), cfg.dryRun)
  {
    if started != [] {
      var front := started[..|started| - 1];
      RequeueAllSuits(w0, w, cfg, now, front);
      RequeueOneSuits(w0, RequeueAll(w, cfg, now, front), cfg, now, started[|started| - 1]);
    }
  }

  lemma HygieneSuits(w0: World, w: World, datapoints: set<string>, analyses: set<string>, dryRun: bool)
    requires AllSuit(w0, w, dryRun)
    ensures AllSuit(w0, Hygiene(w, datapoints, analyses), dryRun)
  {
    var checked := Do(w, Checked(datapoints, analyses));
    var counted := checked.(cache := CheckedCache(w, datapoints, analyses));
    DoSuits(w0, w, Checked(datapoints, analyses), dryRun);
    DoSuits(w0, counted, PruneEffect(counted.cache, datapoints, analyses), dryRun);
  }

  function Begin(w: World, s: Step): World
    requires s.Poll?
  {
    w.(fuel := s.fuel, crashed := false)
  }

  /** Wherever a poll fails: under dry-run it sends no requeue, live it withholds none, and a requeue is
      recorded only right after it. */
  lemma DryRunSendsNothing(w: World, s: Step)
    requires s.Poll?
    ensures AllSuit(w, PollFrom(w, s), s.cfg.dryRun)
  {
    var start, v := Begin(w, s), s.views;
    ClearAllSuits(start, start, v.departed, s.cfg.dryRun);
    ObserveAllSuits(start, ClearAll(start, v.departed), s.now, v.started, s.cfg.dryRun);
    RequeueAllSuits(start, ObserveAll(ClearAll(start, v.departed), s.now, v.started), s.cfg, s.now, v.started);
    HygieneSuits(start, Counted(Acted(start, s.cfg, s.now, v)), Elements(v.started) + v.heavyDatapoints,
                 v.heavyAnalyses, s.cfg.dryRun);
  }

  lemma SuitsEarlier(w: World, after: World, k: nat, dryRun: bool)
    requires Grows(w, after) && k < |w.log| && Suits(w.log, k, dryRun)
    ensures Suits(after.log, k, dryRun)
  {
    assert after.log[..|w.log|][k] == after.log[k];
    if k > 0 { assert after.log[..|w.log|][k - 1] == after.log[k - 1]; }
  }

  /** Over whole runs: with every poll under dry-run the log holds no requeue that was sent, and with
      every poll live none that was withheld. */
  lemma {:induction false} DryRunSendsNothingEver(worlds: seq<World>, steps: seq<Step>, dryRun: bool, i: nat)
    requires IsRun(worlds, steps) && i <= |steps|
    requires forall k :: 0 <= k < |steps| && steps[k].Poll? ==> steps[k].cfg.dryRun == dryRun
    ensures forall k :: 0 <= k < |worlds[i].log| ==> Suits(worlds[i].log, k, dryRun)
  {
    if i > 0 {
      DryRunSendsNothingEver(worlds, steps, dryRun, i - 1);
      NextAt(worlds, steps, i - 1);
      var w, after := worlds[i - 1], worlds[i];
      if steps[i - 1].Poll? {
        DryRunSendsNothing(w, steps[i - 1]);
        forall k | 0 <= k < |after.log| ensures Suits(after.log, k, dryRun) {
          if k < |w.log| { SuitsEarlier(w, after, k, dryRun); }
        }
      }
    }
  }

  // ---------------------------------------------------------------- following one datapoint

  /** The effect says or changes something about the datapoint. */
  predicate Concerns(e: Effect, id: string) {
    match e
    case ClearSince(x) => x == id
    case SetSince(x, _) => x == id
    case RequeueCall(x, _) => x == id
    case Suppressed(x, _) => x == id
    case PutRequeue(x, _) => x == id
    case Exhausted(x) => x == id
    case Checked(_, _) => false
    case Prune(live, _) => id !in live
  }

  function ClockOf(w: World, id: string): Option<Time> {
    if id in w.status.since then Some(w.status.since[id]) else None
  }

  function RecordOf(w: World, id: string): Option<RequeueRecord> {
    if id in w.status.requeues then Some(w.status.requeues[id]) else None
  }

  /** The effect was logged since `w`. */
  predicate Logged(w: World, after: World, e: Effect) {
    exists i :: |w.log| <= i < |after.log| && after.log[i] == e
  }

  /** Nothing about the datapoint was done or logged. */
  ghost predicate Apart(w: World, after: World, id: string) {
    && Grows(w, after) && (forall e :: Concerns(e, id) ==> !Logged(w, after, e))
    && ClockOf(after, id) == ClockOf(w, id) && RecordOf(after, id) == RecordOf(w, id)
    && (id in after.cache.exhaustedSeen <==> id in w.cache.exhaustedSeen)
    && (w.crashed ==> after.crashed)
  }

  lemma LoggedThen(a: World, b: World, c: World, e: Effect)
    requires Grows(a, b) && Grows(b, c)
    ensures Grows(a, c) && (Logged(a, c, e) <==> Logged(a, b, e) || Logged(b, c, e))
  {
    assert c.log[..|b.log|][..|a.log|] == c.log[..|a.log|];
    assert forall i :: 0 <= i < |b.log| ==> c.log[..|b.log|][i] == c.log[i];
    if Logged(a, b, e) {
      var i :| |a.log| <= i < |b.log| && b.log[i] == e;
      assert c.log[i] == e;
    }
    if Logged(a, c, e) && !Logged(b, c, e) {
      var i :| |a.log| <= i < |c.log| && c.log[i] == e;
      assert b.log[i] == e;
    }
  }

  lemma ApartThen(a: World, b: World, c: World, id: string)
    requires Apart(a, b, id) && Apart(b, c, id)
    ensures Apart(a, c, id)
  {
    forall e | Concerns(e, id) ensures !Logged(a, c, e) { LoggedThen(a, b, c, e); }
    LoggedThen(a, b, c, Exhausted(id));
  }

  lemma DoApart(w: World, e: Effect, id: string)
    requires !Concerns(e, id)
    ensures Apart(w, Do(w, e), id)
  {}

  lemma {:induction false} ClearAllApart(w: World, departed: seq<string>, id: string)
    requires id !in departed
    ensures Apart(w, ClearAll(w, departed), id)
  {
    if departed != [] {
      var front := departed[..|departed| - 1];
      ClearAllApart(w, front, id);
      DoApart(ClearAll(w, front), ClearSince(departed[|departed| - 1]), id);
      ApartThen(w, ClearAll(w, front), ClearAll(w, departed), id);
    }
  }

  lemma {:induction false} ObserveAllApart(w: World, now: Time, started: seq<string>, id: string)
    requires id !in started || id in w.status.since
    ensures Apart(w, ObserveAll(w, now, started), id)
  {
    if started != [] {
      var front, last := started[..|started| - 1], started[|started| - 1];
      var mid := ObserveAll(w, now, front);
      ObserveAllApart(w, now, front, id);
      if last != id { DoApart(mid, SetSince(last, now), id); }
      ApartThen(w, mid, Observe(mid, now, last), id);
    }
  }

  lemma SendApart(w: World, call: Effect, now: Time, other: string, id: string)
    requires other != id && !Concerns(call, id)
    ensures Apart(w, Send(w, call, now, other), id)
  {
    var put := PutRequeue(other, RequeueRecord(Budget(w.status, other) + 1, now));
    DoApart(w, call, id);
    DoApart(Do(w, call), put, id);
    ApartThen(w, Do(w, call), Do(Do(w, call), put), id);
    DoApart(Do(Do(w, call), put), SetSince(other, now), id);
    ApartThen(w, Do(Do(w, call), put), Send(w, call, now, other), id);
  }

  lemma WarnApart(w: World, other: string, id: string)
    requires other != id
    ensures Apart(w, Warn(w, other), id)
  {
    assert Apart(w, Noted(w, other), id);
    DoApart(Noted(w, other), Exhausted(other), id);
    ApartThen(w, Noted(w, other), Do(Noted(w, other), Exhausted(other)), id);
  }

  lemma RequeueOtherApart(w: World, cfg: Config, now: Time, other: string, id: string)
    requires other != id
    ensures Apart(w, RequeueOne(w, cfg, now, other), id)
  {
    WarnApart(w, other, id);
    SendApart(w, if cfg.dryRun then Suppressed(other, now) else RequeueCall(other, now), now, other, id);
  }

  lemma {:induction false} RequeueAllApart(w: World, cfg: Config, now: Time, started: seq<string>, id: string)
    requires id !in started
    ensures Apart(w, RequeueAll(w, cfg, now, started), id)
  {
    if started != [] {
      var front, last := started[..|started| - 1], started[|started| - 1];
      var mid := RequeueAll(w, cfg, now, front);
      RequeueAllApart(w, cfg, now, front, id);
      RequeueOtherApart(mid, cfg, now, last, id);
      ApartThen(w, mid, RequeueOne(mid, cfg, now, last), id);
    }
  }

  /** A started datapoint has one turn, and what comes before and after it is apart from it. */
  lemma {:induction false} RequeueAllAt(w: World, cfg: Config, now: Time, started: seq<string>, id: string)
    returns (at: World)
    requires id in started && Distinct(started)
    ensures Apart(w, at, id) && Apart(RequeueOne(at, cfg, now, id), RequeueAll(w, cfg, now, started), id)
  {
    var front, last := started[..|started| - 1], started[|started| - 1];
    at := RequeueAll(w, cfg, now, front);
    if last == id {
      RequeueAllApart(w, cfg, now, front, id);
    } else {
      var mid := at;
      at := RequeueAllAt(w, cfg, now, front, id);
      RequeueOtherApart(mid, cfg, now, last, id);
      ApartThen(RequeueOne(at, cfg, now, id), mid, RequeueOne(mid, cfg, now, last), id);
    }
  }

  lemma SweepApart(w: World, datapoints: set<string>, analyses: set<string>, id: string)
    requires id in datapoints
    ensures Apart(w, Sweep(w, datapoints, analyses), id)
  {
    var prune := PruneEffect(w.cache, datapoints, analyses);
    DoApart(w, prune, id);
    var pruned := Do(w, prune);
    assert Apart(pruned, pruned.(cache := Retire(w.cache)), id);
    ApartThen(w, pruned, pruned.(cache := Retire(w.cache)), id);
  }

  lemma HygieneApart(w: World, datapoints: set<string>, analyses: set<string>, id: string)
    requires id in datapoints
    ensures Apart(w, Hygiene(w, datapoints, analyses), id)
  {
    var checked := Do(w, Checked(datapoints, analyses));
    var counted := checked.(cache := CheckedCache(w, datapoints, analyses));
    DoApart(w, Checked(datapoints, analyses), id);
    if !w.crashed && !checked.crashed {
      assert Apart(checked, counted, id);
      ApartThen(w, checked, counted, id);
      SweepApart(counted, datapoints, analyses, id);
      ApartThen(w, counted, Sweep(counted, datapoints, analyses), id);
    }
  }

  lemma FinishApart(w: World, v: Views, id: string)
    requires id in v.started
    ensures Apart(w, Finish(w, v), id)
  {
    assert id in Elements(v.started);
    assert Apart(w, Counted(w), id);
    HygieneApart(Counted(w), Elements(v.started) + v.heavyDatapoints, v.heavyAnalyses, id);
    ApartThen(w, Counted(w), Clean(Counted(w), v), id);
  }

  // ---------------------------------------------------------------- the outcome of a poll

  /** A requeue of the datapoint, sent or withheld, or the notice that its budget is spent. */
  predicate Speaks(e: Effect, id: string) { (e.RequeueCall? || e.Suppressed? || e.Exhausted?) && e.id == id }

  /** What became of the datapoint: its clock, its record, whether it counts as noticed in this process,
      and what was said about it, which is all that was. */
  ghost predicate Outcome(w: World, after: World, id: string, clock: Option<Time>, record: Option<RequeueRecord>,
                          noticed: bool, said: set<Effect>) {
    && Grows(w, after) && ClockOf(after, id) == clock && RecordOf(after, id) == record
    && (id in after.cache.exhaustedSeen <==> noticed)
    && forall e :: Speaks(e, id) ==> (Logged(w, after, e) <==> e in said)
  }

  /** The outcome with nothing said and nothing changed but the clock. */
  ghost predicate OnlyClock(w: World, after: World, id: string, clock: Option<Time>) {
    Outcome(w, after, id, clock, RecordOf(w, id), id in w.cache.exhaustedSeen, {})
  }

  lemma ApartOutcome(w: World, after: World, id: string)
    requires Apart(w, after, id)
    ensures OnlyClock(w, after, id, ClockOf(w, id))
  {
    forall e | Speaks(e, id) ensures !Logged(w, after, e) { assert Concerns(e, id); }
  }

  lemma OutcomeThen(a: World, b: World, c: World, id: string, clock: Option<Time>, record: Option<RequeueRecord>,
                    noticed: bool, said: set<Effect>, more: set<Effect>)
    requires Grows(a, b) && forall e :: Speaks(e, id) ==> (Logged(a, b, e) <==> e in said)
    requires Outcome(b, c, id, clock, record, noticed, more)
    ensures Outcome(a, c, id, clock, record, noticed, said + more)
  {
    forall e | Speaks(e, id) ensures Logged(a, c, e) <==> e in said + more { LoggedThen(a, b, c, e); }
    LoggedThen(a, b, c, Exhausted(id));
  }

  lemma DoOutcome(w: World, e: Effect, id: string)
    requires !Do(w, e).crashed
    ensures Outcome(w, Do(w, e), id, ClockOf(Do(w, e), id), RecordOf(Do(w, e), id), id in w.cache.exhaustedSeen,
                    if Speaks(e, id) then {e} else {})
  {
    assert Do(w, e).log[|w.log|] == e;
  }

  lemma DoClock(w: World, e: Effect, id: string)
    requires !Do(w, e).crashed && (e.ClearSince? || e.SetSince?)
    ensures OnlyClock(w, Do(w, e), id,
                      if e.id != id then ClockOf(w, id) else if e.SetSince? then Some(e.at) else None)
  {
    DoOutcome(w, e, id);
  }

  lemma ClockThen(a: World, b: World, c: World, id: string, before: Option<Time>, clock: Option<Time>)
    requires OnlyClock(a, b, id, before) && OnlyClock(b, c, id, clock)
    ensures OnlyClock(a, c, id, clock)
  {
    OutcomeThen(a, b, c, id, clock, RecordOf(b, id), id in b.cache.exhaustedSeen, {}, {});
  }

  lemma {:induction false} ClearAllOutcome(w: World, departed: seq<string>, id: string)
    requires !ClearAll(w, departed).crashed
    ensures OnlyClock(w, ClearAll(w, departed), id, if id in departed then None else ClockOf(w, id))
  {
    if departed != [] {
      var front, last := departed[..|departed| - 1], departed[|departed| - 1];
      assert departed == front + [last];
      var mid := ClearAll(w, front);
      ClearAllOutcome(w, front, id);
      DoClock(mid, ClearSince(last), id);
      ClockThen(w, mid, ClearAll(w, departed), id, ClockOf(mid, id), ClockOf(ClearAll(w, departed), id));
    }
  }

  /** The clock of a started datapoint: its own, or now at first sight. */
  function ClockAt(w: World, now: Time, id: string): Time {
    if id in w.status.since then w.status.since[id] else now
  }

  lemma {:induction false} ObserveAllOutcome(w: World, now: Time, started: seq<string>, id: string)
    requires !ObserveAll(w, now, started).crashed && Distinct(started) && id in started
    ensures OnlyClock(w, ObserveAll(w, now, started), id, Some(ClockAt(w, now, id)))
  {
    var front, last := started[..|started| - 1], started[|started| - 1];
    var mid := ObserveAll(w, now, front);
    if id in w.status.since {
      ObserveAllApart(w, now, started, id);
      ApartOutcome(w, ObserveAll(w, now, started), id);
    } else if last == id {
      ObserveAllApart(w, now, front, id);
      ApartOutcome(w, mid, id);
      DoClock(mid, SetSince(id, now), id);
      ClockThen(w, mid, ObserveAll(w, now, started), id, None, Some(now));
    } else {
      ObserveAllOutcome(w, now, front, id);
      ObserveAllApart(mid, now, [last], id);
      assert [last][..0] == [];
      ApartOutcome(mid, Observe(mid, now, last), id);
      ClockThen(w, mid, Observe(mid, now, last), id, Some(now), Some(now));
    }
  }

  lemma SendOutcome(w: World, call: Effect, now: Time, id: string)
    requires !Send(w, call, now, id).crashed && (call.RequeueCall? || call.Suppressed?) && call.id == id
    ensures Outcome(w, Send(w, call, now, id), id, Some(now), Some(RequeueRecord(Budget(w.status, id) + 1, now)),
                    id in w.cache.exhaustedSeen, {call})
  {
    var r := RequeueRecord(Budget(w.status, id) + 1, now);
    var w1, w2 := Do(w, call), Do(Do(w, call), PutRequeue(id, r));
    var seen := id in w.cache.exhaustedSeen;
    DoOutcome(w, call, id);
    DoOutcome(w1, PutRequeue(id, r), id);
    OutcomeThen(w, w1, w2, id, ClockOf(w2, id), Some(r), seen, {call}, {});
    DoClock(w2, SetSince(id, now), id);
    OutcomeThen(w, w2, Do(w2, SetSince(id, now)), id, Some(now), Some(r), seen, {call}, {});
  }

  lemma WarnOutcome(w: World, id: string)
    requires !Warn(w, id).crashed
    ensures Outcome(w, Warn(w, id), id, ClockOf(w, id), RecordOf(w, id), true,
                    if id in w.cache.exhaustedSeen then {} else {Exhausted(id)})
  {
    if id !in w.cache.exhaustedSeen { DoOutcome(Noted(w, id), Exhausted(id), id); }
  }

  /** More than the limit since its clock. */
  predicate Late(w: World, cfg: Config, now: Time, id: string) { now - ClockAt(w, now, id) > cfg.maxRuntime }

  function CountOf(w: World, id: string): int {
    match RecordOf(w, id)
    case None => 0
    case Some(r) => r.count
  }

  /** The requeue that the config calls for. */
  function CallFor(cfg: Config, now: Time, id: string): Effect {
    if cfg.dryRun then Suppressed(id, now) else RequeueCall(id, now)
  }

  /** What a poll does to a started datapoint. */
  ghost predicate Handled(w: World, after: World, cfg: Config, now: Time, id: string) {
    var late, count, noticed := Late(w, cfg, now, id), CountOf(w, id), id in w.cache.exhaustedSeen;
    if late && count < cfg.maxRequeues then
      Outcome(w, after, id, Some(now), Some(RequeueRecord(count + 1, now)), noticed, {CallFor(cfg, now, id)})
    else
      Outcome(w, after, id, Some(ClockAt(w, now, id)), RecordOf(w, id), noticed || late,
              if late && !noticed then {Exhausted(id)} else {})
  }

  lemma RequeueOutcome(w: World, cfg: Config, now: Time, id: string)
    requires id in w.status.since && !RequeueOne(w, cfg, now, id).crashed
    ensures Handled(w, RequeueOne(w, cfg, now, id), cfg, now, id)
  {
    if Late(w, cfg, now, id) {
      if CountOf(w, id) < cfg.maxRequeues {
        SendOutcome(w, CallFor(cfg, now, id), now, id);
      } else {
        WarnOutcome(w, id);
      }
    }
  }

  /** Before: nothing but a first clock. After: nothing. */
  lemma HandledInside(a: World, b: World, c: World, d: World, cfg: Config, now: Time, id: string)
    requires OnlyClock(a, b, id, Some(ClockAt(a, now, id))) && Handled(b, c, cfg, now, id) && Apart(c, d, id)
    ensures Handled(a, d, cfg, now, id)
  {
    ApartOutcome(c, d, id);
    var late, count, noticed := Late(a, cfg, now, id), CountOf(a, id), id in a.cache.exhaustedSeen;
    if late && count < cfg.maxRequeues {
      var said := {CallFor(cfg, now, id)};
      OutcomeThen(a, b, c, id, Some(now), Some(RequeueRecord(count + 1, now)), noticed, {}, said);
      OutcomeThen(a, c, d, id, Some(now), Some(RequeueRecord(count + 1, now)), noticed, {} + said, {});
    } else {
      var said := if late && !noticed then {Exhausted(id)} else {};
      OutcomeThen(a, b, c, id, ClockOf(c, id), RecordOf(a, id), noticed || late, {}, said);
      OutcomeThen(a, c, d, id, ClockOf(c, id), RecordOf(a, id), noticed || late, {} + said, {});
    }
  }

  lemma CrashLasts(w: World, cfg: Config, now: Time, v: Views)
    ensures ClearAll(w, v.departed).crashed ==> ObserveAll(ClearAll(w, v.departed), now, v.started).crashed
    ensures ObserveAll(ClearAll(w, v.departed), now, v.started).crashed ==> Acted(w, cfg, now, v).crashed
    ensures Acted(w, cfg, now, v).crashed ==> Tick(w, cfg, now, v).crashed
  {
    var inv := (x: World) => x.crashed;
    assert ActKept(inv);
    var cleared := ClearAll(w, v.departed);
    if cleared.crashed { ObserveAllKeeps(cleared, now, v.started, inv); }
    var observed := ObserveAll(cleared, now, v.started);
    if observed.crashed { RequeueAllKeeps(observed, cfg, now, v.started, inv); }
  }

  /** A completed poll, for a started datapoint. More than the runtime limit after its clock, it is
      requeued if its count is below the requeue limit: sent live, withheld under dry-run, with the
      count one up and the clock at now. At the limit it is left alone, with a notice if this process
      has not noticed it before. Otherwise nothing is said, and its clock is what it was, or now at
      first sight. */
  lemma StartedOutcome(w: World, s: Step, id: string)
    requires s.Poll? && ValidViews(w.status, s.views) && id in s.views.started && !PollFrom(w, s).crashed
    ensures Handled(w, PollFrom(w, s), s.cfg, s.now, id)
  {
    var start, v := Begin(w, s), s.views;
    var cleared := ClearAll(start, v.departed);
    var observed := ObserveAll(cleared, s.now, v.started);
    var acted := Acted(start, s.cfg, s.now, v);
    CrashLasts(start, s.cfg, s.now, v);
    assert id in Elements(v.started) && id !in v.departed by {
      assert forall x :: x in v.departed ==> x in Elements(v.departed);
    }
    ClearAllApart(start, v.departed, id);
    ApartOutcome(start, cleared, id);
    ObserveAllOutcome(cleared, s.now, v.started, id);
    ClockThen(start, cleared, observed, id, ClockOf(start, id), Some(ClockAt(start, s.now, id)));
    var at := RequeueAllAt(observed, s.cfg, s.now, v.started, id);
    ApartOutcome(observed, at, id);
    ClockThen(start, observed, at, id, Some(ClockAt(start, s.now, id)), ClockOf(observed, id));
    var done := RequeueOne(at, s.cfg, s.now, id);
    FinishApart(acted, v, id);
    ApartThen(done, acted, PollFrom(w, s), id);
    RequeueOutcome(at, s.cfg, s.now, id);
    HandledInside(start, at, done, PollFrom(w, s), s.cfg, s.now, id);
  }

  /** The guards of the three effects, as they are read off the log. */
  lemma RequeueGuard(w: World, s: Step, id: string, at: Time)
    requires s.Poll? && ValidViews(w.status, s.views) && !PollFrom(w, s).crashed
    ensures var due := id in s.views.started && Late(w, s.cfg, s.now, id) && CountOf(w, id) < s.cfg.maxRequeues;
            && (Logged(w, PollFrom(w, s), RequeueCall(id, at)) <==> due && !s.cfg.dryRun && at == s.now)
            && (Logged(w, PollFrom(w, s), Suppressed(id, at)) <==> due && s.cfg.dryRun && at == s.now)
            && (due ==> ClockOf(PollFrom(w, s), id) == Some(s.now))
            && (due ==> RecordOf(PollFrom(w, s), id) == Some(RequeueRecord(CountOf(w, id) + 1, s.now)))
    ensures Logged(w, PollFrom(w, s), Exhausted(id)) <==>
              && id in s.views.started && Late(w, s.cfg, s.now, id) && CountOf(w, id) >= s.cfg.maxRequeues
              && id !in w.cache.exhaustedSeen
  {
    assert Speaks(RequeueCall(id, at), id) && Speaks(Suppressed(id, at), id) && Speaks(Exhausted(id), id);
    if id in s.views.started { StartedOutcome(w, s, id); } else { AbsentOutcome(w, s, id); }
  }

  // ---------------------------------------------------------------- a datapoint that is not started

  /** Nothing is said, and no clock appears. */
  ghost predicate Silent(w: World, after: World, id: string) {
    && Grows(w, after) && (ClockOf(w, id) == None ==> ClockOf(after, id) == None)
    && (id in after.cache.exhaustedSeen <==> id in w.cache.exhaustedSeen)
    && forall e :: Speaks(e, id) ==> !Logged(w, after, e)
  }

  lemma SilentThen(a: World, b: World, c: World, id: string)
    requires Silent(a, b, id) && Silent(b, c, id)
    ensures Silent(a, c, id)
  {
    forall e | Speaks(e, id) ensures !Logged(a, c, e) { LoggedThen(a, b, c, e); }
    LoggedThen(a, b, c, Exhausted(id));
  }

  lemma DoSilent(w: World, e: Effect, id: string)
    requires e.Checked? || e.Prune?
    ensures Silent(w, Do(w, e), id)
  {}

  lemma SweepSilent(w: World, datapoints: set<string>, analyses: set<string>, id: string)
    ensures Silent(w, Sweep(w, datapoints, analyses), id)
  {
    DoSilent(w, PruneEffect(w.cache, datapoints, analyses), id);
  }

  lemma HygieneSilent(w: World, datapoints: set<string>, analyses: set<string>, id: string)
    ensures Silent(w, Hygiene(w, datapoints, analyses), id)
  {
    var checked := Do(w, Checked(datapoints, analyses));
    var counted := checked.(cache := CheckedCache(w, datapoints, analyses));
    DoSilent(w, Checked(datapoints, analyses), id);
    if !w.crashed && !checked.crashed {
      assert Silent(checked, counted, id);
      SilentThen(w, checked, counted, id);
      SweepSilent(counted, datapoints, analyses, id);
      SilentThen(w, counted, Sweep(counted, datapoints, analyses), id);
    }
  }

  /** A completed poll, for a datapoint that is not started: it is not requeued, nothing is said about
      it, and it has no clock afterwards. */
  lemma AbsentOutcome(w: World, s: Step, id: string)
    requires s.Poll? && ValidViews(w.status, s.views) && id !in s.views.started && !PollFrom(w, s).crashed
    ensures Silent(w, PollFrom(w, s), id) && ClockOf(PollFrom(w, s), id) == None
  {
    var start, v := Begin(w, s), s.views;
    var cleared := ClearAll(start, v.departed);
    var observed := ObserveAll(cleared, s.now, v.started);
    var acted := Acted(start, s.cfg, s.now, v);
    CrashLasts(start, s.cfg, s.now, v);
    assert id in Elements(v.departed) <==> id in v.departed;
    assert id in w.status.since ==> id in v.departed;
    ClearAllOutcome(start, v.departed, id);
    assert Silent(start, cleared, id) && ClockOf(cleared, id) == None;
    ObserveAllApart(cleared, s.now, v.started, id);
    RequeueAllApart(observed, s.cfg, s.now, v.started, id);
    ApartThen(cleared, observed, acted, id);
    ApartOutcome(cleared, acted, id);
    SilentThen(start, cleared, acted, id);
    assert Silent(acted, Counted(acted), id);
    HygieneSilent(Counted(acted), Elements(v.started) + v.heavyDatapoints, v.heavyAnalyses, id);
    SilentThen(acted, Counted(acted), Clean(Counted(acted), v), id);
    SilentThen(start, acted, PollFrom(w, s), id);
  }
}
