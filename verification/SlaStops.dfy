/** When a stop is sent, and when it is sent again for the same anchor. */
module SlaStops {
  import opened Basics
  import opened Ordering
  import opened Records
  import opened Sla
  import opened SlaRuns
  import opened SlaOrder

  // ---------------------------------------------------------------- one anchor

  /** An issued anchor past its grace, not escalated. */
  predicate Overstays(w: World, cfg: Config, now: Time, id: string) {
    && id in w.softStops && w.softStops[id].outcome == ISSUED && w.softStops[id].escalatedAt.None?
    && now - w.softStops[id].issuedAt > cfg.grace
  }

  lemma OverstayIsSettled(w: World, cfg: Config, now: Time, id: string, fates: seq<Fate>)
    requires Overstays(w, cfg, now, id)
    ensures Handle(w, cfg, now, true, id, w.softStops[id], fates) ==
              if id in w.stopped then StopAgain(w, cfg, now, id, w.stopped[id], fates)
              else StopNow(w, cfg, now, id, fates)
  {
    OutcomesDiffer();
  }

  /** With a stop recorded no stop is sent. */
  lemma StopAgainSame(w: World, cfg: Config, now: Time, id: string, stop: StopRecord, fates: seq<Fate>)
    ensures SameCount(w, StopAgain(w, cfg, now, id, stop, fates), id, Stops)
  {
    var put := PutStop(id, if stop.stoppedAt.Some? then StopRecord(stop.issuedAt, COMPLETED, stop.stoppedAt)
                           else StopRecord(stop.issuedAt, TIMEOUT, Some(now)));
    DoSame(w, put, id, Stops);
    DoSame(Do(w, put), PruneStop(id), id, Stops);
    EscalateSame(Do(w, put), cfg, now, id, fates, Stops);
  }

  /** Without a stop recorded the stop is sent. */
  lemma StopNowSends(w: World, cfg: Config, now: Time, id: string, fates: seq<Fate>)
    ensures var after := StopNow(w, cfg, now, id, fates);
            !after.crashed ==> Count(after.log, id, Stops) == Count(w.log, id, Stops) + 1
  {
    var call := if cfg.dryRun then StopWithheld(id) else StopCall(id);
    var put := PutStop(id, StopRecord(now, if cfg.dryRun then DRY_RUN else ISSUED, None));
    var recorded := Do(Do(w, call), put);
    DoCount(w, call, id, Stops);
    DoSame(Do(w, call), put, id, Stops);
    EscalateSame(recorded, cfg, now, id, fates, Stops);
    if recorded.crashed { EscalateCrashed(recorded, cfg, now, id, fates); }
  }

  lemma EscalateCrashed(w: World, cfg: Config, now: Time, id: string, fates: seq<Fate>)
    requires w.crashed
    ensures Escalate(w, cfg, now, id, fates).crashed
  {}

  /** The turn of an anchor sends a stop only if it overstays, started, with no stop recorded; and then
      it does, unless the tick fails. */
  lemma HandleStops(w: World, cfg: Config, now: Time, started: bool, id: string, fates: seq<Fate>)
    requires id in w.softStops
    ensures var after := Handle(w, cfg, now, started, id, w.softStops[id], fates);
            if started && Overstays(w, cfg, now, id) && id !in w.stopped
            then !after.crashed ==> Count(after.log, id, Stops) == Count(w.log, id, Stops) + 1
            else SameCount(w, after, id, Stops)
  {
    var r := w.softStops[id];
    if started && Overstays(w, cfg, now, id) {
      OverstayIsSettled(w, cfg, now, id, fates);
      if id in w.stopped {
        StopAgainSame(w, cfg, now, id, w.stopped[id], fates);
      } else {
        StopNowSends(w, cfg, now, id, fates);
      }
    } else if r.outcome != ISSUED {
      HandleSame(w, cfg, now, started, id, r, fates, Stops);
    } else {
      OutcomesDiffer();
      DoSame(w, ClearSoftStop(id), id, Stops);
    }
  }

  // ---------------------------------------------------------------- the tick

  /** The anchor is started, issued, past its grace and unescalated, and the monitor is on. */
  predicate StopWanted(w: World, cfg: Config, now: Time, v: Views, id: string) {
    cfg.autoSoftStop && StartedIn(v.listing, id) && Overstays(w, cfg, now, id)
  }

  /** As at the start of the tick: anchor, stop record and count of stops. */
  predicate Untouched(w: World, u: World, id: string) {
    AnchorAt(u, id) == AnchorAt(w, id) && StopAt(u, id) == StopAt(w, id) && SameCount(w, u, id, Stops)
  }

  lemma UntouchedPreserved(w: World, id: string, other: string)
    requires other != id
    ensures Preserved(u => Untouched(w, u, id), other)
  {
    forall u: World, e: Effect | Untouched(w, u, id) && e.id == other ensures Untouched(w, Do(u, e), id) {
      AnchorElsewhere(u, e, id);
      DoSame(u, e, id, Stops);
    }
  }

  /** A stop was sent, unless the tick failed. */
  predicate OneMore(w: World, u: World, id: string) {
    !u.crashed ==> Count(u.log, id, Stops) == Count(w.log, id, Stops) + 1
  }

  lemma OneMorePreserved(w: World, id: string, other: string)
    requires other != id
    ensures Preserved(u => OneMore(w, u, id), other)
  {
    forall u: World, e: Effect | OneMore(w, u, id) && e.id == other
      ensures OneMore(w, Do(u, e), id)
    {
      DoSame(u, e, id, Stops);
    }
  }

  lemma AnchoredUntouched(w: World, now: Time, v: Views, id: string)
    requires id in w.softStops
    ensures Untouched(w, Anchored(w, now, v), id)
  {
    forall x | x !in w.softStops ensures Preserved(u => Untouched(w, u, id), x) { UntouchedPreserved(w, id, x); }
    AnchorAllKeeps(w, now, v.listing, u => Untouched(w, u, id));
  }

  lemma TurnStops(w: World, u: World, cfg: Config, now: Time, started: bool, id: string, fates: seq<Fate>)
    requires id in w.softStops && Untouched(w, u, id)
    ensures var after := Handle(u, cfg, now, started, id, w.softStops[id], fates);
            if started && Overstays(w, cfg, now, id) && id !in w.stopped then OneMore(w, after, id)
            else SameCount(w, after, id, Stops)
  {
    HandleStops(u, cfg, now, started, id, fates);
  }

  lemma TickSends(w: World, cfg: Config, now: Time, v: Views, id: string)
    requires ValidViews(w, now, v) && AllPaired(w) && StopWanted(w, cfg, now, v, id) && id !in w.stopped
    ensures OneMore(w, Tick(w, cfg, now, v), id)
  {
    var a := Anchored(w, now, v);
    AnchoredUntouched(w, now, v, id);
    AnchoredPaired(w, now, v);
    assert id in Elements(v.order) && forall i :: 0 <= i < |v.order| ==> v.order[i] in Elements(v.order);
    var pre, post := (u: World) => Untouched(w, u, id), (u: World) => OneMore(w, u, id);
    forall x | x != id
      ensures Preserved(pre, x) && Preserved(post, x)
    {
      UntouchedPreserved(w, id, x);
      OneMorePreserved(w, id, x);
    }
    forall u | pre(u) ensures post(Handle(u, cfg, now, StartedIn(v.listing, id), id, w.softStops[id], FatesOf(v, id))) {
      TurnStops(w, u, cfg, now, StartedIn(v.listing, id), id, FatesOf(v, id));
    }
    HandleAllAt(a, a.softStops, cfg, now, v, v.order, id, pre, post);
  }

  lemma TickWithholds(w: World, cfg: Config, now: Time, v: Views, id: string)
    requires ValidViews(w, now, v) && AllPaired(w) && id in w.softStops
    requires !StopWanted(w, cfg, now, v, id) || id in w.stopped
    ensures SameCount(w, Tick(w, cfg, now, v), id, Stops)
  {
    if cfg.autoSoftStop {
      var a := Anchored(w, now, v);
      AnchoredUntouched(w, now, v, id);
      AnchoredPaired(w, now, v);
      assert id in Elements(v.order) && forall i :: 0 <= i < |v.order| ==> v.order[i] in Elements(v.order);
      var pre, post := (u: World) => Untouched(w, u, id), (u: World) => SameCount(w, u, id, Stops);
      forall x | x != id ensures Preserved(pre, x) && Preserved(post, x) {
        UntouchedPreserved(w, id, x);
        SameCountPreserved(w, id, Stops, x);
      }
      forall u | pre(u)
        ensures post(Handle(u, cfg, now, StartedIn(v.listing, id), id, w.softStops[id], FatesOf(v, id)))
      {
        TurnStops(w, u, cfg, now, StartedIn(v.listing, id), id, FatesOf(v, id));
      }
      HandleAllAt(a, a.softStops, cfg, now, v, v.order, id, pre, post);
    }
  }

  // ---------------------------------------------------------------- runs

  /** The guard of the stop, over runs with failures anywhere: a step sends a stop for an analysis only
      if it is a poll that found the anchor started, issued, past its grace and unescalated and no stop
      recorded; and a poll that found that and completed did send one. */
  lemma StopGuard(worlds: seq<World>, steps: seq<Step>, i: nat, id: string)
    requires IsRun(worlds, steps) && i < |steps|
    ensures var w, s := worlds[i], steps[i];
            && (Did(worlds, i, id, Stops) ==> s.Poll? && StopWanted(w, s.cfg, s.now, s.views, id) && id !in w.stopped)
            && (s.Poll? && StopWanted(w, s.cfg, s.now, s.views, id) && id !in w.stopped && !worlds[i + 1].crashed ==>
                  Did(worlds, i, id, Stops))
  {
    var w, s := worlds[i], steps[i];
    RunSound(worlds, steps, i);
    NextAt(worlds, steps, i);
    if Did(worlds, i, id, Stops) { StepDoes(w, s, worlds[i + 1], id, Stops); }
    if s.Poll? { PollGuard(Start(w, s.fuel), s.cfg, s.now, s.views, id); }
  }

  lemma PollGuard(w: World, cfg: Config, now: Time, v: Views, id: string)
    requires ValidViews(w, now, v) && AllPaired(w)
    ensures if StopWanted(w, cfg, now, v, id) && id !in w.stopped then OneMore(w, Tick(w, cfg, now, v), id)
            else SameCount(w, Tick(w, cfg, now, v), id, Stops)
  {
    if StopWanted(w, cfg, now, v, id) && id !in w.stopped {
      TickSends(w, cfg, now, v, id);
    } else if id in w.softStops {
      TickWithholds(w, cfg, now, v, id);
    } else {
      OutcomesDiffer();
      if id in Anchored(w, now, v).softStops { AnchorFound(w, now, v, id); }
      TickSame(w, cfg, now, v, id, Stops);
    }
  }

  /** Since the first-sight write of the analysis' anchor a stop was sent, or withheld by dry-run. */
  predicate StopSent(log: seq<Effect>, id: string) {
    log != [] &&
    var e := log[|log| - 1];
    !(e.PutSoftStop? && e.id == id && e.softStop.outcome == WATCHING) &&
    (e == StopCall(id) || e == StopWithheld(id) || StopSent(log[..|log| - 1], id))
  }

  /** A stop record was written and not pruned since. */
  predicate RecordStands(log: seq<Effect>, id: string) {
    log != [] &&
    var e := log[|log| - 1];
    if e.id == id && e.PutStop? then true
    else if e == PruneStop(id) then false
    else RecordStands(log[..|log| - 1], id)
  }

  /** The stop records are those that the log says stand. */
  ghost predicate RecordsStand(w: World) { forall id :: id in w.stopped <==> RecordStands(w.log, id) }

  lemma StandsGrows(log: seq<Effect>, e: Effect, id: string)
    ensures RecordStands(log + [e], id) <==>
              if e.id == id && e.PutStop? then true else if e == PruneStop(id) then false else RecordStands(log, id)
  {
    assert (log + [e])[..|log|] == log;
  }

  lemma DoStands(w: World, e: Effect)
    requires RecordsStand(w)
    ensures RecordsStand(Do(w, e))
  {
    if !w.crashed && w.fuel > 0 {
      forall id ensures id in Change(w, e).stopped <==> RecordStands(w.log + [e], id) { ChangeStands(w, e, id); }
    }
  }

  lemma ChangeStands(w: World, e: Effect, id: string)
    requires id in w.stopped <==> RecordStands(w.log, id)
    ensures id in Change(w, e).stopped <==> RecordStands(w.log + [e], id)
  {
    StandsGrows(w.log, e, id);
  }

  lemma StandsPreserved(id: string)
    ensures Preserved(w => RecordsStand(w), id)
  {
    forall w: World, e: Effect | RecordsStand(w) && e.id == id ensures RecordsStand(Do(w, e)) { DoStands(w, e); }
  }

  lemma {:induction false} RunStands(worlds: seq<World>, steps: seq<Step>, i: nat)
    requires IsRun(worlds, steps) && i <= |steps|
    ensures RecordsStand(worlds[i])
  {
    if i > 0 {
      RunStands(worlds, steps, i - 1);
      RunSound(worlds, steps, i - 1);
      NextAt(worlds, steps, i - 1);
      NextStands(worlds[i - 1], steps[i - 1], worlds[i]);
    }
  }

  lemma NextStands(w: World, s: Step, after: World)
    requires Next(w, s, after) && AllPaired(w) && RecordsStand(w)
    ensures RecordsStand(after)
  {
    if s.Poll? {
      var inv := (u: World) => RecordsStand(u);
      forall x ensures Preserved(inv, x) { StandsPreserved(x); }
      TickKeeps(Start(w, s.fuel), s.cfg, s.now, s.views, inv);
    } else {
      DoStands(Start(w, 1), if s.PruneAnchor? then ClearSoftStop(s.id) else PruneStop(s.id));
    }
  }

  /** When a stop is sent again for the same anchor: a poll that completes repeats the stop exactly when
      one was sent before in the anchor's lifetime, its record was never written or was pruned since,
      and the anchor is still started, issued, past its grace and unescalated. */
  lemma StopIsRepeated(worlds: seq<World>, steps: seq<Step>, i: nat, id: string)
    requires IsRun(worlds, steps) && i < |steps| && steps[i].Poll? && !worlds[i + 1].crashed
    ensures var w, s := worlds[i], steps[i];
            Did(worlds, i, id, Stops) && StopSent(w.log, id) <==>
              StopSent(w.log, id) && !RecordStands(w.log, id) && StopWanted(w, s.cfg, s.now, s.views, id)
  {
    StopGuard(worlds, steps, i, id);
    RunStands(worlds, steps, i);
  }

  // ---------------------------------------------------------------- a run that stops twice

  /** An issued anchor since time 0, with this stop record. */
  predicate Stage(w: World, id: string, stop: Option<StopRecord>) {
    && w.softStops == map[id := SoftStopRecord(0, ISSUED, None, None)]
    && w.stopped == if stop.Some? then map[id := stop.value] else map[]
  }

  const STUCK := [Refused(500)]

  /** A turn whose eviction is refused. */
  function Stuck(w: World, cfg: Config, now: Time, id: string): World
    requires id != "" && cfg.autoSoftStop && id in w.softStops
  {
    Handle(Start(w, 3), cfg, now, true, id, w.softStops[id], STUCK)
  }

  function StuckPoll(cfg: Config, now: Time, id: string): Step { Poll(cfg, now, Lone(id, STUCK), 3) }

  lemma StuckNext(w: World, cfg: Config, now: Time, id: string)
    requires id != "" && cfg.autoSoftStop && w.softStops.Keys == {id}
    ensures Next(w, StuckPoll(cfg, now, id), Stuck(w, cfg, now, id))
  {
    LoneViews(Start(w, 3), now, id, STUCK);
    LoneTick(Start(w, 3), cfg, now, id, STUCK);
  }

  lemma StuckEscalate(w: World, cfg: Config, now: Time, id: string)
    requires !cfg.dryRun
    ensures Escalate(w, cfg, now, id, STUCK) == Fail(Do(w, Evicted(id, 0)))
  {
    assert STUCK[..0] == [];
  }

  predicate Live(cfg: Config, now: Time, id: string) {
    id != "" && cfg.autoSoftStop && !cfg.dryRun && 0 <= cfg.grace < now
  }

  lemma StuckStopNow(w: World, cfg: Config, now: Time, id: string)
    requires !cfg.dryRun && !w.crashed && w.fuel == 3
    ensures var after, stop := StopNow(w, cfg, now, id, STUCK), StopRecord(now, ISSUED, None);
            && after.softStops == w.softStops && after.stopped == w.stopped[id := stop]
            && after.log == w.log + [StopCall(id)] + [PutStop(id, stop)] + [Evicted(id, 0)]
  {
    StuckEscalate(Do(Do(w, StopCall(id)), PutStop(id, StopRecord(now, ISSUED, None))), cfg, now, id);
  }

  lemma StuckLog(log: seq<Effect>, id: string, stop: StopRecord)
    ensures Count(log + [StopCall(id)] + [PutStop(id, stop)] + [Evicted(id, 0)], id, Stops) == Count(log, id, Stops) + 1
  {
    CountAppend(log, StopCall(id), id);
    CountAppend(log + [StopCall(id)], PutStop(id, stop), id);
    CountAppend(log + [StopCall(id)] + [PutStop(id, stop)], Evicted(id, 0), id);
  }

  lemma CountAppend(log: seq<Effect>, e: Effect, id: string)
    ensures Count(log + [e], id, Stops) == Count(log, id, Stops) + if IsKind(e, id, Stops) then 1 else 0
  {
    assert (log + [e])[..|log|] == log;
  }

  /** The stop is sent and recorded, and the tick fails in its escalation. */
  lemma StageStops(w: World, cfg: Config, now: Time, id: string)
    requires Live(cfg, now, id) && Stage(w, id, None)
    ensures var after := Stuck(w, cfg, now, id);
            Stage(after, id, Some(StopRecord(now, ISSUED, None))) &&
                Count(after.log, id, Stops) == Count(w.log, id, Stops) + 1
  {
    OverstayIsSettled(Start(w, 3), cfg, now, id, STUCK);
    StuckStopNow(Start(w, 3), cfg, now, id);
    StuckLog(w.log, id, StopRecord(now, ISSUED, None));
  }

  /** The stop times out and is recorded as ended, and the tick fails in its escalation. */
  lemma StageTimesOut(w: World, cfg: Config, now: Time, id: string, stop: StopRecord)
    requires Live(cfg, now, id) && Stage(w, id, Some(stop))
    requires stop.stoppedAt.None? && now - stop.issuedAt > STOP_WAIT_TIMEOUT_SECONDS
    ensures Stage(Stuck(w, cfg, now, id), id, Some(StopRecord(stop.issuedAt, TIMEOUT, Some(now))))
  {
    var start := Start(w, 3);
    OverstayIsSettled(start, cfg, now, id, STUCK);
    StuckEscalate(Do(start, PutStop(id, StopRecord(stop.issuedAt, TIMEOUT, Some(now)))), cfg, now, id);
  }

  /** The ended stop is retired. */
  lemma StageRetires(w: World, cfg: Config, now: Time, id: string, stop: StopRecord)
    requires Live(cfg, now, id) && Stage(w, id, Some(stop)) && stop.stoppedAt.Some?
    ensures Stage(Stuck(w, cfg, now, id), id, None)
  {
    OverstayIsSettled(Start(w, 3), cfg, now, id, STUCK);
  }

  /** The soft stop of the watched analysis. */
  lemma StageSoftStop(cfg: Config, now: Time, id: string)
    requires id != "" && cfg.autoSoftStop && !cfg.dryRun && 0 <= cfg.maxDuration < now
    ensures Stage(Stuck(Watched(id), cfg, now, id), id, None)
  {}

  /** A run that has come to this stage, its anchor there since the first poll. */
  predicate RunTo(worlds: seq<World>, steps: seq<Step>, cfg: Config, id: string, n: nat, stop: Option<StopRecord>) {
    && IsRun(worlds, steps) && |steps| == n && Uses(steps, cfg.maxDuration, cfg.grace)
    && Stage(worlds[n], id, stop) && 1 <= n && Lives(worlds, id, 1, n)
  }

  lemma Extended(worlds: seq<World>, steps: seq<Step>, cfg: Config, now: Time, id: string, n: nat,
                 stop: Option<StopRecord>, next: Option<StopRecord>)
    requires RunTo(worlds, steps, cfg, id, n, stop) && Live(cfg, now, id) &&
             Stage(Stuck(worlds[n], cfg, now, id), id, next)
    ensures RunTo(worlds + [Stuck(worlds[n], cfg, now, id)], steps + [StuckPoll(cfg, now, id)], cfg, id, n + 1, next)
  {
    StuckNext(worlds[n], cfg, now, id);
    OneStepMore(worlds, steps, StuckPoll(cfg, now, id), Stuck(worlds[n], cfg, now, id));
    UsesMore(steps, StuckPoll(cfg, now, id), cfg.maxDuration, cfg.grace);
    LivesMore(worlds, Stuck(worlds[n], cfg, now, id), id, n);
  }

  lemma OneStepMore(worlds: seq<World>, steps: seq<Step>, s: Step, after: World)
    requires IsRun(worlds, steps) && Next(worlds[|steps|], s, after)
    ensures IsRun(worlds + [after], steps + [s])
  {
    forall i | 0 <= i < |steps| + 1 ensures Next((worlds + [after])[i], (steps + [s])[i], (worlds + [after])[i + 1]) {
      if i < |steps| { NextAt(worlds, steps, i); }
    }
  }

  lemma UsesMore(steps: seq<Step>, s: Step, maxDuration: Time, grace: Time)
    requires Uses(steps, maxDuration, grace) && (s.Poll? ==> s.cfg.maxDuration == maxDuration && s.cfg.grace == grace)
    ensures Uses(steps + [s], maxDuration, grace)
  {}

  lemma LivesMore(worlds: seq<World>, after: World, id: string, n: nat)
    requires |worlds| == n + 1 && Lives(worlds, id, 1, n) && id in after.softStops
    ensures Lives(worlds + [after], id, 1, n + 1)
  {}

  /** First sight, then the soft stop. */
  lemma RunSoftStop(cfg: Config, t: Time, id: string) returns (worlds: seq<World>, steps: seq<Step>)
    requires Live(cfg, t, id) && 0 <= cfg.maxDuration < t
    ensures RunTo(worlds, steps, cfg, id, 2, None)
  {
    FirstSight(cfg, id);
    StuckNext(Watched(id), cfg, t, id);
    StageSoftStop(cfg, t, id);
    worlds, steps := [BLANK], [];
    OneStepMore(worlds, steps, Poll(cfg, 0, Lone(id, []), 1), Watched(id));
    worlds, steps := worlds + [Watched(id)], steps + [Poll(cfg, 0, Lone(id, []), 1)];
    OneStepMore(worlds, steps, StuckPoll(cfg, t, id), Stuck(Watched(id), cfg, t, id));
    worlds, steps := worlds + [Stuck(Watched(id), cfg, t, id)], steps + [StuckPoll(cfg, t, id)];
  }

  lemma RunStop(worlds: seq<World>, steps: seq<Step>, cfg: Config, now: Time, id: string,
                n: nat) returns (ws: seq<World>, ss: seq<Step>)
    requires RunTo(worlds, steps, cfg, id, n, None) && Live(cfg, now, id)
    ensures RunTo(ws, ss, cfg, id, n + 1, Some(StopRecord(now, ISSUED, None))) && ws[..n + 1] == worlds &&
            Did(ws, n, id, Stops)
  {
    StageStops(worlds[n], cfg, now, id);
    Extended(worlds, steps, cfg, now, id, n, None, Some(StopRecord(now, ISSUED, None)));
    ws, ss := worlds + [Stuck(worlds[n], cfg, now, id)], steps + [StuckPoll(cfg, now, id)];
  }

  lemma RunTimeout(worlds: seq<World>, steps: seq<Step>, cfg: Config, t: Time, id: string,
                   n: nat) returns (ws: seq<World>, ss: seq<Step>)
    requires RunTo(worlds, steps, cfg, id, n, Some(StopRecord(t, ISSUED, None))) && Live(cfg, t, id)
    ensures RunTo(ws, ss, cfg, id, n + 1, Some(StopRecord(t, TIMEOUT, Some(t + 61)))) && ws[..n + 1] == worlds
  {
    var ended := StopRecord(t, TIMEOUT, Some(t + 61));
    StageTimesOut(worlds[n], cfg, t + 61, id, StopRecord(t, ISSUED, None));
    Extended(worlds, steps, cfg, t + 61, id, n, Some(StopRecord(t, ISSUED, None)), Some(ended));
    ws, ss := worlds + [Stuck(worlds[n], cfg, t + 61, id)], steps + [StuckPoll(cfg, t + 61, id)];
  }

  lemma RunRetire(worlds: seq<World>, steps: seq<Step>, cfg: Config, now: Time, id: string, n: nat, ended: StopRecord)
    returns (ws: seq<World>, ss: seq<Step>)
    requires RunTo(worlds, steps, cfg, id, n, Some(ended)) && Live(cfg, now, id) && ended.stoppedAt.Some?
    ensures RunTo(ws, ss, cfg, id, n + 1, None) && ws[..n + 1] == worlds
  {
    StageRetires(worlds[n], cfg, now, id, ended);
    Extended(worlds, steps, cfg, now, id, n, Some(ended), None);
    ws, ss := worlds + [Stuck(worlds[n], cfg, now, id)], steps + [StuckPoll(cfg, now, id)];
  }

  /** The stop is not sent exactly once: under any limits there is a run, from a blank status, in which
      one anchor gets it in the third poll and again in the sixth. */
  lemma StoppedTwice(maxDuration: Time, grace: Time, id: string) returns (worlds: seq<World>, steps: seq<Step>)
    requires 0 <= maxDuration && 0 <= grace && id != ""
    ensures IsRun(worlds, steps) && |steps| == 6 && Uses(steps, maxDuration, grace) && Lives(worlds, id, 1, 6)
    ensures Did(worlds, 2, id, Stops) && Did(worlds, 5, id, Stops)
  {
    var cfg, t := Config(true, maxDuration, grace, false), maxDuration + grace + 1;
    var a, b := RunSoftStop(cfg, t, id);
    var c, d := RunStop(a, b, cfg, t, id, 2);
    var e, f := RunTimeout(c, d, cfg, t, id, 3);
    var g, h := RunRetire(e, f, cfg, t + 62, id, 4, StopRecord(t, TIMEOUT, Some(t + 61)));
    worlds, steps := RunStop(g, h, cfg, t + 63, id, 5);
    assert worlds[2] == g[2] == e[2] == c[2] && worlds[3] == g[3] == e[3] == c[3];
  }
}
