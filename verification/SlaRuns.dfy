/** One-shot soft stop, stop and escalation per anchor, over whole runs of the SLA monitor. */
module SlaRuns {
  import opened Basics
  import opened Ordering
  import opened Records
  import opened Sla

  /** A poll with its own config, views and failure point, or another handler's prune of an anchor
      or stop record. A process bounce changes nothing: the monitor keeps no memory of its own. */
  datatype Step =
    | Poll(cfg: Config, now: Time, views: Views, fuel: nat)
    | PruneAnchor(id: string)
    | PruneStopRecord(id: string)

  function Start(w: World, fuel: nat): World { w.(fuel := fuel, crashed := false) }

  predicate Next(w: World, s: Step, after: World) {
    match s
    case Poll(cfg, now, v, fuel) => ValidViews(Start(w, fuel), now, v) && after == Tick(Start(w, fuel), cfg, now, v)
    case PruneAnchor(id) => after == Do(Start(w, 1), ClearSoftStop(id))
    case PruneStopRecord(id) => after == Do(Start(w, 1), PruneStop(id))
  }

  predicate IsRun(worlds: seq<World>, steps: seq<Step>) {
    && |worlds| == |steps| + 1
    && worlds[0].softStops == map[] && worlds[0].stopped == map[] && worlds[0].log == []
    && forall i :: 0 <= i < |steps| ==> Next(worlds[i], steps[i], worlds[i + 1])
  }

  lemma NextAt(worlds: seq<World>, steps: seq<Step>, i: nat)
    requires IsRun(worlds, steps) && i < |steps|
    ensures Next(worlds[i], steps[i], worlds[i + 1])
  {}

  // ---------------------------------------------------------------- any invariant of orderly effects

  function StopAt(w: World, id: string): Option<StopRecord> { if id in w.stopped then Some(w.stopped[id]) else None }

  function AnchorAt(w: World, id: string): Option<SoftStopRecord> {
    if id in w.softStops then Some(w.softStops[id]) else None
  }

  /** Since the first-sight write of the analysis' anchor its soft stop was sent; if not `live`,
      one withheld by dry-run will do. */
  predicate Sent(log: seq<Effect>, id: string, live: bool) {
    log != [] &&
    var e := log[|log| - 1];
    !(e.PutSoftStop? && e.id == id && e.softStop.outcome == WATCHING) &&
    (e == SoftStopCall(id) || (!live && e == SoftStopWithheld(id)) || Sent(log[..|log| - 1], id, live))
  }

  /** An anchor not escalated carries no escalation outcome. */
  predicate Paired(r: SoftStopRecord) { r.escalatedAt.None? ==> r.escalationOutcome.None? }

  /** A put carries what is recorded, an anchor beyond watching follows its soft stop, and a mark
      finds its anchor. */
  predicate InOrder(w: World, e: Effect) {
    match e
    case PutSoftStop(id, r) =>
      && Paired(r) && (r.outcome != WATCHING ==> Sent(w.log, id, r.outcome == ISSUED))
      && (AnchorAt(w, id).Some? ==> Carries(SoftStop(w.softStops[id]), SoftStop(r)))
    case PutStop(id, r) => StopAt(w, id).Some? ==> Carries(Stop(w.stopped[id]), Stop(r))
    case MarkEscalated(id, _, _) => AnchorAt(w, id).Some?
    case _ => true
  }

  /** The invariant survives failing, and every orderly effect about the analysis. */
  ghost predicate Preserved(inv: World -> bool, id: string) {
    && (forall w, e: Effect :: inv(w) && e.id == id && (!w.crashed ==> InOrder(w, e)) ==> inv(Do(w, e)))
    && (forall w :: inv(w) ==> inv(Fail(w)))
  }

  lemma DoKeeps(w: World, e: Effect, id: string, inv: World -> bool)
    requires Preserved(inv, id) && inv(w) && e.id == id && (!w.crashed ==> InOrder(w, e))
    ensures inv(Do(w, e))
  {}

  lemma EscalateKeeps(w: World, cfg: Config, now: Time, id: string, fates: seq<Fate>, inv: World -> bool)
    requires Preserved(inv, id) && inv(w) && (!w.crashed ==> AnchorAt(w, id).Some?)
    ensures inv(Escalate(w, cfg, now, id, fates))
  {
    var e := Evicted(id, if cfg.dryRun then 0 else Deletions(fates));
    DoKeeps(w, e, id, inv);
    var verdict := if cfg.dryRun then Settled(DRY_RUN) else Judge(Deletions(fates), LastRefusal(fates));
    if verdict.Settled? { DoKeeps(Do(w, e), MarkEscalated(id, now, verdict.outcome), id, inv); }
  }

  lemma StopNowKeeps(w: World, cfg: Config, now: Time, id: string, fates: seq<Fate>, inv: World -> bool)
    requires Preserved(inv, id) && inv(w) && (!w.crashed ==> AnchorAt(w, id).Some? && StopAt(w, id).None?)
    ensures inv(StopNow(w, cfg, now, id, fates))
  {
    var call := if cfg.dryRun then StopWithheld(id) else StopCall(id);
    var put := PutStop(id, StopRecord(now, if cfg.dryRun then DRY_RUN else ISSUED, None));
    DoKeeps(w, call, id, inv);
    DoKeeps(Do(w, call), put, id, inv);
    EscalateKeeps(Do(Do(w, call), put), cfg, now, id, fates, inv);
  }

  lemma StopAgainKeeps(w: World, cfg: Config, now: Time, id: string, stop: StopRecord, fates: seq<Fate>,
                       inv: World -> bool)
    requires Preserved(inv, id) && inv(w) && (!w.crashed ==> AnchorAt(w, id).Some? && StopAt(w, id) == Some(stop))
    ensures inv(StopAgain(w, cfg, now, id, stop, fates))
  {
    if stop.stoppedAt.Some? {
      var put := PutStop(id, StopRecord(stop.issuedAt, COMPLETED, stop.stoppedAt));
      DoKeeps(w, put, id, inv);
      DoKeeps(Do(w, put), PruneStop(id), id, inv);
    } else {
      var put := PutStop(id, StopRecord(stop.issuedAt, TIMEOUT, Some(now)));
      DoKeeps(w, put, id, inv);
      EscalateKeeps(Do(w, put), cfg, now, id, fates, inv);
    }
  }

  lemma SentNow(w: World, call: Effect, id: string, live: bool)
    requires call == SoftStopCall(id) || (!live && call == SoftStopWithheld(id))
    ensures Do(w, call).crashed || Sent(Do(w, call).log, id, live)
  {}

  lemma OutcomesDiffer()
    ensures WATCHING != ISSUED && WATCHING != DRY_RUN && ISSUED != DRY_RUN
  {}

  lemma SoftStopNowKeeps(w: World, cfg: Config, id: string, r: SoftStopRecord, inv: World -> bool)
    requires Preserved(inv, id) && inv(w) && r.escalatedAt.None? && Paired(r) &&
             (!w.crashed ==> AnchorAt(w, id) == Some(r))
    ensures inv(SoftStopNow(w, cfg, id, r))
  {
    var call := if cfg.dryRun then SoftStopWithheld(id) else SoftStopCall(id);
    OutcomesDiffer();
    DoKeeps(w, call, id, inv);
    SentNow(w, call, id, !cfg.dryRun);
    DoKeeps(Do(w, call),
            PutSoftStop(id, SoftStopRecord(r.issuedAt, if cfg.dryRun then DRY_RUN else ISSUED, None, None)), id, inv);
  }

  lemma HandleKeeps(w: World, cfg: Config, now: Time, started: bool, id: string, r: SoftStopRecord, fates: seq<Fate>,
                    inv: World -> bool)
    requires Preserved(inv, id) && inv(w) && Paired(r) && (!w.crashed ==> AnchorAt(w, id) == Some(r))
    ensures inv(Handle(w, cfg, now, started, id, r, fates))
  {
    if !started {
      DoKeeps(w, ClearSoftStop(id), id, inv);
    } else if r.escalatedAt.None? {
      if SoftStopDue(r, cfg, now) {
        SoftStopNowKeeps(w, cfg, id, r, inv);
      } else if r.outcome != ISSUED {
        EscalateKeeps(w, cfg, now, id, fates, inv);
      } else if id in w.stopped {
        StopAgainKeeps(w, cfg, now, id, w.stopped[id], fates, inv);
      } else {
        StopNowKeeps(w, cfg, now, id, fates, inv);
      }
    }
  }

  /** First sight leaves tracked anchors alone and gives the others a fresh watching one. */
  lemma {:induction false} AnchorAllAt(w: World, now: Time, listing: seq<Seen>, id: string)
    ensures var after := AnchorAll(w, w.softStops.Keys, now, listing);
            AnchorAt(after, id) == AnchorAt(w, id) ||
                (id !in w.softStops && AnchorAt(after, id) == Some(SoftStopRecord(now, WATCHING, None, None)))
  {
    if listing != [] { AnchorAllAt(w, now, listing[..|listing| - 1], id); }
  }

  lemma {:induction false} AnchorAllKeeps(w: World, now: Time, listing: seq<Seen>, inv: World -> bool)
    requires inv(w) && forall x :: x !in w.softStops ==> Preserved(inv, x)
    ensures inv(AnchorAll(w, w.softStops.Keys, now, listing))
  {
    if listing != [] {
      var front, s := listing[..|listing| - 1], listing[|listing| - 1];
      AnchorAllKeeps(w, now, front, inv);
      AnchorAllAt(w, now, front, s.id);
      if s.id !in w.softStops {
        DoKeeps(AnchorAll(w, w.softStops.Keys, now, front),
                PutSoftStop(s.id, SoftStopRecord(now, WATCHING, None, None)), s.id, inv);
      }
    }
  }

  predicate Holds(w: World, id: string, r: SoftStopRecord) { AnchorAt(w, id) == Some(r) }

  lemma HoldsPreserved(id: string, r: SoftStopRecord, other: string)
    requires other != id
    ensures Preserved(w => Holds(w, id, r), other)
  {}

  lemma {:induction false} HandleAllKeeps(w: World, snapshot: map<string, SoftStopRecord>, cfg: Config, now: Time,
                                          v: Views, order: seq<string>, inv: World -> bool)
    requires w.softStops == snapshot && Distinct(order) && inv(w)
    requires forall i :: 0 <= i < |order| ==>
               order[i] in snapshot && Paired(snapshot[order[i]]) && Preserved(inv, order[i])
    ensures inv(HandleAll(w, snapshot, cfg, now, v, order))
  {
    if order != [] {
      var front, id := order[..|order| - 1], order[|order| - 1];
      HandleAllKeeps(w, snapshot, cfg, now, v, front, inv);
      forall i | 0 <= i < |front|
        ensures Preserved(x => Holds(x, id, snapshot[id]), front[i])
      {
        HoldsPreserved(id, snapshot[id], front[i]);
      }
      HandleAllKeeps(w, snapshot, cfg, now, v, front, x => Holds(x, id, snapshot[id]));
      HandleKeeps(HandleAll(w, snapshot, cfg, now, v, front), cfg, now, StartedIn(v.listing, id), id, snapshot[id],
                  FatesOf(v, id), inv);
    }
  }

  /** The other anchors leave `pre` and `post` alone; handling this one turns `pre` into `post`. */
  lemma {:induction false} HandleAllAt(w: World, snapshot: map<string, SoftStopRecord>, cfg: Config, now: Time,
                                       v: Views, order: seq<string>, id: string,
                                       pre: World -> bool, post: World -> bool)
    requires w.softStops == snapshot && Distinct(order) && id in order && pre(w)
    requires forall i :: 0 <= i < |order| ==> order[i] in snapshot && Paired(snapshot[order[i]])
    requires forall x :: x != id ==> Preserved(pre, x) && Preserved(post, x)
    requires forall u :: pre(u) ==>
               post(Handle(u, cfg, now, StartedIn(v.listing, id), id, snapshot[id], FatesOf(v, id)))
    ensures post(HandleAll(w, snapshot, cfg, now, v, order))
  {
    var front, last := order[..|order| - 1], order[|order| - 1];
    if last == id {
      HandleAllKeeps(w, snapshot, cfg, now, v, front, pre);
    } else {
      HandleAllAt(w, snapshot, cfg, now, v, front, id, pre, post);
      forall i | 0 <= i < |front|
        ensures Preserved(x => Holds(x, last, snapshot[last]), front[i])
      {
        HoldsPreserved(last, snapshot[last], front[i]);
      }
      HandleAllKeeps(w, snapshot, cfg, now, v, front, x => Holds(x, last, snapshot[last]));
      HandleKeeps(HandleAll(w, snapshot, cfg, now, v, front), cfg, now, StartedIn(v.listing, last), last,
                  snapshot[last], FatesOf(v, last), post);
    }
  }

  // ---------------------------------------------------------------- the ledger of one anchor

  datatype Kind = Softs | Stops | Escalations

  predicate IsKind(e: Effect, id: string, kind: Kind) {
    && e.id == id
    && match kind
       case Softs => e.SoftStopCall? || e.SoftStopWithheld?
       case Stops => e.StopCall? || e.StopWithheld?
       case Escalations => e.MarkEscalated?
  }

  function Count(log: seq<Effect>, id: string, kind: Kind): nat {
    if log == [] then 0 else Count(log[..|log| - 1], id, kind) + if IsKind(log[|log| - 1], id, kind) then 1 else 0
  }

  lemma DoCount(w: World, e: Effect, id: string, kind: Kind)
    ensures Count(Do(w, e).log, id, kind) ==
              Count(w.log, id, kind) + if !w.crashed && w.fuel > 0 && IsKind(e, id, kind) then 1 else 0
  {
    assert (w.log + [e])[..|w.log|] == w.log;
  }

  function Bit(b: bool): int { if b then 1 else 0 }

  /** All that a step can do to an anchor that is there before and after: the clock origin stays,
      and every call is paid for by progress of the anchor or by a failed tick. */
  predicate Accounted(w: World, after: World, id: string) {
    id in w.softStops && id in after.softStops ==>
      var a, b := w.softStops[id], after.softStops[id];
      && b.issuedAt == a.issuedAt && (a.outcome != WATCHING ==> b.outcome != WATCHING)
      && Count(after.log, id, Softs) - Count(w.log, id, Softs) <=
           Bit(b.outcome != WATCHING) - Bit(a.outcome != WATCHING) + Bit(after.crashed)
      && Count(after.log, id, Stops) - Count(w.log, id, Stops) <=
           Bit(b.escalatedAt.Some?) - Bit(a.escalatedAt.Some?) + Bit(after.crashed)
      && Count(after.log, id, Escalations) - Count(w.log, id, Escalations) ==
           Bit(b.escalatedAt.Some?) - Bit(a.escalatedAt.Some?)
  }

  predicate SameCounts(w: World, after: World, id: string) {
    && Count(after.log, id, Softs) == Count(w.log, id, Softs)
    && Count(after.log, id, Stops) == Count(w.log, id, Stops)
    && Count(after.log, id, Escalations) == Count(w.log, id, Escalations)
  }

  /** Nothing happened to the analysis. */
  predicate Same(w: World, after: World, id: string) {
    AnchorAt(after, id) == AnchorAt(w, id) && SameCounts(w, after, id) && |w.log| <= |after.log|
  }

  lemma DoCounts(w: World, e: Effect, id: string)
    ensures !IsKind(e, id, Softs) ==> Count(Do(w, e).log, id, Softs) == Count(w.log, id, Softs)
    ensures !IsKind(e, id, Stops) ==> Count(Do(w, e).log, id, Stops) == Count(w.log, id, Stops)
    ensures !IsKind(e, id, Escalations) ==> Count(Do(w, e).log, id, Escalations) == Count(w.log, id, Escalations)
  {
    DoCount(w, e, id, Softs);
    DoCount(w, e, id, Stops);
    DoCount(w, e, id, Escalations);
  }

  lemma AnchorElsewhere(w: World, e: Effect, id: string)
    requires e.id != id
    ensures AnchorAt(Do(w, e), id) == AnchorAt(w, id)
  {}

  lemma DoElsewhere(w: World, e: Effect, id: string)
    requires e.id != id
    ensures AnchorAt(Do(w, e), id) == AnchorAt(w, id) && SameCounts(w, Do(w, e), id) && (w.crashed ==> Do(w, e).crashed)
  {
    AnchorElsewhere(w, e, id);
    DoCounts(w, e, id);
  }

  lemma SamePreserved(w: World, id: string, other: string)
    requires other != id
    ensures Preserved(x => Same(w, x, id), other)
  {
    forall u: World, e: Effect | Same(w, u, id) && e.id == other
      ensures Same(w, Do(u, e), id)
    {
      DoElsewhere(u, e, id);
    }
  }

  /** What was logged since `w`, if anything, ends with an effect about the analysis. */
  predicate OwnTail(w: World, after: World, id: string) {
    after.log == w.log || (|w.log| < |after.log| && after.log[|after.log| - 1].id == id)
  }

  /** The step called for the analysis and then failed among its effects: the call is unpaid. */
  predicate Unpaid(w: World, after: World, id: string, kind: Kind) {
    && after.crashed && Count(w.log, id, kind) < Count(after.log, id, kind)
    && |w.log| < |after.log| && after.log[|after.log| - 1].id == id
  }

  /** All that a step can do to an anchor that is there before and after: the clock origin stays, and a
      call is paid for by progress of the anchor, unless the step failed before it got there. */
  predicate Charged(w: World, after: World, id: string) {
    id in w.softStops && id in after.softStops ==>
      var a, b := w.softStops[id], after.softStops[id];
      && b.issuedAt == a.issuedAt
      && Count(after.log, id, Softs) - Count(w.log, id, Softs) <=
           Bit(b.outcome != WATCHING) - Bit(a.outcome != WATCHING) + Bit(Unpaid(w, after, id, Softs))
      && Count(after.log, id, Stops) - Count(w.log, id, Stops) <=
           Bit(b.escalatedAt.Some?) - Bit(a.escalatedAt.Some?) + Bit(Unpaid(w, after, id, Stops))
      && Count(after.log, id, Escalations) - Count(w.log, id, Escalations) ==
           Bit(b.escalatedAt.Some?) - Bit(a.escalatedAt.Some?)
  }

  lemma ChargedFrom(w: World, u: World, after: World, id: string)
    requires Same(w, u, id) && Accounted(u, after, id) && OwnTail(u, after, id)
    requires Count(u.log, id, Escalations) <= Count(after.log, id, Escalations)
    ensures Charged(w, after, id)
  {}

  lemma ChargedMoves(w: World, u: World, after: World, id: string)
    requires Charged(w, u, id) && Same(u, after, id) && (u.crashed ==> after == u)
    ensures Charged(w, after, id)
  {}

  lemma ChargedPreserved(w: World, id: string, other: string)
    requires other != id
    ensures Preserved(x => Charged(w, x, id), other)
  {
    forall u: World, e: Effect | Charged(w, u, id) && e.id == other ensures Charged(w, Do(u, e), id) {
      DoElsewhere(u, e, id);
      ChargedMoves(w, u, Do(u, e), id);
    }
    forall u: World | Charged(w, u, id) ensures Charged(w, Fail(u), id) { ChargedMoves(w, u, Fail(u), id); }
  }

  /** The count of marks never falls, and the effects are about the analysis. */
  predicate OwnEffects(w: World, u: World, id: string) {
    OwnTail(w, u, id) && |w.log| <= |u.log| && Count(w.log, id, Escalations) <= Count(u.log, id, Escalations)
  }

  lemma OwnEffectsPreserved(w: World, id: string)
    ensures Preserved(u => OwnEffects(w, u, id), id)
  {
    forall u: World, e: Effect | OwnEffects(w, u, id) && e.id == id ensures OwnEffects(w, Do(u, e), id) {
      DoOwn(w, u, e, id);
    }
  }

  lemma DoOwn(w: World, u: World, e: Effect, id: string)
    requires OwnEffects(w, u, id) && e.id == id
    ensures OwnEffects(w, Do(u, e), id)
  {
    DoCount(u, e, id, Escalations);
    if !u.crashed && u.fuel > 0 { assert Do(u, e).log == u.log + [e]; }
  }

  // ---------------------------------------------------------------- handling one anchor

  lemma DoQuiet(w: World, e: Effect, id: string)
    requires e.Evicted? || e.PutStop? || e.PruneStop?
    ensures Same(w, Do(w, e), id)
  {
    DoCounts(w, e, id);
  }

  /** A stop call touches only the count of stops. */
  predicate OneStop(w: World, after: World, id: string) {
    && AnchorAt(after, id) == AnchorAt(w, id)
    && Count(after.log, id, Softs) == Count(w.log, id, Softs) &&
       Count(after.log, id, Escalations) == Count(w.log, id, Escalations)
    && Count(after.log, id, Stops) <= Count(w.log, id, Stops) + 1
  }

  lemma DoStop(w: World, call: Effect, id: string)
    requires call == StopCall(id) || call == StopWithheld(id)
    ensures OneStop(w, Do(w, call), id)
  {
    DoCounts(w, call, id);
    DoCount(w, call, id, Stops);
  }

  lemma DoSoft(w: World, call: Effect, id: string)
    requires call == SoftStopCall(id) || call == SoftStopWithheld(id)
    ensures var after := Do(w, call);
            && AnchorAt(after, id) == AnchorAt(w, id)
            && Count(after.log, id, Stops) == Count(w.log, id, Stops) &&
               Count(after.log, id, Escalations) == Count(w.log, id, Escalations)
            && Count(after.log, id, Softs) <= Count(w.log, id, Softs) + 1
  {
    DoCounts(w, call, id);
    DoCount(w, call, id, Softs);
  }

  /** The mark is written, once, or the tick fails and the anchor is as it was. */
  lemma DoMark(w: World, at: Time, outcome: string, id: string)
    requires id in w.softStops && w.softStops[id].escalatedAt.None?
    ensures Accounted(w, Do(w, MarkEscalated(id, at, outcome)), id)
    ensures var after := Do(w, MarkEscalated(id, at, outcome));
            after.crashed || (id in after.softStops && after.softStops[id].escalatedAt.Some?)
  {
    DoCounts(w, MarkEscalated(id, at, outcome), id);
    DoCount(w, MarkEscalated(id, at, outcome), id, Escalations);
  }

  /** One extra stop before a step that marks or fails is paid for by it. */
  lemma StopIsPaid(w: World, u: World, after: World, id: string)
    requires OneStop(w, u, id) && Accounted(u, after, id)
    requires id in w.softStops && w.softStops[id].escalatedAt.None?
    requires Count(after.log, id, Stops) == Count(u.log, id, Stops)
    requires after.crashed || (id in after.softStops && after.softStops[id].escalatedAt.Some?)
    ensures Accounted(w, after, id)
  {}

  lemma EscalateAccounted(w0: World, w: World, cfg: Config, now: Time, id: string, fates: seq<Fate>)
    requires OneStop(w0, w, id) && id in w0.softStops && w0.softStops[id].escalatedAt.None?
    ensures Accounted(w0, Escalate(w, cfg, now, id, fates), id)
  {
    var e := Evicted(id, if cfg.dryRun then 0 else Deletions(fates));
    var tried := Do(w, e);
    var verdict := if cfg.dryRun then Settled(DRY_RUN) else Judge(Deletions(fates), LastRefusal(fates));
    DoQuiet(w, e, id);
    if verdict.Settled? {
      var after := Do(tried, MarkEscalated(id, now, verdict.outcome));
      DoMark(tried, now, verdict.outcome, id);
      DoCounts(tried, MarkEscalated(id, now, verdict.outcome), id);
      StopIsPaid(w0, tried, after, id);
    } else {
      StopIsPaid(w0, tried, Fail(tried), id);
    }
  }

  lemma StopNowAccounted(w: World, cfg: Config, now: Time, id: string, fates: seq<Fate>)
    requires id in w.softStops && w.softStops[id].escalatedAt.None?
    ensures Accounted(w, StopNow(w, cfg, now, id, fates), id)
  {
    var call := if cfg.dryRun then StopWithheld(id) else StopCall(id);
    var put := PutStop(id, StopRecord(now, if cfg.dryRun then DRY_RUN else ISSUED, None));
    DoStop(w, call, id);
    DoQuiet(Do(w, call), put, id);
    EscalateAccounted(w, Do(Do(w, call), put), cfg, now, id, fates);
  }

  lemma StopAgainAccounted(w: World, cfg: Config, now: Time, id: string, stop: StopRecord, fates: seq<Fate>)
    requires id in w.softStops && w.softStops[id].escalatedAt.None?
    ensures Accounted(w, StopAgain(w, cfg, now, id, stop, fates), id)
  {
    var put := PutStop(id, if stop.stoppedAt.Some? then StopRecord(stop.issuedAt, COMPLETED, stop.stoppedAt)
                       else StopRecord(stop.issuedAt, TIMEOUT, Some(now)));
    DoQuiet(w, put, id);
    DoQuiet(Do(w, put), PruneStop(id), id);
    EscalateAccounted(w, Do(w, put), cfg, now, id, fates);
  }

  lemma PutUpgrade(w0: World, w: World, id: string, r: SoftStopRecord, put: SoftStopRecord)
    requires AnchorAt(w0, id) == AnchorAt(w, id) == Some(r) && r.outcome == WATCHING && r.escalatedAt.None?
    requires put.issuedAt == r.issuedAt && put.outcome != WATCHING && put.escalatedAt.None?
    requires Count(w.log, id, Stops) == Count(w0.log, id, Stops) &&
             Count(w.log, id, Escalations) == Count(w0.log, id, Escalations)
    requires Count(w.log, id, Softs) <= Count(w0.log, id, Softs) + 1
    ensures Accounted(w0, Do(w, PutSoftStop(id, put)), id)
  {
    DoCounts(w, PutSoftStop(id, put), id);
  }

  lemma SoftStopNowAccounted(w: World, cfg: Config, id: string, r: SoftStopRecord)
    requires AnchorAt(w, id) == Some(r) && r.outcome == WATCHING && r.escalatedAt.None?
    ensures Accounted(w, SoftStopNow(w, cfg, id, r), id)
  {
    var call := if cfg.dryRun then SoftStopWithheld(id) else SoftStopCall(id);
    OutcomesDiffer();
    DoSoft(w, call, id);
    PutUpgrade(w, Do(w, call), id, r, SoftStopRecord(r.issuedAt, if cfg.dryRun then DRY_RUN else ISSUED, None, None));
  }

  lemma HandleAccounted(w: World, cfg: Config, now: Time, started: bool, id: string, r: SoftStopRecord,
                        fates: seq<Fate>)
    requires AnchorAt(w, id) == Some(r)
    ensures Accounted(w, Handle(w, cfg, now, started, id, r, fates), id)
  {
    if !started {
      DoCounts(w, ClearSoftStop(id), id);
    } else if r.escalatedAt.None? {
      if SoftStopDue(r, cfg, now) {
        SoftStopNowAccounted(w, cfg, id, r);
      } else if r.outcome != ISSUED {
        EscalateAccounted(w, w, cfg, now, id, fates);
      } else if id in w.stopped {
        StopAgainAccounted(w, cfg, now, id, w.stopped[id], fates);
      } else {
        StopNowAccounted(w, cfg, now, id, fates);
      }
    }
  }

  lemma HandleCharged(w: World, u: World, cfg: Config, now: Time, started: bool, id: string, r: SoftStopRecord,
                      fates: seq<Fate>)
    requires Same(w, u, id) && AnchorAt(w, id) == Some(r) && Paired(r)
    ensures Charged(w, Handle(u, cfg, now, started, id, r, fates), id)
  {
    OwnEffectsPreserved(u, id);
    HandleKeeps(u, cfg, now, started, id, r, fates, x => OwnEffects(u, x, id));
    HandleAccounted(u, cfg, now, started, id, r, fates);
    ChargedFrom(w, u, Handle(u, cfg, now, started, id, r, fates), id);
  }

  // ---------------------------------------------------------------- the tick

  predicate AllPaired(w: World) { forall id :: id in w.softStops ==> Paired(w.softStops[id]) }

  lemma AllPairedPreserved(id: string)
    ensures Preserved(w => AllPaired(w), id)
  {}

  lemma AnchoredPaired(w: World, now: Time, v: Views)
    requires AllPaired(w)
    ensures AllPaired(Anchored(w, now, v))
  {
    var inv := (u: World) => AllPaired(u);
    forall x ensures Preserved(inv, x) { AllPairedPreserved(x); }
    AnchorAllKeeps(w, now, v.listing, inv);
  }

  /** What every orderly effect keeps, a whole tick keeps. */
  lemma TickKeeps(w: World, cfg: Config, now: Time, v: Views, inv: World -> bool)
    requires ValidViews(w, now, v) && AllPaired(w) && inv(w) && forall x :: Preserved(inv, x)
    ensures inv(Tick(w, cfg, now, v))
  {
    var anchored := Anchored(w, now, v);
    AnchorAllKeeps(w, now, v.listing, inv);
    AnchoredPaired(w, now, v);
    assert forall i :: 0 <= i < |v.order| ==> v.order[i] in Elements(v.order);
    HandleAllKeeps(anchored, anchored.softStops, cfg, now, v, v.order, inv);
  }

  lemma AnchoredSame(w: World, now: Time, v: Views, id: string)
    requires id in w.softStops
    ensures Same(w, Anchored(w, now, v), id)
  {
    forall x | x !in w.softStops ensures Preserved(u => Same(w, u, id), x) { SamePreserved(w, id, x); }
    AnchorAllKeeps(w, now, v.listing, u => Same(w, u, id));
  }

  lemma TickCharged(w: World, cfg: Config, now: Time, v: Views, id: string)
    requires ValidViews(w, now, v) && AllPaired(w) && id in w.softStops
    ensures Charged(w, Tick(w, cfg, now, v), id)
  {
    var a := Anchored(w, now, v);
    var started, r, fates := StartedIn(v.listing, id), w.softStops[id], FatesOf(v, id);
    AnchoredSame(w, now, v, id);
    AnchoredPaired(w, now, v);
    assert id in Elements(v.order) && forall i :: 0 <= i < |v.order| ==> v.order[i] in Elements(v.order);
    var pre, post := (u: World) => Same(w, u, id), (u: World) => Charged(w, u, id);
    forall x | x != id
      ensures Preserved(pre, x) && Preserved(post, x)
    {
      SamePreserved(w, id, x);
      ChargedPreserved(w, id, x);
    }
    forall u | pre(u) ensures post(Handle(u, cfg, now, started, id, r, fates)) {
      HandleCharged(w, u, cfg, now, started, id, r, fates);
    }
    HandleAllAt(a, a.softStops, cfg, now, v, v.order, id, pre, post);
  }

  // ---------------------------------------------------------------- runs

  predicate Sound(w: World) { AllPaired(w) && SentInv(w) }

  /** Every anchor beyond watching follows its soft stop. */
  predicate SentInv(w: World) {
    forall id :: id in w.softStops && w.softStops[id].outcome != WATCHING ==>
          Sent(w.log, id, w.softStops[id].outcome == ISSUED)
  }

  lemma SentGrows(log: seq<Effect>, e: Effect, id: string, live: bool)
    requires Sent(log, id, live) && !(e.PutSoftStop? && e.id == id && e.softStop.outcome == WATCHING)
    ensures Sent(log + [e], id, live)
  {
    assert (log + [e])[..|log|] == log;
  }

  lemma DoSent(w: World, e: Effect)
    requires SentInv(w) && (!w.crashed ==> InOrder(w, e))
    ensures SentInv(Do(w, e))
  {
    var after := Do(w, e);
    if !w.crashed && w.fuel > 0 {
      forall id | id in after.softStops && after.softStops[id].outcome != WATCHING
        ensures Sent(after.log, id, after.softStops[id].outcome == ISSUED)
      {
        SentGrows(w.log, e, id, after.softStops[id].outcome == ISSUED);
      }
    }
  }

  lemma SentPreserved(id: string)
    ensures Preserved(w => SentInv(w), id)
  {
    forall w: World, e: Effect | SentInv(w) && e.id == id && (!w.crashed ==> InOrder(w, e))
      ensures SentInv(Do(w, e))
    {
      DoSent(w, e);
    }
  }

  lemma NextSound(w: World, s: Step, after: World)
    requires Next(w, s, after) && Sound(w)
    ensures Sound(after)
  {
    if s.Poll? {
      var paired, sent := (u: World) => AllPaired(u), (u: World) => SentInv(u);
      forall x ensures Preserved(paired, x) && Preserved(sent, x) { AllPairedPreserved(x); SentPreserved(x); }
      TickKeeps(Start(w, s.fuel), s.cfg, s.now, s.views, paired);
      TickKeeps(Start(w, s.fuel), s.cfg, s.now, s.views, sent);
    } else {
      DoSent(Start(w, 1), if s.PruneAnchor? then ClearSoftStop(s.id) else PruneStop(s.id));
    }
  }

  lemma {:induction false} RunSound(worlds: seq<World>, steps: seq<Step>, i: nat)
    requires IsRun(worlds, steps) && i <= |steps|
    ensures Sound(worlds[i])
  {
    if i > 0 {
      RunSound(worlds, steps, i - 1);
      NextAt(worlds, steps, i - 1);
      NextSound(worlds[i - 1], steps[i - 1], worlds[i]);
    }
  }

  lemma NextCharged(w: World, s: Step, after: World, id: string)
    requires Next(w, s, after) && AllPaired(w) && id in w.softStops
    ensures Charged(w, after, id)
  {
    match s
    case Poll(cfg, now, v, fuel) =>
      TickCharged(Start(w, fuel), cfg, now, v, id);
    case PruneAnchor(x) => DoCounts(Start(w, 1), ClearSoftStop(x), id);
    case PruneStopRecord(x) => DoCounts(Start(w, 1), PruneStop(x), id);
  }

  /** Steps from i up to j that called for the analysis and failed before the call was paid for. */
  function UnpaidSteps(worlds: seq<World>, id: string, kind: Kind, i: nat, j: nat): nat
    requires i <= j < |worlds|
  {
    if i == j then 0 else UnpaidSteps(worlds, id, kind, i, j - 1) + Bit(Unpaid(worlds[j - 1], worlds[j], id, kind))
  }

  /** The anchor of the analysis is there from world i to world j. */
  predicate Lives(worlds: seq<World>, id: string, i: nat, j: nat) {
    i <= j < |worlds| && forall k :: i <= k <= j ==> id in worlds[k].softStops
  }

  predicate Ledger(w: World, after: World, id: string, softs: nat, stops: nat)
    requires id in w.softStops && id in after.softStops
  {
    var a, b := w.softStops[id], after.softStops[id];
    && b.issuedAt == a.issuedAt
    && Count(after.log, id, Softs) - Count(w.log, id, Softs) <=
         Bit(b.outcome != WATCHING) - Bit(a.outcome != WATCHING) + softs
    && Count(after.log, id, Stops) - Count(w.log, id, Stops) <=
         Bit(b.escalatedAt.Some?) - Bit(a.escalatedAt.Some?) + stops
    && Count(after.log, id, Escalations) - Count(w.log, id, Escalations) ==
         Bit(b.escalatedAt.Some?) - Bit(a.escalatedAt.Some?)
  }

  lemma LedgerAdds(a: World, b: World, c: World, id: string, softs: nat, stops: nat)
    requires id in a.softStops && id in b.softStops && id in c.softStops
    requires Ledger(a, b, id, softs, stops) && Charged(b, c, id)
    ensures Ledger(a, c, id, softs + Bit(Unpaid(b, c, id, Softs)), stops + Bit(Unpaid(b, c, id, Stops)))
  {}

  /** One-shot per anchor lifetime, over whole runs with failures anywhere: the clock origin never
      changes; there is at most one escalation; every soft stop beyond the one that the anchor
      records, and every stop beyond the one before its escalation, was sent by a tick that then failed
      among the effects of that analysis. Failures elsewhere add nothing. */
  lemma {:induction false} OneShot(worlds: seq<World>, steps: seq<Step>, id: string, i: nat, j: nat)
    requires IsRun(worlds, steps) && Lives(worlds, id, i, j)
    ensures Ledger(worlds[i], worlds[j], id, UnpaidSteps(worlds, id, Softs, i, j), UnpaidSteps(worlds, id, Stops, i, j))
  {
    if i < j {
      OneShot(worlds, steps, id, i, j - 1);
      RunSound(worlds, steps, j - 1);
      NextAt(worlds, steps, j - 1);
      NextCharged(worlds[j - 1], steps[j - 1], worlds[j], id);
      LedgerAdds(worlds[i], worlds[j - 1], worlds[j], id, UnpaidSteps(worlds, id, Softs, i, j - 1),
                 UnpaidSteps(worlds, id, Stops, i, j - 1));
    }
  }

  lemma {:induction false} NothingUnpaid(worlds: seq<World>, id: string, kind: Kind, i: nat, j: nat)
    requires i <= j < |worlds| && forall k :: i < k <= j ==> !worlds[k].crashed
    ensures UnpaidSteps(worlds, id, kind, i, j) == 0
  {
    if i < j { NothingUnpaid(worlds, id, kind, i, j - 1); }
  }

  /** With completed ticks only: at most one of each, and none after the escalation. */
  lemma OneShotWhenTicksComplete(worlds: seq<World>, steps: seq<Step>, id: string, i: nat, j: nat, kind: Kind)
    requires IsRun(worlds, steps) && Lives(worlds, id, i, j) && forall k :: i < k <= j ==> !worlds[k].crashed
    ensures Count(worlds[j].log, id, kind) <= Count(worlds[i].log, id, kind) + 1
    ensures worlds[i].softStops[id].escalatedAt.Some? && kind != Softs ==>
              Count(worlds[j].log, id, kind) <= Count(worlds[i].log, id, kind)
  {
    OneShot(worlds, steps, id, i, j);
    NothingUnpaid(worlds, id, Softs, i, j);
    NothingUnpaid(worlds, id, Stops, i, j);
  }
}
