/** What one poll of the SLA monitor does to each analysis, by its inputs: dry-run, the listing, the anchor
    and the stop record at the start of the poll, and the limits. */
module SlaGuards {
  import opened Basics
  import opened Ordering
  import opened Records
  import opened Sla
  import opened SlaRuns
  import opened SlaOrder

  // ---------------------------------------------------------------- dry-run

  /** Under dry-run calls are withheld and no pod is deleted; live, nothing is withheld. What is recorded
      says which it was. */
  predicate Suits(e: Effect, dryRun: bool) {
    match e
    case SoftStopCall(_) => !dryRun
    case SoftStopWithheld(_) => dryRun
    case PutSoftStop(_, r) => (r.outcome == "issued" ==> !dryRun) && (r.outcome == "dry-run" ==> dryRun)
    case StopCall(_) => !dryRun
    case StopWithheld(_) => dryRun
    case PutStop(_, r) => (r.outcome == "issued" ==> !dryRun) && (r.outcome == "dry-run" ==> dryRun)
    case Evicted(_, pods) => dryRun ==> pods == 0
    case MarkEscalated(_, _, outcome) => outcome == "dry-run" <==> dryRun
    case _ => true
  }

  predicate Grows(w: World, after: World) { |w.log| <= |after.log| && after.log[..|w.log|] == w.log }

  /** Everything logged since `w` suits the config. */
  predicate AllSuit(w: World, after: World, dryRun: bool) {
    Grows(w, after) && forall i :: |w.log| <= i < |after.log| ==> Suits(after.log[i], dryRun)
  }

  lemma DoSuits(w0: World, w: World, e: Effect, dryRun: bool)
    requires AllSuit(w0, w, dryRun) && Suits(e, dryRun)
    ensures AllSuit(w0, Do(w, e), dryRun)
  {}

  lemma NamesDiffer()
    ensures "watching" != "issued" && "watching" != "dry-run" && "issued" != "dry-run"
    ensures "completed" != "issued" && "completed" != "dry-run" && "timeout" != "issued" && "timeout" != "dry-run"
    ensures "evicted" != "dry-run" && "evicted-partial" != "dry-run" && "no-matching-pods" != "dry-run"
  {
    assert |"watching"| == 8 && |"issued"| == 6 && |"dry-run"| == 7 && |"completed"| == 9 && |"timeout"| == 7;
    assert "timeout"[0] != "dry-run"[0];
    assert |"evicted-partial"| == 15 && |"no-matching-pods"| == 16;
    assert "evicted"[0] != "dry-run"[0];
  }

  lemma EscalateSuits(w0: World, w: World, cfg: Config, now: Time, id: string, fates: seq<Fate>)
    requires AllSuit(w0, w, cfg.dryRun)
    ensures AllSuit(w0, Escalate(w, cfg, now, id, fates), cfg.dryRun)
  {
    NamesDiffer();
    var e := Evicted(id, if cfg.dryRun then 0 else Deletions(fates));
    var verdict := if cfg.dryRun then Settled(DRY_RUN) else Judge(Deletions(fates), LastRefusal(fates));
    DoSuits(w0, w, e, cfg.dryRun);
    if verdict.Settled? { DoSuits(w0, Do(w, e), MarkEscalated(id, now, verdict.outcome), cfg.dryRun); }
  }

  lemma SoftStopSuits(w0: World, w: World, cfg: Config, id: string, r: SoftStopRecord)
    requires AllSuit(w0, w, cfg.dryRun)
    ensures AllSuit(w0, SoftStopNow(w, cfg, id, r), cfg.dryRun)
  {
    NamesDiffer();
    var call := if cfg.dryRun then SoftStopWithheld(id) else SoftStopCall(id);
    var put := SoftStopRecord(r.issuedAt, if cfg.dryRun then DRY_RUN else ISSUED, None, None);
    DoSuits(w0, w, call, cfg.dryRun);
    DoSuits(w0, Do(w, call), PutSoftStop(id, put), cfg.dryRun);
  }

  lemma StopNowSuits(w0: World, w: World, cfg: Config, now: Time, id: string, fates: seq<Fate>)
    requires AllSuit(w0, w, cfg.dryRun)
    ensures AllSuit(w0, StopNow(w, cfg, now, id, fates), cfg.dryRun)
  {
    NamesDiffer();
    var call := if cfg.dryRun then StopWithheld(id) else StopCall(id);
    var put := PutStop(id, StopRecord(now, if cfg.dryRun then DRY_RUN else ISSUED, None));
    DoSuits(w0, w, call, cfg.dryRun);
    DoSuits(w0, Do(w, call), put, cfg.dryRun);
    EscalateSuits(w0, Do(Do(w, call), put), cfg, now, id, fates);
  }

  lemma StopAgainSuits(w0: World, w: World, cfg: Config, now: Time, id: string, stop: StopRecord, fates: seq<Fate>)
    requires AllSuit(w0, w, cfg.dryRun)
    ensures AllSuit(w0, StopAgain(w, cfg, now, id, stop, fates), cfg.dryRun)
  {
    NamesDiffer();
    var done := PutStop(id, StopRecord(stop.issuedAt, COMPLETED, stop.stoppedAt));
    var late := PutStop(id, StopRecord(stop.issuedAt, TIMEOUT, Some(now)));
    DoSuits(w0, w, done, cfg.dryRun);
    DoSuits(w0, Do(w, done), PruneStop(id), cfg.dryRun);
    DoSuits(w0, w, late, cfg.dryRun);
    EscalateSuits(w0, Do(w, late), cfg, now, id, fates);
  }

  lemma HandleSuits(w0: World, w: World, cfg: Config, now: Time, started: bool, id: string, r: SoftStopRecord,
                    fates: seq<Fate>)
    requires AllSuit(w0, w, cfg.dryRun)
    ensures AllSuit(w0, Handle(w, cfg, now, started, id, r, fates), cfg.dryRun)
  {
    if !started {
      DoSuits(w0, w, ClearSoftStop(id), cfg.dryRun);
    } else if SoftStopDue(r, cfg, now) {
      SoftStopSuits(w0, w, cfg, id, r);
    } else if r.outcome != ISSUED {
      EscalateSuits(w0, w, cfg, now, id, fates);
    } else if id in w.stopped {
      StopAgainSuits(w0, w, cfg, now, id, w.stopped[id], fates);
    } else {
      StopNowSuits(w0, w, cfg, now, id, fates);
    }
  }

  lemma {:induction false} AnchorAllSuits(w0: World, w: World, snapshot: set<string>, now: Time, listing: seq<Seen>,
                                          dryRun: bool)
    requires AllSuit(w0, w, dryRun)
    ensures AllSuit(w0, AnchorAll(w, snapshot, now, listing), dryRun)
  {
    if listing != [] {
      var front, s := listing[..|listing| - 1], listing[|listing| - 1];
      NamesDiffer();
      AnchorAllSuits(w0, w, snapshot, now, front, dryRun);
      DoSuits(w0, AnchorAll(w, snapshot, now, front), PutSoftStop(s.id, SoftStopRecord(now, WATCHING, None, None)),
              dryRun);
    }
  }

  lemma {:induction false} HandleAllSuits(w0: World, w: World, snapshot: map<string, SoftStopRecord>, cfg: Config,
                                          now: Time, v: Views, order: seq<string>)
    requires AllSuit(w0, w, cfg.dryRun) && forall i :: 0 <= i < |order| ==> order[i] in snapshot
    ensures AllSuit(w0, HandleAll(w, snapshot, cfg, now, v, order), cfg.dryRun)
  {
    if order != [] {
      var front, id := order[..|order| - 1], order[|order| - 1];
      HandleAllSuits(w0, w, snapshot, cfg, now, v, front);
      HandleSuits(w0, HandleAll(w, snapshot, cfg, now, v, front), cfg, now, StartedIn(v.listing, id), id, snapshot[id],
                  FatesOf(v, id));
    }
  }

  /** Wherever a poll fails: under dry-run it sends neither soft stop nor stop and deletes no pod, and live
      it withholds nothing. */
  lemma DryRunStopsNothing(w: World, s: Step)
    requires s.Poll? && ValidViews(Start(w, s.fuel), s.now, s.views)
    ensures AllSuit(w, Tick(Start(w, s.fuel), s.cfg, s.now, s.views), s.cfg.dryRun)
  {
    var start, v := Start(w, s.fuel), s.views;
    if s.cfg.autoSoftStop {
      var anchored := Anchored(start, s.now, v);
      AnchorAllSuits(w, start, start.softStops.Keys, s.now, v.listing, s.cfg.dryRun);
      assert forall i :: 0 <= i < |v.order| ==> v.order[i] in Elements(v.order);
      HandleAllSuits(w, anchored, anchored.softStops, s.cfg, s.now, v, v.order);
    }
  }

  /** Over whole runs: with every poll under dry-run nothing is ever sent and no pod deleted, and with
      every poll live nothing is ever withheld. */
  lemma {:induction false} DryRunStopsNothingEver(worlds: seq<World>, steps: seq<Step>, dryRun: bool, i: nat)
    requires IsRun(worlds, steps) && i <= |steps|
    requires forall k :: 0 <= k < |steps| && steps[k].Poll? ==> steps[k].cfg.dryRun == dryRun
    ensures forall k :: 0 <= k < |worlds[i].log| ==> Suits(worlds[i].log[k], dryRun)
  {
    if i > 0 {
      DryRunStopsNothingEver(worlds, steps, dryRun, i - 1);
      NextAt(worlds, steps, i - 1);
      var w, after := worlds[i - 1], worlds[i];
      if steps[i - 1].Poll? {
        DryRunStopsNothing(w, steps[i - 1]);
        forall k | 0 <= k < |after.log| ensures Suits(after.log[k], dryRun) {
          if k < |w.log| { assert after.log[..|w.log|][k] == after.log[k]; }
        }
      }
    }
  }

  // ---------------------------------------------------------------- following one analysis

  /** The effects about one analysis, in order. */
  function Own(log: seq<Effect>, id: string): seq<Effect> {
    if log == [] then []
    else Own(log[..|log| - 1], id) + if log[|log| - 1].id == id then [log[|log| - 1]] else []
  }

  /** What became of the analysis: its anchor, its stop record, and what was done about it, in order. */
  predicate Became(w: World, after: World, id: string, anchor: Option<SoftStopRecord>, stop: Option<StopRecord>,
                   done: seq<Effect>) {
    && AnchorAt(after, id) == anchor && StopAt(after, id) == stop
    && Own(after.log, id) == Own(w.log, id) + done
    && (w.crashed ==> after.crashed)
  }

  /** Nothing became of it. */
  predicate Apart(w: World, after: World, id: string) { Became(w, after, id, AnchorAt(w, id), StopAt(w, id), []) }

  lemma BecameThen(a: World, b: World, c: World, id: string, anchor: Option<SoftStopRecord>, stop: Option<StopRecord>,
                   done: seq<Effect>, anchor': Option<SoftStopRecord>, stop': Option<StopRecord>, more: seq<Effect>)
    requires Became(a, b, id, anchor, stop, done) && Became(b, c, id, anchor', stop', more)
    ensures Became(a, c, id, anchor', stop', done + more)
  {
    assert Own(a.log, id) + done + more == Own(a.log, id) + (done + more);
  }

  lemma ApartThen(a: World, b: World, c: World, id: string)
    requires Apart(a, b, id) && Apart(b, c, id)
    ensures Apart(a, c, id)
  {}

  lemma DoBecomes(w: World, e: Effect, id: string)
    ensures e.id != id ==> Apart(w, Do(w, e), id)
    ensures !Do(w, e).crashed && e.id == id ==>
              Became(w, Do(w, e), id, AnchorAt(Change(w, e), id), StopAt(Change(w, e), id), [e])
  {
    assert (w.log + [e])[..|w.log|] == w.log;
    AnchorElsewhereToo(w, e, id);
  }

  lemma AnchorElsewhereToo(w: World, e: Effect, id: string)
    ensures e.id != id ==> AnchorAt(Do(w, e), id) == AnchorAt(w, id) && StopAt(Do(w, e), id) == StopAt(w, id)
  {}

  lemma FailApart(w: World, id: string)
    ensures Apart(w, Fail(w), id)
  {}

  lemma EscalateApart(w: World, cfg: Config, now: Time, other: string, fates: seq<Fate>, id: string)
    requires other != id
    ensures Apart(w, Escalate(w, cfg, now, other, fates), id)
  {
    var e := Evicted(other, if cfg.dryRun then 0 else Deletions(fates));
    var verdict := if cfg.dryRun then Settled(DRY_RUN) else Judge(Deletions(fates), LastRefusal(fates));
    DoBecomes(w, e, id);
    if verdict.Settled? {
      DoBecomes(Do(w, e), MarkEscalated(other, now, verdict.outcome), id);
      ApartThen(w, Do(w, e), Do(Do(w, e), MarkEscalated(other, now, verdict.outcome)), id);
    } else {
      FailApart(Do(w, e), id);
      ApartThen(w, Do(w, e), Fail(Do(w, e)), id);
    }
  }

  lemma DoTwoApart(w: World, e: Effect, f: Effect, id: string)
    requires e.id != id && f.id != id
    ensures Apart(w, Do(Do(w, e), f), id)
  {
    DoBecomes(w, e, id);
    DoBecomes(Do(w, e), f, id);
    ApartThen(w, Do(w, e), Do(Do(w, e), f), id);
  }

  lemma StopNowApart(w: World, cfg: Config, now: Time, other: string, fates: seq<Fate>, id: string)
    requires other != id
    ensures Apart(w, StopNow(w, cfg, now, other, fates), id)
  {
    var call := if cfg.dryRun then StopWithheld(other) else StopCall(other);
    var put := PutStop(other, StopRecord(now, if cfg.dryRun then DRY_RUN else ISSUED, None));
    var recorded := Do(Do(w, call), put);
    DoTwoApart(w, call, put, id);
    EscalateApart(recorded, cfg, now, other, fates, id);
    ApartThen(w, recorded, Escalate(recorded, cfg, now, other, fates), id);
  }

  lemma StopAgainApart(w: World, cfg: Config, now: Time, other: string, stop: StopRecord, fates: seq<Fate>, id: string)
    requires other != id
    ensures Apart(w, StopAgain(w, cfg, now, other, stop, fates), id)
  {
    var late := PutStop(other, StopRecord(stop.issuedAt, TIMEOUT, Some(now)));
    DoTwoApart(w, PutStop(other, StopRecord(stop.issuedAt, COMPLETED, stop.stoppedAt)), PruneStop(other), id);
    DoBecomes(w, late, id);
    EscalateApart(Do(w, late), cfg, now, other, fates, id);
    ApartThen(w, Do(w, late), Escalate(Do(w, late), cfg, now, other, fates), id);
  }

  lemma SoftStopApart(w: World, cfg: Config, other: string, r: SoftStopRecord, id: string)
    requires other != id
    ensures Apart(w, SoftStopNow(w, cfg, other, r), id)
  {
    DoTwoApart(w, if cfg.dryRun then SoftStopWithheld(other) else SoftStopCall(other),
               PutSoftStop(other, SoftStopRecord(r.issuedAt, if cfg.dryRun then DRY_RUN else ISSUED, None, None)), id);
  }

  lemma HandleApart(w: World, cfg: Config, now: Time, started: bool, other: string, r: SoftStopRecord, fates: seq<Fate>,
                    id: string)
    requires other != id
    ensures Apart(w, Handle(w, cfg, now, started, other, r, fates), id)
  {
    if !started {
      DoBecomes(w, ClearSoftStop(other), id);
    } else if SoftStopDue(r, cfg, now) {
      SoftStopApart(w, cfg, other, r, id);
    } else if r.outcome != ISSUED {
      EscalateApart(w, cfg, now, other, fates, id);
    } else if other in w.stopped {
      StopAgainApart(w, cfg, now, other, w.stopped[other], fates, id);
    } else {
      StopNowApart(w, cfg, now, other, fates, id);
    }
  }

  lemma {:induction false} HandleAllApart(w: World, snapshot: map<string, SoftStopRecord>, cfg: Config, now: Time,
                                          v: Views, order: seq<string>, id: string)
    requires (forall i :: 0 <= i < |order| ==> order[i] in snapshot) && id !in order
    ensures Apart(w, HandleAll(w, snapshot, cfg, now, v, order), id)
  {
    if order != [] {
      var front, other := order[..|order| - 1], order[|order| - 1];
      var mid := HandleAll(w, snapshot, cfg, now, v, front);
      HandleAllApart(w, snapshot, cfg, now, v, front, id);
      HandleApart(mid, cfg, now, StartedIn(v.listing, other), other, snapshot[other], FatesOf(v, other), id);
      ApartThen(w, mid, HandleAll(w, snapshot, cfg, now, v, order), id);
    }
  }

  /** The turn of an anchor: what comes before and after it is apart from it. */
  lemma {:induction false} TurnOf(w: World, snapshot: map<string, SoftStopRecord>, cfg: Config, now: Time,
                                  v: Views, order: seq<string>, id: string) returns (at: World)
    requires (forall i :: 0 <= i < |order| ==> order[i] in snapshot) && id in order && Distinct(order)
    ensures Apart(w, at, id)
    ensures Apart(Handle(at, cfg, now, StartedIn(v.listing, id), id, snapshot[id], FatesOf(v, id)),
                  HandleAll(w, snapshot, cfg, now, v, order), id)
  {
    var front, last := order[..|order| - 1], order[|order| - 1];
    var mid := HandleAll(w, snapshot, cfg, now, v, front);
    if last == id {
      at := mid;
      HandleAllApart(w, snapshot, cfg, now, v, front, id);
    } else {
      at := TurnOf(w, snapshot, cfg, now, v, front, id);
      HandleApart(mid, cfg, now, StartedIn(v.listing, last), last, snapshot[last], FatesOf(v, last), id);
      ApartThen(Handle(at, cfg, now, StartedIn(v.listing, id), id, snapshot[id], FatesOf(v, id)), mid,
                HandleAll(w, snapshot, cfg, now, v, order), id);
    }
  }

  // ---------------------------------------------------------------- one turn, by its inputs

  /** How the config has a call recorded. */
  function Tag(cfg: Config): string { if cfg.dryRun then "dry-run" else "issued" }

  /** A soft stop is due: still watching after the maximal duration. */
  predicate SoftDue(r: SoftStopRecord, cfg: Config, now: Time) {
    r.escalatedAt.None? && r.outcome == "watching" && now - r.issuedAt > cfg.maxDuration
  }

  /** The grace is over, and no soft stop is due. */
  predicate PastGrace(r: SoftStopRecord, cfg: Config, now: Time) {
    r.escalatedAt.None? && !SoftDue(r, cfg, now) && now - r.issuedAt > cfg.grace
  }

  /** A stop is due: a soft stop was issued, and no stop is recorded. */
  predicate StopDue(r: SoftStopRecord, stop: Option<StopRecord>, cfg: Config, now: Time) {
    PastGrace(r, cfg, now) && r.outcome == "issued" && stop.None?
  }

  /** The recorded stop has been waited for in vain for more than sixty seconds. */
  predicate TimedOut(r: SoftStopRecord, stop: Option<StopRecord>, cfg: Config, now: Time) {
    && PastGrace(r, cfg, now) && r.outcome == "issued"
    && stop.Some? && stop.value.stoppedAt.None? && now - stop.value.issuedAt > 60
  }

  /** The recorded stop has ended. */
  predicate Ended(r: SoftStopRecord, stop: Option<StopRecord>, cfg: Config, now: Time) {
    PastGrace(r, cfg, now) && r.outcome == "issued" && stop.Some? && stop.value.stoppedAt.Some?
  }

  /** The pods are to be evicted. */
  predicate Escalates(r: SoftStopRecord, stop: Option<StopRecord>, cfg: Config, now: Time) {
    PastGrace(r, cfg, now) && (r.outcome != "issued" || StopDue(r, stop, cfg, now) || TimedOut(r, stop, cfg, now))
  }

  /** What an escalation that does not raise is recorded as. */
  function EscalatedAs(cfg: Config, fates: seq<Fate>): string {
    if cfg.dryRun then "dry-run"
    else if fates == [] then "no-matching-pods"
    else if Refusals(fates) then "evicted-partial"
    else "evicted"
  }

  function AnchorAfter(r: SoftStopRecord, stop: Option<StopRecord>, cfg: Config, now: Time,
                       fates: seq<Fate>): SoftStopRecord {
    if SoftDue(r, cfg, now) then SoftStopRecord(r.issuedAt, Tag(cfg), None, None)
    else if Escalates(r, stop, cfg, now)
    then SoftStopRecord(r.issuedAt, r.outcome, Some(now), Some(EscalatedAs(cfg, fates)))
    else r
  }

  function StopAfter(r: SoftStopRecord, stop: Option<StopRecord>, cfg: Config, now: Time): Option<StopRecord> {
    if StopDue(r, stop, cfg, now) then Some(StopRecord(now, Tag(cfg), None))
    else if TimedOut(r, stop, cfg, now) then Some(StopRecord(stop.value.issuedAt, "timeout", Some(now)))
    else if Ended(r, stop, cfg, now) then None
    else stop
  }

  /** The soft stop comes before its record. */
  function SoftStopPart(r: SoftStopRecord, cfg: Config, now: Time, id: string): seq<Effect> {
    if !SoftDue(r, cfg, now) then []
    else [if cfg.dryRun then SoftStopWithheld(id) else SoftStopCall(id),
          PutSoftStop(id, SoftStopRecord(r.issuedAt, Tag(cfg), None, None))]
  }

  /** The stop comes before its record; a stop that has ended is recorded before it is dropped. */
  function StopPart(r: SoftStopRecord, stop: Option<StopRecord>, cfg: Config, now: Time, id: string): seq<Effect> {
    if StopDue(r, stop, cfg, now) then
      [if cfg.dryRun then StopWithheld(id) else StopCall(id), PutStop(id, StopRecord(now, Tag(cfg), None))]
    else if TimedOut(r, stop, cfg, now) then [PutStop(id, StopRecord(stop.value.issuedAt, "timeout", Some(now)))]
    else if Ended(r, stop, cfg, now) then
      [PutStop(id, StopRecord(stop.value.issuedAt, "completed", stop.value.stoppedAt)), PruneStop(id)]
    else []
  }

  /** The eviction comes before the mark. */
  function EvictionPart(r: SoftStopRecord, stop: Option<StopRecord>, cfg: Config, now: Time, id: string,
                        fates: seq<Fate>): seq<Effect> {
    if !Escalates(r, stop, cfg, now) then []
    else [Evicted(id, if cfg.dryRun then 0 else Deletions(fates)), MarkEscalated(id, now, EscalatedAs(cfg, fates))]
  }

  /** All of a turn. */
  function Parts(r: SoftStopRecord, stop: Option<StopRecord>, cfg: Config, now: Time, id: string,
                 fates: seq<Fate>): seq<Effect> {
    SoftStopPart(r, cfg, now, id) + StopPart(r, stop, cfg, now, id) + EvictionPart(r, stop, cfg, now, id, fates)
  }

  /** An escalation evicts and marks, or raises. */
  lemma EscalateIs(w: World, cfg: Config, now: Time, id: string, fates: seq<Fate>)
    requires !Escalate(w, cfg, now, id, fates).crashed
    ensures var tried := Do(w, Evicted(id, if cfg.dryRun then 0 else Deletions(fates)));
            Escalate(w, cfg, now, id, fates) == Do(tried, MarkEscalated(id, now, EscalatedAs(cfg, fates)))
  {
    OutcomeMeans(fates);
    FatesSplit(fates);
  }

  lemma EscalateBecomes(w: World, cfg: Config, now: Time, id: string, fates: seq<Fate>, r: SoftStopRecord)
    requires AnchorAt(w, id) == Some(r) && !Escalate(w, cfg, now, id, fates).crashed
    ensures var o := EscalatedAs(cfg, fates);
            Became(w, Escalate(w, cfg, now, id, fates), id,
                   Some(SoftStopRecord(r.issuedAt, r.outcome, Some(now), Some(o))),
                   StopAt(w, id), [Evicted(id, if cfg.dryRun then 0 else Deletions(fates)), MarkEscalated(id, now, o)])
  {
    var e, o := Evicted(id, if cfg.dryRun then 0 else Deletions(fates)), EscalatedAs(cfg, fates);
    var tried := Do(w, e);
    EscalateIs(w, cfg, now, id, fates);
    DoBecomes(w, e, id);
    DoBecomes(tried, MarkEscalated(id, now, o), id);
    BecameThen(w, tried, Do(tried, MarkEscalated(id, now, o)), id, Some(r), StopAt(w, id), [e],
               Some(SoftStopRecord(r.issuedAt, r.outcome, Some(now), Some(o))), StopAt(w, id),
               [MarkEscalated(id, now, o)]);
  }

  lemma DoTwoBecomes(w: World, e: Effect, f: Effect, id: string)
    requires e.id == id && f.id == id && !Do(Do(w, e), f).crashed
    ensures var after := Do(Do(w, e), f);
            Became(w, after, id, AnchorAt(after, id), StopAt(after, id), [e, f])
  {
    var mid, after := Do(w, e), Do(Do(w, e), f);
    DoBecomes(w, e, id);
    DoBecomes(mid, f, id);
    BecameThen(w, mid, after, id, AnchorAt(mid, id), StopAt(mid, id), [e], AnchorAt(after, id), StopAt(after, id), [f]);
  }

  lemma StopNowBecomes(w: World, cfg: Config, now: Time, id: string, fates: seq<Fate>, r: SoftStopRecord)
    requires AnchorAt(w, id) == Some(r) && !StopNow(w, cfg, now, id, fates).crashed
    ensures var o, stop := EscalatedAs(cfg, fates), StopRecord(now, Tag(cfg), None);
            Became(w, StopNow(w, cfg, now, id, fates), id,
                   Some(SoftStopRecord(r.issuedAt, r.outcome, Some(now), Some(o))), Some(stop),
                   [if cfg.dryRun then StopWithheld(id) else StopCall(id), PutStop(id, stop)]
                   + [Evicted(id, if cfg.dryRun then 0 else Deletions(fates)), MarkEscalated(id, now, o)])
  {
    var o, stop := EscalatedAs(cfg, fates), StopRecord(now, Tag(cfg), None);
    var call := if cfg.dryRun then StopWithheld(id) else StopCall(id);
    var recorded := Do(Do(w, call), PutStop(id, stop));
    EscalateBecomes(recorded, cfg, now, id, fates, r);
    DoTwoBecomes(w, call, PutStop(id, stop), id);
    BecameThen(w, recorded, Escalate(recorded, cfg, now, id, fates), id, Some(r), Some(stop), [call, PutStop(id, stop)],
               Some(SoftStopRecord(r.issuedAt, r.outcome, Some(now), Some(o))), Some(stop),
               [Evicted(id, if cfg.dryRun then 0 else Deletions(fates)), MarkEscalated(id, now, o)]);
  }

  lemma TimeOutBecomes(w: World, cfg: Config, now: Time, id: string, fates: seq<Fate>, r: SoftStopRecord,
                       stop: StopRecord)
    requires AnchorAt(w, id) == Some(r) && !Escalate(Do(w, PutStop(id, stop)), cfg, now, id, fates).crashed
    ensures var o := EscalatedAs(cfg, fates);
            Became(w, Escalate(Do(w, PutStop(id, stop)), cfg, now, id, fates), id,
                   Some(SoftStopRecord(r.issuedAt, r.outcome, Some(now), Some(o))), Some(stop), [PutStop(id, stop)]
                   + [Evicted(id, if cfg.dryRun then 0 else Deletions(fates)), MarkEscalated(id, now, o)])
  {
    var o, recorded := EscalatedAs(cfg, fates), Do(w, PutStop(id, stop));
    DoBecomes(w, PutStop(id, stop), id);
    EscalateBecomes(recorded, cfg, now, id, fates, r);
    BecameThen(w, recorded, Escalate(recorded, cfg, now, id, fates), id, Some(r), Some(stop), [PutStop(id, stop)],
               Some(SoftStopRecord(r.issuedAt, r.outcome, Some(now), Some(o))), Some(stop),
               [Evicted(id, if cfg.dryRun then 0 else Deletions(fates)), MarkEscalated(id, now, o)]);
  }

  /** What a turn that does not raise makes of a started analysis. */
  predicate Turned(w: World, after: World, cfg: Config, now: Time, id: string, r: SoftStopRecord, fates: seq<Fate>) {
    var stop := StopAt(w, id);
    Became(w, after, id, Some(AnchorAfter(r, stop, cfg, now, fates)), StopAfter(r, stop, cfg, now),
           Parts(r, stop, cfg, now, id, fates))
  }

  lemma EndedParts(r: SoftStopRecord, stop: StopRecord, cfg: Config, now: Time, id: string, fates: seq<Fate>)
    requires Ended(r, Some(stop), cfg, now)
    ensures AnchorAfter(r, Some(stop), cfg, now, fates) == r && StopAfter(r, Some(stop), cfg, now) == None
    ensures Parts(r, Some(stop), cfg, now, id, fates) ==
              [PutStop(id, StopRecord(stop.issuedAt, COMPLETED, stop.stoppedAt)), PruneStop(id)]
  {}

  lemma TimedOutParts(r: SoftStopRecord, stop: StopRecord, cfg: Config, now: Time, id: string, fates: seq<Fate>)
    requires TimedOut(r, Some(stop), cfg, now)
    ensures var o, late := EscalatedAs(cfg, fates), StopRecord(stop.issuedAt, "timeout", Some(now));
            && AnchorAfter(r, Some(stop), cfg, now, fates) == SoftStopRecord(r.issuedAt, r.outcome, Some(now), Some(o))
            && StopAfter(r, Some(stop), cfg, now) == Some(late)
            && Parts(r, Some(stop), cfg, now, id, fates) == [PutStop(id, late)]
                 + [Evicted(id, if cfg.dryRun then 0 else Deletions(fates)), MarkEscalated(id, now, o)]
  {}

  lemma WaitingParts(r: SoftStopRecord, stop: StopRecord, cfg: Config, now: Time, id: string, fates: seq<Fate>)
    requires PastGrace(r, cfg, now) && r.outcome == "issued" && stop.stoppedAt.None? && now - stop.issuedAt <= 60
    ensures AnchorAfter(r, Some(stop), cfg, now, fates) == r && StopAfter(r, Some(stop), cfg, now) == Some(stop)
    ensures Parts(r, Some(stop), cfg, now, id, fates) == []
  {}

  lemma StopDueParts(r: SoftStopRecord, cfg: Config, now: Time, id: string, fates: seq<Fate>)
    requires StopDue(r, None, cfg, now)
    ensures var o, stop := EscalatedAs(cfg, fates), StopRecord(now, Tag(cfg), None);
            && AnchorAfter(r, None, cfg, now, fates) == SoftStopRecord(r.issuedAt, r.outcome, Some(now), Some(o))
            && StopAfter(r, None, cfg, now) == Some(stop)
            && Parts(r, None, cfg, now, id, fates) ==
                 [if cfg.dryRun then StopWithheld(id) else StopCall(id), PutStop(id, stop)]
                 + [Evicted(id, if cfg.dryRun then 0 else Deletions(fates)), MarkEscalated(id, now, o)]
  {}

  lemma AgainTurned(w: World, cfg: Config, now: Time, id: string, r: SoftStopRecord, fates: seq<Fate>)
    requires AnchorAt(w, id) == Some(r) && PastGrace(r, cfg, now) && r.outcome == "issued" && id in w.stopped
    requires !StopAgain(w, cfg, now, id, w.stopped[id], fates).crashed
    ensures Turned(w, StopAgain(w, cfg, now, id, w.stopped[id], fates), cfg, now, id, r, fates)
  {
    var stop := w.stopped[id];
    if stop.stoppedAt.Some? {
      EndedParts(r, stop, cfg, now, id, fates);
      DoTwoBecomes(w, PutStop(id, StopRecord(stop.issuedAt, COMPLETED, stop.stoppedAt)), PruneStop(id), id);
    } else if now - stop.issuedAt > 60 {
      TimedOutParts(r, stop, cfg, now, id, fates);
      TimeOutBecomes(w, cfg, now, id, fates, r, StopRecord(stop.issuedAt, "timeout", Some(now)));
    } else {
      WaitingParts(r, stop, cfg, now, id, fates);
    }
  }

  lemma StopTurned(w: World, cfg: Config, now: Time, id: string, r: SoftStopRecord, fates: seq<Fate>)
    requires AnchorAt(w, id) == Some(r) && PastGrace(r, cfg, now) && r.outcome == "issued" && id !in w.stopped
    requires !StopNow(w, cfg, now, id, fates).crashed
    ensures Turned(w, StopNow(w, cfg, now, id, fates), cfg, now, id, r, fates)
  {
    StopDueParts(r, cfg, now, id, fates);
    StopNowBecomes(w, cfg, now, id, fates, r);
  }

  lemma SettleTurned(w: World, cfg: Config, now: Time, id: string, r: SoftStopRecord, fates: seq<Fate>)
    requires AnchorAt(w, id) == Some(r) && PastGrace(r, cfg, now) && !Settle(w, cfg, now, id, r, fates).crashed
    ensures Turned(w, Settle(w, cfg, now, id, r, fates), cfg, now, id, r, fates)
  {
    if r.outcome != "issued" {
      EscalateBecomes(w, cfg, now, id, fates, r);
    } else if id !in w.stopped {
      StopTurned(w, cfg, now, id, r, fates);
    } else {
      AgainTurned(w, cfg, now, id, r, fates);
    }
  }

  lemma HandleTurned(w: World, cfg: Config, now: Time, id: string, r: SoftStopRecord, fates: seq<Fate>)
    requires AnchorAt(w, id) == Some(r) && !Handle(w, cfg, now, true, id, r, fates).crashed
    ensures Turned(w, Handle(w, cfg, now, true, id, r, fates), cfg, now, id, r, fates)
  {
    if SoftDue(r, cfg, now) {
      DoTwoBecomes(w, if cfg.dryRun then SoftStopWithheld(id) else SoftStopCall(id),
                   PutSoftStop(id, SoftStopRecord(r.issuedAt, Tag(cfg), None, None)), id);
      NamesDiffer();
    } else if PastGrace(r, cfg, now) {
      SettleTurned(w, cfg, now, id, r, fates);
    }
  }

  // ---------------------------------------------------------------- the poll

  function FirstSight(now: Time): SoftStopRecord { SoftStopRecord(now, "watching", None, None) }

  /** First-sight writes of the analysis. */
  predicate Sightings(done: seq<Effect>, now: Time, id: string) {
    forall i :: 0 <= i < |done| ==> done[i] == PutSoftStop(id, FirstSight(now))
  }

  /** A started analysis is in some entry of the listing. */
  lemma StartedGrows(listing: seq<Seen>, id: string)
    requires listing != []
    ensures StartedIn(listing, id) <==>
              StartedIn(listing[..|listing| - 1], id) || (id != "" && listing[|listing| - 1] == Seen(id, true))
  {
    assert listing == listing[..|listing| - 1] + [listing[|listing| - 1]];
  }

  /** The first phase gives a started analysis without an anchor one, and does nothing else. */
  lemma {:induction false} AnchorAllBecomes(w: World, snapshot: set<string>, now: Time, listing: seq<Seen>, id: string)
    returns (puts: seq<Effect>)
    requires !AnchorAll(w, snapshot, now, listing).crashed
    ensures var first := id !in snapshot && StartedIn(listing, id);
            && Became(w, AnchorAll(w, snapshot, now, listing), id,
                      if first then Some(FirstSight(now)) else AnchorAt(w, id), StopAt(w, id), puts)
            && Sightings(puts, now, id) && (puts != [] <==> first)
  {
    puts := [];
    if listing != [] {
      var front, s := listing[..|listing| - 1], listing[|listing| - 1];
      StartedGrows(listing, id);
      puts := AnchorAllBecomes(w, snapshot, now, front, id);
      if s.id != "" && s.id !in snapshot && s.started {
        var mid, put := AnchorAll(w, snapshot, now, front), PutSoftStop(s.id, FirstSight(now));
        DoBecomes(mid, put, id);
        if s.id == id {
          BecameThen(w, mid, Do(mid, put), id, AnchorAt(mid, id), StopAt(w, id), puts, Some(FirstSight(now)),
                     StopAt(w, id), [put]);
          puts := puts + [put];
        } else {
          BecameThen(w, mid, Do(mid, put), id, AnchorAt(mid, id), StopAt(w, id), puts, AnchorAt(mid, id),
                     StopAt(w, id), []);
          assert puts + [] == puts;
        }
      }
    }
  }

  /** The anchor a poll works with: the recorded one, or one of first sight. */
  function AnchorFor(w: World, now: Time, v: Views, id: string): Option<SoftStopRecord> {
    if id in w.softStops then Some(w.softStops[id])
    else if StartedIn(v.listing, id) then Some(FirstSight(now))
    else None
  }

  /** What a completed poll makes of an analysis, by its inputs. */
  ghost predicate PolledAs(w: World, after: World, cfg: Config, now: Time, v: Views, id: string, puts: seq<Effect>) {
    var r, stop := AnchorFor(w, now, v, id), StopAt(w, id);
    if r.None? then Apart(w, after, id)
    else if !StartedIn(v.listing, id) then Became(w, after, id, None, stop, [ClearSoftStop(id)])
    else
      Became(w, after, id, Some(AnchorAfter(r.value, stop, cfg, now, FatesOf(v, id))),
             StopAfter(r.value, stop, cfg, now),
             puts + Parts(r.value, stop, cfg, now, id, FatesOf(v, id)))
  }

  lemma {:induction false} CrashLasts(w: World, snapshot: map<string, SoftStopRecord>, cfg: Config, now: Time, v: Views,
                                      order: seq<string>)
    requires forall i :: 0 <= i < |order| ==> order[i] in snapshot
    ensures w.crashed ==> HandleAll(w, snapshot, cfg, now, v, order).crashed
  {
    if order != [] {
      var front, id := order[..|order| - 1], order[|order| - 1];
      CrashLasts(w, snapshot, cfg, now, v, front);
      HandleApart(HandleAll(w, snapshot, cfg, now, v, front), cfg, now, StartedIn(v.listing, id), id, snapshot[id],
                  FatesOf(v, id), id + "'");
    }
  }

  lemma ApartKeeps(a: World, b: World, c: World, id: string, anchor: Option<SoftStopRecord>, stop: Option<StopRecord>,
                   done: seq<Effect>)
    requires Became(a, b, id, anchor, stop, done) && Apart(b, c, id)
    ensures Became(a, c, id, anchor, stop, done)
  {
    assert done + [] == done;
  }

  /** The turn of an anchored analysis inside the poll. */
  lemma PollTurn(w: World, a: World, cfg: Config, now: Time, v: Views, id: string, r: SoftStopRecord,
                 puts: seq<Effect>)
    requires ValidViews(w, now, v) && a == Anchored(w, now, v) && cfg.autoSoftStop && !Tick(w, cfg, now, v).crashed
    requires Became(w, a, id, Some(r), StopAt(w, id), puts) && AnchorFor(w, now, v, id) == Some(r)
    requires !StartedIn(v.listing, id) ==> puts == []
    ensures PolledAs(w, Tick(w, cfg, now, v), cfg, now, v, id, puts)
  {
    assert id in Elements(v.order) && forall i :: 0 <= i < |v.order| ==> v.order[i] in Elements(v.order);
    var at := TurnOf(a, a.softStops, cfg, now, v, v.order, id);
    var done := Handle(at, cfg, now, StartedIn(v.listing, id), id, r, FatesOf(v, id));
    ApartKeeps(w, a, at, id, Some(r), StopAt(w, id), puts);
    if StartedIn(v.listing, id) {
      HandleTurned(at, cfg, now, id, r, FatesOf(v, id));
      BecameThen(w, at, done, id, Some(r), StopAt(w, id), puts, AnchorAt(done, id), StopAt(done, id),
                 Parts(r, StopAt(w, id), cfg, now, id, FatesOf(v, id)));
    } else {
      DoBecomes(at, ClearSoftStop(id), id);
      BecameThen(w, at, done, id, Some(r), StopAt(w, id), [], None, StopAt(w, id), [ClearSoftStop(id)]);
    }
    ApartPolled(w, done, Tick(w, cfg, now, v), cfg, now, v, id, puts);
  }

  lemma ApartPolled(w: World, b: World, c: World, cfg: Config, now: Time, v: Views, id: string, puts: seq<Effect>)
    requires PolledAs(w, b, cfg, now, v, id, puts) && Apart(b, c, id)
    ensures PolledAs(w, c, cfg, now, v, id, puts)
  {}

  /** A completed poll of an active monitor, for any analysis. One that is neither anchored nor started is
      left alone. One that is anchored and not started loses its anchor. A started one gets an anchor at
      first sight, and then its turn. */
  lemma PollOutcome(w: World, cfg: Config, now: Time, v: Views, id: string) returns (puts: seq<Effect>)
    requires ValidViews(w, now, v) && cfg.autoSoftStop && !Tick(w, cfg, now, v).crashed
    ensures PolledAs(w, Tick(w, cfg, now, v), cfg, now, v, id, puts) && Sightings(puts, now, id)
  {
    var a := Anchored(w, now, v);
    assert forall i :: 0 <= i < |v.order| ==> v.order[i] in Elements(v.order);
    CrashLasts(a, a.softStops, cfg, now, v, v.order);
    puts := AnchorAllBecomes(w, w.softStops.Keys, now, v.listing, id);
    if AnchorFor(w, now, v, id).Some? {
      PollTurn(w, a, cfg, now, v, id, AnchorFor(w, now, v, id).value, puts);
    } else {
      HandleAllApart(a, a.softStops, cfg, now, v, v.order, id);
      ApartThen(w, a, Tick(w, cfg, now, v), id);
    }
  }

  // ---------------------------------------------------------------- guards, as they are read off the log

  /** The effect was logged since `w`. */
  predicate Logged(w: World, after: World, e: Effect) {
    exists i :: |w.log| <= i < |after.log| && after.log[i] == e
  }

  lemma {:induction false} OwnSplit(log: seq<Effect>, more: seq<Effect>, id: string)
    ensures Own(log + more, id) == Own(log, id) + Own(more, id)
  {
    if more == [] {
      assert log + more == log;
    } else {
      var front, e := more[..|more| - 1], more[|more| - 1];
      OwnSplit(log, front, id);
      assert (log + more)[..|log + more| - 1] == log + front;
    }
  }

  lemma {:induction false} OwnHas(log: seq<Effect>, e: Effect)
    ensures e in Own(log, e.id) <==> e in log
  {
    if log != [] {
      OwnHas(log[..|log| - 1], e);
      assert log == log[..|log| - 1] + [log[|log| - 1]];
    }
  }

  lemma LoggedIff(w: World, after: World, e: Effect, anchor: Option<SoftStopRecord>, stop: Option<StopRecord>,
                  done: seq<Effect>)
    requires Grows(w, after) && Became(w, after, e.id, anchor, stop, done)
    ensures Logged(w, after, e) <==> e in done
  {
    var more := after.log[|w.log|..];
    assert after.log == w.log + more;
    OwnSplit(w.log, more, e.id);
    assert Own(more, e.id) == done by {
      assert (Own(w.log, e.id) + done)[|Own(w.log, e.id)|..] == done;
      assert (Own(w.log, e.id) + Own(more, e.id))[|Own(w.log, e.id)|..] == Own(more, e.id);
    }
    OwnHas(more, e);
    assert forall i :: 0 <= i < |more| ==> more[i] == after.log[|w.log| + i];
    if Logged(w, after, e) {
      var i :| |w.log| <= i < |after.log| && after.log[i] == e;
      assert more[i - |w.log|] == e;
    }
  }

  /** The analysis is started, and the active monitor works with this anchor. */
  predicate Attends(w: World, s: Step, id: string, r: SoftStopRecord)
    requires s.Poll?
  {
    s.cfg.autoSoftStop && StartedIn(s.views.listing, id) && AnchorFor(w, s.now, s.views, id) == Some(r)
  }

  /** The effects of a completed poll that are not first-sight writes. */
  lemma Deeds(w: World, s: Step, after: World, e: Effect)
    requires s.Poll? && Next(w, s, after) && !after.crashed && e != PutSoftStop(e.id, FirstSight(s.now))
    ensures var id := e.id;
            var r, stop := AnchorFor(w, s.now, s.views, id), StopAt(w, id);
            Logged(w, after, e) <==>
              && s.cfg.autoSoftStop && r.Some?
              && if !StartedIn(s.views.listing, id) then e == ClearSoftStop(id)
                 else || e in SoftStopPart(r.value, s.cfg, s.now, id)
                      || e in StopPart(r.value, stop, s.cfg, s.now, id)
                      || e in EvictionPart(r.value, stop, s.cfg, s.now, id, FatesOf(s.views, id))
  {
    var start := Start(w, s.fuel);
    if s.cfg.autoSoftStop {
      DryRunStopsNothing(w, s);
      var r, stop := AnchorFor(w, s.now, s.views, e.id), StopAt(w, e.id);
      var puts := PollOutcome(start, s.cfg, s.now, s.views, e.id);
      if r.None? {
        LoggedIff(start, after, e, None, stop, []);
      } else if !StartedIn(s.views.listing, e.id) {
        LoggedIff(start, after, e, None, stop, [ClearSoftStop(e.id)]);
      } else {
        LoggedIff(start, after, e, AnchorAt(after, e.id), StopAt(after, e.id),
                  puts + Parts(r.value, stop, s.cfg, s.now, e.id, FatesOf(s.views, e.id)));
      }
    }
  }

  /** The records that a completed poll leaves. */
  lemma RecordsLeft(w: World, s: Step, after: World, id: string)
    requires s.Poll? && Next(w, s, after) && !after.crashed
    ensures !s.cfg.autoSoftStop ==> AnchorAt(after, id) == AnchorAt(w, id) && StopAt(after, id) == StopAt(w, id)
    ensures s.cfg.autoSoftStop && !StartedIn(s.views.listing, id) ==>
              AnchorAt(after, id) == None && StopAt(after, id) == StopAt(w, id)
    ensures forall r :: Attends(w, s, id, r) ==>
              && AnchorAt(after, id) == Some(AnchorAfter(r, StopAt(w, id), s.cfg, s.now, FatesOf(s.views, id)))
              && StopAt(after, id) == StopAfter(r, StopAt(w, id), s.cfg, s.now)
  {
    if s.cfg.autoSoftStop { var puts := PollOutcome(Start(w, s.fuel), s.cfg, s.now, s.views, id); }
  }

  /** The guard of the soft stop, for every completed poll: it is sent exactly when the monitor is active
      and live and the analysis is started, watching, unescalated and more than the maximal duration old;
      under dry-run it is withheld exactly then. The record then says which it was and keeps its origin. */
  lemma SoftStopGuard(w: World, s: Step, after: World, id: string)
    requires s.Poll? && Next(w, s, after) && !after.crashed
    ensures var due := exists r :: Attends(w, s, id, r) && SoftDue(r, s.cfg, s.now);
            && (Logged(w, after, SoftStopCall(id)) <==> due && !s.cfg.dryRun)
            && (Logged(w, after, SoftStopWithheld(id)) <==> due && s.cfg.dryRun)
    ensures forall r :: Attends(w, s, id, r) && SoftDue(r, s.cfg, s.now) ==>
              AnchorAt(after, id) ==
                Some(SoftStopRecord(r.issuedAt, if s.cfg.dryRun then "dry-run" else "issued", None, None))
  {
    Deeds(w, s, after, SoftStopCall(id));
    Deeds(w, s, after, SoftStopWithheld(id));
    RecordsLeft(w, s, after, id);
  }

  /** The guard of the stop, likewise: sent or withheld exactly when the soft stop was issued, the grace is
      over and no stop is recorded. A recorded stop is dropped once it has ended, is timed out after more
      than sixty seconds, and stands otherwise. */
  lemma StopSendGuard(w: World, s: Step, after: World, id: string)
    requires s.Poll? && Next(w, s, after) && !after.crashed
    ensures var due := exists r :: Attends(w, s, id, r) && StopDue(r, StopAt(w, id), s.cfg, s.now);
            && (Logged(w, after, StopCall(id)) <==> due && !s.cfg.dryRun)
            && (Logged(w, after, StopWithheld(id)) <==> due && s.cfg.dryRun)
            && (due ==>
                  StopAt(after, id) == Some(StopRecord(s.now, if s.cfg.dryRun then "dry-run" else "issued", None)))
    ensures forall r :: Attends(w, s, id, r) && id in w.stopped ==>
              StopAt(after, id) ==
                if Ended(r, StopAt(w, id), s.cfg, s.now) then None
                else if TimedOut(r, StopAt(w, id), s.cfg, s.now)
                then Some(StopRecord(w.stopped[id].issuedAt, "timeout", Some(s.now)))
                else StopAt(w, id)
  {
    Deeds(w, s, after, StopCall(id));
    Deeds(w, s, after, StopWithheld(id));
    RecordsLeft(w, s, after, id);
  }

  /** The guard of the escalation: a completed poll marks an analysis exactly when it is started and
      unescalated, no soft stop is due, the grace is over, and it is not waiting for a stop: its soft stop
      was never issued, or the stop is sent in this poll, or timed out. It marks it once with the time and
      with what became of the pods, and deletes pods exactly then, and none under dry-run. */
  lemma EscalationGuard(w: World, s: Step, after: World, id: string, at: Time, outcome: string, pods: nat)
    requires s.Poll? && Next(w, s, after) && !after.crashed
    ensures var due := exists r :: Attends(w, s, id, r) && Escalates(r, StopAt(w, id), s.cfg, s.now);
            && (Logged(w, after, MarkEscalated(id, at, outcome)) <==>
                  due && at == s.now && outcome == EscalatedAs(s.cfg, FatesOf(s.views, id)))
            && (Logged(w, after, Evicted(id, pods)) <==>
                  due && pods == if s.cfg.dryRun then 0 else Deletions(FatesOf(s.views, id)))
    ensures forall r :: Attends(w, s, id, r) && Escalates(r, StopAt(w, id), s.cfg, s.now) ==>
              AnchorAt(after, id) ==
                Some(SoftStopRecord(r.issuedAt, r.outcome, Some(s.now), Some(EscalatedAs(s.cfg, FatesOf(s.views, id)))))
  {
    Deeds(w, s, after, MarkEscalated(id, at, outcome));
    Deeds(w, s, after, Evicted(id, pods));
    RecordsLeft(w, s, after, id);
  }

  /** The life of an anchor: a completed poll of an active monitor drops it exactly when the analysis is
      not started any more, gives a started one without an anchor one of now, and otherwise leaves it
      alone, unless a soft stop or an escalation is due. */
  lemma AnchorGuard(w: World, s: Step, after: World, id: string)
    requires s.Poll? && Next(w, s, after) && !after.crashed && s.cfg.autoSoftStop
    requires 0 <= s.cfg.maxDuration && 0 <= s.cfg.grace
    ensures id in after.softStops <==> StartedIn(s.views.listing, id)
    ensures Logged(w, after, ClearSoftStop(id)) <==> id in w.softStops && !StartedIn(s.views.listing, id)
    ensures id !in w.softStops && StartedIn(s.views.listing, id) ==>
              after.softStops[id] == SoftStopRecord(s.now, "watching", None, None) && StopAt(after, id) == StopAt(w, id)
    ensures id in w.softStops && id in after.softStops && after.softStops[id] != w.softStops[id] ==>
              SoftDue(w.softStops[id], s.cfg, s.now) || Escalates(w.softStops[id], StopAt(w, id), s.cfg, s.now)
  {
    Deeds(w, s, after, ClearSoftStop(id));
    RecordsLeft(w, s, after, id);
    if StartedIn(s.views.listing, id) {
      var r := AnchorFor(w, s.now, s.views, id).value;
      assert Attends(w, s, id, r);
    }
  }
}
