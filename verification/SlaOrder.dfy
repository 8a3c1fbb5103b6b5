/** The order of soft stop, stop and escalation, and what decides an escalation. */
module SlaOrder {
  import opened Basics
  import opened Ordering
  import opened Records
  import opened Sla
  import opened SlaRuns

  /** Handling an anchor like this does nothing of the kind. */
  predicate Skips(cfg: Config, now: Time, r: SoftStopRecord, kind: Kind) {
    match kind
    case Softs => !SoftStopDue(r, cfg, now)
    case Stops => r.outcome != ISSUED
    case Escalations => SoftStopDue(r, cfg, now) || now - r.issuedAt <= cfg.grace
  }

  predicate SameCount(w: World, after: World, id: string, kind: Kind) {
    Count(after.log, id, kind) == Count(w.log, id, kind)
  }

  lemma DoSame(w: World, e: Effect, id: string, kind: Kind)
    requires !IsKind(e, id, kind)
    ensures SameCount(w, Do(w, e), id, kind)
  {
    DoCount(w, e, id, kind);
  }

  lemma EscalateSame(w: World, cfg: Config, now: Time, id: string, fates: seq<Fate>, kind: Kind)
    requires kind != Escalations
    ensures SameCount(w, Escalate(w, cfg, now, id, fates), id, kind)
  {
    var e := Evicted(id, if cfg.dryRun then 0 else Deletions(fates));
    var verdict := if cfg.dryRun then Settled(DRY_RUN) else Judge(Deletions(fates), LastRefusal(fates));
    DoSame(w, e, id, kind);
    if verdict.Settled? { DoSame(Do(w, e), MarkEscalated(id, now, verdict.outcome), id, kind); }
  }

  lemma SettleSame(w: World, cfg: Config, now: Time, id: string, r: SoftStopRecord, fates: seq<Fate>, kind: Kind)
    requires kind == Softs || (kind == Stops && r.outcome != ISSUED)
    ensures SameCount(w, Settle(w, cfg, now, id, r, fates), id, kind)
  {
    if r.outcome != ISSUED {
      EscalateSame(w, cfg, now, id, fates, kind);
    } else if id in w.stopped {
      var stop := w.stopped[id];
      var put := PutStop(id, if stop.stoppedAt.Some? then StopRecord(stop.issuedAt, COMPLETED, stop.stoppedAt)
                         else StopRecord(stop.issuedAt, TIMEOUT, Some(now)));
      DoSame(w, put, id, kind);
      DoSame(Do(w, put), PruneStop(id), id, kind);
      EscalateSame(Do(w, put), cfg, now, id, fates, kind);
    } else {
      var call := if cfg.dryRun then StopWithheld(id) else StopCall(id);
      var put := PutStop(id, StopRecord(now, if cfg.dryRun then DRY_RUN else ISSUED, None));
      DoSame(w, call, id, kind);
      DoSame(Do(w, call), put, id, kind);
      EscalateSame(Do(Do(w, call), put), cfg, now, id, fates, kind);
    }
  }

  lemma SoftStopNowSame(w: World, cfg: Config, id: string, r: SoftStopRecord, kind: Kind)
    requires kind != Softs
    ensures SameCount(w, SoftStopNow(w, cfg, id, r), id, kind)
  {
    var call := if cfg.dryRun then SoftStopWithheld(id) else SoftStopCall(id);
    DoSame(w, call, id, kind);
    DoSame(Do(w, call), PutSoftStop(id, SoftStopRecord(r.issuedAt, if cfg.dryRun then DRY_RUN else ISSUED, None, None)),
           id, kind);
  }

  lemma HandleSame(w: World, cfg: Config, now: Time, started: bool, id: string, r: SoftStopRecord, fates: seq<Fate>,
                   kind: Kind)
    requires Skips(cfg, now, r, kind)
    ensures SameCount(w, Handle(w, cfg, now, started, id, r, fates), id, kind)
  {
    if !started {
      DoSame(w, ClearSoftStop(id), id, kind);
    } else if SoftStopDue(r, cfg, now) {
      SoftStopNowSame(w, cfg, id, r, kind);
    } else if now - r.issuedAt > cfg.grace {
      SettleSame(w, cfg, now, id, r, fates, kind);
    }
  }

  lemma {:induction false} AnchorAllSame(w: World, snapshot: set<string>, now: Time, listing: seq<Seen>, id: string,
                                         kind: Kind)
    ensures SameCount(w, AnchorAll(w, snapshot, now, listing), id, kind)
  {
    if listing != [] {
      var front, s := listing[..|listing| - 1], listing[|listing| - 1];
      AnchorAllSame(w, snapshot, now, front, id, kind);
      DoSame(AnchorAll(w, snapshot, now, front), PutSoftStop(s.id, SoftStopRecord(now, WATCHING, None, None)), id,
             kind);
    }
  }

  lemma SameCountPreserved(w: World, id: string, kind: Kind, other: string)
    requires other != id
    ensures Preserved(u => SameCount(w, u, id, kind), other)
  {
    forall u: World, e: Effect | SameCount(w, u, id, kind) && e.id == other
      ensures SameCount(w, Do(u, e), id, kind)
    {
      DoSame(u, e, id, kind);
    }
  }

  /** A tick does nothing of the kind to an analysis whose anchor, after first sight, rules it out. */
  lemma TickSame(w: World, cfg: Config, now: Time, v: Views, id: string, kind: Kind)
    requires ValidViews(w, now, v) && AllPaired(w)
    requires id in Anchored(w, now, v).softStops ==> Skips(cfg, now, Anchored(w, now, v).softStops[id], kind)
    ensures SameCount(w, Tick(w, cfg, now, v), id, kind)
  {
    var a := Anchored(w, now, v);
    var same := (u: World) => SameCount(w, u, id, kind);
    AnchorAllSame(w, w.softStops.Keys, now, v.listing, id, kind);
    AnchoredPaired(w, now, v);
    assert forall i :: 0 <= i < |v.order| ==> v.order[i] in Elements(v.order);
    forall x | x != id ensures Preserved(same, x) { SameCountPreserved(w, id, kind, x); }
    if id in a.softStops {
      assert id in Elements(v.order);
      var started, r, fates := StartedIn(v.listing, id), a.softStops[id], FatesOf(v, id);
      forall u | same(u)
        ensures same(Handle(u, cfg, now, started, id, r, fates))
      {
        HandleSame(u, cfg, now, started, id, r, fates, kind);
      }
      HandleAllAt(a, a.softStops, cfg, now, v, v.order, id, same, same);
    } else {
      assert id !in Elements(v.order);
      HandleAllKeeps(a, a.softStops, cfg, now, v, v.order, same);
    }
  }

  /** The anchor as the second phase finds it: as it was, or freshly watching. */
  lemma AnchorFound(w: World, now: Time, v: Views, id: string)
    requires id in Anchored(w, now, v).softStops
    ensures AnchorAt(Anchored(w, now, v), id) == AnchorAt(w, id) ||
            Anchored(w, now, v).softStops[id] == SoftStopRecord(now, WATCHING, None, None)
  {
    AnchorAllAt(w, now, v.listing, id);
  }

  predicate Did(worlds: seq<World>, i: nat, id: string, kind: Kind)
    requires i + 1 < |worlds|
  {
    Count(worlds[i].log, id, kind) < Count(worlds[i + 1].log, id, kind)
  }

  lemma StopNeedsIssued(w: World, cfg: Config, now: Time, v: Views, id: string)
    requires ValidViews(w, now, v) && AllPaired(w) && !SameCount(w, Tick(w, cfg, now, v), id, Stops)
    ensures id in w.softStops && w.softStops[id].outcome == ISSUED
  {
    OutcomesDiffer();
    if id in Anchored(w, now, v).softStops { AnchorFound(w, now, v, id); }
    if !(id in w.softStops && w.softStops[id].outcome == ISSUED) { TickSame(w, cfg, now, v, id, Stops); }
  }

  lemma StepDoes(w: World, s: Step, after: World, id: string, kind: Kind)
    requires Next(w, s, after) && !SameCount(w, after, id, kind)
    ensures s.Poll?
  {
    if s.PruneAnchor? { DoSame(Start(w, 1), ClearSoftStop(s.id), id, kind); }
    if s.PruneStopRecord? { DoSame(Start(w, 1), PruneStop(s.id), id, kind); }
  }

  /** A stop comes in a strictly later tick than a real soft stop for the same anchor. */
  lemma StopFollowsSoftStop(worlds: seq<World>, steps: seq<Step>, i: nat, id: string)
    requires IsRun(worlds, steps) && i < |steps| && Did(worlds, i, id, Stops)
    ensures Sent(worlds[i].log, id, true)
  {
    RunSound(worlds, steps, i);
    NextAt(worlds, steps, i);
    StepDoes(worlds[i], steps[i], worlds[i + 1], id, Stops);
    StopNeedsIssued(Start(worlds[i], steps[i].fuel), steps[i].cfg, steps[i].now, steps[i].views, id);
  }

  // ---------------------------------------------------------------- escalation without a soft stop

  predicate Uses(steps: seq<Step>, maxDuration: Time, grace: Time) {
    forall i :: 0 <= i < |steps| && steps[i].Poll? ==>
          steps[i].cfg.maxDuration == maxDuration && steps[i].cfg.grace == grace
  }

  /** In every run under these limits, an escalation comes in a later tick than a soft stop,
      real or withheld, for the same anchor. */
  ghost predicate EscalationsFollow(maxDuration: Time, grace: Time) {
    forall worlds: seq<World>, steps: seq<Step>, i: nat, id: string ::
      IsRun(worlds, steps) && Uses(steps, maxDuration, grace) && i < |steps| && Did(worlds, i, id, Escalations) ==>
            Sent(worlds[i].log, id, false)
  }

  lemma EscalationNeedsSoftStop(w: World, cfg: Config, now: Time, v: Views, id: string)
    requires ValidViews(w, now, v) && AllPaired(w) && 0 <= cfg.maxDuration <= cfg.grace
    requires !SameCount(w, Tick(w, cfg, now, v), id, Escalations)
    ensures id in w.softStops && w.softStops[id].outcome != WATCHING
  {
    if id in Anchored(w, now, v).softStops { AnchorFound(w, now, v, id); }
    if !(id in w.softStops && w.softStops[id].outcome != WATCHING) { TickSame(w, cfg, now, v, id, Escalations); }
  }

  lemma SentWeakens(log: seq<Effect>, id: string, live: bool)
    requires Sent(log, id, live)
    ensures Sent(log, id, false)
  {}

  /** Whatever the limits were before, an escalation by a poll whose grace is no shorter than its maximum
      duration comes in a later tick than a soft stop, real or withheld, for the same anchor. */
  lemma EscalationFollows(worlds: seq<World>, steps: seq<Step>, i: nat, id: string)
    requires IsRun(worlds, steps) && i < |steps| && Did(worlds, i, id, Escalations)
    requires steps[i].Poll? ==> 0 <= steps[i].cfg.maxDuration <= steps[i].cfg.grace
    ensures Sent(worlds[i].log, id, false)
  {
    var w, s := worlds[i], steps[i];
    RunSound(worlds, steps, i);
    NextAt(worlds, steps, i);
    StepDoes(w, s, worlds[i + 1], id, Escalations);
    EscalationNeedsSoftStop(Start(w, s.fuel), s.cfg, s.now, s.views, id);
    SentWeakens(w.log, id, w.softStops[id].outcome == ISSUED);
  }

  /** One started analysis, whose worker pods meet these fates. */
  function Lone(id: string, fates: seq<Fate>): Views { Views([Seen(id, true)], [id], map[id := fates]) }

  const BLANK := World(map[], map[], [], 0, false)

  function Watched(id: string): World {
    var anchor := SoftStopRecord(0, WATCHING, None, None);
    World(map[id := anchor], map[], [PutSoftStop(id, anchor)], 0, false)
  }

  lemma LoneViews(w: World, now: Time, id: string, fates: seq<Fate>)
    requires id != "" && (w.softStops == map[] || w.softStops.Keys == {id})
    ensures var a := Anchored(w, now, Lone(id, fates));
            a == if id in w.softStops then w else Do(w, PutSoftStop(id, SoftStopRecord(now, WATCHING, None, None)))
  {
    assert [Seen(id, true)][..0] == [];
    assert AnchorAll(w, w.softStops.Keys, now, []) == w;
  }

  lemma LoneTick(w: World, cfg: Config, now: Time, id: string, fates: seq<Fate>)
    requires id != "" && cfg.autoSoftStop && Anchored(w, now, Lone(id, fates)).softStops.Keys == {id}
    ensures ValidViews(w, now, Lone(id, fates))
    ensures var a := Anchored(w, now, Lone(id, fates));
            Tick(w, cfg, now, Lone(id, fates)) == Handle(a, cfg, now, true, id, a.softStops[id], fates)
  {
    var a := Anchored(w, now, Lone(id, fates));
    assert Elements([id]) == {id};
    assert [id][..0] == [];
    assert HandleAll(a, a.softStops, cfg, now, Lone(id, fates), []) == a;
    assert Seen(id, true) in Lone(id, fates).listing;
  }

  lemma FirstSight(cfg: Config, id: string)
    requires id != "" && cfg.autoSoftStop && 0 <= cfg.maxDuration && 0 <= cfg.grace
    ensures Next(BLANK, Poll(cfg, 0, Lone(id, []), 1), Watched(id))
  {
    LoneViews(Start(BLANK, 1), 0, id, []);
    LoneTick(Start(BLANK, 1), cfg, 0, id, []);
  }

  /** A watched anchor whose grace has run out is escalated. */
  lemma GraceRunsOut(cfg: Config, id: string, fates: seq<Fate>) returns (after: World)
    requires id != "" && cfg.autoSoftStop && 0 <= cfg.grace < cfg.maxDuration
    ensures Next(Watched(id), Poll(cfg, cfg.grace + 1, Lone(id, fates), 2), after)
    ensures after == Escalate(Start(Watched(id), 2), cfg, cfg.grace + 1, id, fates)
  {
    OutcomesDiffer();
    var w := Start(Watched(id), 2);
    var now := cfg.grace + 1;
    LoneViews(w, now, id, fates);
    LoneTick(w, cfg, now, id, fates);
    after := Tick(w, cfg, now, Lone(id, fates));
  }

  lemma EscalatedWatched(cfg: Config, id: string, fates: seq<Fate>, outcome: string)
    requires !cfg.dryRun && Judge(Deletions(fates), LastRefusal(fates)) == Settled(outcome)
    ensures var after := Escalate(Start(Watched(id), 2), cfg, cfg.grace + 1, id, fates);
            && after.log ==
                 Watched(id).log + [Evicted(id, Deletions(fates))] + [MarkEscalated(id, cfg.grace + 1, outcome)]
            && id in after.softStops && after.softStops[id].escalationOutcome == Some(outcome) && !after.crashed
  {}

  lemma TwoSteps(w: World, after: World, first: Step, second: Step)
    requires Next(BLANK, first, w) && Next(w, second, after)
    ensures IsRun([BLANK, w, after], [first, second])
  {}

  /** First sight, then an escalation in which the worker pods meet these fates. */
  lemma UnwarnedRun(cfg: Config, id: string, fates: seq<Fate>, outcome: string)
    returns (worlds: seq<World>, steps: seq<Step>)
    requires id != "" && cfg.autoSoftStop && 0 <= cfg.grace < cfg.maxDuration && !cfg.dryRun
    requires Judge(Deletions(fates), LastRefusal(fates)) == Settled(outcome)
    ensures IsRun(worlds, steps) && |steps| == 2 && Uses(steps, cfg.maxDuration, cfg.grace)
    ensures steps[1].Poll? && FatesOf(steps[1].views, id) == fates && worlds[1].log == Watched(id).log
    ensures worlds[2].log ==
              worlds[1].log + [Evicted(id, Deletions(fates))] + [MarkEscalated(id, cfg.grace + 1, outcome)]
    ensures id in worlds[2].softStops && worlds[2].softStops[id].escalationOutcome == Some(outcome) &&
            !worlds[2].crashed
  {
    FirstSight(cfg, id);
    var after := GraceRunsOut(cfg, id, fates);
    EscalatedWatched(cfg, id, fates, outcome);
    var first, second := Poll(cfg, 0, Lone(id, []), 1), Poll(cfg, cfg.grace + 1, Lone(id, fates), 2);
    TwoSteps(Watched(id), after, first, second);
    worlds, steps := [BLANK, Watched(id), after], [first, second];
  }

  /** Under any limits with grace below the maximum, which are the only ones that the CRD admits,
      a started analysis is escalated when its grace runs out, no soft stop having been sent. */
  lemma EscalatedUnwarned(maxDuration: Time, grace: Time, id: string)
    requires 0 <= grace < maxDuration && id != ""
    ensures exists worlds: seq<World>, steps: seq<Step> ::
              && IsRun(worlds, steps) && Uses(steps, maxDuration, grace) && |steps| == 2
              && Did(worlds, 1, id, Escalations) && !Sent(worlds[1].log, id, false)
  {
    var worlds, steps := UnwarnedRun(Config(true, maxDuration, grace, false), id, [], NO_MATCH);
    MarkCounts(Watched(id).log, id, grace + 1);
    assert Did(worlds, 1, id, Escalations);
  }

  lemma MarkCounts(log: seq<Effect>, id: string, at: Time)
    ensures Count(log + [Evicted(id, 0)] + [MarkEscalated(id, at, NO_MATCH)], id, Escalations) ==
              Count(log, id, Escalations) + 1
  {
    var more := log + [Evicted(id, 0)];
    assert more[..|log|] == log;
    assert (more + [MarkEscalated(id, at, NO_MATCH)])[..|more|] == more;
  }

  /** Escalations follow a soft stop exactly when the grace is no shorter than the maximum duration. */
  lemma EscalationOrder(maxDuration: Time, grace: Time)
    requires 0 <= maxDuration && 0 <= grace
    ensures EscalationsFollow(maxDuration, grace) <==> maxDuration <= grace
  {
    if maxDuration <= grace {
      forall worlds: seq<World>, steps: seq<Step>, i: nat, id: string |
        IsRun(worlds, steps) && Uses(steps, maxDuration, grace) && i < |steps| && Did(worlds, i, id, Escalations)
        ensures Sent(worlds[i].log, id, false)
      {
        EscalationFollows(worlds, steps, i, id);
      }
    } else {
      EscalatedUnwarned(maxDuration, grace, "a");
    }
  }

  // ---------------------------------------------------------------- the verdict

  predicate Refusals(fates: seq<Fate>) { exists i :: 0 <= i < |fates| && fates[i].Refused? }

  lemma {:induction false} FatesSplit(fates: seq<Fate>)
    ensures LastRefusal(fates).Some? <==> Refusals(fates)
    ensures Deletions(fates) == 0 <==> forall i :: 0 <= i < |fates| ==> fates[i].Refused?
  {
    if fates != [] {
      var front, last := fates[..|fates| - 1], fates[|fates| - 1];
      FatesSplit(front);
      assert forall i :: 0 <= i < |front| ==> front[i] == fates[i];
      if last.Refused? {
        assert fates[|fates| - 1].Refused?;
      } else {
        assert !fates[|fates| - 1].Refused?;
        if Refusals(fates) {
          var i :| 0 <= i < |fates| && fates[i].Refused?;
          assert front[i].Refused?;
        }
        if Refusals(front) {
          var i :| 0 <= i < |front| && front[i].Refused?;
          assert fates[i].Refused?;
        }
      }
    }
  }

  /** The pods deleted, counted. */
  lemma {:induction false} FatesCounted(fates: seq<Fate>)
    ensures Deletions(fates) == |set i | 0 <= i < |fates| && fates[i].Deleted?|
  {
    if fates != [] {
      var n := |fates| - 1;
      FatesCounted(fates[..n]);
      var before, now := set i | 0 <= i < n && fates[..n][i].Deleted?, set i | 0 <= i < n + 1 && fates[i].Deleted?;
      assert now == if fates[n].Deleted? then before + {n} else before;
    }
  }

  /** What counts as the last refusal: only deletions come after it. */
  lemma {:induction false} LastRefusalIs(fates: seq<Fate>, i: nat)
    requires i < |fates| && fates[i].Refused? && forall j :: i < j < |fates| ==> fates[j].Deleted?
    ensures LastRefusal(fates) == Some(fates[i].code)
  {
    if i < |fates| - 1 { LastRefusalIs(fates[..|fates| - 1], i); }
  }

  lemma OutcomeNames()
    ensures NO_MATCH != EVICTED && NO_MATCH != EVICTED_PARTIAL && EVICTED != EVICTED_PARTIAL
  {
    assert |NO_MATCH| == 16 && |EVICTED| == 7 && |EVICTED_PARTIAL| == 15;
  }

  /** What the recorded outcome says about the pods: none matched, all deleted, or some refused. */
  lemma OutcomeMeans(fates: seq<Fate>)
    ensures var verdict := Judge(Deletions(fates), LastRefusal(fates));
            && (verdict == Settled(NO_MATCH) <==> fates == [])
            && (verdict == Settled(EVICTED) <==> fates != [] && !Refusals(fates))
            && (verdict == Settled(EVICTED_PARTIAL) <==>
                Refusals(fates) && LastRefusal(fates) == Some(NOT_FOUND) && Deletions(fates) > 0)
  {
    FatesSplit(fates);
    OutcomeNames();
    if fates != [] && Deletions(fates) == 0 { assert fates[0].Refused?; }
  }

  /** A pod was refused for another reason than being gone. */
  predicate Stuck(fates: seq<Fate>) { exists i :: 0 <= i < |fates| && fates[i].Refused? && fates[i].code != NOT_FOUND }

  /** A refusal that matters is meant to fail the tick; it does so unless a later refusal says
      the pod is gone and some pod was deleted. */
  lemma StuckPodFailsTick(fates: seq<Fate>)
    requires Stuck(fates)
    ensures Judge(Deletions(fates), LastRefusal(fates)) == Reraise <==>
              LastRefusal(fates) != Some(NOT_FOUND) || Deletions(fates) == 0
  {
    FatesSplit(fates);
    assert Refusals(fates);
  }

  const FORGOTTEN := [Deleted, Refused(403), Refused(404)]

  /** Under any limits that the CRD admits, a run in which an anchor is marked as escalated although one
      of its pods was refused for another reason than being gone. */
  lemma StuckPodIsForgotten(maxDuration: Time, grace: Time, id: string) returns (worlds: seq<World>, steps: seq<Step>)
    requires 0 <= grace < maxDuration && id != ""
    ensures IsRun(worlds, steps) && |steps| == 2 && Uses(steps, maxDuration, grace)
    ensures steps[1].Poll? && Stuck(FatesOf(steps[1].views, id)) && !worlds[2].crashed
    ensures id in worlds[2].softStops && worlds[2].softStops[id].escalationOutcome == Some(EVICTED_PARTIAL)
  {
    ForgottenVerdict();
    worlds, steps := UnwarnedRun(Config(true, maxDuration, grace, false), id, FORGOTTEN, EVICTED_PARTIAL);
  }

  lemma ForgottenVerdict()
    ensures Stuck(FORGOTTEN) && Judge(Deletions(FORGOTTEN), LastRefusal(FORGOTTEN)) == Settled(EVICTED_PARTIAL)
  {
    var fates := [Deleted, Refused(403), Refused(404)];
    assert fates[1].Refused? && fates[1].code != NOT_FOUND;
    assert fates[..2] == [Deleted, Refused(403)] && fates[..2][..1] == [Deleted] && [Deleted][..0] == [];
    assert Deletions([Deleted]) == 1;
    assert Deletions([Deleted, Refused(403)]) == 1;
  }
}
