/** The analysis SLA monitor: soft stop, stop, escalation. One tick as a step function over the
    durable anchors, with a failure at any effect boundary, and as the code it specifies. */
module Sla {
  import opened Basics
  import opened Ordering
  import opened Records

  const STOP_WAIT_TIMEOUT_SECONDS := 60
  const NOT_FOUND := 404

  const WATCHING := "watching"
  const ISSUED := "issued"
  const DRY_RUN := "dry-run"
  const COMPLETED := "completed"
  const TIMEOUT := "timeout"
  const EVICTED := "evicted"
  const EVICTED_PARTIAL := "evicted-partial"
  const NO_MATCH := "no-matching-pods"

  datatype Config = Config(autoSoftStop: bool, maxDuration: Time, grace: Time, dryRun: bool)

  /** How the deletion of one matched worker pod ends: done, or refused with a status code. */
  datatype Fate = Deleted | Refused(code: int)

  datatype Verdict = Reraise | Settled(outcome: string)

  /** What the tick does, in order, each about one analysis. A withheld call is one suppressed by
      dry-run; `Evicted` counts the pods that an escalation deleted. */
  datatype Effect =
    | SoftStopCall(id: string)
    | SoftStopWithheld(id: string)
    | PutSoftStop(id: string, softStop: SoftStopRecord)
    | ClearSoftStop(id: string)
    | StopCall(id: string)
    | StopWithheld(id: string)
    | PutStop(id: string, stop: StopRecord)
    | PruneStop(id: string)
    | Evicted(id: string, pods: nat)
    | MarkEscalated(id: string, at: Time, outcome: string)

  /** `fuel` effects succeed, then one raises; after that nothing happens in the tick. */
  datatype World = World(softStops: map<string, SoftStopRecord>, stopped: map<string, StopRecord>, log: seq<Effect>,
                         fuel: nat, crashed: bool)

  function Change(w: World, e: Effect): World {
    match e
    case PutSoftStop(id, r) => w.(softStops := w.softStops[id := r])
    case ClearSoftStop(id) => w.(softStops := w.softStops - {id})
    case PutStop(id, r) => w.(stopped := w.stopped[id := r])
    case PruneStop(id) => w.(stopped := w.stopped - {id})
    case MarkEscalated(id, at, outcome) =>
      if id in w.softStops then w.(softStops := w.softStops[id := Marked(w.softStops[id], at, outcome)]) else w
    case _ => w
  }

  function Marked(r: SoftStopRecord, at: Time, outcome: string): SoftStopRecord {
    r.(escalatedAt := Some(at), escalationOutcome := Some(outcome))
  }

  function Do(w: World, e: Effect): World {
    if w.crashed then w
    else if w.fuel == 0 then w.(crashed := true)
    else Change(w, e).(fuel := w.fuel - 1, log := w.log + [e])
  }

  function Fail(w: World): World { w.(crashed := true) }

  // ---------------------------------------------------------------- escalation

  function Deletions(fates: seq<Fate>): nat {
    if fates == [] then 0 else Deletions(fates[..|fates| - 1]) + if fates[|fates| - 1].Deleted? then 1 else 0
  }

  function LastRefusal(fates: seq<Fate>): Option<int> {
    if fates == [] then None
    else if fates[|fates| - 1].Refused? then Some(fates[|fates| - 1].code)
    else LastRefusal(fates[..|fates| - 1])
  }

  function Judge(evicted: nat, last: Option<int>): Verdict {
    if last.Some? && (last.value != NOT_FOUND || evicted == 0) then Reraise
    else Settled(if evicted == 0 then NO_MATCH else if last.Some? then EVICTED_PARTIAL else EVICTED)
  }

  function Escalate(w: World, cfg: Config, now: Time, id: string, fates: seq<Fate>): World {
    var tried := Do(w, Evicted(id, if cfg.dryRun then 0 else Deletions(fates)));
    var verdict := if cfg.dryRun then Settled(DRY_RUN) else Judge(Deletions(fates), LastRefusal(fates));
    match verdict
    case Reraise => Fail(tried)
    case Settled(outcome) => Do(tried, MarkEscalated(id, now, outcome))
  }

  // ---------------------------------------------------------------- one anchor

  function SoftStopNow(w: World, cfg: Config, id: string, r: SoftStopRecord): World {
    var called := Do(w, if cfg.dryRun then SoftStopWithheld(id) else SoftStopCall(id));
    Do(called, PutSoftStop(id, SoftStopRecord(r.issuedAt, if cfg.dryRun then DRY_RUN else ISSUED, None, None)))
  }

  /** No stop recorded: stop, record and escalate at once. */
  function StopNow(w: World, cfg: Config, now: Time, id: string, fates: seq<Fate>): World {
    var called := Do(w, if cfg.dryRun then StopWithheld(id) else StopCall(id));
    Escalate(Do(called, PutStop(id, StopRecord(now, if cfg.dryRun then DRY_RUN else ISSUED, None))), cfg, now, id,
             fates)
  }

  /** A stop was recorded before: retire it once ended, give it time, or time it out and escalate. */
  function StopAgain(w: World, cfg: Config, now: Time, id: string, stop: StopRecord, fates: seq<Fate>): World {
    if stop.stoppedAt.Some? then
      Do(Do(w, PutStop(id, StopRecord(stop.issuedAt, COMPLETED, stop.stoppedAt))), PruneStop(id))
    else if now - stop.issuedAt > STOP_WAIT_TIMEOUT_SECONDS then
      Escalate(Do(w, PutStop(id, StopRecord(stop.issuedAt, TIMEOUT, Some(now)))), cfg, now, id, fates)
    else w
  }

  function Settle(w: World, cfg: Config, now: Time, id: string, r: SoftStopRecord, fates: seq<Fate>): World {
    if r.outcome != ISSUED then Escalate(w, cfg, now, id, fates)
    else if id in w.stopped then StopAgain(w, cfg, now, id, w.stopped[id], fates)
    else StopNow(w, cfg, now, id, fates)
  }

  predicate SoftStopDue(r: SoftStopRecord, cfg: Config, now: Time) {
    r.outcome == WATCHING && now - r.issuedAt > cfg.maxDuration
  }

  function Handle(w: World, cfg: Config, now: Time, started: bool, id: string, r: SoftStopRecord,
                  fates: seq<Fate>): World {
    if !started then Do(w, ClearSoftStop(id))
    else if r.escalatedAt.Some? then w
    else if SoftStopDue(r, cfg, now) then SoftStopNow(w, cfg, id, r)
    else if now - r.issuedAt <= cfg.grace then w
    else Settle(w, cfg, now, id, r, fates)
  }

  // ---------------------------------------------------------------- the tick

  /** One listed analysis and whether its status says started; an empty id stands for a missing one. */
  datatype Seen = Seen(id: string, started: bool)

  /** What one tick sees: the listing, the order in which the anchors come, and how each pod
      deletion of an escalation ends. */
  datatype Views = Views(listing: seq<Seen>, order: seq<string>, fates: map<string, seq<Fate>>)

  function FatesOf(v: Views, id: string): seq<Fate> { if id in v.fates then v.fates[id] else [] }

  predicate StartedIn(listing: seq<Seen>, id: string) {
    id != "" && Seen(id, true) in listing
  }

  /** First sight: an anchor for every started analysis that the snapshot does not hold. */
  function AnchorAll(w: World, snapshot: set<string>, now: Time, listing: seq<Seen>): World {
    if listing == [] then w
    else
      var front, s := AnchorAll(w, snapshot, now, listing[..|listing| - 1]), listing[|listing| - 1];
      if s.id != "" && s.id !in snapshot && s.started
      then Do(front, PutSoftStop(s.id, SoftStopRecord(now, WATCHING, None, None)))
      else front
  }

  /** The anchors in turn, each by its record in the snapshot. */
  function HandleAll(w: World, snapshot: map<string, SoftStopRecord>, cfg: Config, now: Time, v: Views,
                     order: seq<string>): World
    requires forall i :: 0 <= i < |order| ==> order[i] in snapshot
  {
    if order == [] then w
    else
      var front, id := HandleAll(w, snapshot, cfg, now, v, order[..|order| - 1]), order[|order| - 1];
      Handle(front, cfg, now, StartedIn(v.listing, id), id, snapshot[id], FatesOf(v, id))
  }

  function Anchored(w: World, now: Time, v: Views): World { AnchorAll(w, w.softStops.Keys, now, v.listing) }

  /** The order is one of the anchors there are after the first phase. */
  predicate ValidViews(w: World, now: Time, v: Views) {
    Lists(v.order, Anchored(w, now, v).softStops.Keys)
  }

  function Tick(w: World, cfg: Config, now: Time, v: Views): World
    requires ValidViews(w, now, v)
  {
    if !cfg.autoSoftStop then w
    else
      var anchored := Anchored(w, now, v);
      assert forall i :: 0 <= i < |v.order| ==> v.order[i] in Elements(v.order);
      HandleAll(anchored, anchored.softStops, cfg, now, v, v.order)
  }

  // ---------------------------------------------------------------- imperative code

  /** The pod loop: every pod is tried, failures are counted, the last one decides. */
  method EvictPods(fates: seq<Fate>) returns (evicted: nat, last: Option<int>, verdict: Verdict)
    ensures evicted == Deletions(fates) && last == LastRefusal(fates) && verdict == Judge(evicted, last)
  {
    evicted, last := 0, None;
    var failed := 0;
    for i := 0 to |fates|
      invariant evicted == Deletions(fates[..i]) && last == LastRefusal(fates[..i])
      invariant failed > 0 <==> last.Some?
    {
      assert fates[..i + 1][..i] == fates[..i];
      match fates[i]
      case Deleted => evicted := evicted + 1;
      case Refused(code) =>
        failed := failed + 1;
        last := Some(code);
    }
    assert fates[..|fates|] == fates;
    if last.Some? && (last.value != NOT_FOUND || evicted == 0) { verdict := Reraise; }
    else if evicted == 0 { verdict := Settled(NO_MATCH); }
    else if failed > 0 { verdict := Settled(EVICTED_PARTIAL); }
    else { verdict := Settled(EVICTED); }
  }

  class Monitor {
    var softStops: map<string, SoftStopRecord>
    var stopped: map<string, StopRecord>
    var log: seq<Effect>
    var fuel: nat
    var crashed: bool

    function View(): World
      reads this
    {
      World(softStops, stopped, log, fuel, crashed)
    }

    /** One effect; raises (answers false) when the fuel is spent. */
    method Perform(e: Effect) returns (ok: bool)
      modifies this
      ensures View() == Do(old(View()), e) && ok == !crashed
    {
      if crashed || fuel == 0 {
        crashed := true;
        return false;
      }
      match e {
        case PutSoftStop(id, r) => softStops := softStops[id := r];
        case ClearSoftStop(id) => softStops := softStops - {id};
        case PutStop(id, r) => stopped := stopped[id := r];
        case PruneStop(id) => stopped := stopped - {id};
        case MarkEscalated(id, at, outcome) =>
          if id in softStops { softStops := softStops[id := Marked(softStops[id], at, outcome)]; }
        case _ =>
      }
      fuel, log := fuel - 1, log + [e];
      return true;
    }

    method RunEscalate(cfg: Config, now: Time, id: string, fates: seq<Fate>)
      modifies this
      ensures View() == Escalate(old(View()), cfg, now, id, fates)
    {
      var evicted, last, verdict := EvictPods(fates);
      if cfg.dryRun { verdict := Settled(DRY_RUN); }
      var ok := Perform(Evicted(id, if cfg.dryRun then 0 else evicted));
      match verdict {
        case Reraise => crashed := true;
        case Settled(outcome) => ok := Perform(MarkEscalated(id, now, outcome));
      }
    }

    method RunSettle(cfg: Config, now: Time, id: string, r: SoftStopRecord, fates: seq<Fate>)
      modifies this
      ensures View() == Settle(old(View()), cfg, now, id, r, fates)
    {
      var ok;
      if r.outcome == ISSUED {
        if id !in stopped {
          ok := Perform(if cfg.dryRun then StopWithheld(id) else StopCall(id));
          ok := Perform(PutStop(id, StopRecord(now, if cfg.dryRun then DRY_RUN else ISSUED, None)));
        } else {
          var stop := stopped[id];
          if stop.stoppedAt.Some? {
            ok := Perform(PutStop(id, StopRecord(stop.issuedAt, COMPLETED, stop.stoppedAt)));
            ok := Perform(PruneStop(id));
            return;
          }
          if now - stop.issuedAt <= STOP_WAIT_TIMEOUT_SECONDS { return; }
          ok := Perform(PutStop(id, StopRecord(stop.issuedAt, TIMEOUT, Some(now))));
        }
      }
      RunEscalate(cfg, now, id, fates);
    }

    method RunHandle(cfg: Config, now: Time, started: bool, id: string, r: SoftStopRecord, fates: seq<Fate>)
      modifies this
      ensures View() == Handle(old(View()), cfg, now, started, id, r, fates)
    {
      var ok;
      if !started {
        ok := Perform(ClearSoftStop(id));
        return;
      }
      if r.escalatedAt.Some? { return; }
      if SoftStopDue(r, cfg, now) {
        ok := Perform(if cfg.dryRun then SoftStopWithheld(id) else SoftStopCall(id));
        ok := Perform(PutSoftStop(id, SoftStopRecord(r.issuedAt, if cfg.dryRun then DRY_RUN else ISSUED, None, None)));
        return;
      }
      if now - r.issuedAt > cfg.grace { RunSettle(cfg, now, id, r, fates); }
    }

    /** First phase; answers the set of started ids that the second one goes by. */
    method AnchorFirstSights(now: Time, listing: seq<Seen>) returns (started: set<string>)
      modifies this
      ensures View() == AnchorAll(old(View()), old(softStops.Keys), now, listing)
      ensures forall id :: id in started <==> StartedIn(listing, id)
    {
      var snapshot := softStops.Keys;
      started := {};
      for i := 0 to |listing|
        invariant View() == AnchorAll(old(View()), snapshot, now, listing[..i])
        invariant forall id :: id in started <==> StartedIn(listing[..i], id)
      {
        var s := listing[i];
        assert listing[..i + 1] == listing[..i] + [s] && listing[..i + 1][..i] == listing[..i];
        if s.id != "" && s.started {
          if s.id !in snapshot {
            var ok := Perform(PutSoftStop(s.id, SoftStopRecord(now, WATCHING, None, None)));
          }
          started := started + {s.id};
        }
      }
      assert listing[..|listing|] == listing;
    }

    /** Second phase, over the records read when it starts. */
    method GraceAndEscalate(cfg: Config, now: Time, started: set<string>, v: Views)
      requires Lists(v.order, softStops.Keys) && forall id :: id in started <==> StartedIn(v.listing, id)
      modifies this
      ensures View() == HandleAll(old(View()), old(softStops), cfg, now, v, v.order)
    {
      var snapshot := softStops;
      assert forall i :: 0 <= i < |v.order| ==> v.order[i] in Elements(v.order);
      for i := 0 to |v.order|
        invariant View() == HandleAll(old(View()), snapshot, cfg, now, v, v.order[..i])
      {
        var id := v.order[i];
        assert v.order[..i + 1][..i] == v.order[..i];
        RunHandle(cfg, now, id in started, id, snapshot[id], FatesOf(v, id));
      }
      assert v.order[..|v.order|] == v.order;
    }

    /** One SLA poll: it changes the world as `Tick` says. Once an effect has raised, the calls
        that are left do nothing. */
    method RunSlaTick(cfg: Config, now: Time, v: Views)
      requires ValidViews(View(), now, v)
      modifies this
      ensures View() == Tick(old(View()), cfg, now, v)
    {
      if !cfg.autoSoftStop { return; }
      var started := AnchorFirstSights(now, v.listing);
      GraceAndEscalate(cfg, now, started, v);
    }
  }
}
