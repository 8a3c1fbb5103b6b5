/** The deferred Warning Events: an in-memory queue, its per-CR mirror in the status, and the
    two-phase drain. The sink as step functions over its world, and as the code they specify. */
module EventSink {
  import opened Basics

  const MAX_DEFERRED_WARNING_EVENTS := 1000

  datatype Cr = Cr(namespace: string, name: string)

  /** What a mirrored entry says; the CR it belongs to is the one whose status holds it. */
  datatype Note = Note(reason: string, message: string)

  datatype Event = Event(cr: Cr, note: Note)

  /** `queue` is lost with the process; `mirror` is `status.deferredEvents` of each CR. The rest is
      history: what was emitted and what was accepted. */
  datatype World = World(queue: seq<Event>, mirror: map<Cr, seq<Note>>, emitted: seq<Event>, accepted: seq<Event>)

  const EMPTY := World([], map[], [], [])

  /** How one drain fares: whether the store can be read and cleared, and after how many emits,
      if ever, one raises. */
  datatype Faults = Faults(readOk: bool, clearOk: bool, emits: Option<nat>)

  datatype Step =
    | Defer(event: Event, mirrorOk: bool)
    | Flush(cr: Cr, faults: Faults)
    | Crash

  function MirrorOf(w: World, cr: Cr): seq<Note> { if cr in w.mirror then w.mirror[cr] else [] }

  function For(events: seq<Event>, cr: Cr): seq<Event> {
    if events == [] then []
    else For(events[..|events| - 1], cr) + if events[|events| - 1].cr == cr then [events[|events| - 1]] else []
  }

  function Others(events: seq<Event>, cr: Cr): seq<Event> {
    if events == [] then []
    else Others(events[..|events| - 1], cr) + if events[|events| - 1].cr == cr then [] else [events[|events| - 1]]
  }

  function Fresh(pending: seq<Event>, done: set<Event>): seq<Event> {
    if pending == [] then []
    else Fresh(pending[..|pending| - 1], done) + if pending[|pending| - 1] in done then [] else [pending[|pending| - 1]]
  }

  function EventsOf(cr: Cr, notes: seq<Note>): seq<Event> {
    if notes == [] then [] else EventsOf(cr, notes[..|notes| - 1]) + [Event(cr, notes[|notes| - 1])]
  }

  function AsSet(events: seq<Event>): set<Event> { set e | e in events }

  /** At the queue's bound the event is dropped; otherwise it is queued, and mirrored if the store
      takes it and the mirror is below its own bound. */
  function Deferred(w: World, e: Event, mirrorOk: bool): World {
    if |w.queue| >= MAX_DEFERRED_WARNING_EVENTS then w
    else
      var taken := w.(queue := w.queue + [e], accepted := w.accepted + [e]);
      if mirrorOk && |MirrorOf(w, e.cr)| < MAX_DEFERRED_WARNING_EVENTS
      then taken.(mirror := w.mirror[e.cr := MirrorOf(w, e.cr) + [e.note]])
      else taken
  }

  /** As many events as the emits allow. */
  function Emitted(events: seq<Event>, emits: Option<nat>): seq<Event> {
    if emits.Some? && emits.value < |events| then events[..emits.value] else events
  }

  predicate Raises(events: seq<Event>, emits: Option<nat>) { emits.Some? && emits.value < |events| }

  function Left(events: seq<Event>, emits: Option<nat>): Option<nat>
    requires !Raises(events, emits)
  {
    if emits.Some? then Some(emits.value - |events|) else None
  }

  function Persisted(w: World, cr: Cr, f: Faults): seq<Event> {
    if f.readOk then EventsOf(cr, MirrorOf(w, cr)) else []
  }

  /** The first phase: the mirror is emitted, and cleared once all of it was. */
  function FirstPhase(w: World, cr: Cr, f: Faults): World {
    var persisted := Persisted(w, cr, f);
    var sent := w.(emitted := w.emitted + Emitted(persisted, f.emits));
    if !Raises(persisted, f.emits) && persisted != [] && f.clearOk then sent.(mirror := w.mirror - {cr}) else sent
  }

  /** Then what is queued and was not just emitted. */
  function Flushed(w: World, cr: Cr, f: Faults): World {
    var persisted := Persisted(w, cr, f);
    if Raises(persisted, f.emits) then FirstPhase(w, cr, f)
    else Drained(FirstPhase(w, cr, f), cr, Fresh(For(w.queue, cr), AsSet(persisted)), Left(persisted, f.emits))
  }

  function Drained(w: World, cr: Cr, rest: seq<Event>, emits: Option<nat>): World {
    var second := w.(emitted := w.emitted + Emitted(rest, emits));
    if Raises(rest, emits) then second else second.(queue := Others(w.queue, cr))
  }

  function Apply(w: World, s: Step): World {
    match s
    case Defer(e, mirrorOk) => Deferred(w, e, mirrorOk)
    case Flush(cr, f) => Flushed(w, cr, f)
    case Crash => w.(queue := [])
  }

  function Play(steps: seq<Step>): World {
    if steps == [] then EMPTY else Apply(Play(steps[..|steps| - 1]), steps[|steps| - 1])
  }

  // ---------------------------------------------------------------- sub-queues

  lemma ForAppend(s: seq<Event>, e: Event, cr: Cr)
    ensures For(s + [e], cr) == For(s, cr) + if e.cr == cr then [e] else []
  {
    assert (s + [e])[..|s|] == s;
  }

  lemma {:induction false} ForConcat(s: seq<Event>, t: seq<Event>, cr: Cr)
    ensures For(s + t, cr) == For(s, cr) + For(t, cr)
  {
    if t == [] {
      assert s + t == s;
    } else {
      var front, e := t[..|t| - 1], t[|t| - 1];
      assert s + t == (s + front) + [e] && t == front + [e];
      ForConcat(s, front, cr);
      ForAppend(s + front, e, cr);
    }
  }

  lemma {:induction false} ForShort(s: seq<Event>, cr: Cr)
    ensures |For(s, cr)| <= |s|
  {
    if s != [] { ForShort(s[..|s| - 1], cr); }
  }

  lemma {:induction false} ForHolds(s: seq<Event>, cr: Cr, e: Event)
    ensures e in For(s, cr) <==> e in s && e.cr == cr
  {
    if s != [] {
      ForHolds(s[..|s| - 1], cr, e);
      assert s == s[..|s| - 1] + [s[|s| - 1]];
    }
  }

  lemma {:induction false} OthersHolds(s: seq<Event>, cr: Cr, e: Event)
    ensures e in Others(s, cr) <==> e in s && e.cr != cr
  {
    if s != [] {
      OthersHolds(s[..|s| - 1], cr, e);
      assert s == s[..|s| - 1] + [s[|s| - 1]];
    }
  }

  lemma {:induction false} OthersShort(s: seq<Event>, cr: Cr)
    ensures |Others(s, cr)| <= |s|
  {
    if s != [] { OthersShort(s[..|s| - 1], cr); }
  }

  /** Draining one CR empties its sub-queue and leaves the others as they are. */
  lemma {:induction false} OthersSplit(s: seq<Event>, cr: Cr, c: Cr)
    ensures For(Others(s, cr), c) == if c == cr then [] else For(s, c)
  {
    if s != [] {
      var front, e := s[..|s| - 1], s[|s| - 1];
      OthersSplit(front, cr, c);
      ForAppend(Others(front, cr), e, c);
      if e.cr == cr { assert Others(s, cr) == Others(front, cr); }
    }
  }

  lemma {:induction false} FreshHolds(s: seq<Event>, done: set<Event>, e: Event)
    ensures e in Fresh(s, done) <==> e in s && e !in done
  {
    if s != [] {
      FreshHolds(s[..|s| - 1], done, e);
      assert s == s[..|s| - 1] + [s[|s| - 1]];
    }
  }

  lemma {:induction false} EventsOfHolds(cr: Cr, notes: seq<Note>, e: Event)
    ensures e in EventsOf(cr, notes) <==> e.cr == cr && e.note in notes
    ensures |EventsOf(cr, notes)| == |notes|
  {
    if notes != [] {
      EventsOfHolds(cr, notes[..|notes| - 1], e);
      assert notes == notes[..|notes| - 1] + [notes[|notes| - 1]];
    }
  }

  lemma EventsOfAppend(cr: Cr, notes: seq<Note>, n: Note)
    ensures EventsOf(cr, notes + [n]) == EventsOf(cr, notes) + [Event(cr, n)]
  {
    assert (notes + [n])[..|notes|] == notes;
  }

  lemma {:induction false} EventsOfFor(cr: Cr, notes: seq<Note>, c: Cr)
    ensures For(EventsOf(cr, notes), c) == if c == cr then EventsOf(cr, notes) else []
  {
    if notes != [] {
      EventsOfFor(cr, notes[..|notes| - 1], c);
      ForAppend(EventsOf(cr, notes[..|notes| - 1]), Event(cr, notes[|notes| - 1]), c);
    }
  }

  lemma {:induction false} NothingFresh(s: seq<Event>, done: set<Event>)
    requires forall e :: e in s ==> e in done
    ensures Fresh(s, done) == []
  {
    if s != [] {
      assert s[|s| - 1] in s;
      forall e | e in s[..|s| - 1] ensures e in done { assert e in s; }
      NothingFresh(s[..|s| - 1], done);
    }
  }

  // ---------------------------------------------------------------- exactly once

  predicate FaultFree(s: Step) {
    match s
    case Defer(_, mirrorOk) => mirrorOk
    case Flush(_, f) => f.readOk && f.clearOk && f.emits.None?
    case Crash => false
  }

  /** The CR's mirror is its sub-queue; what was accepted is what was emitted and then what is
      queued, in order. */
  predicate InSync(w: World, cr: Cr) {
    && EventsOf(cr, MirrorOf(w, cr)) == For(w.queue, cr)
    && For(w.accepted, cr) == For(w.emitted, cr) + For(w.queue, cr)
  }

  lemma DeferInSync(w: World, e: Event, cr: Cr)
    requires InSync(w, cr) && InSync(w, e.cr)
    ensures InSync(Deferred(w, e, true), cr)
  {
    ForShort(w.queue, e.cr);
    EventsOfHolds(e.cr, MirrorOf(w, e.cr), e);
    ForAppend(w.queue, e, cr);
    ForAppend(w.accepted, e, cr);
    EventsOfAppend(e.cr, MirrorOf(w, e.cr), e.note);
    assert |w.queue| < MAX_DEFERRED_WARNING_EVENTS ==> |MirrorOf(w, e.cr)| < MAX_DEFERRED_WARNING_EVENTS;
  }

  /** Without faults a drain emits the sub-queue once, from the mirror, and empties both. */
  lemma FlushWhenInSync(w: World, cr: Cr, f: Faults)
    requires InSync(w, cr) && f.readOk && f.clearOk && f.emits.None?
    ensures var after := Flushed(w, cr, f);
            && after.emitted == w.emitted + For(w.queue, cr) && after.queue == Others(w.queue, cr) &&
               after.accepted == w.accepted
            && forall c :: MirrorOf(after, c) == if c == cr then [] else MirrorOf(w, c)
  {
    var persisted := EventsOf(cr, MirrorOf(w, cr));
    NothingFresh(For(w.queue, cr), AsSet(persisted));
    EventsOfHolds(cr, MirrorOf(w, cr), Event(cr, Note("", "")));
  }

  /** Emitting and dequeuing a whole sub-queue keeps its CR in sync. */
  lemma SyncHere(w: World, after: World, cr: Cr)
    requires InSync(w, cr) && after.accepted == w.accepted &&
             For(after.emitted, cr) == For(w.emitted, cr) + For(w.queue, cr)
    requires For(after.queue, cr) == [] && MirrorOf(after, cr) == []
    ensures InSync(after, cr)
  {}

  lemma SyncElsewhere(w: World, after: World, c: Cr)
    requires InSync(w, c) && after.accepted == w.accepted && For(after.emitted, c) == For(w.emitted, c)
    requires For(after.queue, c) == For(w.queue, c) && MirrorOf(after, c) == MirrorOf(w, c)
    ensures InSync(after, c)
  {}

  lemma SubQueueOf(w: World, cr: Cr, c: Cr)
    requires InSync(w, cr)
    ensures For(For(w.queue, cr), c) == if c == cr then For(w.queue, cr) else []
  {
    EventsOfFor(cr, MirrorOf(w, cr), c);
  }

  lemma EmittedMore(w: World, emitted: seq<Event>, cr: Cr, c: Cr)
    requires InSync(w, cr) && emitted == w.emitted + For(w.queue, cr)
    ensures For(emitted, c) == if c == cr then For(w.emitted, c) + For(w.queue, c) else For(w.emitted, c)
  {
    SubQueueOf(w, cr, c);
    ForConcat(w.emitted, For(w.queue, cr), c);
    assert For(w.emitted, c) + [] == For(w.emitted, c);
  }

  lemma FlushInSync(w: World, cr: Cr, f: Faults, c: Cr)
    requires InSync(w, cr) && InSync(w, c) && f.readOk && f.clearOk && f.emits.None?
    ensures InSync(Flushed(w, cr, f), c)
  {
    var after := Flushed(w, cr, f);
    FlushWhenInSync(w, cr, f);
    OthersSplit(w.queue, cr, c);
    EmittedMore(w, after.emitted, cr, c);
    if c == cr { SyncHere(w, after, cr); } else { SyncElsewhere(w, after, c); }
  }

  /** Exactly once, in order: with no faults, at every moment and for every CR, the mirror is the
      sub-queue, and the events emitted and then those queued are the accepted ones. */
  lemma {:induction false} ExactlyOnce(steps: seq<Step>, cr: Cr)
    requires forall i :: 0 <= i < |steps| ==> FaultFree(steps[i])
    ensures InSync(Play(steps), cr)
  {
    if steps != [] {
      var front, s := steps[..|steps| - 1], steps[|steps| - 1];
      assert FaultFree(steps[|steps| - 1]);
      ExactlyOnce(front, cr);
      match s {
        case Defer(e, _) =>
          ExactlyOnce(front, e.cr);
          DeferInSync(Play(front), e, cr);
        case Flush(c, f) =>
          ExactlyOnce(front, c);
          FlushInSync(Play(front), c, f, cr);
      }
    }
  }

  /** So a drain that ends such a run has emitted each accepted event of its CR exactly once. */
  lemma DrainedOnce(steps: seq<Step>, cr: Cr, f: Faults)
    requires forall i :: 0 <= i < |steps| ==> FaultFree(steps[i])
    requires FaultFree(Flush(cr, f))
    ensures var w := Play(steps + [Flush(cr, f)]); For(w.emitted, cr) == For(w.accepted, cr) && MirrorOf(w, cr) == []
  {
    var all := steps + [Flush(cr, f)];
    assert all[..|steps|] == steps;
    ExactlyOnce(steps, cr);
    ExactlyOnce(all, cr);
    FlushWhenInSync(Play(steps), cr, f);
    OthersSplit(Play(steps).queue, cr, cr);
  }

  // ---------------------------------------------------------------- at least once

  predicate Mirrored(w: World, e: Event) { e.note in MirrorOf(w, e.cr) }

  /** The event is among those emitted after the first n. */
  predicate EmittedSince(w: World, n: nat, e: Event) { n <= |w.emitted| && e in w.emitted[n..] }

  predicate Durable(w: World, n: nat, e: Event) { EmittedSince(w, n, e) || Mirrored(w, e) }

  predicate Safe(w: World, n: nat, e: Event) { Durable(w, n, e) || e in w.queue }

  lemma EmitMore(w: World, more: seq<Event>, n: nat, e: Event)
    requires n <= |w.emitted|
    ensures EmittedSince(w.(emitted := w.emitted + more), n, e) <==> EmittedSince(w, n, e) || e in more
  {
    assert (w.emitted + more)[n..] == w.emitted[n..] + more;
  }

  /** The mirror is cleared only after all of it was emitted. */
  lemma FirstPhaseKeeps(w: World, cr: Cr, f: Faults, n: nat, e: Event)
    requires n <= |w.emitted|
    ensures var after := FirstPhase(w, cr, f);
            && n <= |after.emitted| && after.queue == w.queue
            && (Durable(w, n, e) ==> Durable(after, n, e))
            && (!Raises(Persisted(w, cr, f), f.emits) && e in Persisted(w, cr, f) ==> EmittedSince(after, n, e))
  {
    EventsOfHolds(cr, MirrorOf(w, cr), e);
    EmitMore(w, Emitted(Persisted(w, cr, f), f.emits), n, e);
  }

  /** The queue gives up only what was emitted. */
  lemma DrainedKeeps(w: World, cr: Cr, rest: seq<Event>, emits: Option<nat>, n: nat, e: Event)
    requires n <= |w.emitted| && (e in For(w.queue, cr) ==> EmittedSince(w, n, e) || e in rest)
    ensures var after := Drained(w, cr, rest, emits);
            && n <= |after.emitted| && (Durable(w, n, e) ==> Durable(after, n, e)) &&
               (Safe(w, n, e) ==> Safe(after, n, e))
  {
    OthersHolds(w.queue, cr, e);
    ForHolds(w.queue, cr, e);
    EmitMore(w, Emitted(rest, emits), n, e);
  }

  lemma FlushKeeps(w: World, cr: Cr, f: Faults, n: nat, e: Event)
    requires n <= |w.emitted|
    ensures var after := Flushed(w, cr, f);
            && n <= |after.emitted| && (Durable(w, n, e) ==> Durable(after, n, e)) &&
               (Safe(w, n, e) ==> Safe(after, n, e))
  {
    var persisted := Persisted(w, cr, f);
    FirstPhaseKeeps(w, cr, f, n, e);
    if !Raises(persisted, f.emits) {
      FreshHolds(For(w.queue, cr), AsSet(persisted), e);
      DrainedKeeps(FirstPhase(w, cr, f), cr, Fresh(For(w.queue, cr), AsSet(persisted)), Left(persisted, f.emits), n, e);
    }
  }

  /** A step keeps what is durable, and what is safe unless it is a crash. */
  lemma ApplyKeeps(w: World, s: Step, n: nat, e: Event)
    requires n <= |w.emitted|
    ensures n <= |Apply(w, s).emitted| && (Durable(w, n, e) ==> Durable(Apply(w, s), n, e))
    ensures Safe(w, n, e) && !s.Crash? ==> Safe(Apply(w, s), n, e)
  {
    if s.Flush? { FlushKeeps(w, s.cr, s.faults, n, e); }
  }

  /** Step i offers an event, and it is accepted. */
  predicate Accepts(steps: seq<Step>, i: nat) {
    i < |steps| && steps[i].Defer? && |Play(steps[..i]).queue| < MAX_DEFERRED_WARNING_EVENTS
  }

  /** And its mirror write lands. */
  predicate Mirrors(steps: seq<Step>, i: nat) {
    Accepts(steps, i) && steps[i].mirrorOk &&
        |MirrorOf(Play(steps[..i]), steps[i].event.cr)| < MAX_DEFERRED_WARNING_EVENTS
  }

  /** Step j is a crash that finds the event neither mirrored nor emitted since the first n. */
  predicate LostAt(steps: seq<Step>, j: int, n: nat, e: Event) {
    0 <= j < |steps| && steps[j].Crash? && !Durable(Play(steps[..j]), n, e)
  }

  lemma PlayAt(steps: seq<Step>, k: nat)
    requires 0 < k <= |steps|
    ensures Play(steps[..k]) == Apply(Play(steps[..k - 1]), steps[k - 1])
  {
    assert steps[..k][..k - 1] == steps[..k - 1];
  }

  /** k steps into the run: safe, or lost in a crash. */
  ghost predicate SafeOrLost(steps: seq<Step>, i: nat, k: nat, n: nat, e: Event)
    requires k <= |steps|
  {
    Safe(Play(steps[..k]), n, e) || exists j :: i < j < k && LostAt(steps, j, n, e)
  }

  lemma AcceptedIsSafe(w: World, e: Event, mirrorOk: bool)
    requires |w.queue| < MAX_DEFERRED_WARNING_EVENTS
    ensures var after := Deferred(w, e, mirrorOk);
            && after.emitted == w.emitted && e in after.queue
            && (mirrorOk && |MirrorOf(w, e.cr)| < MAX_DEFERRED_WARNING_EVENTS ==> Mirrored(after, e))
  {}

  lemma {:induction false} KeptSince(steps: seq<Step>, i: nat, k: nat)
    requires Accepts(steps, i) && i < k <= |steps|
    ensures var n, e := |Play(steps[..i]).emitted|, steps[i].event;
            && n <= |Play(steps[..k]).emitted| && SafeOrLost(steps, i, k, n, e)
            && (Mirrors(steps, i) ==> Durable(Play(steps[..k]), n, e))
  {
    var n, e := |Play(steps[..i]).emitted|, steps[i].event;
    PlayAt(steps, k);
    if k == i + 1 {
      AcceptedIsSafe(Play(steps[..i]), e, steps[i].mirrorOk);
    } else {
      KeptSince(steps, i, k - 1);
      ApplyKeeps(Play(steps[..k - 1]), steps[k - 1], n, e);
      assert steps[k - 1].Crash? && !Durable(Play(steps[..k - 1]), n, e) ==> LostAt(steps, k - 1, n, e);
    }
  }

  /** At least once, per acceptance, over every run with failing writes, reads, clears and emits and with
      crashes anywhere: an event that is accepted is afterwards emitted, still mirrored or still queued,
      unless a later crash finds it neither mirrored nor emitted since; and one whose mirror write landed
      is never lost. */
  lemma AtLeastOnce(steps: seq<Step>, i: nat)
    requires Accepts(steps, i)
    ensures var w, n, e := Play(steps), |Play(steps[..i]).emitted|, steps[i].event;
            && (Safe(w, n, e) || exists j :: i < j && LostAt(steps, j, n, e))
            && (Mirrors(steps, i) ==> Durable(w, n, e))
  {
    KeptSince(steps, i, |steps|);
    assert steps[..|steps|] == steps;
  }

  /** A drain without faults, after whatever came before, leaves nothing owed: every event accepted for
      its CR was emitted since, except what a crash found neither mirrored nor emitted. */
  lemma DrainSettles(steps: seq<Step>, f: Faults, i: nat)
    requires Accepts(steps, i) && FaultFree(Flush(steps[i].event.cr, f))
    ensures var w, n, e := Play(steps + [Flush(steps[i].event.cr, f)]), |Play(steps[..i]).emitted|, steps[i].event;
            && (EmittedSince(w, n, e) || exists j :: i < j && LostAt(steps, j, n, e))
            && (Mirrors(steps, i) ==> EmittedSince(w, n, e))
  {
    var n, e := |Play(steps[..i]).emitted|, steps[i].event;
    var all := steps + [Flush(e.cr, f)];
    assert all[..|steps|] == steps;
    KeptSince(steps, i, |steps|);
    assert steps[..|steps|] == steps;
    if Safe(Play(steps), n, e) { SafeIsEmitted(Play(steps), f, n, e); }
  }

  lemma SafeIsEmitted(w: World, f: Faults, n: nat, e: Event)
    requires n <= |w.emitted| && FaultFree(Flush(e.cr, f)) && Safe(w, n, e)
    ensures EmittedSince(Flushed(w, e.cr, f), n, e)
  {
    var persisted := Persisted(w, e.cr, f);
    var first, rest := FirstPhase(w, e.cr, f), Fresh(For(w.queue, e.cr), AsSet(persisted));
    FirstPhaseKeeps(w, e.cr, f, n, e);
    EventsOfHolds(e.cr, MirrorOf(w, e.cr), e);
    ForHolds(w.queue, e.cr, e);
    FreshHolds(For(w.queue, e.cr), AsSet(persisted), e);
    EmitMore(first, rest, n, e);
    EmitMore(w, persisted, n, e);
  }

  predicate Bounded(w: World) {
    && |w.queue| <= MAX_DEFERRED_WARNING_EVENTS
    && forall cr :: cr in w.mirror ==> |w.mirror[cr]| <= MAX_DEFERRED_WARNING_EVENTS
  }

  lemma ApplyBounded(w: World, s: Step)
    requires Bounded(w)
    ensures Bounded(Apply(w, s))
  {
    if s.Flush? { OthersShort(w.queue, s.cr); }
  }

  /** In every run the queue and the mirrors stay within 1000 entries. */
  lemma {:induction false} StaysBounded(steps: seq<Step>)
    ensures Bounded(Play(steps))
  {
    if steps != [] {
      StaysBounded(steps[..|steps| - 1]);
      ApplyBounded(Play(steps[..|steps| - 1]), steps[|steps| - 1]);
    }
  }

  // ---------------------------------------------------------------- nothing is refused without need

  /** The events that the steps defer, in order. */
  function Offered(steps: seq<Step>): seq<Event> {
    if steps == [] then []
    else
      var front, last := Offered(steps[..|steps| - 1]), steps[|steps| - 1];
      if last.Defer? then front + [last.event] else front
  }

  lemma {:induction false} QueueHoldsOffered(steps: seq<Step>)
    ensures |Play(steps).queue| <= |Offered(steps)|
  {
    if steps != [] {
      QueueHoldsOffered(steps[..|steps| - 1]);
      var w := Play(steps[..|steps| - 1]);
      match steps[|steps| - 1]
      case Flush(cr, f) => OthersShort(w.queue, cr);
      case _ =>
    }
  }

  /** A run that defers no more events than the queue holds accepts every one, in order, whatever drains,
      failures and crashes there are in between. */
  lemma {:induction false} AcceptsAll(steps: seq<Step>)
    requires |Offered(steps)| <= MAX_DEFERRED_WARNING_EVENTS
    ensures Play(steps).accepted == Offered(steps)
  {
    if steps != [] {
      var front := steps[..|steps| - 1];
      AcceptsAll(front);
      QueueHoldsOffered(front);
    }
  }

  /** An event is refused exactly when the queue is full, and then nothing changes. */
  lemma RefusedWhenFull(w: World, e: Event, mirrorOk: bool)
    ensures Deferred(w, e, mirrorOk).accepted == w.accepted + (if |w.queue| < 1000 then [e] else [])
    ensures |w.queue| >= 1000 ==> Deferred(w, e, mirrorOk) == w
    ensures |w.queue| < 1000 ==> For(Deferred(w, e, mirrorOk).queue, e.cr) == For(w.queue, e.cr) + [e]
    ensures MirrorOf(Deferred(w, e, mirrorOk), e.cr) ==
              MirrorOf(w, e.cr) + if mirrorOk && |w.queue| < 1000 && |MirrorOf(w, e.cr)| < 1000 then [e.note] else []
  {
    ForAppend(w.queue, e, e.cr);
  }

  // ---------------------------------------------------------------- imperative code

  /** The queued events of the CR. */
  method PendingFor(queue: seq<Event>, cr: Cr) returns (pending: seq<Event>)
    ensures pending == For(queue, cr)
  {
    pending := [];
    for i := 0 to |queue|
      invariant pending == For(queue[..i], cr)
    {
      assert queue[..i + 1][..i] == queue[..i];
      if queue[i].cr == cr { pending := pending + [queue[i]]; }
    }
    assert queue[..|queue|] == queue;
  }

  /** What of the pending events was not emitted yet. */
  method FreshOf(pending: seq<Event>, done: set<Event>) returns (rest: seq<Event>)
    ensures rest == Fresh(pending, done)
  {
    rest := [];
    for i := 0 to |pending|
      invariant rest == Fresh(pending[..i], done)
    {
      assert pending[..i + 1][..i] == pending[..i];
      if pending[i] !in done { rest := rest + [pending[i]]; }
    }
    assert pending[..|pending|] == pending;
  }

  class Sink {
    var queue: seq<Event>
    var mirror: map<Cr, seq<Note>>
    var emitted: seq<Event>
    var accepted: seq<Event>

    function View(): World
      reads this
    {
      World(queue, mirror, emitted, accepted)
    }

    constructor ()
      ensures View() == EMPTY
    {
      queue, mirror, emitted, accepted := [], map[], [], [];
    }

    method DeferToNextTick(e: Event, mirrorOk: bool)
      modifies this
      ensures View() == Deferred(old(View()), e, mirrorOk)
    {
      if |queue| >= MAX_DEFERRED_WARNING_EVENTS { return; }
      queue, accepted := queue + [e], accepted + [e];
      var entries := MirrorOf(View(), e.cr);
      if mirrorOk && |entries| < MAX_DEFERRED_WARNING_EVENTS {
        mirror := mirror[e.cr := entries + [e.note]];
      }
    }

    /** Emits one event after the other; an emit that raises ends it. */
    method EmitAll(events: seq<Event>, emits: Option<nat>) returns (raised: bool, left: Option<nat>)
      modifies this`emitted
      ensures emitted == old(emitted) + Emitted(events, emits) && raised == Raises(events, emits)
      ensures !raised ==> left == Left(events, emits)
    {
      left, raised := emits, false;
      for i := 0 to |events|
        invariant emits.Some? ==> i <= emits.value && left == Some(emits.value - i)
        invariant emits.None? ==> left.None?
        invariant emitted == old(emitted) + events[..i] && !raised
      {
        if left == Some(0) {
          raised := true;
          return;
        }
        emitted := emitted + [events[i]];
        assert events[..i + 1] == events[..i] + [events[i]];
        if left.Some? { left := Some(left.value - 1); }
      }
      assert events[..|events|] == events;
    }

    /** Takes the CR's events off the queue. */
    method Dequeue(cr: Cr)
      modifies this`queue
      ensures queue == Others(old(queue), cr)
    {
      var kept: seq<Event> := [];
      for i := 0 to |queue|
        invariant kept == Others(queue[..i], cr)
      {
        assert queue[..i + 1][..i] == queue[..i];
        if queue[i].cr != cr { kept := kept + [queue[i]]; }
      }
      assert queue[..|queue|] == queue;
      queue := kept;
    }

    /** Emits the mirror of the CR and clears it. */
    method EmitPersisted(cr: Cr, f: Faults) returns (persisted: seq<Event>, raised: bool, left: Option<nat>)
      modifies this`emitted, this`mirror
      ensures View() == FirstPhase(old(View()), cr, f) && persisted == Persisted(old(View()), cr, f)
      ensures raised == Raises(persisted, f.emits) && (!raised ==> left == Left(persisted, f.emits))
    {
      persisted := if f.readOk then EventsOf(cr, MirrorOf(View(), cr)) else [];
      raised, left := EmitAll(persisted, f.emits);
      if !raised && persisted != [] && f.clearOk { mirror := mirror - {cr}; }
    }

    /** The drain of one CR; it ends where an emit raises. */
    method FlushFor(cr: Cr, f: Faults)
      modifies this
      ensures View() == Flushed(old(View()), cr, f)
    {
      var pending := PendingFor(queue, cr);
      var persisted, raised, left := EmitPersisted(cr, f);
      if raised { return; }
      var rest := FreshOf(pending, AsSet(persisted));
      Drain(cr, rest, left);
    }

    /** The second phase. */
    method Drain(cr: Cr, rest: seq<Event>, emits: Option<nat>)
      modifies this
      ensures View() == Drained(old(View()), cr, rest, emits)
    {
      var raised, left := EmitAll(rest, emits);
      if !raised { Dequeue(cr); }
    }
  }
}
