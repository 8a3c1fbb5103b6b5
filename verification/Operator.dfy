/** Retention, SLA monitor and watchdog on one status: their ticks interleave in any order, the
    watchdog's prune cuts the maps of the other two, and every write goes through the store. */
module Operator {
  import opened Basics
  import opened Json
  import opened Records
  import opened StatusStore
  import opened StatusRefinement
  import R = Retention
  import RetentionRuns
  import RetentionWrites
  import S = Sla
  import SlaRuns
  import SlaWrites
  import W = Watchdog
  import WatchdogRuns
  import WatchdogWrites

  /** What each handler works with, and all status writes so far. */
  datatype System = System(retention: R.World, sla: S.World, watchdog: W.World, writes: seq<Write>)

  datatype Step =
    | RetentionStep(retention: RetentionRuns.Step)
    | SlaStep(sla: SlaRuns.Step)
    | WatchdogStep(watchdog: WatchdogRuns.Step)

  function Kept<V>(m: map<string, V>, keys: set<string>): map<string, V> { map k | k in m && k in keys :: m[k] }

  /** The watchdog, seeing the keys that the other two hold now. */
  function Seeing(w: W.World, retention: R.World, sla: S.World): W.World {
    w.(status := w.status.(softStops := sla.softStops.Keys, archived := retention.archived.Keys,
                           stopped := sla.stopped.Keys))
  }

  /** What the log gained since it had n entries. */
  function Gained<E>(log: seq<E>, n: nat): seq<E> { if n <= |log| then log[n..] else [] }

  /** One handler takes a step of its own; the writes it makes are appended, and the others see them.
      Of the watchdog's steps only polls and process bounces are its own. */
  ghost predicate Next(sys: System, step: Step, after: System, name: string -> string) {
    match step
    case RetentionStep(s) =>
      && RetentionRuns.Next(sys.retention, s, after.retention, name) && after.sla == sys.sla
      && after.watchdog == Seeing(sys.watchdog, after.retention, sys.sla)
      && after.writes == sys.writes + RetentionWrites.WritesOf(Gained(after.retention.log, |sys.retention.log|))
    case SlaStep(s) =>
      && SlaRuns.Next(sys.sla, s, after.sla) && after.retention == sys.retention
      && after.watchdog == Seeing(sys.watchdog, sys.retention, after.sla)
      && after.writes == sys.writes + SlaWrites.WritesOf(Gained(after.sla.log, |sys.sla.log|))
    case WatchdogStep(s) =>
      && (s.Poll? || s.Bounce?) && WatchdogRuns.Next(sys.watchdog, s, after.watchdog)
      && after.retention == sys.retention.(archived := Kept(sys.retention.archived, after.watchdog.status.archived))
      && after.sla == sys.sla.(softStops := Kept(sys.sla.softStops, after.watchdog.status.softStops),
                               stopped := Kept(sys.sla.stopped, after.watchdog.status.stopped))
      && after.writes == sys.writes + WatchdogWrites.WritesOf(Gained(after.watchdog.log, |sys.watchdog.log|))
  }

  predicate Blank(sys: System) {
    && sys.retention.archived == map[] && sys.retention.log == []
    && sys.sla.softStops == map[] && sys.sla.stopped == map[] && sys.sla.log == []
    && sys.watchdog.status == W.Status(map[], map[], {}, {}, {}) && sys.watchdog.log == []
    && sys.writes == []
  }

  ghost predicate IsRun(systems: seq<System>, steps: seq<Step>, name: string -> string) {
    && |systems| == |steps| + 1 && Blank(systems[0])
    && forall i :: 0 <= i < |steps| ==> Next(systems[i], steps[i], systems[i + 1], name)
  }

  // ---------------------------------------------------------------- the table that the handlers hold

  /** The record that the handler in charge of the map holds. */
  function RecordAt(sys: System, f: Field, k: string): Option<Record> {
    match f
    case SoftStops => if k in sys.sla.softStops then Some(SoftStop(sys.sla.softStops[k])) else None
    case StoppedAnalyses => if k in sys.sla.stopped then Some(Stop(sys.sla.stopped[k])) else None
    case ArchivedAnalyses => if k in sys.retention.archived then Some(Archived(sys.retention.archived[k])) else None
    case Requeues => if k in sys.watchdog.status.requeues then Some(Requeue(sys.watchdog.status.requeues[k])) else None
    case StartedSince => if k in sys.watchdog.status.since then Some(Since(sys.watchdog.status.since[k])) else None
  }

  predicate HoldsAt(t: Table, record: Option<Record>, f: Field, k: string) {
    ((f, k) in t <==> record.Some?) && (record.Some? ==> t[(f, k)] == record.value)
  }

  /** The table holds exactly the handlers' records. */
  ghost predicate Holds(t: Table, sys: System) { forall f, k :: HoldsAt(t, RecordAt(sys, f, k), f, k) }

  predicate Linked(sys: System) { sys.watchdog == Seeing(sys.watchdog, sys.retention, sys.sla) }

  ghost predicate Inv(sys: System, name: string -> string) {
    && AllAdmissible(map[], sys.writes) && Holds(Plain(map[], sys.writes), sys) && Linked(sys)
    && SlaRuns.Sound(sys.sla) && RetentionRuns.Sound(sys.retention, name)
  }

  // ---------------------------------------------------------------- one step of each handler

  lemma RetentionHolds(t: Table, base: Table, sys: System, after: System)
    requires Holds(base, sys) && RetentionWrites.Shows(t, base, after.retention)
    requires after.sla == sys.sla && after.watchdog == Seeing(sys.watchdog, after.retention, sys.sla)
    ensures Holds(t, after)
  {
    forall f, k ensures HoldsAt(t, RecordAt(after, f, k), f, k) {
      assert HoldsAt(base, RecordAt(sys, f, k), f, k) &&
             RetentionWrites.ShowsAt(t, base, after.retention.archived, f, k);
    }
  }

  lemma RetentionShown(t: Table, sys: System)
    requires Holds(t, sys)
    ensures RetentionWrites.Shows(t, t, sys.retention)
  {
    forall f, k
      ensures RetentionWrites.ShowsAt(t, t, sys.retention.archived, f, k)
    {
      assert HoldsAt(t, RecordAt(sys, f, k), f, k);
    }
  }

  lemma RetentionKeeps(sys: System, s: RetentionRuns.Step, after: System, name: string -> string)
    requires Inv(sys, name) && Next(sys, RetentionStep(s), after, name)
    ensures Inv(after, name)
  {
    var base, delta := Plain(map[], sys.writes),
                       RetentionWrites.WritesOf(Gained(after.retention.log, |sys.retention.log|));
    RetentionShown(base, sys);
    RetentionWrites.NextFollows(base, sys.retention, s, after.retention, name);
    AdmissibleConcat(map[], sys.writes, delta);
    RetentionHolds(Plain(base, delta), base, sys, after);
    RetentionRuns.NextSound(sys.retention, s, after.retention, name);
  }

  lemma SlaHolds(t: Table, base: Table, sys: System, after: System)
    requires Holds(base, sys) && SlaWrites.Shows(t, base, after.sla)
    requires after.retention == sys.retention && after.watchdog == Seeing(sys.watchdog, sys.retention, after.sla)
    ensures Holds(t, after)
  {
    forall f, k ensures HoldsAt(t, RecordAt(after, f, k), f, k) {
      assert HoldsAt(base, RecordAt(sys, f, k), f, k) &&
             SlaWrites.ShowsAt(t, base, after.sla.softStops, after.sla.stopped, f, k);
    }
  }

  lemma SlaShown(t: Table, sys: System)
    requires Holds(t, sys)
    ensures SlaWrites.Shows(t, t, sys.sla)
  {
    forall f, k
      ensures SlaWrites.ShowsAt(t, t, sys.sla.softStops, sys.sla.stopped, f, k)
    {
      assert HoldsAt(t, RecordAt(sys, f, k), f, k);
    }
  }

  lemma SlaKeeps(sys: System, s: SlaRuns.Step, after: System, name: string -> string)
    requires Inv(sys, name) && Next(sys, SlaStep(s), after, name)
    ensures Inv(after, name)
  {
    var base, delta := Plain(map[], sys.writes), SlaWrites.WritesOf(Gained(after.sla.log, |sys.sla.log|));
    SlaShown(base, sys);
    SlaWrites.NextFollows(base, sys.sla, s, after.sla);
    AdmissibleConcat(map[], sys.writes, delta);
    SlaHolds(Plain(base, delta), base, sys, after);
    SlaRuns.NextSound(sys.sla, s, after.sla);
  }

  lemma WatchdogShown(t: Table, sys: System)
    requires Holds(t, sys) && Linked(sys)
    ensures WatchdogWrites.Shows(t, t, sys.watchdog)
  {
    forall f, k
      ensures WatchdogWrites.ShowsAt(t, t, sys.watchdog.status, f, k)
    {
      assert HoldsAt(t, RecordAt(sys, f, k), f, k);
    }
  }

  lemma WatchdogHolds(t: Table, base: Table, sys: System, after: System)
    requires Holds(base, sys) && WatchdogWrites.Shows(t, base, after.watchdog)
    requires after.retention.archived == Kept(sys.retention.archived, after.watchdog.status.archived)
    requires after.sla.softStops == Kept(sys.sla.softStops, after.watchdog.status.softStops)
    requires after.sla.stopped == Kept(sys.sla.stopped, after.watchdog.status.stopped)
    ensures Holds(t, after) && Linked(after)
  {
    forall f, k ensures HoldsAt(t, RecordAt(after, f, k), f, k) {
      assert HoldsAt(base, RecordAt(sys, f, k), f, k) && WatchdogWrites.ShowsAt(t, base, after.watchdog.status, f, k);
    }
    forall k ensures k in after.watchdog.status.softStops <==> k in after.sla.softStops {
      assert HoldsAt(base, RecordAt(sys, SoftStops, k), SoftStops, k) &&
             WatchdogWrites.ShowsAt(t, base, after.watchdog.status, SoftStops, k);
    }
    forall k ensures k in after.watchdog.status.archived <==> k in after.retention.archived {
      assert HoldsAt(base, RecordAt(sys, ArchivedAnalyses, k), ArchivedAnalyses, k)
          && WatchdogWrites.ShowsAt(t, base, after.watchdog.status, ArchivedAnalyses, k);
    }
    forall k ensures k in after.watchdog.status.stopped <==> k in after.sla.stopped {
      assert HoldsAt(base, RecordAt(sys, StoppedAnalyses, k), StoppedAnalyses, k)
          && WatchdogWrites.ShowsAt(t, base, after.watchdog.status, StoppedAnalyses, k);
    }
  }

  lemma WatchdogFollows(base: Table, w: W.World, s: WatchdogRuns.Step, after: W.World)
    requires WatchdogRuns.Next(w, s, after) && (s.Poll? || s.Bounce?) && WatchdogWrites.Shows(base, base, w)
    ensures WatchdogWrites.Follows(base, |w.log|, after)
  {
    if s.Poll? { WatchdogWrites.PollFollows(base, w, s); } else { assert w.log[|w.log|..] == []; }
  }

  lemma WatchdogKeeps(sys: System, s: WatchdogRuns.Step, after: System, name: string -> string)
    requires Inv(sys, name) && Next(sys, WatchdogStep(s), after, name)
    ensures Inv(after, name)
  {
    var base, delta := Plain(map[], sys.writes),
                       WatchdogWrites.WritesOf(Gained(after.watchdog.log, |sys.watchdog.log|));
    WatchdogShown(base, sys);
    WatchdogFollows(base, sys.watchdog, s, after.watchdog);
    AdmissibleConcat(map[], sys.writes, delta);
    WatchdogHolds(Plain(base, delta), base, sys, after);
  }

  // ---------------------------------------------------------------- whole runs

  lemma BlankInv(sys: System, name: string -> string)
    requires Blank(sys)
    ensures Inv(sys, name)
  {
    assert sys.watchdog.status.softStops == sys.sla.softStops.Keys;
  }

  lemma NextInv(sys: System, step: Step, after: System, name: string -> string)
    requires Inv(sys, name) && Next(sys, step, after, name)
    ensures Inv(after, name)
  {
    match step
    case RetentionStep(s) => RetentionKeeps(sys, s, after, name);
    case SlaStep(s) => SlaKeeps(sys, s, after, name);
    case WatchdogStep(s) => WatchdogKeeps(sys, s, after, name);
  }

  lemma {:induction false} RunInv(systems: seq<System>, steps: seq<Step>, name: string -> string, i: nat)
    requires IsRun(systems, steps, name) && i <= |steps|
    ensures Inv(systems[i], name)
  {
    if i == 0 {
      BlankInv(systems[0], name);
    } else {
      RunInv(systems, steps, name, i - 1);
      assert Next(systems[i - 1], steps[i - 1], systems[i], name);
      NextInv(systems[i - 1], steps[i - 1], systems[i], name);
    }
  }

  lemma EmptyRepresents()
    ensures Represents(Obj(map[]), map[])
  {}

  /** One status, one table: over every run that interleaves the three handlers, with failures at any
      effect, prunes, process bounces and changing configuration, each write carries the optional fields
      already stored, so below the cap the merged JSON status holds exactly the records that the
      handlers hold, and reading any entry of any of the five maps gives the record last written. */
  lemma StatusIsOneTable(systems: seq<System>, steps: seq<Step>, name: string -> string, protected: set<string>,
                         f: Field, k: string)
    requires IsRun(systems, steps, name) && AllBelowCap(Obj(map[]), systems[|steps|].writes, protected)
    ensures var status := Status(Obj(map[]), systems[|steps|].writes, protected);
            var record := RecordAt(systems[|steps|], f, k);
            && (k in Entries(status, FieldName(f)) <==> record.Some?)
            && (record.Some? ==> Decode(f, Current(status, FieldName(f), k)) == record)
  {
    var sys := systems[|steps|];
    RunInv(systems, steps, name, |steps|);
    EmptyRepresents();
    StoreRefinesTable(Obj(map[]), map[], sys.writes, protected);
    ReadHeld(Status(Obj(map[]), sys.writes, protected), Plain(map[], sys.writes), sys, f, k);
  }

  lemma ReadHeld(status: Value, t: Table, sys: System, f: Field, k: string)
    requires Represents(status, t) && Holds(t, sys)
    ensures k in Entries(status, FieldName(f)) <==> RecordAt(sys, f, k).Some?
    ensures RecordAt(sys, f, k).Some? ==> Decode(f, Current(status, FieldName(f), k)) == RecordAt(sys, f, k)
  {
    assert Agrees(status, t, f, k) && HoldsAt(t, RecordAt(sys, f, k), f, k);
    if (f, k) in t { ReadBack(status, t, f, k); }
  }

  /** The cardinal rule of retention holds in every such run, whatever the watchdog prunes. */
  lemma NeverDeletedUnverifiedTogether(systems: seq<System>, steps: seq<Step>, name: string -> string)
    requires IsRun(systems, steps, name)
    ensures RetentionRuns.CardinalRule(systems[|steps|].retention.log, name)
  {
    RunInv(systems, steps, name, |steps|);
  }
}
