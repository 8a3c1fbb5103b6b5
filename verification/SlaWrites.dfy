/** The record writes of the SLA monitor: each carries what is stored or marks an anchor that is there,
    and together they do to the table of records what the monitor does to its own maps. */
module SlaWrites {
  import opened Basics
  import opened Records
  import opened StatusRefinement
  import opened Sla
  import opened SlaRuns

  /** The status write that an effect makes, if any. */
  function WriteOf(e: Effect): Option<Write> {
    match e
    case PutSoftStop(id, r) => Some(Put(id, SoftStop(r)))
    case ClearSoftStop(id) => Some(Drop(SoftStops, id))
    case PutStop(id, r) => Some(Put(id, Stop(r)))
    case PruneStop(id) => Some(Drop(StoppedAnalyses, id))
    case MarkEscalated(id, at, outcome) => Some(Write.Escalate(id, at, outcome))
    case _ => None
  }

  function WritesOf(log: seq<Effect>): seq<Write> {
    if log == [] then []
    else
      var front, x := WritesOf(log[..|log| - 1]), WriteOf(log[|log| - 1]);
      if x.Some? then front + [x.value] else front
  }

  /** At (f, k) the table holds the monitor's record, or what the base holds if f is another map. */
  predicate ShowsAt(t: Table, base: Table, softStops: map<string, SoftStopRecord>, stopped: map<string, StopRecord>,
                    f: Field, k: string) {
    match f
    case SoftStops => ((f, k) in t <==> k in softStops) && (k in softStops ==> t[(f, k)] == SoftStop(softStops[k]))
    case StoppedAnalyses => ((f, k) in t <==> k in stopped) && (k in stopped ==> t[(f, k)] == Stop(stopped[k]))
    case _ => ((f, k) in t <==> (f, k) in base) && ((f, k) in base ==> t[(f, k)] == base[(f, k)])
  }

  ghost predicate Shows(t: Table, base: Table, w: World) {
    forall f, k :: ShowsAt(t, base, w.softStops, w.stopped, f, k)
  }

  /** Since entry n of the log every write was admissible, and they made of the base what `w` holds. */
  ghost predicate Follows(base: Table, n: nat, w: World) {
    && n <= |w.log| && AllAdmissible(base, WritesOf(w.log[n..]))
    && Shows(Plain(base, WritesOf(w.log[n..])), base, w)
  }

  lemma WriteShows(t: Table, base: Table, w: World, e: Effect, f: Field, k: string)
    requires Shows(t, base, w) && InOrder(w, e) && WriteOf(e).Some?
    ensures ShowsAt(ApplyPlain(t, WriteOf(e).value), base, Change(w, e).softStops, Change(w, e).stopped, f, k)
  {
    assert ShowsAt(t, base, w.softStops, w.stopped, f, k) &&
           ShowsAt(t, base, w.softStops, w.stopped, SoftStops, e.id) &&
           ShowsAt(t, base, w.softStops, w.stopped, StoppedAnalyses, e.id);
  }

  lemma ShowsChange(t: Table, base: Table, w: World, e: Effect)
    requires Shows(t, base, w) && InOrder(w, e)
    ensures WriteOf(e).Some? ==>
              Admissible(t, WriteOf(e).value) && Shows(ApplyPlain(t, WriteOf(e).value), base, Change(w, e))
    ensures WriteOf(e).None? ==> Shows(t, base, Change(w, e))
  {
    if WriteOf(e).Some? {
      assert ShowsAt(t, base, w.softStops, w.stopped, SoftStops, e.id) &&
             ShowsAt(t, base, w.softStops, w.stopped, StoppedAnalyses, e.id);
      forall f, k
        ensures ShowsAt(ApplyPlain(t, WriteOf(e).value), base, Change(w, e).softStops, Change(w, e).stopped, f, k)
      {
        WriteShows(t, base, w, e, f, k);
      }
    } else {
      assert Change(w, e) == w;
    }
  }

  lemma WritesGrow(log: seq<Effect>, e: Effect)
    ensures WritesOf(log + [e]) == if WriteOf(e).Some? then WritesOf(log) + [WriteOf(e).value] else WritesOf(log)
  {
    assert (log + [e])[..|log|] == log;
  }

  lemma DoFollows(base: Table, n: nat, w: World, e: Effect)
    requires Follows(base, n, w) && (!w.crashed ==> InOrder(w, e))
    ensures Follows(base, n, Do(w, e))
  {
    if !w.crashed && w.fuel > 0 {
      var since := w.log[n..];
      assert (w.log + [e])[n..] == since + [e];
      WritesGrow(since, e);
      ShowsChange(Plain(base, WritesOf(since)), base, w, e);
      if WriteOf(e).Some? { AdmissibleGrows(base, WritesOf(since), WriteOf(e).value); }
    }
  }

  lemma FollowsPreserved(base: Table, n: nat, id: string)
    ensures Preserved(w => Follows(base, n, w), id)
  {
    forall w: World, e: Effect | Follows(base, n, w) && e.id == id &&
        (!w.crashed ==> InOrder(w, e)) ensures Follows(base, n, Do(w, e)) {
      DoFollows(base, n, w, e);
    }
  }

  /** Every step of the monitor, with a failure anywhere, writes admissibly, and the writes make the
      table show the anchors and stop records that it leaves. */
  lemma NextFollows(base: Table, w: World, s: Step, after: World)
    requires Next(w, s, after) && AllPaired(w) && Shows(base, base, w)
    ensures Follows(base, |w.log|, after)
  {
    var inv := (u: World) => Follows(base, |w.log|, u);
    assert w.log[|w.log|..] == [];
    if s.Poll? {
      forall x ensures Preserved(inv, x) { FollowsPreserved(base, |w.log|, x); }
      assert inv(Start(w, s.fuel));
      TickKeeps(Start(w, s.fuel), s.cfg, s.now, s.views, inv);
    } else {
      DoFollows(base, |w.log|, Start(w, 1), if s.PruneAnchor? then ClearSoftStop(s.id) else PruneStop(s.id));
    }
  }
}
