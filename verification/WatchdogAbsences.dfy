/** The debounce of the hygiene pass, by its counters: what one pass removes and counts, and by when an
    entry that nobody sees any more is gone. */
module WatchdogAbsences {
  import opened Basics
  import opened Ordering
  import opened Records
  import opened Watchdog
  import opened WatchdogRuns
  import opened WatchdogAnchors
  import opened WatchdogGuards

  function Absences(counters: map<string, nat>, id: string): nat { if id in counters then counters[id] else 0 }

  /** The third check in a row that does not see a tracked id. */
  predicate ThirdAbsence(counters: map<string, nat>, live: set<string>, id: string) {
    id !in live && Absences(counters, id) >= 2
  }

  function CountAfter(counters: map<string, nat>, tracked: bool, live: set<string>, id: string): nat {
    if !tracked || id in live || ThirdAbsence(counters, live, id) then 0 else Absences(counters, id) + 1
  }

  lemma BumpedIs(counters: map<string, nat>, tracked: set<string>, live: set<string>, id: string)
    ensures var b := Bumped(counters, tracked, live);
            && (id in b <==> id in tracked && id !in live)
            && (id in b ==> b[id] == Absences(counters, id) + 1)
            && (id in Confirmed(b) <==> id in tracked && ThirdAbsence(counters, live, id))
            && Absences(b - Confirmed(b), id) == CountAfter(counters, id in tracked, live, id)
  {}

  /** The counters and the three debounced maps after a pass that prunes, and after one that does not. */
  lemma SweptIs(w: World, datapoints: set<string>, analyses: set<string>)
    requires !w.crashed && !Sweep(w, datapoints, analyses).crashed
    ensures var c, after := w.cache, Sweep(w, datapoints, analyses);
            && after.cache.absentDatapoints == c.absentDatapoints - Confirmed(c.absentDatapoints)
            && after.cache.absentAnalyses == c.absentAnalyses - Confirmed(c.absentAnalyses)
  {
    var c := w.cache;
    if Confirmed(c.absentDatapoints) == {} { assert c.absentDatapoints - {} == c.absentDatapoints; }
    if Confirmed(c.absentAnalyses) == {} { assert c.absentAnalyses - {} == c.absentAnalyses; }
  }

  lemma SweptMaps(w: World, datapoints: set<string>, analyses: set<string>, id: string)
    requires !w.crashed && !Sweep(w, datapoints, analyses).crashed
    requires id in w.status.requeues ==> id in datapoints || id in w.cache.absentDatapoints
    requires id in TrackedAnalyses(w.status) ==> id in analyses || id in w.cache.absentAnalyses
    requires datapoints !! w.cache.absentDatapoints.Keys && analyses !! w.cache.absentAnalyses.Keys
    ensures var c, s, after := w.cache, w.status, Sweep(w, datapoints, analyses).status;
            && (id in after.requeues <==> id in s.requeues && id !in Confirmed(c.absentDatapoints))
            && (id in after.requeues ==> after.requeues[id] == s.requeues[id])
            && (id in after.softStops <==> id in s.softStops && id !in Confirmed(c.absentAnalyses))
            && (id in after.archived <==> id in s.archived && id !in Confirmed(c.absentAnalyses))
  {}

  /** One pass that runs to its end, by its inputs: a `requeues` entry goes exactly with the third check in
      a row that does not see its datapoint, an analysis entry likewise; a counter is one up for a tracked
      id that was not seen and stays, and gone otherwise. */
  lemma PassOutcome(w: World, datapoints: set<string>, analyses: set<string>, id: string)
    requires !w.crashed && !Hygiene(w, datapoints, analyses).crashed
    ensures var c, s, after := w.cache, w.status, Hygiene(w, datapoints, analyses);
            var goneD, goneA := ThirdAbsence(c.absentDatapoints, datapoints, id),
                                ThirdAbsence(c.absentAnalyses, analyses, id);
            && (id in after.status.requeues <==> id in s.requeues && !goneD)
            && (id in after.status.requeues ==> after.status.requeues[id] == s.requeues[id])
            && (id in after.status.softStops <==> id in s.softStops && !goneA)
            && (id in after.status.archived <==> id in s.archived && !goneA)
            && Absences(after.cache.absentDatapoints, id) ==
                 CountAfter(c.absentDatapoints, id in s.requeues, datapoints, id)
            && Absences(after.cache.absentAnalyses, id) ==
                 CountAfter(c.absentAnalyses, id in s.softStops + s.archived, analyses, id)
  {
    BumpedIs(w.cache.absentDatapoints, w.status.requeues.Keys, datapoints, id);
    BumpedIs(w.cache.absentAnalyses, TrackedAnalyses(w.status), analyses, id);
    if w.status.requeues != map[] || TrackedAnalyses(w.status) != {} {
      var counted := Do(w, Checked(datapoints, analyses)).(cache := CheckedCache(w, datapoints, analyses));
      SweptIs(counted, datapoints, analyses);
      SweptMaps(counted, datapoints, analyses, id);
    } else {
      assert id !in w.status.softStops && id !in w.status.archived;
    }
  }

  // ---------------------------------------------------------------- polls

  /** The poll is a tenth one of its process. */
  predicate Heavy(w: World) { (w.cache.ticks + 1) % 10 == 0 }

  /** In no view of the poll. */
  predicate Unseen(s: Step, id: string)
    requires s.Poll?
  {
    id !in s.views.started && id !in s.views.heavyDatapoints
  }

  lemma ActedCache(w: World, cfg: Config, now: Time, v: Views)
    ensures Acted(w, cfg, now, v).cache.ticks == w.cache.ticks
    ensures Acted(w, cfg, now, v).cache.absentDatapoints == w.cache.absentDatapoints
  {
    ActedKeeps(w, cfg, now, v,
               (x: World) => x.cache.ticks == w.cache.ticks && x.cache.absentDatapoints == w.cache.absentDatapoints);
  }

  lemma ActedRecord(w: World, cfg: Config, now: Time, v: Views, id: string)
    requires id !in v.started && !Acted(w, cfg, now, v).crashed
    ensures RecordOf(Acted(w, cfg, now, v), id) == RecordOf(w, id)
  {
    var cleared := ClearAll(w, v.departed);
    var observed := ObserveAll(cleared, now, v.started);
    CrashLasts(w, cfg, now, v);
    ClearAllOutcome(w, v.departed, id);
    ObserveAllApart(cleared, now, v.started, id);
    RequeueAllApart(observed, cfg, now, v.started, id);
  }

  /** The end of a completed poll: the count of polls, and a pass in a heavy one. */
  lemma FinishOutcome(w: World, v: Views, id: string)
    requires !Finish(w, v).crashed
    ensures var after, n := Finish(w, v), Absences(w.cache.absentDatapoints, id);
            var seen := id in v.started || id in v.heavyDatapoints;
            && !w.crashed && after.cache.ticks == w.cache.ticks + 1
            && (id in after.status.requeues <==> id in w.status.requeues && !(Heavy(w) && n >= 2 && !seen))
            && (id in after.status.requeues ==>
                  Absences(after.cache.absentDatapoints, id) == if !Heavy(w) then n else if seen then 0 else n + 1)
  {
    var datapoints := Elements(v.started) + v.heavyDatapoints;
    assert id in datapoints <==> id in v.started || id in v.heavyDatapoints;
    if Heavy(w) {
      PassOutcome(Counted(w), datapoints, v.heavyAnalyses, id);
      HygieneTicks(Counted(w), datapoints, v.heavyAnalyses);
    }
  }

  lemma HygieneTicks(w: World, datapoints: set<string>, analyses: set<string>)
    ensures Hygiene(w, datapoints, analyses).cache.ticks == w.cache.ticks
  {}

  /** A completed poll, for a datapoint in no view: its entry goes with the third heavy check in a row,
      and until then each heavy check adds one to its counter. */
  lemma UnseenOutcome(w: World, s: Step, id: string)
    requires s.Poll? && ValidViews(w.status, s.views) && Unseen(s, id) && !PollFrom(w, s).crashed
    ensures var after, n := PollFrom(w, s), Absences(w.cache.absentDatapoints, id);
            && after.cache.ticks == w.cache.ticks + 1
            && (id in after.status.requeues <==> id in w.status.requeues && !(Heavy(w) && n >= 2))
            && (id in after.status.requeues ==>
                  Absences(after.cache.absentDatapoints, id) == if Heavy(w) then n + 1 else n)
  {
    var start, v := Begin(w, s), s.views;
    var acted := Acted(start, s.cfg, s.now, v);
    FinishOutcome(acted, v, id);
    ActedCache(start, s.cfg, s.now, v);
    ActedRecord(start, s.cfg, s.now, v, id);
  }

  /** A completed poll that sees a datapoint keeps its entry, and a heavy one forgets its absences. */
  lemma SeenOutcome(w: World, s: Step, id: string)
    requires s.Poll? && !Unseen(s, id) && !PollFrom(w, s).crashed
    requires id in w.status.requeues
    ensures id in PollFrom(w, s).status.requeues
    ensures Absences(PollFrom(w, s).cache.absentDatapoints, id) ==
              if Heavy(w) then 0 else Absences(w.cache.absentDatapoints, id)
  {
    var start, v := Begin(w, s), s.views;
    var acted := Acted(start, s.cfg, s.now, v);
    FinishOutcome(acted, v, id);
    ActedCache(start, s.cfg, s.now, v);
    ActedRetains(start, s.cfg, s.now, v, id);
  }

  // ---------------------------------------------------------------- runs

  /** From i to j: completed polls that do not see the datapoint, and writes of the other handlers. */
  predicate UnseenThroughout(worlds: seq<World>, steps: seq<Step>, i: nat, j: nat, id: string)
    requires IsRun(worlds, steps) && i <= j <= |steps|
  {
    forall k :: i <= k < j ==>
      steps[k].Others? || (steps[k].Poll? && Unseen(steps[k], id) && !worlds[k + 1].crashed)
  }

  /** Since `from` polls, as many absences are counted as there were heavy polls, or the entry is gone. */
  predicate CountedSince(from: nat, ticks: nat, tracked: bool, absences: nat) {
    && from <= ticks
    && (!tracked || ticks / 10 == from / 10 || ticks / 10 - from / 10 <= absences <= 2)
  }

  lemma TenthPoll(ticks: nat)
    ensures (ticks + 1) / 10 == ticks / 10 + if (ticks + 1) % 10 == 0 then 1 else 0
  {}

  lemma CountedOnce(from: nat, ticks: nat, tracked: bool, n: nat, tracked': bool, n': nat)
    requires CountedSince(from, ticks, tracked, n)
    requires var heavy := (ticks + 1) % 10 == 0;
             (tracked' <==> tracked && !(heavy && n >= 2)) && (tracked' ==> n' == if heavy then n + 1 else n)
    ensures CountedSince(from, ticks + 1, tracked', n')
  {
    TenthPoll(ticks);
  }

  predicate CountedIn(from: nat, w: World, id: string) {
    CountedSince(from, w.cache.ticks, id in w.status.requeues, Absences(w.cache.absentDatapoints, id))
  }

  lemma UnseenStep(from: nat, w: World, s: Step, id: string)
    requires s.Poll? && ValidViews(w.status, s.views) && Unseen(s, id) && !PollFrom(w, s).crashed
    requires CountedIn(from, w, id)
    ensures CountedIn(from, PollFrom(w, s), id)
  {
    UnseenOutcome(w, s, id);
    var after := PollFrom(w, s);
    CountedOnce(from, w.cache.ticks, id in w.status.requeues, Absences(w.cache.absentDatapoints, id),
                id in after.status.requeues, Absences(after.cache.absentDatapoints, id));
  }

  lemma {:induction false} UnseenIsCounted(worlds: seq<World>, steps: seq<Step>, i: nat, j: nat, id: string)
    requires IsRun(worlds, steps) && i <= j <= |steps| && UnseenThroughout(worlds, steps, i, j, id)
    ensures CountedIn(worlds[i].cache.ticks, worlds[j], id)
  {
    if i < j {
      UnseenIsCounted(worlds, steps, i, j - 1, id);
      NextAt(worlds, steps, j - 1);
      if steps[j - 1].Poll? { UnseenStep(worlds[i].cache.ticks, worlds[j - 1], steps[j - 1], id); }
    }
  }

  /** The age-out comes about: after thirty completed polls of one process, none of which sees the
      datapoint, its `requeues` entry is gone, whenever in the cycle of ten the first one falls. */
  lemma GoneAfterThirtyPolls(worlds: seq<World>, steps: seq<Step>, i: nat, j: nat, id: string)
    requires IsRun(worlds, steps) && i <= j <= |steps| && UnseenThroughout(worlds, steps, i, j, id)
    requires worlds[j].cache.ticks >= worlds[i].cache.ticks + 30
    ensures id !in worlds[j].status.requeues
  {
    UnseenIsCounted(worlds, steps, i, j, id);
  }
}
