/** What every run of the stall monitor keeps: restart spacing, the sustained window, bounded deferral. */
module StallRuns {
  import opened Basics
  import opened StallMonitor

  /** One timer poll, or an operator process bounce (or CR recreate), which loses the clocks. */
  datatype Event = Poll(now: Time, sensed: Sensed, faults: set<Effect>, dryRun: bool) | Bounce

  /** Restarts and clean-window resets, in the order in which they happened. */
  datatype Mark = Fired(at: Time) | CycleReset(at: Time)

  /** One entry per event: what the tick saw and when. */
  datatype Seen = At(at: Time, sight: Sight) | Bounced

  datatype History = History(state: State, now: Time, marks: seq<Mark>, seen: seq<Seen>)

  function Start(now: Time): History {
    History(State(Scalars(None, None, 0), FRESH_CLOCKS), now, [], [])
  }

  function OutcomeOf(h: History, e: Event, window: int): Outcome
    requires e.Poll?
  {
    Tick(h.state, e.now, window, e.sensed, e.faults, e.dryRun)
  }

  function MarksOf(o: Outcome, now: Time): seq<Mark> {
    if o.restarted then [Fired(now)] else if o.cycleReset then [CycleReset(now)] else []
  }

  function Extend(h: History, e: Event, window: int): History {
    match e
    case Bounce => History(State(h.state.durable, FRESH_CLOCKS), h.now, h.marks, h.seen + [Bounced])
    case Poll(now, _, _, _) =>
      var o := OutcomeOf(h, e, window);
      History(o.state, now, h.marks + MarksOf(o, now), h.seen + [At(now, o.sight)])
  }

  function Play(h: History, events: seq<Event>, window: int): History
    decreases |events|
  {
    if events == [] then h
    else Extend(Play(h, events[..|events| - 1], window), events[|events| - 1], window)
  }

  /** `Fine` holds of every event, judged in the history that precedes it. */
  ghost predicate Every(h: History, events: seq<Event>, window: int, fine: (History, Event) -> bool)
    decreases |events|
  {
    events != [] ==>
      && Every(h, events[..|events| - 1], window, fine)
      && fine(Play(h, events[..|events| - 1], window), events[|events| - 1])
  }

  /** The clock does not go back. */
  predicate Forward(h: History, e: Event) { e.Poll? ==> e.now >= h.now }

  /** What makes a poll issue a restart: it holds, the cooldown gate is open, the window is sustained and
      not deferred, and no effect up to the patch raises. */
  predicate Restarts(s: State, e: Event, window: int) {
    && e.Poll? && e.sensed == Holds && ReadGate !in e.faults && !GateClosed(s.durable, e.now, window)
    && (s.clocks.firstObserved.None? ==> ReadAnchor !in e.faults && WriteAnchor !in e.faults)
    && e.now - WindowBegin(s, e.now) >= window
    && (s.durable.lastRestart.Some? ==> ReadCountForBackoff !in e.faults)
    && !Deferred(s.durable, e.now, window)
    && (e.dryRun || PatchDeployment !in e.faults)
  }

  /** No effect after the patch and up to the cooldown anchor raises. */
  predicate Anchors(faults: set<Effect>) {
    EmitRestarted !in faults && ConsumeAnchor !in faults && WriteRestart !in faults
  }

  /** A restart with a predecessor is counted. */
  predicate Counts(d: Scalars, faults: set<Effect>) {
    d.lastRestart.Some? ==> ReadCount !in faults && WriteCount !in faults
  }

  /** If the poll restarts, it anchors the cooldown and counts; what it does after that may raise. */
  predicate Settles(h: History, e: Event, window: int) {
    Restarts(h.state, e, window) ==> Anchors(e.faults) && Counts(h.state.durable, e.faults)
  }

  lemma RestartsIff(s: State, e: Event, window: int)
    requires e.Poll?
    ensures Tick(s, e.now, window, e.sensed, e.faults, e.dryRun).restarted <==> Restarts(s, e, window)
  {}

  // ---------------------------------------------------------------- restart spacing

  /** Restarts since the last clean-window reset. */
  function Streak(marks: seq<Mark>): nat {
    if marks == [] || marks[|marks| - 1].CycleReset? then 0 else 1 + Streak(marks[..|marks| - 1])
  }

  function LastFired(marks: seq<Mark>): Option<Time> {
    if marks == [] then None
    else if marks[|marks| - 1].Fired? then Some(marks[|marks| - 1].at)
    else LastFired(marks[..|marks| - 1])
  }

  predicate After(t: Option<Time>, bound: Time) { t.Some? ==> t.value > bound }

  /** If entries i - 1 and i are restarts, they are spaced by two windows and by the backoff that
      their place in the streak earns. */
  predicate GapAt(marks: seq<Mark>, i: int, window: int)
    requires 0 < i < |marks|
  {
    marks[i].Fired? && marks[i - 1].Fired? ==>
      && marks[i].at - marks[i - 1].at > 2 * window
      && marks[i].at - marks[i - 1].at > window * BackoffTotal(Streak(marks[..i]) - 1)
  }

  predicate Spaced(marks: seq<Mark>, window: int) {
    forall i :: 0 < i < |marks| ==> GapAt(marks, i, window)
  }

  /** A restart is more than two windows after every earlier one, resets in between or not. */
  predicate Separated(marks: seq<Mark>, window: int) {
    forall i, j :: 0 <= i < j < |marks| && marks[i].Fired? && marks[j].Fired? ==>
      marks[j].at - marks[i].at > 2 * window
  }

  /** What links the volatile clocks, the persisted clocks, the last restart and the streak. A stall clock
      of before the cooldown can be left only once the count has engaged the breaker. */
  predicate Linked(s: State, now: Time, last: Option<Time>, streak: int, window: int) {
    var d, c := s.durable, s.clocks;
    && (last.Some? ==>
      && last.value <= now
      && (After(c.firstObserved, last.value + window)
          || (d.lastRestart == last && d.ineffective >= INEFFECTIVE_RESTART_EVENT_THRESHOLD))
      && After(d.windowStart, last.value + window)
      && (d.lastRestart.None? ==> now > last.value + window))
    && (d.lastRestart.Some? ==> d.lastRestart == last)
    && (d.lastRestart.None? ==> d.ineffective == 0 && streak == 0)
    && d.ineffective >= streak - 1
    && d.ineffective >= 0
  }

  predicate Ordered(marks: seq<Mark>) {
    forall i, j :: 0 <= i < j < |marks| ==> marks[i].at <= marks[j].at
  }

  predicate Paced(h: History, window: int) {
    && Spaced(h.marks, window)
    && Separated(h.marks, window)
    && Ordered(h.marks)
    && (h.marks != [] ==> h.marks[|h.marks| - 1].at <= h.now)
    && Linked(h.state, h.now, LastFired(h.marks), Streak(h.marks), window)
  }

  lemma AppendMark(marks: seq<Mark>, m: Mark)
    ensures Streak(marks + [m]) == if m.Fired? then 1 + Streak(marks) else 0
    ensures LastFired(marks + [m]) == if m.Fired? then Some(m.at) else LastFired(marks)
  {
    assert (marks + [m])[..|marks|] == marks;
  }

  lemma BackoffMonotone(a: int, b: int)
    requires a <= b
    ensures 2 <= BackoffTotal(a) <= BackoffTotal(b) <= 8
  {}

  lemma TimesMonotone(w: int, a: int, b: int)
    requires 0 <= w && a <= b
    ensures w * a <= w * b
  {}

  lemma StreakEndsFired(marks: seq<Mark>)
    ensures Streak(marks) > 0 ==>
              marks != [] && marks[|marks| - 1].Fired? && LastFired(marks) == Some(marks[|marks| - 1].at)
  {}

  /** A restart comes more than two windows, and more than the earned backoff, after the last one. */
  lemma FireGap(s: State, now: Time, last: Option<Time>, streak: nat, window: int, e: Event)
    requires 0 <= window && Linked(s, now, last, streak, window) && Restarts(s, e, window) && now <= e.now
    ensures last.Some? ==> e.now - last.value > 2 * window
    ensures last.Some? && streak > 0 ==> e.now - last.value > window * BackoffTotal(streak - 1)
  {
    if last.Some? {
      TimesMonotone(window, 2, BackoffTotal(s.durable.ineffective));
      if streak > 0 {
        BackoffMonotone(streak - 1, s.durable.ineffective);
        TimesMonotone(window, BackoffTotal(streak - 1), BackoffTotal(s.durable.ineffective));
      }
    }
  }

  lemma FireLinked(s: State, now: Time, last: Option<Time>, streak: nat, window: int, e: Event)
    requires 0 <= window && Linked(s, now, last, streak, window) && Restarts(s, e, window) && now <= e.now
    requires Anchors(e.faults) && Counts(s.durable, e.faults)
    ensures Linked(Tick(s, e.now, window, e.sensed, e.faults, e.dryRun).state, e.now, Some(e.now), streak + 1, window)
  {}

  lemma QuietLinked(s: State, now: Time, last: Option<Time>, streak: nat, window: int, e: Event)
    requires 0 <= window && Linked(s, now, last, streak, window) && e.Poll? && now <= e.now
    requires !Restarts(s, e, window)
    ensures var o := Tick(s, e.now, window, e.sensed, e.faults, e.dryRun);
            Linked(o.state, e.now, last, if o.cycleReset then 0 else streak, window)
  {}

  lemma FiredSpaced(marks: seq<Mark>, at: Time, window: int)
    requires Spaced(marks, window)
    requires LastFired(marks).Some? ==> at - LastFired(marks).value > 2 * window
    requires Streak(marks) > 0 ==>
               LastFired(marks).Some? && at - LastFired(marks).value > window * BackoffTotal(Streak(marks) - 1)
    ensures Spaced(marks + [Fired(at)], window)
  {
    var more := marks + [Fired(at)];
    forall i | 0 < i < |more|
      ensures GapAt(more, i, window)
    {
      assert more[..i] == marks[..i];
      if i < |marks| {
        assert GapAt(marks, i, window);
      } else {
        assert marks[..i] == marks;
        assert marks[i - 1].Fired? ==> Streak(marks) > 0;
      }
    }
  }

  lemma FiredSeparated(marks: seq<Mark>, at: Time, window: int)
    requires Separated(marks, window) && Ordered(marks)
    requires marks != [] ==> marks[|marks| - 1].at <= at
    requires LastFired(marks).Some? ==> at - LastFired(marks).value > 2 * window
    ensures Separated(marks + [Fired(at)], window) && Ordered(marks + [Fired(at)])
  {
    forall i | 0 <= i < |marks| && marks[i].Fired?
      ensures at - marks[i].at > 2 * window
    {
      FiredAtOrBefore(marks, i);
    }
  }

  lemma {:induction false} FiredAtOrBefore(marks: seq<Mark>, i: nat)
    requires i < |marks| && marks[i].Fired? && Ordered(marks)
    ensures LastFired(marks).Some? && marks[i].at <= LastFired(marks).value
  {
    if i < |marks| - 1 && marks[|marks| - 1].CycleReset? { FiredAtOrBefore(marks[..|marks| - 1], i); }
  }

  lemma ResetMarks(marks: seq<Mark>, at: Time, window: int)
    requires Spaced(marks, window) && Separated(marks, window) && Ordered(marks)
    requires marks != [] ==> marks[|marks| - 1].at <= at
    ensures var more := marks + [CycleReset(at)]; Spaced(more, window) && Separated(more, window) && Ordered(more)
  {
    var more := marks + [CycleReset(at)];
    forall i | 0 < i < |more|
      ensures GapAt(more, i, window)
    {
      assert more[..i] == marks[..i];
      assert i < |marks| ==> GapAt(marks, i, window);
    }
  }

  /** The next history, whatever it saw, with a restart at its end. */
  lemma FirePaced(h: History, next: State, at: Time, seen: seq<Seen>, window: int)
    requires Paced(h, window) && h.now <= at
    requires var last, streak := LastFired(h.marks), Streak(h.marks);
             && (last.Some? ==> at - last.value > 2 * window)
             && (last.Some? && streak > 0 ==> at - last.value > window * BackoffTotal(streak - 1))
             && Linked(next, at, Some(at), streak + 1, window)
    ensures Paced(History(next, at, h.marks + [Fired(at)], seen), window)
  {
    StreakEndsFired(h.marks);
    FiredSpaced(h.marks, at, window);
    FiredSeparated(h.marks, at, window);
    AppendMark(h.marks, Fired(at));
  }

  lemma ResetPaced(h: History, next: State, at: Time, seen: seq<Seen>, window: int)
    requires Paced(h, window) && h.now <= at && Linked(next, at, LastFired(h.marks), 0, window)
    ensures Paced(History(next, at, h.marks + [CycleReset(at)], seen), window)
  {
    ResetMarks(h.marks, at, window);
    AppendMark(h.marks, CycleReset(at));
  }

  lemma ExtendPaced(h: History, e: Event, window: int)
    requires 0 <= window && Paced(h, window) && Forward(h, e) && Settles(h, e, window)
    ensures Paced(Extend(h, e, window), window)
  {
    if e.Poll? {
      var o, last, streak := OutcomeOf(h, e, window), LastFired(h.marks), Streak(h.marks);
      var seen := h.seen + [At(e.now, o.sight)];
      RestartsIff(h.state, e, window);
      if Restarts(h.state, e, window) {
        FireGap(h.state, h.now, last, streak, window, e);
        FireLinked(h.state, h.now, last, streak, window, e);
        FirePaced(h, o.state, e.now, seen, window);
      } else {
        QuietLinked(h.state, h.now, last, streak, window, e);
        if o.cycleReset {
          ResetPaced(h, o.state, e.now, seen, window);
        } else {
          assert h.marks + MarksOf(o, e.now) == h.marks;
        }
      }
    }
  }

  /** The history as if its marks began at the n-th. */
  function From(h: History, n: nat): History
    requires n <= |h.marks|
  {
    h.(marks := h.marks[n..])
  }

  predicate PacedFrom(h: History, n: nat, window: int) { n <= |h.marks| && Paced(From(h, n), window) }

  lemma ExtendFrom(h: History, n: nat, e: Event, window: int)
    requires n <= |h.marks|
    ensures n <= |Extend(h, e, window).marks| && From(Extend(h, e, window), n) == Extend(From(h, n), e, window)
  {
    var more := Extend(h, e, window).marks;
    assert e.Poll? ==> more[n..] == h.marks[n..] + MarksOf(OutcomeOf(h, e, window), e.now);
  }

  /** From a paced history on, whatever came before, polls that settle their restarts keep the pace. */
  lemma {:induction false} PlayPaced(h: History, n: nat, events: seq<Event>, window: int)
    requires 0 <= window && PacedFrom(h, n, window)
    requires Every(h, events, window, (h, e) => Forward(h, e) && Settles(h, e, window))
    ensures PacedFrom(Play(h, events, window), n, window)
  {
    if events != [] {
      var front, e := events[..|events| - 1], events[|events| - 1];
      PlayPaced(h, n, front, window);
      var p := Play(h, front, window);
      ExtendFrom(p, n, e, window);
      ExtendPaced(From(p, n), e, window);
    }
  }

  // ---------------------------------------------------------------- any run

  predicate Counted(h: History) { h.state.durable.ineffective >= 0 }

  lemma ExtendCounted(h: History, e: Event, window: int)
    requires Counted(h)
    ensures Counted(Extend(h, e, window))
  {}

  lemma {:induction false} PlayCounted(h: History, events: seq<Event>, window: int)
    requires Counted(h)
    ensures Counted(Play(h, events, window))
  {
    if events != [] {
      PlayCounted(h, events[..|events| - 1], window);
      ExtendCounted(Play(h, events[..|events| - 1], window), events[|events| - 1], window);
    }
  }

  /** A restart that settles starts the pace afresh, whatever came before it. */
  lemma SettledRestart(h: History, e: Event, window: int)
    requires 0 <= window && Counted(h) && Restarts(h.state, e, window) && Anchors(e.faults) &&
             Counts(h.state.durable, e.faults)
    ensures Extend(h, e, window).marks == h.marks + [Fired(e.now)]
    ensures Linked(Extend(h, e, window).state, e.now, Some(e.now), 1, window)
  {
    RestartsIff(h.state, e, window);
  }

  lemma SettledPaced(h: History, e: Event, window: int)
    requires 0 <= window && Counted(h) && Restarts(h.state, e, window) && Anchors(e.faults) &&
             Counts(h.state.durable, e.faults)
    ensures PacedFrom(Extend(h, e, window), |h.marks|, window)
  {
    SettledRestart(h, e, window);
    var marks := Extend(h, e, window).marks[|h.marks|..];
    assert marks == [Fired(e.now)];
    AppendMark([], Fired(e.now));
    assert [] + [Fired(e.now)] == marks;
  }

  /** Windows that `n` consecutive gaps of one cycle take at least. */
  function BackoffSum(n: nat): int {
    if n == 0 then 0 else BackoffSum(n - 1) + BackoffTotal(n - 1)
  }

  lemma {:induction false} BackoffSumClosed(n: nat)
    requires n >= 7
    ensures BackoffSum(n) == 26 + 8 * (n - 7)
  {
    if n == 7 {
      assert BackoffSum(3) == 6 && BackoffSum(5) == 14 && BackoffSum(7) == 26;
    } else {
      BackoffSumClosed(n - 1);
    }
  }

  predicate AllFired(marks: seq<Mark>, a: int, b: int)
    requires 0 <= a <= b <= |marks|
  {
    forall i :: a <= i < b ==> marks[i].Fired?
  }

  lemma {:induction false} StreakCovers(marks: seq<Mark>, a: nat, b: nat)
    requires a <= b <= |marks| && AllFired(marks, a, b)
    ensures Streak(marks[..b]) >= b - a
  {
    if a < b {
      StreakCovers(marks, a, b - 1);
      assert marks[..b][..b - 1] == marks[..b - 1];
    }
  }

  lemma LastGap(marks: seq<Mark>, a: nat, b: nat, window: int)
    requires 0 <= window && Spaced(marks, window)
    requires a + 1 < b <= |marks| && AllFired(marks, a, b)
    ensures marks[b - 1].at - marks[b - 2].at > window * BackoffTotal(b - a - 2)
  {
    assert GapAt(marks, b - 1, window);
    StreakCovers(marks, a, b - 1);
    var streak := Streak(marks[..b - 1]);
    BackoffMonotone(b - a - 2, streak - 1);
    TimesMonotone(window, BackoffTotal(b - a - 2), BackoffTotal(streak - 1));
  }

  lemma {:induction false} SpanOfRestarts(marks: seq<Mark>, a: nat, b: nat, window: int)
    requires 0 <= window && Spaced(marks, window)
    requires a + 1 < b <= |marks| && AllFired(marks, a, b)
    ensures marks[b - 1].at - marks[a].at > window * BackoffSum(b - a - 1)
  {
    LastGap(marks, a, b, window);
    var prior, step := BackoffSum(b - a - 2), BackoffTotal(b - a - 2);
    assert window * (prior + step) == window * prior + window * step;
    if a + 2 < b { SpanOfRestarts(marks, a, b - 1, window); }
  }

  /** What a block of restarts without a clean-window reset between them takes. */
  predicate CycleBounds(marks: seq<Mark>, a: int, b: int, window: int)
    requires 0 <= a && a + 1 < b <= |marks|
  {
    && marks[b - 1].at - marks[b - 2].at > window * BackoffTotal(b - a - 2)
    && (b - a >= 8 ==> marks[b - 1].at - marks[a].at > (26 + 8 * (b - a - 8)) * window)
  }

  lemma CycleSpan(marks: seq<Mark>, a: nat, b: nat, window: int)
    requires 0 <= window && Spaced(marks, window)
    requires a + 1 < b <= |marks| && AllFired(marks, a, b)
    ensures CycleBounds(marks, a, b, window)
  {
    LastGap(marks, a, b, window);
    SpanOfRestarts(marks, a, b, window);
    if b - a >= 8 { BackoffSumClosed(b - a - 1); }
  }

  lemma SpacedBounds(marks: seq<Mark>, window: int)
    requires 0 <= window && Spaced(marks, window)
    ensures forall a, b :: 0 <= a && a + 1 < b <= |marks| && AllFired(marks, a, b) ==> CycleBounds(marks, a, b, window)
  {
    forall a, b | 0 <= a && a + 1 < b <= |marks| && AllFired(marks, a, b)
      ensures CycleBounds(marks, a, b, window)
    {
      CycleSpan(marks, a, b, window);
    }
  }

  /** One more event, even a restart that does not settle, still comes at the pace. */
  lemma LastSpaced(h: History, e: Event, window: int)
    requires 0 <= window && Paced(h, window) && Forward(h, e)
    ensures Spaced(Extend(h, e, window).marks, window) && Separated(Extend(h, e, window).marks, window)
  {
    if e.Poll? {
      RestartsIff(h.state, e, window);
      if Restarts(h.state, e, window) {
        FireGap(h.state, h.now, LastFired(h.marks), Streak(h.marks), window, e);
        StreakEndsFired(h.marks);
        FiredSpaced(h.marks, e.now, window);
        FiredSeparated(h.marks, e.now, window);
      } else {
        ResetMarks(h.marks, e.now, window);
        assert h.marks + [] == h.marks;
      }
    }
  }

  /** Restart spacing over whole runs, whatever happened before its first restart and whatever raises,
      as long as each restart but the last anchors the cooldown and is counted: any two restarts are more
      than two windows apart, the gap after the k-th restart of a cycle exceeds the backoff that k-1
      ineffective restarts earn, and N >= 8 restarts of one cycle span more than 26 + 8(N-8) windows.
      The run is `before`, then the restart `first`, then `middle` and `last`. */
  lemma RestartSpacing(before: seq<Event>, first: Event, middle: seq<Event>, last: Event, window: int, t0: Time)
    requires 0 <= window && Restarts(Play(Start(t0), before, window).state, first, window)
    requires Settles(Play(Start(t0), before, window), first, window)
    requires Every(Extend(Play(Start(t0), before, window), first, window), middle, window,
                   (h, e) => Forward(h, e) && Settles(h, e, window))
    requires Forward(Play(Extend(Play(Start(t0), before, window), first, window), middle, window), last)
    ensures var h := Play(Start(t0), before, window);
            var end := Extend(Play(Extend(h, first, window), middle, window), last, window);
            && |h.marks| <= |end.marks|
            && var marks := end.marks[|h.marks|..];
               && Separated(marks, window)
               && forall a, b :: 0 <= a && a + 1 < b <= |marks| && AllFired(marks, a, b) ==>
                    CycleBounds(marks, a, b, window)
  {
    var h := Play(Start(t0), before, window);
    var n, mid := |h.marks|, Play(Extend(h, first, window), middle, window);
    PlayCounted(Start(t0), before, window);
    SettledPaced(h, first, window);
    PlayPaced(Extend(h, first, window), n, middle, window);
    ExtendFrom(mid, n, last, window);
    LastSpaced(From(mid, n), last, window);
    SpacedBounds(Extend(From(mid, n), last, window).marks, window);
  }

  // ---------------------------------------------------------------- pairs of restarts

  /** Since a restart at `t` anchored its cooldown: the anchor stands, or more than a window has passed. */
  predicate Cooling(h: History, t: Time, window: int) {
    h.state.durable.lastRestart == Some(t) || h.now > t + window
  }

  /** Since it was counted too: linked to it, or more than two windows have passed. */
  predicate Resting(h: History, t: Time, window: int) {
    Linked(h.state, h.now, Some(t), 0, window) || h.now > t + 2 * window
  }

  lemma CoolingStep(h: History, e: Event, t: Time, window: int)
    requires Cooling(h, t, window) && Forward(h, e)
    ensures Cooling(Extend(h, e, window), t, window)
    ensures Restarts(h.state, e, window) ==> e.now > t + window
  {}

  lemma RestingStep(h: History, e: Event, t: Time, window: int)
    requires 0 <= window && Resting(h, t, window) && Forward(h, e)
    ensures Resting(Extend(h, e, window), t, window)
    ensures Restarts(h.state, e, window) ==> e.now > t + 2 * window
  {
    if e.Poll? && h.now <= t + 2 * window {
      if Restarts(h.state, e, window) {
        FireGap(h.state, h.now, Some(t), 0, window, e);
      } else {
        QuietLinked(h.state, h.now, Some(t), 0, window, e);
      }
    }
  }

  lemma AnchoredRestart(h: History, e: Event, window: int)
    requires Restarts(h.state, e, window) && Anchors(e.faults)
    ensures Cooling(Extend(h, e, window), e.now, window)
  {}

  lemma CountedRestart(h: History, e: Event, window: int)
    requires 0 <= window && Counted(h) && Restarts(h.state, e, window) && Anchors(e.faults) &&
             Counts(h.state.durable, e.faults)
    ensures Resting(Extend(h, e, window), e.now, window)
  {
    SettledRestart(h, e, window);
  }

  lemma PlayAt(h: History, events: seq<Event>, k: nat, window: int)
    requires 0 < k <= |events|
    ensures Play(h, events[..k], window) == Extend(Play(h, events[..k - 1], window), events[k - 1], window)
  {
    assert events[..k][..k - 1] == events[..k - 1];
  }

  /** The clock does not go back at any event. */
  predicate Timed(h: History, events: seq<Event>, window: int) {
    forall k :: 0 <= k < |events| ==> Forward(Play(h, events[..k], window), events[k])
  }

  lemma {:induction false} StaysCooling(h: History, events: seq<Event>, i: nat, k: nat, t: Time, window: int)
    requires i <= k <= |events| && Timed(h, events, window) && Cooling(Play(h, events[..i], window), t, window)
    ensures Cooling(Play(h, events[..k], window), t, window)
  {
    if k > i {
      StaysCooling(h, events, i, k - 1, t, window);
      PlayAt(h, events, k, window);
      CoolingStep(Play(h, events[..k - 1], window), events[k - 1], t, window);
    }
  }

  lemma {:induction false} StaysResting(h: History, events: seq<Event>, i: nat, k: nat, t: Time, window: int)
    requires 0 <= window && i <= k <= |events| && Timed(h, events, window) &&
             Resting(Play(h, events[..i], window), t, window)
    ensures Resting(Play(h, events[..k], window), t, window)
  {
    if k > i {
      StaysResting(h, events, i, k - 1, t, window);
      PlayAt(h, events, k, window);
      RestingStep(Play(h, events[..k - 1], window), events[k - 1], t, window);
    }
  }

  /** Any two restarts of any run, with faults everywhere: if the earlier one anchored its cooldown they
      are more than a window apart, and if it was also counted, more than two. Nothing is asked of any
      other tick. */
  lemma RestartsApart(events: seq<Event>, i: nat, j: nat, window: int, t0: Time)
    requires 0 <= window && i < j < |events| && Timed(Start(t0), events, window)
    requires Restarts(Play(Start(t0), events[..i], window).state, events[i], window) && Anchors(events[i].faults)
    requires Restarts(Play(Start(t0), events[..j], window).state, events[j], window)
    ensures events[j].now - events[i].now > window
    ensures Counts(Play(Start(t0), events[..i], window).state.durable, events[i].faults) ==>
              events[j].now - events[i].now > 2 * window
  {
    var g, h, t := Play(Start(t0), events[..i], window), Play(Start(t0), events[..j], window), events[i].now;
    PlayAt(Start(t0), events, i + 1, window);
    AnchoredRestart(g, events[i], window);
    StaysCooling(Start(t0), events, i + 1, j, t, window);
    CoolingStep(h, events[j], t, window);
    if Counts(g.state.durable, events[i].faults) {
      PlayCounted(Start(t0), events[..i], window);
      CountedRestart(g, events[i], window);
      StaysResting(Start(t0), events, i + 1, j, t, window);
      RestingStep(h, events[j], t, window);
    }
  }
}
