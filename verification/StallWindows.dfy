/** When a restart may fire: the sustained-window rule across process bounces, where it fails,
    and the bound on how long the circuit breaker defers a restart. */
module StallWindows {
  import opened Basics
  import opened StallMonitor
  import opened StallRuns

  // ---------------------------------------------------------------- sustained window

  /** The effects whose failure can carry a spent or broken window over: the two clears of the
      anchor, and whatever comes between the cooldown anchor and the reset of the clocks. */
  const WINDOW_ENDING_EFFECTS: set<Effect> := {ClearBlind, ClearAnchor, ReadCount, WriteCount, EmitIneffective}

  /** The clock does not go back and no window-ending effect raises; any other effect may. */
  predicate WindowsEnd(h: History, e: Event) {
    e.Poll? ==> e.now >= h.now && e.faults !! WINDOW_ENDING_EFFECTS
  }

  /** Neither a broken, nor a blind, nor a gated tick. */
  predicate Supports(x: Seen) {
    x.Bounced? || x.sight == Unread || x.sight == Saw(Holds)
  }

  /** Entry b saw the stall at time `first`, and nothing since then speaks against it. */
  predicate HeldSince(seen: seq<Seen>, b: int, first: Time) {
    && 0 <= b < |seen|
    && seen[b] == At(first, Saw(Holds))
    && forall i :: b <= i < |seen| ==> Supports(seen[i])
  }

  /** A clock, live or persisted, runs only since an entry of the log and with the gate open. */
  ghost predicate Grounded(h: History, clock: Option<Time>, window: int) {
    clock.Some? ==> !GateClosed(h.state.durable, h.now, window) && exists b :: HeldSince(h.seen, b, clock.value)
  }

  ghost predicate Checkpointed(h: History, window: int) {
    Grounded(h, h.state.durable.windowStart, window) && Grounded(h, h.state.clocks.firstObserved, window)
  }

  lemma HeldOneMore(seen: seq<Seen>, first: Time, x: Seen) returns (b: int)
    requires Supports(x) && exists b :: HeldSince(seen, b, first)
    ensures HeldSince(seen + [x], b, first)
  {
    b :| HeldSince(seen, b, first);
  }

  /** The window a holding tick works with has been held since an entry of the log. */
  lemma BeginIsHeld(h: History, e: Event, window: int) returns (b: int)
    requires Checkpointed(h, window) && e.Poll? && WindowsEnd(h, e)
    requires OutcomeOf(h, e, window).sight == Saw(Holds)
    ensures HeldSince(Extend(h, e, window).seen, b, WindowBegin(h.state, e.now))
  {
    var x := At(e.now, Saw(Holds));
    if h.state.clocks.firstObserved.Some? {
      b := HeldOneMore(h.seen, h.state.clocks.firstObserved.value, x);
    } else if h.state.durable.windowStart.Some? {
      b := HeldOneMore(h.seen, h.state.durable.windowStart.value, x);
    } else {
      b := |h.seen|;
    }
  }

  /** Where the clocks that a tick leaves come from: an old clock that nothing spoke against, or
      the window that a holding tick works with. */
  predicate ClockFrom(c: Option<Time>, s: State, o: Outcome, now: Time, window: int) {
    c.Some? ==>
      && Supports(At(now, o.sight)) && !GateClosed(o.state.durable, now, window)
      && (c == s.durable.windowStart || c == s.clocks.firstObserved ||
          (o.sight == Saw(Holds) && c == Some(WindowBegin(s, now))))
  }

  lemma TickClocks(s: State, now: Time, window: int, sensed: Sensed, faults: set<Effect>, dryRun: bool)
    requires faults !! WINDOW_ENDING_EFFECTS
    requires s.durable.windowStart.Some? || s.clocks.firstObserved.Some? ==> !GateClosed(s.durable, now, window)
    ensures var o := Tick(s, now, window, sensed, faults, dryRun);
            ClockFrom(o.state.durable.windowStart, s, o, now, window) &&
                ClockFrom(o.state.clocks.firstObserved, s, o, now, window)
  {}

  lemma ClockIsGrounded(h: History, e: Event, window: int, c: Option<Time>)
    requires Checkpointed(h, window) && WindowsEnd(h, e) && e.Poll? &&
             ClockFrom(c, h.state, OutcomeOf(h, e, window), e.now, window)
    ensures Grounded(Extend(h, e, window), c, window)
  {
    if c.Some? {
      var x := At(e.now, OutcomeOf(h, e, window).sight);
      if c == h.state.durable.windowStart || c == h.state.clocks.firstObserved {
        var b := HeldOneMore(h.seen, c.value, x);
      } else {
        var b := BeginIsHeld(h, e, window);
      }
    }
  }

  lemma BounceCheckpointed(h: History, window: int)
    requires Checkpointed(h, window)
    ensures Checkpointed(Extend(h, Bounce, window), window)
  {
    if h.state.durable.windowStart.Some? { var b := HeldOneMore(h.seen, h.state.durable.windowStart.value, Bounced); }
  }

  lemma ExtendCheckpointed(h: History, e: Event, window: int)
    requires Checkpointed(h, window) && WindowsEnd(h, e)
    ensures Checkpointed(Extend(h, e, window), window)
  {
    if e.Bounce? {
      BounceCheckpointed(h, window);
    } else {
      var o := OutcomeOf(h, e, window);
      TickClocks(h.state, e.now, window, e.sensed, e.faults, e.dryRun);
      ClockIsGrounded(h, e, window, o.state.durable.windowStart);
      ClockIsGrounded(h, e, window, o.state.clocks.firstObserved);
    }
  }

  lemma {:induction false} PlayCheckpointed(events: seq<Event>, window: int, t0: Time)
    requires Every(Start(t0), events, window, WindowsEnd)
    ensures Checkpointed(Play(Start(t0), events, window), window)
  {
    if events != [] {
      var front := events[..|events| - 1];
      PlayCheckpointed(front, window, t0);
      ExtendCheckpointed(Play(Start(t0), front, window), events[|events| - 1], window);
    }
  }

  /** A restart fires only on a window that was seen to hold, at some tick at least one window
      earlier and at every sensing tick since: no broken, blind or gated tick in between, whether
      or not the process was replaced in mid-window. */
  lemma RestartNeedsSustainedStall(events: seq<Event>, window: int, t0: Time)
    requires events != [] && Every(Start(t0), events, window, WindowsEnd)
    requires var e := events[|events| - 1];
             e.Poll? && OutcomeOf(Play(Start(t0), events[..|events| - 1], window), e, window).restarted
    ensures exists b, first ::
              && HeldSince(Play(Start(t0), events, window).seen, b, first)
              && events[|events| - 1].now - first >= window
  {
    var front, e := events[..|events| - 1], events[|events| - 1];
    PlayCheckpointed(front, window, t0);
    var b, first := FiringIsHeld(Play(Start(t0), front, window), e, window);
    PlayLast(Start(t0), events, window);
  }

  lemma PlayLast(h: History, events: seq<Event>, window: int)
    requires events != []
    ensures Play(h, events, window) == Extend(Play(h, events[..|events| - 1], window), events[|events| - 1], window)
  {}

  lemma FiringIsHeld(h: History, e: Event, window: int) returns (b: int, first: Time)
    requires Checkpointed(h, window) && WindowsEnd(h, e) && e.Poll? && OutcomeOf(h, e, window).restarted
    ensures HeldSince(Extend(h, e, window).seen, b, first) && e.now - first >= window
  {
    b := BeginIsHeld(h, e, window);
    first := WindowBegin(h.state, e.now);
  }

  // ---------------------------------------------------------------- where the rule fails

  lemma PlayTwo(h: History, a: Event, b: Event, window: int)
    ensures Play(h, [a, b], window) == Extend(Extend(h, a, window), b, window)
  {
    assert [a, b][..1] == [a] && [a][..0] == [];
    assert Play(h, [a], window) == Extend(h, a, window);
  }

  /** With the clear of a broken tick lost, the next holding tick restores the old anchor and
      fires, although the condition was seen broken inside the window. */
  lemma FailedClearStitchesWindow()
    ensures var h := Play(Start(0),
                          [Poll(0, Holds, {}, false), Poll(1, Broken, {ClearAnchor}, false),
                           Poll(10, Holds, {}, false)], 10);
            h.marks == [Fired(10)] && h.seen == [At(0, Saw(Holds)), At(1, Saw(Broken)), At(10, Saw(Holds))]
  {
    var e1, e2, e3 := Poll(0, Holds, {}, false), Poll(1, Broken, {ClearAnchor}, false), Poll(10, Holds, {}, false);
    assert [e1, e2, e3][..2] == [e1, e2];
    PlayTwo(Start(0), e1, e2, 10);
  }

  /** A broken or blind tick past the gate ends the window exactly when its clear lands: the next
      holding tick, in this process or a new one, still works with the old anchor if and only if
      the clear raised. */
  lemma ClearDecidesWindow(s: State, now: Time, window: int, sensed: Sensed, faults: set<Effect>, later: Time)
    requires ReadGate !in faults && !GateClosed(s.durable, now, window) && sensed != Holds
    requires s.durable.windowStart.Some? && s.durable.windowStart.value != later
    ensures var after := Tick(s, now, window, sensed, faults, false).state;
            && (WindowBegin(after, later) == s.durable.windowStart.value
                <==> (if sensed == Broken then ClearAnchor else ClearBlind) in faults)
            && WindowBegin(State(after.durable, FRESH_CLOCKS), later) == WindowBegin(after, later)
  {}

  function Stall(now: Time): Event { Poll(now, Holds, {}, false) }

  /** After a restart that completed, in a run from the start. */
  lemma FirstRestart()
    ensures var h := Extend(Extend(Start(0), Stall(0), 10), Stall(10), 10);
            h.state == State(Scalars(Some(10), None, 0), FRESH_CLOCKS) && h.marks == [Fired(10)]
  {}

  /** With a failure after the cooldown anchor, the clock of the spent window survives and the next
      restart comes after the cooldown alone: eleven minutes here, for a window of ten. Of the two
      restarts with a predecessor only one is counted. */
  lemma LateFailureShortensGap()
    ensures var events := [Stall(0), Stall(10), Stall(21), Poll(31, Holds, {ReadCount}, false), Stall(42)];
            var end := Play(Start(0), events, 10);
            end.marks == [Fired(10), Fired(31), Fired(42)] && end.state.durable.ineffective == 1
  {
    var late := Poll(31, Holds, {ReadCount}, false);
    var h2 := Extend(Extend(Start(0), Stall(0), 10), Stall(10), 10);
    var h4 := Extend(Extend(h2, Stall(21), 10), late, 10);
    PlayFive(Start(0), Stall(0), Stall(10), Stall(21), late, Stall(42), 10);
    FirstRestart();
    LateRestart(h2);
    ThirdRestart(h4);
  }

  lemma LateRestart(h: History)
    requires h.state == State(Scalars(Some(10), None, 0), FRESH_CLOCKS) && h.marks == [Fired(10)]
    ensures var after := Extend(Extend(h, Stall(21), 10), Poll(31, Holds, {ReadCount}, false), 10);
            && after.state.durable.lastRestart == Some(31) && after.state.durable.windowStart == None
            && after.state.durable.ineffective == 0
            && after.state.clocks.firstObserved == Some(21) && after.marks == [Fired(10), Fired(31)]
  {
    var h3 := Extend(h, Stall(21), 10);
    assert h3.state == State(Scalars(Some(10), Some(21), 0), Clocks(Some(21), None)) && h3.marks == [Fired(10)];
  }

  lemma ThirdRestart(h: History)
    requires h.state.durable == Scalars(Some(31), None, 0) && h.state.clocks.firstObserved == Some(21)
    ensures var after := Extend(h, Stall(42), 10);
            after.marks == h.marks + [Fired(42)] && after.state.durable.ineffective == 1
  {}

  lemma PlayFive(h: History, a: Event, b: Event, c: Event, d: Event, e: Event, window: int)
    ensures Play(h, [a, b, c, d, e], window) ==
              Extend(Extend(Extend(Extend(Extend(h, a, window), b, window), c, window), d, window), e, window)
  {
    PlayTwo(h, a, b, window);
    PlayAppend(h, [a, b], c, window);
    PlayAppend(h, [a, b] + [c], d, window);
    PlayAppend(h, [a, b] + [c] + [d], e, window);
    assert [a, b] + [c] + [d] + [e] == [a, b, c, d, e];
  }

  lemma PlayAppend(h: History, events: seq<Event>, e: Event, window: int)
    ensures Play(h, events + [e], window) == Extend(Play(h, events, window), e, window)
  {
    assert (events + [e])[..|events|] == events;
  }

  /** A restart that anchors its cooldown makes the next window start afresh exactly when none of what
      comes before the reset of the clocks raises: with a predecessor, the count's read and write, and,
      from the threshold on, the Event. */
  lemma LateFaultsDecideFreshWindow(s: State, e: Event, window: int, later: Time)
    requires Restarts(s, e, window) && Anchors(e.faults) && WindowBegin(s, e.now) < later
    ensures WindowBegin(Tick(s, e.now, window, e.sensed, e.faults, e.dryRun).state, later) == later <==>
              (s.durable.lastRestart.Some? ==>
                 && ReadCount !in e.faults && WriteCount !in e.faults
                 && (s.durable.ineffective + 1 >= INEFFECTIVE_RESTART_EVENT_THRESHOLD ==> EmitIneffective !in e.faults))
  {}

  /** The next holding poll within a window of a restart issues another exactly when the first one did
      not get to its cooldown anchor. */
  lemma AnchorDecidesRepeat(s: State, e: Event, f: Event, window: int)
    requires Restarts(s, e, window) && f.Poll? && f.sensed == Holds && f.faults == {}
    requires 0 <= window && e.now <= f.now <= e.now + window
    ensures Restarts(Tick(s, e.now, window, e.sensed, e.faults, e.dryRun).state, f, window) <==> !Anchors(e.faults)
  {}

  /** An anchored restart with a predecessor is counted exactly when neither the read nor the write of the
      count raises; otherwise the count stays as it was. */
  lemma CountLandsIff(s: State, e: Event, window: int)
    requires Restarts(s, e, window) && Anchors(e.faults) && s.durable.lastRestart.Some?
    ensures Tick(s, e.now, window, e.sensed, e.faults, e.dryRun).state.durable.ineffective ==
              s.durable.ineffective + if ReadCount in e.faults || WriteCount in e.faults then 0 else 1
  {}

  // ---------------------------------------------------------------- bounded deferral

  function Max(a: int, b: int): int { if a >= b then a else b }

  /** Every poll holds, none raises, and polls are at most `gap` apart. */
  predicate SteadyStall(h: History, e: Event, gap: int) {
    e.Poll? ==> e.sensed == Holds && e.faults == {} && h.now <= e.now <= h.now + gap
  }

  /** The state a completed restart at time `at` leaves behind. */
  function JustRestarted(at: Time, ineffective: int): History {
    History(State(Scalars(Some(at), None, ineffective), FRESH_CLOCKS), at, [], [])
  }

  /** No restart yet: the gate is closed, or the window is too short, or the backoff still holds. */
  predicate Waiting(h: History, at: Time, n: int, window: int, gap: int) {
    var d, c := h.state.durable, h.state.clocks;
    && h.marks == [] && d.lastRestart == Some(at) && d.ineffective == n
    && if d.windowStart.None? then c.firstObserved.None? && h.now <= at + window
       else
         && (c.firstObserved.Some? ==> c.firstObserved == d.windowStart)
         && at + window < d.windowStart.value <= at + window + gap
         && (h.now < d.windowStart.value + window || (BackoffTotal(n) > 2 && h.now <= at + window * BackoffTotal(n)))
  }

  function DeferralBound(n: int, window: int, gap: int): int {
    Max(2 * window + 2 * gap, window * BackoffTotal(n) + gap)
  }

  predicate FiredInTime(h: History, at: Time, bound: int) {
    h.marks != [] && h.marks[0].Fired? && h.marks[0].at <= at + bound
  }

  lemma WaitOrFire(h: History, e: Event, at: Time, n: int, window: int, gap: int)
    requires 0 <= window && 0 <= gap && SteadyStall(h, e, gap) && Waiting(h, at, n, window, gap)
    ensures var g := Extend(h, e, window);
            Waiting(g, at, n, window, gap) || FiredInTime(g, at, DeferralBound(n, window, gap))
  {
    if e.Poll? && OutcomeOf(h, e, window).restarted {
      assert e.now <= at + DeferralBound(n, window, gap);
    }
  }

  lemma {:induction false} PlayDeferral(events: seq<Event>, at: Time, n: int, window: int, gap: int)
    requires 0 <= window && 0 <= gap
    requires Every(JustRestarted(at, n), events, window, (h, e) => SteadyStall(h, e, gap))
    ensures var h := Play(JustRestarted(at, n), events, window);
            Waiting(h, at, n, window, gap) || FiredInTime(h, at, DeferralBound(n, window, gap))
  {
    if events != [] {
      var front, e := events[..|events| - 1], events[|events| - 1];
      PlayDeferral(front, at, n, window, gap);
      var h := Play(JustRestarted(at, n), front, window);
      if Waiting(h, at, n, window, gap) { WaitOrFire(h, e, at, n, window, gap); }
    }
  }

  /** The breaker delays but never suppresses: after a restart at `at`, if every poll sees the stall
      and polls are at most `gap` apart, with process bounces allowed, then by the time the polls
      pass the bound a restart has fired, and it fired no later than at + max(2w + 2d, b*w + d). */
  lemma DeferralIsBounded(events: seq<Event>, at: Time, n: int, window: int, gap: int)
    requires 0 <= window && 0 <= gap
    requires Every(JustRestarted(at, n), events, window, (h, e) => SteadyStall(h, e, gap))
    requires Play(JustRestarted(at, n), events, window).now > at + DeferralBound(n, window, gap) - gap
    ensures FiredInTime(Play(JustRestarted(at, n), events, window), at, DeferralBound(n, window, gap))
  {
    PlayDeferral(events, at, n, window, gap);
  }
}
