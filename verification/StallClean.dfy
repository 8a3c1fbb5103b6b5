/** What a poll of the stall monitor does, by its inputs, and how a full clean window concludes a cycle
    of restarts. */
module StallClean {
  import opened Basics
  import opened StallMonitor
  import opened StallRuns

  // ---------------------------------------------------------------- one poll, by its inputs

  /** No restart within the last window. */
  predicate CooledDown(s: State, now: Time, window: int) {
    s.durable.lastRestart.Some? ==> now - s.durable.lastRestart.value > window
  }

  /** Since when the stall has been absent, for a poll that finds it absent. */
  function CleanSince(s: State, now: Time): Time {
    if s.clocks.firstClean.Some? then s.clocks.firstClean.value else now
  }

  /** A broken poll past the gate, with faults anywhere. The clean clock runs on, the stall window ends
      unless its clear raises, and nothing restarts. The count is zeroed exactly when the clean clock is a
      window old, there is something to reset, and no effect up to that write raises; the cooldown anchor
      goes when its own write does not raise either. */
  lemma BrokenOutcome(s: State, now: Time, window: int, faults: set<Effect>, dryRun: bool)
    requires CooledDown(s, now, window) && ReadGate !in faults
    ensures var o := Tick(s, now, window, Broken, faults, dryRun);
            var armed := s.durable.lastRestart.Some? || s.durable.ineffective > 0;
            var ripe := now - CleanSince(s, now) >= window && ClearAnchor !in faults;
            var zeroed := ripe && armed && ResetCount !in faults &&
                (s.durable.lastRestart.None? ==> ReadCountForReset !in faults);
            && o.state.clocks == Clocks(None, Some(CleanSince(s, now))) && !o.restarted
            && o.state.durable.windowStart == (if ClearAnchor in faults then s.durable.windowStart else None)
            && o.state.durable.ineffective == (if zeroed then 0 else s.durable.ineffective)
            && o.state.durable.lastRestart ==
                 (if zeroed && ResetRestart !in faults then None else s.durable.lastRestart)
            && (o.cycleReset <==> zeroed)
  {}

  /** Without faults: a clean clock of a full window leaves neither count nor cooldown anchor, and a
      younger one changes neither. */
  lemma CleanWindowResets(s: State, now: Time, window: int, dryRun: bool)
    requires CooledDown(s, now, window) && s.durable.ineffective >= 0
    ensures var o := Tick(s, now, window, Broken, {}, dryRun);
            && o.completed
            && if now - CleanSince(s, now) >= window
               then o.state.durable == Scalars(None, None, 0)
               else o.state.durable == s.durable.(windowStart := None)
  {
    BrokenOutcome(s, now, window, {}, dryRun);
  }

  /** Since when the stall has lasted, for a poll that finds it: the live clock, else the persisted one. */
  function StallSince(s: State, now: Time): Time {
    match (s.clocks.firstObserved, s.durable.windowStart)
    case (Some(t), _) => t
    case (None, Some(t)) => t
    case (None, None) => now
  }

  /** The stall has lasted a window, and the last restart is more than a window ago: more than four, six
      or eight windows once three, five or seven restarts in a row were ineffective. */
  predicate RestartDue(s: State, now: Time, window: int) {
    && now - StallSince(s, now) >= window
    && (s.durable.lastRestart.Some? ==>
          var age, n := now - s.durable.lastRestart.value, s.durable.ineffective;
          && age > window
          && (3 <= n < 5 ==> age > window * 4)
          && (5 <= n < 7 ==> age > window * 6)
          && (7 <= n ==> age > window * 8))
  }

  /** A holding poll without faults restarts exactly when a restart is due. The restart then takes the
      place of the last one, counts as ineffective if there was one, and starts all clocks afresh; a
      poll past the gate that does not restart leaves the stall clock in both places. */
  lemma HoldingOutcome(s: State, now: Time, window: int, dryRun: bool)
    ensures var o := Tick(s, now, window, Holds, {}, dryRun);
            && o.completed && !o.cycleReset && (o.restarted <==> RestartDue(s, now, window))
            && (o.restarted ==>
                  && o.state.clocks == Clocks(None, None)
                  && o.state.durable.lastRestart == Some(now) && o.state.durable.windowStart == None
                  && o.state.durable.ineffective ==
                       s.durable.ineffective + (if s.durable.lastRestart.Some? then 1 else 0))
            && (!o.restarted && CooledDown(s, now, window) ==>
                  && o.state.clocks == Clocks(Some(StallSince(s, now)), None)
                  && o.state.durable.lastRestart == s.durable.lastRestart
                  && o.state.durable.ineffective == s.durable.ineffective
                  && (s.clocks.firstObserved.None? ==> o.state.durable.windowStart == Some(StallSince(s, now))))
  {}

  /** Inside the cooldown nothing is sensed and nothing changes; past it, a poll that cannot see ends the
      window and keeps count and cooldown. */
  lemma BlindOutcome(s: State, now: Time, window: int, sensed: Sensed, faults: set<Effect>, dryRun: bool)
    ensures !CooledDown(s, now, window) ==> Tick(s, now, window, sensed, faults, dryRun).state == s
    ensures !CooledDown(s, now, window) ==> !Tick(s, now, window, sensed, faults, dryRun).restarted
    ensures CooledDown(s, now, window) && ReadGate !in faults && ClearBlind !in faults ==>
              Tick(s, now, window, Blind, faults, dryRun).state ==
                State(s.durable.(windowStart := None), Clocks(None, None))
  {}

  // ---------------------------------------------------------------- a full clean window, over runs

  /** The stall is absent and the clock does not go back; any effect may raise. */
  predicate Clean(h: History, e: Event) { e.Poll? && e.sensed == Broken && e.now >= h.now }

  /** The clean clock runs since `first` or longer, and the gate stays open. */
  predicate CleanFor(h: History, first: Time, window: int) {
    && h.state.clocks.firstClean.Some? && h.state.clocks.firstClean.value <= first
    && CooledDown(h.state, h.now, window) && h.state.durable.ineffective >= 0
  }

  lemma CleanBegins(h: History, e: Event, window: int)
    requires Clean(h, e) && CooledDown(h.state, e.now, window) && ReadGate !in e.faults && Counted(h)
    requires h.state.clocks.firstClean.Some? ==> h.state.clocks.firstClean.value <= e.now
    ensures CleanFor(Extend(h, e, window), e.now, window)
  {
    BrokenOutcome(h.state, e.now, window, e.faults, e.dryRun);
  }

  lemma CleanGoesOn(h: History, e: Event, first: Time, window: int)
    requires Clean(h, e) && CleanFor(h, first, window)
    ensures CleanFor(Extend(h, e, window), first, window)
  {
    if ReadGate !in e.faults { BrokenOutcome(h.state, e.now, window, e.faults, e.dryRun); }
  }

  lemma {:induction false} PlayClean(h: History, events: seq<Event>, first: Time, window: int)
    requires CleanFor(h, first, window) && Every(h, events, window, Clean)
    ensures CleanFor(Play(h, events, window), first, window)
  {
    if events != [] {
      var front := events[..|events| - 1];
      PlayClean(h, front, first, window);
      CleanGoesOn(Play(h, front, window), events[|events| - 1], first, window);
    }
  }

  /** The effects that a clean window's reset needs. */
  const RESET_EFFECTS: set<Effect> := {ReadGate, ClearAnchor, ReadCountForReset, ResetCount, ResetRestart}

  /** No cycle of restarts is open. */
  predicate Concluded(h: History) { h.state.durable.lastRestart == None && h.state.durable.ineffective == 0 }

  /** The clean clock never runs ahead of the time. */
  predicate ClockPast(h: History) {
    h.state.clocks.firstClean.Some? ==> h.state.clocks.firstClean.value <= h.now
  }

  lemma {:induction false} PlayClockPast(h: History, events: seq<Event>, window: int)
    requires ClockPast(h) && Every(h, events, window, Forward)
    ensures ClockPast(Play(h, events, window))
  {
    if events != [] {
      var front, e := events[..|events| - 1], events[|events| - 1];
      PlayClockPast(h, front, window);
      ClockPastStep(Play(h, front, window), e, window);
    }
  }

  lemma ClockPastStep(h: History, e: Event, window: int)
    requires ClockPast(h) && Forward(h, e)
    ensures ClockPast(Extend(h, e, window))
  {}

  /** A full window of broken polls concludes the cycle, whatever came before it: the first is past the
      gate, the last is a window later, and only the effects of the last one's reset must not raise. */
  lemma CleanWindowConcludes(before: seq<Event>, first: Event, middle: seq<Event>, last: Event, window: int, t0: Time)
    requires Every(Start(t0), before, window, Forward)
    requires var h := Play(Start(t0), before, window);
             && Clean(h, first) && CooledDown(h.state, first.now, window) && ReadGate !in first.faults
             && Every(Extend(h, first, window), middle, window, Clean)
             && Clean(Play(Extend(h, first, window), middle, window), last)
    requires last.now - first.now >= window && last.faults !! RESET_EFFECTS
    ensures var h := Play(Start(t0), before, window);
            Concluded(Extend(Play(Extend(h, first, window), middle, window), last, window))
  {
    var h := Play(Start(t0), before, window);
    PlayCounted(Start(t0), before, window);
    PlayClockPast(Start(t0), before, window);
    CleanBegins(h, first, window);
    PlayClean(Extend(h, first, window), middle, first.now, window);
    BrokenOutcome(Play(Extend(h, first, window), middle, window).state, last.now, window, last.faults, last.dryRun);
  }

  lemma ConcludedStep(h: History, e: Event, window: int)
    requires Concluded(h) && !Restarts(h.state, e, window)
    ensures Concluded(Extend(h, e, window))
  {}

  lemma {:induction false} StaysConcluded(h: History, events: seq<Event>, window: int)
    requires Concluded(h) && Every(h, events, window, (g: History, x: Event) => !Restarts(g.state, x, window))
    ensures Concluded(Play(h, events, window))
  {
    if events != [] {
      var front, e := events[..|events| - 1], events[|events| - 1];
      StaysConcluded(h, front, window);
      ConcludedStep(Play(h, front, window), e, window);
    }
  }

  lemma FirstIsNotCounted(s: State, e: Event, window: int)
    requires s.durable.lastRestart == None && s.durable.ineffective == 0 && e.Poll? && e.sensed == Holds
    ensures Tick(s, e.now, window, e.sensed, e.faults, e.dryRun).state.durable.ineffective == 0
  {}

  /** The next episode after a concluded cycle, with any polls, faults and bounces up to its first
      restart: a holding poll restarts as soon as the stall has lasted a window, whatever the last cycle
      counted, and that restart is not counted, even if it raises. */
  lemma NextEpisodeStartsAfresh(h: History, events: seq<Event>, e: Event, window: int)
    requires Concluded(h) && Every(h, events, window, (g: History, x: Event) => !Restarts(g.state, x, window))
    requires e.Poll? && e.sensed == Holds
    ensures var g := Play(h, events, window);
            && (e.faults == {} ==>
                  (OutcomeOf(g, e, window).restarted <==> e.now - StallSince(g.state, e.now) >= window))
            && Extend(g, e, window).state.durable.ineffective == 0
  {
    var g := Play(h, events, window);
    StaysConcluded(h, events, window);
    FirstIsNotCounted(g.state, e, window);
    if e.faults == {} { HoldingOutcome(g.state, e.now, window, e.dryRun); }
  }
}
