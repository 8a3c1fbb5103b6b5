/** The web_background stall monitor: one tick, as a step function over the persisted scalars
    and the in-memory window clock, and as the imperative code that the step specifies. */
module StallMonitor {
  import opened Basics

  const NATURAL_REARM_WINDOWS := 2
  const INEFFECTIVE_RESTART_EVENT_THRESHOLD := 3
  const BACKOFF_WINDOW_SCHEDULE: seq<(int, int)> := [(3, 4), (5, 6), (7, 8)]

  /** Total stall windows the next restart waits after `count` consecutive ineffective restarts. */
  function BackoffTotal(count: int): int {
    if count >= 7 then 8 else if count >= 5 then 6 else if count >= 3 then 4 else 2
  }

  method BackoffWindows(ineffective: int) returns (total: int)
    ensures total == BackoffTotal(ineffective)
  {
    total := NATURAL_REARM_WINDOWS;
    var i := 0;
    while i < |BACKOFF_WINDOW_SCHEDULE|
      invariant 0 <= i <= 3
      invariant i == 0 ==> total == 2
      invariant i == 1 ==> total == if ineffective >= 3 then 4 else 2
      invariant i == 2 ==> total == if ineffective >= 5 then 6 else if ineffective >= 3 then 4 else 2
      invariant i == 3 ==> total == BackoffTotal(ineffective)
    {
      if ineffective >= BACKOFF_WINDOW_SCHEDULE[i].0 {
        total := BACKOFF_WINDOW_SCHEDULE[i].1;
      }
      i := i + 1;
    }
  }

  /** The CR scalars `lastWebBackgroundRestart`, `stallWindowStartedAt` and
      `webBackgroundIneffectiveRestarts`. */
  datatype Scalars = Scalars(lastRestart: Option<Time>, windowStart: Option<Time>, ineffective: int)

  /** The per-process window clocks. */
  datatype Clocks = Clocks(firstObserved: Option<Time>, firstClean: Option<Time>)

  datatype State = State(durable: Scalars, clocks: Clocks)

  const FRESH_CLOCKS := Clocks(None, None)

  /** What the sensing reads of a tick report: the condition holds, it does not, or a read raised. */
  datatype Sensed = Holds | Broken | Blind

  /** The effects of a tick that can raise, in the order in which the code reaches them. */
  datatype Effect =
    | ReadGate
    | ClearBlind
    | ReadAnchor | WriteAnchor | ClearAnchor
    | ReadCountForReset | ResetCount | ResetRestart
    | ReadCountForBackoff
    | PatchDeployment | EmitRestarted
    | ConsumeAnchor | WriteRestart
    | ReadCount | WriteCount | EmitIneffective

  /** `Unread`: the gate read raised. `Gated`: the cooldown gate was closed. `Saw`: sensing ran. */
  datatype Sight = Unread | Gated | Saw(sensed: Sensed)

  /** `restarted`: the rolling restart was issued (or suppressed by dry-run, which paces alike).
      `cycleReset`: a full clean window zeroed the ineffective count.
      `completed`: the tick returned instead of raising. */
  datatype Outcome = Outcome(state: State, sight: Sight, restarted: bool, cycleReset: bool, completed: bool)

  function Quiet(state: State, sight: Sight, completed: bool): Outcome {
    Outcome(state, sight, false, false, completed)
  }

  function BlindTick(s: State, faults: set<Effect>): Outcome {
    var kept := if ClearBlind in faults then s.durable.windowStart else None;
    Quiet(State(s.durable.(windowStart := kept), FRESH_CLOCKS), Saw(Blind), false)
  }

  /** The clean-window reset, reached with the anchor already cleared. */
  function CleanReset(s: State, faults: set<Effect>): Outcome {
    if s.durable.lastRestart.None? && ReadCountForReset in faults then Quiet(s, Saw(Broken), false)
    else if s.durable.lastRestart.None? && s.durable.ineffective <= 0 then Quiet(s, Saw(Broken), true)
    else if ResetCount in faults then Quiet(s, Saw(Broken), false)
    else
      var zeroed := s.durable.(ineffective := 0);
      if s.durable.lastRestart.Some? && ResetRestart in faults
      then Outcome(State(zeroed, s.clocks), Saw(Broken), false, true, false)
      else Outcome(State(zeroed.(lastRestart := None), s.clocks), Saw(Broken), false, true, true)
  }

  function BrokenTick(s: State, now: Time, window: int, faults: set<Effect>): Outcome {
    var clean := if s.clocks.firstClean.None? then now else s.clocks.firstClean.value;
    var clocks := Clocks(None, Some(clean));
    if ClearAnchor in faults then Quiet(State(s.durable, clocks), Saw(Broken), false)
    else
      var cleared := State(s.durable.(windowStart := None), clocks);
      if now - clean >= window then CleanReset(cleared, faults) else Quiet(cleared, Saw(Broken), true)
  }

  /** The fire site: patch, consume the window anchor, anchor the cooldown, count, reset the clocks. */
  function Fire(s: State, now: Time, faults: set<Effect>, dryRun: bool): Outcome {
    var consumed := s.durable.(windowStart := None);
    var anchored := consumed.(lastRestart := Some(now));
    var counted := if s.durable.lastRestart.Some? then anchored.(ineffective := s.durable.ineffective + 1)
                   else anchored;
    if !dryRun && PatchDeployment in faults then Quiet(s, Saw(Holds), false)
    else if EmitRestarted in faults || ConsumeAnchor in faults then Outcome(s, Saw(Holds), true, false, false)
    else if WriteRestart in faults then Outcome(State(consumed, s.clocks), Saw(Holds), true, false, false)
    else if s.durable.lastRestart.Some? && (ReadCount in faults || WriteCount in faults)
    then Outcome(State(anchored, s.clocks), Saw(Holds), true, false, false)
    else if s.durable.lastRestart.Some? && counted.ineffective >= INEFFECTIVE_RESTART_EVENT_THRESHOLD &&
        EmitIneffective in faults
    then Outcome(State(counted, s.clocks), Saw(Holds), true, false, false)
    else Outcome(State(counted, FRESH_CLOCKS), Saw(Holds), true, false, true)
  }

  /** Whether the action gate defers a sustained window. */
  predicate Deferred(d: Scalars, now: Time, window: int) {
    d.lastRestart.Some? && BackoffTotal(d.ineffective) > NATURAL_REARM_WINDOWS
    && now - d.lastRestart.value <= window * BackoffTotal(d.ineffective)
  }

  /** The window begin used by a holding tick: the live clock, else the persisted anchor, else now. */
  function WindowBegin(s: State, now: Time): Time {
    if s.clocks.firstObserved.Some? then s.clocks.firstObserved.value
    else if s.durable.windowStart.Some? then s.durable.windowStart.value
    else now
  }

  function HoldingTick(s: State, now: Time, window: int, faults: set<Effect>, dryRun: bool): Outcome {
    var began := s.clocks.firstObserved.None?;
    var first := WindowBegin(s, now);
    var clocks := Clocks(Some(first), None);
    if began && ReadAnchor in faults then Quiet(s, Saw(Holds), false)
    else if began && WriteAnchor in faults then Quiet(State(s.durable, clocks), Saw(Holds), false)
    else
      var held := State(if began then s.durable.(windowStart := Some(first)) else s.durable, clocks);
      if now - first < window then Quiet(held, Saw(Holds), true) else Act(held, now, window, faults, dryRun)
  }

  /** The action gate of a sustained window, and the restart behind it. */
  function Act(held: State, now: Time, window: int, faults: set<Effect>, dryRun: bool): Outcome {
    if held.durable.lastRestart.Some? && ReadCountForBackoff in faults then Quiet(held, Saw(Holds), false)
    else if Deferred(held.durable, now, window) then Quiet(held, Saw(Holds), true)
    else Fire(held, now, faults, dryRun)
  }

  predicate GateClosed(d: Scalars, now: Time, window: int) {
    d.lastRestart.Some? && now - d.lastRestart.value <= window
  }

  function Tick(s: State, now: Time, window: int, sensed: Sensed, faults: set<Effect>, dryRun: bool): Outcome {
    if ReadGate in faults then Quiet(s, Unread, false)
    else if GateClosed(s.durable, now, window) then Quiet(s, Gated, true)
    else match sensed
      case Blind => BlindTick(s, faults)
      case Broken => BrokenTick(s, now, window, faults)
      case Holds => HoldingTick(s, now, window, faults, dryRun)
  }

  // ---------------------------------------------------------------- imperative code

  class StallWindowTracker {
    var firstObserved: Option<Time>
    var firstClean: Option<Time>

    function View(): Clocks
      reads this
    {
      Clocks(firstObserved, firstClean)
    }

    constructor ()
      ensures View() == FRESH_CLOCKS
    {
      firstObserved, firstClean := None, None;
    }

    method Reset()
      modifies this
      ensures View() == FRESH_CLOCKS
    {
      firstObserved, firstClean := None, None;
    }

    /** Feeds one verdict. Exactly one clock runs afterwards, started now unless it was already running. */
    method Observe(holds: bool, now: Time, window: int) returns (sustained: bool)
      modifies this
      ensures holds ==> firstClean.None?
      ensures holds ==> firstObserved == Some(if old(firstObserved).Some? then old(firstObserved).value else now)
      ensures !holds ==> firstObserved.None?
      ensures !holds ==> firstClean == Some(if old(firstClean).Some? then old(firstClean).value else now)
      ensures sustained <==> holds && now - firstObserved.value >= window
    {
      if !holds {
        firstObserved := None;
        if firstClean.None? { firstClean := Some(now); }
        return false;
      }
      firstClean := None;
      if firstObserved.None? { firstObserved := Some(now); }
      return now - firstObserved.value >= window;
    }
  }

  class StatusScalars {
    var lastRestart: Option<Time>
    var windowStart: Option<Time>
    var ineffective: int

    function View(): Scalars
      reads this
    {
      Scalars(lastRestart, windowStart, ineffective)
    }
  }

  /** The actions past the gates. */
  method FireRestart(tracker: StallWindowTracker, status: StatusScalars, now: Time,
                     faults: set<Effect>, dryRun: bool)
    returns (restarted: bool, completed: bool)
    modifies tracker, status
    ensures var o := Fire(old(State(status.View(), tracker.View())), now, faults, dryRun);
            State(status.View(), tracker.View()) == o.state && restarted == o.restarted && completed == o.completed
  {
    var previous := status.lastRestart;
    if !dryRun && PatchDeployment in faults { return false, false; }
    if EmitRestarted in faults { return true, false; }
    if ConsumeAnchor in faults { return true, false; }
    status.windowStart := None;
    if WriteRestart in faults { return true, false; }
    status.lastRestart := Some(now);
    if previous.Some? {
      if ReadCount in faults { return true, false; }
      var ineffective := status.ineffective + 1;
      if WriteCount in faults { return true, false; }
      status.ineffective := ineffective;
      if ineffective >= INEFFECTIVE_RESTART_EVENT_THRESHOLD && EmitIneffective in faults { return true, false; }
    }
    tracker.Reset();
    return true, true;
  }

  /** The action gate and the actions behind it. */
  method RunActions(tracker: StallWindowTracker, status: StatusScalars, now: Time, window: int,
                    faults: set<Effect>, dryRun: bool)
    returns (restarted: bool, completed: bool)
    modifies tracker, status
    ensures var o := Act(old(State(status.View(), tracker.View())), now, window, faults, dryRun);
            State(status.View(), tracker.View()) == o.state && restarted == o.restarted && completed == o.completed
  {
    var lastRestart := status.lastRestart;
    if lastRestart.Some? {
      if ReadCountForBackoff in faults { return false, false; }
      var backoff := BackoffWindows(status.ineffective);
      if backoff > NATURAL_REARM_WINDOWS && now - lastRestart.value <= window * backoff { return false, true; }
    }
    restarted, completed := FireRestart(tracker, status, now, faults, dryRun);
  }

  /** The reset of counter and cooldown after a clean window. */
  method ResetAfterCleanWindow(status: StatusScalars, faults: set<Effect>, ghost clocks: Clocks)
    returns (completed: bool)
    modifies status
    ensures var o := CleanReset(old(State(status.View(), clocks)), faults);
            State(status.View(), clocks) == o.state && completed == o.completed
  {
    var lastRestart := status.lastRestart;
    if lastRestart.None? && ReadCountForReset in faults { return false; }
    if lastRestart.Some? || status.ineffective > 0 {
      if ResetCount in faults { return false; }
      status.ineffective := 0;
      if lastRestart.Some? {
        if ResetRestart in faults { return false; }
        status.lastRestart := None;
      }
    }
    return true;
  }

  /** One stall evaluation: it does to the scalars and the clocks what `Tick` says. */
  method RunStallTick(tracker: StallWindowTracker, status: StatusScalars, now: Time, window: int,
                      sensed: Sensed, faults: set<Effect>, dryRun: bool)
    returns (restarted: bool, completed: bool)
    modifies tracker, status
    ensures var o := Tick(old(State(status.View(), tracker.View())), now, window, sensed, faults, dryRun);
            State(status.View(), tracker.View()) == o.state && restarted == o.restarted && completed == o.completed
  {
    if ReadGate in faults { return false, false; }
    var lastRestart := status.lastRestart;
    if lastRestart.Some? && now - lastRestart.value <= window { return false, true; }
    if sensed == Blind {
      tracker.Reset();
      if ClearBlind !in faults { status.windowStart := None; }
      return false, false;
    }
    var holds := sensed == Holds;
    var windowBegan := holds && tracker.firstObserved.None?;
    if windowBegan {
      if ReadAnchor in faults { return false, false; }
      if status.windowStart.Some? { tracker.firstObserved := status.windowStart; }
    }
    var sustained := tracker.Observe(holds, now, window);
    if windowBegan {
      if WriteAnchor in faults { return false, false; }
      status.windowStart := tracker.firstObserved;
    } else if !holds {
      if ClearAnchor in faults { return false, false; }
      status.windowStart := None;
    }
    if !holds && now - tracker.firstClean.value >= window {
      completed := ResetAfterCleanWindow(status, faults, tracker.View());
      return false, completed;
    }
    if !sustained { return false, true; }
    restarted, completed := RunActions(tracker, status, now, window, faults, dryRun);
  }
}
