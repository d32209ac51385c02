/**
 * The rest timer (frontend/src/contexts/RestTimerContext.jsx): `restTimerReducer`
 * and the decision the provider's effect takes each time `isActive` or
 * `timeLeft` changes, which is to schedule a TICK one second later while time
 * is left, to stop the timer once none is left, and otherwise to do nothing.
 */
module RestTimerContext {

  /** `{ isActive, timeLeft, duration }`, in whole seconds. */
  datatype State = State(isActive: bool, timeLeft: int, duration: int)

  const Initial: State := State(false, 0, 0)

  datatype Action =
    | StartTimer(duration: int)
    | Tick
    | StopTimer
    | PauseTimer
    | ResumeTimer
    | UnknownAction

  function Reduce(s: State, a: Action): (r: State)
    ensures a.StartTimer? ==> r.isActive && r.timeLeft == a.duration && r.duration == a.duration
    ensures a.Tick? ==> r.timeLeft == s.timeLeft - 1 && r.isActive == s.isActive && r.duration == s.duration
    ensures a.StopTimer? ==> r == Initial
    ensures a.PauseTimer? ==> r == s.(isActive := false)
    ensures a.ResumeTimer? ==> r == s.(isActive := true)
    ensures a.UnknownAction? ==> r == s
  {
    match a
    case StartTimer(d) => State(true, d, d)
    case Tick => s.(timeLeft := s.timeLeft - 1)
    case StopTimer => State(false, 0, 0)
    case PauseTimer => s.(isActive := false)
    case ResumeTimer => s.(isActive := true)
    case UnknownAction => s
  }

  /** What the effect does for a state: schedule a tick, stop, or nothing. */
  datatype Decision = ScheduleTick | Stop | Idle

  function Decide(s: State): (d: Decision)
    ensures d == ScheduleTick <==> s.isActive && s.timeLeft > 0
    ensures d == Stop <==> s.isActive && s.timeLeft == 0
  {
    if s.isActive && s.timeLeft > 0 then ScheduleTick
    else if s.timeLeft == 0 && s.isActive then Stop
    else Idle
  }

  /** The state after the effect's decision has been carried out. */
  function Step(s: State): State {
    match Decide(s)
    case ScheduleTick => Reduce(s, Tick)
    case Stop => Reduce(s, StopTimer)
    case Idle => s
  }

  /** The state after `n` rounds of the effect, with no other action dispatched. */
  function Run(s: State, n: nat): State
    decreases n
  {
    if n == 0 then s else Run(Step(s), n - 1)
  }

  /** The time left never goes below zero or above the duration. */
  predicate InRange(s: State) {
    0 <= s.timeLeft <= s.duration
  }

  /** An action the provider or the user can dispatch: any start with a non-negative duration, a stop, a pause or a resume. */
  predicate UserAction(a: Action) {
    (a.StartTimer? && a.duration >= 0) || a.StopTimer? || a.PauseTimer? || a.ResumeTimer? || a.UnknownAction?
  }

  /** Every user action and every round of the effect keeps the time left in range. */
  lemma {:induction false} InRangePreserved(s: State, a: Action)
    requires InRange(s)
    ensures UserAction(a) ==> InRange(Reduce(s, a))
    ensures InRange(Step(s))
  {
  }

  /**
   * Started with `d >= 0` seconds, the timer stays active and counts down one
   * second per round: after `k <= d` rounds, `d - k` seconds are left.
   */
  lemma {:induction false} CountsDown(d: int, k: nat)
    requires d >= 0 && k <= d
    ensures Run(Reduce(Initial, StartTimer(d)), k) == State(true, d - k, d)
    decreases k
  {
    if k > 0 {
      CountsDown(d, k - 1);
      RunLast(Reduce(Initial, StartTimer(d)), k - 1);
    }
  }

  /** One more round after `n` rounds. */
  lemma {:induction false} RunLast(s: State, n: nat)
    ensures Run(s, n + 1) == Step(Run(s, n))
    decreases n
  {
    if n > 0 {
      RunLast(Step(s), n - 1);
    }
  }

  /**
   * A timer started with `d >= 0` seconds, from any state, takes exactly `d`
   * ticks and then one stop: it is active for the first `d` rounds, each of
   * which is a tick, the round after them is the stop, and it is then back in
   * the initial state, where it stays.
   */
  lemma {:induction false} StartRunsToStop(s: State, d: int, m: nat)
    requires d >= 0
    ensures forall k: nat :: k < d ==> Decide(Run(Reduce(s, StartTimer(d)), k)) == ScheduleTick
    ensures Decide(Run(Reduce(s, StartTimer(d)), d)) == Stop
    ensures Run(Reduce(s, StartTimer(d)), d + 1 + m) == Initial
  {
    assert Reduce(s, StartTimer(d)) == Reduce(Initial, StartTimer(d));
    forall k: nat | k < d
      ensures Decide(Run(Reduce(s, StartTimer(d)), k)) == ScheduleTick
    {
      CountsDown(d, k);
    }
    CountsDown(d, d);
    RunLast(Reduce(Initial, StartTimer(d)), d);
    StaysStopped(Run(Reduce(Initial, StartTimer(d)), d + 1), m);
    RunSplit(Reduce(Initial, StartTimer(d)), d + 1, m);
  }

  /** The initial state is left alone by the effect. */
  lemma {:induction false} StaysStopped(s: State, m: nat)
    requires s == Initial
    ensures Run(s, m) == Initial
    decreases m
  {
    if m > 0 {
      StaysStopped(Step(s), m - 1);
    }
  }

  /** Running `n + m` rounds is running `n` and then `m`. */
  lemma {:induction false} RunSplit(s: State, n: nat, m: nat)
    ensures Run(s, n + m) == Run(Run(s, n), m)
    decreases n
  {
    if n > 0 {
      RunSplit(Step(s), n - 1, m);
    }
  }

  /** Pausing and then resuming an active timer restores it. */
  lemma {:induction false} PauseResume(s: State)
    requires s.isActive
    ensures Reduce(Reduce(s, PauseTimer), ResumeTimer) == s
  {
  }

  /** A paused timer does not tick and is not stopped by the effect. */
  lemma {:induction false} PausedIsIdle(s: State)
    ensures Decide(Reduce(s, PauseTimer)) == Idle
    ensures Step(Reduce(s, PauseTimer)) == Reduce(s, PauseTimer)
  {
  }
}
