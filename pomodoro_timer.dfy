/**
 * The Pomodoro countdown of the app: the state cells `timeLeft`,
 * `isRunning`, `isWorkTime` and the timer settings, the one-second tick and
 * phase flip, and the start/pause, reset and settings handlers.
 *
 * The transition functions on TimerState are the specification; the class
 * Timer holds the same cells as fields and its methods are proved to follow
 * those functions. Sounds are returned as values instead of being played.
 */
module PomodoroTimer {
  import TimeFormat

  /** Bounds of the settings inputs (`min`/`max` of the two number fields). */
  const MIN_MINUTES := 1
  const MAX_WORK_MINUTES := 60
  const MAX_BREAK_MINUTES := 30
  /** The longest phase, in seconds. */
  const MAX_SECONDS := MAX_WORK_MINUTES * 60

  /** The notification a transition asks for. */
  datatype Sound = Silent | StartSound | EndSound

  datatype TimerState = TimerState(
    timeLeft: int,
    isRunning: bool,
    isWorkTime: bool,
    workMinutes: int,
    breakMinutes: int)
  {
    /** The full length, in seconds, of the current phase. */
    function Duration(): int {
      if isWorkTime then workMinutes * 60 else breakMinutes * 60
    }

    /** Settings within the input bounds and a countdown within 0..MAX_SECONDS. */
    predicate Valid() {
      MIN_MINUTES <= workMinutes <= MAX_WORK_MINUTES &&
      MIN_MINUTES <= breakMinutes <= MAX_BREAK_MINUTES &&
      0 <= timeLeft <= MAX_SECONDS
    }

    /** The countdown has not run past the full length of its phase. */
    predicate WithinPhase() {
      0 <= timeLeft <= Duration()
    }
  }

  datatype Transition = Transition(next: TimerState, sound: Sound)

  /** 25 minutes of work, 5 of break, stopped, in the work phase. */
  const INITIAL := TimerState(25 * 60, false, true, 25, 5)

  /**
   * One step of the countdown effect: while running with time left, the
   * interval it arms takes one second off; at zero the phase flips, the
   * countdown is reloaded with the new phase's length, the timer stops and
   * the end sound plays; otherwise nothing happens.
   */
  function AfterTick(s: TimerState): (r: Transition)
    ensures r.next.workMinutes == s.workMinutes && r.next.breakMinutes == s.breakMinutes
    ensures r.sound != StartSound
    ensures s.timeLeft >= 0 ==> (r.sound == EndSound <==> s.timeLeft == 0)
    ensures r.sound == EndSound ==>
      r.next.isWorkTime == !s.isWorkTime && !r.next.isRunning && r.next.timeLeft == r.next.Duration()
    ensures r.sound == Silent ==> r.next.isWorkTime == s.isWorkTime && r.next.timeLeft <= s.timeLeft
    ensures s.Valid() ==> r.next.Valid()
  {
    if s.isRunning && s.timeLeft > 0 then
      Transition(s.(timeLeft := s.timeLeft - 1), Silent)
    else if s.timeLeft == 0 then
      Transition(
        s.(isWorkTime := !s.isWorkTime,
           timeLeft := if s.isWorkTime then s.breakMinutes * 60 else s.workMinutes * 60,
           isRunning := false),
        EndSound)
    else
      Transition(s, Silent)
  }

  /** `toggleTimer`: start or pause; the start sound only on a fresh start. */
  function AfterToggle(s: TimerState): (r: Transition)
    ensures r.next.isRunning == !s.isRunning
    ensures r.next.timeLeft == s.timeLeft && r.next.isWorkTime == s.isWorkTime
    ensures r.next.workMinutes == s.workMinutes && r.next.breakMinutes == s.breakMinutes
    ensures r.sound != EndSound
    ensures r.sound == StartSound ==> r.next.isRunning && r.next.timeLeft == r.next.Duration()
  {
    var freshStart := !s.isRunning && s.timeLeft == s.Duration();
    Transition(s.(isRunning := !s.isRunning), if freshStart then StartSound else Silent)
  }

  /** `resetTimer`: reload the current phase and stop. */
  function AfterReset(s: TimerState): (r: TimerState)
    ensures r.timeLeft == r.Duration() == s.Duration() && !r.isRunning
    ensures r.isWorkTime == s.isWorkTime
    ensures r.workMinutes == s.workMinutes && r.breakMinutes == s.breakMinutes
  {
    s.(timeLeft := s.Duration(), isRunning := false)
  }

  /** Editing the work duration stores the new minutes and nothing else. */
  function AfterWorkEdit(s: TimerState, minutes: int): (r: TimerState)
    ensures r.workMinutes == minutes && r.breakMinutes == s.breakMinutes
    ensures r.timeLeft == s.timeLeft && r.isRunning == s.isRunning && r.isWorkTime == s.isWorkTime
    ensures r.Duration() == if s.isWorkTime then minutes * 60 else s.Duration()
  {
    s.(workMinutes := minutes)
  }

  /** Editing the break duration stores the new minutes and nothing else. */
  function AfterBreakEdit(s: TimerState, minutes: int): (r: TimerState)
    ensures r.breakMinutes == minutes && r.workMinutes == s.workMinutes
    ensures r.timeLeft == s.timeLeft && r.isRunning == s.isRunning && r.isWorkTime == s.isWorkTime
    ensures r.Duration() == if s.isWorkTime then s.Duration() else minutes * 60
  {
    s.(breakMinutes := minutes)
  }

  /** The state after `k` ticks with no other event in between. */
  function Run(s: TimerState, k: nat): (r: TimerState)
    ensures r.workMinutes == s.workMinutes && r.breakMinutes == s.breakMinutes
    ensures s.Valid() ==> r.Valid()
    decreases k
  {
    if k == 0 then s else Run(AfterTick(s).next, k - 1)
  }

  // ---------------------------------------------------------------------
  // Properties of the transitions

  lemma InitialIsValid()
    ensures INITIAL.Valid() && INITIAL.WithinPhase()
    ensures INITIAL.timeLeft == INITIAL.Duration() && !INITIAL.isRunning
  {
  }

  /** A tick while running with time left takes exactly one second off and changes nothing else. */
  lemma TickCountsDown(s: TimerState)
    requires s.isRunning && s.timeLeft > 0
    ensures AfterTick(s).next == s.(timeLeft := s.timeLeft - 1)
    ensures AfterTick(s).next.timeLeft >= 0
    ensures AfterTick(s).sound == Silent
  {
  }

  /**
   * At zero the phase flips, the countdown holds the NEW phase's full
   * length (the break after work, the work after a break), the timer stops,
   * the end sound plays and the settings are kept.
   */
  lemma TickAtZeroFlips(s: TimerState)
    requires s.timeLeft == 0
    ensures var t := AfterTick(s).next;
      t.isWorkTime == !s.isWorkTime && !t.isRunning &&
      t.timeLeft == t.Duration() &&
      t.timeLeft == (if s.isWorkTime then s.breakMinutes * 60 else s.workMinutes * 60) &&
      t.workMinutes == s.workMinutes && t.breakMinutes == s.breakMinutes
    ensures AfterTick(s).sound == EndSound
  {
  }

  /** A tick while paused with time left does nothing. */
  lemma TickWhilePausedIsIdle(s: TimerState)
    requires !s.isRunning && s.timeLeft > 0
    ensures AfterTick(s) == Transition(s, Silent)
  {
  }

  /** Every transition keeps the settings in bounds and the countdown in 0..MAX_SECONDS. */
  lemma TransitionsKeepValid(s: TimerState, minutes: int)
    requires s.Valid()
    ensures AfterTick(s).next.Valid()
    ensures AfterToggle(s).next.Valid()
    ensures AfterReset(s).Valid()
    ensures MIN_MINUTES <= minutes <= MAX_WORK_MINUTES ==> AfterWorkEdit(s, minutes).Valid()
    ensures MIN_MINUTES <= minutes <= MAX_BREAK_MINUTES ==> AfterBreakEdit(s, minutes).Valid()
  {
  }

  /**
   * Ticks, toggles and resets keep the countdown within its phase; a flip
   * and a reset establish it whatever came before.
   */
  lemma TransitionsKeepWithinPhase(s: TimerState)
    requires s.Valid()
    ensures s.WithinPhase() ==> AfterTick(s).next.WithinPhase()
    ensures s.WithinPhase() ==> AfterToggle(s).next.WithinPhase()
    ensures s.timeLeft == 0 ==> AfterTick(s).next.WithinPhase()
    ensures AfterReset(s).WithinPhase()
  {
  }

  /**
   * Editing the settings does not rescale the countdown: shortening the work
   * phase to 10 minutes at the start leaves 25 minutes on the clock.
   */
  lemma EditDoesNotRescale()
    ensures var s := AfterWorkEdit(INITIAL, 10);
      s.Valid() && s.timeLeft == 1500 && s.Duration() == 600 && !s.WithinPhase()
  {
  }

  /**
   * `toggleTimer` flips running and touches nothing else; the start sound
   * plays if and only if the timer was stopped at its phase's full length.
   */
  lemma ToggleFlipsRunning(s: TimerState)
    ensures AfterToggle(s).next == s.(isRunning := !s.isRunning)
    ensures AfterToggle(s).sound == StartSound <==> !s.isRunning && s.timeLeft == s.Duration()
  {
  }

  /** Starting and pausing again without a tick in between restores the state. */
  lemma ToggleTwiceRestores(s: TimerState)
    ensures AfterToggle(AfterToggle(s).next).next == s
    ensures s.isRunning ==> AfterToggle(s).sound == Silent
  {
  }

  /** Resetting twice is the same as resetting once. */
  lemma ResetIdempotent(s: TimerState)
    ensures AfterReset(AfterReset(s)) == AfterReset(s)
  {
  }

  /** `k` ticks on a running timer with at least `k` seconds left take `k` seconds off. */
  lemma {:induction false} Countdown(s: TimerState, k: nat)
    requires s.isRunning && k <= s.timeLeft
    ensures Run(s, k) == s.(timeLeft := s.timeLeft - k)
    decreases k
  {
    if k > 0 {
      var t := AfterTick(s).next;
      assert t == s.(timeLeft := s.timeLeft - 1);
      Countdown(t, k - 1);
    }
  }

  /**
   * A running timer with `n` seconds left reaches zero after `n` ticks,
   * still running, and the next tick flips to the other phase at its full
   * length, stopped, with the end sound.
   */
  lemma PhaseEndsAfterTimeLeft(s: TimerState)
    requires s.isRunning && s.timeLeft >= 0
    ensures Run(s, s.timeLeft) == s.(timeLeft := 0)
    ensures var end := AfterTick(Run(s, s.timeLeft));
      end.sound == EndSound &&
      end.next == s.(isWorkTime := !s.isWorkTime,
                     timeLeft := if s.isWorkTime then s.breakMinutes * 60 else s.workMinutes * 60,
                     isRunning := false)
  {
    Countdown(s, s.timeLeft);
  }

  /**
   * A full default session: start the fresh timer, let 1500 ticks run it
   * down to 00:00 and one more flip it to a stopped 5-minute break.
   */
  lemma DefaultWorkSession()
    ensures AfterToggle(INITIAL).sound == StartSound
    ensures Run(AfterToggle(INITIAL).next, 1500) == TimerState(0, true, true, 25, 5)
    ensures Run(AfterToggle(INITIAL).next, 1501) == TimerState(300, false, false, 25, 5)
  {
    var started := AfterToggle(INITIAL).next;
    Countdown(started, 1500);
    RunOneMore(started, 1500);
  }

  /** One more tick after `k` ticks. */
  lemma {:induction false} RunOneMore(s: TimerState, k: nat)
    ensures Run(s, k + 1) == AfterTick(Run(s, k)).next
    decreases k
  {
    if k > 0 {
      RunOneMore(AfterTick(s).next, k - 1);
    }
  }

  /** Every countdown value of a valid timer displays as five characters `mm:ss`. */
  lemma DisplayIsFiveCharacters(s: TimerState)
    requires s.Valid()
    ensures var d := TimeFormat.FormatTime(s.timeLeft);
      |d| == 5 && d[2] == ':' && TimeFormat.ParseTime(d) == TimeFormat.Some(s.timeLeft)
  {
    TimeFormat.FormatParseRoundTrip(s.timeLeft);
  }

  // ---------------------------------------------------------------------
  // The component's timer state cells

  class Timer {
    var timeLeft: int
    var isRunning: bool
    var isWorkTime: bool
    var workMinutes: int
    var breakMinutes: int

    /** The value of the cells. */
    function State(): TimerState
      reads this
    {
      TimerState(timeLeft, isRunning, isWorkTime, workMinutes, breakMinutes)
    }

    predicate Valid()
      reads this
    {
      State().Valid()
    }

    /** The initial values of the state cells. */
    constructor()
      ensures State() == INITIAL && Valid()
    {
      timeLeft, isRunning, isWorkTime := 25 * 60, false, true;
      workMinutes, breakMinutes := 25, 5;
    }

    /** One run of the countdown effect (and one firing of the interval it arms). */
    method Tick() returns (sound: Sound)
      requires Valid()
      modifies this
      ensures Valid()
      ensures Transition(State(), sound) == AfterTick(old(State()))
    {
      sound := Silent;
      if isRunning && timeLeft > 0 {
        timeLeft := timeLeft - 1;
      } else if timeLeft == 0 {
        sound := EndSound;
        timeLeft := if isWorkTime then breakMinutes * 60 else workMinutes * 60;
        isWorkTime := !isWorkTime;
        isRunning := false;
      }
    }

    /** `toggleTimer`. */
    method ToggleTimer() returns (sound: Sound)
      requires Valid()
      modifies this
      ensures Valid()
      ensures Transition(State(), sound) == AfterToggle(old(State()))
    {
      var full := if isWorkTime then workMinutes * 60 else breakMinutes * 60;
      sound := if !isRunning && timeLeft == full then StartSound else Silent;
      isRunning := !isRunning;
    }

    /** `resetTimer`. */
    method ResetTimer()
      requires Valid()
      modifies this
      ensures Valid()
      ensures State() == AfterReset(old(State()))
    {
      timeLeft := if isWorkTime then workMinutes * 60 else breakMinutes * 60;
      isRunning := false;
    }

    /** The work-duration input's change handler, for a value within its bounds. */
    method SetWorkMinutes(minutes: int)
      requires Valid() && MIN_MINUTES <= minutes <= MAX_WORK_MINUTES
      modifies this
      ensures Valid()
      ensures State() == AfterWorkEdit(old(State()), minutes)
    {
      workMinutes := minutes;
    }

    /** The break-duration input's change handler, for a value within its bounds. */
    method SetBreakMinutes(minutes: int)
      requires Valid() && MIN_MINUTES <= minutes <= MAX_BREAK_MINUTES
      modifies this
      ensures Valid()
      ensures State() == AfterBreakEdit(old(State()), minutes)
    {
      breakMinutes := minutes;
    }

    /** The text the timer shows. */
    method Display() returns (text: string)
      requires Valid()
      ensures |text| == 5 && text[2] == ':'
      ensures TimeFormat.ParseTime(text) == TimeFormat.Some(timeLeft)
    {
      DisplayIsFiveCharacters(State());
      text := TimeFormat.FormatTime(timeLeft);
    }
  }
}
