/**
  * The timer controller (src/hooks/useTimer.ts): the state cells `mode`,
  * `remainingSeconds` and `isRunning`, the ref `modeRef`, the four commands
  * that post messages to the worker, the handler for the worker's TICK and
  * COMPLETE, and the pure `formatTime`.
  *
  * React re-renders and effects are not modelled. The effect that copies
  * `mode` into `modeRef` is taken to have run before the next worker event is
  * handled, so `ChangeMode` updates both cells.
  */
module TimerHook {
  import opened Options
  import opened JsText
  import opened PomodoroTypes
  import opened TickSource

  /** The hook's state cells and its `modeRef`. */
  datatype HookState = HookState(mode: TimerMode, remainingSeconds: int, isRunning: bool, modeRef: TimerMode)

  /** What a command leaves behind: the new state and the message posted to the worker. */
  datatype Posted = Posted(state: HookState, command: Command)

  /** What the worker-message handler leaves behind: the new state and the mode `onComplete` was called with, if it was. */
  datatype Handled = Handled(state: HookState, completed: Option<TimerMode>)

  /** `modeRef.current` agrees with `mode`. */
  predicate RefInSync(h: HookState) {
    h.modeRef == h.mode
  }

  /** The state cells as the hook mounts: work mode, the configured work duration, not running. */
  function InitialState(ts: TimerSettings): (h: HookState)
    ensures h.mode == Work && RefInSync(h)
    ensures h.remainingSeconds == ModeDuration(ts, Work) && !h.isRunning
  {
    HookState(Work, ts.workDuration, false, Work)
  }

  /** The message the mount effect posts: SET_TIME with the work duration. */
  function MountCommand(ts: TimerSettings): (c: Command)
    ensures c == SetTime(ModeDuration(ts, Work))
  {
    SetTime(ts.workDuration)
  }

  /** `start`: posts START and marks the timer running, whatever time is left. */
  function OnStart(h: HookState): (r: Posted)
    ensures r.command == Start && r.state.isRunning
    ensures r.state.mode == h.mode && r.state.modeRef == h.modeRef
    ensures r.state.remainingSeconds == h.remainingSeconds
  {
    Posted(h.(isRunning := true), Start)
  }

  /** `pause`: posts PAUSE and marks the timer stopped. */
  function OnPause(h: HookState): (r: Posted)
    ensures r.command == Pause && !r.state.isRunning
    ensures r.state.mode == h.mode && r.state.modeRef == h.modeRef
    ensures r.state.remainingSeconds == h.remainingSeconds
  {
    Posted(h.(isRunning := false), Pause)
  }

  /** `reset`: posts RESET with the current mode's configured duration and marks the timer stopped. */
  function OnReset(h: HookState, ts: TimerSettings): (r: Posted)
    ensures r.command == Reset(ModeDuration(ts, h.mode)) && !r.state.isRunning
    ensures r.state.mode == h.mode && r.state.modeRef == h.modeRef
    ensures r.state.remainingSeconds == h.remainingSeconds
  {
    var duration := DurationAt(ts, ModeDurationKey(h.mode));
    Posted(h.(isRunning := false), Reset(duration))
  }

  /** `changeMode(m)`: switches to `m`, posts RESET with `m`'s configured duration and marks the timer stopped. */
  function OnChangeMode(h: HookState, ts: TimerSettings, m: TimerMode): (r: Posted)
    ensures r.command == Reset(ModeDuration(ts, m)) && !r.state.isRunning
    ensures r.state.mode == m && RefInSync(r.state)
    ensures r.state.remainingSeconds == h.remainingSeconds
  {
    var duration := DurationAt(ts, ModeDurationKey(m));
    Posted(h.(mode := m, modeRef := m, isRunning := false), Reset(duration))
  }

  /**
    * The worker's `onmessage`: TICK(v) sets the time left to v and nothing
    * else; COMPLETE marks the timer stopped and calls `onComplete` once, with
    * `modeRef.current` at the time the event is handled.
    */
  function OnWorkerMessage(h: HookState, e: Event): (r: Handled)
    ensures e.Tick? ==> r.state == h.(remainingSeconds := e.remaining) && r.completed == None
    ensures e.Complete? ==> r.state == h.(isRunning := false) && r.completed == Some(h.modeRef)
    ensures RefInSync(h) ==> RefInSync(r.state)
  {
    match e
    case Tick(v) => Handled(h.(remainingSeconds := v), None)
    case Complete => Handled(h.(isRunning := false), Some(h.modeRef))
  }

  /** The four buttons of the timer. */
  datatype UserAction = PressStart | PressPause | PressReset | ChooseMode(mode: TimerMode)

  /** The command a button runs; none of them writes the time left, which changes only through TICK. */
  function OnUserAction(h: HookState, ts: TimerSettings, a: UserAction): (r: Posted)
    ensures r.state.remainingSeconds == h.remainingSeconds
    ensures a.PressStart? <==> r.state.isRunning
    ensures RefInSync(h) ==> RefInSync(r.state)
    ensures !a.ChooseMode? ==> r.state.mode == h.mode
  {
    match a
    case PressStart => OnStart(h)
    case PressPause => OnPause(h)
    case PressReset => OnReset(h, ts)
    case ChooseMode(m) => OnChangeMode(h, ts, m)
  }

  /** `mins.toString().padStart(2, '0')`. */
  function Pad2(n: int): (r: string)
    ensures |r| >= 2
  {
    PadStart(IntToString(n), 2, '0')
  }

  /**
    * `seconds % 60` in JavaScript, whose remainder takes the dividend's sign
    * (Dafny's `%` never returns a negative value). A remainder of -0 prints
    * as "0", so it is 0 here.
    */
  function JsRem60(s: int): (r: int)
    ensures s >= 0 ==> r == s % 60
    ensures -60 < r < 60 && (r == 0 || (r < 0 <==> s < 0))
    ensures (s - r) % 60 == 0
  {
    if s >= 0 || s % 60 == 0 then s % 60 else s % 60 - 60
  }

  /**
    * `formatTime`: minutes (`Math.floor(seconds / 60)`; Dafny's `/` by a
    * positive divisor also rounds down) and seconds, each padded to two
    * places, joined by a colon.
    */
  function FormatTime(seconds: int): (t: string)
    ensures |t| >= 5
  {
    Pad2(seconds / 60) + ":" + Pad2(JsRem60(seconds))
  }

  /** Reads "mm:ss" (two digits, a colon, a seconds field below 60) back into seconds; `None` for anything else. */
  function ParseClock(t: string): (r: Option<int>)
    ensures r.Some? ==> 0 <= r.value < 6000
  {
    if |t| == 5 && IsDigit(t[0]) && IsDigit(t[1]) && t[2] == ':' && '0' <= t[3] <= '5' && IsDigit(t[4]) then
      Some(60 * (10 * DigitValue(t[0]) + DigitValue(t[1])) + 10 * DigitValue(t[3]) + DigitValue(t[4]))
    else None
  }

  /** A number below 100 pads to exactly its two decimal digits. */
  lemma Pad2Digits(n: nat)
    requires n < 100
    ensures Pad2(n) == [DigitChar(n / 10), DigitChar(n % 10)]
  {
    if n >= 10 {
      assert NatToString(n) == NatToString(n / 10) + [DigitChar(n % 10)];
    }
  }

  /** Two decimal digits read back as the number they write. */
  lemma ParseTwoDigits(a: nat, b: nat)
    requires a < 10 && b < 10
    ensures AllDigits([DigitChar(a), DigitChar(b)])
    ensures ParseDecimal([DigitChar(a), DigitChar(b)]) == 10 * a + b
  {
    var t := [DigitChar(a), DigitChar(b)];
    assert t[..1] == [DigitChar(a)];
    assert [DigitChar(a)][..0] == [];
    assert ParseDecimal([DigitChar(a)]) == a;
    assert DigitValue(t[1]) == b;
  }

  /** A number below 100 pads to two digits that read back as the number. */
  lemma {:induction false} Pad2ReadsBack(n: nat)
    requires n < 100
    ensures |Pad2(n)| == 2 && AllDigits(Pad2(n)) && ParseDecimal(Pad2(n)) == n
  {
    Pad2Digits(n);
    ParseTwoDigits(n / 10, n % 10);
  }

  /** Whatever precedes it, a padded seconds field after a colon ends the text as two digits. */
  lemma {:induction false} SecondsField(head: string, secs: nat)
    requires secs < 60
    ensures var t := head + ":" + Pad2(secs);
      |t| == |head| + 3 && t[|t| - 3] == ':' && t[|t| - 2..] == Pad2(secs)
      && AllDigits(Pad2(secs)) && ParseDecimal(Pad2(secs)) == secs
  {
    Pad2ReadsBack(secs);
    var t := head + ":" + Pad2(secs);
    assert t[|t| - 2..] == Pad2(secs);
  }

  /**
    * For a non-negative count the text ends in ":ss", where "ss" is always
    * exactly two digits and reads back as the count modulo 60.
    */
  lemma {:induction false} FormatTimeFields(seconds: nat)
    ensures var t := FormatTime(seconds);
      |t| >= 5 && t[|t| - 3] == ':' && AllDigits(t[|t| - 2..]) && ParseDecimal(t[|t| - 2..]) == seconds % 60
  {
    var head := Pad2(seconds / 60);
    assert FormatTime(seconds) == head + ":" + Pad2(seconds % 60);
    SecondsField(head, seconds % 60);
  }

  /** The digit pairs of minutes and seconds joined by a colon read back as the count they stand for. */
  lemma ClockOfDigits(p: string, q: string, mins: nat, secs: nat)
    requires mins < 100 && secs < 60
    requires p == [DigitChar(mins / 10), DigitChar(mins % 10)]
    requires q == [DigitChar(secs / 10), DigitChar(secs % 10)]
    ensures |p + ":" + q| == 5
    ensures ParseClock(p + ":" + q) == Some(60 * mins + secs)
  {
    var t := p + ":" + q;
    assert t[0] == DigitChar(mins / 10) && t[1] == DigitChar(mins % 10) && t[2] == ':';
    assert t[3] == DigitChar(secs / 10) && t[4] == DigitChar(secs % 10);
    assert mins == 10 * (mins / 10) + mins % 10 && secs == 10 * (secs / 10) + secs % 10;
  }

  /** Padded minutes and seconds joined by a colon read back as the count they stand for. */
  lemma ClockReadsBack(mins: nat, secs: nat)
    requires mins < 100 && secs < 60
    ensures |Pad2(mins) + ":" + Pad2(secs)| == 5
    ensures ParseClock(Pad2(mins) + ":" + Pad2(secs)) == Some(60 * mins + secs)
  {
    Pad2Digits(mins);
    Pad2Digits(secs);
    ClockOfDigits(Pad2(mins), Pad2(secs), mins, secs);
  }

  /** Below 100 minutes the text is "mm:ss", five characters, and reading it back gives the count. */
  lemma {:induction false} FormatTimeRoundTrip(seconds: nat)
    requires seconds < 6000
    ensures |FormatTime(seconds)| == 5
    ensures ParseClock(FormatTime(seconds)) == Some(seconds)
  {
    var mins, secs := seconds / 60, seconds % 60;
    assert 60 * mins + secs == seconds;
    assert FormatTime(seconds) == Pad2(mins) + ":" + Pad2(secs);
    ClockReadsBack(mins, secs);
  }

  /** The hook's state cells and refs, updated in place by its callbacks. */
  class Timer {
    var mode: TimerMode
    var remainingSeconds: int
    var isRunning: bool
    var modeRef: TimerMode

    function State(): HookState
      reads this
    {
      HookState(mode, remainingSeconds, isRunning, modeRef)
    }

    ghost predicate Valid()
      reads this
    {
      RefInSync(State())
    }

    constructor (ts: TimerSettings)
      ensures Valid() && State() == InitialState(ts)
    {
      mode := Work;
      remainingSeconds := ts.workDuration;
      isRunning := false;
      modeRef := Work;
    }

    /** The mount effect: posts SET_TIME with the work duration. */
    method Mount(ts: TimerSettings) returns (c: Command)
      ensures c == MountCommand(ts)
    {
      c := SetTime(ts.workDuration);
    }

    method Start() returns (c: Command)
      requires Valid()
      modifies this
      ensures Valid() && Posted(State(), c) == OnStart(old(State()))
    {
      c := Command.Start;
      isRunning := true;
    }

    method Pause() returns (c: Command)
      requires Valid()
      modifies this
      ensures Valid() && Posted(State(), c) == OnPause(old(State()))
    {
      c := Command.Pause;
      isRunning := false;
    }

    method Reset(ts: TimerSettings) returns (c: Command)
      requires Valid()
      modifies this
      ensures Valid() && Posted(State(), c) == OnReset(old(State()), ts)
    {
      var durationKey := ModeDurationKey(mode);
      var duration := DurationAt(ts, durationKey);
      c := Command.Reset(duration);
      isRunning := false;
    }

    method ChangeMode(ts: TimerSettings, newMode: TimerMode) returns (c: Command)
      requires Valid()
      modifies this
      ensures Valid() && Posted(State(), c) == OnChangeMode(old(State()), ts, newMode)
    {
      var durationKey := ModeDurationKey(newMode);
      var duration := DurationAt(ts, durationKey);
      mode := newMode;
      c := Command.Reset(duration);
      isRunning := false;
      modeRef := mode;
    }

    /** The worker-message handler; `completed` is the argument `onComplete` was called with, if it was. */
    method OnMessage(e: Event) returns (completed: Option<TimerMode>)
      requires Valid()
      modifies this
      ensures Valid() && Handled(State(), completed) == OnWorkerMessage(old(State()), e)
    {
      completed := None;
      match e
      case Tick(v) =>
        remainingSeconds := v;
      case Complete =>
        isRunning := false;
        completed := Some(modeRef);
    }
  }
}
