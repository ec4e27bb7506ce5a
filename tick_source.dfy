/**
  * The tick source (public/timer-worker.js): a worker that holds
  * `remainingSeconds`, `isRunning` and an interval handle, takes the commands
  * START, PAUSE, RESET(p) and SET_TIME(p), and, while its interval is
  * scheduled, counts down once per firing and posts TICK and COMPLETE.
  *
  * Each handler is specified by a function from the old state to a `Step`
  * (the new state and the events posted, in order); the `Worker` class holds
  * the three variables and its methods are proved against those functions.
  * A firing is one explicit call: timing, and the interval's own scheduling,
  * are not modelled.
  */
module TickSource {

  datatype Command = Start | Pause | Reset(seconds: int) | SetTime(seconds: int)

  datatype Event = Tick(remaining: int) | Complete

  /** The worker's variables; `hasInterval` stands for `intervalId !== null`. */
  datatype WorkerState = WorkerState(remainingSeconds: int, isRunning: bool, hasInterval: bool)

  /** The state a handler leaves and the events it posted, in posting order. */
  datatype Step = Step(state: WorkerState, posted: seq<Event>)

  /** A stopped worker: no interval, not running, nothing left. */
  const Stopped: WorkerState := WorkerState(0, false, false)

  /** The worker as it is loaded: nothing left, not running, no interval. */
  function Initial(): WorkerState {
    Stopped
  }

  /** The worker's invariant: it is running exactly when an interval is scheduled. */
  predicate Consistent(w: WorkerState) {
    w.isRunning == w.hasInterval
  }

  /** START: schedules the interval only when not running and time is left; posts nothing. */
  function StartStep(w: WorkerState): (r: Step)
    ensures r.posted == []
    ensures r.state.remainingSeconds == w.remainingSeconds
    ensures r.state.isRunning == (w.isRunning || w.remainingSeconds > 0)
    ensures r.state.hasInterval == (w.hasInterval || (!w.isRunning && w.remainingSeconds > 0))
    ensures w.isRunning || w.remainingSeconds <= 0 ==> r.state == w
  {
    if !w.isRunning && w.remainingSeconds > 0 then Step(w.(isRunning := true, hasInterval := true), [])
    else Step(w, [])
  }

  /** PAUSE: clears the interval and stops, keeping the time left; posts nothing. */
  function PauseStep(w: WorkerState): (r: Step)
    ensures r.posted == []
    ensures !r.state.isRunning && !r.state.hasInterval
    ensures r.state.remainingSeconds == w.remainingSeconds
  {
    Step(w.(isRunning := false, hasInterval := false), [])
  }

  /** RESET(p): clears the interval, stops, sets the time left to p and echoes it in one TICK. */
  function ResetStep(w: WorkerState, seconds: int): (r: Step)
    ensures r.posted == [Tick(seconds)]
    ensures !r.state.isRunning && !r.state.hasInterval
    ensures r.state.remainingSeconds == seconds
  {
    Step(WorkerState(seconds, false, false), [Tick(seconds)])
  }

  /** SET_TIME(p): sets the time left to p and echoes it in one TICK; the interval is untouched. */
  function SetTimeStep(w: WorkerState, seconds: int): (r: Step)
    ensures r.posted == [Tick(seconds)]
    ensures r.state.remainingSeconds == seconds
    ensures r.state.isRunning == w.isRunning && r.state.hasInterval == w.hasInterval
  {
    Step(w.(remainingSeconds := seconds), [Tick(seconds)])
  }

  /** The worker's `onmessage` switch; every command keeps the invariant. */
  function HandleCommand(w: WorkerState, c: Command): (r: Step)
    ensures Consistent(w) ==> Consistent(r.state)
  {
    match c
    case Start => StartStep(w)
    case Pause => PauseStep(w)
    case Reset(p) => ResetStep(w, p)
    case SetTime(p) => SetTimeStep(w, p)
  }

  /**
    * One firing of the interval callback. With time left it takes one second
    * off and posts TICK with the new value; once the value is zero it clears
    * the interval, stops and posts COMPLETE. A negative value matches neither
    * branch: the firing changes nothing and posts nothing.
    */
  function FireStep(w: WorkerState): (r: Step)
    requires w.hasInterval
    ensures w.remainingSeconds > 0 ==>
      r.state.remainingSeconds == w.remainingSeconds - 1 && |r.posted| >= 1 && r.posted[0] == Tick(w.remainingSeconds - 1)
    ensures w.remainingSeconds == 1 ==> r.posted == [Tick(0), Complete]
    ensures w.remainingSeconds > 1 ==> r.posted == [Tick(w.remainingSeconds - 1)] && r.state.isRunning == w.isRunning
    ensures w.remainingSeconds == 0 ==> r.posted == [Complete]
    ensures w.remainingSeconds < 0 ==> r == Step(w, [])
    ensures (Complete in r.posted) == (r.state.remainingSeconds == 0)
    ensures r.state.remainingSeconds == 0 ==> r.state == Stopped
    ensures r.state.hasInterval == (r.state.remainingSeconds != 0)
    ensures Consistent(w) ==> Consistent(r.state)
  {
    var counted := w.remainingSeconds > 0;
    var left := if counted then w.remainingSeconds - 1 else w.remainingSeconds;
    var ticks := if counted then [Tick(left)] else [];
    if left == 0 then Step(Stopped, ticks + [Complete])
    else Step(w.(remainingSeconds := left), ticks)
  }

  /** Up to `k` firings, stopping early once the interval has been cleared. */
  function Run(w: WorkerState, k: nat): Step
    decreases k
  {
    if k == 0 || !w.hasInterval then Step(w, [])
    else
      var first := FireStep(w);
      var rest := Run(first.state, k - 1);
      Step(rest.state, first.posted + rest.posted)
  }

  /** TICK(n-1), TICK(n-2), ..., TICK(n-k). */
  function TicksDown(n: int, k: nat): seq<Event>
    decreases k
  {
    if k == 0 then [] else [Tick(n - 1)] + TicksDown(n - 1, k - 1)
  }

  /** The `i`-th tick of a countdown from `n` carries `n - 1 - i`: the values strictly decrease. */
  lemma {:induction false} TicksDownAt(n: int, k: nat, i: nat)
    requires i < k
    ensures |TicksDown(n, k)| == k && TicksDown(n, k)[i] == Tick(n - 1 - i)
    ensures Complete !in TicksDown(n, k)
    decreases k
  {
    if i > 0 {
      TicksDownAt(n - 1, k - 1, i - 1);
    } else if k > 1 {
      TicksDownAt(n - 1, k - 1, 0);
    }
  }

  /** Firings compose: `a + b` firings are `a` firings followed by `b` more. */
  lemma {:induction false} RunAppend(w: WorkerState, a: nat, b: nat)
    ensures Run(w, a + b) ==
      var first := Run(w, a);
      var rest := Run(first.state, b);
      Step(rest.state, first.posted + rest.posted)
    decreases a
  {
    if a > 0 && w.hasInterval {
      var first := FireStep(w);
      var mid := Run(first.state, a - 1);
      var last := Run(mid.state, b);
      RunAppend(first.state, a - 1, b);
      assert Run(first.state, a + b - 1) == Step(last.state, mid.posted + last.posted) by {
        assert a + b - 1 == (a - 1) + b;
      }
      assert Run(w, a) == Step(mid.state, first.posted + mid.posted);
      assert first.posted + (mid.posted + last.posted) == (first.posted + mid.posted) + last.posted;
    }
  }

  /**
    * While time is left, `k` firings post TICK(n-1) ... TICK(n-k); the firing
    * that reaches zero also posts COMPLETE and stops the worker.
    */
  lemma {:induction false} RunCountsDown(w: WorkerState, k: nat)
    requires w.hasInterval && w.isRunning && 0 < w.remainingSeconds && k <= w.remainingSeconds
    ensures Run(w, k).posted == TicksDown(w.remainingSeconds, k) + (if k == w.remainingSeconds then [Complete] else [])
    ensures Run(w, k).state == if k == w.remainingSeconds then Stopped else w.(remainingSeconds := w.remainingSeconds - k)
    decreases k
  {
    if k > 0 {
      var first := FireStep(w);
      if w.remainingSeconds == 1 {
        assert Run(first.state, k - 1) == Step(Stopped, []);
        assert TicksDown(1, 1) == [Tick(0)];
      } else {
        RunCountsDown(first.state, k - 1);
        assert first.state.remainingSeconds - (k - 1) == w.remainingSeconds - k;
        var tail := if k == w.remainingSeconds then [Complete] else [];
        assert [Tick(w.remainingSeconds - 1)] + (TicksDown(w.remainingSeconds - 1, k - 1) + tail)
            == TicksDown(w.remainingSeconds, k) + tail;
      }
    }
  }

  /**
    * The countdown: after START on a stopped worker with n > 0 seconds left,
    * the first n firings post exactly TICK(n-1), ..., TICK(0) and then one
    * COMPLETE, leaving the worker stopped, so any further firings are not
    * scheduled and post nothing.
    */
  lemma {:induction false} StartCountsDown(w: WorkerState, extra: nat)
    requires Consistent(w) && !w.isRunning && w.remainingSeconds > 0
    ensures StartStep(w).posted == []
    ensures Run(StartStep(w).state, w.remainingSeconds + extra) ==
      Step(Stopped, TicksDown(w.remainingSeconds, w.remainingSeconds) + [Complete])
  {
    var n := w.remainingSeconds;
    var started := StartStep(w).state;
    RunAppend(started, n, extra);
    RunCountsDown(started, n);
  }

  /** The first n - 1 firings of that countdown post ticks only: COMPLETE comes with the n-th. */
  lemma {:induction false} NoEarlyComplete(w: WorkerState, k: nat)
    requires w.hasInterval && w.isRunning && k < w.remainingSeconds
    ensures Complete !in Run(w, k).posted
    ensures Run(w, k).state.isRunning
  {
    RunCountsDown(w, k);
    if k > 0 {
      TicksDownAt(w.remainingSeconds, k, 0);
    }
  }

  /** With a negative count the interval keeps firing silently: it never ticks and never completes. */
  lemma {:induction false} NegativeCountSpins(w: WorkerState, k: nat)
    requires w.hasInterval && w.remainingSeconds < 0
    ensures Run(w, k) == Step(w, [])
    decreases k
  {
    if k > 0 {
      NegativeCountSpins(w, k - 1);
    }
  }

  /** SET_TIME(0) while running: the next firing posts COMPLETE without a further TICK. */
  lemma SetTimeZeroCompletes(w: WorkerState)
    requires Consistent(w) && w.isRunning
    ensures SetTimeStep(w, 0).posted == [Tick(0)]
    ensures FireStep(SetTimeStep(w, 0).state) == Step(Stopped, [Complete])
  {
  }

  /** PAUSE is idempotent. */
  lemma PauseIdempotent(w: WorkerState)
    ensures PauseStep(PauseStep(w).state) == PauseStep(w)
  {
  }

  /** What can happen to the worker: a message arrives, or the interval fires. */
  datatype Input = Message(command: Command) | Firing

  /** One input; a firing with no interval scheduled does not happen, so it changes nothing. */
  function Apply(w: WorkerState, i: Input): Step {
    match i
    case Message(c) => HandleCommand(w, c)
    case Firing => if w.hasInterval then FireStep(w) else Step(w, [])
  }

  /** The state after a sequence of inputs. */
  function Replay(w: WorkerState, inputs: seq<Input>): WorkerState
    decreases |inputs|
  {
    if inputs == [] then w else Replay(Apply(w, inputs[0]).state, inputs[1..])
  }

  predicate NonNegativePayload(i: Input) {
    match i
    case Message(Reset(p)) => p >= 0
    case Message(SetTime(p)) => p >= 0
    case _ => true
  }

  /**
    * The worker's invariants over any run: it is running exactly when an
    * interval is scheduled, and if every RESET and SET_TIME payload is
    * non-negative the time left never becomes negative.
    */
  lemma {:induction false} ReplayKeepsInvariants(w: WorkerState, inputs: seq<Input>)
    requires Consistent(w) && w.remainingSeconds >= 0
    requires forall k :: 0 <= k < |inputs| ==> NonNegativePayload(inputs[k])
    ensures Consistent(Replay(w, inputs)) && Replay(w, inputs).remainingSeconds >= 0
    decreases |inputs|
  {
    if inputs != [] {
      var next := Apply(w, inputs[0]).state;
      assert NonNegativePayload(inputs[0]);
      assert forall k :: 0 <= k < |inputs[1..]| ==> NonNegativePayload(inputs[1..][k]) by {
        forall k | 0 <= k < |inputs[1..]| ensures NonNegativePayload(inputs[1..][k]) {
          assert inputs[1..][k] == inputs[k + 1];
        }
      }
      ReplayKeepsInvariants(next, inputs[1..]);
    }
  }

  /** The worker script's three module-level variables, updated in place by its handlers. */
  class Worker {
    var remainingSeconds: int
    var isRunning: bool
    var hasInterval: bool

    function State(): WorkerState
      reads this
    {
      WorkerState(remainingSeconds, isRunning, hasInterval)
    }

    ghost predicate Valid()
      reads this
    {
      Consistent(State())
    }

    constructor ()
      ensures Valid() && State() == Initial()
    {
      remainingSeconds := 0;
      isRunning := false;
      hasInterval := false;
    }

    method Start() returns (posted: seq<Event>)
      requires Valid()
      modifies this
      ensures Valid() && Step(State(), posted) == StartStep(old(State()))
    {
      posted := [];
      if !isRunning && remainingSeconds > 0 {
        isRunning := true;
        hasInterval := true;
      }
    }

    method Pause() returns (posted: seq<Event>)
      requires Valid()
      modifies this
      ensures Valid() && Step(State(), posted) == PauseStep(old(State()))
    {
      posted := [];
      if hasInterval {
        hasInterval := false;
      }
      isRunning := false;
    }

    method Reset(seconds: int) returns (posted: seq<Event>)
      requires Valid()
      modifies this
      ensures Valid() && Step(State(), posted) == ResetStep(old(State()), seconds)
    {
      if hasInterval {
        hasInterval := false;
      }
      isRunning := false;
      remainingSeconds := seconds;
      posted := [Tick(remainingSeconds)];
    }

    method SetTime(seconds: int) returns (posted: seq<Event>)
      requires Valid()
      modifies this
      ensures Valid() && Step(State(), posted) == SetTimeStep(old(State()), seconds)
    {
      remainingSeconds := seconds;
      posted := [Tick(remainingSeconds)];
    }

    /** The `onmessage` handler: dispatches on the command. */
    method OnMessage(c: Command) returns (posted: seq<Event>)
      requires Valid()
      modifies this
      ensures Valid() && Step(State(), posted) == HandleCommand(old(State()), c)
    {
      match c
      case Start => posted := Start();
      case Pause => posted := Pause();
      case Reset(p) => posted := Reset(p);
      case SetTime(p) => posted := SetTime(p);
    }

    /** One firing of the interval callback; it runs only while an interval is scheduled. */
    method Fire() returns (posted: seq<Event>)
      requires Valid() && hasInterval
      modifies this
      ensures Valid() && Step(State(), posted) == FireStep(old(State()))
    {
      posted := [];
      if remainingSeconds > 0 {
        remainingSeconds := remainingSeconds - 1;
        posted := posted + [Tick(remainingSeconds)];
      }
      if remainingSeconds == 0 {
        hasInterval := false;
        isRunning := false;
        posted := posted + [Complete];
      }
    }
  }
}
