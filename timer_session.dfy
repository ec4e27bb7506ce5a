/**
  * The timer hook (src/hooks/useTimer.ts) and the worker
  * (public/timer-worker.js) run together. Messages travel through two FIFO
  * queues, one per direction, and are delivered one at a time; an interval
  * firing is a step of its own. Every step is explicit, so the orders in
  * which the two sides interleave are the orders of the steps.
  */
module TimerSession {
  import opened Options
  import opened PomodoroTypes
  import opened TickSource
  import opened TimerHook

  /**
    * Both sides and the messages in flight: `toWorker` holds the commands the
    * hook posted and the worker has not handled yet, `toHook` the events the
    * worker posted and the hook has not handled yet, and `completed` lists
    * the modes `onComplete` was called with, in order.
    */
  datatype Session = Session(
    hook: HookState,
    worker: WorkerState,
    toWorker: seq<Command>,
    toHook: seq<Event>,
    completed: seq<TimerMode>)

  /** The hook mounts, creates the worker and posts SET_TIME with the work duration. */
  function Boot(ts: TimerSettings): (s: Session)
    ensures s.toWorker == [SetTime(ts.workDuration)] && s.toHook == [] && s.completed == []
  {
    Session(InitialState(ts), Initial(), [MountCommand(ts)], [], [])
  }

  /** A button is pressed: the hook's command runs and its message joins the worker's queue. */
  function Press(s: Session, ts: TimerSettings, a: UserAction): (r: Session)
    ensures r.worker == s.worker && r.toHook == s.toHook && r.completed == s.completed
    ensures |r.toWorker| == |s.toWorker| + 1 && r.toWorker[..|s.toWorker|] == s.toWorker
  {
    var p := OnUserAction(s.hook, ts, a);
    s.(hook := p.state, toWorker := s.toWorker + [p.command])
  }

  /** The worker handles the oldest command; the events it posts join the hook's queue. */
  function DeliverCommand(s: Session): (r: Session)
    requires s.toWorker != []
    ensures r.hook == s.hook && r.toWorker == s.toWorker[1..] && r.completed == s.completed
  {
    var step := HandleCommand(s.worker, s.toWorker[0]);
    s.(worker := step.state, toWorker := s.toWorker[1..], toHook := s.toHook + step.posted)
  }

  /** Up to `k` firings of the worker's interval; what they post joins the hook's queue. */
  function FireTimes(s: Session, k: nat): (r: Session)
    ensures r.hook == s.hook && r.toWorker == s.toWorker && r.completed == s.completed
  {
    var run := Run(s.worker, k);
    s.(worker := run.state, toHook := s.toHook + run.posted)
  }

  /** The hook handles the oldest event. */
  function DeliverEvent(s: Session): (r: Session)
    requires s.toHook != []
    ensures r.worker == s.worker && r.toWorker == s.toWorker && r.toHook == s.toHook[1..]
  {
    var handled := OnWorkerMessage(s.hook, s.toHook[0]);
    var reported := match handled.completed case Some(m) => [m] case None => [];
    s.(hook := handled.state, toHook := s.toHook[1..], completed := s.completed + reported)
  }

  /** The hook handles every event in its queue, oldest first. */
  function DrainEvents(s: Session): (r: Session)
    ensures r.toHook == [] && r.worker == s.worker && r.toWorker == s.toWorker
    decreases |s.toHook|
  {
    if s.toHook == [] then s else DrainEvents(DeliverEvent(s))
  }

  /** Nothing in flight, the two sides agree on the time left and on running, and each keeps its invariant. */
  predicate Settled(s: Session) {
    && s.toWorker == [] && s.toHook == []
    && s.hook.remainingSeconds == s.worker.remainingSeconds
    && s.hook.isRunning == s.worker.isRunning
    && Consistent(s.worker) && RefInSync(s.hook)
  }

  /** A step that happens without a button press. */
  datatype InternalStep = WorkerReceives | IntervalFires | HookReceives

  predicate Enabled(s: Session, i: InternalStep) {
    match i
    case WorkerReceives => s.toWorker != []
    case IntervalFires => s.worker.hasInterval
    case HookReceives => s.toHook != []
  }

  /** Internal steps in order; a step that is not enabled does not happen. */
  function Internal(s: Session, steps: seq<InternalStep>): Session
    decreases |steps|
  {
    if steps == [] then s
    else
      var next :=
        if !Enabled(s, steps[0]) then s
        else match steps[0]
          case WorkerReceives => DeliverCommand(s)
          case IntervalFires => FireTimes(s, 1)
          case HookReceives => DeliverEvent(s);
      Internal(next, steps[1..])
  }

  /** No message in flight and no interval scheduled: only a button press can change anything. */
  predicate Stalled(s: Session) {
    s.toWorker == [] && s.toHook == [] && !s.worker.hasInterval
  }

  lemma {:induction false} StalledStaysPut(s: Session, steps: seq<InternalStep>)
    requires Stalled(s)
    ensures Internal(s, steps) == s
    decreases |steps|
  {
    if steps != [] {
      assert !Enabled(s, steps[0]);
      StalledStaysPut(s, steps[1..]);
    }
  }

  /**
    * Start-up: once SET_TIME and its TICK echo have been handled, the two
    * sides agree on the work duration, nothing runs and nothing is reported.
    */
  lemma BootSettles(ts: TimerSettings)
    ensures var s := DeliverEvent(DeliverCommand(Boot(ts)));
      Settled(s) && s.hook == InitialState(ts) && s.worker.remainingSeconds == ts.workDuration
      && s.completed == []
  {
  }

  /**
    * `changeMode(m)` from a settled session: once the RESET and its TICK echo
    * have been handled the session is settled again, in mode `m`, stopped,
    * with `m`'s configured duration on both sides and nothing reported.
    */
  lemma ChangeModeSettles(s: Session, ts: TimerSettings, m: TimerMode)
    requires Settled(s)
    ensures var r := DeliverEvent(DeliverCommand(Press(s, ts, ChooseMode(m))));
      Settled(r) && r.hook.mode == m && !r.hook.isRunning
      && r.hook.remainingSeconds == ModeDuration(ts, m) && r.completed == s.completed
  {
  }

  /** `reset` from a settled session: the same, in the current mode. */
  lemma ResetSettles(s: Session, ts: TimerSettings)
    requires Settled(s)
    ensures var r := DeliverEvent(DeliverCommand(Press(s, ts, PressReset)));
      Settled(r) && r.hook.mode == s.hook.mode && !r.hook.isRunning
      && r.hook.remainingSeconds == ModeDuration(ts, s.hook.mode) && r.completed == s.completed
  {
  }

  /**
    * `start` after a completion: with no time left the worker ignores START,
    * yet the hook says it is running. Nothing is in flight and no interval is
    * scheduled, so no COMPLETE ever comes until the next button press.
    */
  lemma {:induction false} StartAtZeroStalls(s: Session, ts: TimerSettings, steps: seq<InternalStep>)
    requires Settled(s) && s.hook.remainingSeconds == 0 && !s.hook.isRunning
    ensures var r := DeliverCommand(Press(s, ts, PressStart));
      Stalled(r) && r.hook.isRunning && !r.worker.isRunning
      && Internal(r, steps) == r && r.completed == s.completed
  {
    StalledStaysPut(DeliverCommand(Press(s, ts, PressStart)), steps);
  }

  /**
    * A mode change that overtakes a queued COMPLETE: `onComplete` reports the
    * new mode, because the handler reads `modeRef` when it handles the event.
    */
  lemma CompleteReportsCurrentMode(s: Session, ts: TimerSettings, m: TimerMode)
    requires s.toHook != [] && s.toHook[0] == Complete
    ensures DeliverEvent(Press(s, ts, ChooseMode(m))).completed == s.completed + [m]
  {
  }

  /**
    * Handling a countdown's events: the ticks carry the time left down to
    * `n - k` and the final COMPLETE stops the hook and reports its mode once.
    */
  lemma {:induction false} DrainCountdown(s: Session, n: int, k: nat)
    requires s.toHook == TicksDown(n, k) + [Complete]
    ensures var r := DrainEvents(s);
      r.hook == s.hook.(remainingSeconds := if k == 0 then s.hook.remainingSeconds else n - k, isRunning := false)
      && r.completed == s.completed + [s.hook.modeRef]
    decreases k
  {
    var next := DeliverEvent(s);
    if k == 0 {
      assert next.toHook == [];
    } else {
      assert next.toHook == TicksDown(n - 1, k - 1) + [Complete];
      DrainCountdown(next, n - 1, k - 1);
    }
  }

  /**
    * A whole countdown: from a settled, stopped session with n > 0 seconds
    * left, `start`, the worker's handling of START, n firings and the hook's
    * handling of everything they posted leave both sides stopped at zero,
    * with `onComplete` called exactly once, with the session's mode.
    */
  lemma {:induction false} CountdownCompletesOnce(s: Session, ts: TimerSettings)
    requires Settled(s) && !s.hook.isRunning && s.hook.remainingSeconds > 0
    ensures var n := s.hook.remainingSeconds;
      var r := DrainEvents(FireTimes(DeliverCommand(Press(s, ts, PressStart)), n));
      Settled(r) && r.worker == Stopped && r.hook == s.hook.(remainingSeconds := 0)
      && r.completed == s.completed + [s.hook.mode]
  {
    var n := s.hook.remainingSeconds;
    var started := DeliverCommand(Press(s, ts, PressStart));
    assert started.toHook == [] && started.worker == StartStep(s.worker).state;
    StartCountsDown(s.worker, 0);
    assert n + 0 == n;
    var fired := FireTimes(started, n);
    assert fired.toHook == TicksDown(n, n) + [Complete];
    DrainCountdown(fired, n, n);
  }
}
