/**
 * A one-shot timer served by its own thread: callers post ARM, CANCEL and QUIT
 * messages to a queue, and the thread handles them one at a time, waiting for
 * the next message or, while armed, for the deadline, when it calls the callback.
 *
 * The thread is modelled sequentially: each step of its loop is given what the
 * wait returned (when the queue is empty) and what the monotonic clock read.
 */
module Timer {
  import opened Common

  // ---------------------------------------------------------------------------
  // C integer division and the deadline arithmetic
  // ---------------------------------------------------------------------------

  /** C's division, which truncates toward zero (Dafny's / is Euclidean). */
  function CDiv(a: int, b: int): int
    requires b > 0
  {
    if a >= 0 then a / b else -((-a) / b)
  }

  /** C's remainder, which takes the sign of the dividend. */
  function CRem(a: int, b: int): int
    requires b > 0
  {
    a - CDiv(a, b) * b
  }

  lemma CDivRem(a: int, b: int)
    requires b > 0
    ensures a == CDiv(a, b) * b + CRem(a, b)
    ensures -b < CRem(a, b) < b
    ensures a >= 0 ==> CDiv(a, b) == a / b && CRem(a, b) == a % b && 0 <= CRem(a, b)
  {
    if a < 0 {
      var q := (-a) / b;
      assert -a == q * b + (-a) % b;
      assert CRem(a, b) == -((-a) % b);
    }
  }

  const NsPerSec: int := 1_000_000_000
  const NsPerMs: int := 1_000_000
  const MsPerSec: int := 1_000

  /** A struct timespec. */
  datatype TimeSpec = TimeSpec(sec: int, nsec: int)

  function TotalNs(t: TimeSpec): int
  {
    t.sec * NsPerSec + t.nsec
  }

  /** The absolute deadline of an ARM message with the given timeout in ms, read at now. */
  function Deadline(now: TimeSpec, timeout: int): TimeSpec
  {
    var sec := now.sec + CDiv(timeout, MsPerSec);
    var nsec := now.nsec + CRem(timeout, MsPerSec) * NsPerMs;
    TimeSpec(sec + CDiv(nsec, NsPerSec), CRem(nsec, NsPerSec))
  }

  /** The deadline lies timeout ms after now, and for a non-negative timeout and a normalised
      now the deadline is normalised too. */
  lemma DeadlineIsTimeoutLater(now: TimeSpec, timeout: int)
    ensures TotalNs(Deadline(now, timeout)) == TotalNs(now) + timeout * NsPerMs
    ensures timeout >= 0 && 0 <= now.nsec < NsPerSec ==> 0 <= Deadline(now, timeout).nsec < NsPerSec
  {
    var q, r := CDiv(timeout, MsPerSec), CRem(timeout, MsPerSec);
    CDivRem(timeout, MsPerSec);
    var nsec := now.nsec + r * NsPerMs;
    CDivRem(nsec, NsPerSec);
    var d := Deadline(now, timeout);
    assert d == TimeSpec(now.sec + q + CDiv(nsec, NsPerSec), CRem(nsec, NsPerSec));
    calc {
      TotalNs(d);
      (now.sec + q + CDiv(nsec, NsPerSec)) * NsPerSec + CRem(nsec, NsPerSec);
      now.sec * NsPerSec + q * NsPerSec + (CDiv(nsec, NsPerSec) * NsPerSec + CRem(nsec, NsPerSec));
      now.sec * NsPerSec + q * NsPerSec + now.nsec + r * NsPerMs;
      now.sec * NsPerSec + now.nsec + (q * MsPerSec + r) * NsPerMs;
    }
    if timeout >= 0 && 0 <= now.nsec < NsPerSec {
      assert 0 <= r < MsPerSec;
      assert 0 <= nsec;
    }
  }

  // ---------------------------------------------------------------------------
  // Messages and the queue
  // ---------------------------------------------------------------------------

  /** A TimerMessage; UnknownMsg is a message of any other type. */
  datatype TimerMessage = ArmMsg(timeout: int) | CancelMsg | QuitMsg | UnknownMsg(code: int)

  /** postTimerMessage: an urgent message goes to the front of the queue, so that it is the
      next one handled; any other goes to the back. */
  function Post(queue: seq<TimerMessage>, m: TimerMessage, urgent: bool): (q: seq<TimerMessage>)
    ensures |q| == |queue| + 1
    ensures urgent ==> q[0] == m && q[1..] == queue
    ensures !urgent ==> q[|queue|] == m && q[..|queue|] == queue
    ensures multiset(q) == multiset(queue) + multiset{m}
  {
    if urgent then [m] + queue else queue + [m]
  }

  // ---------------------------------------------------------------------------
  // The timer thread, one iteration of its loop at a time
  // ---------------------------------------------------------------------------

  /** What the condition-variable wait returned while the queue was empty: woken up
      (possibly spuriously), interrupted (EINTR), timed out (ETIMEDOUT), or another error. */
  datatype Wake = Signalled | Interrupted | TimedOut | WaitFailed

  /** Running, or returned from the thread function with true (after QUIT) or false (error). */
  datatype Status = Running | Exited(ok: bool)

  /** The queue, the thread's local flags and deadline, and whether the thread still runs. */
  datatype TimerState = TimerState(queue: seq<TimerMessage>, armed: bool, quit: bool,
                                   triggerTime: TimeSpec, status: Status)

  /** The thread when it starts. The deadline is not set until the first ARM. */
  const Started: TimerState := TimerState([], false, false, TimeSpec(0, 0), Running)

  /** Handling one message taken off the queue; clock is what clock_gettime read, None when it failed. */
  function Handle(s: TimerState, m: TimerMessage, clock: Option<TimeSpec>): (r: TimerState)
    ensures r.queue == s.queue && r.status == s.status
    ensures m.ArmMsg? ==> r.quit == s.quit && r.armed == (s.armed || clock.Some?)
                          && r.triggerTime == (if clock.Some? then Deadline(clock.value, m.timeout) else s.triggerTime)
    ensures m == CancelMsg ==> r == s.(armed := false)
    ensures m == QuitMsg ==> r == s.(quit := true)
    ensures m.UnknownMsg? ==> r == s
  {
    match m
    case ArmMsg(timeout) =>
      if clock.Some? then s.(triggerTime := Deadline(clock.value, timeout), armed := true) else s
    case CancelMsg => s.(armed := false)
    case QuitMsg => s.(quit := true)
    case UnknownMsg(_) => s
  }

  /** One iteration of the thread's loop. With a message queued the thread takes the front
      one without waiting; otherwise the wait's outcome decides. The callback runs (fired)
      only on a timeout while armed and when there is a callback, and a timeout always
      disarms. The loop ends after a QUIT, or on a wait error. A stopped thread does nothing. */
  function Next(s: TimerState, hasCallback: bool, wake: Wake, clock: Option<TimeSpec>): (r: (TimerState, bool))
  {
    if s.status != Running then (s, false)
    else if s.queue != [] then
      var h := Handle(s.(queue := s.queue[1..]), s.queue[0], clock);
      (if h.quit then h.(status := Exited(true)) else h, false)
    else
      match wake
      case Signalled => (s, false)
      case Interrupted =>
        // only the timed wait retries after EINTR
        if s.armed then (s, false) else (s.(status := Exited(false)), false)
      case TimedOut => (s.(armed := false), s.armed && hasCallback)
      case WaitFailed => (s.(status := Exited(false)), false)
  }

  /** A running thread with a message queued removes exactly the front message, and ends its
      loop exactly when that message is QUIT (and QUIT was not seen before). */
  lemma NextConsumesFront(s: TimerState, hasCallback: bool, wake: Wake, clock: Option<TimeSpec>)
    requires s.status == Running && s.queue != [] && !s.quit
    ensures var (r, fired) := Next(s, hasCallback, wake, clock);
            && r.queue == s.queue[1..] && !fired
            && (r.status != Running <==> s.queue[0] == QuitMsg)
            && (r.status != Running ==> r.status == Exited(true))
  {
  }

  /** The callback runs only when the timer is armed and the queue is empty, and the timer is
      disarmed whenever it has run. */
  lemma FiringDisarms(s: TimerState, hasCallback: bool, wake: Wake, clock: Option<TimeSpec>)
    ensures var (r, fired) := Next(s, hasCallback, wake, clock);
            fired ==> s.armed && s.queue == [] && wake == TimedOut && !r.armed && r.status == Running
  {
  }

  /** The destructor posts QUIT urgently: the next iteration handles it ahead of every pending
      message, whatever the wait and the clock, and the thread returns true. */
  lemma UrgentQuitIsNext(s: TimerState, hasCallback: bool, wake: Wake, clock: Option<TimeSpec>)
    requires s.status == Running
    ensures var (r, fired) := Next(s.(queue := Post(s.queue, QuitMsg, true)), hasCallback, wake, clock);
            && r.status == Exited(true) && r.queue == s.queue && r.armed == s.armed && !fired
  {
  }

  /** One step's input: the wait's outcome and the clock reading. */
  datatype Input = Input(wake: Wake, clock: Option<TimeSpec>)

  /** Iterations of the loop over the inputs in order, with the number of callback runs
      and of ARM messages that armed the timer. */
  datatype RunResult = RunResult(state: TimerState, fires: nat, arms: nat)

  function ArmsTimer(s: TimerState, clock: Option<TimeSpec>): bool
  {
    s.status == Running && s.queue != [] && s.queue[0].ArmMsg? && clock.Some?
  }

  function Run(s: TimerState, hasCallback: bool, inputs: seq<Input>): RunResult
    decreases |inputs|
  {
    if inputs == [] then RunResult(s, 0, 0)
    else
      var (s', fired) := Next(s, hasCallback, inputs[0].wake, inputs[0].clock);
      var rest := Run(s', hasCallback, inputs[1..]);
      RunResult(rest.state, rest.fires + (if fired then 1 else 0),
                rest.arms + (if ArmsTimer(s, inputs[0].clock) then 1 else 0))
  }

  /** The callback runs at most once per ARM: over any run, the callback runs plus "still armed
      at the end" never exceed the ARMs that armed the timer plus "armed at the start". */
  lemma {:induction false} AtMostOneFirePerArm(s: TimerState, hasCallback: bool, inputs: seq<Input>)
    ensures var r := Run(s, hasCallback, inputs);
            r.fires + (if r.state.armed then 1 else 0) <= r.arms + (if s.armed then 1 else 0)
    decreases |inputs|
  {
    if inputs != [] {
      var (s', fired) := Next(s, hasCallback, inputs[0].wake, inputs[0].clock);
      AtMostOneFirePerArm(s', hasCallback, inputs[1..]);
      assert s'.armed ==> s.armed || ArmsTimer(s, inputs[0].clock);
      assert fired ==> s.armed && !s'.armed;
    }
  }

  /** A stopped thread stays stopped and no longer changes anything. */
  lemma {:induction false} StoppedStaysStopped(s: TimerState, hasCallback: bool, inputs: seq<Input>)
    requires s.status != Running
    ensures Run(s, hasCallback, inputs) == RunResult(s, 0, 0)
    decreases |inputs|
  {
    if inputs != [] {
      StoppedStaysStopped(s, hasCallback, inputs[1..]);
    }
  }

  /** No ARM message is queued at index k or behind it. */
  predicate NoArmFrom(queue: seq<TimerMessage>, k: nat)
  {
    forall j :: k <= j < |queue| ==> !queue[j].ArmMsg?
  }

  /** The timer is cancelled for good: a CANCEL is queued with no ARM behind it, or the timer
      is disarmed with no ARM queued at all. */
  predicate Cancelled(s: TimerState)
  {
    || (!s.armed && NoArmFrom(s.queue, 0))
    || (exists k: nat :: k < |s.queue| && s.queue[k] == CancelMsg && NoArmFrom(s.queue, k + 1))
  }

  /** A cancelled timer does not fire in the next iteration, and stays cancelled. */
  lemma CancelledStep(s: TimerState, hasCallback: bool, wake: Wake, clock: Option<TimeSpec>)
    requires Cancelled(s)
    ensures var (r, fired) := Next(s, hasCallback, wake, clock);
            !fired && Cancelled(r)
  {
    if s.status == Running && s.queue != [] {
      var r := Next(s, hasCallback, wake, clock).0;
      assert r.queue == s.queue[1..];
      if !s.armed && NoArmFrom(s.queue, 0) {
        assert !s.queue[0].ArmMsg?;
        assert NoArmFrom(r.queue, 0) by {
          forall j | 0 <= j < |r.queue| ensures !r.queue[j].ArmMsg? {
            assert r.queue[j] == s.queue[j + 1];
          }
        }
      } else {
        var k: nat :| k < |s.queue| && s.queue[k] == CancelMsg && NoArmFrom(s.queue, k + 1);
        if k == 0 {
          assert !r.armed;
          assert NoArmFrom(r.queue, 0) by {
            forall j | 0 <= j < |r.queue| ensures !r.queue[j].ArmMsg? {
              assert r.queue[j] == s.queue[j + 1];
            }
          }
        } else {
          assert r.queue[k - 1] == CancelMsg;
          assert NoArmFrom(r.queue, k) by {
            forall j | k <= j < |r.queue| ensures !r.queue[j].ArmMsg? {
              assert r.queue[j] == s.queue[j + 1];
            }
          }
        }
      }
    }
  }

  /** Once cancelled, whatever the waits and the clock do, the callback is never called again. */
  lemma {:induction false} CancelledNeverFires(s: TimerState, hasCallback: bool, inputs: seq<Input>)
    requires Cancelled(s)
    ensures Run(s, hasCallback, inputs).fires == 0 && Cancelled(Run(s, hasCallback, inputs).state)
    decreases |inputs|
  {
    if inputs != [] {
      CancelledStep(s, hasCallback, inputs[0].wake, inputs[0].clock);
      var (s', _) := Next(s, hasCallback, inputs[0].wake, inputs[0].clock);
      CancelledNeverFires(s', hasCallback, inputs[1..]);
    }
  }

  /** cancel(): once a CANCEL is posted, and no ARM after it, the thread never calls the
      callback again, whatever was queued before it, whether the timer was armed, and whatever
      the waits and the clock do. */
  lemma NoFireAfterCancel(s: TimerState, hasCallback: bool, inputs: seq<Input>)
    ensures Run(s.(queue := Post(s.queue, CancelMsg, false)), hasCallback, inputs).fires == 0
  {
    var c := s.(queue := Post(s.queue, CancelMsg, false));
    assert c.queue[|s.queue|] == CancelMsg && NoArmFrom(c.queue, |s.queue| + 1);
    CancelledNeverFires(c, hasCallback, inputs);
  }

  // ---------------------------------------------------------------------------
  // The timer object
  // ---------------------------------------------------------------------------

  class Timer {
    /** whether a callback function was given to the constructor */
    const hasCallback: bool
    var msgQueue: seq<TimerMessage>
    // the timer thread's locals
    var armed: bool
    var quit: bool
    var triggerTime: TimeSpec
    var status: Status

    function State(): TimerState
      reads this
    {
      TimerState(msgQueue, armed, quit, triggerTime, status)
    }

    /** The constructor, once its thread has started. */
    constructor (hasCallback: bool)
      ensures this.hasCallback == hasCallback && State() == Started
    {
      this.hasCallback := hasCallback;
      msgQueue := [];
      armed := false;
      quit := false;
      triggerTime := TimeSpec(0, 0);
      status := Running;
    }

    method PostTimerMessage(message: TimerMessage, urgent: bool)
      modifies this`msgQueue
      ensures msgQueue == Post(old(msgQueue), message, urgent)
    {
      if urgent {
        msgQueue := [message] + msgQueue;
      } else {
        msgQueue := msgQueue + [message];
      }
    }

    method Arm(timeout: int)
      modifies this`msgQueue
      ensures msgQueue == old(msgQueue) + [ArmMsg(timeout)]
    {
      PostTimerMessage(ArmMsg(timeout), false);
    }

    /** Cancels the timer: the callback is not called after this (NoFireAfterCancel). */
    method Cancel()
      modifies this`msgQueue
      ensures msgQueue == old(msgQueue) + [CancelMsg]
      ensures Cancelled(State())
    {
      PostTimerMessage(CancelMsg, false);
    }

    /** The destructor's first action; joining the thread is not modelled. */
    method PostQuit()
      modifies this`msgQueue
      ensures msgQueue == [QuitMsg] + old(msgQueue)
    {
      PostTimerMessage(QuitMsg, true);
    }

    /** One iteration of timerThread's loop. */
    method Step(wake: Wake, clock: Option<TimeSpec>) returns (fired: bool)
      modifies this
      ensures (State(), fired) == Next(old(State()), hasCallback, wake, clock)
    {
      fired := false;
      if status != Running {
        return;
      }
      if msgQueue != [] {
        var message := msgQueue[0];
        msgQueue := msgQueue[1..];
        match message {
          case ArmMsg(timeout) =>
            if clock.Some? {
              var now := clock.value;
              var sec := now.sec + CDiv(timeout, MsPerSec);
              var nsec := now.nsec + CRem(timeout, MsPerSec) * NsPerMs;
              sec := sec + CDiv(nsec, NsPerSec);
              nsec := CRem(nsec, NsPerSec);
              triggerTime := TimeSpec(sec, nsec);
              armed := true;
            }
          case CancelMsg =>
            armed := false;
          case QuitMsg =>
            quit := true;
          case UnknownMsg(_) =>
        }
        if quit {
          status := Exited(true);
        }
      } else {
        match wake {
          case Signalled =>
          case Interrupted =>
            if !armed {
              status := Exited(false);
            }
          case TimedOut =>
            fired := armed && hasCallback;
            armed := false;
          case WaitFailed =>
            status := Exited(false);
        }
      }
    }

    /** timerThread's do-while loop over the given inputs, until it returns or the inputs run out. */
    method TimerThread(inputs: seq<Input>) returns (fires: nat)
      modifies this
      ensures Run(old(State()), hasCallback, inputs).state == State()
      ensures Run(old(State()), hasCallback, inputs).fires == fires
    {
      fires := 0;
      var i := 0;
      while i < |inputs| && status == Running
        invariant 0 <= i <= |inputs|
        invariant Run(old(State()), hasCallback, inputs).state == Run(State(), hasCallback, inputs[i..]).state
        invariant Run(old(State()), hasCallback, inputs).fires == fires + Run(State(), hasCallback, inputs[i..]).fires
      {
        var fired := Step(inputs[i].wake, inputs[i].clock);
        if fired {
          fires := fires + 1;
        }
        assert inputs[i..][1..] == inputs[i + 1..];
        i := i + 1;
      }
      if i < |inputs| {
        StoppedStaysStopped(State(), hasCallback, inputs[i..]);
      }
    }
  }
}
