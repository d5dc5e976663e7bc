/**
 * The handler that forwards the client library's log lines to GStreamer's
 * debug log, and the sink reference count that decides when that handler is
 * registered with, and cancelled from, the client log control.
 */
module LogToGst {
  import opened Common

  // ---------------------------------------------------------------------------
  // Log levels and GStreamer categories
  // ---------------------------------------------------------------------------

  /** The client library's log levels, in the order the handler lists them.
      Unrecognised stands for any other value of the enumeration's type. */
  datatype Level = Fatal | Error | Warning | Milestone | Info | Debug | External | Unrecognised(value: int)

  /** The GStreamer logging macro a log line is reported with. */
  datatype Category = CatError | CatWarning | CatInfo | CatDebug | CatLog

  /** The GstDebugLevel number of each macro (ERROR = 1, WARNING = 2, INFO = 4, DEBUG = 5, LOG = 6):
      a line is shown when this number is at most the GST_DEBUG threshold. */
  function GstLevel(c: Category): nat
  {
    match c
    case CatError => 1
    case CatWarning => 2
    case CatInfo => 4
    case CatDebug => 5
    case CatLog => 6
  }

  /** Position of a level in the enumeration, most severe first; values outside it come last. */
  function Severity(l: Level): nat
  {
    match l
    case Fatal => 0
    case Error => 1
    case Warning => 2
    case Milestone => 3
    case Info => 4
    case Debug => 5
    case External => 6
    case Unrecognised(_) => 7
  }

  /** The macro chosen for a level (the switch of LogToGstHandler::log). */
  function CategoryOf(level: Level): (c: Category)
    ensures c == CatError <==> (level == Fatal || level == Error)
    ensures c == CatWarning <==> level == Warning
    ensures c == CatInfo <==> (level == Milestone || level == Info)
    ensures c == CatDebug <==> level == Debug
    ensures c == CatLog <==> (level == External || level.Unrecognised?)
  {
    match level
    case Fatal => CatError
    case Error => CatError
    case Warning => CatWarning
    case Milestone => CatInfo
    case Info => CatInfo
    case Debug => CatDebug
    case External => CatLog
    case Unrecognised(_) => CatLog
  }

  /** A less severe level is never reported at a more severe GStreamer level. */
  lemma CategoryRespectsSeverity(a: Level, b: Level)
    requires Severity(a) <= Severity(b)
    ensures GstLevel(CategoryOf(a)) <= GstLevel(CategoryOf(b))
  {
  }

  // ---------------------------------------------------------------------------
  // LogToGstHandler::log
  // ---------------------------------------------------------------------------

  /** What one call of log hands to GStreamer: the macro and the text. */
  datatype Report = Report(category: Category, text: string)

  /** The line is reported with the macro of its level, and its text is "M:<file> F:<function> L:",
      then the line in decimal, then " > <message>": the text begins with the file and function
      part, ends with the message part, and what lies between is a decimal numeral whose value
      is the line. */
  function Log(level: Level, file: string, line: int, func: string, message: string): (r: Report)
    ensures r.category == CategoryOf(level)
    ensures var head := "M:" + file + " F:" + func + " L:";
            var tail := " > " + message;
            && |r.text| >= |head| + 1 + |tail|
            && r.text[..|head|] == head
            && r.text[|r.text| - |tail|..] == tail
            && IsDecimal(r.text[|head|..|r.text| - |tail|])
            && ParseDecimal(r.text[|head|..|r.text| - |tail|]) == line
  {
    var head := "M:" + file + " F:" + func + " L:";
    var tail := " > " + message;
    var d := DecimalString(line);
    var t := head + d + tail;
    assert t[..|head|] == head;
    assert t[|t| - |tail|..] == tail;
    assert t[|head|..|t| - |tail|] == d;
    DecimalRoundTrip(line);
    Report(CategoryOf(level), t)
  }

  // ---------------------------------------------------------------------------
  // The sink reference count
  // ---------------------------------------------------------------------------

  /** A call made to the client log control's registerLogHandler: with the handler
      (Register) or with a null handler (Unregister), and whether it reported success. */
  datatype Call = Register(succeeded: bool) | Unregister(succeeded: bool)

  /** The reference count after an operation, and the call it made, if any. */
  datatype Step = Step(count: int, call: Option<Call>)

  /** The regimes in which the handler is in use: pre-registered (-1) or used by sinks (1 and more).
      -2 means "never pre-registered" and 0 "the last sink has been finalized". */
  predicate InUse(count: int)
  {
    count == -1 || count >= 1
  }

  /** Whether the handler is registered with the client log control after a call:
      a successful registration registers it, a successful cancellation removes it,
      a failed call changes nothing. */
  function ControlAfter(registered: bool, call: Option<Call>): bool
  {
    match call
    case None => registered
    case Some(Register(ok)) => registered || ok
    case Some(Unregister(ok)) => registered && !ok
  }

  /** The invariant documented beside the count: it never drops below -2, and the handler is
      registered with the client log control exactly in the regimes marked "in use". */
  predicate Consistent(count: int, registered: bool)
  {
    count >= -2 && (registered <==> InUse(count))
  }

  function CallList(call: Option<Call>): seq<Call>
  {
    match call
    case None => []
    case Some(c) => [c]
  }

  /** logToGstPreRegister: acts only before the first pre-registration. */
  function PreRegister(count: int, registerOk: bool): (s: Step)
    ensures s.call.Some? <==> count == -2
    ensures s.call.Some? ==> s.call.value == Register(registerOk)
    ensures s.count == if count == -2 && registerOk then -1 else count
  {
    if count == -2 then
      if registerOk then Step(-1, Some(Register(true))) else Step(count, Some(Register(false)))
    else
      Step(count, None)
  }

  /** logToGstSinkInit: counts one more sink, registering the handler when it is not in use. */
  function SinkInit(count: int, registerOk: bool): (s: Step)
    ensures s.call.Some? <==> (count == 0 || count <= -2)
    ensures s.call.Some? ==> s.call.value == Register(registerOk) && s.count == (if registerOk then 1 else 0)
    ensures count > 0 ==> s.count == count + 1
    ensures count == -1 ==> s.count == 1
  {
    if count > 0 then
      Step(count + 1, None)
    else if count == 0 || count <= -2 then
      // an init before any pre-registration first resets the count to 0
      var reset := 0;
      if registerOk then Step(reset + 1, Some(Register(true))) else Step(reset, Some(Register(false)))
    else
      Step(1, None)
  }

  /** logToGstSinkFinalize: counts one sink less, cancelling the handler when the last one goes. */
  function SinkFinalize(count: int, unregisterOk: bool): (s: Step)
    ensures count <= 0 ==> s == Step(count, None)
    ensures s.call.Some? <==> count == 1
    ensures count > 1 ==> s.count == count - 1
    ensures count == 1 ==> s.call.value == Unregister(unregisterOk) && s.count == (if unregisterOk then 0 else -1)
  {
    if count > 0 then
      var dec := count - 1;
      if dec == 0 then
        if unregisterOk then Step(dec, Some(Unregister(true))) else Step(-1, Some(Unregister(false)))
      else
        Step(dec, None)
    else
      Step(count, None)
  }

  /** One of the three static operations, with the outcome its registration call would have. */
  datatype Op = PreRegisterOp(ok: bool) | SinkInitOp(ok: bool) | SinkFinalizeOp(ok: bool)

  function Apply(count: int, op: Op): Step
  {
    match op
    case PreRegisterOp(ok) => PreRegister(count, ok)
    case SinkInitOp(ok) => SinkInit(count, ok)
    case SinkFinalizeOp(ok) => SinkFinalize(count, ok)
  }

  /** The count, the control's registration state and the calls made so far. */
  datatype Trace = Trace(count: int, registered: bool, calls: seq<Call>)

  /** The state when the library is loaded. */
  const Initial: Trace := Trace(-2, false, [])

  function After(t: Trace, op: Op): Trace
  {
    var s := Apply(t.count, op);
    Trace(s.count, ControlAfter(t.registered, s.call), t.calls + CallList(s.call))
  }

  /** The state after the operations, performed in order. */
  function Run(t: Trace, ops: seq<Op>): Trace
    decreases |ops|
  {
    if ops == [] then t else Run(After(t, ops[0]), ops[1..])
  }

  /** Every operation keeps the invariant. */
  lemma StepPreservesConsistency(t: Trace, op: Op)
    requires Consistent(t.count, t.registered)
    ensures Consistent(After(t, op).count, After(t, op).registered)
  {
  }

  /** Any sequence of operations keeps the invariant, and only appends to the calls. */
  lemma {:induction false} RunPreservesConsistency(t: Trace, ops: seq<Op>)
    requires Consistent(t.count, t.registered)
    ensures Consistent(Run(t, ops).count, Run(t, ops).registered)
    ensures |Run(t, ops).calls| >= |t.calls| && Run(t, ops).calls[..|t.calls|] == t.calls
    decreases |ops|
  {
    if ops != [] {
      StepPreservesConsistency(t, ops[0]);
      var t' := After(t, ops[0]);
      RunPreservesConsistency(t', ops[1..]);
      assert t'.calls[..|t.calls|] == t.calls;
    }
  }

  lemma {:induction false} RunConcat(t: Trace, a: seq<Op>, b: seq<Op>)
    ensures Run(t, a + b) == Run(Run(t, a), b)
    decreases |a|
  {
    if a != [] {
      assert a + b != [];
      assert (a + b)[0] == a[0];
      assert (a + b)[1..] == a[1..] + b;
      RunConcat(After(t, a[0]), a[1..], b);
    } else {
      assert a + b == b;
    }
  }

  lemma RunCons(t: Trace, op: Op, rest: seq<Op>)
    ensures Run(t, [op] + rest) == Run(After(t, op), rest)
  {
    assert ([op] + rest)[1..] == rest;
  }

  /** While some sink is in use, further inits only count up and make no call. */
  lemma {:induction false} InitsWhileInUse(t: Trace, oks: seq<bool>)
    requires t.count > 0
    ensures Run(t, seq(|oks|, i requires 0 <= i < |oks| => SinkInitOp(oks[i])))
            == Trace(t.count + |oks|, t.registered, t.calls)
    decreases |oks|
  {
    var ops := seq(|oks|, i requires 0 <= i < |oks| => SinkInitOp(oks[i]));
    if oks != [] {
      var rest := seq(|oks[1..]|, i requires 0 <= i < |oks[1..]| => SinkInitOp(oks[1..][i]));
      assert ops[1..] == rest;
      InitsWhileInUse(After(t, ops[0]), oks[1..]);
    }
  }

  /** Finalizing fewer sinks than are in use only counts down and makes no call. */
  lemma {:induction false} FinalizesWhileInUse(t: Trace, oks: seq<bool>)
    requires t.count > |oks|
    ensures Run(t, seq(|oks|, i requires 0 <= i < |oks| => SinkFinalizeOp(oks[i])))
            == Trace(t.count - |oks|, t.registered, t.calls)
    decreases |oks|
  {
    var ops := seq(|oks|, i requires 0 <= i < |oks| => SinkFinalizeOp(oks[i]));
    if oks != [] {
      var rest := seq(|oks[1..]|, i requires 0 <= i < |oks[1..]| => SinkFinalizeOp(oks[1..][i]));
      assert ops[1..] == rest;
      FinalizesWhileInUse(After(t, ops[0]), oks[1..]);
    }
  }

  /** n sinks initialised and then finalized, from a state where the handler is not in use
      (-2 or 0): the handler is registered once by the first init and cancelled once by the
      last finalize, and no other call is made, whatever the other calls' outcomes would be. */
  lemma SinksComeAndGo(t: Trace, more: seq<bool>, fewer: seq<bool>)
    requires (t.count == -2 || t.count == 0) && !t.registered
    requires |fewer| == |more|
    ensures var ops := [SinkInitOp(true)]
              + seq(|more|, i requires 0 <= i < |more| => SinkInitOp(more[i]))
              + seq(|fewer|, i requires 0 <= i < |fewer| => SinkFinalizeOp(fewer[i]))
              + [SinkFinalizeOp(true)];
            Run(t, ops) == Trace(0, false, t.calls + [Register(true), Unregister(true)])
  {
    var inits := seq(|more|, i requires 0 <= i < |more| => SinkInitOp(more[i]));
    var fins := seq(|fewer|, i requires 0 <= i < |fewer| => SinkFinalizeOp(fewer[i]));
    var t1 := Run(t, [SinkInitOp(true)]);
    assert t1 == Trace(1, true, t.calls + [Register(true)]);
    InitsWhileInUse(t1, more);
    var t2 := Run(t1, inits);
    FinalizesWhileInUse(t2, fewer);
    var t3 := Run(t2, fins);
    assert t3 == t1;
    RunConcat(t, [SinkInitOp(true)], inits);
    RunConcat(t, [SinkInitOp(true)] + inits, fins);
    RunConcat(t, [SinkInitOp(true)] + inits + fins, [SinkFinalizeOp(true)]);
  }

  // Scenarios of the handler's unit tests. Each starts where the library starts (-2) or where
  // the previous test left the shared count (0); outcomes of calls the scenario says are
  // not made are left as parameters.

  /** One init and one finalize register and then cancel the handler. */
  lemma ScenarioInitThenFinalize(t: Trace)
    requires (t.count == -2 || t.count == 0) && !t.registered
    ensures Run(t, [SinkInitOp(true), SinkFinalizeOp(true)])
            == Trace(0, false, t.calls + [Register(true), Unregister(true)])
  {
  }

  /** A failed registration is retried by the next init; later inits and finalizes make no
      call until the last finalize cancels the handler. */
  lemma ScenarioRegisterRetry(t: Trace, x: bool, y: bool)
    requires (t.count == -2 || t.count == 0) && !t.registered
    ensures var t1 := Run(t, [SinkInitOp(false)]);
            && t1 == Trace(0, false, t.calls + [Register(false)])
            && Run(t1, [SinkInitOp(true), SinkInitOp(x), SinkFinalizeOp(y), SinkFinalizeOp(true)])
               == Trace(0, false, t1.calls + [Register(true), Unregister(true)])
  {
    var t1 := After(t, SinkInitOp(false));
    RunCons(t, SinkInitOp(false), []);
    var t2 := After(t1, SinkInitOp(true));
    var t3 := After(t2, SinkInitOp(x));
    var t4 := After(t3, SinkFinalizeOp(y));
    var t5 := After(t4, SinkFinalizeOp(true));
    assert t4 == t2 && t5 == Trace(0, false, t1.calls + [Register(true), Unregister(true)]);
    RunCons(t4, SinkFinalizeOp(true), []);
    RunCons(t3, SinkFinalizeOp(y), [SinkFinalizeOp(true)]);
    RunCons(t2, SinkInitOp(x), [SinkFinalizeOp(y), SinkFinalizeOp(true)]);
    RunCons(t1, SinkInitOp(true), [SinkInitOp(x), SinkFinalizeOp(y), SinkFinalizeOp(true)]);
  }

  /** A failed cancellation returns the count to the pre-registered state (-1): the next init
      makes no call, and the following finalize cancels again. */
  lemma ScenarioCancelFails(t: Trace, x: bool)
    requires (t.count == -2 || t.count == 0) && !t.registered
    ensures var t1 := Run(t, [SinkInitOp(true), SinkFinalizeOp(false)]);
            && t1 == Trace(-1, true, t.calls + [Register(true), Unregister(false)])
            && Run(t1, [SinkInitOp(x), SinkFinalizeOp(true)])
               == Trace(0, false, t1.calls + [Unregister(true)])
  {
    var t1 := After(After(t, SinkInitOp(true)), SinkFinalizeOp(false));
    RunCons(t, SinkInitOp(true), [SinkFinalizeOp(false)]);
    RunCons(After(t, SinkInitOp(true)), SinkFinalizeOp(false), []);
    RunCons(t1, SinkInitOp(x), [SinkFinalizeOp(true)]);
    RunCons(After(t1, SinkInitOp(x)), SinkFinalizeOp(true), []);
  }

  /** A finalize before any init does nothing; an init and a finalize then work as usual. */
  lemma ScenarioFinalizeTooEarly(t: Trace, x: bool)
    requires (t.count == -2 || t.count == 0) && !t.registered
    ensures var t1 := Run(t, [SinkFinalizeOp(x)]);
            && t1 == t
            && Run(t1, [SinkInitOp(true), SinkFinalizeOp(true)])
               == Trace(0, false, t.calls + [Register(true), Unregister(true)])
  {
  }

  /** Pre-registration followed by two sinks: init, init, finalize, finalize makes exactly
      the pre-registration call and, on the last finalize only, the cancellation. */
  lemma ScenarioPreRegisteredTwoSinks()
    ensures var t1 := Run(Initial, [PreRegisterOp(true), SinkInitOp(true), SinkInitOp(true), SinkFinalizeOp(true)]);
            && t1 == Trace(1, true, [Register(true)])
            && Run(t1, [SinkFinalizeOp(true)]) == Trace(0, false, [Register(true), Unregister(true)])
  {
  }

  // ---------------------------------------------------------------------------
  // The static state, updated in place
  // ---------------------------------------------------------------------------

  /** The handler's static operations over the file-scope count g_referenceCount.
      `registered` and `calls` record what the client log control has seen. */
  class LogToGstHandler {
    var referenceCount: int
    ghost var registered: bool
    ghost var calls: seq<Call>

    ghost predicate Valid()
      reads this
    {
      Consistent(referenceCount, registered)
    }

    /** The count's static initialiser. */
    constructor ()
      ensures Valid()
      ensures referenceCount == Initial.count && registered == Initial.registered && calls == Initial.calls
    {
      referenceCount := -2;
      registered := false;
      calls := [];
    }

    ghost function State(): Trace
      reads this
    {
      Trace(referenceCount, registered, calls)
    }

    method LogToGstPreRegister(registerOk: bool) returns (call: Option<Call>)
      requires Valid()
      modifies this
      ensures Valid()
      ensures Step(referenceCount, call) == PreRegister(old(referenceCount), registerOk)
      ensures State() == After(old(State()), PreRegisterOp(registerOk))
    {
      call := None;
      if referenceCount == -2 {
        call := Some(Register(registerOk));
        if registerOk {
          referenceCount := -1;
        }
      }
      registered := ControlAfter(registered, call);
      calls := calls + CallList(call);
    }

    method LogToGstSinkInit(registerOk: bool) returns (call: Option<Call>)
      requires Valid()
      modifies this
      ensures Valid()
      ensures Step(referenceCount, call) == SinkInit(old(referenceCount), registerOk)
      ensures State() == After(old(State()), SinkInitOp(registerOk))
    {
      call := None;
      if referenceCount > 0 {
        referenceCount := referenceCount + 1;
      } else if referenceCount == 0 || referenceCount <= -2 {
        if referenceCount != 0 {
          referenceCount := 0;
        }
        call := Some(Register(registerOk));
        if registerOk {
          referenceCount := referenceCount + 1;
        }
      } else {
        referenceCount := 1;
      }
      registered := ControlAfter(registered, call);
      calls := calls + CallList(call);
    }

    method LogToGstSinkFinalize(unregisterOk: bool) returns (call: Option<Call>)
      requires Valid()
      modifies this
      ensures Valid()
      ensures Step(referenceCount, call) == SinkFinalize(old(referenceCount), unregisterOk)
      ensures State() == After(old(State()), SinkFinalizeOp(unregisterOk))
    {
      call := None;
      if referenceCount > 0 {
        referenceCount := referenceCount - 1;
        if referenceCount == 0 {
          call := Some(Unregister(unregisterOk));
          if !unregisterOk {
            referenceCount := -1;
          }
        }
      }
      registered := ControlAfter(registered, call);
      calls := calls + CallList(call);
    }
  }
}
