/** One `request(...args)` call of the callback src/useRequestFactory.js
    builds. The closure locals `aborted`, `interruped`, `unsubscribed`, `state`
    and the registered `abort` are the fields of an `Attempt`. Nothing is raced
    here: an abort is only noticed by the checks `propagateChange` makes before
    and after each state change. How each awaited stage settles, what each
    listener call does and which `abort`/`unsubscribe` functions are called
    while a stage is awaited are inputs, collected in an `Env`. */
module RequestFactory {
  import opened Values
  import opened RequestStateReducer
  import opened Lifecycle

  /** The functions the payloads hand out to whoever reads the state. */
  datatype Hook =
    | InitAbort     // `abort()` of the `init` payload: sets `aborted`
    | Unsubscribe   // `unsubscribe()` of the `init` payload: sets `unsubscribed`
    | SentAbort     // `abort()` of the `request_sent` payload: the registered aborter, then `aborted`
    | ReceivedAbort // `abort()` of the `response_received` payload: sets `aborted`
    | SettledAbort  // `abort()` of the terminal payloads: does nothing

  const UnsubscribeFn: Value := Func("init.unsubscribe")
  const InitAbortFn: Value := Func("init.abort")
  const SentAbortFn: Value := Func("request_sent.abort")
  const ReceivedAbortFn: Value := Func("response_received.abort")
  const SettledAbortFn: Value := Func("settled.abort")

  /** One `onStateChange(state)` call: the hooks it calls, in order, and
      whether it then throws. Its result is never awaited. */
  datatype Listener = Listener(hooks: seq<Hook>, throws: Option<Value>)

  /** The closure locals of one attempt, and its trace. `aborter` says
      whether `performRequest` has registered its aborter as `abort`. */
  datatype Locals = Locals(
    state: State, aborted: bool, interrupted: bool, unsubscribed: bool, aborter: bool, log: seq<Event>)

  /** Before the first change: `state` is `undefined`, which the reducer reads as `{}`. */
  const Start: Locals := Locals(map[], false, false, false, false, [])

  /** The locals after a stage, and how the stage settled. */
  datatype Step = Step(locals: Locals, outcome: Settlement)

  /** Everything outside the attempt, stage by stage: the trigger arguments,
      the listener calls, the `request`, `perform` and `response` options, and
      the hooks called while each awaited stage is pending. */
  datatype Env = Env(
    args: seq<Value>,
    initListener: Listener,
    request: RequestOption, requestWait: seq<Hook>,
    paramsListener: Listener,
    perform: PerformOption,
    sentListener: Listener,
    responseWait: seq<Hook>,
    receivedListener: Listener,
    response: ResponseOption, mappingWait: seq<Hook>,
    succeededListener: Listener,
    terminalListener: Listener)

  datatype Outcome = Outcome(locals: Locals, completion: Completion)

  /** `aborted && !interruped`: the condition under which `propagateChange` throws. */
  predicate Armed(l: Locals) {
    l.aborted && !l.interrupted
  }

  /** None of the hooks can set `aborted`. */
  predicate Harmless(hooks: seq<Hook>) {
    InitAbort !in hooks && SentAbort !in hooks && ReceivedAbort !in hooks
  }

  /** Calling one hook: `SentAbort` with no registered aborter throws a
      TypeError (`abort` is `undefined`) before it sets anything. */
  function HookStep(l: Locals, h: Hook): (r: Step)
    ensures r.locals.state == l.state && r.locals.interrupted == l.interrupted && r.locals.aborter == l.aborter
    ensures r.locals.aborted == (l.aborted || h.InitAbort? || h.ReceivedAbort? || (h.SentAbort? && l.aborter))
    ensures r.locals.unsubscribed == (l.unsubscribed || h.Unsubscribe?)
    ensures r.locals.log == l.log + if h.SentAbort? && l.aborter then [AborterCalled] else []
    ensures r.outcome.Rejected? <==> h.SentAbort? && !l.aborter
    ensures r.outcome.Rejected? ==> r.outcome.reason == TypeErrorValue
    ensures r.outcome.Fulfilled? ==> r.outcome.value == Undefined
  {
    match h
    case InitAbort => Step(l.(aborted := true), Fulfilled(Undefined))
    case Unsubscribe => Step(l.(unsubscribed := true), Fulfilled(Undefined))
    case SentAbort =>
      if l.aborter then Step(l.(aborted := true, log := l.log + [AborterCalled]), Fulfilled(Undefined))
      else Step(l, Rejected(TypeErrorValue))
    case ReceivedAbort => Step(l.(aborted := true), Fulfilled(Undefined))
    case SettledAbort => Step(l, Fulfilled(Undefined))
  }

  /** The hooks a listener calls, in order; the first one that throws ends
      the listener with its error. */
  function HooksStep(l: Locals, hooks: seq<Hook>): (r: Step)
    ensures r.locals.state == l.state && r.locals.interrupted == l.interrupted && r.locals.aborter == l.aborter
    ensures l.aborted ==> r.locals.aborted
    ensures l.unsubscribed ==> r.locals.unsubscribed
    ensures Extends(l.log, r.locals.log) && Dispatched(r.locals.log) == Dispatched(l.log)
    ensures SentAbort !in hooks || !l.aborter ==> r.locals.log == l.log
    ensures r.outcome.Rejected? ==> r.outcome.reason == TypeErrorValue && SentAbort in hooks && !l.aborter
    ensures r.outcome.Fulfilled? ==> r.outcome.value == Undefined
    ensures r.outcome.Fulfilled? && (InitAbort in hooks || ReceivedAbort in hooks) ==> r.locals.aborted
    ensures Harmless(hooks) ==> r.outcome.Fulfilled? && r.locals.aborted == l.aborted
    ensures Unsubscribe !in hooks ==> r.locals.unsubscribed == l.unsubscribed
    decreases |hooks|
  {
    if hooks == [] then Step(l, Fulfilled(Undefined))
    else
      var h := HookStep(l, hooks[0]);
      assert hooks == [hooks[0]] + hooks[1..];
      if h.outcome.Rejected? then h
      else
        var r := HooksStep(h.locals, hooks[1..]);
        DispatchedNoReduced(h.locals.log[|l.log|..]);
        DispatchedAppend(l.log, h.locals.log[|l.log|..]);
        assert l.log + h.locals.log[|l.log|..] == h.locals.log;
        ExtendsTrans(l.log, h.locals.log, r.locals.log);
        r
  }

  /** Hooks called by someone else while a stage is awaited: an error thrown
      by one goes to its caller, not to the attempt. */
  function WaitStep(l: Locals, hooks: seq<Hook>): (r: Locals)
    ensures r.state == l.state && r.interrupted == l.interrupted && r.aborter == l.aborter
    ensures l.aborted ==> r.aborted
    ensures l.unsubscribed ==> r.unsubscribed
    ensures Extends(l.log, r.log) && Dispatched(r.log) == Dispatched(l.log)
    ensures SentAbort !in hooks || !l.aborter ==> r.log == l.log
    ensures InitAbort in hooks || ReceivedAbort in hooks ==> r.aborted
    ensures Harmless(hooks) ==> r.aborted == l.aborted
    ensures Unsubscribe !in hooks ==> r.unsubscribed == l.unsubscribed
    decreases |hooks|
  {
    if hooks == [] then l
    else
      var h := HookStep(l, hooks[0]);
      assert hooks == [hooks[0]] + hooks[1..];
      var r := WaitStep(h.locals, hooks[1..]);
      DispatchedNoReduced(h.locals.log[|l.log|..]);
      DispatchedAppend(l.log, h.locals.log[|l.log|..]);
      assert l.log + h.locals.log[|l.log|..] == h.locals.log;
      ExtendsTrans(l.log, h.locals.log, r.log);
      r
  }

  /** The check `propagateChange` makes before the reducer and after the listener. */
  function Check(l: Locals): (s: Settlement)
    ensures s.Rejected? <==> Armed(l)
    ensures s.Rejected? ==> s.reason == AbortErrorValue
    ensures s.Fulfilled? ==> s.value == Undefined
  {
    if Armed(l) then Rejected(AbortErrorValue) else Fulfilled(Undefined)
  }

  /** `onStateChange(state)` followed by the check after it. */
  function ListenStep(l: Locals, listener: Listener): (r: Step)
    ensures r.locals.state == l.state && r.locals.interrupted == l.interrupted && r.locals.aborter == l.aborter
    ensures l.aborted ==> r.locals.aborted
    ensures l.unsubscribed ==> r.locals.unsubscribed
    ensures Extends(l.log, r.locals.log) && Dispatched(r.locals.log) == Dispatched(l.log)
    ensures SentAbort !in listener.hooks || !l.aborter ==> r.locals.log == l.log
    // the listener's own error, or the TypeError of a `SentAbort` with nothing registered
    ensures listener.throws.Some? && Harmless(listener.hooks) ==> r.outcome == Rejected(listener.throws.value)
    ensures r.outcome.Rejected? && (l.interrupted || r.outcome.reason != AbortErrorValue) ==>
      Some(r.outcome.reason) == listener.throws || (r.outcome.reason == TypeErrorValue && SentAbort in listener.hooks)
    // an abort the listener made is noticed right after it returns
    ensures listener.throws.None? && Harmless(listener.hooks) ==> r.outcome == Check(l)
    ensures (listener.throws.None? && SentAbort !in listener.hooks && !l.interrupted &&
             (InitAbort in listener.hooks || ReceivedAbort in listener.hooks)) ==>
      r.outcome == Rejected(AbortErrorValue)
    ensures r.outcome.Fulfilled? ==> r.outcome.value == Undefined && !Armed(r.locals)
    ensures Unsubscribe !in listener.hooks ==> r.locals.unsubscribed == l.unsubscribed
  {
    var h := HooksStep(l, listener.hooks);
    if h.outcome.Rejected? then h
    else if listener.throws.Some? then Step(h.locals, Rejected(listener.throws.value))
    else Step(h.locals, Check(h.locals))
  }

  /** `propagateChange(action)`: the check before, the reducer, the listener
      unless unsubscribed, the check after. */
  function PropagateStep(l: Locals, a: Action, listener: Listener): (r: Step)
    // an abort made since the last change throws before the reducer runs
    ensures Armed(l) ==> r == Step(l, Rejected(AbortErrorValue))
    ensures !Armed(l) ==> r.locals.state == Reduce(l.state, a)
    ensures !Armed(l) ==> Extends(l.log + [Reduced(a)], r.locals.log)
    // once unsubscribed the listener is not called, but the state still changes
    ensures !Armed(l) && l.unsubscribed ==>
      r == Step(l.(state := Reduce(l.state, a), log := l.log + [Reduced(a)]), Fulfilled(Undefined))
    ensures !Armed(l) && !l.unsubscribed ==> Extends(l.log + [Reduced(a), Notified(Reduce(l.state, a))], r.locals.log)
    ensures r.locals.interrupted == l.interrupted && r.locals.aborter == l.aborter
    ensures l.aborted ==> r.locals.aborted
    ensures l.unsubscribed ==> r.locals.unsubscribed
    ensures Unsubscribe !in listener.hooks ==> r.locals.unsubscribed == l.unsubscribed
    ensures r.outcome.Fulfilled? ==> r.outcome.value == Undefined && !Armed(r.locals)
    // after `interruped` is set only the listener itself can make it throw
    ensures l.interrupted && r.outcome.Rejected? ==>
      !l.unsubscribed &&
      (Some(r.outcome.reason) == listener.throws || (r.outcome.reason == TypeErrorValue && SentAbort in listener.hooks))
  {
    if Armed(l) then Step(l, Rejected(AbortErrorValue))
    else
      var l1 := l.(state := Reduce(l.state, a), log := l.log + [Reduced(a)]);
      if l1.unsubscribed then Step(l1, Check(l1))
      else
        var l2 := l1.(log := l1.log + [Notified(l1.state)]);
        var r := ListenStep(l2, listener);
        ExtendsTrans(l1.log, l2.log, r.locals.log);
        r
  }

  /** The `init` action: the `unsubscribe` and `abort` functions and the arguments. */
  function InitAction(args: seq<Value>): (a: Action)
    ensures a.kind == Init
    ensures Spread(a.payload) == map["unsubscribe" := UnsubscribeFn, "abort" := InitAbortFn, "args" := List(args)]
  {
    Action(Init, Obj(map["unsubscribe" := UnsubscribeFn, "abort" := InitAbortFn, "args" := List(args)]))
  }

  /** The `request_sent` payload: the request promise and its `abort`. */
  function SentPayload(requested: Value): (v: Value)
    ensures Spread(v) == map["requested" := requested, "abort" := SentAbortFn]
  {
    Obj(map["requested" := requested, "abort" := SentAbortFn])
  }

  /** The `response_received` payload: the request, the response and an `abort`. */
  function ReceivedPayload(requested: Value, responded: Value): (v: Value)
    ensures v.Obj? && !v.Response?
    ensures Spread(v) == map["requested" := requested, "responded" := responded, "abort" := ReceivedAbortFn]
  {
    Obj(map["requested" := requested, "responded" := responded, "abort" := ReceivedAbortFn])
  }

  /** The `request_succeeded` payload: the mapped response and a no-op `abort`. */
  function SucceededPayload(resolved: Value): (v: Value)
    ensures Spread(v) == map["resolved" := resolved, "abort" := SettledAbortFn]
  {
    Obj(map["resolved" := resolved, "abort" := SettledAbortFn])
  }

  /** The payload of `request_aborted` and `request_failed`: the caught value and a no-op `abort`. */
  function RejectedPayload(e: Value): (v: Value)
    ensures Spread(v) == map["rejected" := e, "abort" := SettledAbortFn]
    ensures "resolved" !in Spread(v) && "status" !in Spread(v)
  {
    Obj(map["rejected" := e, "abort" := SettledAbortFn])
  }

  /** The parameters: the `request` function called with the trigger
      arguments, or a non-function `request` value, awaited either way. */
  function MapRequestStep(l: Locals, env: Env): (r: Step)
    ensures r.locals.state == l.state && r.locals.interrupted == l.interrupted && r.locals.aborter == l.aborter
    ensures l.aborted ==> r.locals.aborted
    ensures l.unsubscribed ==> r.locals.unsubscribed
    ensures Extends(l.log, r.locals.log) && Dispatched(r.locals.log) == Dispatched(l.log)
    ensures !l.aborter && env.request.RequestFn? ==> r.locals.log == l.log + [RequestMapped(env.args)]
    ensures !l.aborter && env.request.RequestValue? ==> r.locals.log == l.log
    ensures env.request.RequestValue? ==> r.outcome == Fulfilled(env.request.params)
    ensures env.request.RequestFn? ==>
      r.outcome == if env.request.result.Throws? then Rejected(env.request.result.error) else Settled(env.request.result)
    ensures Harmless(env.requestWait) ==> r.locals.aborted == l.aborted
    ensures Unsubscribe !in env.requestWait ==> r.locals.unsubscribed == l.unsubscribed
  {
    match env.request
    case RequestValue(params) => Step(WaitStep(l, env.requestWait), Fulfilled(params))
    case RequestFn(call) =>
      var l1 := l.(log := l.log + [RequestMapped(env.args)]);
      DispatchedSkip(l.log, RequestMapped(env.args));
      if call.Throws? then Step(l1, Rejected(call.error))
      else
        var w := WaitStep(l1, env.requestWait);
        ExtendsTrans(l.log, l1.log, w.log);
        Step(w, Settled(call))
  }

  /** `performRequest(state, aborter => { abort = aborter })`: called
      synchronously; a throw goes straight to the `catch` block. */
  function PerformStep(l: Locals, env: Env): (r: Step)
    ensures r.locals == l.(aborter := l.aborter || Perform(env.perform, l.state).registers,
                           log := l.log + [Performed(l.state)])
    ensures Perform(env.perform, l.state).result.Threw? <==> r.outcome.Rejected?
    ensures r.outcome.Rejected? ==> r.outcome.reason == Perform(env.perform, l.state).result.error
    ensures r.outcome.Fulfilled? ==> r.outcome.value == Perform(env.perform, l.state).result.value
    ensures Dispatched(r.locals.log) == Dispatched(l.log)
  {
    var p := Perform(env.perform, l.state);
    var l1 := l.(aborter := l.aborter || p.registers, log := l.log + [Performed(l.state)]);
    DispatchedSkip(l.log, Performed(l.state));
    Step(l1, if p.result.Threw? then Rejected(p.result.error) else Fulfilled(p.result.value))
  }

  /** `await requested`. */
  function ResponseStep(l: Locals, env: Env): (r: Step)
    ensures r.locals == WaitStep(l, env.responseWait)
    ensures r.outcome == PerformSettles(env.perform)
  {
    Step(WaitStep(l, env.responseWait), PerformSettles(env.perform))
  }

  /** `await mapResponse(state)`: the `response` function is called with the
      state; a synchronous throw goes straight to the `catch` block. */
  function MapResponseStep(l: Locals, env: Env): (r: Step)
    ensures r.locals.state == l.state && r.locals.interrupted == l.interrupted && r.locals.aborter == l.aborter
    ensures l.aborted ==> r.locals.aborted
    ensures l.unsubscribed ==> r.locals.unsubscribed
    ensures Extends(l.log + [ResponseMapped(l.state)], r.locals.log) && Dispatched(r.locals.log) == Dispatched(l.log)
    ensures SentAbort !in env.mappingWait || !l.aborter ==> r.locals.log == l.log + [ResponseMapped(l.state)]
    ensures r.outcome == if MapResponse(env.response, l.state).Throws? then Rejected(MapResponse(env.response, l.state).error)
                         else Settled(MapResponse(env.response, l.state))
    ensures Harmless(env.mappingWait) ==> r.locals.aborted == l.aborted
    ensures Unsubscribe !in env.mappingWait ==> r.locals.unsubscribed == l.unsubscribed
  {
    var call := MapResponse(env.response, l.state);
    var l1 := l.(log := l.log + [ResponseMapped(l.state)]);
    DispatchedSkip(l.log, ResponseMapped(l.state));
    if call.Throws? then Step(l1, Rejected(call.error))
    else Step(WaitStep(l1, env.mappingWait), Settled(call))
  }

  /** The `try` block up to `performRequest`: each stage runs once the one
      before it has fulfilled, and the first rejection skips the rest. */
  function Prepared(env: Env): (r: Step)
  {
    AfterInit(PropagateStep(Start, InitAction(env.args), env.initListener), env)
  }

  function AfterInit(s1: Step, env: Env): (r: Step)
  {
    if s1.outcome.Rejected? then s1 else AfterMapRequest(MapRequestStep(s1.locals, env), env)
  }

  function AfterMapRequest(s2: Step, env: Env): (r: Step)
  {
    if s2.outcome.Rejected? then s2
    else AfterParams(PropagateStep(s2.locals, Action(ParamsDefined, s2.outcome.value), env.paramsListener), env)
  }

  function AfterParams(s3: Step, env: Env): (r: Step)
  {
    if s3.outcome.Rejected? then s3 else PerformStep(s3.locals, env)
  }

  /** From `request_sent` up to `mapResponse`; the request promise is carried
      along for the `response_received` payload. */
  function AfterPerform(s4: Step, env: Env): (r: Step)
  {
    if s4.outcome.Rejected? then s4
    else
      var requested := s4.outcome.value;
      AfterSent(PropagateStep(s4.locals, Action(RequestSent, SentPayload(requested)), env.sentListener), requested, env)
  }

  function AfterSent(s5: Step, requested: Value, env: Env): (r: Step)
  {
    if s5.outcome.Rejected? then s5 else AfterResponse(ResponseStep(s5.locals, env), requested, env)
  }

  function AfterResponse(s6: Step, requested: Value, env: Env): (r: Step)
  {
    if s6.outcome.Rejected? then s6
    else
      var a := Action(ResponseReceived, ReceivedPayload(requested, s6.outcome.value));
      AfterReceived(PropagateStep(s6.locals, a, env.receivedListener), env)
  }

  function AfterReceived(s7: Step, env: Env): (r: Step)
  {
    if s7.outcome.Rejected? then s7 else MapResponseStep(s7.locals, env)
  }

  /** Everything before `request_succeeded`. */
  function Mapped(env: Env): (r: Step)
  {
    AfterPerform(Prepared(env), env)
  }

  /** The last stage of the `try` block. */
  function Succeed(s8: Step, env: Env): (r: Step)
  {
    if s8.outcome.Rejected? then s8
    else PropagateStep(s8.locals, Action(RequestSucceeded, SucceededPayload(s8.outcome.value)), env.succeededListener)
  }

  /** The whole `try` block: it completes, or it throws the reason it was left with. */
  function TryStages(env: Env): (r: Step)
  {
    Succeed(Mapped(env), env)
  }

  /** The action the `catch` block reports for a caught value. */
  function TerminalAction(e: Value): (a: Action)
    ensures a.kind == RequestAborted <==> IsAbortError(e)
    ensures a.kind == RequestFailed <==> !IsAbortError(e)
    ensures a.payload == RejectedPayload(e)
  {
    if IsAbortError(e) then Action(RequestAborted, RejectedPayload(e)) else Action(RequestFailed, RejectedPayload(e))
  }

  /** The `catch` block: `interruped` is set first, so the terminal change is
      always reduced; an error thrown while reporting it escapes, otherwise
      the state is returned, or thrown when the matching flag is set. */
  function CatchStep(l: Locals, e: Value, flags: Flags, env: Env): (o: Outcome)
    ensures o.locals.interrupted && o.locals.aborter == l.aborter
    ensures o.locals.state == Reduce(l.state, TerminalAction(e))
    ensures Extends(l.log + [Reduced(TerminalAction(e))], o.locals.log)
    ensures IsAbortError(e) ==> o.locals.state == Aborted()
    // the state records the whole payload as `rejected`, not the caught value
    ensures !IsAbortError(e) ==>
      HasStatus(o.locals.state, "rejected") && o.locals.state["rejected"] == RejectedPayload(e)
    ensures o.completion.ThrowsError? ==>
      !l.unsubscribed &&
      (Some(o.completion.error) == env.terminalListener.throws ||
       (o.completion.error == TypeErrorValue && SentAbort in env.terminalListener.hooks))
    ensures !o.completion.ThrowsError? ==> o.completion.state == o.locals.state
    ensures l.unsubscribed || (env.terminalListener.throws.None? && SentAbort !in env.terminalListener.hooks) ==>
      !o.completion.ThrowsError? &&
      (o.completion.ThrowsState? <==> if IsAbortError(e) then flags.throwOnAbortions else flags.throwOnRejections)
  {
    var t := PropagateStep(l.(interrupted := true), TerminalAction(e), env.terminalListener);
    var s := t.locals.state;
    if t.outcome.Rejected? then Outcome(t.locals, ThrowsError(t.outcome.reason))
    else if IsAbortError(e) && flags.throwOnAbortions then Outcome(t.locals, ThrowsState(s))
    else if !IsAbortError(e) && flags.throwOnRejections then Outcome(t.locals, ThrowsState(s))
    else Outcome(t.locals, Returns(s))
  }

  /** `request(...args)`. */
  function Run(flags: Flags, env: Env): (o: Outcome)
  {
    var t := TryStages(env);
    if t.outcome.Fulfilled? then Outcome(t.locals, Returns(t.locals.state))
    else CatchStep(t.locals, t.outcome.reason, flags, env)
  }

  // ---------------------------------------------------------------------
  // The attempt, step by step
  // ---------------------------------------------------------------------

  /** The closure of one `request(...args)` call. */
  class Attempt {
    var state: State
    var aborted: bool      // `aborted`
    var interrupted: bool  // `interruped`
    var unsubscribed: bool // `unsubscribed`
    var aborter: bool      // `abort` holds the aborter `performRequest` registered
    var log: seq<Event>

    function Snapshot(): Locals
      reads this
    {
      Locals(state, aborted, interrupted, unsubscribed, aborter, log)
    }

    constructor()
      ensures Snapshot() == Start
    {
      state, aborted, interrupted, unsubscribed, aborter, log := map[], false, false, false, false, [];
    }

    /** A call of one of the functions the payloads carry. */
    method CallHook(h: Hook) returns (outcome: Settlement)
      modifies this
      ensures Step(Snapshot(), outcome) == HookStep(old(Snapshot()), h)
    {
      match h {
        case InitAbort =>
          aborted := true;
        case Unsubscribe =>
          unsubscribed := true;
        case SentAbort =>
          if !aborter {
            return Rejected(TypeErrorValue);
          }
          log := log + [AborterCalled];
          aborted := true;
        case ReceivedAbort =>
          aborted := true;
        case SettledAbort =>
      }
      outcome := Fulfilled(Undefined);
    }

    /** The hooks a listener calls, until one throws. */
    method CallHooks(hooks: seq<Hook>) returns (outcome: Settlement)
      modifies this
      ensures Step(Snapshot(), outcome) == HooksStep(old(Snapshot()), hooks)
    {
      var i := 0;
      while i < |hooks|
        invariant 0 <= i <= |hooks|
        invariant HooksStep(Snapshot(), hooks[i..]) == HooksStep(old(Snapshot()), hooks)
      {
        assert hooks[i..][1..] == hooks[i + 1..];
        outcome := CallHook(hooks[i]);
        if outcome.Rejected? {
          return;
        }
        i := i + 1;
      }
      outcome := Fulfilled(Undefined);
    }

    /** The hooks others call while a stage is awaited. */
    method Wait(hooks: seq<Hook>)
      modifies this
      ensures Snapshot() == WaitStep(old(Snapshot()), hooks)
    {
      var i := 0;
      while i < |hooks|
        invariant 0 <= i <= |hooks|
        invariant WaitStep(Snapshot(), hooks[i..]) == WaitStep(old(Snapshot()), hooks)
      {
        assert hooks[i..][1..] == hooks[i + 1..];
        var ignored := CallHook(hooks[i]);
        i := i + 1;
      }
    }

    /** `propagateChange(action)`. */
    method Propagate(action: Action, listener: Listener) returns (outcome: Settlement)
      modifies this
      ensures Step(Snapshot(), outcome) == PropagateStep(old(Snapshot()), action, listener)
    {
      if aborted && !interrupted {
        return Rejected(AbortErrorValue);
      }
      state := Reduce(state, action);
      log := log + [Reduced(action)];
      if !unsubscribed {
        log := log + [Notified(state)];
        outcome := CallHooks(listener.hooks);
        if outcome.Rejected? {
          return;
        }
        if listener.throws.Some? {
          return Rejected(listener.throws.value);
        }
      }
      if aborted && !interrupted {
        return Rejected(AbortErrorValue);
      }
      outcome := Fulfilled(Undefined);
    }

    /** `await` of the `request` function's result, or of the `request` value. */
    method MapRequest(env: Env) returns (outcome: Settlement)
      modifies this
      ensures Step(Snapshot(), outcome) == MapRequestStep(old(Snapshot()), env)
    {
      match env.request {
        case RequestValue(params) =>
          Wait(env.requestWait);
          outcome := Fulfilled(params);
        case RequestFn(call) =>
          log := log + [RequestMapped(env.args)];
          if call.Throws? {
            return Rejected(call.error);
          }
          Wait(env.requestWait);
          outcome := Settled(call);
      }
    }

    /** `performRequest(state, aborter => { abort = aborter })`. */
    method PerformRequest(env: Env) returns (outcome: Settlement)
      modifies this
      ensures Step(Snapshot(), outcome) == PerformStep(old(Snapshot()), env)
    {
      var performer := Perform(env.perform, state);
      if performer.registers {
        aborter := true;
      }
      log := log + [Performed(state)];
      if performer.result.Threw? {
        return Rejected(performer.result.error);
      }
      outcome := Fulfilled(performer.result.value);
    }

    /** `await requested`. */
    method AwaitResponse(env: Env) returns (outcome: Settlement)
      modifies this
      ensures Step(Snapshot(), outcome) == ResponseStep(old(Snapshot()), env)
    {
      Wait(env.responseWait);
      outcome := PerformSettles(env.perform);
    }

    /** `await mapResponse(state)`. */
    method MapResponse(env: Env) returns (outcome: Settlement)
      modifies this
      ensures Step(Snapshot(), outcome) == MapResponseStep(old(Snapshot()), env)
    {
      var call := Lifecycle.MapResponse(env.response, state);
      log := log + [ResponseMapped(state)];
      if call.Throws? {
        return Rejected(call.error);
      }
      Wait(env.mappingWait);
      outcome := Settled(call);
    }

    /** The `try` block up to `performRequest`. */
    method Prepare(env: Env) returns (outcome: Settlement)
      requires Snapshot() == Start
      modifies this
      ensures Step(Snapshot(), outcome) == Prepared(env)
    {
      outcome := Propagate(InitAction(env.args), env.initListener);
      if outcome.Rejected? {
        return;
      }
      outcome := MapRequest(env);
      if outcome.Rejected? {
        return;
      }
      outcome := Propagate(Action(ParamsDefined, outcome.value), env.paramsListener);
      if outcome.Rejected? {
        return;
      }
      outcome := PerformRequest(env);
    }

    /** From `request_sent` up to `mapResponse`, for the request promise `requested`. */
    method Deliver(requested: Value, env: Env) returns (outcome: Settlement)
      modifies this
      ensures Step(Snapshot(), outcome) == AfterPerform(Step(old(Snapshot()), Fulfilled(requested)), env)
    {
      outcome := Propagate(Action(RequestSent, SentPayload(requested)), env.sentListener);
      if outcome.Rejected? {
        return;
      }
      outcome := AwaitResponse(env);
      if outcome.Rejected? {
        return;
      }
      outcome := Propagate(Action(ResponseReceived, ReceivedPayload(requested, outcome.value)), env.receivedListener);
      if outcome.Rejected? {
        return;
      }
      outcome := MapResponse(env);
    }

    /** The `try` block. */
    method Try(env: Env) returns (outcome: Settlement)
      requires Snapshot() == Start
      modifies this
      ensures Step(Snapshot(), outcome) == TryStages(env)
    {
      outcome := Prepare(env);
      if outcome.Fulfilled? {
        outcome := Deliver(outcome.value, env);
      }
      if outcome.Fulfilled? {
        outcome := Propagate(Action(RequestSucceeded, SucceededPayload(outcome.value)), env.succeededListener);
      }
    }

    /** The `catch` block for the caught value `rejected`. */
    method Catch(rejected: Value, flags: Flags, env: Env) returns (completion: Completion)
      modifies this
      ensures Outcome(Snapshot(), completion) == CatchStep(old(Snapshot()), rejected, flags, env)
    {
      interrupted := true;
      var reported := Propagate(TerminalAction(rejected), env.terminalListener);
      if reported.Rejected? {
        return ThrowsError(reported.reason);
      }
      if IsAbortError(rejected) && flags.throwOnAbortions {
        return ThrowsState(state);
      }
      if !IsAbortError(rejected) && flags.throwOnRejections {
        return ThrowsState(state);
      }
      completion := Returns(state);
    }

    /** The body of `request(...args)`: the `try` block, then the `catch` block. */
    method Execute(flags: Flags, env: Env) returns (completion: Completion)
      requires Snapshot() == Start
      modifies this
      ensures Outcome(Snapshot(), completion) == Run(flags, env)
    {
      var outcome := Try(env);
      if outcome.Fulfilled? {
        return Returns(state);
      }
      completion := Catch(outcome.reason, flags, env);
    }
  }

  /** `request(...args)`: a fresh closure runs one attempt. */
  method Request(flags: Flags, env: Env) returns (completion: Completion, log: seq<Event>)
    ensures completion == Run(flags, env).completion
    ensures log == Run(flags, env).locals.log
  {
    var attempt := new Attempt();
    completion := attempt.Execute(flags, env);
    log := attempt.log;
  }

  // ---------------------------------------------------------------------
  // Properties of an attempt
  // ---------------------------------------------------------------------

  /** A listener call that neither throws nor sets `aborted`. */
  predicate Calm(listener: Listener) {
    listener.throws.None? && Harmless(listener.hooks)
  }

  /** A listener call that cannot throw while the terminal change is reported. */
  predicate NeverThrows(listener: Listener) {
    listener.throws.None? && SentAbort !in listener.hooks
  }

  /** A change that gets past the first check adds its own action type to the
      dispatched ones, and calls the aborter only through the listener. */
  lemma PropagateLog(l: Locals, a: Action, listener: Listener)
    requires !Armed(l) && SentAbort !in listener.hooks && !a.kind.Progress?
    ensures var r := PropagateStep(l, a, listener);
      && Dispatched(r.locals.log) == Dispatched(l.log) + [a.kind]
      && (NoAborterCalls(l.log) ==> NoAborterCalls(r.locals.log))
  {
    var l1 := l.(state := Reduce(l.state, a), log := l.log + [Reduced(a)]);
    DispatchedAppend(l.log, [Reduced(a)]);
    assert Dispatched([Reduced(a)]) == [a.kind] by {
      assert [Reduced(a)][1..] == [];
    }
    if !l.unsubscribed {
      DispatchedSkip(l1.log, Notified(l1.state));
    }
  }

  /** A calm change: it is reduced, reported unless unsubscribed, and completes. */
  lemma CalmPropagate(l: Locals, a: Action, listener: Listener)
    requires !l.aborted && Calm(listener) && !a.kind.Progress?
    ensures var r := PropagateStep(l, a, listener);
      && r.outcome == Fulfilled(Undefined) && !r.locals.aborted
      && r.locals.interrupted == l.interrupted && r.locals.aborter == l.aborter
      && r.locals.state == Reduce(l.state, a)
      && Dispatched(r.locals.log) == Dispatched(l.log) + [a.kind]
      && (NoAborterCalls(l.log) ==> NoAborterCalls(r.locals.log))
  {
    PropagateLog(l, a, listener);
  }

  /** The parameters the `request` option yields when it fulfils. */
  function Params(env: Env): Value {
    match env.request
    case RequestValue(params) => params
    case RequestFn(call) => if call.Fulfils? then call.value else Undefined
  }

  /** The states after the calm changes, one after the other. */
  function InitState(env: Env): State {
    Reduce(map[], InitAction(env.args))
  }

  function ParamsState(env: Env): State {
    Reduce(InitState(env), Action(ParamsDefined, Params(env)))
  }

  /** How `performRequest` ends when called with `state`. */
  function PerformOutcome(env: Env, state: State): Settlement {
    var p := Perform(env.perform, state);
    if p.result.Threw? then Rejected(p.result.error) else Fulfilled(p.result.value)
  }

  /** How the `response` option ends when called with `state`. */
  function MappedOutcome(env: Env, state: State): Settlement {
    var c := MapResponse(env.response, state);
    if c.Throws? then Rejected(c.error) else Settled(c)
  }

  /** The stages before `performRequest` complete without an abort. */
  predicate PreparesCalmly(env: Env) {
    && Calm(env.initListener)
    && (env.request.RequestFn? ==> env.request.result.Fulfils?)
    && Harmless(env.requestWait)
    && Calm(env.paramsListener)
  }

  /** No hook called before `request_succeeded` is `unsubscribe`. */
  predicate Subscribed(env: Env) {
    && Unsubscribe !in env.initListener.hooks && Unsubscribe !in env.requestWait
    && Unsubscribe !in env.paramsListener.hooks && Unsubscribe !in env.sentListener.hooks
    && Unsubscribe !in env.responseWait && Unsubscribe !in env.receivedListener.hooks
    && Unsubscribe !in env.mappingWait
  }

  lemma AfterParamsCalm(s3: Step, env: Env)
    requires s3.outcome.Fulfilled?
    ensures var r := AfterParams(s3, env);
      && r.outcome == PerformOutcome(env, s3.locals.state)
      && r.locals.state == s3.locals.state && r.locals.aborted == s3.locals.aborted
      && r.locals.interrupted == s3.locals.interrupted && r.locals.unsubscribed == s3.locals.unsubscribed
      && Dispatched(r.locals.log) == Dispatched(s3.locals.log)
      && (NoAborterCalls(s3.locals.log) ==> NoAborterCalls(r.locals.log))
  {
  }

  lemma AfterMapRequestCalm(s2: Step, env: Env)
    requires PreparesCalmly(env) && s2.outcome == Fulfilled(Params(env))
    requires !s2.locals.aborted && s2.locals.state == InitState(env)
    ensures var r := AfterMapRequest(s2, env);
      && r.outcome == PerformOutcome(env, ParamsState(env))
      && r.locals.state == ParamsState(env) && !r.locals.aborted
      && r.locals.interrupted == s2.locals.interrupted
      && (Subscribed(env) && !s2.locals.unsubscribed ==> !r.locals.unsubscribed)
      && Dispatched(r.locals.log) == Dispatched(s2.locals.log) + [ParamsDefined]
      && (NoAborterCalls(s2.locals.log) ==> NoAborterCalls(r.locals.log))
  {
    var s3 := PropagateStep(s2.locals, Action(ParamsDefined, Params(env)), env.paramsListener);
    CalmPropagate(s2.locals, Action(ParamsDefined, Params(env)), env.paramsListener);
    AfterParamsCalm(s3, env);
  }

  lemma AfterInitCalm(s1: Step, env: Env)
    requires PreparesCalmly(env) && s1.outcome.Fulfilled?
    requires !s1.locals.aborted && !s1.locals.aborter && s1.locals.state == InitState(env)
    ensures var r := AfterInit(s1, env);
      && r.outcome == PerformOutcome(env, ParamsState(env))
      && r.locals.state == ParamsState(env) && !r.locals.aborted
      && r.locals.interrupted == s1.locals.interrupted
      && (Subscribed(env) && !s1.locals.unsubscribed ==> !r.locals.unsubscribed)
      && Dispatched(r.locals.log) == Dispatched(s1.locals.log) + [ParamsDefined]
      && (NoAborterCalls(s1.locals.log) ==> NoAborterCalls(r.locals.log))
  {
    var s2 := MapRequestStep(s1.locals, env);
    assert s2.outcome == Fulfilled(Params(env));
    AfterMapRequestCalm(s2, env);
  }

  /** Calm stages before `performRequest`: `init` and `params_defined` are
      reduced, in that order, and `performRequest` sees the parameters. */
  lemma PreparedCalm(env: Env)
    requires PreparesCalmly(env)
    ensures var r := Prepared(env);
      && r.outcome == PerformOutcome(env, ParamsState(env))
      && r.locals.state == ParamsState(env)
      && !r.locals.aborted && !r.locals.interrupted
      && (Subscribed(env) ==> !r.locals.unsubscribed)
      && Dispatched(r.locals.log) == [Init] + [ParamsDefined]
      && NoAborterCalls(r.locals.log)
  {
    var s1 := PropagateStep(Start, InitAction(env.args), env.initListener);
    CalmPropagate(Start, InitAction(env.args), env.initListener);
    assert Dispatched(Start.log) == [];
    assert Dispatched(s1.locals.log) == [Init];
    AfterInitCalm(s1, env);
  }

  /** `performRequest` is called with the parameters in the state. */
  lemma ParamsStateHoldsParams(env: Env)
    ensures Get(ParamsState(env), "params") == Params(env)
  {
  }

  /** The state `performRequest` receives still carries the `init` payload's
      `abort` and `unsubscribe`, so a custom `performRequest` could call them. */
  lemma ParamsStateCarriesHooks(env: Env)
    ensures Get(ParamsState(env), "abort") == InitAbortFn
    ensures Get(ParamsState(env), "unsubscribe") == UnsubscribeFn
    ensures Get(ParamsState(env), "args") == List(env.args)
  {
    InitFieldKept(env, "abort");
    InitFieldKept(env, "unsubscribe");
    InitFieldKept(env, "args");
  }

  /** A field of the `init` payload survives `params_defined`. */
  lemma InitFieldKept(env: Env, k: string)
    requires k in Spread(InitAction(env.args).payload) && k != "status" && k != "params"
    ensures Get(ParamsState(env), k) == Spread(InitAction(env.args).payload)[k]
  {
    var s0 := InitState(env);
    assert s0[k] == Spread(InitAction(env.args).payload)[k];
    assert ParamsState(env) == Advance(s0, "prepared", "params", Params(env));
  }

  /** `defaultPerformRequest` refuses exactly the falsy parameters, before it registers anything. */
  lemma DefaultPerformChecksParams(env: Env)
    requires env.perform.DefaultPerform?
    ensures PerformOutcome(env, ParamsState(env)).Rejected? <==> !Truthy(Params(env))
    ensures PerformOutcome(env, ParamsState(env)).Rejected? ==>
      PerformOutcome(env, ParamsState(env)).reason == InvalidParamsError
    ensures PerformOutcome(env, ParamsState(env)).Fulfilled? ==>
      PerformOutcome(env, ParamsState(env)).value == env.perform.fetched
  {
    ParamsStateHoldsParams(env);
  }

  /** The request promise, when `performRequest` returns one. */
  function Requested(env: Env): Value {
    var p := PerformOutcome(env, ParamsState(env));
    if p.Fulfilled? then p.value else Undefined
  }

  /** The response, when the request promise fulfils. */
  function Responded(env: Env): Value {
    var settles := PerformSettles(env.perform);
    if settles.Fulfilled? then settles.value else Undefined
  }

  function SentState(env: Env): State {
    Reduce(ParamsState(env), Action(RequestSent, SentPayload(Requested(env))))
  }

  function ReceivedState(env: Env): State {
    Reduce(SentState(env), Action(ResponseReceived, ReceivedPayload(Requested(env), Responded(env))))
  }

  /** The stages up to the response complete without an abort. */
  predicate SendsCalmly(env: Env) {
    && PreparesCalmly(env)
    && PerformOutcome(env, ParamsState(env)).Fulfilled?
    && Calm(env.sentListener)
    && Harmless(env.responseWait)
    && PerformSettles(env.perform).Fulfilled?
  }

  /** `response_received` and the wait for `mapResponse` set no abort. */
  predicate ReceivesCalmly(env: Env) {
    Calm(env.receivedListener) && Harmless(env.mappingWait)
  }

  lemma AfterReceivedCalm(s7: Step, env: Env)
    requires ReceivesCalmly(env) && s7.outcome.Fulfilled?
    ensures var r := AfterReceived(s7, env);
      && r.outcome == MappedOutcome(env, s7.locals.state)
      && r.locals.state == s7.locals.state && r.locals.aborted == s7.locals.aborted
      && r.locals.interrupted == s7.locals.interrupted
      && (Unsubscribe !in env.mappingWait ==> r.locals.unsubscribed == s7.locals.unsubscribed)
      && Dispatched(r.locals.log) == Dispatched(s7.locals.log)
      && (NoAborterCalls(s7.locals.log) ==> NoAborterCalls(r.locals.log))
  {
  }

  lemma AfterResponseCalm(s6: Step, requested: Value, env: Env)
    requires ReceivesCalmly(env) && s6.outcome.Fulfilled? && !s6.locals.aborted
    ensures var st := Reduce(s6.locals.state, Action(ResponseReceived, ReceivedPayload(requested, s6.outcome.value)));
      var r := AfterResponse(s6, requested, env);
      && r.outcome == MappedOutcome(env, st)
      && r.locals.state == st && !r.locals.aborted
      && r.locals.interrupted == s6.locals.interrupted
      && (Unsubscribe !in env.receivedListener.hooks && Unsubscribe !in env.mappingWait ==>
            r.locals.unsubscribed == s6.locals.unsubscribed)
      && Dispatched(r.locals.log) == Dispatched(s6.locals.log) + [ResponseReceived]
      && (NoAborterCalls(s6.locals.log) ==> NoAborterCalls(r.locals.log))
  {
    var a := Action(ResponseReceived, ReceivedPayload(requested, s6.outcome.value));
    var s7 := PropagateStep(s6.locals, a, env.receivedListener);
    CalmPropagate(s6.locals, a, env.receivedListener);
    AfterReceivedCalm(s7, env);
  }

  lemma AfterSentCalm(s5: Step, requested: Value, env: Env)
    requires SendsCalmly(env) && ReceivesCalmly(env) && s5.outcome.Fulfilled? && !s5.locals.aborted
    ensures var st := Reduce(s5.locals.state, Action(ResponseReceived, ReceivedPayload(requested, Responded(env))));
      var r := AfterSent(s5, requested, env);
      && r.outcome == MappedOutcome(env, st)
      && r.locals.state == st && !r.locals.aborted
      && r.locals.interrupted == s5.locals.interrupted
      && (Subscribed(env) ==> r.locals.unsubscribed == s5.locals.unsubscribed)
      && Dispatched(r.locals.log) == Dispatched(s5.locals.log) + [ResponseReceived]
      && (NoAborterCalls(s5.locals.log) ==> NoAborterCalls(r.locals.log))
  {
    var s6 := ResponseStep(s5.locals, env);
    AfterResponseCalm(s6, requested, env);
  }

  lemma AfterPerformCalm(s4: Step, env: Env)
    requires SendsCalmly(env) && ReceivesCalmly(env)
    requires s4.outcome == Fulfilled(Requested(env)) && s4.locals.state == ParamsState(env) && !s4.locals.aborted
    ensures var r := AfterPerform(s4, env);
      && r.outcome == MappedOutcome(env, ReceivedState(env))
      && r.locals.state == ReceivedState(env) && !r.locals.aborted
      && r.locals.interrupted == s4.locals.interrupted
      && (Subscribed(env) ==> r.locals.unsubscribed == s4.locals.unsubscribed)
      && Dispatched(r.locals.log) == Dispatched(s4.locals.log) + [RequestSent] + [ResponseReceived]
      && (NoAborterCalls(s4.locals.log) ==> NoAborterCalls(r.locals.log))
  {
    var a := Action(RequestSent, SentPayload(Requested(env)));
    var s5 := PropagateStep(s4.locals, a, env.sentListener);
    CalmPropagate(s4.locals, a, env.sentListener);
    AfterSentCalm(s5, Requested(env), env);
  }

  /** Calm stages up to `mapResponse`: four changes reduced in order, the
      response function called with the state `response_received` left, and
      no aborter call. */
  lemma MappedCalm(env: Env)
    requires SendsCalmly(env) && ReceivesCalmly(env)
    ensures var r := Mapped(env);
      && r.outcome == MappedOutcome(env, ReceivedState(env))
      && r.locals.state == ReceivedState(env) && !r.locals.aborted && !r.locals.interrupted
      && (Subscribed(env) ==> !r.locals.unsubscribed)
      && Dispatched(r.locals.log) == [Init] + [ParamsDefined] + [RequestSent] + [ResponseReceived]
      && NoAborterCalls(r.locals.log)
  {
    PreparedCalm(env);
    AfterPerformCalm(Prepared(env), env);
  }

  /** A `try` block that throws hands its reason to the `catch` block. */
  lemma RunCatches(flags: Flags, env: Env)
    ensures var t := TryStages(env);
      t.outcome.Rejected? ==> Run(flags, env) == CatchStep(t.locals, t.outcome.reason, flags, env)
  {
  }

  /** The `catch` block adds the terminal action type, and calls no aborter
      when its listener cannot throw. */
  lemma CatchLog(l: Locals, e: Value, flags: Flags, env: Env)
    requires NeverThrows(env.terminalListener)
    ensures var o := CatchStep(l, e, flags, env);
      && Dispatched(o.locals.log) == Dispatched(l.log) + [TerminalAction(e).kind]
      && (NoAborterCalls(l.log) ==> NoAborterCalls(o.locals.log))
      && o.completion == if (if IsAbortError(e) then flags.throwOnAbortions else flags.throwOnRejections)
                         then ThrowsState(o.locals.state) else Returns(o.locals.state)
  {
    PropagateLog(l.(interrupted := true), TerminalAction(e), env.terminalListener);
  }

  /** A `try` block that fails with anything but an AbortError ends with
      `request_failed`: the resolution so far is kept, and the state is
      thrown only under `throwOnRejections`. */
  lemma RunFails(flags: Flags, env: Env)
    requires TryStages(env).outcome.Rejected? && !IsAbortError(TryStages(env).outcome.reason)
    requires NeverThrows(env.terminalListener)
    ensures var t := TryStages(env); var o := Run(flags, env);
      && Dispatched(o.locals.log) == Dispatched(t.locals.log) + [RequestFailed]
      && (NoAborterCalls(t.locals.log) ==> NoAborterCalls(o.locals.log))
      && HasStatus(o.locals.state, "rejected") && Get(o.locals.state, "rejected") == RejectedPayload(t.outcome.reason)
      && Get(o.locals.state, "resolved") == Get(t.locals.state, "resolved")
      && o.completion == if flags.throwOnRejections then ThrowsState(o.locals.state) else Returns(o.locals.state)
  {
    var t := TryStages(env);
    RunCatches(flags, env);
    CatchLog(t.locals, t.outcome.reason, flags, env);
    CaughtFailure(t.locals, t.outcome.reason, flags, env);
  }

  /** What `request_failed` leaves in the state of the `catch` block. */
  lemma CaughtFailure(l: Locals, e: Value, flags: Flags, env: Env)
    requires !IsAbortError(e)
    ensures var r := CatchStep(l, e, flags, env).locals.state;
      && HasStatus(r, "rejected") && Get(r, "rejected") == RejectedPayload(e)
      && Get(r, "resolved") == Get(l.state, "resolved")
  {
    assert TerminalAction(e) == Action(RequestFailed, RejectedPayload(e));
    FailureKeepsResolution(l.state, RejectedPayload(e));
  }

  /** A `try` block that fails with an AbortError ends with `request_aborted`,
      thrown only under `throwOnAbortions`. */
  lemma RunAborts(flags: Flags, env: Env)
    requires TryStages(env).outcome.Rejected? && IsAbortError(TryStages(env).outcome.reason)
    requires NeverThrows(env.terminalListener)
    ensures var t := TryStages(env); var o := Run(flags, env);
      && Dispatched(o.locals.log) == Dispatched(t.locals.log) + [RequestAborted]
      && (NoAborterCalls(t.locals.log) ==> NoAborterCalls(o.locals.log))
      && o.locals.state == Aborted()
      && o.completion == if flags.throwOnAbortions then ThrowsState(Aborted()) else Returns(Aborted())
  {
    var t := TryStages(env);
    RunCatches(flags, env);
    CatchLog(t.locals, t.outcome.reason, flags, env);
  }

  /** With calm listeners and a `response` function that fulfils, the `try`
      block completes after five changes. */
  lemma TrySucceeds(env: Env)
    requires SendsCalmly(env) && ReceivesCalmly(env) && Calm(env.succeededListener)
    requires env.response.CustomResponse? && env.response.call.Fulfils?
    ensures var t := TryStages(env);
      && t.outcome.Fulfilled?
      && t.locals.state == Reduce(ReceivedState(env), Action(RequestSucceeded, SucceededPayload(env.response.call.value)))
      && Dispatched(t.locals.log) == [Init] + [ParamsDefined] + [RequestSent] + [ResponseReceived] + [RequestSucceeded]
      && NoAborterCalls(t.locals.log)
  {
    MappedCalm(env);
    var s8 := Mapped(env);
    CalmPropagate(s8.locals, Action(RequestSucceeded, SucceededPayload(env.response.call.value)), env.succeededListener);
  }

  /** The success path: the five lifecycle changes in order, no aborter call,
      and `request` resolves with a resolved, settled state. */
  lemma SuccessPath(flags: Flags, env: Env)
    requires SendsCalmly(env) && ReceivesCalmly(env) && Calm(env.succeededListener)
    requires env.response.CustomResponse? && env.response.call.Fulfils?
    ensures var o := Run(flags, env);
      && o.completion == Returns(o.locals.state)
      && Dispatched(o.locals.log) == [Init, ParamsDefined, RequestSent, ResponseReceived, RequestSucceeded]
      && NoAborterCalls(o.locals.log)
      && HasStatus(o.locals.state, "resolved") && Get(o.locals.state, "pending") == Bool(false)
      && Get(o.locals.state, "resolved") == SucceededPayload(env.response.call.value)
  {
    TrySucceeds(env);
    LifecycleOrder();
    SucceededState(ReceivedState(env), env.response.call.value);
  }

  /** What `request_succeeded` leaves in the state. */
  lemma SucceededState(s: State, resolved: Value)
    ensures var r := Reduce(s, Action(RequestSucceeded, SucceededPayload(resolved)));
      HasStatus(r, "resolved") && Get(r, "pending") == Bool(false) && Get(r, "resolved") == SucceededPayload(resolved)
  {
  }

  /** The five lifecycle action types, joined one by one, in their order. */
  lemma LifecycleOrder()
    ensures [Init] + [ParamsDefined] + [RequestSent] + [ResponseReceived] + [RequestSucceeded]
         == [Init, ParamsDefined, RequestSent, ResponseReceived, RequestSucceeded]
  {
  }

  /** The default `mapResponse` reads `state.responded`, which the reducer set
      to the whole `response_received` payload: never a response, so it
      always rejects with a TypeError. */
  lemma DefaultMappingSeesPayload(s: State, requested: Value, responded: Value)
    ensures MapResponse(DefaultResponse, Reduce(s, Action(ResponseReceived, ReceivedPayload(requested, responded))))
         == Rejects(TypeErrorValue)
  {
    var st := Reduce(s, Action(ResponseReceived, ReceivedPayload(requested, responded)));
    assert Get(st, "responded") == ReceivedPayload(requested, responded);
  }

  lemma AfterResponseDefault(s6: Step, requested: Value, env: Env)
    requires env.response.DefaultResponse?
    ensures AfterResponse(s6, requested, env).outcome.Rejected?
  {
    if s6.outcome.Fulfilled? {
      var a := Action(ResponseReceived, ReceivedPayload(requested, s6.outcome.value));
      var s7 := PropagateStep(s6.locals, a, env.receivedListener);
      if s7.outcome.Fulfilled? {
        DefaultMappingSeesPayload(s6.locals.state, requested, s6.outcome.value);
      }
    }
  }

  /** With the default `response` option the `try` block never completes. */
  lemma DefaultResponseNeverCompletes(env: Env)
    requires env.response.DefaultResponse?
    ensures TryStages(env).outcome.Rejected?
  {
    var s4 := Prepared(env);
    if s4.outcome.Fulfilled? {
      var s5 := PropagateStep(s4.locals, Action(RequestSent, SentPayload(s4.outcome.value)), env.sentListener);
      if s5.outcome.Fulfilled? {
        AfterResponseDefault(ResponseStep(s5.locals, env), s4.outcome.value, env);
      }
    }
  }

  /** So with the default `response` option no request ends resolved: it
      ends aborted or rejected. */
  lemma DefaultResponseNeverResolves(flags: Flags, env: Env)
    requires env.response.DefaultResponse?
    ensures HasStatus(Run(flags, env).locals.state, "aborted") || HasStatus(Run(flags, env).locals.state, "rejected")
  {
    DefaultResponseNeverCompletes(env);
    RunCatches(flags, env);
  }

  /** With calm listeners the default `response` option fails every request
      with a TypeError, right after `response_received`. */
  lemma DefaultResponseFails(flags: Flags, env: Env)
    requires SendsCalmly(env) && ReceivesCalmly(env) && env.response.DefaultResponse?
    requires NeverThrows(env.terminalListener)
    ensures var o := Run(flags, env);
      && Dispatched(o.locals.log) == [Init] + [ParamsDefined] + [RequestSent] + [ResponseReceived] + [RequestFailed]
      && NoAborterCalls(o.locals.log)
      && HasStatus(o.locals.state, "rejected") && Get(o.locals.state, "rejected") == RejectedPayload(TypeErrorValue)
      && o.completion == if flags.throwOnRejections then ThrowsState(o.locals.state) else Returns(o.locals.state)
  {
    TryDefaultResponse(env);
    RunFails(flags, env);
  }

  lemma TryDefaultResponse(env: Env)
    requires SendsCalmly(env) && ReceivesCalmly(env) && env.response.DefaultResponse?
    ensures var t := TryStages(env);
      && t.outcome == Rejected(TypeErrorValue)
      && Dispatched(t.locals.log) == [Init] + [ParamsDefined] + [RequestSent] + [ResponseReceived]
      && NoAborterCalls(t.locals.log)
  {
    MappedCalm(env);
    DefaultMappingSeesPayload(SentState(env), Requested(env), Responded(env));
  }

  /** Calm stages up to `request_succeeded`, whose listener then runs: the
      state is the resolved one and the listener's own behaviour decides. */
  lemma TryAfterSuccess(env: Env)
    requires SendsCalmly(env) && ReceivesCalmly(env) && Subscribed(env)
    requires env.response.CustomResponse? && env.response.call.Fulfils?
    requires SentAbort !in env.succeededListener.hooks
    ensures var t := TryStages(env);
      var resolved := Reduce(ReceivedState(env), Action(RequestSucceeded, SucceededPayload(env.response.call.value)));
      && t.locals.state == resolved
      && !t.locals.interrupted
      && (env.succeededListener.throws.None? &&
          (InitAbort in env.succeededListener.hooks || ReceivedAbort in env.succeededListener.hooks) ==>
            t.outcome == Rejected(AbortErrorValue))
      && (env.succeededListener.throws.Some? && Harmless(env.succeededListener.hooks) ==>
            t.outcome == Rejected(env.succeededListener.throws.value))
      && Dispatched(t.locals.log) == [Init] + [ParamsDefined] + [RequestSent] + [ResponseReceived] + [RequestSucceeded]
      && NoAborterCalls(t.locals.log)
  {
    MappedCalm(env);
    var s8 := Mapped(env);
    var a := Action(RequestSucceeded, SucceededPayload(env.response.call.value));
    PropagateLog(s8.locals, a, env.succeededListener);
  }

  /** A listener that aborts while `request_succeeded` is reported turns the
      success into an abortion: the check after the listener throws, and the
      `catch` block reports `request_aborted`. */
  lemma SucceededThenAborted(flags: Flags, env: Env)
    requires SendsCalmly(env) && ReceivesCalmly(env) && Subscribed(env)
    requires env.response.CustomResponse? && env.response.call.Fulfils?
    requires env.succeededListener.throws.None? && SentAbort !in env.succeededListener.hooks
    requires InitAbort in env.succeededListener.hooks || ReceivedAbort in env.succeededListener.hooks
    requires NeverThrows(env.terminalListener)
    ensures var o := Run(flags, env);
      && Dispatched(o.locals.log) ==
         [Init] + [ParamsDefined] + [RequestSent] + [ResponseReceived] + [RequestSucceeded] + [RequestAborted]
      && NoAborterCalls(o.locals.log)
      && o.locals.state == Aborted()
      && o.completion == if flags.throwOnAbortions then ThrowsState(Aborted()) else Returns(Aborted())
  {
    TryAfterSuccess(env);
    RunAborts(flags, env);
  }

  /** A listener that throws while `request_succeeded` is reported turns the
      success into a failure that keeps the resolution (or into an abortion,
      when it throws an AbortError). */
  lemma SucceededThenThrew(flags: Flags, env: Env, e: Value)
    requires SendsCalmly(env) && ReceivesCalmly(env) && Subscribed(env)
    requires env.response.CustomResponse? && env.response.call.Fulfils?
    requires env.succeededListener.throws == Some(e) && Harmless(env.succeededListener.hooks)
    requires NeverThrows(env.terminalListener)
    ensures var o := Run(flags, env);
      && Dispatched(o.locals.log) ==
         [Init] + [ParamsDefined] + [RequestSent] + [ResponseReceived] + [RequestSucceeded] + [TerminalAction(e).kind]
      && NoAborterCalls(o.locals.log)
      && (IsAbortError(e) ==> o.locals.state == Aborted())
      && (!IsAbortError(e) ==>
            HasStatus(o.locals.state, "rejected") && Get(o.locals.state, "rejected") == RejectedPayload(e) &&
            Get(o.locals.state, "resolved") == SucceededPayload(env.response.call.value))
  {
    TryAfterSuccess(env);
    if IsAbortError(e) {
      RunAborts(flags, env);
    } else {
      SucceededState(ReceivedState(env), env.response.call.value);
      RunFails(flags, env);
    }
  }

  lemma TryAbortedAwaitingResponse(env: Env)
    requires PreparesCalmly(env) && PerformOutcome(env, ParamsState(env)).Fulfilled? && Calm(env.sentListener)
    requires SentAbort !in env.responseWait && (InitAbort in env.responseWait || ReceivedAbort in env.responseWait)
    requires PerformSettles(env.perform).Fulfilled?
    ensures var t := TryStages(env);
      && t.outcome == Rejected(AbortErrorValue)
      && Dispatched(t.locals.log) == [Init] + [ParamsDefined] + [RequestSent]
      && NoAborterCalls(t.locals.log)
  {
    PreparedCalm(env);
    var s4 := Prepared(env);
    CalmPropagate(s4.locals, Action(RequestSent, SentPayload(s4.outcome.value)), env.sentListener);
  }

  /** An abort while the response is awaited is noticed by the check before
      `response_received`: that change is never reduced, and the attempt
      ends with `request_aborted`, even though the response arrived. */
  lemma AbortWhileAwaitingResponse(flags: Flags, env: Env)
    requires PreparesCalmly(env) && PerformOutcome(env, ParamsState(env)).Fulfilled? && Calm(env.sentListener)
    requires SentAbort !in env.responseWait && (InitAbort in env.responseWait || ReceivedAbort in env.responseWait)
    requires PerformSettles(env.perform).Fulfilled?
    requires NeverThrows(env.terminalListener)
    ensures var o := Run(flags, env);
      && Dispatched(o.locals.log) == [Init] + [ParamsDefined] + [RequestSent] + [RequestAborted]
      && NoAborterCalls(o.locals.log)
      && o.locals.state == Aborted()
      && o.completion == if flags.throwOnAbortions then ThrowsState(Aborted()) else Returns(Aborted())
  {
    TryAbortedAwaitingResponse(env);
    RunAborts(flags, env);
  }

  /** Parameters the default `performRequest` refuses: `request_failed`
      follows `params_defined`, carrying the refusal, and nothing is sent. */
  lemma MissingParamsFail(flags: Flags, env: Env)
    requires PreparesCalmly(env) && env.perform.DefaultPerform? && !Truthy(Params(env))
    requires NeverThrows(env.terminalListener)
    ensures var o := Run(flags, env);
      && Dispatched(o.locals.log) == [Init] + [ParamsDefined] + [RequestFailed]
      && NoAborterCalls(o.locals.log)
      && HasStatus(o.locals.state, "rejected")
      && Get(o.locals.state, "rejected") == RejectedPayload(InvalidParamsError)
      && o.completion == if flags.throwOnRejections then ThrowsState(o.locals.state) else Returns(o.locals.state)
  {
    TryMissingParams(env);
    RunFails(flags, env);
  }

  lemma TryMissingParams(env: Env)
    requires PreparesCalmly(env) && env.perform.DefaultPerform? && !Truthy(Params(env))
    ensures var t := TryStages(env);
      && t.outcome == Rejected(InvalidParamsError)
      && Dispatched(t.locals.log) == [Init] + [ParamsDefined]
      && NoAborterCalls(t.locals.log)
  {
    PreparedCalm(env);
    DefaultPerformChecksParams(env);
  }
}
