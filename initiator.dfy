/** One `request(...args)` call of the initiator of src/useRequestInitiator.js.
    The closure locals `state`, `requestEnded`, `onAbort` and the `abortion`
    promise are the fields of an `Attempt`; the request-id counter belongs to
    the `Initiator`. Promise races are not scheduled: how each race and each
    caller-supplied call turns out is an input, collected in an `Env`. */
module RequestInitiator {
  import opened Values
  import opened RequestStateReducer
  import opened Lifecycle

  /** The closure locals of one attempt: `state`, `requestEnded`, whether the
      `abortion` promise has resolved, whether `onAbort` is set, and the trace. */
  datatype Locals = Locals(state: State, ended: bool, signalled: bool, aborter: bool, log: seq<Event>)

  /** Before the first dispatch: `state` is `undefined`, which the reducer reads as `{}`. */
  const Start: Locals := Locals(map[], false, false, false, [])

  /** While a raced stage is pending: whether `abort()` is called meanwhile, and
      whether a resolved `abortion` settles the race before the stage does. */
  datatype Race = Race(abortCalled: bool, abortFirst: bool)

  /** One listener call: whether it calls `abort()` while it runs, what it
      returns, and the race its result enters. */
  datatype Listen = Listen(abortInside: bool, call: Call, race: Race)

  /** The locals after a stage, and how the stage settled. */
  datatype Step = Step(locals: Locals, outcome: Settlement)

  /** Everything outside the attempt, stage by stage: the trigger arguments,
      the listener calls, the `request`, `perform` and `response` options,
      progress reports, and the races. */
  datatype Env = Env(
    args: seq<Value>,
    initListen: Listen,
    request: RequestOption, requestRace: Race,
    paramsListen: Listen,
    perform: PerformOption,
    sentListen: Listen,
    sendingProgress: seq<Value>, responseRace: Race,
    receivedListen: Listen,
    response: ResponseOption, mappingProgress: seq<Value>, mappingRace: Race,
    succeededListen: Listen,
    terminalListen: Listen)

  datatype Outcome = Outcome(locals: Locals, completion: Completion)

  /** `abort()`: nothing once the request has ended; before that it calls the
      registered aborter, if any, and resolves `abortion`. */
  function AbortStep(l: Locals): (r: Locals)
    ensures l.ended ==> r == l
    ensures !l.ended ==> r.signalled
    ensures r.state == l.state && r.ended == l.ended && r.aborter == l.aborter
    ensures !l.ended && l.aborter ==> r.log == l.log + [AborterCalled]
    ensures !(!l.ended && l.aborter) ==> r.log == l.log
  {
    if l.ended then l
    else l.(signalled := true, log := l.log + if l.aborter then [AborterCalled] else [])
  }

  /** `Promise.race([abortion.then(reject), stage])`. */
  function RaceStep(l: Locals, settled: Settlement, race: Race): (r: Step)
    // with no abortion, the stage settles the race
    ensures !l.signalled && !race.abortCalled ==> r == Step(l, settled)
    // an abort before the end that settles first rejects with an AbortError
    ensures race.abortCalled && !l.ended && race.abortFirst ==> r.outcome == Rejected(AbortErrorValue)
    ensures r.outcome == settled || r.outcome == Rejected(AbortErrorValue)
    ensures r.locals == if race.abortCalled then AbortStep(l) else l
  {
    var l1 := if race.abortCalled then AbortStep(l) else l;
    Step(l1, if l1.signalled && race.abortFirst then Rejected(AbortErrorValue) else settled)
  }

  /** The aborter calls a dispatch makes: one for an `abort()` inside the
      listener and one for an `abort()` during the race, while the request has
      not ended and an aborter is registered. */
  function AborterRuns(l: Locals, listen: Listen): (r: seq<Event>)
    ensures l.ended || !l.aborter ==> r == []
    ensures |r| <= 2 && AborterCalled !in r ==> r == []
    ensures forall e :: e in r ==> e == AborterCalled
  {
    if l.ended || !l.aborter then []
    else
      var inside: seq<Event> := if listen.abortInside then [AborterCalled] else [];
      var racing: seq<Event> := if listen.race.abortCalled && !listen.call.Throws? then [AborterCalled] else [];
      inside + racing
  }

  /** `dispatch(action)`: the reducer runs first, then the listener sees the new
      state; before the end its result is raced against the abortion, after
      the end it is awaited as it is. */
  function DispatchStep(l: Locals, a: Action, listen: Listen): (r: Step)
    ensures r.locals.state == Reduce(l.state, a)
    ensures r.locals.ended == l.ended && r.locals.aborter == l.aborter
    ensures Extends(l.log + [Reduced(a), Notified(Reduce(l.state, a))], r.locals.log)
    // the aborter runs once for each abort before the end
    ensures r.locals.log == l.log + [Reduced(a), Notified(Reduce(l.state, a))] + AborterRuns(l, listen)
    ensures listen.call.Throws? ==> r.outcome == Rejected(listen.call.error)
    // after the end the listener's result is not raced
    ensures l.ended ==> r.locals.log == l.log + [Reduced(a), Notified(Reduce(l.state, a))]
    ensures l.ended && !listen.call.Throws? ==> r.outcome == Settled(listen.call)
    // with no abortion the listener's own result decides
    ensures !listen.abortInside && !listen.race.abortCalled ==>
      r.locals.signalled == l.signalled && r.locals.log == l.log + [Reduced(a), Notified(Reduce(l.state, a))]
    ensures !l.signalled && !listen.abortInside && !listen.race.abortCalled && !listen.call.Throws? ==>
      r.outcome == Settled(listen.call)
  {
    var s := Reduce(l.state, a);
    var head := l.log + [Reduced(a), Notified(s)];
    var l1 := l.(state := s, log := head);
    var l2 := if listen.abortInside then AbortStep(l1) else l1;
    if listen.call.Throws? then Step(l2, Rejected(listen.call.error))
    else if l2.ended then Step(l2, Settled(listen.call))
    else
      RaceStep(l2, Settled(listen.call), listen.race)
  }

  /** `setProgress(payload)` for each reported payload in turn: a `progress`
      dispatch whose listener result nobody awaits. */
  function ProgressStep(l: Locals, payloads: seq<Value>): (r: Locals)
    ensures r.ended == l.ended && r.signalled == l.signalled && r.aborter == l.aborter
    ensures Extends(l.log, r.log) && Dispatched(r.log) == Dispatched(l.log)
    ensures NoAborterCalls(l.log) ==> NoAborterCalls(r.log)
    ensures payloads == [] ==> r == l
    decreases |payloads|
  {
    if payloads == [] then l
    else
      var a := Action(Progress, payloads[0]);
      var s := Reduce(l.state, a);
      var events := [Reduced(a), Notified(s)];
      DispatchedAppend(l.log, events);
      DispatchedPair(a, s);
      var l1 := l.(state := s, log := l.log + events);
      var r := ProgressStep(l1, payloads[1..]);
      assert l1.log[..|l.log|] == l.log;
      ExtendsTrans(l.log, l1.log, r.log);
      assert NoAborterCalls(l.log) ==> NoAborterCalls(l1.log);
      r
  }

  /** Progress reports change nothing in the state but `progress`, which
      holds the last report. */
  lemma {:induction false} ProgressState(l: Locals, payloads: seq<Value>)
    requires payloads != []
    ensures var r := ProgressStep(l, payloads).state;
      r.Keys == l.state.Keys + {"progress"} && Keeps(l.state, r, {"progress"}) &&
      r["progress"] == payloads[|payloads| - 1]
    decreases |payloads|
  {
    var s := Reduce(l.state, Action(Progress, payloads[0]));
    if |payloads| > 1 {
      var l1 := l.(state := s, log := l.log + [Reduced(Action(Progress, payloads[0])), Notified(s)]);
      ProgressState(l1, payloads[1..]);
    }
  }

  /** The `init` action: a fresh request id and the trigger arguments. */
  function InitAction(id: nat, args: seq<Value>): (a: Action)
    ensures a.kind == Init
    ensures Spread(a.payload) == map["requestId" := Symbol(id), "args" := List(args)]
  {
    Action(Init, Obj(map["requestId" := Symbol(id), "args" := List(args)]))
  }

  /** The parameters: the `request` function called with the trigger
      arguments, or a non-function `request` value used as it is. */
  function MapRequestStep(l: Locals, env: Env): (r: Step)
    ensures env.request.RequestFn? ==> Extends(l.log + [RequestMapped(env.args)], r.locals.log)
    ensures env.request.RequestValue? ==> Extends(l.log, r.locals.log)
    ensures env.request.RequestValue? && !l.signalled && !env.requestRace.abortCalled ==>
      r == Step(l, Fulfilled(env.request.params))
    ensures env.request.RequestFn? && env.request.result.Throws? ==>
      r.outcome == Rejected(env.request.result.error)
    ensures r.locals.state == l.state && r.locals.ended == l.ended && r.locals.aborter == l.aborter
    ensures !l.signalled && !env.requestRace.abortCalled ==>
      !r.locals.signalled && (env.request.RequestFn? ==> r.locals.log == l.log + [RequestMapped(env.args)])
  {
    match env.request
    case RequestValue(params) => RaceStep(l, Fulfilled(params), env.requestRace)
    case RequestFn(call) =>
      var l1 := l.(log := l.log + [RequestMapped(env.args)]);
      if call.Throws? then Step(l1, Rejected(call.error)) else RaceStep(l1, Settled(call), env.requestRace)
  }

  /** `performRequest(state, {setProgress, registerAborter})`: called
      synchronously, outside any race; its aborter becomes `onAbort`. */
  function PerformStep(l: Locals, env: Env): (r: Step)
    ensures r.locals == l.(aborter := l.aborter || Perform(env.perform, l.state).registers,
                           log := l.log + [Performed(l.state)])
    ensures Perform(env.perform, l.state).result.Threw? <==> r.outcome.Rejected?
    ensures r.outcome.Rejected? ==> r.outcome.reason == Perform(env.perform, l.state).result.error
    ensures r.outcome.Fulfilled? ==> r.outcome.value == Perform(env.perform, l.state).result.value
  {
    var p := Perform(env.perform, l.state);
    var l1 := l.(aborter := l.aborter || p.registers, log := l.log + [Performed(l.state)]);
    Step(l1, if p.result.Threw? then Rejected(p.result.error) else Fulfilled(p.result.value))
  }

  /** Waiting for the response, with progress reported meanwhile; once it is in,
      `requestEnded` is set. */
  function ResponseStep(l: Locals, env: Env): (r: Step)
    ensures r.outcome.Fulfilled? ==> r.locals.ended
    ensures r.outcome.Rejected? ==> r.locals.ended == l.ended
    ensures r.locals.aborter == l.aborter && Extends(l.log, r.locals.log)
    ensures r.outcome == PerformSettles(env.perform) || r.outcome == Rejected(AbortErrorValue)
    ensures !l.signalled && !env.responseRace.abortCalled ==>
      r.outcome == PerformSettles(env.perform) && !r.locals.signalled &&
      Dispatched(r.locals.log) == Dispatched(l.log) && (NoAborterCalls(l.log) ==> NoAborterCalls(r.locals.log))
    ensures !l.ended && env.responseRace.abortCalled && env.responseRace.abortFirst ==>
      r.outcome == Rejected(AbortErrorValue) &&
      r.locals.log == ProgressStep(l, env.sendingProgress).log + (if l.aborter then [AborterCalled] else [])
  {
    var l1 := ProgressStep(l, env.sendingProgress);
    var r := RaceStep(l1, PerformSettles(env.perform), env.responseRace);
    if r.outcome.Fulfilled? then Step(r.locals.(ended := true), r.outcome) else r
  }

  /** `mapResponse(state, {setProgress})`, raced against the abortion. Abort
      calls can no longer resolve it, but an abortion resolved earlier still
      enters the race. */
  function MapResponseStep(l: Locals, env: Env): (r: Step)
    requires l.ended
    ensures r.locals.ended && r.locals.aborter == l.aborter && r.locals.signalled == l.signalled
    ensures Extends(l.log + [ResponseMapped(l.state)], r.locals.log)
    ensures Dispatched(r.locals.log) == Dispatched(l.log)
    ensures NoAborterCalls(l.log) ==> NoAborterCalls(r.locals.log)
    ensures MapResponse(env.response, l.state).Throws? ==>
      r.outcome == Rejected(MapResponse(env.response, l.state).error)
    ensures !l.signalled && !MapResponse(env.response, l.state).Throws? ==>
      r.outcome == Settled(MapResponse(env.response, l.state))
  {
    var call := MapResponse(env.response, l.state);
    var l1 := l.(log := l.log + [ResponseMapped(l.state)]);
    DispatchedAppend(l.log, [ResponseMapped(l.state)]);
    if call.Throws? then Step(l1, Rejected(call.error))
    else RaceStep(ProgressStep(l1, env.mappingProgress), Settled(call), env.mappingRace)
  }

  /** The `try` block up to `request_sent`: each stage runs once the one before
      it has fulfilled, and the first rejection skips the rest. */
  function SendStages(id: nat, env: Env): (r: Step)
  {
    AfterInit(DispatchStep(Start, InitAction(id, env.args), env.initListen), env)
  }

  function AfterInit(s1: Step, env: Env): (r: Step)
  {
    if s1.outcome.Rejected? then s1 else AfterMapRequest(MapRequestStep(s1.locals, env), env)
  }

  function AfterMapRequest(s2: Step, env: Env): (r: Step)
  {
    if s2.outcome.Rejected? then s2
    else AfterParams(DispatchStep(s2.locals, Action(ParamsDefined, s2.outcome.value), env.paramsListen), env)
  }

  function AfterParams(s3: Step, env: Env): (r: Step)
  {
    if s3.outcome.Rejected? then s3 else AfterPerform(PerformStep(s3.locals, env), env)
  }

  function AfterPerform(s4: Step, env: Env): (r: Step)
  {
    if s4.outcome.Rejected? then s4
    else DispatchStep(s4.locals, Action(RequestSent, s4.outcome.value), env.sentListen)
  }

  /** The rest of the `try` block, from the response on. */
  function ReceiveStages(l: Locals, env: Env): (r: Step)
  {
    AfterResponse(ResponseStep(l, env), env)
  }

  function AfterResponse(s6: Step, env: Env): (r: Step)
    requires s6.outcome.Fulfilled? ==> s6.locals.ended
  {
    if s6.outcome.Rejected? then s6
    else AfterReceived(DispatchStep(s6.locals, Action(ResponseReceived, s6.outcome.value), env.receivedListen), env)
  }

  function AfterReceived(s7: Step, env: Env): (r: Step)
    requires s7.outcome.Fulfilled? ==> s7.locals.ended
  {
    if s7.outcome.Rejected? then s7 else AfterMapResponse(MapResponseStep(s7.locals, env), env)
  }

  function AfterMapResponse(s8: Step, env: Env): (r: Step)
  {
    if s8.outcome.Rejected? then s8
    else DispatchStep(s8.locals, Action(RequestSucceeded, s8.outcome.value), env.succeededListen)
  }

  /** The whole `try` block: it completes, or it throws the reason it was left with. */
  function TryStages(id: nat, env: Env): (r: Step)
  {
    var sent := SendStages(id, env);
    if sent.outcome.Rejected? then sent else ReceiveStages(sent.locals, env)
  }

  /** The action the `catch` block dispatches for a caught value. */
  function TerminalAction(e: Value): (a: Action)
    ensures a.kind == RequestAborted <==> IsAbortError(e)
    ensures a.kind == RequestFailed <==> !IsAbortError(e)
    ensures a.payload == e
  {
    if IsAbortError(e) then Action(RequestAborted, e) else Action(RequestFailed, e)
  }

  /** The `catch` block: the request ends, exactly one terminal action is
      dispatched (without awaiting the listener), and the state is returned,
      or thrown when the matching flag is set. */
  function CatchStep(l: Locals, e: Value, flags: Flags, env: Env): (o: Outcome)
    ensures o.locals.ended && o.locals.aborter == l.aborter
    ensures o.locals.state == Reduce(l.state, TerminalAction(e))
    ensures o.locals.log == l.log + [Reduced(TerminalAction(e)), Notified(o.locals.state)]
    ensures IsAbortError(e) ==> o.locals.state == Aborted()
    ensures !IsAbortError(e) ==> HasStatus(o.locals.state, "rejected") && o.locals.state["rejected"] == e
    ensures o.completion.ThrowsError? <==> env.terminalListen.call.Throws?
    ensures o.completion.ThrowsError? ==> o.completion.error == env.terminalListen.call.error
    ensures !o.completion.ThrowsError? ==> o.completion.state == o.locals.state
    ensures !env.terminalListen.call.Throws? ==>
      (o.completion.ThrowsState? <==>
        (if IsAbortError(e) then flags.throwOnAbortions else flags.throwOnRejections))
  {
    var t := DispatchStep(l.(ended := true), TerminalAction(e), env.terminalListen);
    var s := t.locals.state;
    if env.terminalListen.call.Throws? then Outcome(t.locals, ThrowsError(env.terminalListen.call.error))
    else if IsAbortError(e) && flags.throwOnAbortions then Outcome(t.locals, ThrowsState(s))
    else if !IsAbortError(e) && flags.throwOnRejections then Outcome(t.locals, ThrowsState(s))
    else Outcome(t.locals, Returns(s))
  }

  /** `request(...args)` with request id `id`. */
  function Run(id: nat, flags: Flags, env: Env): (o: Outcome)
  {
    var t := TryStages(id, env);
    if t.outcome.Fulfilled? then Outcome(t.locals, Returns(t.locals.state))
    else CatchStep(t.locals, t.outcome.reason, flags, env)
  }

  // ---------------------------------------------------------------------
  // The attempt and the initiator, step by step
  // ---------------------------------------------------------------------

  /** The closure of one `request(...args)` call. */
  class Attempt {
    var state: State
    var ended: bool      // `requestEnded`
    var signalled: bool  // `abortion` has resolved
    var aborter: bool    // `onAbort` is set
    var log: seq<Event>

    function Snapshot(): Locals
      reads this
    {
      Locals(state, ended, signalled, aborter, log)
    }

    constructor()
      ensures Snapshot() == Start
    {
      state, ended, signalled, aborter, log := map[], false, false, false, [];
    }

    method Abort()
      modifies this
      ensures Snapshot() == AbortStep(old(Snapshot()))
    {
      if ended {
        return;
      }
      if aborter {
        log := log + [AborterCalled];
      }
      signalled := true;
    }

    method RaceAbortion(settled: Settlement, race: Race) returns (outcome: Settlement)
      modifies this
      ensures Step(Snapshot(), outcome) == RaceStep(old(Snapshot()), settled, race)
    {
      if race.abortCalled {
        Abort();
      }
      outcome := if signalled && race.abortFirst then Rejected(AbortErrorValue) else settled;
    }

    method Dispatch(action: Action, listen: Listen) returns (outcome: Settlement)
      modifies this
      ensures Step(Snapshot(), outcome) == DispatchStep(old(Snapshot()), action, listen)
    {
      state := Reduce(state, action);
      log := log + [Reduced(action), Notified(state)];
      if listen.abortInside {
        Abort();
      }
      if listen.call.Throws? {
        return Rejected(listen.call.error);
      }
      if ended {
        return Settled(listen.call);
      }
      outcome := RaceAbortion(Settled(listen.call), listen.race);
    }

    method SetProgress(payload: Value)
      modifies this
      ensures Snapshot() == ProgressStep(old(Snapshot()), [payload])
    {
      var action := Action(Progress, payload);
      state := Reduce(state, action);
      log := log + [Reduced(action), Notified(state)];
      assert [payload][1..] == [];
    }

    /** The progress reports made while a stage is pending, one `setProgress` each. */
    method ReportProgress(payloads: seq<Value>)
      modifies this
      ensures Snapshot() == ProgressStep(old(Snapshot()), payloads)
    {
      var i := 0;
      while i < |payloads|
        invariant 0 <= i <= |payloads|
        invariant ProgressStep(Snapshot(), payloads[i..]) == ProgressStep(old(Snapshot()), payloads)
      {
        assert payloads[i..][1..] == payloads[i + 1..];
        SetProgress(payloads[i]);
        i := i + 1;
      }
    }

    /** The parameters, from the `request` option. */
    method MapRequest(env: Env) returns (outcome: Settlement)
      modifies this
      ensures Step(Snapshot(), outcome) == MapRequestStep(old(Snapshot()), env)
    {
      match env.request {
        case RequestValue(params) =>
          outcome := RaceAbortion(Fulfilled(params), env.requestRace);
        case RequestFn(call) =>
          log := log + [RequestMapped(env.args)];
          if call.Throws? {
            return Rejected(call.error);
          }
          outcome := RaceAbortion(Settled(call), env.requestRace);
      }
    }

    /** `performRequest(state, {setProgress, registerAborter})`. */
    method PerformRequest(env: Env) returns (outcome: Settlement)
      modifies this
      ensures Step(Snapshot(), outcome) == PerformStep(old(Snapshot()), env)
    {
      var performer := Perform(env.perform, state);
      if performer.registers {
        aborter := true;
      }
      log := log + [Performed(state)];
      if performer.result.Threw? {
        return Rejected(performer.result.error);
      }
      outcome := Fulfilled(performer.result.value);
    }

    method Send(id: nat, env: Env) returns (outcome: Settlement)
      requires Snapshot() == Start
      modifies this
      ensures Step(Snapshot(), outcome) == SendStages(id, env)
    {
      outcome := Dispatch(InitAction(id, env.args), env.initListen);
      if outcome.Rejected? {
        return;
      }
      outcome := MapRequest(env);
      if outcome.Rejected? {
        return;
      }
      outcome := Dispatch(Action(ParamsDefined, outcome.value), env.paramsListen);
      if outcome.Rejected? {
        return;
      }
      outcome := PerformRequest(env);
      if outcome.Rejected? {
        return;
      }
      outcome := Dispatch(Action(RequestSent, outcome.value), env.sentListen);
    }

    /** Waiting for the response while progress is reported; `requestEnded` is
        set once it is in. */
    method AwaitResponse(env: Env) returns (outcome: Settlement)
      modifies this
      ensures Step(Snapshot(), outcome) == ResponseStep(old(Snapshot()), env)
    {
      ReportProgress(env.sendingProgress);
      outcome := RaceAbortion(PerformSettles(env.perform), env.responseRace);
      if outcome.Fulfilled? {
        ended := true;
      }
    }

    /** `mapResponse(state, {setProgress})`, raced against the abortion. */
    method MapResponse(env: Env) returns (outcome: Settlement)
      requires ended
      modifies this
      ensures Step(Snapshot(), outcome) == MapResponseStep(old(Snapshot()), env)
    {
      var call := Lifecycle.MapResponse(env.response, state);
      log := log + [ResponseMapped(state)];
      if call.Throws? {
        return Rejected(call.error);
      }
      ReportProgress(env.mappingProgress);
      outcome := RaceAbortion(Settled(call), env.mappingRace);
    }

    method Receive(env: Env) returns (outcome: Settlement)
      modifies this
      ensures Step(Snapshot(), outcome) == ReceiveStages(old(Snapshot()), env)
    {
      outcome := AwaitResponse(env);
      if outcome.Rejected? {
        return;
      }
      outcome := Dispatch(Action(ResponseReceived, outcome.value), env.receivedListen);
      if outcome.Rejected? {
        return;
      }
      outcome := MapResponse(env);
      if outcome.Rejected? {
        return;
      }
      outcome := Dispatch(Action(RequestSucceeded, outcome.value), env.succeededListen);
    }

    /** The `try` block. */
    method Try(id: nat, env: Env) returns (outcome: Settlement)
      requires Snapshot() == Start
      modifies this
      ensures Step(Snapshot(), outcome) == TryStages(id, env)
    {
      outcome := Send(id, env);
      if outcome.Fulfilled? {
        outcome := Receive(env);
      }
    }

    /** The `catch` block for the caught value `rejected`. */
    method Catch(rejected: Value, flags: Flags, env: Env) returns (completion: Completion)
      modifies this
      ensures Outcome(Snapshot(), completion) == CatchStep(old(Snapshot()), rejected, flags, env)
    {
      ended := true;
      // not awaited: only a synchronous throw of the listener escapes
      var ignored := Dispatch(TerminalAction(rejected), env.terminalListen);
      if env.terminalListen.call.Throws? {
        return ThrowsError(env.terminalListen.call.error);
      }
      if IsAbortError(rejected) && flags.throwOnAbortions {
        return ThrowsState(state);
      }
      if !IsAbortError(rejected) && flags.throwOnRejections {
        return ThrowsState(state);
      }
      completion := Returns(state);
    }

    /** The body of `request(...args)`: the `try` block, then the `catch` block. */
    method Execute(id: nat, flags: Flags, env: Env) returns (completion: Completion)
      requires Snapshot() == Start
      modifies this
      ensures Outcome(Snapshot(), completion) == Run(id, flags, env)
    {
      var outcome := Try(id, env);
      if outcome.Fulfilled? {
        return Returns(state);
      }
      completion := Catch(outcome.reason, flags, env);
    }
  }

  /** The callback `useRequestInitiator` returns, with its request-id counter. */
  class Initiator {
    const flags: Flags
    var counter: nat

    constructor(flags: Flags)
      ensures this.flags == flags && counter == 0
    {
      this.flags := flags;
      counter := 0;
    }

    /** `request(...args)`: takes the next request id and runs one attempt. */
    method Request(env: Env) returns (completion: Completion, log: seq<Event>)
      modifies this
      ensures counter == old(counter) + 1
      ensures completion == Run(old(counter), flags, env).completion
      ensures log == Run(old(counter), flags, env).locals.log
    {
      var id := counter;
      counter := counter + 1;
      var attempt := new Attempt();
      completion := attempt.Execute(id, flags, env);
      log := attempt.log;
    }
  }

  // ---------------------------------------------------------------------
  // Properties of an attempt
  // ---------------------------------------------------------------------

  /** The two events a dispatch of `a` begins with. */
  lemma DispatchedPair(a: Action, s: State)
    ensures Dispatched([Reduced(a), Notified(s)]) == if a.kind.Progress? then [] else [a.kind]
  {
    assert [Reduced(a), Notified(s)][1..][1..] == [];
  }

  /** The aborter calls of a dispatch add no action type. */
  lemma DispatchedAborterRuns(l: Locals, listen: Listen)
    ensures Dispatched(AborterRuns(l, listen)) == []
  {
    var r := AborterRuns(l, listen);
    if r != [] {
      assert r[0] == AborterCalled;
      if |r| > 1 {
        assert r[1..] == [AborterCalled];
      } else {
        assert r[1..] == [];
      }
    }
  }

  /** A dispatch adds its own action type to the dispatched ones, and calls
      the aborter only through an abort before the end. */
  lemma DispatchLog(l: Locals, a: Action, listen: Listen)
    requires !a.kind.Progress?
    ensures var r := DispatchStep(l, a, listen);
      && Dispatched(r.locals.log) == Dispatched(l.log) + [a.kind]
      && (NoAborterCalls(l.log) && (l.ended || !l.aborter) ==> NoAborterCalls(r.locals.log))
  {
    var events := [Reduced(a), Notified(Reduce(l.state, a))];
    DispatchedAborterRuns(l, listen);
    DispatchedAppend(l.log + events, AborterRuns(l, listen));
    DispatchedAppend(l.log, events);
    DispatchedPair(a, Reduce(l.state, a));
  }

  /** The first two events of every attempt. */
  function Opening(id: nat, args: seq<Value>): seq<Event> {
    [Reduced(InitAction(id, args)), Notified(Reduce(map[], InitAction(id, args)))]
  }

  lemma DispatchExtends(l: Locals, a: Action, listen: Listen)
    ensures Extends(l.log, DispatchStep(l, a, listen).locals.log)
  {
    ExtendsTrans(l.log, l.log + [Reduced(a), Notified(Reduce(l.state, a))], DispatchStep(l, a, listen).locals.log);
  }

  lemma SendExtends(id: nat, env: Env)
    ensures Extends(Opening(id, env.args), SendStages(id, env).locals.log)
  {
    var first := Opening(id, env.args);
    var s1 := DispatchStep(Start, InitAction(id, env.args), env.initListen);
    if s1.outcome.Fulfilled? {
      var s2 := MapRequestStep(s1.locals, env);
      ExtendsTrans(first, s1.locals.log, s2.locals.log);
      if s2.outcome.Fulfilled? {
        var s3 := DispatchStep(s2.locals, Action(ParamsDefined, s2.outcome.value), env.paramsListen);
        DispatchExtends(s2.locals, Action(ParamsDefined, s2.outcome.value), env.paramsListen);
        ExtendsTrans(first, s2.locals.log, s3.locals.log);
        if s3.outcome.Fulfilled? {
          var s4 := PerformStep(s3.locals, env);
          ExtendsTrans(first, s3.locals.log, s4.locals.log);
          if s4.outcome.Fulfilled? {
            DispatchExtends(s4.locals, Action(RequestSent, s4.outcome.value), env.sentListen);
            ExtendsTrans(first, s4.locals.log,
                         DispatchStep(s4.locals, Action(RequestSent, s4.outcome.value), env.sentListen).locals.log);
          }
        }
      }
    }
  }

  lemma ReceiveExtends(l: Locals, env: Env)
    ensures Extends(l.log, ReceiveStages(l, env).locals.log)
  {
    var s6 := ResponseStep(l, env);
    if s6.outcome.Fulfilled? {
      var a7 := Action(ResponseReceived, s6.outcome.value);
      var s7 := DispatchStep(s6.locals, a7, env.receivedListen);
      DispatchExtends(s6.locals, a7, env.receivedListen);
      ExtendsTrans(l.log, s6.locals.log, s7.locals.log);
      if s7.outcome.Fulfilled? {
        var s8 := MapResponseStep(s7.locals, env);
        ExtendsTrans(s7.locals.log, s7.locals.log + [ResponseMapped(s7.locals.state)], s8.locals.log);
        ExtendsTrans(l.log, s7.locals.log, s8.locals.log);
        if s8.outcome.Fulfilled? {
          var a9 := Action(RequestSucceeded, s8.outcome.value);
          DispatchExtends(s8.locals, a9, env.succeededListen);
          ExtendsTrans(l.log, s8.locals.log, DispatchStep(s8.locals, a9, env.succeededListen).locals.log);
        }
      }
    }
  }

  /** The request id of the action a trace begins with, if it begins with one. */
  function InitialRequestId(log: seq<Event>): Option<Value> {
    if |log| > 0 && log[0].Reduced? && "requestId" in Spread(log[0].action.payload)
    then Some(Spread(log[0].action.payload)["requestId"])
    else None
  }

  /** Every call of `request` begins by reducing and reporting its `init`
      action, which carries the request id and the trigger arguments. */
  lemma InitComesFirst(id: nat, flags: Flags, env: Env)
    ensures var log := Run(id, flags, env).locals.log;
      && |log| >= 2 && log[0] == Reduced(InitAction(id, env.args))
      && log[1] == Notified(Reduce(map[], InitAction(id, env.args)))
      && InitialRequestId(log) == Some(Symbol(id))
  {
    RunExtendsOpening(id, flags, env);
    OpeningRequestId(id, env.args, Run(id, flags, env).locals.log);
  }

  lemma OpeningRequestId(id: nat, args: seq<Value>, log: seq<Event>)
    requires Extends(Opening(id, args), log)
    ensures |log| >= 2 && log[0] == Reduced(InitAction(id, args))
    ensures log[1] == Notified(Reduce(map[], InitAction(id, args)))
    ensures InitialRequestId(log) == Some(Symbol(id))
  {
    assert log[..2] == Opening(id, args);
    assert log[0] == log[..2][0] && log[1] == log[..2][1];
    assert Spread(log[0].action.payload)["requestId"] == Symbol(id);
  }

  /** Every trace begins with the opening pair. */
  lemma RunExtendsOpening(id: nat, flags: Flags, env: Env)
    ensures Extends(Opening(id, env.args), Run(id, flags, env).locals.log)
  {
    var first := Opening(id, env.args);
    SendExtends(id, env);
    var sent := SendStages(id, env);
    var t := TryStages(id, env);
    if sent.outcome.Fulfilled? {
      ReceiveExtends(sent.locals, env);
      ExtendsTrans(first, sent.locals.log, t.locals.log);
    }
    assert Extends(first, t.locals.log);
    if t.outcome.Rejected? {
      var o := CatchStep(t.locals, t.outcome.reason, flags, env);
      assert o.locals.log[..|t.locals.log|] == t.locals.log;
      ExtendsTrans(first, t.locals.log, o.locals.log);
    }
  }

  /** Two calls of one initiator take different counter values, so their
      `init` actions carry different request ids. */
  lemma DistinctCountersDistinctIds(i: nat, j: nat, flags: Flags, env1: Env, env2: Env)
    requires i != j
    ensures InitialRequestId(Run(i, flags, env1).locals.log) != InitialRequestId(Run(j, flags, env2).locals.log)
  {
    InitComesFirst(i, flags, env1);
    InitComesFirst(j, flags, env2);
  }

  /** A listener call that neither aborts nor fails. */
  predicate Calm(listen: Listen) {
    Quiet(listen) && listen.call.Fulfils?
  }

  /** A listener call that does not abort and does not throw; what it returns
      may still reject. */
  predicate Quiet(listen: Listen) {
    !listen.abortInside && !listen.race.abortCalled && !listen.call.Throws?
  }

  /** The parameters the `request` option yields when it does not fail. */
  function Params(env: Env): Value
    requires env.request.RequestFn? ==> env.request.result.Fulfils?
  {
    if env.request.RequestValue? then env.request.params else env.request.result.value
  }

  /** Up to `request_sent` nothing aborts or fails, and `performRequest` returns. */
  predicate SendsCalmly(env: Env) {
    && Calm(env.initListen) && Calm(env.paramsListen) && Calm(env.sentListen)
    && !env.requestRace.abortCalled
    && (env.request.RequestFn? ==> env.request.result.Fulfils?)
    && (env.perform.CustomPerform? ==> env.perform.call.result.Returned?)
    && (env.perform.DefaultPerform? ==> Truthy(Params(env)))
  }

  /** What `performRequest` returns when it does not throw. */
  function Requested(env: Env): Value
    requires env.perform.CustomPerform? ==> env.perform.call.result.Returned?
  {
    if env.perform.DefaultPerform? then env.perform.fetched else env.perform.call.result.value
  }

  /** Whether `performRequest` registers an aborter when it does not throw. */
  predicate Registers(env: Env) {
    env.perform.DefaultPerform? || env.perform.call.registers
  }

  /** The state after `init`, `params_defined` and `request_sent`. */
  function SentState(id: nat, env: Env): State
    requires SendsCalmly(env)
  {
    var s1 := Reduce(map[], InitAction(id, env.args));
    var s3 := Reduce(s1, Action(ParamsDefined, Params(env)));
    Reduce(s3, Action(RequestSent, Requested(env)))
  }

  lemma AfterPerformCalm(s4: Step, env: Env)
    requires s4.outcome.Fulfilled? && !s4.locals.signalled && !s4.locals.ended && Calm(env.sentListen)
    ensures var r := AfterPerform(s4, env);
      && r.outcome.Fulfilled? && !r.locals.ended && !r.locals.signalled && r.locals.aborter == s4.locals.aborter
      && r.locals.state == Reduce(s4.locals.state, Action(RequestSent, s4.outcome.value))
      && Dispatched(r.locals.log) == Dispatched(s4.locals.log) + [RequestSent]
      && (NoAborterCalls(s4.locals.log) ==> NoAborterCalls(r.locals.log))
  {
    DispatchLog(s4.locals, Action(RequestSent, s4.outcome.value), env.sentListen);
  }

  lemma AfterParamsCalm(s3: Step, env: Env)
    requires s3.outcome.Fulfilled? && !s3.locals.signalled && !s3.locals.ended && Calm(env.sentListen)
    requires Perform(env.perform, s3.locals.state).result.Returned?
    ensures var p := Perform(env.perform, s3.locals.state);
      var r := AfterParams(s3, env);
      && r.outcome.Fulfilled? && !r.locals.ended && !r.locals.signalled
      && r.locals.aborter == (s3.locals.aborter || p.registers)
      && r.locals.state == Reduce(s3.locals.state, Action(RequestSent, p.result.value))
      && Dispatched(r.locals.log) == Dispatched(s3.locals.log) + [RequestSent]
      && (NoAborterCalls(s3.locals.log) ==> NoAborterCalls(r.locals.log))
  {
    var s4 := PerformStep(s3.locals, env);
    DispatchedSkip(s3.locals.log, Performed(s3.locals.state));
    DispatchLog(s4.locals, Action(RequestSent, s4.outcome.value), env.sentListen);
  }

  lemma AfterMapRequestCalm(s2: Step, env: Env)
    requires s2.outcome.Fulfilled? && !s2.locals.signalled && !s2.locals.ended
    requires Calm(env.paramsListen) && Calm(env.sentListen)
    requires Perform(env.perform, Reduce(s2.locals.state, Action(ParamsDefined, s2.outcome.value))).result.Returned?
    ensures var s := Reduce(s2.locals.state, Action(ParamsDefined, s2.outcome.value));
      var p := Perform(env.perform, s);
      var r := AfterMapRequest(s2, env);
      && r.outcome.Fulfilled? && !r.locals.ended && !r.locals.signalled
      && r.locals.aborter == (s2.locals.aborter || p.registers)
      && r.locals.state == Reduce(s, Action(RequestSent, p.result.value))
      && Dispatched(r.locals.log) == Dispatched(s2.locals.log) + [ParamsDefined, RequestSent]
      && (NoAborterCalls(s2.locals.log) && !s2.locals.aborter ==> NoAborterCalls(r.locals.log))
  {
    var a3 := Action(ParamsDefined, s2.outcome.value);
    var s3 := DispatchStep(s2.locals, a3, env.paramsListen);
    DispatchLog(s2.locals, a3, env.paramsListen);
    AfterParamsCalm(s3, env);
  }

  lemma AfterInitCalm(s1: Step, env: Env)
    requires s1.outcome.Fulfilled? && !s1.locals.signalled && !s1.locals.ended && !s1.locals.aborter
    requires Calm(env.paramsListen) && Calm(env.sentListen) && !env.requestRace.abortCalled
    requires env.request.RequestFn? ==> env.request.result.Fulfils?
    requires Perform(env.perform, Reduce(s1.locals.state, Action(ParamsDefined, Params(env)))).result.Returned?
    ensures var s := Reduce(s1.locals.state, Action(ParamsDefined, Params(env)));
      var p := Perform(env.perform, s);
      var r := AfterInit(s1, env);
      && r.outcome.Fulfilled? && !r.locals.ended && !r.locals.signalled
      && r.locals.aborter == p.registers
      && r.locals.state == Reduce(s, Action(RequestSent, p.result.value))
      && Dispatched(r.locals.log) == Dispatched(s1.locals.log) + [ParamsDefined, RequestSent]
      && (NoAborterCalls(s1.locals.log) ==> NoAborterCalls(r.locals.log))
  {
    var s2 := MapRequestStep(s1.locals, env);
    if env.request.RequestFn? {
      DispatchedSkip(s1.locals.log, RequestMapped(env.args));
    }
    assert s2.outcome == Fulfilled(Params(env));
    AfterMapRequestCalm(s2, env);
  }

  lemma ParamsDefinedHoldsParams(s: State, params: Value)
    ensures Get(Reduce(s, Action(ParamsDefined, params)), "params") == params
  {
  }

  /** Up to `request_sent`, with nothing aborting or failing. */
  lemma SendCalm(id: nat, env: Env)
    requires SendsCalmly(env)
    ensures var r := SendStages(id, env);
      && r.outcome.Fulfilled? && !r.locals.ended && !r.locals.signalled
      && r.locals.aborter == Registers(env) && r.locals.state == SentState(id, env)
      && Dispatched(r.locals.log) == [Init, ParamsDefined, RequestSent]
      && NoAborterCalls(r.locals.log)
  {
    var s1 := DispatchStep(Start, InitAction(id, env.args), env.initListen);
    DispatchLog(Start, InitAction(id, env.args), env.initListen);
    assert Dispatched(Start.log) == [];
    assert Dispatched(s1.locals.log) == [Init];
    ParamsDefinedHoldsParams(s1.locals.state, Params(env));
    AfterInitCalm(s1, env);
    assert [Init] + [ParamsDefined, RequestSent] == [Init, ParamsDefined, RequestSent];
  }

  /** After `request_sent`, nothing aborts or fails up to the `request_succeeded` report. */
  predicate ReceivesCalmly(env: Env) {
    && !env.responseRace.abortCalled && PerformSettles(env.perform).Fulfilled?
    && Calm(env.receivedListen)
    && !env.mappingRace.abortCalled
    && (env.response.CustomResponse? ==> env.response.call.Fulfils?)
    && (env.response.DefaultResponse? ==>
          PerformSettles(env.perform).value.Response? && PerformSettles(env.perform).value.ok)
  }

  /** What the response mapping fulfils with. */
  function Resolution(env: Env): Value
    requires ReceivesCalmly(env)
  {
    if env.response.CustomResponse? then env.response.call.value
    else PerformSettles(env.perform).value.body
  }

  lemma AfterMapResponseCalm(s8: Step, env: Env)
    requires s8.outcome.Fulfilled? && s8.locals.ended && Quiet(env.succeededListen)
    ensures var r := AfterMapResponse(s8, env);
      && r.outcome == Settled(env.succeededListen.call) && r.locals.ended && r.locals.aborter == s8.locals.aborter
      && Dispatched(r.locals.log) == Dispatched(s8.locals.log) + [RequestSucceeded]
      && (NoAborterCalls(s8.locals.log) ==> NoAborterCalls(r.locals.log))
      && HasStatus(r.locals.state, "resolved") && Get(r.locals.state, "pending") == Bool(false)
      && Get(r.locals.state, "resolved") == s8.outcome.value
  {
    DispatchLog(s8.locals, Action(RequestSucceeded, s8.outcome.value), env.succeededListen);
  }

  lemma AfterReceivedCalm(s7: Step, env: Env)
    requires s7.outcome.Fulfilled? && s7.locals.ended && !s7.locals.signalled
    requires Quiet(env.succeededListen) && !env.mappingRace.abortCalled
    requires MapResponse(env.response, s7.locals.state).Fulfils?
    ensures var r := AfterReceived(s7, env);
      && r.outcome == Settled(env.succeededListen.call) && r.locals.ended && r.locals.aborter == s7.locals.aborter
      && Dispatched(r.locals.log) == Dispatched(s7.locals.log) + [RequestSucceeded]
      && (NoAborterCalls(s7.locals.log) ==> NoAborterCalls(r.locals.log))
      && HasStatus(r.locals.state, "resolved") && Get(r.locals.state, "pending") == Bool(false)
      && Get(r.locals.state, "resolved") == MapResponse(env.response, s7.locals.state).value
  {
    var s8 := MapResponseStep(s7.locals, env);
    AfterMapResponseCalm(s8, env);
  }

  lemma AfterResponseCalm(s6: Step, env: Env)
    requires s6.outcome.Fulfilled? && s6.locals.ended && !s6.locals.signalled
    requires Calm(env.receivedListen) && Quiet(env.succeededListen) && !env.mappingRace.abortCalled
    requires MapResponse(env.response, Reduce(s6.locals.state, Action(ResponseReceived, s6.outcome.value))).Fulfils?
    ensures var r := AfterResponse(s6, env);
      && r.outcome == Settled(env.succeededListen.call) && r.locals.ended && r.locals.aborter == s6.locals.aborter
      && Dispatched(r.locals.log) == Dispatched(s6.locals.log) + [ResponseReceived, RequestSucceeded]
      && (NoAborterCalls(s6.locals.log) ==> NoAborterCalls(r.locals.log))
    ensures var r := AfterResponse(s6, env);
      && HasStatus(r.locals.state, "resolved") && Get(r.locals.state, "pending") == Bool(false)
      && Get(r.locals.state, "resolved") ==
           MapResponse(env.response, Reduce(s6.locals.state, Action(ResponseReceived, s6.outcome.value))).value
  {
    var a7 := Action(ResponseReceived, s6.outcome.value);
    var s7 := DispatchStep(s6.locals, a7, env.receivedListen);
    DispatchLog(s6.locals, a7, env.receivedListen);
    AfterReceivedCalm(s7, env);
  }

  /** From the response on, with nothing aborting or failing. */
  lemma ReceiveCalm(l: Locals, env: Env)
    requires ReceivesCalmly(env) && Quiet(env.succeededListen) && !l.signalled && !l.ended
    ensures var r := ReceiveStages(l, env);
      && r.outcome == Settled(env.succeededListen.call) && r.locals.ended && r.locals.aborter == l.aborter
      && Dispatched(r.locals.log) == Dispatched(l.log) + [ResponseReceived, RequestSucceeded]
      && (NoAborterCalls(l.log) ==> NoAborterCalls(r.locals.log))
      && HasStatus(r.locals.state, "resolved") && Get(r.locals.state, "pending") == Bool(false)
      && Get(r.locals.state, "resolved") == Resolution(env)
  {
    var s6 := ResponseStep(l, env);
    var s := Reduce(s6.locals.state, Action(ResponseReceived, s6.outcome.value));
    assert Get(s, "responded") == PerformSettles(env.perform).value;
    AfterResponseCalm(s6, env);
  }

  /** The success path: the five lifecycle actions in order, no aborter call,
      and the final state, resolved and no longer pending, is returned. */
  lemma SuccessPath(id: nat, flags: Flags, env: Env)
    requires SendsCalmly(env) && ReceivesCalmly(env) && Calm(env.succeededListen)
    ensures var o := Run(id, flags, env);
      && o.completion == Returns(o.locals.state)
      && Dispatched(o.locals.log) ==
           [Init, ParamsDefined, RequestSent, ResponseReceived, RequestSucceeded]
      && NoAborterCalls(o.locals.log)
      && HasStatus(o.locals.state, "resolved") && Get(o.locals.state, "pending") == Bool(false)
      && Get(o.locals.state, "resolved") == Resolution(env)
  {
    TryCalm(id, env);
    LifecycleOrder();
  }

  /** The five lifecycle action types, joined from the sending and the receiving half. */
  lemma LifecycleOrder()
    ensures [Init, ParamsDefined, RequestSent] + [ResponseReceived, RequestSucceeded] ==
            [Init, ParamsDefined, RequestSent, ResponseReceived, RequestSucceeded]
  {
  }

  /** The `try` block when nothing aborts or fails. */
  lemma TryCalm(id: nat, env: Env)
    requires SendsCalmly(env) && ReceivesCalmly(env) && Calm(env.succeededListen)
    ensures var t := TryStages(id, env);
      && t.outcome.Fulfilled?
      && Dispatched(t.locals.log) == [Init, ParamsDefined, RequestSent] + [ResponseReceived, RequestSucceeded]
      && NoAborterCalls(t.locals.log)
      && HasStatus(t.locals.state, "resolved") && Get(t.locals.state, "pending") == Bool(false)
      && Get(t.locals.state, "resolved") == Resolution(env)
  {
    SendCalm(id, env);
    var sent := SendStages(id, env);
    ReceiveCalm(sent.locals, env);
  }

  /** The `catch` block adds its terminal action to the dispatched ones and
      never calls the aborter. */
  lemma CatchLog(l: Locals, e: Value, flags: Flags, env: Env)
    ensures var o := CatchStep(l, e, flags, env);
      && Dispatched(o.locals.log) == Dispatched(l.log) + [TerminalAction(e).kind]
      && (AborterCalled in o.locals.log <==> AborterCalled in l.log)
  {
    DispatchLog(l.(ended := true), TerminalAction(e), env.terminalListen);
  }

  /** A `try` block that fails with anything but an AbortError ends with
      `request_failed`: the resolution so far is kept, and the state is
      thrown only under `throwOnRejections`. */
  lemma RunFails(id: nat, flags: Flags, env: Env)
    requires TryStages(id, env).outcome.Rejected? && !IsAbortError(TryStages(id, env).outcome.reason)
    requires !env.terminalListen.call.Throws?
    ensures var t := TryStages(id, env); var o := Run(id, flags, env);
      && Dispatched(o.locals.log) == Dispatched(t.locals.log) + [RequestFailed]
      && (AborterCalled in o.locals.log <==> AborterCalled in t.locals.log)
      && HasStatus(o.locals.state, "rejected") && Get(o.locals.state, "rejected") == t.outcome.reason
      && Get(o.locals.state, "resolved") == Get(t.locals.state, "resolved")
      && o.completion == (if flags.throwOnRejections then ThrowsState(o.locals.state) else Returns(o.locals.state))
  {
    var t := TryStages(id, env);
    assert Run(id, flags, env) == CatchStep(t.locals, t.outcome.reason, flags, env);
    CatchLog(t.locals, t.outcome.reason, flags, env);
    CaughtFailure(t.locals, t.outcome.reason, flags, env);
  }

  /** What `request_failed` leaves in the state of the `catch` block. */
  lemma CaughtFailure(l: Locals, e: Value, flags: Flags, env: Env)
    requires !IsAbortError(e)
    ensures var r := CatchStep(l, e, flags, env).locals.state;
      && HasStatus(r, "rejected") && Get(r, "rejected") == e
      && Get(r, "resolved") == Get(l.state, "resolved")
  {
    assert TerminalAction(e) == Action(RequestFailed, e);
    FailureKeepsResolution(l.state, e);
  }

  /** The `try` block when `abort()` is called while the response is awaited
      and the abortion settles the race first. */
  lemma TryAbortedAwaitingResponse(id: nat, env: Env)
    requires SendsCalmly(env) && env.responseRace == Race(true, true)
    ensures var t := TryStages(id, env);
      && t.outcome == Rejected(AbortErrorValue)
      && Dispatched(t.locals.log) == [Init, ParamsDefined, RequestSent]
      && (Registers(env) <==> AborterCalled in t.locals.log)
  {
    SendCalm(id, env);
    var sent := SendStages(id, env);
    var progressed := ProgressStep(sent.locals, env.sendingProgress);
    if Registers(env) {
      DispatchedSkip(progressed.log, AborterCalled);
      assert ResponseStep(sent.locals, env).locals.log[|progressed.log|] == AborterCalled;
    }
  }

  /** An `abort()` while the response is awaited, settling the race first:
      the registered aborter runs, the attempt dispatches `request_aborted`
      in place of the response, and ends with the bare aborted state. */
  lemma AbortWhileAwaitingResponse(id: nat, flags: Flags, env: Env)
    requires SendsCalmly(env) && env.responseRace == Race(true, true)
    requires !env.terminalListen.call.Throws?
    ensures var o := Run(id, flags, env);
      && o.locals.state == Aborted()
      && o.completion == (if flags.throwOnAbortions then ThrowsState(Aborted()) else Returns(Aborted()))
      && Dispatched(o.locals.log) == [Init, ParamsDefined, RequestSent] + [RequestAborted]
      && (Registers(env) <==> AborterCalled in o.locals.log)
  {
    TryAbortedAwaitingResponse(id, env);
    var t := TryStages(id, env);
    CatchLog(t.locals, AbortErrorValue, flags, env);
  }

  /** The parameters are defined, and then the default `performRequest` throws. */
  lemma ParamsRefused(s2: Step, env: Env)
    requires s2.outcome.Fulfilled? && !s2.locals.signalled && !s2.locals.ended && Calm(env.paramsListen)
    requires env.perform.DefaultPerform? && !Truthy(s2.outcome.value)
    ensures var r := AfterMapRequest(s2, env);
      && r.outcome == Rejected(InvalidParamsError)
      && Dispatched(r.locals.log) == Dispatched(s2.locals.log) + [ParamsDefined]
  {
    var a3 := Action(ParamsDefined, s2.outcome.value);
    var s3 := DispatchStep(s2.locals, a3, env.paramsListen);
    DispatchLog(s2.locals, a3, env.paramsListen);
    DispatchedSkip(s3.locals.log, Performed(s3.locals.state));
  }

  /** The `try` block when the parameters are not truthy and the default
      `performRequest` is used. */
  lemma TryMissingParams(id: nat, env: Env)
    requires Calm(env.initListen) && Calm(env.paramsListen) && !env.requestRace.abortCalled
    requires env.request.RequestFn? ==> env.request.result.Fulfils?
    requires env.perform.DefaultPerform? && !Truthy(Params(env))
    ensures var t := TryStages(id, env);
      && t.outcome == Rejected(InvalidParamsError)
      && Dispatched(t.locals.log) == [Init] + [ParamsDefined]
  {
    SendMissingParams(id, env);
  }

  lemma SendMissingParams(id: nat, env: Env)
    requires Calm(env.initListen) && Calm(env.paramsListen) && !env.requestRace.abortCalled
    requires env.request.RequestFn? ==> env.request.result.Fulfils?
    requires env.perform.DefaultPerform? && !Truthy(Params(env))
    ensures var r := SendStages(id, env);
      && r.outcome == Rejected(InvalidParamsError)
      && Dispatched(r.locals.log) == [Init] + [ParamsDefined]
  {
    var s1 := DispatchStep(Start, InitAction(id, env.args), env.initListen);
    DispatchLog(Start, InitAction(id, env.args), env.initListen);
    assert Dispatched(Start.log) == [];
    assert Dispatched(s1.locals.log) == [Init];
    AfterInitRefused(s1, env);
  }

  lemma AfterInitRefused(s1: Step, env: Env)
    requires s1.outcome.Fulfilled? && !s1.locals.signalled && !s1.locals.ended
    requires Calm(env.paramsListen) && !env.requestRace.abortCalled
    requires env.request.RequestFn? ==> env.request.result.Fulfils?
    requires env.perform.DefaultPerform? && !Truthy(Params(env))
    ensures var r := AfterInit(s1, env);
      && r.outcome == Rejected(InvalidParamsError)
      && Dispatched(r.locals.log) == Dispatched(s1.locals.log) + [ParamsDefined]
  {
    var s2 := MapRequestStep(s1.locals, env);
    if env.request.RequestFn? {
      DispatchedSkip(s1.locals.log, RequestMapped(env.args));
    }
    ParamsRefused(s2, env);
  }

  /** The default `performRequest` refuses a state without truthy `params`:
      the attempt fails before anything is sent. */
  lemma MissingParamsFail(id: nat, flags: Flags, env: Env)
    requires Calm(env.initListen) && Calm(env.paramsListen) && !env.requestRace.abortCalled
    requires env.request.RequestFn? ==> env.request.result.Fulfils?
    requires env.perform.DefaultPerform? && !Truthy(Params(env))
    requires !env.terminalListen.call.Throws?
    ensures var o := Run(id, flags, env);
      && Dispatched(o.locals.log) == [Init] + [ParamsDefined] + [RequestFailed]
      && HasStatus(o.locals.state, "rejected") && Get(o.locals.state, "rejected") == InvalidParamsError
      && o.completion == (if flags.throwOnRejections then ThrowsState(o.locals.state) else Returns(o.locals.state))
  {
    TryMissingParams(id, env);
    RunFails(id, flags, env);
  }

  /** The `try` block when only the listener's result for the `request_succeeded`
      report rejects. */
  lemma TrySucceededThenRejected(id: nat, env: Env, e: Value)
    requires SendsCalmly(env) && ReceivesCalmly(env)
    requires env.succeededListen == Listen(false, Rejects(e), Race(false, false))
    ensures var t := TryStages(id, env);
      && t.outcome == Rejected(e)
      && Dispatched(t.locals.log) == [Init, ParamsDefined, RequestSent] + [ResponseReceived, RequestSucceeded]
      && Get(t.locals.state, "resolved") == Resolution(env)
  {
    SendCalm(id, env);
    ReceiveCalm(SendStages(id, env).locals, env);
  }

  /** A listener whose result for the `request_succeeded` report rejects makes
      the attempt also dispatch `request_failed`: two terminal actions, and the
      failed state keeps the resolution. */
  lemma SucceededThenFailed(id: nat, flags: Flags, env: Env, e: Value)
    requires SendsCalmly(env) && ReceivesCalmly(env)
    requires env.succeededListen == Listen(false, Rejects(e), Race(false, false)) && !IsAbortError(e)
    requires !env.terminalListen.call.Throws?
    ensures var o := Run(id, flags, env);
      && Dispatched(o.locals.log) ==
           [Init, ParamsDefined, RequestSent] + [ResponseReceived, RequestSucceeded] + [RequestFailed]
      && HasStatus(o.locals.state, "rejected") && Get(o.locals.state, "rejected") == e
      && Get(o.locals.state, "resolved") == Resolution(env)
  {
    TrySucceededThenRejected(id, env, e);
    RunFails(id, flags, env);
  }

  /** The environment with every `abort()` call after the response removed:
      those asked for by the later listener calls and while the response is mapped. */
  function Quieted(env: Env): (q: Env)
    ensures q.args == env.args && q.initListen == env.initListen && q.request == env.request
    ensures q.requestRace == env.requestRace && q.paramsListen == env.paramsListen
    ensures q.perform == env.perform && q.sentListen == env.sentListen
    ensures q.sendingProgress == env.sendingProgress && q.responseRace == env.responseRace
    ensures q.response == env.response && q.mappingProgress == env.mappingProgress
    ensures !q.mappingRace.abortCalled && q.mappingRace.abortFirst == env.mappingRace.abortFirst
    ensures Silent(q.receivedListen, env.receivedListen) && Silent(q.succeededListen, env.succeededListen)
    ensures Silent(q.terminalListen, env.terminalListen)
  {
    env.(receivedListen := Silenced(env.receivedListen),
         succeededListen := Silenced(env.succeededListen),
         terminalListen := Silenced(env.terminalListen),
         mappingRace := env.mappingRace.(abortCalled := false))
  }

  /** A listener call with its `abort()` calls removed. */
  function Silenced(listen: Listen): Listen {
    listen.(abortInside := false, race := listen.race.(abortCalled := false))
  }

  /** `q` is `listen` without its `abort()` calls. */
  predicate Silent(q: Listen, listen: Listen) {
    !q.abortInside && !q.race.abortCalled && q.call == listen.call && q.race.abortFirst == listen.race.abortFirst
  }

  /** After the end, a dispatch does not depend on the listener's `abort()` calls. */
  lemma DispatchAfterEnd(l: Locals, a: Action, q: Listen, listen: Listen)
    requires l.ended && Silent(q, listen)
    ensures DispatchStep(l, a, listen) == DispatchStep(l, a, q)
  {
  }

  lemma AfterMapResponseIgnoresAborts(s8: Step, env: Env)
    requires s8.outcome.Fulfilled? ==> s8.locals.ended
    ensures AfterMapResponse(s8, env) == AfterMapResponse(s8, Quieted(env))
  {
    if s8.outcome.Fulfilled? {
      DispatchAfterEnd(s8.locals, Action(RequestSucceeded, s8.outcome.value),
                       Quieted(env).succeededListen, env.succeededListen);
    }
  }

  lemma AfterReceivedIgnoresAborts(s7: Step, env: Env)
    requires s7.outcome.Fulfilled? ==> s7.locals.ended
    ensures AfterReceived(s7, env) == AfterReceived(s7, Quieted(env))
  {
    if s7.outcome.Fulfilled? {
      var s8 := MapResponseStep(s7.locals, env);
      assert s8 == MapResponseStep(s7.locals, Quieted(env));
      AfterMapResponseIgnoresAborts(s8, env);
    }
  }

  lemma ReceiveIgnoresAborts(l: Locals, env: Env)
    ensures ReceiveStages(l, env) == ReceiveStages(l, Quieted(env))
  {
    var s6 := ResponseStep(l, env);
    assert s6 == ResponseStep(l, Quieted(env));
    if s6.outcome.Fulfilled? {
      var a7 := Action(ResponseReceived, s6.outcome.value);
      DispatchAfterEnd(s6.locals, a7, Quieted(env).receivedListen, env.receivedListen);
      AfterReceivedIgnoresAborts(DispatchStep(s6.locals, a7, env.receivedListen), env);
    }
  }

  lemma SendIgnoresLaterAborts(id: nat, env: Env)
    ensures SendStages(id, env) == SendStages(id, Quieted(env))
  {
    var q := Quieted(env);
    var s1 := DispatchStep(Start, InitAction(id, env.args), env.initListen);
    if s1.outcome.Fulfilled? {
      var s2 := MapRequestStep(s1.locals, env);
      assert s2 == MapRequestStep(s1.locals, q);
      if s2.outcome.Fulfilled? {
        var s3 := DispatchStep(s2.locals, Action(ParamsDefined, s2.outcome.value), env.paramsListen);
        if s3.outcome.Fulfilled? {
          var s4 := PerformStep(s3.locals, env);
          assert s4 == PerformStep(s3.locals, q);
          assert AfterPerform(s4, env) == AfterPerform(s4, q);
        }
        assert AfterParams(s3, env) == AfterParams(s3, q);
      }
      assert AfterMapRequest(s2, env) == AfterMapRequest(s2, q);
    }
    assert AfterInit(s1, env) == AfterInit(s1, q);
  }

  /** Once the response is in, `abort()` does nothing: aborts asked for by the
      later listener calls or while the response is mapped leave the attempt
      exactly as it would have been. */
  lemma AbortsAfterResponseIgnored(id: nat, flags: Flags, env: Env)
    ensures Run(id, flags, env) == Run(id, flags, Quieted(env))
  {
    SendIgnoresLaterAborts(id, env);
    var sent := SendStages(id, env);
    if sent.outcome.Fulfilled? {
      ReceiveIgnoresAborts(sent.locals, env);
    }
    var t := TryStages(id, env);
    assert t == TryStages(id, Quieted(env));
    if t.outcome.Rejected? {
      DispatchAfterEnd(t.locals.(ended := true), TerminalAction(t.outcome.reason),
                       Quieted(env).terminalListen, env.terminalListen);
    }
  }
}
