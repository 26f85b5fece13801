/** What the two attempt engines (src/useRequestInitiator.js and
    src/useRequestFactory.js) share: the outcomes of the caller-supplied
    functions they call, the default `mapRequest`, `performRequest` and
    `mapResponse`, the trace an attempt leaves, and how it ends. */
module Lifecycle {
  import opened Values
  import opened RequestStateReducer

  /** How a promise (or an awaited value) settles. */
  datatype Settlement = Fulfilled(value: Value) | Rejected(reason: Value)

  /** What a call of a caller-supplied function does: it throws synchronously,
      or it returns something that fulfils or rejects once awaited. */
  datatype Call = Throws(error: Value) | Fulfils(value: Value) | Rejects(reason: Value)

  /** How an awaited call settles, when it did not throw synchronously. */
  function Settled(c: Call): (s: Settlement)
    requires !c.Throws?
    ensures c.Fulfils? <==> s.Fulfilled?
    ensures s.Fulfilled? ==> s.value == c.value
    ensures s.Rejected? ==> s.reason == c.reason
  {
    if c.Fulfils? then Fulfilled(c.value) else Rejected(c.reason)
  }

  /** The `request` option: a function of the trigger arguments, or the
      parameters themselves (anything that is not a function). */
  datatype RequestOption = RequestFn(result: Call) | RequestValue(params: Value)

  /** The default `request` option, `payload => payload`, called with the
      trigger arguments: the first argument, `undefined` when there is none. */
  function DefaultMapRequest(args: seq<Value>): (r: Value)
    ensures |args| > 0 ==> r == args[0]
    ensures |args| == 0 ==> r.Undefined?
  {
    if |args| > 0 then args[0] else Undefined
  }

  /** The default `request` option as an outcome: it never throws or rejects. */
  function DefaultRequest(args: seq<Value>): (o: RequestOption)
    ensures o.RequestFn? && o.result == Fulfils(DefaultMapRequest(args))
  {
    RequestFn(Fulfils(DefaultMapRequest(args)))
  }

  /** One call of `performRequest`: whether it registers an aborter, what it
      returns synchronously (the request promise) or throws, and how the
      returned promise settles. */
  datatype Performer = Performer(registers: bool, result: Sync, settles: Settlement)

  /** The `perform` option: the default `fetch`-based one, given what `fetch`
      returns and how that settles, or the caller's own. */
  datatype PerformOption = DefaultPerform(fetched: Value, settles: Settlement) | CustomPerform(call: Performer)

  const InvalidParamsError: Value := Err("Error", "useRequest: Invalid request parameters.")

  /** `defaultPerformRequest`: a state without truthy `params` is refused
      before anything else happens; otherwise the aborter is registered and
      the `fetch` promise returned. */
  function DefaultPerformRequest(state: State, fetched: Value, settles: Settlement): (p: Performer)
    ensures p.result.Threw? <==> !Truthy(Get(state, "params"))
    ensures p.result.Threw? ==> p.result.error == InvalidParamsError && !p.registers
    ensures p.result.Returned? ==> p.registers && p.result.value == fetched && p.settles == settles
  {
    if !Truthy(Get(state, "params")) then Performer(false, Threw(InvalidParamsError), settles)
    else Performer(true, Returned(fetched), settles)
  }

  /** The performer an option yields for the state it is called with. */
  function Perform(o: PerformOption, state: State): (p: Performer)
    ensures o.DefaultPerform? ==> p == DefaultPerformRequest(state, o.fetched, o.settles)
    ensures o.CustomPerform? ==> p == o.call
  {
    match o
    case DefaultPerform(fetched, settles) => DefaultPerformRequest(state, fetched, settles)
    case CustomPerform(call) => call
  }

  /** How the request promise of a `perform` option settles. */
  function PerformSettles(o: PerformOption): (s: Settlement)
    ensures forall state :: Perform(o, state).settles == s
  {
    if o.DefaultPerform? then o.settles else o.call.settles
  }

  /** The `response` option: the default JSON mapping or the caller's own. */
  datatype ResponseOption = DefaultResponse | CustomResponse(call: Call)

  /** `defaultMapResponse(requestState)`: an async function, so it never throws
      synchronously. It fulfils with the parsed body of an ok response, rejects
      with that body otherwise, and rejects with a TypeError when
      `state.responded` is not a response at all. */
  function DefaultMapResponse(state: State): (c: Call)
    ensures !c.Throws?
    ensures c.Fulfils? <==> Get(state, "responded").Response? && Get(state, "responded").ok
    ensures c.Fulfils? ==> c.value == Get(state, "responded").body
    ensures Get(state, "responded").Response? && !Get(state, "responded").ok ==>
      c == Rejects(Get(state, "responded").body)
    ensures !Get(state, "responded").Response? ==> c == Rejects(TypeErrorValue)
  {
    var responded := Get(state, "responded");
    if !responded.Response? then Rejects(TypeErrorValue)
    else if responded.ok then Fulfils(responded.body)
    else Rejects(responded.body)
  }

  /** The call an option makes for the state it is called with. */
  function MapResponse(o: ResponseOption, state: State): (c: Call)
    ensures o.DefaultResponse? ==> c == DefaultMapResponse(state)
    ensures o.CustomResponse? ==> c == o.call
  {
    match o
    case DefaultResponse => DefaultMapResponse(state)
    case CustomResponse(call) => call
  }

  /** What an attempt does, in order, as seen from outside. */
  datatype Event =
    | Reduced(action: Action)         // the reducer ran on this action
    | Notified(state: State)          // the listener was called with this state
    | AborterCalled                   // the aborter registered by `performRequest` ran
    | RequestMapped(args: seq<Value>) // the `request` function was called with these arguments
    | Performed(state: State)         // `performRequest` was called with this state
    | ResponseMapped(state: State)    // the `response` function was called with this state

  /** The `throwOnAbortions` and `throwOnRejections` options. */
  datatype Flags = Flags(throwOnAbortions: bool, throwOnRejections: bool)

  /** How `request(...args)` ends: it resolves with the last state, rejects with
      it (`throwOnAbortions`/`throwOnRejections`), or rejects with an error
      thrown while reporting the terminal state. */
  datatype Completion = Returns(state: State) | ThrowsState(state: State) | ThrowsError(error: Value)

  /** The lifecycle action types the reducer received, in order, progress reports left out. */
  function Dispatched(log: seq<Event>): (kinds: seq<Kind>)
    ensures |kinds| <= |log|
    ensures Progress !in kinds
  {
    if log == [] then []
    else if log[0].Reduced? && !log[0].action.kind.Progress? then [log[0].action.kind] + Dispatched(log[1..])
    else Dispatched(log[1..])
  }

  lemma {:induction false} DispatchedAppend(a: seq<Event>, b: seq<Event>)
    ensures Dispatched(a + b) == Dispatched(a) + Dispatched(b)
  {
    if a != [] {
      assert (a + b)[0] == a[0];
      assert (a + b)[1..] == a[1..] + b;
      DispatchedAppend(a[1..], b);
    } else {
      assert a + b == b;
    }
  }

  /** No event of the trace called the aborter. */
  predicate NoAborterCalls(log: seq<Event>) {
    AborterCalled !in log
  }

  /** `a` is a prefix of `b`. */
  predicate Extends(a: seq<Event>, b: seq<Event>) {
    |a| <= |b| && b[..|a|] == a
  }

  lemma {:induction false} DispatchedNoReduced(events: seq<Event>)
    requires forall i :: 0 <= i < |events| ==> !events[i].Reduced?
    ensures Dispatched(events) == []
  {
    if events != [] {
      DispatchedNoReduced(events[1..]);
    }
  }

  lemma DispatchedSkip(log: seq<Event>, e: Event)
    requires !e.Reduced?
    ensures Dispatched(log + [e]) == Dispatched(log)
  {
    DispatchedAppend(log, [e]);
    DispatchedNoReduced([e]);
  }

  lemma ExtendsTrans(a: seq<Event>, b: seq<Event>, c: seq<Event>)
    requires Extends(a, b) && Extends(b, c)
    ensures Extends(a, c)
  {
    assert c[..|b|][..|a|] == c[..|a|];
  }
}
