/** The configuration part of the `useRequest` hook (src/useRequest.js): its
    own `getCacheReducer` (without the conflict check), the defaults, the
    bucket choice, the conflict check and the reducer composition. */
module UseRequest {
  import opened Values
  import opened RequestStateReducer
  import Cache
  import Utils

  /** `getCacheReducer` of src/useRequest.js: it never throws; on a conflict the
      first given option in the order cacheBy, cacheByArgs, cacheByParams wins. */
  function GetCacheReducer(o: Utils.CacheOptions): (p: Utils.Policy)
    // it agrees with the checked selection of src/utils.js wherever that one answers
    ensures !Utils.Conflicting(o) ==> Utils.GetCacheReducer(o) == Utils.Selected(p)
    ensures o.cacheBy != Undefined ==>
      p.Decorator? && p.id == (if o.cacheBy.Func? then Utils.GivenId(o.cacheBy) else Utils.ConstantId(o.cacheBy))
    ensures o.cacheBy == Undefined && Truthy(o.cacheByArgs) ==>
      p.Decorator? && p.kind == Cache.ByArgs &&
      p.id == (if o.cacheByArgs == Bool(true) then Utils.DefaultId else Utils.GivenId(o.cacheByArgs))
    ensures o.cacheBy == Undefined && !Truthy(o.cacheByArgs) && Truthy(o.cacheByParams) ==>
      p.Decorator? && p.kind == Cache.ByArgs
    ensures p.IdentityPolicy? <==>
      o.cacheBy == Undefined && !Truthy(o.cacheByArgs) && !Truthy(o.cacheByParams)
  {
    Utils.Select(o)
  }

  /** The hook's options; `Undefined` stands for an option not given. */
  datatype Options = Options(
    auto: Value, abortOnUnmount: Value, cacheBucket: Value,
    cacheBy: Value, cacheByParams: Value, cacheByArgs: Value,
    request: Value)

  /** Destructuring defaults: `auto = true`, `abortOnUnmount = false`, `cacheBucket = 'local'`. */
  function WithDefaults(o: Options): (d: Options)
    ensures d.auto == (if o.auto.Undefined? then Bool(true) else o.auto)
    ensures d.abortOnUnmount == (if o.abortOnUnmount.Undefined? then Bool(false) else o.abortOnUnmount)
    ensures d.cacheBucket == (if o.cacheBucket.Undefined? then Str("local") else o.cacheBucket)
    ensures d.cacheBy == o.cacheBy && d.cacheByParams == o.cacheByParams
    ensures d.cacheByArgs == o.cacheByArgs && d.request == o.request
  {
    o.(auto := if o.auto.Undefined? then Bool(true) else o.auto,
       abortOnUnmount := if o.abortOnUnmount.Undefined? then Bool(false) else o.abortOnUnmount,
       cacheBucket := if o.cacheBucket.Undefined? then Str("local") else o.cacheBucket)
  }

  /** The options `getCacheReducer` receives inside the hook. */
  function CacheOptionsOf(o: Options): (c: Utils.CacheOptions)
    ensures c.mapRequestType == TypeOf(o.request)
    ensures c.bucket == Utils.ChooseBucket(WithDefaults(o).cacheBucket)
  {
    Utils.CacheOptions(o.cacheBy, o.cacheByArgs, o.cacheByParams,
                       Utils.ChooseBucket(WithDefaults(o).cacheBucket), TypeOf(o.request))
  }

  /** The hook's set-up: the bucket choice, then the conflict check (which
      throws before any selection), then `getCacheReducer`. */
  function Setup(o: Options): (r: Utils.Selected)
    ensures r.ConfigError? <==> Utils.Conflicting(CacheOptionsOf(o))
    ensures r.ConfigError? ==> r.error == Utils.ConflictError
    ensures r.Selected? ==> r == Utils.GetCacheReducer(CacheOptionsOf(o))
    ensures o.cacheBucket.Undefined? && r.Selected? && r.policy.Decorator? ==>
      r.policy.bucket == Utils.LocalBucket
  {
    var c := CacheOptionsOf(o);
    if Utils.Conflicting(c) then Utils.ConfigError(Utils.ConflictError)
    else Utils.Selected(GetCacheReducer(c))
  }

  // ---------------------------------------------------------------------
  // Reducer composition: `stateReducer(finalCacheBy(newState, action), action)`
  // ---------------------------------------------------------------------

  /** `finalCacheBy(newState, action)`: `identity` returns the state; a
      decorator `onChange => (state, helpers) => ...` returns a listener function. */
  function ApplyPolicy(p: Utils.Policy, newState: Value): (v: Value)
    ensures p.IdentityPolicy? ==> v == newState
    ensures p.Decorator? ==> v.Func?
  {
    if p.IdentityPolicy? then Utils.Identity(newState) else Func("(state, helpers) => { ... }")
  }

  /** The composed reducer as written: with a cache option on, the reducer
      receives a function, whose spread is empty, so the state is forgotten. */
  function ComposedReducerAsWritten(p: Utils.Policy, s: State, a: Action): (r: State)
    ensures p.IdentityPolicy? ==> r == Reduce(s, a)
    ensures p.Decorator? ==> r == Reduce(map[], a)
  {
    ReduceValue(ApplyPolicy(p, Obj(s)), a)
  }

  /** With a cache option on, the composed reducer loses the request id and the
      arguments as soon as the parameters are defined. */
  lemma ComposedReducerForgetsState()
    ensures var p := Utils.Decorator(Cache.ByArgs, Utils.DefaultId, Utils.LocalBucket);
            var s := map["requestId" := Symbol(0), "args" := List([]), "status" := Str("init"),
                         "pending" := Bool(true)];
            var r := ComposedReducerAsWritten(p, s, Action(ParamsDefined, Obj(map[])));
            "requestId" !in r && "args" !in r && "pending" !in r
  {
  }

  /** One change under the composition as intended: the reduced state, and
      what the change listener, decorated by the cache policy, did with it. */
  datatype Change = Change(state: State, reaction: Cache.Reaction)

  /** The composition as intended: the reducer receives the previous state
      under every policy, and the policy decorates the change listener, which
      receives the reduced state. `entries` is the bucket the policy uses;
      `getCacheReducer` passes no fetch policy, so it is 'cache-first'. */
  function ComposedChange(p: Utils.Policy, stringify: Value -> string, call: (Value, Value) -> Sync,
                          onChange: State -> Option<Value>, abortThrows: Option<Value>,
                          entries: map<Value, State>, s: State, a: Action): (c: Change)
    // every policy reduces the previous state: fields the action does not name are kept
    ensures !a.kind.RequestAborted? && !a.kind.Other? ==>
      forall k :: k in s && k !in {"status", "pending", "progress", "params", "requested",
                                   "responded", "resolved", "rejected"} && k !in Spread(a.payload)
        ==> k in c.state && c.state[k] == s[k]
    ensures c.state == ComposedReducerAsWritten(Utils.IdentityPolicy, s, a)
    // without a cache option the listener receives the state once and no bucket is touched
    ensures p.IdentityPolicy? ==>
      c.reaction == Cache.Reaction([Cache.Notify(c.state)], entries, onChange(c.state))
    // with one, the decorator handles every reduced state
    ensures p.Decorator? ==>
      c.reaction == Cache.React(p.kind, Utils.CacheIdFunction(p.id, p.kind, stringify, call), "cache-first",
                                onChange, abortThrows, entries, c.state)
  {
    var next := Reduce(s, a);
    if p.IdentityPolicy? then
      Change(next, Cache.Reaction([Cache.Notify(next)], entries, onChange(next)))
    else
      Change(next, Cache.React(p.kind, Utils.CacheIdFunction(p.id, p.kind, stringify, call), "cache-first",
                               onChange, abortThrows, entries, next))
  }

  /** With `cacheByArgs: true`, a successful request under the intended
      composition keeps its request id and arguments, is stored in the bucket
      under the id of those arguments and is reported once; as written, the
      arguments are lost. */
  lemma ComposedChangeCachesSuccess(stringify: Value -> string, call: (Value, Value) -> Sync,
                                    onChange: State -> Option<Value>, abortThrows: Option<Value>,
                                    entries: map<Value, State>, s: State, resolved: Value)
    ensures var p := Utils.Decorator(Cache.ByArgs, Utils.DefaultId, Utils.LocalBucket);
            var a := Action(RequestSucceeded, resolved);
            var c := ComposedChange(p, stringify, call, onChange, abortThrows, entries, s, a);
            && Get(c.state, "requestId") == Get(s, "requestId") && Get(c.state, "args") == Get(s, "args")
            && c.reaction.entries == entries[Str(stringify(List([Get(s, "args")]))) := c.state]
            && c.reaction.effects == [Cache.Notify(c.state)] && c.reaction.thrown == onChange(c.state)
            && Get(ComposedReducerAsWritten(p, s, a), "args") == Undefined
  {
    var p := Utils.Decorator(Cache.ByArgs, Utils.DefaultId, Utils.LocalBucket);
    var a := Action(RequestSucceeded, resolved);
    var next := Reduce(s, a);
    assert HasStatus(next, "resolved") && Get(next, "args") == Get(s, "args");
    var id := Utils.CacheIdFunction(Utils.DefaultId, Cache.ByArgs, stringify, call);
    assert id(Cache.StoreKeySource(Cache.ByArgs, next)) == Returned(Str(stringify(List([Get(s, "args")]))));
    var c := ComposedChange(p, stringify, call, onChange, abortThrows, entries, s, a);
    assert c.state == next;
    assert c.reaction == Cache.React(Cache.ByArgs, id, "cache-first", onChange, abortThrows, entries, next);
  }

  /** Without any cache option the composition as written is the plain reducer. */
  lemma NoCacheOptionComposesToReducer(o: Options, s: State, a: Action)
    requires o.cacheBy.Undefined? && o.cacheByArgs.Undefined? && o.cacheByParams.Undefined?
    ensures Setup(o) == Utils.Selected(Utils.IdentityPolicy)
    ensures ComposedReducerAsWritten(Setup(o).policy, s, a) == Reduce(s, a)
  {
  }
}
