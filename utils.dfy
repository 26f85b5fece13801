/** Cache-strategy selection of src/utils.js: `getCacheReducer` rejects
    conflicting options and picks `byArgs`, `byParams` or `identity`;
    `useCacheBucket` picks the bucket. */
module Utils {
  import opened Values
  import Cache

  /** How the chosen decorator derives cache ids: its own default, a value
      given by the caller (called as a function), or `() => cacheBy`. */
  datatype IdChoice = DefaultId | GivenId(f: Value) | ConstantId(v: Value)

  /** Which bucket the decorator receives: the component's own Map, or a value
      passed through (`undefined` makes the decorator fall back to the
      process-wide bucket). */
  datatype BucketChoice = LocalBucket | PassedBucket(v: Value)

  /** The result of `getCacheReducer`: `identity`, or a `byArgs`/`byParams` decorator. */
  datatype Policy = IdentityPolicy | Decorator(kind: Cache.Kind, id: IdChoice, bucket: BucketChoice)

  /** `getCacheReducer` either returns a policy or throws the configuration error. */
  datatype Selected = Selected(policy: Policy) | ConfigError(error: Value)

  /** The arguments of `getCacheReducer`; `Undefined` stands for an option not given. */
  datatype CacheOptions = CacheOptions(
    cacheBy: Value, cacheByArgs: Value, cacheByParams: Value,
    bucket: BucketChoice, mapRequestType: string)

  const ConflictError: Value :=
    Err("Error", "You can't use cacheBy, cacheByParams and cacheByArgs simultaneosly, only one can be used at once.")

  /** `identity(value)`. */
  function Identity(value: Value): (r: Value)
    ensures r == value
  {
    value
  }

  /** At least two of the three cache options are given. */
  predicate Conflicting(o: CacheOptions) {
    || (o.cacheBy != Undefined && o.cacheByArgs != Undefined)
    || (o.cacheBy != Undefined && o.cacheByParams != Undefined)
    || (o.cacheByArgs != Undefined && o.cacheByParams != Undefined)
  }

  /** The selection that follows the conflict check (src/utils.js:25-45). */
  function Select(o: CacheOptions): (p: Policy)
    // cacheBy: byArgs exactly when the request mapper is a function
    ensures o.cacheBy != Undefined ==>
      && p.Decorator? && p.bucket == o.bucket
      && (p.kind == Cache.ByArgs <==> o.mapRequestType == "function")
      && p.id == (if o.cacheBy.Func? then GivenId(o.cacheBy) else ConstantId(o.cacheBy))
    // cacheByArgs: `true` means the default id function
    ensures o.cacheBy == Undefined && Truthy(o.cacheByArgs) ==>
      && p.Decorator? && p.kind == Cache.ByArgs && p.bucket == o.bucket
      && p.id == (if o.cacheByArgs == Bool(true) then DefaultId else GivenId(o.cacheByArgs))
    // cacheByParams also selects byArgs
    ensures o.cacheBy == Undefined && !Truthy(o.cacheByArgs) && Truthy(o.cacheByParams) ==>
      && p.Decorator? && p.kind == Cache.ByArgs && p.bucket == o.bucket
      && p.id == (if o.cacheByParams == Bool(true) then DefaultId else GivenId(o.cacheByParams))
    ensures p.IdentityPolicy? <==>
      o.cacheBy == Undefined && !Truthy(o.cacheByArgs) && !Truthy(o.cacheByParams)
    ensures p.Decorator? && p.kind == Cache.ByParams ==>
      o.cacheBy != Undefined && o.mapRequestType != "function"
  {
    if o.cacheBy != Undefined then
      var id := if TypeOf(o.cacheBy) == "function" then GivenId(o.cacheBy) else ConstantId(o.cacheBy);
      if o.mapRequestType == "function" then Decorator(Cache.ByArgs, id, o.bucket)
      else Decorator(Cache.ByParams, id, o.bucket)
    else if Truthy(o.cacheByArgs) then
      Decorator(Cache.ByArgs, if o.cacheByArgs == Bool(true) then DefaultId else GivenId(o.cacheByArgs), o.bucket)
    else if Truthy(o.cacheByParams) then
      Decorator(Cache.ByArgs, if o.cacheByParams == Bool(true) then DefaultId else GivenId(o.cacheByParams), o.bucket)
    else
      IdentityPolicy
  }

  /** `getCacheReducer(options)`: the conflict check runs first, so a
      conflicting configuration never yields a policy. */
  function GetCacheReducer(o: CacheOptions): (r: Selected)
    ensures r.ConfigError? <==> Conflicting(o)
    ensures r.ConfigError? ==> r.error == ConflictError
    ensures r.Selected? ==> r.policy == Select(o)
  {
    if Conflicting(o) then ConfigError(ConflictError) else Selected(Select(o))
  }

  /** The cache-id function a policy's decorator runs, as the decorator calls it
      (one argument). `call(f, x)` is the caller's function `f` applied to `x`;
      a given value that is not a function throws a TypeError when called. */
  function CacheIdFunction(id: IdChoice, kind: Cache.Kind, stringify: Value -> string,
                           call: (Value, Value) -> Sync): Value -> Sync
  {
    match id
    case DefaultId => Cache.DefaultGetCacheId(kind, stringify)
    case GivenId(f) => (x: Value) => if f.Func? then call(f, x) else Threw(TypeErrorValue)
    case ConstantId(v) => (x: Value) => Returned(v)
  }

  /** A non-function `cacheBy` gives every state the same cache id. */
  lemma ConstantIdForEveryInput(v: Value, kind: Cache.Kind, stringify: Value -> string,
                                call: (Value, Value) -> Sync, x: Value, y: Value)
    ensures CacheIdFunction(ConstantId(v), kind, stringify, call)(x) == Returned(v)
    ensures CacheIdFunction(ConstantId(v), kind, stringify, call)(x) ==
            CacheIdFunction(ConstantId(v), kind, stringify, call)(y)
  {
  }

  /** The bucket choice of `useCacheBucket(cacheBucket)`. */
  function ChooseBucket(cacheBucket: Value): (b: BucketChoice)
    ensures cacheBucket == Str("local") <==> b.LocalBucket?
    ensures cacheBucket == Str("global") ==> b == PassedBucket(Undefined)
    ensures cacheBucket != Str("local") && cacheBucket != Str("global") ==> b == PassedBucket(cacheBucket)
  {
    if cacheBucket == Str("local") then LocalBucket
    else if cacheBucket == Str("global") then PassedBucket(Undefined)
    else PassedBucket(cacheBucket)
  }
}
