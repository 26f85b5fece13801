/** The cache policies of src/cache.js. `byParams` and `byArgs` decorate a
    state-change listener: on each state they may answer from a bucket of
    earlier resolved states, write a resolved state into the bucket, or
    re-surface an aborted state that already carries a resolution.
    `JSON.stringify` is the parameter `stringify`; the wrapped listener and
    the `abort` helper are recorded as effects in call order, and either may
    throw, which ends the call. */
module Cache {
  import opened Values

  // ---------------------------------------------------------------------
  // Cache ids
  // ---------------------------------------------------------------------

  /** `params.method`, or `undefined` when params is not an object. */
  function MethodOf(params: Value): Value {
    if params.Obj? then Get(params.fields, "method") else Undefined
  }

  /** A request whose method is given and is not a GET in any letter case. */
  predicate NonGetMethod(params: Value) {
    var m := MethodOf(params);
    Truthy(m) && m.Str? && ToLowerAscii(m.s) != "get"
  }

  /** `defaultGetCachedIdByParams(params)`: null for a non-GET request, otherwise
      the encoding of the whole params. Reading `method` of undefined/null, or
      lower-casing a method that is not a string, throws a TypeError. */
  function DefaultGetCachedIdByParams(stringify: Value -> string, params: Value): (r: Sync)
    ensures r == Returned(Null) <==> NonGetMethod(params)
    ensures r.Returned? && r.value != Null ==> r.value == Str(stringify(params))
    ensures r.Threw? <==>
      params.Undefined? || params.Null? || (Truthy(MethodOf(params)) && !MethodOf(params).Str?)
    ensures r.Threw? ==> r.error == TypeErrorValue
  {
    if params.Undefined? || params.Null? then Threw(TypeErrorValue)
    else
      var m := MethodOf(params);
      if Truthy(m) && !m.Str? then Threw(TypeErrorValue)
      else if Truthy(m) && ToLowerAscii(m.s) != "get" then Returned(Null)
      else Returned(Str(stringify(params)))
  }

  /** `defaultGetCachedIdByArgs(...args)`: the encoding of the argument list. */
  function DefaultGetCachedIdByArgs(stringify: Value -> string, args: seq<Value>): (r: Value)
    ensures r.Str? && r.s == stringify(List(args))
  {
    Str(stringify(List(args)))
  }

  /** Under an injective encoding, two argument lists share a cache id only when equal. */
  lemma ArgsIdsSeparate(stringify: Value -> string, a: seq<Value>, b: seq<Value>)
    requires forall x, y :: stringify(x) == stringify(y) ==> x == y
    ensures DefaultGetCachedIdByArgs(stringify, a) == DefaultGetCachedIdByArgs(stringify, b) <==> a == b
  {
    if DefaultGetCachedIdByArgs(stringify, a) == DefaultGetCachedIdByArgs(stringify, b) {
      assert List(a) == List(b);
    }
  }

  // ---------------------------------------------------------------------
  // The fetch-policy test `fetchPolicy.match(/(?!no-)cache/)`
  // ---------------------------------------------------------------------

  /** The regular expression matches at position i: the lookahead `(?!no-)`
      holds there and `cache` follows. */
  predicate MatchesAt(s: string, i: nat)
    requires i <= |s|
  {
    !(i + 3 <= |s| && s[i..i + 3] == "no-") && i + 5 <= |s| && s[i..i + 5] == "cache"
  }

  /** A search for a match starting at `from` or later. */
  predicate SearchFrom(s: string, from: nat)
    requires from <= |s|
    decreases |s| - from
  {
    MatchesAt(s, from) || (from < |s| && SearchFrom(s, from + 1))
  }

  /** Whether `fetchPolicy.match(/(?!no-)cache/)` finds a match. */
  predicate PolicyMatches(fetchPolicy: string) {
    SearchFrom(fetchPolicy, 0)
  }

  predicate CacheAt(s: string, i: int) {
    0 <= i && i + 5 <= |s| && s[i..i + 5] == "cache"
  }

  lemma {:induction false} SearchFromFindsCache(s: string, from: nat)
    requires from <= |s|
    ensures SearchFrom(s, from) <==> exists i :: from <= i && CacheAt(s, i)
    decreases |s| - from
  {
    if from < |s| {
      SearchFromFindsCache(s, from + 1);
    }
    if CacheAt(s, from) {
      assert s[from] == s[from..from + 5][0] == 'c';
      if from + 3 <= |s| {
        assert s[from..from + 3][0] == 'c';
      }
      assert MatchesAt(s, from);
    }
    if exists i :: from <= i && CacheAt(s, i) {
      var i :| from <= i && CacheAt(s, i);
      if i != from {
        assert from + 1 <= i;
      }
    }
  }

  /** The negative lookahead never rules anything out: the policy participates
      exactly when it contains "cache" — 'no-cache' included. */
  lemma PolicyMatchesIffContainsCache(fetchPolicy: string)
    ensures PolicyMatches(fetchPolicy) <==> exists i :: CacheAt(fetchPolicy, i)
  {
    SearchFromFindsCache(fetchPolicy, 0);
  }

  lemma NoCacheMatches()
    ensures PolicyMatches("no-cache") && PolicyMatches("cache-first") && PolicyMatches("cache-only")
  {
    assert CacheAt("no-cache", 3);
    assert CacheAt("cache-first", 0);
    assert CacheAt("cache-only", 0);
    PolicyMatchesIffContainsCache("no-cache");
    PolicyMatchesIffContainsCache("cache-first");
    PolicyMatchesIffContainsCache("cache-only");
  }

  // ---------------------------------------------------------------------
  // The listener decorators
  // ---------------------------------------------------------------------

  datatype Kind = ByParams | ByArgs

  /** A call the decorator makes: the wrapped listener with a state, or `helpers.abort()`. */
  datatype Effect = Notify(state: State) | AbortHelper

  /** What one call of the decorated listener does: its calls in order, the
      bucket afterwards and the error it throws, if any. */
  datatype Reaction = Reaction(effects: seq<Effect>, entries: map<Value, State>, thrown: Option<Value>)

  /** The value the store key is computed from: `state.params` or `state.args`. */
  function StoreKeySource(kind: Kind, s: State): (v: Value)
    ensures kind == ByParams ==> v == Get(s, "params")
    ensures kind == ByArgs ==> v == Get(s, "args")
  {
    if kind == ByParams then Get(s, "params") else Get(s, "args")
  }

  /** The lookup branch is entered. */
  predicate Lookup(fetchPolicy: string, s: State) {
    HasStatus(s, "parameterized") && PolicyMatches(fetchPolicy)
  }

  /** The lookup id is a non-null key of the bucket. */
  predicate Hit(id: Sync, entries: map<Value, State>) {
    id.Returned? && id.value != Null && id.value in entries
  }

  /** `{...fromCache, ...state, status: 'resolved'}`. */
  function Overlay(fromCache: State, s: State): (r: State)
    ensures HasStatus(r, "resolved")
    ensures forall k :: k in s && k != "status" ==> k in r && r[k] == s[k]
    ensures forall k :: k in fromCache && k !in s && k != "status" ==> k in r && r[k] == fromCache[k]
    ensures r.Keys == fromCache.Keys + s.Keys + {"status"}
  {
    fromCache + s + map["status" := Str("resolved")]
  }

  /** An aborted state that carries a resolution is first reported as resolved. */
  predicate Resurfaces(s: State) {
    HasStatus(s, "aborted") && "resolved" in s
  }

  /** `{...state, status: 'resolved'}`. */
  function AsResolved(s: State): State {
    s["status" := Str("resolved")]
  }

  /** What the decorated listener does with one state, given the bucket.
      `onChange(x)` says whether the wrapped listener throws when called with
      `x` (`Some(error)`) or returns (`None`); `abortThrows` says the same of
      `helpers.abort()`. A throw ends the call on the spot. */
  function React(kind: Kind, getCacheId: Value -> Sync, fetchPolicy: string,
                 onChange: State -> Option<Value>, abortThrows: Option<Value>,
                 entries: map<Value, State>, s: State): (r: Reaction)
    // an aborted state with a resolution: the resolved copy first, then the
    // state itself, unless the first call throws
    ensures Resurfaces(s) ==>
      r == if onChange(AsResolved(s)).Some? then Reaction([Notify(AsResolved(s))], entries, onChange(AsResolved(s)))
           else Reaction([Notify(AsResolved(s)), Notify(s)], entries, onChange(s))
    // a hit: one listener call with the overlay, `abort` first iff 'cache-only'; nothing stored
    ensures Lookup(fetchPolicy, s) && Hit(getCacheId(Obj(s)), entries) && fetchPolicy != "cache-only" ==>
      var hit := Overlay(entries[getCacheId(Obj(s)).value], s);
      r == Reaction([Notify(hit)], entries, onChange(hit))
    ensures Lookup(fetchPolicy, s) && Hit(getCacheId(Obj(s)), entries) && fetchPolicy == "cache-only" ==>
      var hit := Overlay(entries[getCacheId(Obj(s)).value], s);
      r == if abortThrows.Some? then Reaction([AbortHelper], entries, abortThrows)
           else Reaction([AbortHelper, Notify(hit)], entries, onChange(hit))
    // a resolved state is stored under the id of its params or args, even a
    // null one, before the listener is called: a throwing listener keeps it stored
    ensures HasStatus(s, "resolved") && getCacheId(StoreKeySource(kind, s)).Returned? ==>
      r == Reaction([Notify(s)], entries[getCacheId(StoreKeySource(kind, s)).value := s], onChange(s))
    ensures HasStatus(s, "resolved") && getCacheId(StoreKeySource(kind, s)).Threw? ==>
      r == Reaction([], entries, Some(getCacheId(StoreKeySource(kind, s)).error))
    // a failing lookup id propagates before anything is reported
    ensures Lookup(fetchPolicy, s) && getCacheId(Obj(s)).Threw? ==>
      r == Reaction([], entries, Some(getCacheId(Obj(s)).error))
    // every other state passes through once, with the bucket untouched
    ensures !Resurfaces(s) && !HasStatus(s, "resolved") &&
            !(Lookup(fetchPolicy, s) && (getCacheId(Obj(s)).Threw? || Hit(getCacheId(Obj(s)), entries))) ==>
      r == Reaction([Notify(s)], entries, onChange(s))
    // a call that throws nothing always ends by reporting a state
    ensures r.thrown.None? ==> |r.effects| > 0 && r.effects[|r.effects| - 1].Notify?
    ensures AbortHelper in r.effects ==> fetchPolicy == "cache-only"
    ensures r.entries != entries ==> HasStatus(s, "resolved")
  {
    if Resurfaces(s) && onChange(AsResolved(s)).Some? then
      Reaction([Notify(AsResolved(s))], entries, onChange(AsResolved(s)))
    else
      var resurfaced := if Resurfaces(s) then [Notify(AsResolved(s))] else [];
      var lookupId := getCacheId(Obj(s));
      if Lookup(fetchPolicy, s) && lookupId.Threw? then
        Reaction(resurfaced, entries, Some(lookupId.error))
      else if Lookup(fetchPolicy, s) && Hit(lookupId, entries) then
        if fetchPolicy == "cache-only" && abortThrows.Some? then
          Reaction(resurfaced + [AbortHelper], entries, abortThrows)
        else
          var aborts := if fetchPolicy == "cache-only" then [AbortHelper] else [];
          var hit := Overlay(entries[lookupId.value], s);
          Reaction(resurfaced + aborts + [Notify(hit)], entries, onChange(hit))
      else if HasStatus(s, "resolved") then
        match getCacheId(StoreKeySource(kind, s))
        case Threw(e) => Reaction(resurfaced, entries, Some(e))
        case Returned(id) => Reaction(resurfaced + [Notify(s)], entries[id := s], onChange(s))
      else
        Reaction(resurfaced + [Notify(s)], entries, onChange(s))
  }

  /** A Map of cache ids to resolved states; one may be shared by many decorators. */
  class Bucket {
    var entries: map<Value, State>

    constructor()
      ensures entries == map[]
    {
      entries := map[];
    }
  }

  /** `byParams(...)(onChange)` or `byArgs(...)(onChange)`: the decorated listener. */
  class CachedListener {
    const kind: Kind
    const getCacheId: Value -> Sync
    const fetchPolicy: string
    const bucket: Bucket
    /** The wrapped listener: whether it throws for a given state. */
    const onChange: State -> Option<Value>
    /** Calls made so far to the wrapped listener and to `helpers.abort`. */
    var effects: seq<Effect>

    constructor(kind: Kind, getCacheId: Value -> Sync, fetchPolicy: string, bucket: Bucket,
                onChange: State -> Option<Value>)
      ensures this.kind == kind && this.getCacheId == getCacheId
      ensures this.fetchPolicy == fetchPolicy && this.bucket == bucket && this.onChange == onChange
      ensures effects == []
    {
      this.kind := kind;
      this.getCacheId := getCacheId;
      this.fetchPolicy := fetchPolicy;
      this.bucket := bucket;
      this.onChange := onChange;
      effects := [];
    }

    /** `(state, helpers) => { ... }`: the steps in source order, where
        `abortThrows` is how `helpers.abort()` ends. */
    method OnChange(state: State, abortThrows: Option<Value>) returns (thrown: Option<Value>)
      modifies this, bucket
      ensures var r := React(kind, getCacheId, fetchPolicy, onChange, abortThrows, old(bucket.entries), state);
        effects == old(effects) + r.effects && bucket.entries == r.entries && thrown == r.thrown
    {
      if HasStatus(state, "aborted") && "resolved" in state {
        effects := effects + [Notify(state["status" := Str("resolved")])];
        thrown := onChange(state["status" := Str("resolved")]);
        if thrown.Some? {
          return;
        }
      }
      if HasStatus(state, "parameterized") && PolicyMatches(fetchPolicy) {
        var cacheId := getCacheId(Obj(state));
        if cacheId.Threw? {
          thrown := Some(cacheId.error);
          return;
        }
        if cacheId.value != Null && cacheId.value in bucket.entries {
          var fromCache := bucket.entries[cacheId.value];
          if fetchPolicy == "cache-only" {
            effects := effects + [AbortHelper];
            if abortThrows.Some? {
              thrown := abortThrows;
              return;
            }
          }
          effects := effects + [Notify(Overlay(fromCache, state))];
          thrown := onChange(Overlay(fromCache, state));
          return;
        }
      }
      if HasStatus(state, "resolved") {
        var cacheId := getCacheId(StoreKeySource(kind, state));
        if cacheId.Threw? {
          thrown := Some(cacheId.error);
          return;
        }
        bucket.entries := bucket.entries[cacheId.value := state];
      }
      effects := effects + [Notify(state)];
      thrown := onChange(state);
    }
  }

  /** The default id function of each policy, as the decorator calls it (one argument). */
  function DefaultGetCacheId(kind: Kind, stringify: Value -> string): Value -> Sync {
    if kind == ByParams then (v: Value) => DefaultGetCachedIdByParams(stringify, v)
    else (v: Value) => Returned(DefaultGetCachedIdByArgs(stringify, [v]))
  }

  /** `byParams(getCacheId, {fetchPolicy, bucket})(onChange)` and its `byArgs`
      twin: an absent id function, policy or bucket takes its default — the
      policy's default id function, 'cache-first', and the process-wide bucket. */
  method Decorate(kind: Kind, getCacheId: Option<Value -> Sync>, fetchPolicy: Option<string>,
                  bucket: Option<Bucket>, stringify: Value -> string, moduleBucket: Bucket,
                  onChange: State -> Option<Value>)
    returns (listener: CachedListener)
    ensures fresh(listener) && listener.effects == [] && listener.kind == kind && listener.onChange == onChange
    ensures listener.getCacheId == if getCacheId.Some? then getCacheId.value else DefaultGetCacheId(kind, stringify)
    ensures listener.fetchPolicy == if fetchPolicy.Some? then fetchPolicy.value else "cache-first"
    ensures listener.bucket == if bucket.Some? then bucket.value else moduleBucket
  {
    var id := if getCacheId.Some? then getCacheId.value else DefaultGetCacheId(kind, stringify);
    var policy := if fetchPolicy.Some? then fetchPolicy.value else "cache-first";
    var store := if bucket.Some? then bucket.value else moduleBucket;
    listener := new CachedListener(kind, id, policy, store, onChange);
  }

  /** Two decorators sharing a bucket: what one stores the other finds, even
      when the first one's listener throws, since the store comes first.
      Lookups compute the id from the whole state, stores from its params or args. */
  method SharedBucketRoundTrip(first: CachedListener, second: CachedListener, resolved: State,
                               later: State, abortThrows: Option<Value>)
    returns (thrown: Option<Value>)
    requires first != second && first.bucket == second.bucket
    requires HasStatus(resolved, "resolved") && HasStatus(later, "parameterized")
    requires PolicyMatches(second.fetchPolicy) && second.fetchPolicy != "cache-only"
    requires first.getCacheId(StoreKeySource(first.kind, resolved)).Returned?
    requires second.getCacheId(Obj(later)) == first.getCacheId(StoreKeySource(first.kind, resolved))
    requires second.getCacheId(Obj(later)).value != Null
    modifies first, second, first.bucket
    ensures thrown == second.onChange(Overlay(resolved, later))
    ensures second.effects == old(second.effects) + [Notify(Overlay(resolved, later))]
  {
    thrown := first.OnChange(resolved, abortThrows);
    thrown := second.OnChange(later, abortThrows);
  }
}
