/** The request-state reducer of src/requestStateReducer.js: a total, pure
    function from a state and a lifecycle action to the next state. Object
    spread `{...a, ...b}` is the right-biased map union `a + b`. */
module RequestStateReducer {
  import opened Values

  /** The action types the switch names; any other `type` string is `Other`. */
  datatype Kind =
    | Init | Progress | ParamsDefined | RequestSent | ResponseReceived
    | RequestSucceeded | RequestAborted | RequestFailed
    | Other(name: string)

  /** The `type` strings of the named cases. */
  const KnownTypes: set<string> :=
    {"init", "progress", "params_defined", "request_sent", "response_received",
     "request_succeeded", "request_aborted", "request_failed"}

  /** The `type` string of a kind. */
  function TypeName(k: Kind): (t: string)
    ensures !k.Other? ==> t in KnownTypes
    ensures k.Other? ==> t == k.name
  {
    match k
    case Init => "init"
    case Progress => "progress"
    case ParamsDefined => "params_defined"
    case RequestSent => "request_sent"
    case ResponseReceived => "response_received"
    case RequestSucceeded => "request_succeeded"
    case RequestAborted => "request_aborted"
    case RequestFailed => "request_failed"
    case Other(name) => name
  }

  /** The case of the switch a `type` string selects. */
  function KindOf(t: string): (k: Kind)
    ensures TypeName(k) == t
    ensures k.Other? <==> t !in KnownTypes
  {
    if t == "init" then Init
    else if t == "progress" then Progress
    else if t == "params_defined" then ParamsDefined
    else if t == "request_sent" then RequestSent
    else if t == "response_received" then ResponseReceived
    else if t == "request_succeeded" then RequestSucceeded
    else if t == "request_aborted" then RequestAborted
    else if t == "request_failed" then RequestFailed
    else Other(t)
  }

  /** Names and kinds correspond one to one (an `Other` holds a name outside the switch). */
  lemma KindOfTypeName(k: Kind)
    requires k.Other? ==> k.name !in KnownTypes
    ensures KindOf(TypeName(k)) == k
  {
  }

  /** `{type, payload}`. */
  datatype Action = Action(kind: Kind, payload: Value)

  predicate Terminal(k: Kind) {
    k.RequestSucceeded? || k.RequestAborted? || k.RequestFailed?
  }

  /** Every field of `s` outside `keys` is carried into `r` unchanged. */
  predicate Keeps(s: State, r: State, keys: set<string>) {
    forall k :: k in s && k !in keys ==> k in r && r[k] == s[k]
  }

  /** `{...s, pending: true, status: 'init', ...payload}`: pending and status are
      set first, then the payload may override anything. */
  function InitCase(s: State, payload: Value): (r: State)
    ensures r.Keys == s.Keys + {"pending", "status"} + Spread(payload).Keys
    ensures Keeps(s, r, {"pending", "status"} + Spread(payload).Keys)
    ensures forall k :: k in Spread(payload) ==> r[k] == Spread(payload)[k]
    ensures "status" !in Spread(payload) ==> HasStatus(r, "init")
    ensures "pending" !in Spread(payload) ==> r["pending"] == Bool(true)
  {
    s + map["pending" := Bool(true), "status" := Str("init")] + Spread(payload)
  }

  /** `{...s, progress: payload}`: nothing but the progress field changes. */
  function ProgressCase(s: State, payload: Value): (r: State)
    ensures r.Keys == s.Keys + {"progress"} && Keeps(s, r, {"progress"})
    ensures r["progress"] == payload
  {
    s + map["progress" := payload]
  }

  /** Sets `status` and one payload field, keeping everything else (pending included). */
  function Advance(s: State, status: string, field: string, payload: Value): (r: State)
    requires field != "status"
    ensures r.Keys == s.Keys + {"status", field} && Keeps(s, r, {"status", field})
    ensures HasStatus(r, status) && r[field] == payload
  {
    s + map["status" := Str(status), field := payload]
  }

  /** Sets `status`, clears `pending` and records the payload in one field. */
  function Settle(s: State, status: string, field: string, payload: Value): (r: State)
    requires field != "status" && field != "pending"
    ensures r.Keys == s.Keys + {"status", "pending", field} && Keeps(s, r, {"status", "pending", field})
    ensures HasStatus(r, status) && r["pending"] == Bool(false) && r[field] == payload
  {
    s + map["status" := Str(status), "pending" := Bool(false), field := payload]
  }

  /** `{status: 'aborted', pending: false}`: every previous field is dropped. */
  function Aborted(): (r: State)
    ensures r.Keys == {"status", "pending"} && HasStatus(r, "aborted") && r["pending"] == Bool(false)
  {
    map["status" := Str("aborted"), "pending" := Bool(false)]
  }

  /** `{...s, ...payload}`: a right-biased merge. */
  function Merge(s: State, payload: Value): (r: State)
    ensures r.Keys == s.Keys + Spread(payload).Keys && Keeps(s, r, Spread(payload).Keys)
    ensures forall k :: k in Spread(payload) ==> r[k] == Spread(payload)[k]
    ensures "status" !in Spread(payload) ==> Get(r, "status") == Get(s, "status")
  {
    s + Spread(payload)
  }

  /** `requestStateReducer(state, {type, payload})`: total, one case per action type. */
  function Reduce(s: State, a: Action): (r: State)
    ensures Terminal(a.kind) ==> "pending" in r && r["pending"] == Bool(false)
    ensures a.kind.ParamsDefined? || a.kind.RequestSent? || a.kind.ResponseReceived? ==>
      Get(r, "pending") == Get(s, "pending")
    ensures a.kind.RequestAborted? ==> "requestId" !in r && "args" !in r
    ensures a.kind.Other? && "status" !in Spread(a.payload) ==> Get(r, "status") == Get(s, "status")
  {
    match a.kind
    case Init => InitCase(s, a.payload)
    case Progress => ProgressCase(s, a.payload)
    case ParamsDefined => Advance(s, "prepared", "params", a.payload)
    case RequestSent => Advance(s, "requested", "requested", a.payload)
    // already 'resolved', and pending is left as it was
    case ResponseReceived => Advance(s, "resolved", "responded", a.payload)
    case RequestSucceeded => Settle(s, "resolved", "resolved", a.payload)
    case RequestAborted => Aborted()
    case RequestFailed => Settle(s, "rejected", "rejected", a.payload)
    case Other(_) => Merge(s, a.payload)
  }

  /** The reducer applied to any JavaScript value as its state argument: the
      parameter defaults to `{}` when `undefined`, and only its spread is read. */
  function ReduceValue(state: Value, a: Action): (r: State)
    ensures state.Undefined? || state.Null? || state.Func? ==> r == Reduce(map[], a)
    ensures state.Obj? ==> r == Reduce(state.fields, a)
  {
    Reduce(Spread(state), a)
  }

  /** Reducing a sequence of actions, left to right. */
  function ReduceAll(s: State, actions: seq<Action>): State
    decreases |actions|
  {
    if actions == [] then s else ReduceAll(Reduce(s, actions[0]), actions[1..])
  }

  /** The statuses the reducer can produce from the lifecycle actions. */
  const LifecycleStatuses: set<string> :=
    {"init", "prepared", "requested", "resolved", "aborted", "rejected"}

  /** An action of one of the named kinds whose payload, for `init`, does not set a status. */
  predicate LifecycleAction(a: Action) {
    !a.kind.Other? && (a.kind.Init? ==> "status" !in Spread(a.payload))
  }

  /** The state carries no status, or one of the lifecycle statuses. */
  predicate LifecycleStatus(s: State) {
    "status" in s ==> s["status"].Str? && s["status"].s in LifecycleStatuses
  }

  /** Lifecycle actions never produce a status outside the lifecycle; in
      particular no such state is ever 'parameterized'. */
  lemma {:induction false} ReduceAllKeepsLifecycleStatus(s: State, actions: seq<Action>)
    requires LifecycleStatus(s)
    requires forall i :: 0 <= i < |actions| ==> LifecycleAction(actions[i])
    ensures LifecycleStatus(ReduceAll(s, actions))
    ensures !HasStatus(ReduceAll(s, actions), "parameterized")
    decreases |actions|
  {
    if actions != [] {
      var s' := Reduce(s, actions[0]);
      assert LifecycleAction(actions[0]);
      assert LifecycleStatus(s');
      ReduceAllKeepsLifecycleStatus(s', actions[1..]);
    }
  }

  /** After a response arrives the state says 'resolved' while pending is still true,
      so `pending` is not a function of `status`. */
  lemma ResponseReceivedLeavesPending(s: State, responded: Value)
    requires HasStatus(s, "requested") && Get(s, "pending") == Bool(true)
    ensures var r := Reduce(s, Action(ResponseReceived, responded));
      HasStatus(r, "resolved") && r["pending"] == Bool(true)
  {
  }

  /** A failure reported after a success keeps the resolution: `request_failed`
      replaces status and pending and adds `rejected`, nothing else. */
  lemma FailureKeepsResolution(s: State, e: Value)
    ensures var r := Reduce(s, Action(RequestFailed, e));
      && HasStatus(r, "rejected") && r["pending"] == Bool(false) && r["rejected"] == e
      && Get(r, "resolved") == Get(s, "resolved")
  {
    assert "resolved" !in {"status", "pending", "rejected"};
  }
}
