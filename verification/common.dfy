/**
 Shared vocabulary of the template-level subscription cache model: optional
 values, the abstract argument values a subscription is called with, argument
 specifications and their reactive evaluation, per-slot options, the
 observable effect trace, and the faults the cache raises.
 */
module Common {

  datatype Option<+T> = None | Some(value: T)

  /** A slot id (the `subId` string given at registration). */
  type SlotId = string

  /** An EJSON-like argument value. Deep equality of arguments (underscore's
      `_.isEqual`) is modelled as structural equality of this datatype. */
  datatype Value =
    | Null
    | Bool(b: bool)
    | Num(n: int)
    | Str(s: string)
    | Arr(items: seq<Value>)
    | Obj(fields: map<string, Value>)

  /** One element of a slot's argument specification: a plain value, or a
      zero-argument getter that reads reactive state. A getter is identified
      by the reactive key it reads. */
  datatype ArgSpec = Const(v: Value) | Getter(key: string)

  /** The reactive state a driving computation observes on one run. */
  type Env = string -> Value

  /** The live argument list of one run: every getter is called, every plain
      value is kept. */
  function Evaluate(spec: seq<ArgSpec>, env: Env): (args: seq<Value>)
    ensures |args| == |spec|
    ensures forall i :: 0 <= i < |spec| && spec[i].Const? ==> args[i] == spec[i].v
    ensures forall i :: 0 <= i < |spec| && spec[i].Getter? ==> args[i] == env(spec[i].key)
  {
    if spec == [] then []
    else
      var head := match spec[0] case Const(v) => v case Getter(k) => env(k);
      [head] + Evaluate(spec[1..], env)
  }

  /** The reactive keys a run of the specification reads. */
  function ReadKeys(spec: seq<ArgSpec>): (keys: set<string>)
    ensures forall i :: 0 <= i < |spec| && spec[i].Getter? ==> spec[i].key in keys
  {
    if spec == [] then {}
    else (if spec[0].Getter? then {spec[0].key} else {}) + ReadKeys(spec[1..])
  }

  /** Two runs that observe the same values for every key the specification
      reads produce the same argument list: a re-run can only change the
      arguments when one of the keys it read changed. */
  lemma {:induction false} EvaluateDependsOnlyOnReadKeys(spec: seq<ArgSpec>, env1: Env, env2: Env)
    requires forall k :: k in ReadKeys(spec) ==> env1(k) == env2(k)
    ensures Evaluate(spec, env1) == Evaluate(spec, env2)
  {
    if spec != [] {
      assert forall k :: k in ReadKeys(spec[1..]) ==> k in ReadKeys(spec);
      EvaluateDependsOnlyOnReadKeys(spec[1..], env1, env2);
    }
  }

  /** Per-slot options after defaulting (`pcsOptions`). A hook is modelled
      by whether it is a function; calling it is recorded as an effect. */
  datatype SlotOptions = SlotOptions(
    startOnCreated: bool,
    expireAfter: Option<int>,
    beforeStart: bool,
    afterStart: bool,
    onReady: bool,
    beforeStop: bool,
    afterStop: bool,
    replaceSubscriptionsReady: bool,
    replaceCheckOnAllAncestors: bool,
    argValidityPredicate: seq<Value> -> bool)

  /** A reactive computation (`templateInstance.autorun`) that drives one
      slot; `stopped` mirrors `computation.stopped`. */
  datatype Computation = Computation(slot: SlotId, stopped: bool)

  /** The one-shot readiness watcher of a record (`readyComputation`):
      not yet created, waiting for the handle, or stopped. */
  datatype Watcher = Unset | Watching | Stopped

  /** Observable effects: user hooks called, calls into the external
      subscription cache, and computations stopped. `idx` is the record index
      the call belongs to. */
  datatype Effect =
    | BeforeStart(slot: SlotId, args: seq<Value>)
    | AfterStart(slot: SlotId, args: seq<Value>)
    | OnReady(slot: SlotId, args: seq<Value>)
    | BeforeStop(slot: SlotId, args: seq<Value>)
    | AfterStop(slot: SlotId, args: seq<Value>)
    | Subscribe(idx: nat, args: seq<Value>)
    | SubscribeFor(idx: nat, ttl: int, args: seq<Value>)
    | StopHandle(idx: nat)
    | StopComputation(comp: nat)

  /** The `Meteor.Error`s (and the type errors an unregistered slot id
      would raise) of the subscription machinery. */
  datatype Error =
    | SubAlreadyStarted(id: SlotId)
    | MissingSubInfo(id: SlotId)
    | NoStartedSub(id: SlotId)
    | IdAlreadyExists(id: SlotId)
    | UnregisteredSlot(id: SlotId)
    | MissingCachedInstance

  /** A JavaScript object used as a flag table: a missing key is falsy. */
  function Flag(m: map<SlotId, bool>, id: SlotId): (b: bool)
    ensures b <==> id in m && m[id]
  {
    id in m && m[id]
  }

  /** Number of occurrences of `e` in an effect trace. */
  function Count(fx: seq<Effect>, e: Effect): (n: nat)
    ensures n <= |fx|
    ensures n == 0 <==> e !in fx
  {
    if fx == [] then 0
    else (if fx[0] == e then 1 else 0) + Count(fx[1..], e)
  }

  lemma {:induction false} CountAppend(a: seq<Effect>, b: seq<Effect>, e: Effect)
    ensures Count(a + b, e) == Count(a, e) + Count(b, e)
  {
    if a == [] {
      assert a + b == b;
    } else {
      assert (a + b)[1..] == a[1..] + b;
      CountAppend(a[1..], b, e);
    }
  }

  /** The sequence without its k-th element (a settled continuation). */
  function RemoveAt<T>(s: seq<T>, k: nat): (r: seq<T>)
    requires k < |s|
    ensures |r| == |s| - 1
    ensures forall i :: 0 <= i < k ==> r[i] == s[i]
    ensures forall i :: k <= i < |r| ==> r[i] == s[i + 1]
  {
    s[..k] + s[k + 1..]
  }
}
