/** The callback registry: an id counter and a detachable map from id to callback.
    The type of the stored callbacks is a parameter; what a callback does to its
    owner is modelled in module Hooks. */
module CallbackRegistry {
  import opened Outcomes

  /** The message of the `expect` in add_callback and remove_callback. */
  const INSERT_FAILED := "Failed to insert new callback"
  /** The message of `Option::unwrap` on `None`. */
  const UNWRAP_NONE := "called `Option::unwrap()` on a `None` value"

  /** The holder as a value: the map slot, which is `None` while the map is
      detached, and the counter `i`, the last id handed out. */
  datatype Registry<C> = Registry(functions: Option<map<nat, C>>, i: nat)

  /** Every id in the attached map was handed out by the counter. */
  predicate IdsIssued<C>(r: Registry<C>) {
    r.functions.Some? ==> forall id | id in r.functions.value :: 1 <= id <= r.i
  }

  /** add_callback: bump the counter, then insert under the new id; with the map
      detached the insertion panics after the counter has moved. */
  function Add<C>(r: Registry<C>, callback: C): (res: (Registry<C>, Outcome<nat>))
    ensures res.0.i == r.i + 1
    ensures r.functions.None? ==> res == (Registry(None, r.i + 1), Panic(INSERT_FAILED))
    ensures r.functions.Some? ==>
      && res.1 == Ok(res.0.i)
      && res.0.functions.Some?
      && res.0.functions.value.Keys == r.functions.value.Keys + {res.0.i}
      && res.0.functions.value[res.0.i] == callback
      && (forall id | id in r.functions.value && id != res.0.i ::
            res.0.functions.value[id] == r.functions.value[id])
    ensures IdsIssued(r) ==> IdsIssued(res.0)
    ensures IdsIssued(r) && r.functions.Some? ==> res.0.i !in r.functions.value
  {
    var id := r.i + 1;
    match r.functions
    case None => (Registry(None, id), Panic(INSERT_FAILED))
    case Some(m) => (Registry(Some(m[id := callback]), id), Ok(id))
  }

  /** remove_callback: delete one id from the attached map; panics when detached. */
  function Remove<C>(r: Registry<C>, id: nat): (res: (Registry<C>, Outcome<()>))
    ensures res.0.i == r.i
    ensures r.functions.None? ==> res == (r, Panic(INSERT_FAILED))
    ensures r.functions.Some? ==>
      && res.1 == Ok(())
      && res.0.functions.Some?
      && res.0.functions.value.Keys == r.functions.value.Keys - {id}
      && (forall k | k in res.0.functions.value :: res.0.functions.value[k] == r.functions.value[k])
    ensures r.functions.Some? && id !in r.functions.value ==> res.0 == r
    ensures IdsIssued(r) ==> IdsIssued(res.0)
  {
    match r.functions
    case None => (r, Panic(INSERT_FAILED))
    case Some(m) =>
      assert id !in m ==> m - {id} == m;
      (r.(functions := Some(m - {id})), Ok(()))
  }

  /** set_functions: attach a map, whatever the slot held. */
  function Put<C>(r: Registry<C>, funcs: map<nat, C>): Registry<C> {
    r.(functions := Some(funcs))
  }

  /** get_functions: detach the map (`take`), then `unwrap` it. */
  function Take<C>(r: Registry<C>): (res: (Registry<C>, Outcome<map<nat, C>>))
    ensures res.0.functions.None? && res.0.i == r.i
    ensures r.functions.None? ==> res.1 == Panic(UNWRAP_NONE)
    ensures r.functions.Some? ==> res.1.Ok? && Put(res.0, res.1.value) == r
  {
    match r.functions
    case None => (r, Panic(UNWRAP_NONE))
    case Some(m) => (r.(functions := None), Ok(m))
  }

  /** Successive add_callback calls on an attached registry: the registry they
      leave and the ids they return, in call order. */
  function AddAll<C>(r: Registry<C>, callbacks: seq<C>): (res: (Registry<C>, seq<nat>))
    requires r.functions.Some?
    ensures res.0.functions.Some? && res.0.i == r.i + |callbacks|
    ensures |res.1| == |callbacks|
    ensures |callbacks| > 0 ==> res.1[0] == r.i + 1
    ensures forall j, k | 0 <= j < k < |res.1| :: res.1[j] < res.1[k]
    ensures forall k | 0 <= k < |res.1| :: r.i < res.1[k] <= res.0.i
    ensures forall id :: id in res.0.functions.value <==> id in r.functions.value || id in res.1
    ensures forall k | 0 <= k < |res.1| :: res.0.functions.value[res.1[k]] == callbacks[k]
    ensures forall id | id in r.functions.value && id !in res.1 ::
              res.0.functions.value[id] == r.functions.value[id]
    ensures IdsIssued(r) ==> IdsIssued(res.0)
    decreases |callbacks|
  {
    if callbacks == [] then (r, [])
    else
      var (r1, first) := Add(r, callbacks[0]);
      var (r2, rest) := AddAll(r1, callbacks[1..]);
      (r2, [first.value] + rest)
  }

  /** Successive ids never repeat one already registered, and a fresh holder
      hands out 1, 2, 3, ... */
  lemma {:induction false} AddAllFromFresh<C>(callbacks: seq<C>)
    ensures forall id :: id in AddAll(Registry(Some(map[]), 0), callbacks).0.functions.value
                         <==> 1 <= id <= |callbacks|
    ensures forall k | 0 <= k < |callbacks| :: AddAll(Registry(Some(map[]), 0), callbacks).1[k] == k + 1
  {
    var res := AddAll(Registry(Some(map[]), 0), callbacks);
    var ids := res.1;
    forall k | 0 <= k < |ids| ensures ids[k] == k + 1 {
      IdsAreConsecutive(0, ids, k);
    }
    forall id | id in res.0.functions.value ensures 1 <= id <= |callbacks| {
      assert id in ids;
    }
    forall id | 1 <= id <= |callbacks| ensures id in res.0.functions.value {
      assert ids[id - 1] == id;
    }
  }

  /** A strictly increasing sequence squeezed between lo and lo + |ids| counts up by one. */
  lemma {:induction false} IdsAreConsecutive(lo: nat, ids: seq<nat>, k: nat)
    requires forall j, m | 0 <= j < m < |ids| :: ids[j] < ids[m]
    requires forall j | 0 <= j < |ids| :: lo < ids[j] <= lo + |ids|
    requires k < |ids|
    ensures ids[k] == lo + k + 1
    decreases |ids| - k
  {
    if k + 1 < |ids| {
      IdsAreConsecutive(lo, ids, k + 1);
    }
    // The entries before position k push ids[k] up, the one after it (or the bound) holds it down.
    LowerBound(lo, ids, k);
  }

  /** The k-th element of a strictly increasing sequence above lo is at least lo + k + 1. */
  lemma {:induction false} LowerBound(lo: nat, ids: seq<nat>, k: nat)
    requires forall j, m | 0 <= j < m < |ids| :: ids[j] < ids[m]
    requires forall j | 0 <= j < |ids| :: lo < ids[j]
    requires k < |ids|
    ensures ids[k] >= lo + k + 1
    decreases k
  {
    if k > 0 {
      LowerBound(lo, ids, k - 1);
    }
  }

  /** The holder object: the slot and the counter, changed in place. */
  class CallbackHolder<C> {
    var functions: Option<map<nat, C>>
    var i: nat

    function State(): Registry<C>
      reads this
    {
      Registry(functions, i)
    }

    ghost predicate Valid()
      reads this
    {
      IdsIssued(State())
    }

    constructor ()
      ensures State() == Registry(Some(map[]), 0)
      ensures Valid()
    {
      functions := Some(map[]);
      i := 0;
    }

    method Increment() returns (id: nat)
      modifies this`i
      ensures i == old(i) + 1 && id == i
    {
      i := i + 1;
      id := i;
    }

    method GetFunctions() returns (r: Outcome<map<nat, C>>)
      modifies this`functions
      ensures (State(), r) == Take(old(State()))
    {
      var slot := functions;
      functions := None;
      match slot
      case None => r := Panic(UNWRAP_NONE);
      case Some(m) => r := Ok(m);
    }

    method SetFunctions(funcs: map<nat, C>)
      modifies this`functions
      ensures State() == Put(old(State()), funcs)
    {
      functions := Some(funcs);
    }

    method AddCallback(callback: C) returns (r: Outcome<nat>)
      modifies this
      ensures (State(), r) == Add(old(State()), callback)
    {
      var id := Increment();
      match functions
      case None => r := Panic(INSERT_FAILED);
      case Some(m) =>
        functions := Some(m[id := callback]);
        r := Ok(id);
    }

    method RemoveCallback(id: nat) returns (r: Outcome<()>)
      modifies this`functions
      ensures (State(), r) == Remove(old(State()), id)
    {
      match functions
      case None => r := Panic(INSERT_FAILED);
      case Some(m) =>
        functions := Some(m - {id});
        r := Ok(());
    }
  }
}
