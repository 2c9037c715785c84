/** The owner of a callback holder and of an event slot (the router's role):
    registering and removing callbacks, provoking them with the registry
    detached, and the four event hooks. Closures are modelled by what their
    body does to the owner, and a ghost log records every call of one. */
module Hooks {
  import opened Outcomes
  import opened CallbackRegistry
  import opened EventModel

  /** A callback or hook closure, reduced to what its body does to the owner. */
  datatype Action<T, E> =
    | Noop
    | Tick                              // changes owner state outside the registry and the event slot
    | Emit(event: Events<T, E>)         // calls set_event
    | Subscribe(callback: Action<T, E>) // calls add_callback
    | Unsubscribe(id: nat)              // calls remove_callback

  predicate TouchesRegistry<T, E>(a: Action<T, E>) {
    a.Subscribe? || a.Unsubscribe?
  }

  /** The owner as a value. */
  datatype State<T, E> = State(registry: Registry<Action<T, E>>, event: Option<Events<T, E>>, ticks: nat)

  /** One call of a closure: registry callback `id`, recording whether the
      registry's map was attached while it ran; or a hook's callback, with its
      argument and the event slot as the callback found it. */
  datatype Call<T, E> =
    | Fired(id: nat, attached: bool)
    | Hooked(hook: Hook, arg: HookArg<T, E>, slot: Option<Events<T, E>>)

  /** What running one closure body does to the owner. */
  function Apply<T, E>(s: State<T, E>, a: Action<T, E>): (r: (State<T, E>, Outcome<()>))
    ensures r.0.registry.functions.Some? == s.registry.functions.Some?
    ensures r.1.Panic? <==> s.registry.functions.None? && TouchesRegistry(a)
    ensures r.1.Panic? ==> r.1.message == INSERT_FAILED
    ensures s.registry.functions.None? && r.1.Ok? ==> r.0.registry == s.registry
    ensures !TouchesRegistry(a) ==> r.0.registry == s.registry
    ensures IdsIssued(s.registry) ==> IdsIssued(r.0.registry)
    ensures s.registry.i <= r.0.registry.i
    ensures r.0.event == if a.Emit? then Some(a.event) else s.event
    ensures r.0.ticks == if a.Tick? then s.ticks + 1 else s.ticks
  {
    match a
    case Noop => (s, Ok(()))
    case Tick => (s.(ticks := s.ticks + 1), Ok(()))
    case Emit(e) => (s.(event := Some(e)), Ok(()))
    case Subscribe(cb) =>
      var (reg, added) := Add(s.registry, cb);
      (s.(registry := reg), if added.Ok? then Ok(()) else Panic(added.message))
    case Unsubscribe(id) =>
      var (reg, removed) := Remove(s.registry, id);
      (s.(registry := reg), removed)
  }

  /** Every id listed in `order` is in the map. */
  predicate Listed<C>(funcs: map<nat, C>, order: seq<nat>) {
    forall k | 0 <= k < |order| :: order[k] in funcs
  }

  predicate Distinct(order: seq<nat>) {
    forall j, k | 0 <= j < k < |order| :: order[j] != order[k]
  }

  /** Running the callbacks of `funcs` in the order `order`, stopping at the
      first panic. */
  function RunAll<T, E>(s: State<T, E>, funcs: map<nat, Action<T, E>>, order: seq<nat>): (r: (State<T, E>, Outcome<()>))
    requires Listed(funcs, order)
    ensures r.0.registry.functions.Some? == s.registry.functions.Some?
    ensures r.1 == Ok(()) || r.1 == Panic(INSERT_FAILED)
    ensures IdsIssued(s.registry) ==> IdsIssued(r.0.registry)
    ensures s.registry.i <= r.0.registry.i
    ensures s.registry.functions.Some? ==> r.1.Ok?
    ensures s.registry.functions.None? ==>
              (r.1.Ok? <==> forall k | 0 <= k < |order| :: !TouchesRegistry(funcs[order[k]]))
    ensures s.registry.functions.None? && r.1.Ok? ==> r.0.registry == s.registry
    decreases |order|
  {
    if order == [] then (s, Ok(()))
    else
      var (s1, first) := Apply(s, funcs[order[0]]);
      if first.Panic? then (s1, first)
      else
        var rest := RunAll(s1, funcs, order[1..]);
        assert forall k | 1 <= k < |order| :: order[k] == order[1..][k - 1];
        rest
  }

  /** Running one more callback after a run that did not panic. */
  lemma {:induction false} RunAllSnoc<T, E>(s: State<T, E>, funcs: map<nat, Action<T, E>>, order: seq<nat>, id: nat)
    requires Listed(funcs, order) && id in funcs
    ensures Listed(funcs, order + [id])
    ensures RunAll(s, funcs, order + [id]) ==
      var (s1, done) := RunAll(s, funcs, order);
      if done.Panic? then (s1, done) else Apply(s1, funcs[id])
    decreases |order|
  {
    if order != [] {
      assert (order + [id])[0] == order[0];
      assert (order + [id])[1..] == order[1..] + [id];
      var (s1, first) := Apply(s, funcs[order[0]]);
      if first.Ok? {
        RunAllSnoc(s1, funcs, order[1..], id);
      }
    }
  }

  /** The log entries of registry callbacks called in `order`. */
  function FiredAll<T, E>(order: seq<nat>, attached: bool): (calls: seq<Call<T, E>>)
    ensures |calls| == |order|
    ensures forall k | 0 <= k < |order| :: calls[k] == Fired(order[k], attached)
  {
    seq(|order|, k requires 0 <= k < |order| => Fired(order[k], attached))
  }

  class Owner<T, E> {
    const callbacks: CallbackHolder<Action<T, E>>
    var event: Option<Events<T, E>>
    var ticks: nat
    ghost var log: seq<Call<T, E>>

    function Snapshot(): State<T, E>
      reads this, callbacks
    {
      State(callbacks.State(), event, ticks)
    }

    ghost predicate Valid()
      reads this, callbacks
    {
      callbacks.Valid()
    }

    constructor (initial: Option<Events<T, E>>)
      ensures Snapshot() == State(Registry(Some(map[]), 0), initial, 0)
      ensures log == [] && Valid() && fresh(callbacks)
    {
      callbacks := new CallbackHolder();
      event := initial;
      ticks := 0;
      log := [];
    }

    /** SelfCallbackable::add_callback. */
    method AddCallback(callback: Action<T, E>) returns (r: Outcome<nat>)
      modifies callbacks
      ensures (callbacks.State(), r) == Add(old(callbacks.State()), callback)
      ensures old(Valid()) ==> Valid()
    {
      r := callbacks.AddCallback(callback);
    }

    /** SelfCallbackable::remove_callback. */
    method RemoveCallback(id: nat) returns (r: Outcome<()>)
      modifies callbacks
      ensures (callbacks.State(), r) == Remove(old(callbacks.State()), id)
      ensures old(Valid()) ==> Valid()
    {
      r := callbacks.RemoveCallback(id);
    }

    /** EventHookMut::set_event. */
    method SetEvent(e: Events<T, E>)
      modifies this`event
      ensures event == Some(e)
    {
      event := Some(e);
    }

    /** `get_event_mut().take()`. */
    method TakeEvent() returns (slot: Option<Events<T, E>>)
      modifies this`event
      ensures slot == old(event) && event.None?
    {
      slot := event;
      event := None;
    }

    /** EventHook::get_event. */
    function GetEvent(): (e: Events<T, E>)
      reads this
      requires event.Some?
      ensures event == Some(e)
    {
      event.value
    }

    /** Running one closure body against the owner. */
    method Perform(a: Action<T, E>) returns (o: Outcome<()>)
      modifies this, callbacks
      ensures (Snapshot(), o) == Apply(old(Snapshot()), a)
      ensures log == old(log)
    {
      match a
      case Noop => o := Ok(());
      case Tick => ticks := ticks + 1; o := Ok(());
      case Emit(e) => SetEvent(e); o := Ok(());
      case Subscribe(cb) =>
        var added := AddCallback(cb);
        o := if added.Ok? then Ok(()) else Panic(added.message);
      case Unsubscribe(id) =>
        o := RemoveCallback(id);
    }

    /** CallbackHolder::provoke_without_borrow: call every callback of `funcs`
        once, in an unspecified order, and hand the map back. */
    method ProvokeWithoutBorrow(funcs: map<nat, Action<T, E>>) returns (r: Outcome<map<nat, Action<T, E>>>, ghost order: seq<nat>)
      modifies this, callbacks
      ensures Listed(funcs, order) && Distinct(order)
      ensures log == old(log) + FiredAll(order, old(callbacks.functions).Some?)
      ensures var (s, done) := RunAll(old(Snapshot()), funcs, order);
        && Snapshot() == s
        && (done.Ok? ==> r == Ok(funcs))
        && (done.Panic? ==> r == Panic(done.message))
      ensures r.Ok? ==> forall id | id in funcs :: id in order
      ensures old(callbacks.i) <= callbacks.i
      ensures r.Panic? ==> |order| > 0 && RunAll(old(Snapshot()), funcs, order[..|order| - 1]).1.Ok?
    {
      ghost var s0 := Snapshot();
      ghost var log0 := log;
      ghost var attached := callbacks.functions.Some?;
      var remaining := funcs.Keys;
      order := [];
      while remaining != {}
        invariant remaining <= funcs.Keys
        invariant Listed(funcs, order) && Distinct(order)
        invariant forall k | 0 <= k < |order| :: order[k] !in remaining
        invariant forall id | id in funcs && id !in remaining :: id in order
        invariant RunAll(s0, funcs, order) == (Snapshot(), Ok(()))
        invariant callbacks.functions.Some? == attached
        invariant log == log0 + FiredAll(order, attached)
        decreases remaining
      {
        var id :| id in remaining;
        RunAllSnoc(s0, funcs, order, id);
        ghost var before := order;
        log := log + [Fired(id, callbacks.functions.Some?)];
        order := order + [id];
        assert order[..|order| - 1] == before;
        remaining := remaining - {id};
        var done := Perform(funcs[id]);
        if done.Panic? {
          r := Panic(done.message);
          return;
        }
      }
      r := Ok(funcs);
    }

    /** SelfCallbackablePrivate::provoke: detach the map, call every callback
        once with the owner, reattach the map. A callback that adds or removes
        a callback meanwhile finds the slot empty and panics. */
    method Provoke() returns (o: Outcome<()>, ghost order: seq<nat>)
      modifies this, callbacks
      ensures old(callbacks.functions).None? ==>
        o == Panic(UNWRAP_NONE) && order == [] && Snapshot() == old(Snapshot()) && log == old(log)
      ensures old(callbacks.functions).Some? ==>
        Listed(old(callbacks.functions).value, order) && Distinct(order)
      ensures old(callbacks.functions).Some? ==>
        var funcs := old(callbacks.functions).value;
        var (s, done) := RunAll(old(Snapshot()).(registry := Registry(None, old(callbacks.i))), funcs, order);
        && log == old(log) + FiredAll(order, false)
        && o == done
        && (o.Ok? ==> (forall id | id in funcs :: id in order) && Snapshot() == s.(registry := old(callbacks.State())))
        && (o.Panic? ==> Snapshot() == s && callbacks.functions.None?
                         && |order| > 0 && TouchesRegistry(funcs[order[|order| - 1]]))
      ensures o.Ok? <==> old(callbacks.functions).Some? &&
                         forall id | id in old(callbacks.functions).value :: !TouchesRegistry(old(callbacks.functions).value[id])
      ensures o.Ok? ==> callbacks.State() == old(callbacks.State())
      ensures old(callbacks.i) <= callbacks.i
      ensures old(Valid()) ==> Valid()
    {
      var taken := callbacks.GetFunctions();
      if taken.Panic? {
        o := Panic(taken.message);
        order := [];
        return;
      }
      var funcs := taken.value;
      ghost var s0 := Snapshot();
      var back;
      back, order := ProvokeWithoutBorrow(funcs);
      if back.Panic? {
        o := Panic(back.message);
        ghost var last := order[|order| - 1];
        assert TouchesRegistry(funcs[last]) by {
          RunAllSnoc(s0, funcs, order[..|order| - 1], last);
          assert order[..|order| - 1] + [last] == order;
        }
        return;
      }
      callbacks.SetFunctions(back.value);
      o := Ok(());
    }

    /** CallbackHolder::provoke, which iterates the map while it stays attached
        to `holder`; the owner passed alongside is a distinct borrow, so its own
        holder is not `holder`. */
    method ProvokeAttached(holder: CallbackHolder<Action<T, E>>) returns (o: Outcome<()>, ghost order: seq<nat>)
      requires holder != callbacks
      modifies this, callbacks
      ensures holder.State() == old(holder.State())
      ensures holder.functions.None? ==>
        o == Panic(UNWRAP_NONE) && order == [] && Snapshot() == old(Snapshot()) && log == old(log)
      ensures holder.functions.Some? ==>
        Listed(holder.functions.value, order) && Distinct(order)
      ensures holder.functions.Some? ==>
        var funcs := holder.functions.value;
        var (s, done) := RunAll(old(Snapshot()), funcs, order);
        && log == old(log) + FiredAll(order, old(callbacks.functions).Some?)
        && o == done && Snapshot() == s
        && (o.Ok? ==> forall id | id in funcs :: id in order)
      ensures old(callbacks.functions).Some? ==> (o.Ok? <==> holder.functions.Some?)
      ensures old(callbacks.i) <= callbacks.i
    {
      match holder.functions
      case None =>
        o := Panic(UNWRAP_NONE);
        order := [];
      case Some(funcs) =>
        var back;
        back, order := ProvokeWithoutBorrow(funcs);
        o := if back.Ok? then Ok(()) else Panic(back.message);
    }

    /** EventHook::use_event: detach the event, call `func` with the owner and
        the input event when it is one, put the event back. */
    method UseEvent(func: Action<T, E>) returns (o: Outcome<()>)
      modifies this, callbacks
      ensures var arg := Trigger(OnEvent, old(event));
        && (arg.None? ==> o == Ok(()) && Snapshot() == old(Snapshot()) && log == old(log))
        && (arg.Some? ==>
              var (s, r) := Apply(old(Snapshot()).(event := None), func);
              && log == old(log) + [Hooked(OnEvent, arg.value, None)]
              && o == r
              && Snapshot() == if r.Ok? then s.(event := old(event)) else s)
      ensures o.Ok? ==> event == old(event)
      ensures old(Valid()) ==> Valid()
    {
      var taken := TakeEvent();
      if taken.Some? {
        var e := taken.value;
        if e.Event? {
          log := log + [Hooked(OnEvent, RawArg(e.event), event)];
          o := Perform(func);
          if o.Panic? {
            return;
          }
        }
        SetEvent(e);
      }
      o := Ok(());
    }

    /** EventHook::use_custom_event: as use_event, for the custom payload. */
    method UseCustomEvent(func: Action<T, E>) returns (o: Outcome<()>)
      modifies this, callbacks
      ensures var arg := Trigger(OnCustomEvent, old(event));
        && (arg.None? ==> o == Ok(()) && Snapshot() == old(Snapshot()) && log == old(log))
        && (arg.Some? ==>
              var (s, r) := Apply(old(Snapshot()).(event := None), func);
              && log == old(log) + [Hooked(OnCustomEvent, arg.value, None)]
              && o == r
              && Snapshot() == if r.Ok? then s.(event := old(event)) else s)
      ensures o.Ok? ==> event == old(event)
      ensures old(Valid()) ==> Valid()
    {
      var taken := TakeEvent();
      if taken.Some? {
        var e := taken.value;
        if e.Custom? {
          log := log + [Hooked(OnCustomEvent, CustomArg(e.payload), event)];
          o := Perform(func);
          if o.Panic? {
            return;
          }
        }
        SetEvent(e);
      }
      o := Ok(());
    }

    /** EventHook::use_exit: call `func` with the owner when the event is Exit;
        the event stays in its slot. */
    method UseExit(func: Action<T, E>) returns (o: Outcome<()>)
      modifies this, callbacks
      ensures var arg := Trigger(OnExit, old(event));
        && (arg.None? ==> o == Ok(()) && Snapshot() == old(Snapshot()) && log == old(log))
        && (arg.Some? ==>
              var (s, r) := Apply(old(Snapshot()), func);
              && log == old(log) + [Hooked(OnExit, NoArg, old(event))]
              && o == r && Snapshot() == s)
      ensures old(Valid()) ==> Valid()
    {
      if event.Some? && event.value.Exit? {
        log := log + [Hooked(OnExit, NoArg, event)];
        o := Perform(func);
      } else {
        o := Ok(());
      }
    }

    /** EventHook::use_page_change: call `func` with the owner when the event is
        PageChanged; the event stays in its slot. */
    method UsePageChange(func: Action<T, E>) returns (o: Outcome<()>)
      modifies this, callbacks
      ensures var arg := Trigger(OnPageChange, old(event));
        && (arg.None? ==> o == Ok(()) && Snapshot() == old(Snapshot()) && log == old(log))
        && (arg.Some? ==>
              var (s, r) := Apply(old(Snapshot()), func);
              && log == old(log) + [Hooked(OnPageChange, NoArg, old(event))]
              && o == r && Snapshot() == s)
      ensures old(Valid()) ==> Valid()
    {
      if event.Some? && event.value.PageChanged? {
        log := log + [Hooked(OnPageChange, NoArg, event)];
        o := Perform(func);
      } else {
        o := Ok(());
      }
    }
  }

  /** A callback that registers another one, run by provoke, meets the detached
      slot and panics; the map stays detached. */
  method ReentrantRegistrationScenario<T, E>(ev: E) {
    var owner := new Owner<T, E>(Some(Event(ev)));
    var id := owner.AddCallback(Subscribe(Noop));
    assert id == Ok(1);
    var o, order := owner.Provoke();
    assert o == Panic(INSERT_FAILED);
    assert owner.callbacks.functions.None?;
  }

  /** A provoke over another holder cannot panic while the owner's own map is
      attached, and ids handed out after it still exceed the ones before it. */
  method IdsIncreaseAcrossProvokeScenario<T, E>(holder: CallbackHolder<Action<T, E>>)
    requires holder.Valid()
  {
    var owner := new Owner<T, E>(None);
    var id1 := owner.AddCallback(Noop);
    var o, order := owner.ProvokeAttached(holder);
    var id2 := owner.AddCallback(Noop);
    assert id1.Ok? && id2.Ok? && id1.value < id2.value;
    assert holder.functions.Some? ==> o.Ok?;
  }

  /** use_event puts the input event back even when its callback replaced it,
      and use_exit does not call its callback for an input event. */
  method EventRestoredScenario<T, E>(ev: E, other: Events<T, E>) {
    var owner := new Owner<T, E>(Some(Event(ev)));
    var o := owner.UseEvent(Emit(other));
    assert o == Ok(()) && owner.event == Some(Event(ev));
    assert owner.log == [Hooked(OnEvent, RawArg(ev), None)];
    o := owner.UseExit(Tick);
    assert owner.ticks == 0 && |owner.log| == 1;
  }
}
