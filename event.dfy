/** The event model: why the current render pass happens, and which hook a
    given event wakes. */
module EventModel {
  import opened Outcomes

  /** The cause of a render pass. `T` is the application's custom payload type,
      `E` the terminal input event, kept opaque. */
  datatype Events<T, E> =
    | Custom(payload: T)
    | Event(event: E)
    | Exit
    | PageChanged
    | Started

  /** The four conditional hooks: use_event, use_exit, use_custom_event and
      use_page_change. */
  datatype Hook = OnEvent | OnExit | OnCustomEvent | OnPageChange

  /** What a hook hands its callback besides the owner. */
  datatype HookArg<T, E> = RawArg(event: E) | CustomArg(payload: T) | NoArg

  /** The variant each hook waits for. */
  predicate Awaits<T, E>(h: Hook, e: Events<T, E>) {
    match h
    case OnEvent => e.Event?
    case OnExit => e.Exit?
    case OnCustomEvent => e.Custom?
    case OnPageChange => e.PageChanged?
  }

  /** The argument with which hook `h` calls its callback when the event slot
      holds `slot`, or None when the hook does not call it. */
  function Trigger<T, E>(h: Hook, slot: Option<Events<T, E>>): (r: Option<HookArg<T, E>>)
    ensures slot.None? ==> r.None?
    ensures slot.Some? ==> (r.Some? <==> Awaits(h, slot.value))
    ensures r.Some? && h == OnEvent ==> r.value == RawArg(slot.value.event)
    ensures r.Some? && h == OnCustomEvent ==> r.value == CustomArg(slot.value.payload)
    ensures r.Some? && (h == OnExit || h == OnPageChange) ==> r.value == NoArg
  {
    match slot
    case None => None
    case Some(e) =>
      match e
      case Event(ev) => if h == OnEvent then Some(RawArg(ev)) else None
      case Custom(p) => if h == OnCustomEvent then Some(CustomArg(p)) else None
      case Exit => if h == OnExit then Some(NoArg) else None
      case PageChanged => if h == OnPageChange then Some(NoArg) else None
      case Started => None
  }

  /** No event wakes two different hooks. */
  lemma HooksAreExclusive<T, E>(h1: Hook, h2: Hook, slot: Option<Events<T, E>>)
    requires h1 != h2
    ensures Trigger(h1, slot).None? || Trigger(h2, slot).None?
  {
  }

  /** Every event but Started wakes exactly one hook; Started wakes none. */
  lemma EachEventWakesOneHook<T, E>(e: Events<T, E>)
    ensures e.Started? <==> forall h: Hook :: Trigger(h, Some(e)).None?
    ensures forall h1: Hook, h2: Hook | Trigger(h1, Some(e)).Some? && Trigger(h2, Some(e)).Some? :: h1 == h2
  {
    forall h1: Hook, h2: Hook | h1 != h2 {
      HooksAreExclusive(h1, h2, Some(e));
    }
    if !e.Started? {
      var h := match e
        case Event(_) => OnEvent
        case Custom(_) => OnCustomEvent
        case Exit => OnExit
        case PageChanged => OnPageChange;
      assert Trigger(h, Some(e)).Some?;
    }
  }
}
