# ratatui_router runtime core, modelled in Dafny

This project models three runtime pieces of the `ratatui_router` crate, a page router for terminal user interfaces:

- **The callback registry** (`src/callback.rs`). `CallbackHolder` keeps an id counter and a map from id to callback. The map sits in an `Option` slot so that it can be detached. `SelfCallbackablePrivate::provoke` detaches the map, calls every callback once with the owner, and then reattaches it.
- **The context store** (`src/context.rs`). It maps a value type's identity to one shared mutable cell (`Rc<RefCell<T>>`).
- **The event model and its hooks** (`src/event.rs`). `Events<T>` has five variants. Four hooks call a closure only when the current event has the matching variant.

Files:

- `outcomes.dfy`: `Option`, and `Outcome`, which makes a Rust panic (a failed `expect` or `unwrap`) an explicit result. A panic stops the operation where it happens, so nothing after the panicking call runs.
- `callback.dfy` (module `CallbackRegistry`): the holder as a value (`Registry`), with specification functions `Add`, `Remove`, `Take` and `Put`. The class `CallbackHolder` has the real fields `functions` and `i`, and each of its methods is proved against those functions. `AddAll` models a run of successive registrations.
- `context.dfy` (module `ContextStore`): type identity is a finite tag (`TypeTag`). Values are `Value`, whose 64-bit and 8-bit integers are bounded newtypes. Each shared cell is a heap object (`Cell`), and the store is `Context` with a field `entries: map<TypeTag, Cell>`. Because the cell is an object, aliasing can be checked: two handles alias exactly when they are the same object. `ContextScenario` replays the crate's `test_context`. `ReplacedHandleScenario` shows that a handle taken before a re-create keeps the old cell.
- `event.dfy` (module `EventModel`): `Events<T, E>`, where `E` stands for the terminal input event, which is kept opaque. `Trigger` says which hook a slot value wakes and with which argument.
- `hooks.dfy` (module `Hooks`): the class `Owner` plays the router's part. It holds a `CallbackHolder`, the event slot and one more piece of state (`ticks`). A closure is modelled as an `Action`, meaning what its body does to the owner: nothing, `Tick`, `set_event`, `add_callback` or `remove_callback`. Its effect is the function `Apply`. A ghost `log` records every closure call. For a registry callback it records the id and whether the map was attached during the call. For a hook it records the argument and the event slot as the closure saw it. `RunAll` is a run of callbacks in one order, stopping at the first panic.

`HashMap` iteration order is unspecified, so callbacks are visited in an arbitrary order (`:|` choice). The ghost out-parameter `order` reports the order actually used.

**Re-entrant registration panics.** `provoke` detaches the map before calling the callbacks, so while they run the slot is `None`, and an `add_callback` or `remove_callback` made from a callback reaches `expect("Failed to insert new callback")` (src/callback.rs:31-33, 39-41). `Hooks.Owner.Provoke` proves that provoke finishes without panicking exactly when no registered callback touches the registry. `ReentrantRegistrationScenario` shows the panic on a concrete registry.

The bodies of `get_event`, `get_event_mut` and `set_event` are in `src/router.rs`, which is not part of this model. They are modelled as a read of the slot, the slot itself, and storing `Some(event)` in it.

## Model

| member | source | states |
|---|---|---|
| `CallbackRegistry.CallbackHolder.constructor` | src/callback.rs:9-14 | A new holder has its map slot present and empty, and counter 0; it satisfies the id invariant |
| `CallbackRegistry.CallbackHolder.Increment` | src/callback.rs:16-19 | The counter goes up by one, and the new value is returned |
| `CallbackRegistry.Take` | src/callback.rs:21-23 | Detaching leaves the slot `None` and the counter as it was. An attached map is returned, and putting it back restores the original holder exactly. A detached slot panics on `unwrap` |
| `CallbackRegistry.CallbackHolder.GetFunctions` | src/callback.rs:21-23 | The holder's new state and the result are those of `Take` on its old state |
| `CallbackRegistry.CallbackHolder.SetFunctions` | src/callback.rs:25-27 | The new state is `Put` of the old: the slot holds the given map and the counter is unchanged; `Put` undoes `Take` |
| `CallbackRegistry.Add` | src/callback.rs:16-36 | The counter always rises by one. On an attached map, the returned id is the new counter and exactly one entry is added under it, holding the callback. Every other entry is unchanged. If the ids in the map were handed out by the counter, the new id was not in the map and the invariant still holds. On a detached map it panics with "Failed to insert new callback", after the counter has moved |
| `CallbackRegistry.CallbackHolder.AddCallback` | src/callback.rs:29-36 | The holder's new state and the result are those of `Add` on its old state |
| `CallbackRegistry.Remove` | src/callback.rs:38-43 | On an attached map, exactly the given id is deleted and the other entries keep their callbacks. Removing an absent id changes nothing. The counter never changes. On a detached map it panics with "Failed to insert new callback". The id invariant is kept |
| `CallbackRegistry.CallbackHolder.RemoveCallback` | src/callback.rs:38-43 | The holder's new state and the result are those of `Remove` on its old state |
| `CallbackRegistry.AddAll` | src/callback.rs:29-35 | For successive registrations, the returned ids are strictly increasing. They lie between the old and the new counter, and the first is the old counter plus one. Each id maps to its own callback. The key set is the old keys plus the new ids, and every old entry whose id was not handed out again keeps its callback (under the id invariant, that is every old entry) |
| `CallbackRegistry.AddAllFromFresh` | src/callback.rs:9-19 | On a fresh holder, the k-th registration gets id k+1 (so the first id is 1), and the map's keys are exactly 1 up to the number of registrations |
| `Hooks.Owner.AddCallback` | src/callback.rs:92-94 | `SelfCallbackable::add_callback` changes the owner's holder as `Add` says and keeps the id invariant |
| `Hooks.Owner.RemoveCallback` | src/callback.rs:98-100 | `SelfCallbackable::remove_callback` changes the owner's holder as `Remove` says and keeps the id invariant |
| `Hooks.Apply` | src/callback.rs:31-33 | A closure body never attaches or detaches the registry map. It panics exactly when it calls `add_callback` or `remove_callback` while the map is detached, with "Failed to insert new callback". With the map detached and no panic, the registry is unchanged. Only `set_event` changes the slot. The id counter never goes down |
| `Hooks.RunAll` | src/callback.rs:45-53 | Running callbacks in an order with the map detached finishes without panicking exactly when none of them touches the registry, and then the registry is unchanged. With the map attached no run panics. The map's attachment and the id invariant are kept, and the id counter never goes down |
| `Hooks.RunAllSnoc` | src/callback.rs:49-51 | A run over one more callback is the run so far followed by that callback, unless the run so far already panicked |
| `Hooks.Owner.ProvokeWithoutBorrow` | src/callback.rs:45-53 | Each callback of the map is called at most once, and all of them when there is no panic; the map is then handed back unchanged. The owner ends as `RunAll` over the order used. A panic comes from the last callback called. The id counter never goes down |
| `Hooks.Owner.Provoke` | src/callback.rs:111-115 | A detached slot panics on `unwrap`. Otherwise every callback ran with the slot `None` (each log entry says detached), and each registered callback ran at most once. Provoke finishes exactly when no callback touches the registry. It then has called every callback once, and the holder is back to the same map and the same counter. On a panic the map stays detached. Either way the id counter never goes down |
| `Hooks.Owner.ProvokeAttached` | src/callback.rs:56-60 | The holder is unchanged. A detached slot panics on `unwrap`. Otherwise each callback is called at most once with the owner, which ends as `RunAll` says. While the owner's own map is attached no callback can panic, so provoke then finishes exactly when the holder's slot is present, having called every callback of it once. The owner's id counter never goes down, so ids handed out afterwards exceed earlier ones |
| `Hooks.Owner.SetEvent` | src/event.rs:104 | The slot holds the given event |
| `Hooks.Owner.TakeEvent` | src/event.rs:103 | `get_event_mut().take()` returns the slot's old content and leaves it `None` |
| `Hooks.Owner.GetEvent` | src/event.rs:46 | Returns the event held in the slot |
| `EventModel.Trigger` | src/event.rs:62-99 | No hook fires on an empty slot. A hook fires exactly when the slot holds the variant it waits for. use_event passes the input event and use_custom_event passes the custom payload |
| `EventModel.HooksAreExclusive` | src/event.rs:62-99 | No event wakes two different hooks |
| `EventModel.EachEventWakesOneHook` | src/event.rs:6-17 | Each of the four variants other than Started wakes exactly one hook, and Started wakes none |
| `Hooks.Owner.UseEvent` | src/event.rs:62-69 | The closure is called exactly when the slot holds `Event(ev)`, once, with `ev`, and with the slot `None` during the call. Afterwards the slot again holds the original event, even if the closure called `set_event`. Otherwise nothing changes, which includes an empty slot staying `None` |
| `Hooks.Owner.UseCustomEvent` | src/event.rs:82-89 | The same as use_event, for `Custom(p)` with payload `p` |
| `Hooks.Owner.UseExit` | src/event.rs:72-78 | The closure is called exactly when the slot holds `Exit`, once, with the slot still holding it, and its effect stays. Otherwise nothing changes |
| `Hooks.Owner.UsePageChange` | src/event.rs:93-99 | The closure is called exactly when the slot holds `PageChanged`, once, with the slot still holding it, and its effect stays. Otherwise nothing changes |
| `ContextStore.Context.constructor` | src/context.rs:13-17 | A new store is empty, and no type has a context |
| `ContextStore.Context.CreateContext` | src/context.rs:20-23 | The value's type then has a context. Its cell is newly allocated, holds the value and is not borrowed. Every other type keeps its entry, or its absence, and its cell. A handle taken earlier therefore keeps the old cell |
| `ContextStore.Context.GetContext` | src/context.rs:28-35 | It succeeds exactly when the type has an entry, and then yields that entry's cell, which holds the requested type. Otherwise it panics with "Context not created". It is a function of the store, so two calls with no re-create in between yield the same cell |
| `ContextStore.Context.IsContextExists` | src/context.rs:39-41 | True exactly when get_context would succeed |
| `ContextStore.CellsOfDistinctTypesAreDistinct` | src/context.rs:55-59 | The cells of two different types are different objects, so an exclusive borrow of one leaves the other readable |
| `ContextStore.Cell.Read` | src/context.rs:52-58 | A read yields the cell's current value, which has the cell's type. It panics only while an exclusive borrow of that same cell is outstanding |
| `ContextStore.Cell.Write` | src/context.rs:53 | A write through a temporary exclusive borrow stores the value, or panics if the cell is already borrowed. The value keeps the cell's type |
| `ContextStore.Cell.BorrowMut` | src/context.rs:56 | Taking the exclusive guard succeeds unless one is already held. Either way the cell ends up borrowed and its value is unchanged |
| `ContextStore.Cell.WriteGuarded` | src/context.rs:59 | Writing through the held guard stores the value |
| `ContextStore.Cell.ReleaseMut` | src/context.rs:59-60 | Dropping the guard leaves the cell unborrowed with its value unchanged |

## Left out

- `src/router.rs` is not part of this model. That leaves out the router's main loop, its navigation stack, `change_page`, `go_back`, `exit` and `run`, and the bodies of `get_event`, `get_event_mut`, `set_event` and `get_callback`. `Hooks.Owner` stands in only for the router's callback holder and event slot.
- Hooks.Owner.GetEvent: requires a present slot, because the trait returns `&Events<T>` and the router's implementation for an empty slot is not part of this model.
- Closure bodies are reduced to one `Action` each. Closures that keep their own mutable state (`FnMut`), or do several things, or call hooks, are not modelled. Neither is a panic raised inside a closure other than the registry's own.
- CallbackRegistry.CallbackHolder.Increment: the counter is an unbounded `nat`. A `usize` overflow after 2^64 − 1 registrations is not modelled; it would panic in a debug build and wrap to 0 in a release build.
- HashMap iteration order is an arbitrary choice, not the real hash order.
- ContextStore: only the two value types used by `test_context` (`i64`, `i8`) are in the type universe. `Any` and `downcast_ref` are not modelled, and neither is the "Type mismatch" branch, which keying by type makes unreachable.
- ContextStore.Cell: `RefCell` is reduced to one exclusive-borrow flag. Long-lived shared borrow guards, borrow counts and the exact panic texts of the standard library are not modelled.
- The procedural macro crate and the example application (terminal setup, rendering, key handling) are out of scope.
