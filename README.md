# wl_keyboard server binding — a Dafny model

This project models the server-side half of one client's `wl_keyboard` object,
`KeyboardInterface` in `src/server/keyboard_interface.cpp` of KWayland. The
binding:

- creates the client's wire object and pushes the seat's keymap;
- moves keyboard focus between surfaces with leave and enter events;
- delivers key and modifier events to the focused surface;
- clears the focus silently when the focused surface is destroyed;
- tears the wire object down on unbind or in its destructor.

The Wayland transport is replaced by an append-only trace of `Action`s
(`wayland_wire.dfy`). A trace entry is either a call into the transport
(create, post no-memory, set implementation, send an event, destroy) or a
callback from it (unbind, a surface's `destroyed()` signal). The seat's
getters become a `Seat` value passed to each operation that reads them.

`keyboard_protocol.dfy` defines `Replay`, the view a client can reconstruct
from a trace:

- which wire object is bound;
- whether it has had its keymap;
- which surface it was told has focus;
- whether an enter is still waiting for its modifiers.

`Replay` rejects any trace that breaks the ordering rules. The rules are:
keymap before any other event, leave only for the focused surface, enter
only when nothing is focused, modifiers right after every enter, key and
modifier events only under focus, and nothing sent on an object that is
not bound. The same file holds a function for each operation giving the
actions it appends, and lemmas that turn `Replay` into these properties.

`keyboard_interface.dfy` holds the class `KeyboardInterface`. Its fields are
`resource`, `focusedSurface`, `destroyConnection` and `trace`. Its methods
change them as the C++ methods do, and `destroyed` records that the
destructor has run. Its invariant `Valid()` has six conjuncts:

- the trace is accepted by `Replay`;
- the object the client sees bound is the binding's `resource`;
- while `resource` is set, the focus the client sees is `focusedSurface`, and
  without a `resource` the client sees no focus;
- no enter is still waiting for its modifiers;
- a bound `resource` has had its keymap;
- before the destructor has run, the destroy connection is on
  `focusedSurface`; after it, there is no connection.

`setFocusedSurface` keeps its loop that copies the seat's pressed keys into
the enter event's key array.

`keyboard_scenarios.dfy` holds verified scenarios on fixed inputs:

- creation with a compatible keymap, with an incompatible one, and with a
  failed object;
- a focus switch, clearing the focus twice, and destruction of the focused
  surface and of a former focus;
- one key typed, and the owner's teardown;
- the two release paths of the first finding below, and the unbound but
  focused state of the second.

## Model

| member | source | states |
|---|---|---|
| KeyboardServer.KeyboardInterface.constructor | src/server/keyboard_interface.cpp:65-78 | a new binding has no wire object, no focus, no connection and an empty trace, and satisfies the invariant |
| KeyboardServer.KeyboardInterface.Destroy | src/server/keyboard_interface.cpp:80-85 | the destructor destroys the wire object exactly when `resource` is still set, appending one destroy; afterwards nothing is bound to the binding and the invariant still holds |
| KeyboardServer.KeyboardInterface.CreateInterface | src/server/keyboard_interface.cpp:87-104 | `resource` becomes the transport's creation outcome; the trace grows by the create request, then either the no-memory error on the parent or the implementation attach followed by the seat keymap; the protocol invariant is kept |
| KeyboardServer.KeyboardInterface.Unbind | src/server/keyboard_interface.cpp:106-110 | the transport's unbind nulls `resource`, leaves the focus and the connection as they were, and records the unbind |
| KeyboardServer.KeyboardInterface.ReleaseCallbackAsWritten | src/server/keyboard_interface.cpp:112-116 | as written, release only nulls `resource`; the trace and everything else are unchanged, so the wire object stays bound (see Findings) |
| KeyboardServer.KeyboardInterface.ReleaseCallback | src/server/keyboard_interface.cpp:112-116 | corrected release: one destroy of the wire object, which runs unbind and nulls `resource`; the invariant holds, so the client view has nothing bound |
| KeyboardServer.KeyboardInterface.SetKeymap | src/server/keyboard_interface.cpp:118-121 | exactly one XKB_V1 keymap event with the given fd and size is appended, on the bound object |
| KeyboardServer.KeyboardInterface.SendKeymapFromSeat | src/server/keyboard_interface.cpp:123-133 | appends exactly the seat keymap event on the bound object |
| KeyboardServer.KeyboardInterface.SendKeymap | src/server/keyboard_interface.cpp:135-139 | appends one XKB_V1 keymap event with exactly the given fd and size |
| KeyboardServer.KeyboardInterface.SendModifiers | src/server/keyboard_interface.cpp:141-145 | appends one modifiers event with the given values and serial |
| KeyboardServer.KeyboardInterface.SendModifiersFromSeat | src/server/keyboard_interface.cpp:147-150 | appends one modifiers event carrying the seat's depressed, latched, locked and group state with `lastModifiersSerial` |
| KeyboardServer.KeyboardInterface.SetFocusedSurface | src/server/keyboard_interface.cpp:152-179 | corrected focus change: the focus and the destroy connection become the new surface; if an object is bound, the trace grows by the leave for the old focus (if any), then for a new surface the enter with the seat's pressed keys, in order, and one modifiers push; without one nothing is sent; the protocol invariant is kept (see Findings) |
| KeyboardServer.KeyboardInterface.SetFocusedSurfaceAsWritten | src/server/keyboard_interface.cpp:152-179 | as written: defined only when every send has a bound object (no old and no new focus, or a bound `resource`), and then the same focus, connection and trace as above |
| KeyboardServer.KeyboardInterface.SurfaceDestroyed | src/server/keyboard_interface.cpp:162-166 | destruction of the connected surface clears the focus and the connection with no event; destruction of any other surface changes nothing |
| KeyboardServer.KeyboardInterface.KeyPressed | src/server/keyboard_interface.cpp:181-185 | corrected: requires focus; appends one PRESSED key event with the serial, the seat's timestamp and the key when an object is bound, and nothing otherwise; the focus and the resource are unchanged (see Findings) |
| KeyboardServer.KeyboardInterface.KeyPressedAsWritten | src/server/keyboard_interface.cpp:181-185 | as written: requires focus and a bound `resource`, then appends exactly the one PRESSED key event |
| KeyboardServer.KeyboardInterface.KeyReleased | src/server/keyboard_interface.cpp:187-191 | corrected: requires focus; appends one RELEASED key event with the serial, the seat's timestamp and the key when an object is bound, and nothing otherwise; the focus and the resource are unchanged (see Findings) |
| KeyboardServer.KeyboardInterface.KeyReleasedAsWritten | src/server/keyboard_interface.cpp:187-191 | as written: requires focus and a bound `resource`, then appends exactly the one RELEASED key event |
| KeyboardServer.KeyboardInterface.UpdateModifiers | src/server/keyboard_interface.cpp:193-197 | requires focus; appends one modifiers event with exactly the given values; the focus and the resource are unchanged |
| KeyboardServer.KeyboardInterface.FocusedSurface | src/server/keyboard_interface.cpp:199-202 | the accessor returns the surface whose destruction the binding listens to; while an object is bound, it is the surface the client was last told has focus |
| KeyboardServer.KeyboardInterface.Resource | src/server/keyboard_interface.cpp:204-207 | the accessor returns the wire object still bound to the binding, which is null after unbind |
| KeyboardProtocol.SeatKeymap | src/server/keyboard_interface.cpp:123-133 | the initial keymap is XKB_V1 exactly when the seat's keymap is XKB-compatible, and then carries the seat's fd and size; otherwise it is NO_KEYMAP of size 0 on the /dev/null descriptor |
| KeyboardProtocol.SeatModifiers | src/server/keyboard_interface.cpp:147-150 | the pushed modifiers are the seat's depressed, latched, locked and group values with `lastModifiersSerial` as serial |
| KeyboardProtocol.CreateKeepsProtocol | src/server/keyboard_interface.cpp:92-104 | on an unbound, unfocused binding, creation keeps the trace legal; failure leaves the view unbound, and success binds the new object and marks its keymap as sent |
| KeyboardProtocol.CreateSendsOneKeymap | src/server/keyboard_interface.cpp:92-104 | a successful creation sends exactly one event, the seat keymap; a failed one sends no event, and a no-memory error is posted exactly when creation fails |
| KeyboardProtocol.FocusKeepsProtocol | src/server/keyboard_interface.cpp:152-179 | any focus change from a legal state keeps the trace legal; with a bound object the client then sees exactly the new focus, and without one the trace is unchanged |
| KeyboardProtocol.StepAt | src/server/keyboard_interface.cpp:152-197 | each prefix of a legal trace is legal, and each step of it is allowed by the protocol rules |
| KeyboardProtocol.ReplayCoherent | src/server/keyboard_interface.cpp:168-178 | whenever an enter is still waiting for its modifiers, the object is bound and keymapped and a surface is focused |
| KeyboardProtocol.LeaveOnlyForFocused | src/server/keyboard_interface.cpp:154-157 | in a legal trace each leave names the surface the client saw focused, and afterwards it sees no focus |
| KeyboardProtocol.EnterOnlyWhenUnfocused | src/server/keyboard_interface.cpp:154-175 | in a legal trace an enter only comes when the client sees no focus, so the previous focus was left or destroyed first; afterwards the entered surface is focused |
| KeyboardProtocol.EnterFollowedByModifiers | src/server/keyboard_interface.cpp:175-178 | in a legal trace that does not stop inside an operation, every enter is followed at once by a modifiers event on the same object |
| KeyboardProtocol.InputOnlyWhileFocused | src/server/keyboard_interface.cpp:181-197 | in a legal trace, key and modifiers events are only sent while the client sees a focused surface |
| KeyboardProtocol.KeymapComesFirst | src/server/keyboard_interface.cpp:99-104 | in a legal trace every event is sent on the bound object, and every event other than a keymap comes after that object's keymap |
| KeyboardProtocol.TeardownsBalanced | src/server/keyboard_interface.cpp:80-116 | in a legal trace, teardowns by either path (destroy or unbind) number the attached objects minus the one still bound, so no object is torn down twice |
| KeyboardScenarios.CreateWithCompatibleKeymap | src/server/keyboard_interface.cpp:92-104 | a client at version 4 with id 7 and a compatible seat keymap (fd 3, size 1024) gets a bound object; the trace is exactly the create request, the implementation attach and one XKB_V1 keymap with fd 3 and size 1024 |
| KeyboardScenarios.CreateWithIncompatibleKeymap | src/server/keyboard_interface.cpp:126-132 | an incompatible seat keymap produces exactly one NO_KEYMAP event of size 0 on the /dev/null descriptor |
| KeyboardScenarios.CreateOutOfMemory | src/server/keyboard_interface.cpp:94-98 | failed creation leaves `resource` null and records only the create request and the no-memory error on the parent |
| KeyboardScenarios.FocusSwitch | src/server/keyboard_interface.cpp:152-179 | focusing A (serial 10, keys 30 and 31) and then B (serial 11, no keys) gives enter A, modifiers, leave A, enter B, modifiers |
| KeyboardScenarios.UnfocusTwice | src/server/keyboard_interface.cpp:154-161 | clearing the focus sends a single leave; clearing it again sends nothing |
| KeyboardScenarios.FocusedSurfaceDestroyed | src/server/keyboard_interface.cpp:162-166 | destroying the focused surface clears the focus with no leave event |
| KeyboardScenarios.FormerFocusDestroyed | src/server/keyboard_interface.cpp:154-166 | a surface that lost focus to another no longer affects the focus when destroyed |
| KeyboardScenarios.TypeOneKey | src/server/keyboard_interface.cpp:181-197 | a press, a release and a modifiers update under focus send exactly those three events, in call order |
| KeyboardScenarios.OwnerTeardown | src/server/keyboard_interface.cpp:80-85 | destroying a bound binding destroys its object exactly once and leaves nothing bound |
| KeyboardScenarios.ReleaseAsWrittenThenTeardown | src/server/keyboard_interface.cpp:112-116 | with release as written, once the binding is destroyed its wire object is still bound to it |
| KeyboardScenarios.ReleaseThenTeardown | src/server/keyboard_interface.cpp:112-116 | with the corrected release, the object is destroyed exactly once, on release, and nothing is still bound after the destructor |
| KeyboardScenarios.UnbindKeepsFocus | src/server/keyboard_interface.cpp:106-110 | after a focus and an unbind, the focus is still set while no object is bound, so neither `SetFocusedSurfaceAsWritten` nor `KeyPressedAsWritten` may be called, although keyPressed's focus assertion holds |
| KeyboardScenarios.UnboundKeyboardStaysQuiet | src/server/keyboard_interface.cpp:152-191 | in that state the corrected key press, release and focus changes send nothing, the focus still follows the calls, and nothing is bound |

## Left out

- `src/server/region_interface.h` is not part of this model. It only declares `RegionInterface`, with no bodies, and its geometry is Qt's `QRegion`.
- The Wayland transport calls (`wl_resource_create`, `wl_resource_set_implementation`, `wl_keyboard_send_*`, `wl_resource_destroy`, `wl_resource_post_no_memory`) are not executed. Each becomes one trace entry, and the result of `wl_resource_create` is the `outcome` parameter.
- `wl_resource_destroy` runs the object's destroy callback (`unbind`) immediately. The model records this as a single destroy entry and nulls `resource` in the same step.
- Qt's `connect`/`disconnect` and `QObject::destroyed` are not modelled as such. The `destroyConnection` field stands for the connection, and `SurfaceDestroyed` stands for the signal. The trace records every surface destruction the binding is told about, whether or not it is connected.
- The `/dev/null` descriptor is not opened or closed (file I/O). Its value is the `nullFd` parameter, and the `close` at line 131 is not modelled.
- `wl_array` allocation is not modelled. Only the resulting sequence of key codes is kept.
- The seat's internals are not modelled. Its getters are read from the `Seat` value passed to each call.
- `cast` and `wl_resource_get_user_data` are not modelled, and neither is the public/`Private` split.
- `Q_ASSERT(focusedSurface)` and `Q_ASSERT(resource)` become `requires` clauses. `setKeymap` and `updateModifiers` reach `Q_ASSERT(resource)` in the private send helpers, so they require a bound `resource`. `setFocusedSurface`, `keyPressed` and `keyReleased` have no `Q_ASSERT(resource)`; their corrected members skip the send instead (second finding).
- KeyboardServer.KeyboardInterface.CreateInterface: requires an unbound, unfocused binding. The code does not check this. The seat creates one binding per request and calls `createInterfae` once on it right away.
- KeyboardServer.KeyboardInterface.Unbind: unbind clears neither the focus nor the connection, because the code at lines 106-110 only nulls `resource`.
- KeyboardServer.KeyboardInterface.Destroy: its protocol postcondition is conditional on the invariant holding before the call. It can still run after `ReleaseCallbackAsWritten`, which breaks the invariant.
- The enter event carries the seat's pressed keys exactly in the seat's order, duplicates included. The code copies them as they are and does not build a set.
- Serials, timestamps, key codes, sizes and modifier masks are `u32` values (0 to 2^32-1). The binding only passes them through and never does arithmetic on them.

## Findings

| source | as written | input that shows it | evidently intended | confidence | as-written member | corrected member |
|---|---|---|---|---|---|---|
| src/server/keyboard_interface.cpp:112-116 | `releaseCallback` only calls `unbind`, which nulls `resource`. The wire object is never destroyed, so it keeps the binding as its implementation. | Create the keyboard, the client sends `release`, then the seat deletes the `KeyboardInterface`. The destructor sees a null `resource` and destroys nothing. The object is still bound, and on disconnect its `unbind` writes into the freed binding. | `release` is a destructor request, so the handler should call `wl_resource_destroy`. That runs `unbind` and leaves nothing bound. | medium, not executed | KeyboardServer.KeyboardInterface.ReleaseCallbackAsWritten, KeyboardScenarios.ReleaseAsWrittenThenTeardown | KeyboardServer.KeyboardInterface.ReleaseCallback, KeyboardScenarios.ReleaseThenTeardown |
| src/server/keyboard_interface.cpp:152-191 | `unbind` nulls `resource` but keeps `focusedSurface`. The next `setFocusedSurface` sends its leave to the null `resource` (line 155), and `keyPressed`/`keyReleased` send their key event to it (lines 184, 190). Only `Q_ASSERT(focusedSurface)` guards them, and it holds. | Create the keyboard, focus surface A, then the client disconnects, so `unbind` runs. The seat then calls `keyPressed`, or `setFocusedSurface` with any surface. | Nothing should be sent once the object is gone. The sends are skipped when `resource` is null, while the focus is still tracked. | medium, not executed | KeyboardServer.KeyboardInterface.SetFocusedSurfaceAsWritten, KeyboardServer.KeyboardInterface.KeyPressedAsWritten, KeyboardServer.KeyboardInterface.KeyReleasedAsWritten, KeyboardScenarios.UnbindKeepsFocus | KeyboardServer.KeyboardInterface.SetFocusedSurface, KeyboardServer.KeyboardInterface.KeyPressed, KeyboardServer.KeyboardInterface.KeyReleased, KeyboardScenarios.UnboundKeyboardStaysQuiet |
