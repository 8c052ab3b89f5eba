/** Values exchanged between a wl_keyboard binding, its seat and the Wayland
    wire transport. The transport itself is not modelled: every call the
    binding makes into it, and every callback it receives from it, becomes
    one `Action` appended to the binding's trace. */
module WaylandWire {

  /** The protocol's `uint` (quint32 in the server code). */
  newtype u32 = x: int | 0 <= x < 0x1_0000_0000

  datatype Option<+T> = None | Some(value: T)

  /** A client connection (wl_client). */
  datatype ClientId = ClientId(id: nat)

  /** A wire object (wl_resource) created by the transport. */
  datatype ResourceId = ResourceId(id: nat)

  /** A surface that can hold keyboard focus, named by its own wire object. */
  datatype SurfaceId = SurfaceId(id: nat)

  /** wl_keyboard.keymap_format: NO_KEYMAP = 0, XKB_V1 = 1. */
  datatype KeymapFormat = NoKeymap | XkbV1

  /** wl_keyboard.key_state: RELEASED = 0, PRESSED = 1. */
  datatype KeyState = Released | Pressed

  /** The events of the wl_keyboard interface, with their arguments in wire order. */
  datatype Event =
    | Keymap(format: KeymapFormat, fd: int, size: u32)
    | Enter(serial: u32, surface: SurfaceId, keys: seq<u32>)
    | Leave(serial: u32, surface: SurfaceId)
    | Key(serial: u32, time: u32, key: u32, state: KeyState)
    | Modifiers(serial: u32, depressed: u32, latched: u32, locked: u32, group: u32)

  /** One step at the boundary between the binding and its environment. */
  datatype Action =
      // calls the binding makes into the transport
    | CreateResource(client: ClientId, version: u32, id: u32)   // wl_resource_create
    | PostNoMemory(parent: ResourceId)                          // wl_resource_post_no_memory
    | SetImplementation(resource: ResourceId)                   // wl_resource_set_implementation (with unbind)
    | Send(resource: ResourceId, event: Event)                  // wl_keyboard_send_*
    | DestroyResource(resource: ResourceId)                     // wl_resource_destroy, which runs unbind
      // callbacks the environment delivers to the binding
    | Unbound(resource: ResourceId)                             // transport-initiated unbind (disconnect)
    | SurfaceDestroyed(surface: SurfaceId)                      // the surface's destroyed() signal

  /** What the binding reads from its seat at the moment of a call. */
  datatype Seat = Seat(
    keymapXkbCompatible: bool,
    keymapFd: int,
    keymapSize: u32,
    pressedKeys: seq<u32>,
    timestamp: u32,
    depressedModifiers: u32,
    latchedModifiers: u32,
    lockedModifiers: u32,
    groupModifiers: u32,
    lastModifiersSerial: u32)
}
