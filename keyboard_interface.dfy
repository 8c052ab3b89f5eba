/** The server side of one client's wl_keyboard object (KeyboardInterface and
    its Private part, merged into one class). The wire transport is replaced
    by `trace`, the append-only record of everything the binding did through
    it or received from it; the seat is read through a `Seat` value passed
    to each call that reads it. */
module KeyboardServer {
  import opened WaylandWire
  import opened KeyboardProtocol

  class KeyboardInterface {
    /** The client's wl_keyboard wire object, null before creation and after unbind. */
    var resource: Option<ResourceId>
    /** The surface that has keyboard focus, if any. */
    var focusedSurface: Option<SurfaceId>
    /** The surface whose destroyed() signal is connected to the focus-clearing slot. */
    var destroyConnection: Option<SurfaceId>
    /** Everything exchanged with the transport and the surfaces, in order. */
    var trace: seq<Action>
    /** The binding's destructor has run. */
    var destroyed: bool

    /** The trace follows the protocol; the client's live object is `resource`;
        while it is bound the client sees exactly the binding's focus, and
        without one it sees none; no enter is waiting for its modifiers; a
        bound object has had its keymap; and until the destructor runs the
        destroy connection is on the focused surface (afterwards there is none). */
    ghost predicate Valid()
      reads this
    {
      Replay(trace).Some? &&
      Replay(trace).value.live == resource &&
      Replay(trace).value.focus == (if resource.Some? then focusedSurface else None) &&
      !Replay(trace).value.awaitingModifiers &&
      (resource.Some? ==> Replay(trace).value.keymapSent) &&
      destroyConnection == (if destroyed then None else focusedSurface)
    }

    constructor ()
      ensures Valid() && !destroyed
      ensures resource == None && focusedSurface == None && destroyConnection == None && trace == []
    {
      resource := None;
      focusedSurface := None;
      destroyConnection := None;
      trace := [];
      destroyed := false;
    }

    /** ~KeyboardInterface: destroys the wire object only if it is still
        there; wl_resource_destroy runs the unbind callback, which nulls it. */
    method Destroy()
      requires !destroyed
      modifies this
      ensures destroyed && resource == None && destroyConnection == None
      ensures focusedSurface == old(focusedSurface)
      ensures trace == old(trace) + (if old(resource).Some? then [DestroyResource(old(resource).value)] else [])
      ensures old(Valid()) ==> Valid() && Replay(trace).value.live == None
    {
      if resource.Some? {
        ReplaySnoc(trace, DestroyResource(resource.value));
        trace := trace + [DestroyResource(resource.value)];
        resource := None;
      }
      destroyConnection := None;
      destroyed := true;
    }

    /** createInterfae: ask the transport for the wire object; on failure post
        a no-memory error on the parent, on success attach to it and push the
        keymap. */
    method CreateInterface(client: ClientId, parent: ResourceId, parentVersion: u32, id: u32,
                           outcome: Option<ResourceId>, seat: Seat, nullFd: int)
      requires Valid() && !destroyed
      requires resource.None? && focusedSurface.None?
      modifies this`resource, this`trace
      ensures Valid()
      ensures resource == outcome
      ensures trace == old(trace) + CreateActions(client, parent, parentVersion, id, outcome, seat, nullFd)
    {
      ghost var t0, v0 := trace, Replay(trace).value;
      CreateKeepsProtocol(t0, v0, client, parent, parentVersion, id, outcome, seat, nullFd);
      trace := trace + [CreateResource(client, parentVersion, id)];
      if outcome.None? {
        trace := trace + [PostNoMemory(parent)];
        assert trace == t0 + CreateActions(client, parent, parentVersion, id, outcome, seat, nullFd);
        return;
      }
      var k := outcome.value;
      resource := outcome;
      trace := trace + [SetImplementation(k)];
      SendKeymapFromSeat(seat, nullFd);
      assert trace == t0 + CreateActions(client, parent, parentVersion, id, outcome, seat, nullFd);
    }

    /** unbind: the transport's destroy callback for the wire object (client
        disconnect, or wl_resource_destroy). The focus is left as it is. */
    method Unbind(r: ResourceId)
      requires Valid() && !destroyed && resource == Some(r)
      modifies this`resource, this`trace
      ensures Valid()
      ensures resource == None
      ensures trace == old(trace) + [Unbound(r)]
    {
      ReplaySnoc(trace, Unbound(r));
      trace := trace + [Unbound(r)];
      resource := None;
    }

    /** releaseCallback as written: the release request only runs unbind and
        never destroys the wire object, which keeps the binding as its
        implementation. */
    method ReleaseCallbackAsWritten(r: ResourceId)
      requires Valid() && !destroyed && resource == Some(r)
      modifies this`resource
      ensures resource == None
    {
      resource := None;
    }

    /** releaseCallback as the protocol intends for a destructor request:
        destroy the wire object, whose unbind callback nulls `resource`. */
    method ReleaseCallback(r: ResourceId)
      requires Valid() && !destroyed && resource == Some(r)
      modifies this`resource, this`trace
      ensures Valid()
      ensures resource == None
      ensures trace == old(trace) + [DestroyResource(r)]
    {
      ReplaySnoc(trace, DestroyResource(r));
      trace := trace + [DestroyResource(r)];
      resource := None;
    }

    /** setKeymap: an XKB_V1 keymap with exactly the given descriptor and size. */
    method SetKeymap(fd: int, size: u32)
      requires Valid() && !destroyed && resource.Some?
      modifies this`trace
      ensures Valid()
      ensures trace == old(trace) + [Send(resource.value, Keymap(XkbV1, fd, size))]
    {
      ReplaySnoc(trace, Send(resource.value, Keymap(XkbV1, fd, size)));
      SendKeymap(fd, size);
    }

    /** sendKeymap(): the seat's keymap if it is XKB-compatible, otherwise
        NO_KEYMAP with size 0 on the /dev/null descriptor. */
    method SendKeymapFromSeat(seat: Seat, nullFd: int)
      requires resource.Some?
      modifies this`trace
      ensures trace == old(trace) + [Send(resource.value, SeatKeymap(seat, nullFd))]
    {
      if seat.keymapXkbCompatible {
        SendKeymap(seat.keymapFd, seat.keymapSize);
      } else {
        trace := trace + [Send(resource.value, Keymap(NoKeymap, nullFd, 0))];
      }
    }

    /** sendKeymap(fd, size). */
    method SendKeymap(fd: int, size: u32)
      requires resource.Some?
      modifies this`trace
      ensures trace == old(trace) + [Send(resource.value, Keymap(XkbV1, fd, size))]
    {
      trace := trace + [Send(resource.value, Keymap(XkbV1, fd, size))];
    }

    /** sendModifiers(depressed, latched, locked, group, serial); the wire order puts the serial first. */
    method SendModifiers(depressed: u32, latched: u32, locked: u32, group: u32, serial: u32)
      requires resource.Some?
      modifies this`trace
      ensures trace == old(trace) + [Send(resource.value, Modifiers(serial, depressed, latched, locked, group))]
    {
      trace := trace + [Send(resource.value, Modifiers(serial, depressed, latched, locked, group))];
    }

    /** sendModifiers(): the seat's current modifier state and its serial. */
    method SendModifiersFromSeat(seat: Seat)
      requires resource.Some?
      modifies this`trace
      ensures trace == old(trace) + [Send(resource.value, SeatModifiers(seat))]
    {
      SendModifiers(seat.depressedModifiers, seat.latchedModifiers, seat.lockedModifiers,
                    seat.groupModifiers, seat.lastModifiersSerial);
    }

    /** setFocusedSurface: leave the old focus (and drop its destroy
        connection), store the new one, and if there is one connect to its
        destruction, enter it with the seat's pressed keys and push the
        seat's modifiers. The sends are skipped when no wire object is bound. */
    method SetFocusedSurface(surface: Option<SurfaceId>, serial: u32, seat: Seat)
      requires Valid() && !destroyed
      modifies this`focusedSurface, this`destroyConnection, this`trace
      ensures Valid()
      ensures focusedSurface == surface && destroyConnection == surface
      ensures trace == old(trace) + FocusActions(resource, old(focusedSurface), surface, serial, seat)
    {
      ghost var t0, previous := trace, focusedSurface;
      FocusKeepsProtocol(t0, Replay(trace).value, resource, previous, surface, serial, seat);
      if focusedSurface.Some? {
        if resource.Some? {
          trace := trace + [Send(resource.value, Leave(serial, focusedSurface.value))];
        }
        destroyConnection := None;
      }
      focusedSurface := surface;
      if focusedSurface.None? {
        assert trace == t0 + FocusActions(resource, previous, surface, serial, seat);
        return;
      }
      destroyConnection := focusedSurface;
      if resource.None? {
        assert trace == t0 + FocusActions(resource, previous, surface, serial, seat);
        return;
      }

      var states := seat.pressedKeys;
      var keys: seq<u32> := [];
      var i := 0;
      while i < |states|
        invariant 0 <= i <= |states|
        invariant keys == states[..i]
      {
        keys := keys + [states[i]];
        i := i + 1;
      }
      assert states[..i] == states;
      trace := trace + [Send(resource.value, Enter(serial, focusedSurface.value, keys))];

      SendModifiersFromSeat(seat);
      assert trace == t0 + FocusActions(resource, previous, surface, serial, seat);
    }

    /** setFocusedSurface as written: every send goes to `resource` unchecked,
        so the call is only defined where no send meets a null object. */
    method SetFocusedSurfaceAsWritten(surface: Option<SurfaceId>, serial: u32, seat: Seat)
      requires Valid() && !destroyed
      requires focusedSurface.Some? || surface.Some? ==> resource.Some?
      modifies this`focusedSurface, this`destroyConnection, this`trace
      ensures Valid()
      ensures focusedSurface == surface && destroyConnection == surface
      ensures trace == old(trace) + FocusActions(resource, old(focusedSurface), surface, serial, seat)
    {
      SetFocusedSurface(surface, serial, seat);
    }

    /** The slot connected to the focused surface's destroyed() signal clears
        the focus without a leave; a surface whose connection was dropped by
        a later focus change no longer affects the focus. */
    method SurfaceDestroyed(s: SurfaceId)
      requires Valid() && !destroyed
      modifies this`focusedSurface, this`destroyConnection, this`trace
      ensures Valid()
      ensures trace == old(trace) + [Action.SurfaceDestroyed(s)]
      ensures old(destroyConnection) == Some(s) ==> focusedSurface == None && destroyConnection == None
      ensures old(destroyConnection) != Some(s) ==>
                focusedSurface == old(focusedSurface) && destroyConnection == old(destroyConnection)
    {
      ghost var v := Replay(trace).value;
      ReplaySnoc(trace, Action.SurfaceDestroyed(s));
      assert Replay(trace + [Action.SurfaceDestroyed(s)]) ==
        Some(if v.focus == Some(s) then v.(focus := None) else v);
      trace := trace + [Action.SurfaceDestroyed(s)];
      if destroyConnection == Some(s) {
        focusedSurface := None;
        destroyConnection := None;
      }
    }

    /** keyPressed: one PRESSED key event stamped with the seat's time, skipped
        when no wire object is bound. */
    method KeyPressed(key: u32, serial: u32, seat: Seat)
      requires Valid() && !destroyed && focusedSurface.Some?
      modifies this`trace
      ensures Valid()
      ensures trace == old(trace) +
        (if resource.Some? then [Send(resource.value, Key(serial, seat.timestamp, key, Pressed))] else [])
    {
      if resource.Some? {
        ReplaySnoc(trace, Send(resource.value, Key(serial, seat.timestamp, key, Pressed)));
        trace := trace + [Send(resource.value, Key(serial, seat.timestamp, key, Pressed))];
      }
    }

    /** keyPressed as written: the key event goes to `resource` unchecked. */
    method KeyPressedAsWritten(key: u32, serial: u32, seat: Seat)
      requires Valid() && !destroyed && focusedSurface.Some? && resource.Some?
      modifies this`trace
      ensures Valid()
      ensures trace == old(trace) + [Send(resource.value, Key(serial, seat.timestamp, key, Pressed))]
    {
      KeyPressed(key, serial, seat);
    }

    /** keyReleased: one RELEASED key event stamped with the seat's time, skipped
        when no wire object is bound. */
    method KeyReleased(key: u32, serial: u32, seat: Seat)
      requires Valid() && !destroyed && focusedSurface.Some?
      modifies this`trace
      ensures Valid()
      ensures trace == old(trace) +
        (if resource.Some? then [Send(resource.value, Key(serial, seat.timestamp, key, Released))] else [])
    {
      if resource.Some? {
        ReplaySnoc(trace, Send(resource.value, Key(serial, seat.timestamp, key, Released)));
        trace := trace + [Send(resource.value, Key(serial, seat.timestamp, key, Released))];
      }
    }

    /** keyReleased as written: the key event goes to `resource` unchecked. */
    method KeyReleasedAsWritten(key: u32, serial: u32, seat: Seat)
      requires Valid() && !destroyed && focusedSurface.Some? && resource.Some?
      modifies this`trace
      ensures Valid()
      ensures trace == old(trace) + [Send(resource.value, Key(serial, seat.timestamp, key, Released))]
    {
      KeyReleased(key, serial, seat);
    }

    /** updateModifiers: one modifiers event with exactly the given values. */
    method UpdateModifiers(depressed: u32, latched: u32, locked: u32, group: u32, serial: u32)
      requires Valid() && !destroyed && focusedSurface.Some? && resource.Some?
      modifies this`trace
      ensures Valid()
      ensures trace == old(trace) + [Send(resource.value, Modifiers(serial, depressed, latched, locked, group))]
    {
      ReplaySnoc(trace, Send(resource.value, Modifiers(serial, depressed, latched, locked, group)));
      SendModifiers(depressed, latched, locked, group, serial);
    }

    /** focusedSurface(): the surface whose destruction the binding listens
        to; while a wire object is bound, also the surface the client was
        last told has focus. */
    function FocusedSurface(): (s: Option<SurfaceId>)
      reads this
      ensures Valid() && !destroyed ==> s == destroyConnection
      ensures Valid() && resource.Some? ==> s == Replay(trace).value.focus
    {
      focusedSurface
    }

    /** resource(): the wire object still bound to this binding, null after unbind. */
    function Resource(): (r: Option<ResourceId>)
      reads this
      ensures Valid() ==> r == Replay(trace).value.live
    {
      resource
    }
  }
}
