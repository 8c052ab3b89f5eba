/** Verified scenarios: creation with a compatible keymap, an incompatible one
    and a failed object; a focus switch; clearing the focus twice; destruction
    of the focused and of a former focus; one key typed; the owner's teardown;
    the two teardown paths of a released keyboard; and the calls that reach a
    null wire object after an unbind. */
module KeyboardScenarios {
  import opened WaylandWire
  import opened KeyboardProtocol
  import opened KeyboardServer

  const Client: ClientId := ClientId(1)
  const SeatResource: ResourceId := ResourceId(2)
  const H: ResourceId := ResourceId(9)
  const A: SurfaceId := SurfaceId(20)
  const B: SurfaceId := SurfaceId(21)
  const NullFd: int := 5

  /** A seat with a compatible keymap on fd 3 of size 1024 and the given pressed keys. */
  function SeatWith(compatible: bool, keys: seq<u32>): Seat
  {
    Seat(compatible, 3, 1024, keys, 1000, 1, 2, 4, 0, 40)
  }

  /** The wire object the transport still has bound to the binding after trace `t`. */
  function StillBound(t: seq<Action>): Option<ResourceId>
  {
    match Replay(t)
    case Some(v) => v.live
    case None => None
  }

  const Mods: Event := Modifiers(40, 1, 2, 4, 0)

  /** A binding that has been created on H with a compatible keymap. */
  method NewBoundKeyboard() returns (k: KeyboardInterface)
    ensures fresh(k) && k.Valid() && !k.destroyed
    ensures k.resource == Some(H) && k.focusedSurface == None
    ensures k.trace == [CreateResource(Client, 4, 7), SetImplementation(H), Send(H, Keymap(XkbV1, 3, 1024))]
  {
    k := new KeyboardInterface();
    k.CreateInterface(Client, SeatResource, 4, 7, Some(H), SeatWith(true, []), NullFd);
  }

  /** A client at version 4 asks for id 7; the seat's keymap is compatible:
      one XKB_V1 keymap with fd 3 and size 1024 is sent on the new object. */
  method CreateWithCompatibleKeymap() returns (resource: Option<ResourceId>, trace: seq<Action>, events: seq<Event>)
    ensures resource == Some(H)
    ensures trace == [CreateResource(Client, 4, 7), SetImplementation(H), Send(H, Keymap(XkbV1, 3, 1024))]
    ensures events == [Keymap(XkbV1, 3, 1024)]
  {
    var k := new KeyboardInterface();
    k.CreateInterface(Client, SeatResource, 4, 7, Some(H), SeatWith(true, []), NullFd);
    resource := k.Resource();
    trace := k.trace;
    CreateSendsOneKeymap(Client, SeatResource, 4, 7, Some(H), SeatWith(true, []), NullFd);
    events := Events(k.trace);
  }

  /** An incompatible keymap is announced as NO_KEYMAP of size 0 on the /dev/null descriptor. */
  method CreateWithIncompatibleKeymap() returns (events: seq<Event>)
    ensures events == [Keymap(NoKeymap, NullFd, 0)]
  {
    var k := new KeyboardInterface();
    k.CreateInterface(Client, SeatResource, 4, 7, Some(H), SeatWith(false, []), NullFd);
    CreateSendsOneKeymap(Client, SeatResource, 4, 7, Some(H), SeatWith(false, []), NullFd);
    assert k.trace == CreateActions(Client, SeatResource, 4, 7, Some(H), SeatWith(false, []), NullFd);
    events := Events(k.trace);
  }

  /** When the transport cannot create the object, the binding stays unbound,
      the parent gets a no-memory error and nothing is sent. */
  method CreateOutOfMemory() returns (resource: Option<ResourceId>, trace: seq<Action>)
    ensures resource == None
    ensures trace == [CreateResource(Client, 4, 7), PostNoMemory(SeatResource)]
  {
    var k := new KeyboardInterface();
    k.CreateInterface(Client, SeatResource, 4, 7, None, SeatWith(true, []), NullFd);
    resource := k.Resource();
    trace := k.trace;
  }

  /** Focus A at serial 10 with keys 30 and 31 pressed, then B at serial 11 with none. */
  method FocusSwitch() returns (actions: seq<Action>)
    ensures actions == [Send(H, Enter(10, A, [30, 31])), Send(H, Mods),
                        Send(H, Leave(11, A)), Send(H, Enter(11, B, [])), Send(H, Mods)]
  {
    var k := NewBoundKeyboard();
    k.SetFocusedSurface(Some(A), 10, SeatWith(true, [30, 31]));
    k.SetFocusedSurface(Some(B), 11, SeatWith(true, []));
    actions := k.trace[3..];
  }

  /** Clearing the focus twice: the first sends the leave, the second nothing. */
  method UnfocusTwice() returns (first: seq<Action>, second: seq<Action>, focus: Option<SurfaceId>)
    ensures first == [Send(H, Leave(12, A))]
    ensures second == []
    ensures focus == None
  {
    var k := NewBoundKeyboard();
    k.SetFocusedSurface(Some(A), 10, SeatWith(true, []));
    var before := k.trace;
    k.SetFocusedSurface(None, 12, SeatWith(true, []));
    var middle := k.trace;
    k.SetFocusedSurface(None, 13, SeatWith(true, []));
    first := middle[|before|..];
    second := k.trace[|middle|..];
    focus := k.FocusedSurface();
  }

  /** Destroying the focused surface clears the focus and sends no leave. */
  method FocusedSurfaceDestroyed() returns (focus: Option<SurfaceId>, actions: seq<Action>)
    ensures focus == None
    ensures actions == [SurfaceDestroyed(A)]
  {
    var k := NewBoundKeyboard();
    k.SetFocusedSurface(Some(A), 10, SeatWith(true, []));
    var before := k.trace;
    k.SurfaceDestroyed(A);
    focus := k.FocusedSurface();
    actions := k.trace[|before|..];
  }

  /** A surface that lost focus to another no longer clears the focus when destroyed. */
  method FormerFocusDestroyed() returns (focus: Option<SurfaceId>)
    ensures focus == Some(B)
  {
    var k := NewBoundKeyboard();
    k.SetFocusedSurface(Some(A), 10, SeatWith(true, []));
    k.SetFocusedSurface(Some(B), 11, SeatWith(true, []));
    k.SurfaceDestroyed(A);
    focus := k.FocusedSurface();
  }

  /** A focused binding delivers a press, a release and a modifiers update, in that order. */
  method TypeOneKey() returns (actions: seq<Action>)
    ensures actions == [Send(H, Key(50, 1000, 30, Pressed)), Send(H, Key(51, 1000, 30, Released)),
                        Send(H, Modifiers(52, 8, 0, 0, 1))]
  {
    var k := NewBoundKeyboard();
    k.SetFocusedSurface(Some(A), 10, SeatWith(true, []));
    var before := k.trace;
    k.KeyPressed(30, 50, SeatWith(true, [30]));
    k.KeyReleased(30, 51, SeatWith(true, []));
    k.UpdateModifiers(8, 0, 0, 1, 52);
    actions := k.trace[|before|..];
  }

  /** The owner destroys a binding whose object is still bound: exactly one
      destroy of the object, and nothing left that refers to the binding. */
  method OwnerTeardown() returns (teardown: seq<Action>, stillBound: Option<ResourceId>)
    ensures teardown == [DestroyResource(H)]
    ensures stillBound == None
  {
    var k := NewBoundKeyboard();
    var before := k.trace;
    k.Destroy();
    teardown := k.trace[|before|..];
    stillBound := StillBound(k.trace);
  }

  /** The client releases the keyboard and the owner then destroys the binding,
      with releaseCallback as written: the wire object is never destroyed and
      still has the destroyed binding as its implementation. */
  method ReleaseAsWrittenThenTeardown() returns (destroyed: bool, stillBound: Option<ResourceId>)
    ensures destroyed
    ensures stillBound == Some(H)
  {
    var k := NewBoundKeyboard();
    ghost var before := k.trace;
    assert Replay(before).value.live == Some(H);
    k.ReleaseCallbackAsWritten(H);
    k.Destroy();
    assert k.trace == before;
    destroyed := k.destroyed;
    stillBound := StillBound(k.trace);
  }

  /** The same run with releaseCallback destroying the object: the object is
      destroyed once, on release, the destructor destroys nothing more, and
      nothing is still bound when the binding is gone. */
  method ReleaseThenTeardown() returns (destroyed: bool, teardown: seq<Action>, stillBound: Option<ResourceId>)
    ensures destroyed
    ensures teardown == [DestroyResource(H)]
    ensures stillBound == None
  {
    var k := NewBoundKeyboard();
    var before := k.trace;
    k.ReleaseCallback(H);
    k.Destroy();
    destroyed := k.destroyed;
    teardown := k.trace[|before|..];
    stillBound := StillBound(k.trace);
  }

  /** The client disconnects while A has focus: unbind clears the wire object
      but not the focus. In that state a setFocusedSurface as written would
      send its leave, and a keyPressed or keyReleased as written its key
      event, to the null object, though keyPressed's own focus assertion
      holds. */
  method UnbindKeepsFocus() returns (focus: Option<SurfaceId>, resource: Option<ResourceId>,
                                     focusChangeDefined: bool, keyPressDefined: bool, keyPressAssertHolds: bool)
    ensures focus == Some(A) && resource == None
    ensures !focusChangeDefined && !keyPressDefined && keyPressAssertHolds
  {
    var k := NewBoundKeyboard();
    k.SetFocusedSurface(Some(A), 10, SeatWith(true, []));
    k.Unbind(H);
    focus := k.FocusedSurface();
    resource := k.Resource();
    // the preconditions of SetFocusedSurfaceAsWritten (for any next surface)
    // and of KeyPressedAsWritten
    focusChangeDefined := k.focusedSurface.Some? ==> k.resource.Some?;
    keyPressDefined := k.focusedSurface.Some? && k.resource.Some?;
    keyPressAssertHolds := k.focusedSurface.Some?;
  }

  /** The same state with the sends guarded: a key press, clearing the focus
      and focusing B send nothing, while the focus and the destroy
      connection still follow the calls. */
  method UnboundKeyboardStaysQuiet() returns (actions: seq<Action>, focus: Option<SurfaceId>, stillBound: Option<ResourceId>)
    ensures actions == []
    ensures focus == Some(B)
    ensures stillBound == None
  {
    var k := NewBoundKeyboard();
    k.SetFocusedSurface(Some(A), 10, SeatWith(true, []));
    k.Unbind(H);
    var before := k.trace;
    k.KeyPressed(30, 50, SeatWith(true, [30]));
    k.SetFocusedSurface(None, 51, SeatWith(true, []));
    k.SetFocusedSurface(Some(B), 52, SeatWith(true, []));
    k.KeyReleased(30, 53, SeatWith(true, []));
    actions := k.trace[|before|..];
    focus := k.FocusedSurface();
    stillBound := StillBound(k.trace);
  }
}
