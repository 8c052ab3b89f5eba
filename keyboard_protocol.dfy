/** The rules a wl_keyboard binding's trace must follow, stated as the view a
    client can reconstruct from it, together with the actions each operation
    of the binding contributes to the trace. */
module KeyboardProtocol {
  import opened WaylandWire

  /** What the client side can know after a prefix of the trace: which wire
      object is alive and bound to the binding, whether it has received its
      keymap, which surface it was told has focus, and whether an enter is
      still waiting for its modifiers push. */
  datatype View = View(live: Option<ResourceId>, keymapSent: bool, focus: Option<SurfaceId>, awaitingModifiers: bool)

  const Initial: View := View(None, false, None, false)

  /** The effect of sending `e` on `r` when no enter is pending; None marks a protocol violation. */
  function SendStep(v: View, r: ResourceId, e: Event): Option<View>
  {
    if v.live != Some(r) then None
    else match e
      case Keymap(_, _, _) => Some(v.(keymapSent := true))
      case Enter(_, s, _) =>
        if v.keymapSent && v.focus.None? then Some(v.(focus := Some(s), awaitingModifiers := true)) else None
      case Leave(_, s) =>
        if v.keymapSent && v.focus == Some(s) then Some(v.(focus := None)) else None
      case Key(_, _, _, _) =>
        if v.keymapSent && v.focus.Some? then Some(v) else None
      case Modifiers(_, _, _, _, _) =>
        if v.keymapSent && v.focus.Some? then Some(v) else None
  }

  /** One step of the client's view; None marks a protocol violation. */
  function Step(v: View, a: Action): Option<View>
  {
    if v.awaitingModifiers then
      if a.Send? && a.event.Modifiers? && v.live == Some(a.resource)
      then Some(v.(awaitingModifiers := false)) else None
    else match a
      case CreateResource(_, _, _) => Some(v)
      case PostNoMemory(_) => Some(v)
      case SetImplementation(r) =>
        if v.live.None? && v.focus.None? then Some(v.(live := Some(r), keymapSent := false)) else None
      case Send(r, e) => SendStep(v, r, e)
      case DestroyResource(r) => if v.live == Some(r) then Some(v.(live := None, focus := None)) else None
      case Unbound(r) => if v.live == Some(r) then Some(v.(live := None, focus := None)) else None
      case SurfaceDestroyed(s) => Some(if v.focus == Some(s) then v.(focus := None) else v)
  }

  function Then(o: Option<View>, a: Action): Option<View>
  {
    match o
    case None => None
    case Some(v) => Step(v, a)
  }

  /** The client's view after the whole trace, or None if the trace breaks the protocol. */
  function Replay(t: seq<Action>): Option<View>
    decreases |t|
  {
    if t == [] then Some(Initial) else Then(Replay(t[..|t| - 1]), t[|t| - 1])
  }

  /** An enter that is pending is one the client accepted on a live, keymapped
      object, and a client without a live object sees no focus. */
  predicate Coherent(v: View)
  {
    (v.awaitingModifiers ==> v.keymapSent && v.focus.Some? && v.live.Some?) &&
    (v.live.None? ==> v.focus.None?)
  }

  /** Number of wire objects the binding attached itself to. */
  function Attachments(t: seq<Action>): nat
    decreases |t|
  {
    if t == [] then 0 else Attachments(t[..|t| - 1]) + (if t[|t| - 1].SetImplementation? then 1 else 0)
  }

  /** Number of teardowns of a wire object, by either path. */
  function Teardowns(t: seq<Action>): nat
    decreases |t|
  {
    if t == [] then 0
    else Teardowns(t[..|t| - 1]) + (if t[|t| - 1].DestroyResource? || t[|t| - 1].Unbound? then 1 else 0)
  }

  /** The events of the trace, in the order they were sent. */
  function Events(t: seq<Action>): seq<Event>
  {
    if t == [] then []
    else (if t[0].Send? then [t[0].event] else []) + Events(t[1..])
  }

  // ---------------------------------------------------------------------
  // What each operation of the binding adds to the trace

  /** The keymap pushed from the seat on creation (sendKeymap()); `nullFd` is
      the descriptor obtained by opening /dev/null. */
  function SeatKeymap(seat: Seat, nullFd: int): (e: Event)
    ensures e.Keymap?
    ensures e.format == XkbV1 <==> seat.keymapXkbCompatible
    ensures e.format == XkbV1 ==> e.fd == seat.keymapFd && e.size == seat.keymapSize
    ensures e.format == NoKeymap ==> e.fd == nullFd && e.size == 0
  {
    if seat.keymapXkbCompatible then Keymap(XkbV1, seat.keymapFd, seat.keymapSize)
    else Keymap(NoKeymap, nullFd, 0)
  }

  /** The modifiers push taken from the seat (sendModifiers()). */
  function SeatModifiers(seat: Seat): (e: Event)
    ensures e.Modifiers? && e.serial == seat.lastModifiersSerial
    ensures e.depressed == seat.depressedModifiers && e.latched == seat.latchedModifiers
    ensures e.locked == seat.lockedModifiers && e.group == seat.groupModifiers
  {
    Modifiers(seat.lastModifiersSerial, seat.depressedModifiers, seat.latchedModifiers,
              seat.lockedModifiers, seat.groupModifiers)
  }

  /** createInterfae: `outcome` is what wl_resource_create returned. */
  function CreateActions(client: ClientId, parent: ResourceId, version: u32, id: u32,
                         outcome: Option<ResourceId>, seat: Seat, nullFd: int): seq<Action>
  {
    [CreateResource(client, version, id)] +
    match outcome
    case None => [PostNoMemory(parent)]
    case Some(k) => [SetImplementation(k), Send(k, SeatKeymap(seat, nullFd))]
  }

  /** setFocusedSurface, with its sends skipped when no wire object is bound:
      the leave for the previous focus, then the enter and modifiers push for
      the new one. */
  function FocusActions(r: Option<ResourceId>, previous: Option<SurfaceId>, next: Option<SurfaceId>,
                        serial: u32, seat: Seat): seq<Action>
  {
    match r
    case None => []
    case Some(o) =>
      (if previous.Some? then [Send(o, Leave(serial, previous.value))] else []) +
      (if next.Some? then [Send(o, Enter(serial, next.value, seat.pressedKeys)),
                           Send(o, SeatModifiers(seat))] else [])
  }

  // ---------------------------------------------------------------------
  // Lemmas

  lemma ReplaySnoc(t: seq<Action>, a: Action)
    ensures Replay(t + [a]) == Then(Replay(t), a)
  {
    assert (t + [a])[..|t|] == t;
  }

  /** Every prefix of a trace that follows the protocol follows it too, and step `i` is legal. */
  lemma {:induction false} StepAt(t: seq<Action>, i: nat)
    requires Replay(t).Some? && i < |t|
    ensures Replay(t[..i]).Some?
    ensures Replay(t[..i + 1]) == Step(Replay(t[..i]).value, t[i])
    ensures Replay(t[..i + 1]).Some?
    decreases |t|
  {
    var u := t[..|t| - 1];
    assert Replay(t) == Then(Replay(u), t[|t| - 1]);
    if i == |t| - 1 {
      assert t[..i + 1] == t;
      assert t[..i] == u;
    } else {
      StepAt(u, i);
      assert u[..i] == t[..i] && u[..i + 1] == t[..i + 1] && u[i] == t[i];
    }
  }

  /** Every view reached along a legal trace is coherent. */
  lemma {:induction false} ReplayCoherent(t: seq<Action>)
    requires Replay(t).Some?
    ensures Coherent(Replay(t).value)
    decreases |t|
  {
    if t != [] {
      var u := t[..|t| - 1];
      assert Replay(t) == Then(Replay(u), t[|t| - 1]);
      ReplayCoherent(u);
    }
  }

  /** A leave is only ever sent for the surface the client was told has focus. */
  lemma LeaveOnlyForFocused(t: seq<Action>, i: nat)
    requires Replay(t).Some? && i < |t| && t[i].Send? && t[i].event.Leave?
    ensures Replay(t[..i]).Some? && Replay(t[..i]).value.focus == Some(t[i].event.surface)
    ensures Replay(t[..i + 1]).Some? && Replay(t[..i + 1]).value.focus.None?
  {
    StepAt(t, i);
  }

  /** An enter is only sent while the client sees no focus: any earlier focus
      was left or its surface destroyed before it. */
  lemma EnterOnlyWhenUnfocused(t: seq<Action>, i: nat)
    requires Replay(t).Some? && i < |t| && t[i].Send? && t[i].event.Enter?
    ensures Replay(t[..i]).Some? && Replay(t[..i]).value.focus.None?
    ensures Replay(t[..i + 1]).Some? && Replay(t[..i + 1]).value.focus == Some(t[i].event.surface)
  {
    StepAt(t, i);
  }

  /** In a trace that does not end inside an operation, every enter is
      followed at once by a modifiers push on the same wire object. */
  lemma EnterFollowedByModifiers(t: seq<Action>, i: nat)
    requires Replay(t).Some? && !Replay(t).value.awaitingModifiers
    requires i < |t| && t[i].Send? && t[i].event.Enter?
    ensures i + 1 < |t| && t[i + 1].Send? && t[i + 1].event.Modifiers?
    ensures t[i + 1].resource == t[i].resource
  {
    StepAt(t, i);
    StepAt(t, i + 1);
  }

  /** Key and modifiers events only reach a client that sees a focused surface. */
  lemma InputOnlyWhileFocused(t: seq<Action>, i: nat)
    requires Replay(t).Some? && i < |t| && t[i].Send? && (t[i].event.Key? || t[i].event.Modifiers?)
    ensures Replay(t[..i]).Some? && Replay(t[..i]).value.focus.Some?
  {
    StepAt(t, i);
    ReplayCoherent(t[..i]);
  }

  /** Every event on a wire object other than a keymap comes after a keymap on it,
      and nothing is sent on an object that is not alive. */
  lemma KeymapComesFirst(t: seq<Action>, i: nat)
    requires Replay(t).Some? && i < |t| && t[i].Send?
    ensures Replay(t[..i]).Some? && Replay(t[..i]).value.live == Some(t[i].resource)
    ensures !t[i].event.Keymap? ==> Replay(t[..i]).value.keymapSent
  {
    StepAt(t, i);
    ReplayCoherent(t[..i]);
  }

  /** Each wire object the binding attached itself to is torn down at most once,
      by one path: all of them except the one still alive. */
  lemma {:induction false} TeardownsBalanced(t: seq<Action>)
    requires Replay(t).Some?
    ensures Teardowns(t) + (if Replay(t).value.live.Some? then 1 else 0) == Attachments(t)
    decreases |t|
  {
    if t != [] {
      var u := t[..|t| - 1];
      assert Replay(t) == Then(Replay(u), t[|t| - 1]);
      TeardownsBalanced(u);
    }
  }

  /** Creation on an unbound, unfocused binding: on failure nothing is sent
      and the binding stays unbound; on success exactly the keymap is sent,
      on the new object. */
  lemma CreateKeepsProtocol(t: seq<Action>, v: View, client: ClientId, parent: ResourceId,
                            version: u32, id: u32, outcome: Option<ResourceId>, seat: Seat, nullFd: int)
    requires Replay(t) == Some(v) && v.live.None? && v.focus.None? && !v.awaitingModifiers
    ensures Replay(t + CreateActions(client, parent, version, id, outcome, seat, nullFd)) ==
            Some(if outcome.Some? then v.(live := outcome, keymapSent := true) else v)
  {
    var c := CreateResource(client, version, id);
    ReplaySnoc(t, c);
    match outcome
    case None =>
      ReplaySnoc(t + [c], PostNoMemory(parent));
      assert t + CreateActions(client, parent, version, id, outcome, seat, nullFd) == t + [c] + [PostNoMemory(parent)];
    case Some(k) =>
      var e := Send(k, SeatKeymap(seat, nullFd));
      ReplaySnoc(t + [c], SetImplementation(k));
      ReplaySnoc(t + [c] + [SetImplementation(k)], e);
      assert t + CreateActions(client, parent, version, id, outcome, seat, nullFd) == t + [c] + [SetImplementation(k)] + [e];
  }

  /** Exactly one keymap and no other event when creation succeeds; only the
      no-memory error when it fails. */
  lemma CreateSendsOneKeymap(client: ClientId, parent: ResourceId, version: u32, id: u32,
                             outcome: Option<ResourceId>, seat: Seat, nullFd: int)
    ensures Events(CreateActions(client, parent, version, id, outcome, seat, nullFd)) ==
            if outcome.Some? then [SeatKeymap(seat, nullFd)] else []
    ensures outcome.None? <==> PostNoMemory(parent) in CreateActions(client, parent, version, id, outcome, seat, nullFd)
  {
    var a := CreateActions(client, parent, version, id, outcome, seat, nullFd);
    assert Events(a) == Events(a[1..]);
    match outcome
    case Some(k) =>
      assert a[1..] == [SetImplementation(k), Send(k, SeatKeymap(seat, nullFd))];
      assert Events(a[1..]) == Events(a[1..][1..]);
      assert a[1..][1..] == [Send(k, SeatKeymap(seat, nullFd))];
      assert Events(a[1..][1..]) == [SeatKeymap(seat, nullFd)] + Events(a[1..][1..][1..]);
      assert a[1..][1..][1..] == [];
    case None =>
      assert a[1..] == [PostNoMemory(parent)];
      assert Events(a[1..]) == Events(a[1..][1..]);
      assert a[1..][1..] == [];
  }

  /** A focus change keeps the trace legal. With a bound, keymapped object the
      client ends up seeing exactly the new focus; with none, nothing is sent
      and the client's view is unchanged. */
  lemma FocusKeepsProtocol(t: seq<Action>, v: View, r: Option<ResourceId>, previous: Option<SurfaceId>,
                           next: Option<SurfaceId>, serial: u32, seat: Seat)
    requires Replay(t) == Some(v) && v.live == r && !v.awaitingModifiers
    requires v.focus == (if r.Some? then previous else None)
    requires r.Some? ==> v.keymapSent
    ensures Replay(t + FocusActions(r, previous, next, serial, seat)) ==
            Some(v.(focus := if r.Some? then next else None))
  {
    match r
    case None =>
      assert t + FocusActions(r, previous, next, serial, seat) == t;
    case Some(o) =>
      var t1 := if previous.Some? then t + [Send(o, Leave(serial, previous.value))] else t;
      if previous.Some? {
        ReplaySnoc(t, Send(o, Leave(serial, previous.value)));
      }
      assert Replay(t1) == Some(v.(focus := None));
      if next.Some? {
        var enter := Send(o, Enter(serial, next.value, seat.pressedKeys));
        var mods := Send(o, SeatModifiers(seat));
        ReplaySnoc(t1, enter);
        ReplaySnoc(t1 + [enter], mods);
        assert t + FocusActions(r, previous, next, serial, seat) == t1 + [enter] + [mods];
      } else {
        assert t + FocusActions(r, previous, next, serial, seat) == t1;
      }
  }
}
