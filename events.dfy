/** Device events: a tag from `DeviceEventType` together with the payload that
    belongs to it. The C++ header keeps the tag and an untagged union side by side;
    here the datatype's variant is the tag, so a payload can only be present
    under its own tag. */
module Events {
  import B = Buttons
  import D = EventData

  /** The different kinds of event an NDOF device produces. */
  datatype DeviceEventType = EMPTY | CONNECTED | DISCONNECTED | MOTION | BUTTON_CHANGE

  /** Every tag, once each, in declaration order. */
  const AllTypes: seq<DeviceEventType> := [EMPTY, CONNECTED, DISCONNECTED, MOTION, BUTTON_CHANGE]

  /** A device event. `Connected` carries the device information, `Motion` the
      six axes the union stores (modelled as integers) and `ButtonChange` the
      button and its new state. */
  datatype DeviceEvent =
    | Empty
    | Connected(info: D.DeviceInfo)
    | Disconnected
    | Motion(tx: int, ty: int, tz: int, rx: int, ry: int, rz: int)
    | ButtonChange(button: B.Button, state: B.ButtonState)
  {
    /** The event's tag. */
    function Type(): DeviceEventType {
      match this
      case Empty => EMPTY
      case Connected(_) => CONNECTED
      case Disconnected => DISCONNECTED
      case Motion(_, _, _, _, _, _) => MOTION
      case ButtonChange(_, _) => BUTTON_CHANGE
    }

    /** `operator()(t)`: is this event of type `t`? */
    predicate Is(t: DeviceEventType) {
      Type() == t
    }

    /** `operator bool`: is this a valid (non-empty) event? */
    predicate Valid()
      ensures Valid() <==> !Is(EMPTY)
    {
      Type() != EMPTY
    }

    /** The device information of a `CONNECTED` event; only to be asked of one. */
    function Device(): (d: D.DeviceInfo)
      requires Is(CONNECTED)
      ensures this == Connected(d)
    {
      info
    }

    /** The movement of a `MOTION` event; only to be asked of one. The movement
        class has no axes, so the stored axes cannot be read through it, and like
        every movement it tests false. */
    function GetMotion(): (m: D.Motion)
      requires Is(MOTION)
      ensures !m.Valid()
    {
      D.Motion
    }

    /** The button change of a `BUTTON_CHANGE` event; only to be asked of one. */
    function GetButtonChange(): (c: B.ButtonChange)
      requires Is(BUTTON_CHANGE)
      ensures this == ButtonChange(c.button, c.state)
    {
      B.NewButtonChange(button, state)
    }
  }

  /** The default constructor: the empty event. */
  function DefaultEvent(): (e: DeviceEvent)
    ensures e.Type() == EMPTY
    ensures !e.Valid()
  {
    Empty
  }

  /** The constructor from a tag alone. In C++ the union then holds a null device
      information pointer; the model gives a tagged payload a fixed value instead:
      empty device information, zero axes, and the default button change. */
  function FromType(t: DeviceEventType): (e: DeviceEvent)
    ensures e.Type() == t
    ensures e.Valid() <==> t != EMPTY
    ensures e.Is(BUTTON_CHANGE) ==> !e.GetButtonChange().Valid()
  {
    match t
    case EMPTY => Empty
    case CONNECTED => Connected(D.DefaultDeviceInfo())
    case DISCONNECTED => Disconnected
    case MOTION => Motion(0, 0, 0, 0, 0, 0)
    case BUTTON_CHANGE =>
      var c := B.DefaultButtonChange();
      ButtonChange(c.button, c.state)
  }

  /** The constructor from six axes: a `MOTION` event that stores those axes. */
  function MotionEvent(tx: int, ty: int, tz: int, rx: int, ry: int, rz: int): (e: DeviceEvent)
    ensures e.Is(MOTION) && e.Valid()
    ensures e.tx == tx && e.ty == ty && e.tz == tz && e.rx == rx && e.ry == ry && e.rz == rz
  {
    Motion(tx, ty, tz, rx, ry, rz)
  }

  /** The constructor from a button and a state: a `BUTTON_CHANGE` event whose
      button change stores both unchanged. */
  function ButtonEvent(b: B.Button, s: B.ButtonState): (e: DeviceEvent)
    ensures e.Is(BUTTON_CHANGE) && e.Valid()
  {
    ButtonChange(b, s)
  }

  /** The movement read from a motion event does not depend on the axes the event
      stores: any two motion events hand out the same movement. */
  lemma MotionHidesAxes(e1: DeviceEvent, e2: DeviceEvent)
    requires e1.Is(MOTION) && e2.Is(MOTION)
    ensures e1.GetMotion() == e2.GetMotion()
  {
  }

  /** Reading the button change back from a button event gives `b` and `s`
      unchanged, and it tests true exactly when `b` is a real button. */
  lemma ButtonRoundTrip(b: B.Button, s: B.ButtonState)
    ensures ButtonEvent(b, s).GetButtonChange() == B.ButtonChange(b, s)
    ensures ButtonEvent(b, s).GetButtonChange().Valid() <==> b != B.Button.EMPTY
  {
  }

  /** An event is of one type only: if it is of type `t`, it is of no other. */
  lemma IsExclusive(e: DeviceEvent, t: DeviceEventType, u: DeviceEventType)
    requires e.Is(t) && e.Is(u)
    ensures t == u
  {
  }

  /** The tags among `ts` that the event tests true for, in the order of `ts`. */
  function TestsPassed(e: DeviceEvent, ts: seq<DeviceEventType>): (r: seq<DeviceEventType>)
    ensures forall t :: t in r <==> t in ts && e.Is(t)
    ensures |r| <= |ts|
  {
    if ts == [] then []
    else (if e.Is(ts[0]) then [ts[0]] else []) + TestsPassed(e, ts[1..])
  }

  /** `ts` lists no tag twice. */
  predicate Distinct(ts: seq<DeviceEventType>) {
    forall i, j :: 0 <= i < j < |ts| ==> ts[i] != ts[j]
  }

  /** Among distinct tags that include the event's own, exactly that one passes. */
  lemma {:induction false} OnlyOwnTypePasses(e: DeviceEvent, ts: seq<DeviceEventType>)
    requires Distinct(ts) && e.Type() in ts
    ensures TestsPassed(e, ts) == [e.Type()]
  {
    if ts[0] == e.Type() {
      assert e.Type() !in ts[1..];
      NoneOfOthersPass(e, ts[1..]);
    } else {
      OnlyOwnTypePasses(e, ts[1..]);
    }
  }

  /** If the event's own tag is not among `ts`, no tag in `ts` passes. */
  lemma {:induction false} NoneOfOthersPass(e: DeviceEvent, ts: seq<DeviceEventType>)
    requires e.Type() !in ts
    ensures TestsPassed(e, ts) == []
  {
    if ts != [] {
      NoneOfOthersPass(e, ts[1..]);
    }
  }

  /** For every event, exactly one of the five type tests succeeds: its own. */
  lemma ExactlyOneTestPasses(e: DeviceEvent)
    ensures TestsPassed(e, AllTypes) == [e.Type()]
  {
    OnlyOwnTypePasses(e, AllTypes);
  }

  /** The tag always agrees with the payload that is present: the variant of the
      event and its tag determine each other. This holds by construction of the
      datatype, and is stated to document what replaces the hand-tagged union. */
  lemma TagAgreesWithPayload(e: DeviceEvent)
    ensures e.Is(EMPTY) <==> e.Empty?
    ensures e.Is(CONNECTED) <==> e.Connected?
    ensures e.Is(DISCONNECTED) <==> e.Disconnected?
    ensures e.Is(MOTION) <==> e.Motion?
    ensures e.Is(BUTTON_CHANGE) <==> e.ButtonChange?
  {
  }
}
