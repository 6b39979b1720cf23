/** How a client consumes events: it pops events from a connection until one
    tests false, tests each popped event's type in turn, and reads the payload
    with the one accessor its type allows. Where the events come from is not
    part of this module: the values successive pops returned are a parameter. */
module Client {
  import D = EventData
  import B = Buttons
  import opened Events

  /** What the client did with one event. */
  datatype Reaction =
    | ReportConnected(info: D.DeviceInfo)
    | ReportDisconnected
    | ReportMotion(motion: D.Motion)
    | ReportButtonChange(change: B.ButtonChange)
    | Skip

  /** The chain of type tests applied to one popped event; each branch calls only
      the accessor whose precondition its test has just established. */
  function Handle(e: DeviceEvent): (r: Reaction)
    ensures r.Skip? <==> !e.Valid()
    ensures r.ReportConnected? <==> e.Is(CONNECTED)
    ensures r.ReportDisconnected? <==> e.Is(DISCONNECTED)
    ensures r.ReportMotion? <==> e.Is(MOTION)
    ensures r.ReportButtonChange? <==> e.Is(BUTTON_CHANGE)
  {
    if e.Is(CONNECTED) then ReportConnected(e.Device())
    else if e.Is(DISCONNECTED) then ReportDisconnected
    else if e.Is(MOTION) then ReportMotion(e.GetMotion())
    else if e.Is(BUTTON_CHANGE) then ReportButtonChange(e.GetButtonChange())
    else Skip
  }

  /** A handled button event reports exactly the button and state it was built from. */
  lemma HandleButtonEvent(b: B.Button, s: B.ButtonState)
    ensures Handle(ButtonEvent(b, s)) == ReportButtonChange(B.ButtonChange(b, s))
  {
  }

  /** Pops and handles events until one tests false. `popped` holds the values the
      successive pops return; the loop also stops when they run out. `consumed`
      counts the valid events handled, which all precede the first empty one. */
  method Drain(popped: seq<DeviceEvent>) returns (reactions: seq<Reaction>, consumed: nat)
    ensures consumed <= |popped|
    ensures forall i :: 0 <= i < consumed ==> popped[i].Valid()
    ensures consumed < |popped| ==> !popped[consumed].Valid()
    ensures |reactions| == consumed
    ensures forall i :: 0 <= i < consumed ==> reactions[i] == Handle(popped[i])
    ensures forall i :: 0 <= i < consumed ==> !reactions[i].Skip?
  {
    reactions, consumed := [], 0;
    while consumed < |popped| && popped[consumed].Valid()
      invariant consumed <= |popped|
      invariant forall i :: 0 <= i < consumed ==> popped[i].Valid()
      invariant |reactions| == consumed
      invariant forall i :: 0 <= i < consumed ==> reactions[i] == Handle(popped[i])
      decreases |popped| - consumed
    {
      reactions := reactions + [Handle(popped[consumed])];
      consumed := consumed + 1;
    }
  }
}
