# libNDOF device events, in Dafny

libNDOF streams events from six-degree-of-freedom input devices (3D mice). A
client pops `DeviceEvent`s from a connection. Each event carries a tag: empty,
device connected, device disconnected, motion, or button change. The client
tests the tag with `event(t)` and then reads the payload with the one accessor
that tag allows: `device()`, `motion()` or `buttonchange()`.

This project models the value types of the library's public header:

- `buttons.dfy` (module `Buttons`): the `Button` and `ButtonState` enums, and the
  `ButtonChange` value class with its truth test.
- `event_data.dfy` (module `EventData`): the `Motion` and `DeviceInfo` payload
  classes. Their truth tests are placeholders that always answer false.
- `events.dfy` (module `Events`): the `DeviceEventType` tag, `DeviceEvent` and its
  constructors, its truth test, its type test and its tag-gated accessors.
- `client.dfy` (module `Client`): the way the example client consumes events. It
  pops until an event tests false and dispatches each event on its type.

In the C++ header the event is a hand-tagged union: a tag field beside an
untagged union of payloads. Here it is a Dafny datatype whose variant is the
tag. A payload can therefore exist only under its own tag, and
`TagAgreesWithPayload` states that correspondence. The accessors carry the
header's rule "only call this if current event is of corresponding type" as a
`requires` clause. The header states a caller obligation and has no
checking code, so a wrong accessor call is a verification error, not a runtime
failure.

## Model

| member | source | states |
|---|---|---|
| `Buttons.DefaultButtonChange` | include/libNDOF.hpp:76-81 | a default button change has button EMPTY and state EMPTY, and tests false |
| `Buttons.NewButtonChange` | include/libNDOF.hpp:77-78 | `ButtonChange(b, s)` stores `b` and `s` unchanged, and tests true iff `b` is not `Button::EMPTY` |
| `Buttons.ValidIffRealButton` | include/libNDOF.hpp:52-78 | a button change's state never affects its test; with the two buttons declared today it tests true exactly when the button is `A` |
| `EventData.PlaceholdersTestFalse` | include/libNDOF.hpp:89-106 | `Motion` and `DeviceInfo` always test false (both truth tests are placeholders) |
| `Events.DeviceEvent.Valid` | include/libNDOF.hpp:150-152 | an event tests true iff `event(EMPTY)` is false |
| `Events.IsExclusive` | include/libNDOF.hpp:152 | an event that is of type `t` and of type `u` has `t == u` |
| `Events.ExactlyOneTestPasses` | include/libNDOF.hpp:127-152 | of the five type tests, in declaration order, exactly one succeeds for every event: the test for its own type |
| `Events.TestsPassed` | include/libNDOF.hpp:152 | the tags of a list that an event tests true for are exactly the listed tags `t` with `event(t)` |
| `Events.TagAgreesWithPayload` | include/libNDOF.hpp:127-194 | each tag holds exactly when the payload that belongs to it is present |
| `Events.DeviceEvent.Device` | include/libNDOF.hpp:154-156 | `device()` may only be called on a CONNECTED event, and the event is the connection event of the information it returns |
| `Events.DeviceEvent.GetMotion` | include/libNDOF.hpp:154-157 | `motion()` may only be called on a MOTION event, and the movement it returns tests false |
| `Events.DeviceEvent.GetButtonChange` | include/libNDOF.hpp:154-158 | `buttonchange()` may only be called on a BUTTON_CHANGE event, and the event is the button event of the button and state it returns |
| `Events.DefaultEvent` | include/libNDOF.hpp:161 | a default-constructed event has type EMPTY and tests false |
| `Events.FromType` | include/libNDOF.hpp:162 | an event built from tag `t` has type `t`, tests true iff `t` is not EMPTY, and a button-change event built this way carries a button change that tests false |
| `Events.MotionEvent` | include/libNDOF.hpp:163 | an event built from six axes is a valid MOTION event that stores those axes |
| `Events.ButtonEvent` | include/libNDOF.hpp:164 | an event built from a button and a state is a valid BUTTON_CHANGE event |
| `Events.MotionHidesAxes` | include/libNDOF.hpp:90-100 | `motion()` returns the same movement for every MOTION event, because the `Motion` class has no axis members |
| `Events.ButtonRoundTrip` | include/libNDOF.hpp:158-164 | `buttonchange()` on an event built from `b` and `s` returns `b` and `s` unchanged, and tests true iff `b` is not EMPTY |
| `Client.Handle` | examples/events.cpp:58-91 | the client takes the branch for the event's own type, each branch's accessor is called only on its tag, and an empty event takes no branch |
| `Client.HandleButtonEvent` | examples/events.cpp:82-90 | a button event is reported with exactly the button and state it was built from |
| `Client.Drain` | examples/events.cpp:55-94 | the client handles the popped events in order up to the first one that tests false, and every one of them takes the branch of its own type |

## Left out

- The `NDOF` manager (`begin`, `end`, `devices`, `connect`, `run_hid`, `push_hid_data`, `push_deviceevent`, include/libNDOF.hpp:244-282): declarations without bodies, plus a worker thread and a mutex-guarded queue; there is no behaviour to model.
- `Connection`, `Connection::pop` and `ConnectionImpl` (include/libNDOF.hpp:205-236): declarations without bodies. `Client.Drain` takes the values successive pops return as a parameter instead.
- The hidapi backend (include/libNDOF.hpp:26-28): a foreign library.
- `Time` timestamps on events and payloads: floating point, left out. The six `float` motion axes are modelled as integers.
- The anonymous union, the `DeviceInfo*` pointer and the move-only semantics of `DeviceEvent` (include/libNDOF.hpp:144-146, 166-194): the datatype replaces them. The pointer is modelled as the information it points to.
- Events.FromType: after the tag-only constructor the union holds a null `DeviceInfo*` (the default member initialiser at include/libNDOF.hpp:192). The model gives a CONNECTED event built this way empty device information, which assumes `device()` does not dereference the null pointer; the header declares `device()` but does not define it. For BUTTON_CHANGE the null pointer's zero bytes read as EMPTY/EMPTY, as in the model. For MOTION they make only the first two axes zero and leave the other four uninitialised; the model sets all six to zero, which no accessor can observe.
- `DeviceInfo::name()` and `DeviceInfo::id()` (include/libNDOF.hpp:109-110): declared only; the model keeps the two strings as fields.
- The accessors and the axis and button constructors (include/libNDOF.hpp:156-158, 163-164): the header declares these but does not define them. The model reads and stores the payload directly.
- The reading of `std::cin`, the printing to standard output and the connection setup of the example client (examples/events.cpp:9-53, 61-89): I/O.
