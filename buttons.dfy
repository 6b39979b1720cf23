/** Buttons of an NDOF device and a strict change of one button's state
    (the `Button` and `ButtonState` enums and the `ButtonChange` value class). */
module Buttons {

  /** Device buttons. `EMPTY` names no button; `A` is the only real button so far. */
  datatype Button = EMPTY | A

  /** Whether a button is pressed (`DOWN`) or neutral (`UP`); `EMPTY` is no state. */
  datatype ButtonState = EMPTY | UP | DOWN

  /** A strict change of button state: which button, and the state it went to. */
  datatype ButtonChange = ButtonChange(button: Button, state: ButtonState) {

    /** The `operator bool` of the class: a change is "true" when it names a real button. */
    predicate Valid() {
      button != Button.EMPTY
    }
  }

  /** The default constructor: both members keep their default initialisers. */
  function DefaultButtonChange(): (c: ButtonChange)
    ensures c.button == Button.EMPTY && c.state == ButtonState.EMPTY
    ensures !c.Valid()
  {
    ButtonChange(Button.EMPTY, ButtonState.EMPTY)
  }

  /** The two-argument constructor: stores `b` and `s` as given. Whether the
      change tests true depends on the button alone, never on the state. */
  function NewButtonChange(b: Button, s: ButtonState): (c: ButtonChange)
    ensures c.button == b && c.state == s
    ensures c.Valid() <==> b != Button.EMPTY
  {
    ButtonChange(b, s)
  }

  /** Whatever its state, a change tests true exactly when its button is a real
      one; with today's two-value `Button` that is the button `A`. The header
      marks the list of buttons as open, so the first clause is a fact about the
      current enum only. */
  lemma ValidIffRealButton(c: ButtonChange)
    ensures c.Valid() <==> c.button == Button.A
    ensures forall s :: ButtonChange(c.button, s).Valid() == c.Valid()
  {
  }
}
