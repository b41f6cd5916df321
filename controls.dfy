/** The closed set of control variants behind the one `handleEvent`
    contract declared abstract in src/MidiControl.ts. */
module Controls {
  import opened MidiControl
  import ButtonControl
  import ButtonAdvancedControl
  import KnobAdvancedControl

  /** The variant of a control and its polarity; both button kinds fire on
      press unless built with `triggerOnUp`. */
  datatype Kind =
    | Button(triggerOnUp: bool := false)
    | ButtonAdvanced(triggerOnUp: bool := false)
    | KnobAdvanced

  /** A registered control: its input id and its bound action are fixed
      when it is built. */
  datatype Control = Control(id: int, action: Action, kind: Kind)

  /** `handleEvent`, dispatched on the variant. Whatever the variant, only
      the bound action can run, at most once, and exactly when it fires. */
  function HandleEvent(c: Control, eventType: int, velocity: MidiValue): (h: Handled)
    ensures h.fired <==> |h.calls| == 1
    ensures |h.calls| <= 1
    ensures forall call :: call in h.calls ==> call.action == c.action
  {
    match c.kind
    case Button(triggerOnUp) => ButtonControl.HandleEvent(c.action, triggerOnUp, eventType, velocity)
    case ButtonAdvanced(triggerOnUp) => ButtonAdvancedControl.HandleEvent(c.action, triggerOnUp, eventType, velocity)
    case KnobAdvanced => KnobAdvancedControl.HandleEvent(c.action, eventType, velocity)
  }

  /** A button built without a polarity fires on a press and on nothing else. */
  lemma DefaultButtonFiresOnPress(id: int, action: Action, eventType: int, velocity: MidiValue)
    ensures HandleEvent(Control(id, action, Button()), eventType, velocity).fired <==> eventType == BUTTON_DOWN
  {
  }

  /** An advanced button built without a polarity fires on a non-zero velocity. */
  lemma DefaultAdvancedButtonFiresOnNonZero(id: int, action: Action, eventType: int, velocity: MidiValue)
    ensures HandleEvent(Control(id, action, ButtonAdvanced()), eventType, velocity).fired <==> velocity != Defined(0)
  {
  }
}
