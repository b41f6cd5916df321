/** The plain button of src/ButtonControl.ts: it fires on the one status
    code its polarity selects. */
module ButtonControl {
  import opened MidiControl

  /** The status code a button with this polarity fires on. */
  function TriggerCode(triggerOnUp: bool): int
  {
    if triggerOnUp then BUTTON_UP else BUTTON_DOWN
  }

  /** `handleEvent` of a button bound to `action`. */
  function HandleEvent(action: Action, triggerOnUp: bool, eventType: int, velocity: MidiValue): (h: Handled)
    ensures h.fired <==> eventType == TriggerCode(triggerOnUp)
    ensures h.fired ==> h.calls == [Call(action, velocity)]
    ensures !h.fired ==> h.calls == []
  {
    if (triggerOnUp && eventType == BUTTON_UP) || (!triggerOnUp && eventType == BUTTON_DOWN) then
      Handled(true, PerformAction(action, velocity))
    else
      Handled(false, [])
  }

  /** A knob event never fires a button, whatever its polarity. */
  lemma NeverFiresOnAdvancedControl(action: Action, triggerOnUp: bool, velocity: MidiValue)
    ensures !HandleEvent(action, triggerOnUp, ADVANCED_CONTROL, velocity).fired
    ensures HandleEvent(action, triggerOnUp, ADVANCED_CONTROL, velocity).calls == []
  {
  }

  /** The velocity never decides whether a button fires. */
  lemma VelocityIgnored(action: Action, triggerOnUp: bool, eventType: int, v1: MidiValue, v2: MidiValue)
    ensures HandleEvent(action, triggerOnUp, eventType, v1).fired == HandleEvent(action, triggerOnUp, eventType, v2).fired
  {
  }

  /** Of the two button codes, each polarity fires on exactly one. */
  lemma ExactlyOneEdgeFires(action: Action, triggerOnUp: bool, velocity: MidiValue)
    ensures HandleEvent(action, triggerOnUp, BUTTON_DOWN, velocity).fired
         != HandleEvent(action, triggerOnUp, BUTTON_UP, velocity).fired
  {
  }
}
