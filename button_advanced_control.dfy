/** The button of src/ButtonAdvancedControl.ts: it fires on a zero or a
    non-zero velocity, ignoring the status code, and hands its action a
    velocity normalised to 0 or 1. */
module ButtonAdvancedControl {
  import opened MidiControl

  /** `handleEvent` of an advanced button bound to `action`. */
  function HandleEvent(action: Action, triggerOnUp: bool, eventType: int, velocity: MidiValue): (h: Handled)
    ensures h.fired <==> (velocity == Defined(0)) == triggerOnUp
    ensures h.fired ==> h.calls == [Call(action, Defined(if triggerOnUp then 0 else 1))]
    ensures !h.fired ==> h.calls == []
  {
    if (triggerOnUp && velocity == Defined(0)) || (!triggerOnUp && velocity != Defined(0)) then
      Handled(true, PerformAction(action, Defined(if velocity == Defined(0) then 0 else 1)))
    else
      Handled(false, [])
  }

  /** The status code plays no part: any two codes give the same outcome. */
  lemma EventTypeIgnored(action: Action, triggerOnUp: bool, e1: int, e2: int, velocity: MidiValue)
    ensures HandleEvent(action, triggerOnUp, e1, velocity) == HandleEvent(action, triggerOnUp, e2, velocity)
  {
  }

  /** Whatever the velocity, exactly one polarity fires on it. */
  lemma ExactlyOnePolarityFires(action: Action, eventType: int, velocity: MidiValue)
    ensures HandleEvent(action, true, eventType, velocity).fired
         != HandleEvent(action, false, eventType, velocity).fired
  {
  }
}
