/** What every control shares (src/MidiControl.ts): the raw event codes,
    the values read from a MIDI message and the bound action. */
module MidiControl {

  /** Status byte of a button press. */
  const BUTTON_DOWN: int := 153
  /** Status byte of a button release. */
  const BUTTON_UP: int := 137
  /** Status byte of a continuous controller (knob) change. */
  const ADVANCED_CONTROL: int := 176

  /** A byte of a MIDI message read by index: `Undefined` when the message
      is shorter than the index (JavaScript's `undefined`). */
  datatype MidiValue = Undefined | Defined(n: int)

  /** The action a control is bound to when it is built, identified by a
      handle; what the action does remotely is outside this model. */
  type Action = nat

  /** One execution of an action with the velocity it was given. */
  datatype Call = Call(action: Action, velocity: MidiValue)

  /** What `handleEvent` reports, and the action executions it caused. */
  datatype Handled = Handled(fired: bool, calls: seq<Call>)

  /** `performAction`: the bound action runs exactly once, with the
      velocity passed on unchanged. */
  function PerformAction(action: Action, velocity: MidiValue): (calls: seq<Call>)
    ensures |calls| == 1 && calls[0].action == action && calls[0].velocity == velocity
  {
    [Call(action, velocity)]
  }

  /** The three event codes are distinct. */
  lemma EventTypesDistinct()
    ensures BUTTON_DOWN != BUTTON_UP && BUTTON_DOWN != ADVANCED_CONTROL && BUTTON_UP != ADVANCED_CONTROL
  {
  }
}
