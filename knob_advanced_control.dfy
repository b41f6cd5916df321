/** The knob of src/KnobAdvancedControl.ts: it fires on every continuous
    controller event and passes the raw value on. Also the piecewise
    linear map from a knob position in [0, 1] to decibels, over exact reals. */
module KnobAdvancedControl {
  import opened MidiControl

  /** `handleEvent` of a knob bound to `action`. */
  function HandleEvent(action: Action, eventType: int, velocity: MidiValue): (h: Handled)
    ensures h.fired <==> eventType == ADVANCED_CONTROL
    ensures h.fired ==> h.calls == [Call(action, velocity)]
    ensures !h.fired ==> h.calls == []
  {
    if eventType == ADVANCED_CONTROL then
      Handled(true, PerformAction(action, velocity))
    else
      Handled(false, [])
  }

  /** Button codes never fire a knob, and a knob at rest (value 0) still fires. */
  lemma ButtonCodesNeverFire(action: Action, velocity: MidiValue)
    ensures HandleEvent(action, BUTTON_DOWN, velocity) == Handled(false, [])
    ensures HandleEvent(action, BUTTON_UP, velocity) == Handled(false, [])
    ensures HandleEvent(action, ADVANCED_CONTROL, Defined(0)).calls == [Call(action, Defined(0))]
  {
  }

  /** One linear piece: the line through (a2, -a1) with slope d / m. */
  function ReverseDef(y: real, a1: real, d: real, m: real, a2: real): (db: real)
    requires m != 0.0
    ensures y == a2 ==> db == -a1
    ensures y == a2 + m ==> db == d - a1
  {
    ((y - a2) / m) * d - a1
  }

  /** The piece is linear: any two positions differ in decibels by their
      difference times the slope d / m. */
  lemma ReverseDefSlope(y1: real, y2: real, a1: real, d: real, m: real, a2: real)
    requires m != 0.0
    ensures ReverseDef(y2, a1, d, m, a2) - ReverseDef(y1, a1, d, m, a2) == (y2 - y1) * d / m
  {
  }

  /** `linearToDef`: position to decibels. Each band of positions lands in
      its own band of decibels, which together cover (-150, 0). */
  function LinearToDef(y: real): (db: real)
    ensures y >= 1.0 ==> db == 0.0
    ensures 0.75 <= y < 1.0 ==> -9.0 <= db < 0.0
    ensures 0.5 <= y < 0.75 ==> -20.0 <= db < -9.0
    ensures 0.3 <= y < 0.5 ==> -30.0 <= db < -20.0
    ensures 0.15 <= y < 0.3 ==> -40.0 <= db < -30.0
    ensures 0.075 <= y < 0.15 ==> -50.0 <= db < -40.0
    ensures 0.025 <= y < 0.075 ==> -60.0 <= db < -50.0
    ensures 0.0 < y < 0.025 ==> -150.0 < db < -60.0
    ensures y <= 0.0 ==> db == -15000.0
  {
    if y >= 1.0 then 0.0
    else if y >= 0.75 then ReverseDef(y, 9.0, 9.0, 0.25, 0.75)
    else if y >= 0.5 then ReverseDef(y, 20.0, 11.0, 0.25, 0.5)
    else if y >= 0.3 then ReverseDef(y, 30.0, 10.0, 0.2, 0.3)
    else if y >= 0.15 then ReverseDef(y, 40.0, 10.0, 0.15, 0.15)
    else if y >= 0.075 then ReverseDef(y, 50.0, 10.0, 0.075, 0.075)
    else if y >= 0.025 then ReverseDef(y, 60.0, 10.0, 0.05, 0.025)
    else if y > 0.0 then ReverseDef(y, 150.0, 90.0, 0.025, 0.0)
    else -15000.0
  }

  /** Strictly inside (0, 1) the result lies strictly between -150 dB and 0 dB. */
  lemma LinearToDefOpenRange(y: real)
    requires 0.0 < y < 1.0
    ensures -150.0 < LinearToDef(y) < 0.0
  {
  }

  /** Turning the knob up never lowers the level: the map is monotone. */
  lemma LinearToDefMonotone(y1: real, y2: real)
    requires y1 <= y2
    ensures LinearToDef(y1) <= LinearToDef(y2)
  {
  }
}
