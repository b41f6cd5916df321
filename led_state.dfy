/** The LED command record of src/LedState.ts. */
module LedState {

  /** One LED command: channel, note (the LED slot), green and red
      intensities and a duration in milliseconds (0 = held). Every field is
      immutable; the four first are mandatory, the duration defaults to 0. */
  datatype LedState = LedState(channel: int, note: int, green: int, red: int, duration: int := 0)

  /** The record keeps exactly what it was built from: two records are
      equal only when every argument was, and an omitted duration is 0. */
  lemma LedStateStoresArguments(channel: int, note: int, green: int, red: int, duration: int)
    ensures LedState(channel, note, green, red).duration == 0
    ensures LedState(channel, note, green, red) == LedState(channel, note, green, red, 0)
    ensures var s := LedState(channel, note, green, red, duration);
      s.channel == channel && s.note == note && s.green == green && s.red == red && s.duration == duration
  {
  }
}
