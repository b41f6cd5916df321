/** The application surface the OBS buttons use: `app.led`, `app.tick`,
    `app.getObs().send` and `app.getObsStateTracker()`. LED commands are
    appended to an ordered log of effects; a tick is recorded but not
    interpreted; a remote command is recorded as sent. */
module ObsApp {
  import opened LedState
  import opened ObsStateTracker

  /** The remote commands the buttons send. */
  datatype Request = SetCurrentScene(sceneName: string) | ToggleMute(source: string)

  /** One observable effect, in the order it happened. */
  datatype Effect = QueuedLed(state: LedState) | Ticked | Sent(request: Request)

  class ObsApp {
    const tracker: ObsStateTracker
    var effects: seq<Effect>

    constructor (tracker: ObsStateTracker)
      ensures this.tracker == tracker && effects == []
    {
      this.tracker := tracker;
      effects := [];
    }

    /** `led(channel, note, green, red, duration = 0)`: queue one LED command. */
    method Led(channel: int, note: int, green: int, red: int, duration: int := 0)
      modifies this
      ensures effects == old(effects) + [QueuedLed(LedState(channel, note, green, red, duration))]
    {
      effects := effects + [QueuedLed(LedState(channel, note, green, red, duration))];
    }

    /** `tick`. */
    method Tick()
      modifies this
      ensures effects == old(effects) + [Ticked]
    {
      effects := effects + [Ticked];
    }

    /** `getObs().send(request)`. */
    method Send(request: Request)
      modifies this
      ensures effects == old(effects) + [Sent(request)]
    {
      effects := effects + [Sent(request)];
    }
  }
}
