/** The mute button of src/obs/ObsSourceToggleMuteButton.ts: toggles the
    mute of its source and lights red while the source is muted. */
module ObsSourceToggleMuteButton {
  import opened Wrappers
  import opened LedState
  import opened ObsStateTracker
  import opened ObsApp

  /** The LED of a mute button from the tracker's answer: red when muted,
      green when unmuted or unknown (`undefined` is falsy). */
  function MuteLed(muted: Option<bool>, ledId: int): (s: LedState)
    ensures s.channel == 0 && s.note == ledId && s.duration == 0
    ensures muted == Some(true) ==> s.green == 0 && s.red == 3
    ensures muted != Some(true) ==> s.green == 3 && s.red == 0
  {
    var isMuted := muted == Some(true);
    LedState(0, ledId, if isMuted then 0 else 3, if isMuted then 3 else 0)
  }

  class ObsSourceToggleMuteButton {
    const id: int
    const sourceName: string
    const triggerOnUp: bool
    const ledId: int

    /** The button is its own action and LED provider, on the LED slot of its id. */
    constructor (id: int, sourceName: string, triggerOnUp: bool := false)
      ensures this.id == id && this.sourceName == sourceName && this.triggerOnUp == triggerOnUp
      ensures ledId == id
    {
      this.id := id;
      this.sourceName := sourceName;
      this.triggerOnUp := triggerOnUp;
      ledId := id;
    }

    /** The filter of the mute-changed listener registered by `init`. */
    function ConcernsThisButton(notifiedSource: string): (concerned: bool)
      ensures concerned <==> notifiedSource == sourceName
    {
      notifiedSource == sourceName
    }

    /** `updateLedState`: queues exactly one LED command, its colour chosen
        from the tracker's mute entry for this source. */
    method UpdateLedState(app: ObsApp, ledId: int)
      modifies app
      ensures app.effects == old(app.effects) + [QueuedLed(MuteLed(app.tracker.IsSourceMuted(sourceName), ledId))]
    {
      var muted := app.tracker.IsSourceMuted(sourceName);
      var isMuted := muted == Some(true);
      app.Led(0, ledId, if isMuted then 0 else 3, if isMuted then 3 else 0);
    }

    /** The mute-changed listener: re-render and tick for this button's
        source, nothing for any other. */
    method OnSourceMuteStateChanged(app: ObsApp, notifiedSource: string)
      modifies app
      ensures ConcernsThisButton(notifiedSource) ==>
        app.effects == old(app.effects) + [QueuedLed(MuteLed(app.tracker.IsSourceMuted(sourceName), ledId)), Ticked]
      ensures !ConcernsThisButton(notifiedSource) ==> app.effects == old(app.effects)
    {
      if ConcernsThisButton(notifiedSource) {
        UpdateLedState(app, ledId);
        app.Tick();
      }
    }

    /** `performAction`: toggles this button's source, whatever the velocity. */
    method PerformAction(app: ObsApp, velocity: int)
      modifies app
      ensures app.effects == old(app.effects) + [Sent(ToggleMute(sourceName))]
    {
      app.Send(ToggleMute(sourceName));
    }
  }

  /** A mute notification for a button's source, seen first by the tracker
      and then by the button, leaves exactly one new LED command showing
      the notified state. */
  method MuteNotificationRendersState(app: ObsApp, button: ObsSourceToggleMuteButton, muted: bool)
    modifies app, app.tracker
    ensures app.tracker.sourceMuteStates == old(app.tracker.sourceMuteStates)[button.sourceName := muted]
    ensures app.tracker.currentScene == old(app.tracker.currentScene)
    ensures app.tracker.scenes == old(app.tracker.scenes) && app.tracker.sources == old(app.tracker.sources)
    ensures app.effects == old(app.effects)
      + [QueuedLed(LedState(0, button.ledId, if muted then 0 else 3, if muted then 3 else 0)), Ticked]
  {
    app.tracker.OnSourceMuteStateChanged(button.sourceName, muted);
    button.OnSourceMuteStateChanged(app, button.sourceName);
  }
}
