/** The scene button of src/obs/ObsSceneButton.ts: switches to its scene
    and lights green while that scene is current, red otherwise. */
module ObsSceneButton {
  import opened LedState
  import opened ObsStateTracker
  import opened ObsApp

  /** The LED of a scene button: green while its scene is current, red otherwise. */
  function SceneLed(isCurrentScene: bool, ledId: int): (s: LedState)
    ensures s.channel == 0 && s.note == ledId && s.duration == 0
    ensures isCurrentScene ==> s.green == 3 && s.red == 0
    ensures !isCurrentScene ==> s.green == 0 && s.red == 3
  {
    LedState(0, ledId, if isCurrentScene then 3 else 0, if isCurrentScene then 0 else 3)
  }

  /** The LED shown while a switch to another scene is pending. */
  function PendingSwitchLed(ledId: int): (s: LedState)
    ensures s != SceneLed(true, ledId) && s != SceneLed(false, ledId)
    ensures s.channel == 0 && s.note == ledId && s.duration == 0
    ensures s.green == 1 && s.red == 3
  {
    LedState(0, ledId, 1, 3)
  }

  /** Of scene buttons for distinct scenes, the one for the current scene
      is lit green and no other: one lit button when the current scene has
      a button, none otherwise. */
  lemma LitSceneButtons(sceneNames: seq<string>, currentScene: string)
    requires forall a, b :: 0 <= a < b < |sceneNames| ==> sceneNames[a] != sceneNames[b]
    ensures |set i | 0 <= i < |sceneNames| && SceneLed(sceneNames[i] == currentScene, i).green == 3|
      == if currentScene in sceneNames then 1 else 0
  {
    var lit := set i | 0 <= i < |sceneNames| && SceneLed(sceneNames[i] == currentScene, i).green == 3;
    if currentScene in sceneNames {
      var k :| 0 <= k < |sceneNames| && sceneNames[k] == currentScene;
      forall i | i in lit ensures i == k {
        assert sceneNames[i] == currentScene;
      }
      assert lit == {k};
    } else {
      assert lit == {};
    }
  }

  class ObsSceneButton {
    const id: int
    const sceneName: string
    const triggerOnUp: bool
    const ledId: int

    /** The button is its own action and LED provider, on the LED slot of its id. */
    constructor (id: int, sceneName: string, triggerOnUp: bool := false)
      ensures this.id == id && this.sceneName == sceneName && this.triggerOnUp == triggerOnUp
      ensures ledId == id
    {
      this.id := id;
      this.sceneName := sceneName;
      this.triggerOnUp := triggerOnUp;
      ledId := id;
    }

    /** `isCurrentScene`: the tracker's current scene is this button's scene. */
    function IsCurrentScene(app: ObsApp): (isCurrent: bool)
      reads app.tracker
      ensures isCurrent <==> app.tracker.currentScene == sceneName
    {
      app.tracker.GetCurrentScene() == sceneName
    }

    /** `updateLedState`: queues exactly one LED command, its colour chosen
        from the tracker's current scene. */
    method UpdateLedState(app: ObsApp, ledId: int)
      modifies app
      ensures app.effects == old(app.effects) + [QueuedLed(SceneLed(app.tracker.currentScene == sceneName, ledId))]
    {
      var isCurrentScene := IsCurrentScene(app);
      app.Led(0, ledId, if isCurrentScene then 3 else 0, if isCurrentScene then 0 else 3);
    }

    /** `performAction`: when the scene is not already current, first the
        pending LED and a tick; in every case the switch request. */
    method PerformAction(app: ObsApp, velocity: int)
      modifies app
      ensures app.effects == old(app.effects)
        + (if app.tracker.currentScene == sceneName then [] else [QueuedLed(PendingSwitchLed(ledId)), Ticked])
        + [Sent(SetCurrentScene(sceneName))]
    {
      if !IsCurrentScene(app) {
        app.Led(0, ledId, 1, 3);
        app.Tick();
      }
      app.Send(SetCurrentScene(sceneName));
    }

    /** The scene-switch listener registered by `init`: re-render, then tick. */
    method OnSwitchScenes(app: ObsApp)
      modifies app
      ensures app.effects == old(app.effects) + [QueuedLed(SceneLed(app.tracker.currentScene == sceneName, ledId)), Ticked]
    {
      UpdateLedState(app, ledId);
      app.Tick();
    }
  }
}
