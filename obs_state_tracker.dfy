/** The local mirror of the broadcast application's state kept by
    src/obs/ObsStateTracker.ts. Remote replies are parameters; change
    notifications are method calls. */
module ObsStateTracker {
  import opened Wrappers

  /** A scene as the scene-list reply describes it; only its name is used. */
  datatype Scene = Scene(name: string)

  /** A source as the source-list reply describes it. */
  datatype Source = Source(name: string, sourceType: string, typeId: string)

  /** The reply to `GetSceneList`. */
  datatype SceneListReply = SceneListReply(currentScene: string, scenes: seq<Scene>)

  /** How many `GetMute` requests, made one source after the other, are
      answered before the first one is rejected. */
  function Answered(sources: seq<Source>, getMute: string -> Option<bool>): (k: nat)
    ensures k <= |sources|
    ensures forall i :: 0 <= i < k ==> getMute(sources[i].name).Some?
    ensures k < |sources| ==> getMute(sources[k].name).None?
  {
    if sources == [] || getMute(sources[0].name).None? then 0
    else 1 + Answered(sources[1..], getMute)
  }

  /** The mute map built from the replies for `sources`, one entry written
      after the other: keyed by exactly their names, each holding the reply. */
  function MuteStates(sources: seq<Source>, getMute: string -> Option<bool>): (m: map<string, bool>)
    requires forall i :: 0 <= i < |sources| ==> getMute(sources[i].name).Some?
    ensures m.Keys == set i | 0 <= i < |sources| :: sources[i].name
    ensures forall n :: n in m ==> getMute(n) == Some(m[n])
  {
    if sources == [] then map[]
    else
      var last := sources[|sources| - 1];
      MuteStates(sources[..|sources| - 1], getMute)[last.name := getMute(last.name).value]
  }

  /** The tracker. */
  class ObsStateTracker {
    var currentScene: string
    var scenes: seq<Scene>
    var sources: seq<Source>
    var sourceMuteStates: map<string, bool>

    /** Nothing is known before the first refresh. */
    constructor ()
      ensures currentScene == "" && scenes == [] && sources == [] && sourceMuteStates == map[]
    {
      currentScene := "";
      scenes := [];
      sources := [];
      sourceMuteStates := map[];
    }

    /** `setScene` (also the scene-switch notification): afterwards the current
        scene is `scene`; when it already was, nothing changes. */
    method SetScene(scene: string)
      modifies this
      ensures currentScene == scene
      ensures scenes == old(scenes) && sources == old(sources) && sourceMuteStates == old(sourceMuteStates)
      ensures old(currentScene) == scene ==> unchanged(this)
    {
      if currentScene != scene {
        currentScene := scene;
      }
    }

    /** `updateScenes` (also the scene-list notification): the scene list and
        the current scene become the reply's. */
    method UpdateScenes(reply: SceneListReply)
      modifies this
      ensures scenes == reply.scenes && currentScene == reply.currentScene
      ensures sources == old(sources) && sourceMuteStates == old(sourceMuteStates)
    {
      scenes := reply.scenes;
      SetScene(reply.currentScene);
    }

    /** `updateSources` (also the source created, destroyed and renamed
        notifications): the source list becomes the reply, the mute map is
        rebuilt from scratch from one `GetMute` per source. A rejected
        `GetMute` ends the refresh there (`ok` false), leaving the entries
        written so far. */
    method UpdateSources(reply: seq<Source>, getMute: string -> Option<bool>) returns (ok: bool)
      modifies this
      ensures sources == reply
      ensures ok <==> Answered(reply, getMute) == |reply|
      ensures sourceMuteStates == MuteStates(reply[..Answered(reply, getMute)], getMute)
      ensures currentScene == old(currentScene) && scenes == old(scenes)
    {
      sources := reply;
      sourceMuteStates := map[];
      var i := 0;
      while i < |sources|
        invariant sources == reply
        invariant 0 <= i <= Answered(reply, getMute)
        invariant sourceMuteStates == MuteStates(reply[..i], getMute)
        invariant currentScene == old(currentScene) && scenes == old(scenes)
      {
        var muted := getMute(sources[i].name);
        if muted.None? {
          return false;
        }
        assert reply[..i + 1][..i] == reply[..i];
        sourceMuteStates := sourceMuteStates[sources[i].name := muted.value];
        i := i + 1;
      }
      assert reply[..i] == reply;
      return true;
    }

    /** The mute-changed notification: writes that source's entry only. */
    method OnSourceMuteStateChanged(sourceName: string, muted: bool)
      modifies this
      ensures sourceMuteStates == old(sourceMuteStates)[sourceName := muted]
      ensures forall n :: n != sourceName ==> IsSourceMuted(n) == old(IsSourceMuted(n))
      ensures currentScene == old(currentScene) && scenes == old(scenes) && sources == old(sources)
    {
      sourceMuteStates := sourceMuteStates[sourceName := muted];
    }

    /** `init`: the initial full fetch, current scene first, then the scene
        list, then the sources and their mute states. */
    method Init(current: string, sceneList: SceneListReply, sourceList: seq<Source>, getMute: string -> Option<bool>)
      returns (ok: bool)
      modifies this
      ensures currentScene == sceneList.currentScene && scenes == sceneList.scenes && sources == sourceList
      ensures ok <==> Answered(sourceList, getMute) == |sourceList|
      ensures sourceMuteStates == MuteStates(sourceList[..Answered(sourceList, getMute)], getMute)
    {
      currentScene := current;
      UpdateScenes(sceneList);
      ok := UpdateSources(sourceList, getMute);
    }

    /** `getCurrentScene`: the stored current scene. */
    function GetCurrentScene(): (scene: string)
      reads this
      ensures scene == currentScene
    {
      currentScene
    }

    /** `getSceneList`: the scene names in stored order. */
    function GetSceneList(): (names: seq<string>)
      reads this
      ensures |names| == |scenes|
      ensures forall i :: 0 <= i < |names| ==> names[i] == scenes[i].name
    {
      var stored := scenes;
      seq(|stored|, i requires 0 <= i < |stored| => stored[i].name)
    }

    /** `getSourcesList`: the source names in stored order. */
    function GetSourcesList(): (names: seq<string>)
      reads this
      ensures |names| == |sources|
      ensures forall i :: 0 <= i < |names| ==> names[i] == sources[i].name
    {
      var stored := sources;
      seq(|stored|, i requires 0 <= i < |stored| => stored[i].name)
    }

    /** `isSourceMuted`: the stored entry, absent (`undefined`) for a name never written. */
    function IsSourceMuted(name: string): (muted: Option<bool>)
      reads this
      ensures muted.Some? <==> name in sourceMuteStates
      ensures muted.Some? ==> muted.value == sourceMuteStates[name]
    {
      if name in sourceMuteStates then Some(sourceMuteStates[name]) else None
    }
  }

  /** After a complete refresh the tracker answers for exactly the refreshed
      sources, with their replies, whatever it held before. */
  lemma RefreshedMuteStates(sources: seq<Source>, getMute: string -> Option<bool>, name: string)
    requires Answered(sources, getMute) == |sources|
    ensures name in MuteStates(sources[..Answered(sources, getMute)], getMute)
      <==> exists i :: 0 <= i < |sources| && sources[i].name == name
    ensures name in MuteStates(sources[..Answered(sources, getMute)], getMute) ==>
      getMute(name) == Some(MuteStates(sources[..Answered(sources, getMute)], getMute)[name])
  {
    assert sources[..Answered(sources, getMute)] == sources;
  }
}
