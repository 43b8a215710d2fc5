/**
 * The 3D neuron loader of script.js: a chain of load attempts over a fixed
 * list of candidate paths, raced by one load timeout, with a procedurally
 * built neuron as the fallback.
 *
 * The page's globals (`model`, `isModelLoaded`, `modelLoadTimeout`,
 * `currentPathIndex`, the scene) are the fields of one `Loader` object; the
 * loader's callbacks and the timer are its methods, one per event. The
 * source has no flag that makes later callbacks do nothing once something
 * is shown, and neither does this model: a
 * timeout does not stop the attempt chain, so a late success or a late
 * exhaustion adds a second object to the scene.
 */
module NeuronLoader {
  import opened JsonValues

  /** `possiblePaths` */
  const PossiblePaths: seq<string> := ["assets/neuron.glb", "./assets/neuron.glb", "../assets/neuron.glb", "neuron.glb"]

  /** The state of `modelLoadTimeout`: pending, cancelled by `clearTimeout`, or already run. */
  datatype Timer = Armed | Cleared | Fired

  /** `clearTimeout`: cancels a pending timer and does nothing to one that has run. */
  function ClearTimeout(t: Timer): (r: Timer)
    ensures r != Armed
    ensures t != Armed ==> r == t
  {
    if t == Armed then Cleared else t
  }

  // ---------- The fallback neuron ----------

  /** The meshes `createFallbackNeuron` adds to its group; a spike or terminal carries its loop index. */
  datatype Part = Body | GlowShell | Spike(index: int) | Axon | Terminal(index: int)

  const SpikeCount: int := 20
  const TerminalCount: int := 5

  /**
   * The group's parts in the order they are added: the body, the glow shell,
   * 20 spikes, the axon and 5 terminals, 28 in all.
   */
  ghost predicate IsNeuronParts(parts: seq<Part>) {
    && |parts| == 2 + SpikeCount + 1 + TerminalCount
    && parts[0] == Body
    && parts[1] == GlowShell
    && (forall i :: 2 <= i < 2 + SpikeCount ==> parts[i] == Spike(i - 2))
    && parts[2 + SpikeCount] == Axon
    && (forall i :: 3 + SpikeCount <= i < |parts| ==> parts[i] == Terminal(i - 3 - SpikeCount))
  }

  /** The group-building part of `createFallbackNeuron`, with its two counted loops. */
  method BuildNeuronGroup() returns (group: seq<Part>)
    ensures |group| == 28
    ensures IsNeuronParts(group)
  {
    group := [Body, GlowShell];
    for i := 0 to SpikeCount
      invariant |group| == 2 + i && group[0] == Body && group[1] == GlowShell
      invariant forall j :: 2 <= j < |group| ==> group[j] == Spike(j - 2)
    {
      group := group + [Spike(i)];
    }
    group := group + [Axon];
    ghost var trunk := group;
    for i := 0 to TerminalCount
      invariant |group| == |trunk| + i && group[..|trunk|] == trunk
      invariant forall j :: |trunk| <= j < |group| ==> group[j] == Terminal(j - |trunk|)
    {
      group := group + [Terminal(i)];
    }
  }

  /** Building the fallback is deterministic: any two results have the same parts in the same order. */
  lemma NeuronPartsUnique(p: seq<Part>, q: seq<Part>)
    requires IsNeuronParts(p) && IsNeuronParts(q)
    ensures p == q
  {
    forall i | 0 <= i < |p| ensures p[i] == q[i] {
      if 2 <= i < 2 + SpikeCount {
        assert p[i] == Spike(i - 2) == q[i];
      } else if 3 + SpikeCount <= i {
        assert p[i] == Terminal(i - 3 - SpikeCount) == q[i];
      }
    }
  }

  // ---------- The scene ----------

  datatype SceneObject =
    | AmbientLight | KeyLight | FillLight | RimLight | Particles
    | LoadedScene(path: string)      // `gltf.scene` of the asset loaded from `path`
    | NeuronGroup(parts: seq<Part>)  // the group `createFallbackNeuron` builds

  /** What the page adds to the scene before loading starts: four lights and the particle field. */
  const InitialScene: seq<SceneObject> := [AmbientLight, KeyLight, FillLight, RimLight, Particles]

  /** An object the loader may put in the scene: a loaded candidate, or the fallback neuron. */
  ghost predicate IsNeuronObject(o: SceneObject) {
    || (o.LoadedScene? && o.path in PossiblePaths)
    || (o.NeuronGroup? && IsNeuronParts(o.parts))
  }

  /** The gate of the progress callback: a percentage only for a known, positive total. */
  predicate ShowsProgress(lengthComputable: bool, total: int) {
    lengthComputable && total > 0
  }

  function Min(a: int, b: int): int {
    if a < b then a else b
  }

  class Loader {
    var scene: seq<SceneObject>
    var model: Option<SceneObject>
    var isModelLoaded: bool
    var modelLoadTimeout: Timer
    var currentPathIndex: int
    /** Every path handed to `tryLoadModel`, in call order. */
    var attempted: seq<string>
    /** The path whose `loader.load` has not yet called back. */
    var inFlight: Option<string>
    /** The loaded and total byte counts behind the last percentage shown. */
    var progressShown: Option<(int, int)>
    var frames: nat
    /** Frames in which `animate` moved the model. */
    var modelFrames: nat

    /**
     * Paths are tried in list order, each once; at most one load is in
     * flight and only for the current index; the timeout is pending only
     * while nothing has been shown; each of the two ways to show something
     * (the timeout running, the attempt chain ending) adds exactly one
     * object, the timeout's coming first; `model` is the object added last.
     */
    ghost predicate Valid()
      reads this
    {
      && |scene| >= |InitialScene| && scene[..|InitialScene|] == InitialScene
      && 0 <= currentPathIndex <= |PossiblePaths|
      && attempted == PossiblePaths[..Min(currentPathIndex + 1, |PossiblePaths|)]
      && (inFlight.Some? ==> currentPathIndex < |PossiblePaths| && inFlight.value == PossiblePaths[currentPathIndex])
      && (currentPathIndex == |PossiblePaths| ==> inFlight.None?)
      && (modelLoadTimeout == Armed ==> inFlight.Some?)
      && (modelLoadTimeout == Cleared ==> inFlight.None?)
      && |scene| == |InitialScene| + (if modelLoadTimeout == Fired then 1 else 0) + (if inFlight.None? then 1 else 0)
      && (forall i :: |InitialScene| <= i < |scene| ==> IsNeuronObject(scene[i]))
      && (modelLoadTimeout == Fired ==> scene[|InitialScene|].NeuronGroup?)
      && (model.Some? <==> |scene| > |InitialScene|)
      && (model.Some? ==> model.value == scene[|scene| - 1])
      && (isModelLoaded <==> model.Some?)
      && (progressShown.Some? ==> progressShown.value.1 > 0)
    }

    /**
     * Page start: nothing loaded, the 5-second timeout armed, and
     * `tryLoadModel(possiblePaths[0])` issued.
     */
    constructor ()
      ensures Valid()
      ensures scene == InitialScene && model == None && !isModelLoaded
      ensures modelLoadTimeout == Armed && currentPathIndex == 0
      ensures attempted == [PossiblePaths[0]] && inFlight == Some(PossiblePaths[0])
      ensures progressShown == None && frames == 0 && modelFrames == 0
    {
      scene := InitialScene;
      model := None;
      isModelLoaded := false;
      modelLoadTimeout := Armed;
      currentPathIndex := 0;
      attempted := [];
      inFlight := None;
      progressShown := None;
      frames := 0;
      modelFrames := 0;
      new;
      TryLoadModel(PossiblePaths[currentPathIndex]);
    }

    /** `tryLoadModel(path)`: issues one load request. */
    method TryLoadModel(path: string)
      modifies this`attempted, this`inFlight
      ensures attempted == old(attempted) + [path]
      ensures inFlight == Some(path)
    {
      attempted := attempted + [path];
      inFlight := Some(path);
    }

    /** `createFallbackNeuron`: builds the group, makes it the model and adds it to the scene. */
    method CreateFallbackNeuron()
      modifies this`model, this`isModelLoaded, this`scene
      ensures model.Some? && model.value.NeuronGroup? && IsNeuronParts(model.value.parts)
      ensures isModelLoaded
      ensures scene == old(scene) + [model.value]
    {
      var group := BuildNeuronGroup();
      model := Some(NeuronGroup(group));
      isModelLoaded := true;
      scene := scene + [NeuronGroup(group)];
    }

    /**
     * The load callback: clears the timeout, makes the loaded scene the model
     * and adds it to the scene; no further attempt is started.
     */
    method LoadSucceeded()
      requires Valid() && inFlight.Some?
      modifies this`scene, this`model, this`isModelLoaded, this`modelLoadTimeout, this`inFlight
      ensures Valid()
      ensures modelLoadTimeout == ClearTimeout(old(modelLoadTimeout))
      ensures model == Some(LoadedScene(old(inFlight).value)) && isModelLoaded
      ensures scene == old(scene) + [LoadedScene(old(inFlight).value)]
      ensures inFlight == None
    {
      var path := inFlight.value;
      modelLoadTimeout := ClearTimeout(modelLoadTimeout);
      inFlight := None;
      model := Some(LoadedScene(path));
      isModelLoaded := true;
      scene := scene + [LoadedScene(path)];
    }

    /**
     * The error callback: moves to the next path and tries it; after the
     * last path, clears the timeout and builds the fallback.
     */
    method LoadFailed()
      requires Valid() && inFlight.Some?
      modifies this`currentPathIndex, this`attempted, this`inFlight, this`modelLoadTimeout
      modifies this`scene, this`model, this`isModelLoaded
      ensures Valid()
      ensures currentPathIndex == old(currentPathIndex) + 1
      ensures currentPathIndex < |PossiblePaths| ==>
        && attempted == old(attempted) + [PossiblePaths[currentPathIndex]]
        && inFlight == Some(PossiblePaths[currentPathIndex])
        && modelLoadTimeout == old(modelLoadTimeout)
        && scene == old(scene) && model == old(model) && isModelLoaded == old(isModelLoaded)
      ensures currentPathIndex == |PossiblePaths| ==>
        && attempted == old(attempted)
        && inFlight == None
        && modelLoadTimeout == ClearTimeout(old(modelLoadTimeout))
        && model.Some? && model.value.NeuronGroup? && IsNeuronParts(model.value.parts)
        && scene == old(scene) + [model.value]
    {
      inFlight := None;
      currentPathIndex := currentPathIndex + 1;
      if currentPathIndex < |PossiblePaths| {
        TryLoadModel(PossiblePaths[currentPathIndex]);
      } else {
        modelLoadTimeout := ClearTimeout(modelLoadTimeout);
        CreateFallbackNeuron();
      }
    }

    /** The timeout callback: builds the fallback; the attempt chain goes on. */
    method TimeoutFired()
      requires Valid() && modelLoadTimeout == Armed
      modifies this`modelLoadTimeout, this`scene, this`model, this`isModelLoaded
      ensures Valid()
      ensures modelLoadTimeout == Fired
      ensures model.Some? && model.value.NeuronGroup? && IsNeuronParts(model.value.parts)
      ensures scene == old(scene) + [model.value]
    {
      modelLoadTimeout := Fired;
      CreateFallbackNeuron();
    }

    /** The progress callback of the load in flight. */
    method ReportProgress(lengthComputable: bool, loaded: int, total: int)
      requires Valid() && inFlight.Some?
      modifies this`progressShown
      ensures Valid()
      ensures progressShown == if ShowsProgress(lengthComputable, total) then Some((loaded, total)) else old(progressShown)
    {
      if ShowsProgress(lengthComputable, total) {
        progressShown := Some((loaded, total));
      }
    }

    /** One call of `animate`: the model moves only if there is one and it is marked loaded. */
    method Frame()
      modifies this`frames, this`modelFrames
      ensures frames == old(frames) + 1
      ensures modelFrames == old(modelFrames) + (if model.Some? && isModelLoaded then 1 else 0)
    {
      if model.Some? && isModelLoaded {
        modelFrames := modelFrames + 1;
      }
      frames := frames + 1;
    }
  }

  // ---------- Event orders ----------

  /**
   * The first `k` candidates fail and the next one loads: exactly the first
   * `k + 1` paths were tried, in order; the loaded asset is the only thing
   * shown; the timeout is cancelled.
   */
  method FailuresThenSuccess(k: int) returns (tried: seq<string>, shown: seq<SceneObject>, timer: Timer)
    requires 0 <= k < |PossiblePaths|
    ensures tried == PossiblePaths[..k + 1]
    ensures shown == [LoadedScene(PossiblePaths[k])]
    ensures timer == Cleared
  {
    var loader := new Loader();
    var i := 0;
    while i < k
      invariant 0 <= i <= k
      invariant loader.Valid()
      invariant loader.currentPathIndex == i && loader.inFlight.Some?
      invariant loader.modelLoadTimeout == Armed
    {
      loader.LoadFailed();
      i := i + 1;
    }
    loader.LoadSucceeded();
    tried := loader.attempted;
    shown := loader.scene[|InitialScene|..];
    timer := loader.modelLoadTimeout;
  }

  /** Every candidate fails before the timeout: all four are tried and one fallback is shown. */
  method AllPathsFail() returns (tried: seq<string>, shown: seq<SceneObject>, timer: Timer)
    ensures tried == PossiblePaths
    ensures |shown| == 1 && shown[0].NeuronGroup? && IsNeuronParts(shown[0].parts)
    ensures timer == Cleared
  {
    var loader := new Loader();
    var i := 0;
    while i < |PossiblePaths|
      invariant 0 <= i <= |PossiblePaths|
      invariant loader.Valid()
      invariant loader.currentPathIndex == i
      invariant i < |PossiblePaths| ==> loader.inFlight.Some? && loader.modelLoadTimeout == Armed
      invariant i < |PossiblePaths| ==> loader.scene == InitialScene
      invariant i == |PossiblePaths| ==> loader.modelLoadTimeout == Cleared
      invariant i == |PossiblePaths| ==>
        |loader.scene| == |InitialScene| + 1 && loader.scene[|InitialScene|].NeuronGroup?
    {
      loader.LoadFailed();
      i := i + 1;
    }
    tried := loader.attempted;
    shown := loader.scene[|InitialScene|..];
    timer := loader.modelLoadTimeout;
  }

  /**
   * The timeout runs while the first attempt is in flight, and that attempt
   * then succeeds: the fallback and the loaded asset are both in the scene,
   * and the asset is the model.
   */
  method TimeoutThenLateSuccess() returns (shown: seq<SceneObject>, model: Option<SceneObject>)
    ensures |shown| == 2
    ensures shown[0].NeuronGroup? && IsNeuronParts(shown[0].parts)
    ensures shown[1] == LoadedScene(PossiblePaths[0])
    ensures model == Some(LoadedScene(PossiblePaths[0]))
  {
    var loader := new Loader();
    loader.TimeoutFired();
    loader.LoadSucceeded();
    shown := loader.scene[|InitialScene|..];
    model := loader.model;
  }

  /**
   * The timeout runs, and then every candidate fails: the fallback is built
   * twice and both groups are in the scene.
   */
  method TimeoutThenExhaustion() returns (shown: seq<SceneObject>)
    ensures |shown| == 2
    ensures shown[0].NeuronGroup? && shown[1].NeuronGroup?
    ensures IsNeuronParts(shown[0].parts) && IsNeuronParts(shown[1].parts)
  {
    var loader := new Loader();
    loader.TimeoutFired();
    var i := 0;
    while i < |PossiblePaths|
      invariant 0 <= i <= |PossiblePaths|
      invariant loader.Valid()
      invariant loader.currentPathIndex == i
      invariant loader.modelLoadTimeout == Fired
      invariant i < |PossiblePaths| ==> loader.inFlight.Some? && |loader.scene| == |InitialScene| + 1
      invariant i == |PossiblePaths| ==> loader.scene[|loader.scene| - 1].NeuronGroup?
    {
      loader.LoadFailed();
      i := i + 1;
    }
    shown := loader.scene[|InitialScene|..];
  }
}
