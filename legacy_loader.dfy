/**
 * The older loader resource (src/aseloader.rs), with the same life cycle as
 * the newer one: a to-do list, a counter of batches in flight and an outbox.
 * Its finished batches only yield sprites, one atlas and animations; their
 * tilesets are not stored.
 *
 * As for the newer loader, the background pool is explicit (`running`,
 * `RunTask`), a task that panics is counted in `crashed`, and the outbox lock
 * and the to-do handles' load state are parameters.
 *
 * The loader's own asset type `AsepriteAsset` with `LoadedAsepriteFile`
 * (src/aseloader.rs:32-43) has the same shape as the newer `AseAsset` with
 * `AseData`, so the store holds `AseAssetData.AseAsset` here too.
 */
module LegacyLoading {
  import opened Common
  import opened Asefile
  import opened Engine
  import opened AseAssetData
  import AseIds
  import Animate
  import Processing
  import Loading
  import Tilesets

  /**
   * `finish_animations`: one texture per sprite in sprite order, then the packed
   * image and exactly one atlas over those textures, then one animation per
   * record in record order, each registered under the record's file and tag.
   */
  method FinishAnimations(input: Processing.AseAssets, packer: Packer,
                          animations: Assets<Animate.Animation>, animInfo: Animate.AnimationInfo,
                          textures: Assets<Texture>, atlases: Assets<TextureAtlas>)
    requires Processing.SpriteIdsBelow(input.anims, |input.sprites|)
    requires animInfo.State().Valid()
    modifies animations, animInfo, textures, atlases
    ensures Processing.Packed(input.sprites, input.anims, packer, old(textures.items), textures.items,
                              old(atlases.items), atlases.items, old(animations.items), animations.items,
                              old(animInfo.State()), animInfo.State())
  {
    Processing.PackAndRegister(input.sprites, input.anims, packer, animations, animInfo, textures, atlases);
  }

  /** `AsepriteLoader` */
  class AsepriteLoader {
    var todoHandles: seq<Handle>
    var inProgress: nat
    var done: seq<Processing.AseAssets>
    var running: seq<seq<(Path, AsepriteFile)>>
    var crashed: nat

    /** `in_progress` counts the batches running, crashed, and waiting in the outbox. */
    predicate Valid()
      reads this
    {
      Loading.Accounted(inProgress, running, crashed, done)
    }

    /** `AsepriteLoader::default` */
    constructor Default()
      ensures Valid() && IsLoaded()
      ensures todoHandles == [] && inProgress == 0 && done == [] && running == [] && crashed == 0
    {
      todoHandles := [];
      inProgress := 0;
      done := [];
      running := [];
      crashed := 0;
    }

    /** `AsepriteLoader::add` */
    method Add(handle: Handle)
      modifies this
      ensures todoHandles == old(todoHandles) + [handle]
      ensures inProgress == old(inProgress) && done == old(done) && running == old(running)
      ensures crashed == old(crashed)
    {
      todoHandles := todoHandles + [handle];
    }

    /** `AsepriteLoader::check_pending`: the batches spawned and not yet finished into the stores. */
    function CheckPending(): (r: nat)
      reads this
      ensures Valid() ==> r == |running| + crashed + |done|
    {
      inProgress
    }

    /** `AsepriteLoader::is_loaded`: nothing waits, runs or sits in the outbox, and no batch was lost. */
    function IsLoaded(): (r: bool)
      reads this
      ensures Valid() ==> (r <==> todoHandles == [] && running == [] && done == [] && crashed == 0)
    {
      todoHandles == [] && CheckPending() == 0
    }

    /**
     * `AsepriteLoader::spawn_tasks`: a no-op on an empty to-do list; otherwise
     * the counter rises by one, the list is emptied, every listed asset becomes
     * `Processed` and the documents taken make up a new task's batch.
     */
    method SpawnTasks(aseprites: Assets<AseAsset>)
      requires Valid()
      requires Resolves(aseprites.items, todoHandles) && LoadedValid(aseprites.items)
      modifies this, aseprites
      ensures Valid()
      ensures done == old(done) && crashed == old(crashed)
      ensures old(todoHandles) == [] ==>
        && todoHandles == [] && inProgress == old(inProgress) && running == old(running)
        && aseprites.items == old(aseprites.items)
      ensures old(todoHandles) != [] ==>
        && todoHandles == [] && inProgress == old(inProgress) + 1
        && running == old(running) + [Taken(old(aseprites.items), old(todoHandles))]
        && aseprites.items == Swept(old(aseprites.items), old(todoHandles))
    {
      if todoHandles == [] {
        return;
      }
      inProgress := inProgress + 1;
      var handles := todoHandles;
      todoHandles := [];
      TakenValid(aseprites.items, handles);
      var inputs := TakeLoaded(aseprites, handles);
      running := running + [inputs];
    }

    /** The spawned task at `i` runs to its end: its batch reaches the outbox, or it panics. */
    method RunTask(i: nat) returns (r: Result<Processing.AseAssets, Tilesets.TilesetError>)
      requires Valid() && i < |running|
      modifies this
      ensures Valid()
      ensures running == old(running[..i] + running[i + 1..])
      ensures r.Ok? ==> done == old(done) + [r.value] && crashed == old(crashed)
      ensures r.Err? ==> done == old(done) && crashed == old(crashed) + 1
      ensures todoHandles == old(todoHandles) && inProgress == old(inProgress)
    {
      r := Processing.RunBatch(running[i]);
      Loading.FinishKeepsAccounted(inProgress, running, crashed, done, i, r);
      running := running[..i] + running[i + 1..];
      if r.Ok? {
        done := done + [r.value];
      } else {
        crashed := crashed + 1;
      }
    }

    /**
     * `AsepriteLoader::process_finished`: on lock contention or an empty outbox
     * nothing changes; otherwise the outbox is drained, each batch is finished
     * into the stores in outbox order, and the counter drops once per batch.
     */
    method ProcessFinished(acquired: bool, packer: Packer,
                           animations: Assets<Animate.Animation>, animInfo: Animate.AnimationInfo,
                           textures: Assets<Texture>, atlases: Assets<TextureAtlas>)
      requires Valid() && animInfo.State().Valid()
      modifies this, animations, animInfo, textures, atlases
      ensures Valid() && animInfo.State().Valid()
      ensures done == (if acquired then [] else old(done))
      ensures inProgress == old(inProgress) - (if acquired then |old(done)| else 0)
      ensures todoHandles == old(todoHandles) && running == old(running) && crashed == old(crashed)
      ensures !acquired || old(done) == [] ==>
        && animations.items == old(animations.items) && animInfo.State() == old(animInfo.State())
        && textures.items == old(textures.items) && atlases.items == old(atlases.items)
    {
      if !acquired {
        return;
      }
      var results := done;
      done := [];
      if results == [] {
        return;
      }
      var i := 0;
      while i < |results|
        invariant 0 <= i <= |results|
        invariant inProgress == old(inProgress) - i
        invariant animInfo.State().Valid()
        invariant done == [] && todoHandles == old(todoHandles)
        invariant running == old(running) && crashed == old(crashed)
      {
        FinishAnimations(results[i], packer, animations, animInfo, textures, atlases);
        inProgress := inProgress - 1;
        i := i + 1;
      }
    }
  }

  /**
   * `aseprite_loader`: spawns a batch when the to-do handles are all loaded
   * (`ready`), then finishes the batches in the outbox; a batch spawned by this
   * call is still running, so it is not among those finished.
   */
  method LoaderStep(loader: AsepriteLoader, ready: bool, acquired: bool, aseprites: Assets<AseAsset>,
                    packer: Packer, animations: Assets<Animate.Animation>, animInfo: Animate.AnimationInfo,
                    textures: Assets<Texture>, atlases: Assets<TextureAtlas>)
    requires loader.Valid() && animInfo.State().Valid()
    requires ready ==> Resolves(aseprites.items, loader.todoHandles) && LoadedValid(aseprites.items)
    modifies loader, aseprites, animations, animInfo, textures, atlases
    ensures loader.Valid()
    ensures loader.todoHandles == if ready then [] else old(loader.todoHandles)
    ensures var spawned := ready && old(loader.todoHandles) != [];
      && loader.running == old(loader.running) + (if spawned then [Taken(old(aseprites.items), old(loader.todoHandles))] else [])
      && loader.inProgress == old(loader.inProgress) + (if spawned then 1 else 0) - (if acquired then |old(loader.done)| else 0)
    ensures loader.done == (if acquired then [] else old(loader.done))
    ensures loader.crashed == old(loader.crashed)
  {
    if ready {
      loader.SpawnTasks(aseprites);
    }
    loader.ProcessFinished(acquired, packer, animations, animInfo, textures, atlases);
  }
}
