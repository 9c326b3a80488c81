/**
 * The loader resource (src/loader.rs): handles wait in a to-do list until the
 * asset server reports them loaded; then their documents are taken out of the
 * store and handed, as one batch, to a background task; finished batches land
 * in a shared outbox, from which a system moves them into the engine stores.
 *
 * The background pool is explicit here: `running` holds the inputs of the
 * spawned tasks that have not finished, and `RunTask` is one of them
 * finishing. A task whose tileset conversion fails panics (the `unwrap` in
 * the batch constructor); it never pushes a result and is counted in
 * `crashed`. Whether the outbox lock is free (`try_lock`) and whether the
 * to-do handles are loaded are parameters.
 */
module Loading {
  import opened Common
  import opened Asefile
  import opened Engine
  import opened AseAssetData
  import AseIds
  import Animate
  import Processing
  import Tilesets

  /** What a finished batch is known to satisfy: its animations refer to its own sprites. */
  predicate WellFormed(b: Processing.AseAssets) {
    Processing.SpriteIdsBelow(b.anims, |b.sprites|)
  }

  /**
   * The loader's bookkeeping: `inProgress` counts every spawned batch that has
   * not been moved into the stores (those still running, those that crashed,
   * and those in the outbox); running batches hold decoded documents, and
   * batches in the outbox are well formed.
   */
  predicate Accounted(inProgress: nat, running: seq<seq<(Path, AsepriteFile)>>, crashed: nat,
                      done: seq<Processing.AseAssets>) {
    && inProgress == |running| + crashed + |done|
    && (forall i :: 0 <= i < |running| ==> AllFilesValid(running[i]))
    && (forall i :: 0 <= i < |done| ==> WellFormed(done[i]))
  }

  /** A task that finishes moves its batch from `running` to the outbox, or to `crashed`. */
  lemma FinishKeepsAccounted(inProgress: nat, running: seq<seq<(Path, AsepriteFile)>>, crashed: nat,
                             done: seq<Processing.AseAssets>, i: nat,
                             r: Result<Processing.AseAssets, Tilesets.TilesetError>)
    requires Accounted(inProgress, running, crashed, done) && i < |running|
    requires r.Ok? ==> WellFormed(r.value)
    ensures Accounted(inProgress, running[..i] + running[i + 1..],
                      if r.Ok? then crashed else crashed + 1,
                      if r.Ok? then done + [r.value] else done)
  {
    var rest := running[..i] + running[i + 1..];
    forall k | 0 <= k < |rest|
      ensures AllFilesValid(rest[k])
    {
      assert rest[k] == running[if k < i then k else k + 1];
    }
  }

  /** `Loader` */
  class Loader {
    var todoHandles: seq<Handle>
    var inProgress: nat
    var done: seq<Processing.AseAssets>
    var running: seq<seq<(Path, AsepriteFile)>>
    var crashed: nat

    predicate Valid()
      reads this
    {
      Accounted(inProgress, running, crashed, done)
    }

    /** `Loader::default` */
    constructor Default()
      ensures Valid() && IsLoaded()
      ensures todoHandles == [] && inProgress == 0 && done == [] && running == [] && crashed == 0
    {
      todoHandles := [];
      inProgress := 0;
      done := [];
      running := [];
      crashed := 0;
    }

    /** `Loader::add` */
    method Add(handle: Handle)
      modifies this
      ensures todoHandles == old(todoHandles) + [handle]
      ensures inProgress == old(inProgress) && done == old(done) && running == old(running)
      ensures crashed == old(crashed)
    {
      todoHandles := todoHandles + [handle];
    }

    /** `Loader::pending_count`: the batches spawned and not yet moved into the stores. */
    function PendingCount(): (r: nat)
      reads this
      ensures Valid() ==> r == |running| + crashed + |done|
    {
      inProgress
    }

    /**
     * `Loader::is_loaded`: true exactly when nothing waits, runs, or sits in the
     * outbox, and no batch was lost; a crashed batch keeps it false for good.
     */
    function IsLoaded(): (r: bool)
      reads this
      ensures Valid() ==> (r <==> todoHandles == [] && running == [] && done == [] && crashed == 0)
    {
      todoHandles == [] && PendingCount() == 0
    }

    /**
     * `Loader::spawn_tasks`: with nothing to do, nothing happens; otherwise the
     * counter goes up, the to-do list is emptied, the store is swept and the
     * documents taken are handed to a new task.
     */
    method SpawnTasks(aseprites: Assets<AseAsset>)
      requires Valid()
      requires Resolves(aseprites.items, todoHandles) && LoadedValid(aseprites.items)
      modifies this, aseprites
      ensures Valid()
      ensures done == old(done) && crashed == old(crashed)
      ensures old(todoHandles) == [] ==>
        && todoHandles == [] && inProgress == old(inProgress) && running == old(running)
        && aseprites.items == old(aseprites.items)
      ensures old(todoHandles) != [] ==>
        && todoHandles == [] && inProgress == old(inProgress) + 1
        && running == old(running) + [Taken(old(aseprites.items), old(todoHandles))]
        && aseprites.items == Swept(old(aseprites.items), old(todoHandles))
    {
      if todoHandles == [] {
        return;
      }
      inProgress := inProgress + 1;
      var handles := todoHandles;
      todoHandles := [];
      TakenValid(aseprites.items, handles);
      var inputs := TakeLoaded(aseprites, handles);
      running := running + [inputs];
    }

    /**
     * The spawned task at `i` runs to its end: the batch is processed and pushed
     * into the outbox, or it panics and its batch is lost.
     */
    method RunTask(i: nat) returns (r: Result<Processing.AseAssets, Tilesets.TilesetError>)
      requires Valid() && i < |running|
      modifies this
      ensures Valid()
      ensures running == old(running[..i] + running[i + 1..])
      ensures r.Ok? ==> done == old(done) + [r.value] && crashed == old(crashed)
      ensures r.Err? ==> done == old(done) && crashed == old(crashed) + 1
      ensures todoHandles == old(todoHandles) && inProgress == old(inProgress)
    {
      r := Processing.RunBatch(running[i]);
      FinishKeepsAccounted(inProgress, running, crashed, done, i, r);
      running := running[..i] + running[i + 1..];
      if r.Ok? {
        done := done + [r.value];
      } else {
        crashed := crashed + 1;
      }
    }

    /**
     * `Loader::take_finished`: when the outbox lock is taken (`acquired`), the
     * outbox is emptied and its batches returned, or None when it was empty;
     * when it is held elsewhere, None and nothing changes.
     */
    method TakeFinished(acquired: bool) returns (r: Option<seq<Processing.AseAssets>>)
      modifies this
      ensures !acquired ==> r == None && done == old(done)
      ensures acquired ==> done == [] && r == (if old(done) == [] then None else Some(old(done)))
      ensures todoHandles == old(todoHandles) && inProgress == old(inProgress)
      ensures running == old(running) && crashed == old(crashed)
    {
      if !acquired {
        return None;
      }
      var results := done;
      done := [];
      if results == [] {
        return None;
      }
      r := Some(results);
    }

    /**
     * `Loader::move_finished_into_resources`: every batch taken from the outbox
     * is moved into the stores, in outbox order, and the counter drops by one
     * for each.
     */
    method MoveFinishedIntoResources(acquired: bool, packer: Packer,
                                     animations: Assets<Animate.Animation>, animInfo: Animate.AnimationInfo,
                                     textures: Assets<Texture>, atlases: Assets<TextureAtlas>,
                                     tilesets: Assets<Tilesets.Tileset>)
      requires Valid() && animInfo.State().Valid()
      modifies this, animations, animInfo, textures, atlases, tilesets
      ensures Valid() && animInfo.State().Valid()
      ensures done == (if acquired then [] else old(done))
      ensures inProgress == old(inProgress) - (if acquired then |old(done)| else 0)
      ensures todoHandles == old(todoHandles) && running == old(running) && crashed == old(crashed)
      ensures !acquired || old(done) == [] ==>
        && animations.items == old(animations.items) && animInfo.State() == old(animInfo.State())
        && textures.items == old(textures.items) && atlases.items == old(atlases.items)
        && tilesets.items == old(tilesets.items)
    {
      ghost var batches0 := done;
      var finished := TakeFinished(acquired);
      if finished.Some? {
        var batches := finished.value;
        var i := 0;
        while i < |batches|
          invariant 0 <= i <= |batches| && batches == batches0
          invariant inProgress == old(inProgress) - i
          invariant animInfo.State().Valid()
          invariant done == [] && todoHandles == old(todoHandles)
          invariant running == old(running) && crashed == old(crashed)
        {
          var _ := Processing.MoveIntoBevy(batches[i], packer, animations, animInfo, textures, atlases, tilesets);
          inProgress := inProgress - 1;
          i := i + 1;
        }
      }
    }
  }

  /**
   * `ase_importer`: spawns a batch when the to-do handles are all loaded
   * (`ready`), then moves the finished batches into the stores. A batch
   * spawned by this call is still running, so it is not among those moved.
   */
  method ImportStep(loader: Loader, ready: bool, acquired: bool, aseprites: Assets<AseAsset>, packer: Packer,
                    animations: Assets<Animate.Animation>, animInfo: Animate.AnimationInfo,
                    textures: Assets<Texture>, atlases: Assets<TextureAtlas>,
                    tilesets: Assets<Tilesets.Tileset>)
    requires loader.Valid() && animInfo.State().Valid()
    requires ready ==> Resolves(aseprites.items, loader.todoHandles) && LoadedValid(aseprites.items)
    modifies loader, aseprites, animations, animInfo, textures, atlases, tilesets
    ensures loader.Valid()
    ensures loader.todoHandles == if ready then [] else old(loader.todoHandles)
    ensures var spawned := ready && old(loader.todoHandles) != [];
      && loader.running == old(loader.running) + (if spawned then [Taken(old(aseprites.items), old(loader.todoHandles))] else [])
      && loader.inProgress == old(loader.inProgress) + (if spawned then 1 else 0) - (if acquired then |old(loader.done)| else 0)
    ensures loader.done == (if acquired then [] else old(loader.done))
    ensures loader.crashed == old(loader.crashed)
  {
    if ready {
      loader.SpawnTasks(aseprites);
    }
    loader.MoveFinishedIntoResources(acquired, packer, animations, animInfo, textures, atlases, tilesets);
  }
}
