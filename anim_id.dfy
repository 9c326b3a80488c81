/**
 * Animations by id (src/anim_id.rs): a table from user-declared animation
 * ids to the resolved animation handle, the atlas index of each of its
 * frames and its atlas, filled once so that spawning a sprite needs no
 * string lookups.
 */
module AnimId {
  import opened Common
  import opened Engine
  import opened Animate

  /** `AnimInfo`: the animation, the atlas index of each frame in order, the atlas. */
  datatype AnimInfo = AnimInfo(animHandle: Handle, atlasSprites: seq<U32>, atlasHandle: Handle)

  /** `TextureAtlasSprite` and the atlas of a `SpriteSheetBundle`; other fields are defaults. */
  datatype SpriteSheet = SpriteSheet(index: U32, textureAtlas: Handle)

  /** `AnimationBundle`: the playback state and the sprite to spawn with. */
  datatype AnimationBundle = AnimationBundle(play: PlayAnimation, sprite: SpriteSheet)

  /** What `AnimationId::name` gives for an id: the file path and an optional tag. */
  type Naming<!Id> = Id -> (Path, Option<string>)

  /** The lookup `initialize` performs for one name does not panic. */
  predicate Resolvable(info: InfoState, key: (Path, Option<string>)) {
    if key.1.Some? then
      key.0 in info.names && key.1.value in info.names[key.0].tags ==>
        info.names[key.0].tags[key.1.value] < |info.animations|
    else
      key.0 in info.names ==> info.names[key.0].default < |info.animations|
  }

  /** `lookup_with_tag` when the id names a tag, `lookup` otherwise. */
  function Resolve(info: InfoState, key: (Path, Option<string>)): (r: Option<Handle>)
    requires Resolvable(info, key)
    ensures key.1.Some? ==> r == info.LookupWithTag(key.0, key.1.value)
    ensures key.1.None? ==> r == info.Lookup(key.0)
  {
    if key.1.Some? then info.LookupWithTag(key.0, key.1.value) else info.Lookup(key.0)
  }

  /** The table entry for an animation stored under handle `h`. */
  function Entry(anim: Animation, h: Handle): (e: AnimInfo)
    requires |anim.frames| >= 1
    ensures e.animHandle == h
    ensures |e.atlasSprites| == |anim.frames|
    ensures forall i :: 0 <= i < |anim.frames| ==> e.atlasSprites[i] == anim.frames[i].sprite.atlasIndex
    ensures e.atlasHandle == anim.frames[0].sprite.atlas
  {
    AnimInfo(h, seq(|anim.frames|, i requires 0 <= i < |anim.frames| => anim.frames[i].sprite.atlasIndex),
      anim.frames[0].sprite.atlas)
  }

  /**
   * What `initialize` demands: every lookup is well-defined, and every
   * resolved handle is in the store (`unwrap`) with at least one frame (`frame(0)`).
   */
  predicate CanInitialize<Id>(ids: seq<Id>, name: Naming<Id>, info: InfoState, store: seq<Animation>) {
    forall i :: 0 <= i < |ids| ==>
      && Resolvable(info, name(ids[i]))
      && var r := Resolve(info, name(ids[i]));
         r.Some? ==> r.value.Handle? && r.value.id < |store| && |store[r.value.id].frames| >= 1
  }

  /** The table after `initialize` has visited `ids` in order, starting from `m`. */
  function Initialized<Id>(m: map<Id, AnimInfo>, ids: seq<Id>, name: Naming<Id>, info: InfoState,
                           store: seq<Animation>): map<Id, AnimInfo>
    requires CanInitialize(ids, name, info, store)
    decreases |ids|
  {
    if ids == [] then m
    else
      var n := |ids| - 1;
      assert CanInitialize(ids[..n], name, info, store) by {
        assert forall i :: 0 <= i < n ==> ids[..n][i] == ids[i];
      }
      var before := Initialized(m, ids[..n], name, info, store);
      var r := Resolve(info, name(ids[n]));
      if r.Some? then before[ids[n] := Entry(store[r.value.id], r.value)] else before
  }

  /**
   * An id that was visited and resolves maps to its animation's entry; an id
   * that was not visited, or does not resolve, keeps what it had; nothing else
   * appears.
   */
  lemma {:induction false} InitializedEntries<Id>(m: map<Id, AnimInfo>, ids: seq<Id>, name: Naming<Id>,
                                                   info: InfoState, store: seq<Animation>, id: Id)
    requires CanInitialize(ids, name, info, store)
    ensures id in ids && Resolvable(info, name(id)) && Resolve(info, name(id)).Some? ==>
      var h := Resolve(info, name(id)).value;
      h.Handle? && h.id < |store| && |store[h.id].frames| >= 1 &&
      id in Initialized(m, ids, name, info, store) &&
      Initialized(m, ids, name, info, store)[id] == Entry(store[h.id], h)
    ensures (id !in ids || (Resolvable(info, name(id)) && Resolve(info, name(id)).None?)) ==>
      (id in Initialized(m, ids, name, info, store) <==> id in m) &&
      (id in m ==> Initialized(m, ids, name, info, store)[id] == m[id])
    decreases |ids|
  {
    if ids != [] {
      var n := |ids| - 1;
      assert CanInitialize(ids[..n], name, info, store) by {
        assert forall i :: 0 <= i < n ==> ids[..n][i] == ids[i];
      }
      InitializedEntries(m, ids[..n], name, info, store, id);
      if id in ids && id != ids[n] {
        var i :| 0 <= i < |ids| && ids[i] == id;
        assert ids[..n][i] == id;
      }
      if id in ids[..n] {
        assert id in ids;
      }
    }
  }

  /** `AnimationById<Id>` */
  class AnimationById<Id(==)> {
    var table: map<Id, AnimInfo>

    /** Every entry has at least one frame (`atlas_sprites` has `len >= 1`). */
    predicate Valid()
      reads this
    {
      forall id :: id in table ==> |table[id].atlasSprites| >= 1
    }

    /** `AnimationById::default` */
    constructor ()
      ensures Valid() && table == map[]
    {
      table := map[];
    }

    /**
     * `AnimationById::initialize`: for each id in turn, resolve its name and,
     * when found, record the animation's frame-to-atlas-index table and atlas;
     * unresolved ids are only reported.
     */
    method Initialize(ids: seq<Id>, name: Naming<Id>, info: AnimationInfo, animations: Assets<Animation>)
      requires Valid()
      requires CanInitialize(ids, name, info.State(), animations.items)
      modifies this
      ensures Valid()
      ensures table == Initialized(old(table), ids, name, info.State(), animations.items)
    {
      var i := 0;
      while i < |ids|
        invariant 0 <= i <= |ids|
        invariant CanInitialize(ids[..i], name, info.State(), animations.items)
        invariant table == Initialized(old(table), ids[..i], name, info.State(), animations.items)
        invariant Valid()
      {
        var id := ids[i];
        var (path, tag) := name(id);
        var handle := if tag.Some? then info.State().LookupWithTag(path, tag.value)
                      else info.State().Lookup(path);
        assert ids[..i + 1][..i] == ids[..i];
        if handle.Some? {
          var anim := animations.Get(handle.value).value;
          table := table[id := Entry(anim, handle.value)];
        }
        i := i + 1;
        assert CanInitialize(ids[..i], name, info.State(), animations.items) by {
          assert forall j :: 0 <= j < i ==> ids[..i][j] == ids[j];
        }
      }
      assert ids[..|ids|] == ids;
    }

    /** `AnimationById::get`: the bundle to spawn: first frame's sprite, fresh playback. */
    function Get(id: Id): (b: AnimationBundle)
      reads this
      requires Valid() && id in table
      ensures b.sprite.index == table[id].atlasSprites[0]
      ensures b.sprite.textureAtlas == table[id].atlasHandle
      ensures b.play == NewPlayAnimation(table[id].animHandle)
    {
      var info := table[id];
      AnimationBundle(NewPlayAnimation(info.animHandle), SpriteSheet(info.atlasSprites[0], info.atlasHandle))
    }

    /** `AnimationById::sprite`: the sprite showing the given frame of the animation. */
    function Sprite(id: Id, frame: nat): (s: SpriteSheet)
      reads this
      requires id in table && frame < |table[id].atlasSprites|
      ensures s.index == table[id].atlasSprites[frame]
      ensures s.textureAtlas == table[id].atlasHandle
    {
      SpriteSheet(table[id].atlasSprites[frame], table[id].atlasHandle)
    }
  }
}
