/**
 * The parts of the Bevy engine the crate hands its results to: asset handles,
 * append-only asset stores, textures and texture atlases. Bin-packing is
 * foreign: a `Packer` stands for `TextureAtlasBuilder`'s choice of the packed
 * image and of each texture's slot in it.
 */
module Engine {
  import opened Common

  /** `Handle<T>`: the default (weak) handle, or the handle a store gave its n-th asset. */
  datatype Handle = DefaultHandle | Handle(id: nat)

  /** `Texture`: an image buffer of a given size. */
  datatype Texture = Texture(width: nat, height: nat, raw: seq<int>)

  /** `Texture::new_fill` over an opaque pixel buffer. */
  function NewFill(width: nat, height: nat, raw: seq<int>): Texture {
    Texture(width, height, raw)
  }

  /** A packed atlas: the texture holding the packed image and the textures packed into it. */
  datatype TextureAtlas = TextureAtlas(texture: Handle, packed: seq<Handle>)

  /**
   * The packing decision of `TextureAtlasBuilder::finish`: the packed image
   * for the textures added in order, and the atlas slot of each of them.
   */
  datatype Packer = Packer(image: seq<Handle> -> Texture, slot: (seq<Handle>, Handle) -> nat)

  /** `TextureAtlas::get_texture_index`: the slot of a texture added to the builder. */
  function TextureIndex(atlas: TextureAtlas, packer: Packer, h: Handle): (r: Option<nat>)
    ensures r.Some? <==> h in atlas.packed
  {
    if h in atlas.packed then Some(packer.slot(atlas.packed, h)) else None
  }

  /** `Assets<T>`: a store that keeps every asset added and hands out a fresh handle for it. */
  class Assets<T> {
    var items: seq<T>

    constructor ()
      ensures items == []
    {
      items := [];
    }

    /** `Assets::add` */
    method Add(x: T) returns (h: Handle)
      modifies this
      ensures items == old(items) + [x]
      ensures h == Handle(|old(items)|)
    {
      h := Handle(|items|);
      items := items + [x];
    }

    /** `Assets::get` */
    function Get(h: Handle): (r: Option<T>)
      reads this
      ensures r.Some? <==> h.Handle? && h.id < |items|
      ensures r.Some? ==> r.value == items[h.id]
    {
      if h.Handle? && h.id < |items| then Some(items[h.id]) else None
    }

    /** `std::mem::swap` with the asset behind `get_mut(h)`: stores `x`, returns the old asset. */
    method Swap(h: Handle, x: T) returns (previous: T)
      requires h.Handle? && h.id < |items|
      modifies this
      ensures previous == old(items)[h.id]
      ensures items == old(items)[h.id := x]
    {
      previous := items[h.id];
      items := items[h.id := x];
    }
  }

  /**
   * `TextureAtlasBuilder::finish`: adds the packed image to the texture store and
   * returns the atlas over the textures added to the builder, in order.
   */
  method FinishAtlas(added: seq<Handle>, packer: Packer, textures: Assets<Texture>)
    returns (atlas: TextureAtlas)
    modifies textures
    ensures textures.items == old(textures.items) + [packer.image(added)]
    ensures atlas == TextureAtlas(Handle(|old(textures.items)|), added)
  {
    var h := textures.Add(packer.image(added));
    atlas := TextureAtlas(h, added);
  }
}
