/**
 * The handle index (src/asset/asset_index.rs): per file, maps from animation
 * tag names, slice names, tileset ids and frame indices to the handles of
 * the assets made from them, plus the file's atlas; and the resource that
 * maps file paths to those per-file maps. A later insert under the same key
 * replaces the earlier handle.
 */
module AssetIndex {
  import opened Common
  import opened Engine

  /** `AseAssetMap` */
  class AseAssetMap {
    var animations: map<string, Handle>
    var slices: map<string, Handle>
    var tilesets: map<U32, Handle>
    var textures: map<U32, Handle>
    var atlas: Handle

    /** `AseAssetMap::default()` */
    constructor ()
      ensures animations == map[] && slices == map[] && tilesets == map[] && textures == map[]
      ensures atlas == DefaultHandle
    {
      animations, slices, tilesets, textures := map[], map[], map[], map[];
      atlas := DefaultHandle;
    }

    /** `AseAssetMap::animation`: the handle stored under the tag name, if any. */
    function Animation(tagName: string): (r: Option<Handle>)
      reads this
      ensures r.Some? <==> tagName in animations
      ensures r.Some? ==> r.value == animations[tagName]
    {
      if tagName in animations then Some(animations[tagName]) else None
    }

    /** `AseAssetMap::slice` */
    function Slice(sliceName: string): (r: Option<Handle>)
      reads this
      ensures r.Some? <==> sliceName in slices
      ensures r.Some? ==> r.value == slices[sliceName]
    {
      if sliceName in slices then Some(slices[sliceName]) else None
    }

    /** `AseAssetMap::tileset` */
    function Tileset(tilesetId: U32): (r: Option<Handle>)
      reads this
      ensures r.Some? <==> tilesetId in tilesets
      ensures r.Some? ==> r.value == tilesets[tilesetId]
    {
      if tilesetId in tilesets then Some(tilesets[tilesetId]) else None
    }

    /** `AseAssetMap::texture` */
    function Texture(frameIndex: U32): (r: Option<Handle>)
      reads this
      ensures r.Some? <==> frameIndex in textures
      ensures r.Some? ==> r.value == textures[frameIndex]
    {
      if frameIndex in textures then Some(textures[frameIndex]) else None
    }

    /** `AseAssetMap::atlas` */
    function Atlas(): Handle
      reads this
    {
      atlas
    }

    /** `insert_animation`: the name now finds `handle`; every other map is untouched. */
    method InsertAnimation(tagName: string, handle: Handle)
      modifies this
      ensures Animation(tagName) == Some(handle)
      ensures forall n :: n != tagName ==> Animation(n) == old(Animation(n))
      ensures animations == old(animations)[tagName := handle]
      ensures slices == old(slices) && tilesets == old(tilesets) && textures == old(textures)
      ensures atlas == old(atlas)
    {
      animations := animations[tagName := handle];
    }

    /** `insert_tileset` */
    method InsertTileset(tilesetId: U32, handle: Handle)
      modifies this
      ensures Tileset(tilesetId) == Some(handle)
      ensures forall n :: n != tilesetId ==> Tileset(n) == old(Tileset(n))
      ensures tilesets == old(tilesets)[tilesetId := handle]
      ensures animations == old(animations) && slices == old(slices) && textures == old(textures)
      ensures atlas == old(atlas)
    {
      tilesets := tilesets[tilesetId := handle];
    }

    /** `insert_slice` */
    method InsertSlice(sliceName: string, handle: Handle)
      modifies this
      ensures Slice(sliceName) == Some(handle)
      ensures forall n :: n != sliceName ==> Slice(n) == old(Slice(n))
      ensures slices == old(slices)[sliceName := handle]
      ensures animations == old(animations) && tilesets == old(tilesets) && textures == old(textures)
      ensures atlas == old(atlas)
    {
      slices := slices[sliceName := handle];
    }

    /** `insert_texture` */
    method InsertTexture(frameIndex: U32, handle: Handle)
      modifies this
      ensures Texture(frameIndex) == Some(handle)
      ensures forall n :: n != frameIndex ==> Texture(n) == old(Texture(n))
      ensures textures == old(textures)[frameIndex := handle]
      ensures animations == old(animations) && slices == old(slices) && tilesets == old(tilesets)
      ensures atlas == old(atlas)
    {
      textures := textures[frameIndex := handle];
    }

    /** `insert_atlas`: replaces the atlas and nothing else. */
    method InsertAtlas(handle: Handle)
      modifies this
      ensures Atlas() == handle
      ensures animations == old(animations) && slices == old(slices)
      ensures tilesets == old(tilesets) && textures == old(textures)
    {
      atlas := handle;
    }
  }

  /** `AseFileMap`: per-file handle maps by file path. */
  class AseFileMap {
    var files: map<Path, AseAssetMap>

    constructor ()
      ensures files == map[]
    {
      files := map[];
    }

    /** `AseFileMap::get`: the file's map, if the file is indexed. */
    function Get(path: Path): (r: Option<AseAssetMap>)
      reads this
      ensures r.Some? <==> path in files
      ensures r.Some? ==> r.value == files[path]
    {
      if path in files then Some(files[path]) else None
    }

    /**
     * `AseFileMap::get_mut`: the file's map, created empty (and recorded) when
     * the file is not indexed yet; other paths are untouched.
     */
    method GetMut(path: Path) returns (m: AseAssetMap)
      modifies this
      ensures path in old(files) ==> m == old(files)[path] && files == old(files)
      ensures path !in old(files) ==>
        && fresh(m) && files == old(files)[path := m]
        && m.animations == map[] && m.slices == map[] && m.tilesets == map[] && m.textures == map[]
        && m.atlas == DefaultHandle
    {
      if path in files {
        m := files[path];
      } else {
        m := new AseAssetMap();
        files := files[path := m];
      }
    }

    /** `AseFileMap::animation`: None when the file or the tag name is unknown. */
    function Animation(path: Path, tagName: string): (r: Option<Handle>)
      reads this, files.Values
      ensures r.Some? <==> path in files && tagName in files[path].animations
      ensures r.Some? ==> r.value == files[path].animations[tagName]
    {
      if path in files then files[path].Animation(tagName) else None
    }

    /** `AseFileMap::slice` */
    function Slice(path: Path, sliceName: string): (r: Option<Handle>)
      reads this, files.Values
      ensures r.Some? <==> path in files && sliceName in files[path].slices
      ensures r.Some? ==> r.value == files[path].slices[sliceName]
    {
      if path in files then files[path].Slice(sliceName) else None
    }

    /** `AseFileMap::tileset` */
    function Tileset(path: Path, tilesetId: U32): (r: Option<Handle>)
      reads this, files.Values
      ensures r.Some? <==> path in files && tilesetId in files[path].tilesets
      ensures r.Some? ==> r.value == files[path].tilesets[tilesetId]
    {
      if path in files then files[path].Tileset(tilesetId) else None
    }
  }
}
