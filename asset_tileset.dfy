/**
 * Tilesets of the current loader (src/asset/tileset.rs): the error raised
 * when a tileset has no image, the tileset asset and the size of its texture,
 * in which all tiles are stacked in one vertical strip.
 */
module TilesetAsset {
  import opened Common
  import Asefile
  import opened Engine

  /** `TilesetError`, carrying the document's own tileset id. */
  datatype TilesetError = MissingId(id: Asefile.TilesetId) | NoPixels(id: Asefile.TilesetId)

  const MISSING_ID_MESSAGE := "No tileset found with id: "
  const NO_PIXELS_MESSAGE := "No pixel data for tileset with id: "

  /**
   * `Display for TilesetError`: a message per variant followed by the id,
   * rendered by `asefile`'s own `Display` (`showId`), which is not part of this model.
   */
  function ShowTilesetError(e: TilesetError, showId: Asefile.TilesetId -> string): (s: string)
    ensures e.MissingId? ==> s == MISSING_ID_MESSAGE + showId(e.id)
    ensures e.NoPixels? ==> s == NO_PIXELS_MESSAGE + showId(e.id)
  {
    match e
    case MissingId(id) => MISSING_ID_MESSAGE + showId(id)
    case NoPixels(id) => NO_PIXELS_MESSAGE + showId(id)
  }

  /** Whatever the id rendering, the two variants never print the same message. */
  lemma VariantsPrintDifferently(id1: Asefile.TilesetId, id2: Asefile.TilesetId, showId: Asefile.TilesetId -> string)
    ensures ShowTilesetError(MissingId(id1), showId) != ShowTilesetError(NoPixels(id2), showId)
  {
    assert ShowTilesetError(MissingId(id1), showId)[3] == 't';
    assert ShowTilesetError(NoPixels(id2), showId)[3] == 'p';
  }

  /** `From<&TilesetImageError>`: the matching variant, with the same id. */
  function FromImageError(e: Asefile.TilesetImageError): (r: TilesetError)
    ensures e.MissingTilesetId? <==> r.MissingId?
    ensures r.id == e.id
  {
    match e
    case MissingTilesetId(id) => MissingId(id)
    case NoPixelsInTileset(id) => NoPixels(id)
  }

  /** `TileSize` */
  datatype TileSize = TileSize(width: U16, height: U16)

  /** `TileSize::from_ase`: the same width and height. */
  function TileSizeFromAse(s: Asefile.TileSize): (r: TileSize)
    ensures r.width == s.width && r.height == s.height
  {
    TileSize(s.width, s.height)
  }

  /** `Tileset`: the engine asset. */
  datatype Tileset = Tileset(tileCount: U32, tileSize: TileSize, name: string, texture: Handle)

  /**
   * `Tileset::texture_size`, in whole pixels: as wide as a tile and as tall
   * as all tiles stacked.
   */
  function TextureSize(t: Tileset): (size: (nat, nat))
    ensures size.0 == t.tileSize.width
    ensures size.1 == t.tileSize.height * t.tileCount
  {
    (t.tileSize.width, t.tileSize.height * t.tileCount)
  }

  /** Tile `i` occupies rows `i * height .. (i + 1) * height` of the strip, inside the texture. */
  lemma TileWithinTexture(t: Tileset, i: nat)
    requires i < t.tileCount
    ensures (i + 1) * t.tileSize.height <= TextureSize(t).1
  {
    var h, n := t.tileSize.height, t.tileCount;
    assert (i + 1) * h <= n * h by {
      MulMonotone(i + 1, n, h);
    }
  }

  lemma MulMonotone(a: nat, b: nat, c: nat)
    requires a <= b
    ensures a * c <= b * c
  {
  }

  /** `TilesetData<T>`: a tileset before its texture is stored. */
  datatype TilesetData<T> = TilesetData(tileCount: U32, tileSize: TileSize, name: string, texture: T)

  /** How the texture of a tileset is made from the document (`F` in `from_ase`). */
  type TextureSource<T> = (Asefile.AsepriteFile, Asefile.Tileset) -> Result<T, TilesetError>

  /** `TilesetData::from_ase`: the source's error unchanged, or the copied fields with the texture. */
  function TilesetDataFromAse<T>(f: TextureSource<T>, ase: Asefile.AsepriteFile, t: Asefile.Tileset)
    : (r: Result<TilesetData<T>, TilesetError>)
    ensures f(ase, t).Err? ==> r == Err(f(ase, t).error)
    ensures f(ase, t).Ok? ==> r.Ok? && r.value.texture == f(ase, t).value
    ensures r.Ok? ==> && r.value.tileCount == t.tileCount && r.value.tileSize == TileSizeFromAse(t.tileSize)
                      && r.value.name == t.name
  {
    var texture := f(ase, t);
    if texture.Err? then Err(texture.error)
    else Ok(TilesetData(t.tileCount, TileSizeFromAse(t.tileSize), t.name, texture.value))
  }

  /** `texture_from`: the tileset's image as a texture, or why there is none. */
  function TextureFrom(ase: Asefile.AsepriteFile, t: Asefile.Tileset): (r: Result<Texture, TilesetError>)
    ensures r.Err? <==> ase.TilesetImage(t.id).Err?
    ensures r.Err? ==> r.error == FromImageError(ase.TilesetImage(t.id).error)
    ensures r.Ok? ==> var img := ase.TilesetImage(t.id).value;
      r.value == NewFill(img.width, img.height, img.raw)
  {
    var image := ase.TilesetImage(t.id);
    if image.Err? then Err(FromImageError(image.error))
    else Ok(NewFill(image.value.width, image.value.height, image.value.raw))
  }

  /** `TilesetData::from_ase_with_texture`: fails exactly when the document has no image for the tileset. */
  function FromAseWithTexture(ase: Asefile.AsepriteFile, t: Asefile.Tileset)
    : (r: Result<TilesetData<Texture>, TilesetError>)
    ensures r.Err? <==> t.id !in ase.tilesetPixels || ase.tilesetPixels[t.id].None?
    ensures t.id !in ase.tilesetPixels ==> r == Err(MissingId(t.id))
    ensures t.id in ase.tilesetPixels && ase.tilesetPixels[t.id].None? ==> r == Err(NoPixels(t.id))
    ensures r.Ok? ==> r.value.name == t.name && r.value.tileCount == t.tileCount
  {
    TilesetDataFromAse(TextureFrom, ase, t)
  }

  /** `TilesetData::move_into_bevy`: stores the texture, then the tileset pointing at it. */
  method MoveIntoBevy(data: TilesetData<Texture>, textures: Assets<Texture>, tilesets: Assets<Tileset>)
    returns (h: Handle)
    modifies textures, tilesets
    ensures textures.items == old(textures.items) + [data.texture]
    ensures tilesets.items == old(tilesets.items)
      + [Tileset(data.tileCount, data.tileSize, data.name, Handle(|old(textures.items)|))]
    ensures h == Handle(|old(tilesets.items)|)
  {
    var texHandle := textures.Add(data.texture);
    h := tilesets.Add(Tileset(data.tileCount, data.tileSize, data.name, texHandle));
  }
}
