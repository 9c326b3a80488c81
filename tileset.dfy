/**
 * Tilesets of the older loader (src/tileset.rs): ids, keys, the error raised
 * when a tileset has no image, the conversion of a document's tileset into
 * `TilesetData` and from there into the engine's stores.
 */
module Tilesets {
  import opened Common
  import Asefile
  import opened Engine
  import opened AseIds

  /** The crate's own `TilesetId`. */
  datatype TilesetId = TilesetId(value: U32) {
    /** `TilesetId::inner` */
    function Inner(): U32 {
      value
    }

    /** `TilesetId::into_inner` */
    function IntoInner(): U32 {
      value
    }
  }

  /** `TilesetId::new`: both accessors give the number back. */
  function NewTilesetId(inner: U32): (r: TilesetId)
    ensures r.Inner() == inner && r.IntoInner() == inner
  {
    TilesetId(inner)
  }

  /** `From<&asefile::TilesetId>`: the same number. */
  function FromAseTilesetId(id: Asefile.TilesetId): (r: TilesetId)
    ensures r.value == id.value
  {
    TilesetId(id.value)
  }

  /** `Display for TilesetId`: `TilesetId(n)`. */
  function ShowTilesetId(id: TilesetId): (s: string)
    ensures |s| > 11 && s[..10] == "TilesetId(" && s[|s| - 1] == ')'
    ensures s[10..|s| - 1] == Decimal(id.value)
  {
    "TilesetId(" + Decimal(id.value) + ")"
  }

  /** Different ids render differently. */
  lemma ShowTilesetIdInjective(a: TilesetId, b: TilesetId)
    requires ShowTilesetId(a) == ShowTilesetId(b)
    ensures a == b
  {
    DecimalInjective(a.value, b.value);
  }

  /** `TilesetError` */
  datatype TilesetError = MissingId(id: TilesetId) | NoPixels(id: TilesetId)

  const MISSING_ID_MESSAGE := "No tileset found with id: "
  const NO_PIXELS_MESSAGE := "No pixel data for tileset with id: "

  /** `Display for TilesetError`: a message per variant, followed by the id. */
  function ShowTilesetError(e: TilesetError): (s: string)
    ensures e.MissingId? ==> s == MISSING_ID_MESSAGE + ShowTilesetId(e.id)
    ensures e.NoPixels? ==> s == NO_PIXELS_MESSAGE + ShowTilesetId(e.id)
  {
    match e
    case MissingId(id) => MISSING_ID_MESSAGE + ShowTilesetId(id)
    case NoPixels(id) => NO_PIXELS_MESSAGE + ShowTilesetId(id)
  }

  lemma MessagesDiffer(x: string, y: string)
    ensures MISSING_ID_MESSAGE + x != NO_PIXELS_MESSAGE + y
  {
    assert (MISSING_ID_MESSAGE + x)[3] == 't' && (NO_PIXELS_MESSAGE + y)[3] == 'p';
  }

  /** The message tells both the variant and the id. */
  lemma ShowTilesetErrorInjective(a: TilesetError, b: TilesetError)
    requires ShowTilesetError(a) == ShowTilesetError(b)
    ensures a == b
  {
    MessagesDiffer(ShowTilesetId(a.id), ShowTilesetId(b.id));
    MessagesDiffer(ShowTilesetId(b.id), ShowTilesetId(a.id));
    if a.MissingId? && b.MissingId? {
      SamePrefixSameRest(MISSING_ID_MESSAGE, ShowTilesetId(a.id), ShowTilesetId(b.id));
      ShowTilesetIdInjective(a.id, b.id);
    } else if a.NoPixels? && b.NoPixels? {
      SamePrefixSameRest(NO_PIXELS_MESSAGE, ShowTilesetId(a.id), ShowTilesetId(b.id));
      ShowTilesetIdInjective(a.id, b.id);
    }
  }

  /** `From<&TilesetImageError>`: the matching variant, with the same id. */
  function FromImageError(e: Asefile.TilesetImageError): (r: TilesetError)
    ensures e.MissingTilesetId? <==> r.MissingId?
    ensures r.id.value == e.id.value
  {
    match e
    case MissingTilesetId(id) => MissingId(FromAseTilesetId(id))
    case NoPixelsInTileset(id) => NoPixels(FromAseTilesetId(id))
  }

  /** `TilesetKey`: a tileset is known by its file and its id within the file. */
  datatype TilesetKey = TilesetKey(aseId: AseId, tilesetId: TilesetId) {
    /** `TilesetKey::ase_id` */
    function AseIdOf(): AseId {
      aseId
    }

    /** `TilesetKey::tileset_id` */
    function TilesetIdOf(): TilesetId {
      tilesetId
    }
  }

  /** `TilesetKey::new`: the accessors give back both parts. */
  function NewTilesetKey(aseId: AseId, tilesetId: TilesetId): (k: TilesetKey)
    ensures k.AseIdOf() == aseId && k.TilesetIdOf() == tilesetId
  {
    TilesetKey(aseId, tilesetId)
  }

  /** `Display for TilesetKey`: `TilesetKey(ase_id AseId(a), tileset_id TilesetId(t))`. */
  function ShowTilesetKey(k: TilesetKey): (s: string)
    ensures s == "TilesetKey(ase_id " + ShowAseId(k.aseId) + ", tileset_id " + ShowTilesetId(k.tilesetId) + ")"
  {
    "TilesetKey(ase_id " + ShowAseId(k.aseId) + ", tileset_id " + ShowTilesetId(k.tilesetId) + ")"
  }

  /** Different keys print differently: the rendering can be read back. */
  lemma ShowTilesetKeyInjective(a: TilesetKey, b: TilesetKey)
    requires ShowTilesetKey(a) == ShowTilesetKey(b)
    ensures a == b
  {
    TilesetKeyRendering(a);
    TilesetKeyRendering(b);
    TwoNumeralsInjective("TilesetKey(ase_id " + "AseId(", ")" + ", tileset_id " + "TilesetId(", ")" + ")",
      a.aseId.value, a.tilesetId.value, b.aseId.value, b.tilesetId.value);
  }

  lemma TilesetKeyRendering(k: TilesetKey)
    ensures ShowTilesetKey(k)
      == ("TilesetKey(ase_id " + "AseId(") + Decimal(k.aseId.value)
         + (")" + ", tileset_id " + "TilesetId(") + Decimal(k.tilesetId.value) + (")" + ")")
  {
    Regroup("TilesetKey(ase_id ", "AseId(", Decimal(k.aseId.value), ")", ", tileset_id ", "TilesetId(",
      Decimal(k.tilesetId.value), ")", ")");
  }

  /** `TileSize` */
  datatype TileSize = TileSize(width: U16, height: U16)

  /** `TileSize::from_ase`: the same width and height. */
  function TileSizeFromAse(s: Asefile.TileSize): (r: TileSize)
    ensures r.width == s.width && r.height == s.height
  {
    TileSize(s.width, s.height)
  }

  /** `Tileset`: the engine asset. */
  datatype Tileset = Tileset(key: TilesetKey, tileCount: U32, tileSize: TileSize, name: string, texture: Handle)

  /** `TilesetData<T>`: a tileset before its texture is stored. */
  datatype TilesetData<T> = TilesetData(id: TilesetId, tileCount: U32, tileSize: TileSize, name: string, texture: T)

  /** How the texture of a tileset is made from the document (`F` in `from_ase`). */
  type TextureSource<T> = (Asefile.AsepriteFile, Asefile.Tileset) -> Result<T, TilesetError>

  /**
   * `TilesetData::from_ase`: the texture source's error unchanged, or the
   * tileset's id, tile count, tile size and name with the texture made.
   */
  function TilesetDataFromAse<T>(f: TextureSource<T>, ase: Asefile.AsepriteFile, t: Asefile.Tileset)
    : (r: Result<TilesetData<T>, TilesetError>)
    ensures f(ase, t).Err? ==> r == Err(f(ase, t).error)
    ensures f(ase, t).Ok? ==> r.Ok? && r.value.texture == f(ase, t).value
    ensures r.Ok? ==> && r.value.id == FromAseTilesetId(t.id) && r.value.tileCount == t.tileCount
                      && r.value.tileSize == TileSizeFromAse(t.tileSize) && r.value.name == t.name
  {
    var texture := f(ase, t);
    if texture.Err? then Err(texture.error)
    else Ok(TilesetData(FromAseTilesetId(t.id), t.tileCount, TileSizeFromAse(t.tileSize), t.name, texture.value))
  }

  /** `texture_from`: the tileset's image as a texture, or why there is none. */
  function TextureFrom(ase: Asefile.AsepriteFile, t: Asefile.Tileset): (r: Result<Texture, TilesetError>)
    ensures r.Err? <==> ase.TilesetImage(t.id).Err?
    ensures r.Err? ==> r.error == FromImageError(ase.TilesetImage(t.id).error)
    ensures r.Ok? ==> var img := ase.TilesetImage(t.id).value;
      r.value == NewFill(img.width, img.height, img.raw)
  {
    var image := ase.TilesetImage(t.id);
    if image.Err? then Err(FromImageError(image.error))
    else Ok(NewFill(image.value.width, image.value.height, image.value.raw))
  }

  /** `TilesetData::from_ase_with_texture`: fails exactly when the document has no image for the tileset. */
  function FromAseWithTexture(ase: Asefile.AsepriteFile, t: Asefile.Tileset)
    : (r: Result<TilesetData<Texture>, TilesetError>)
    ensures r.Err? <==> t.id !in ase.tilesetPixels || ase.tilesetPixels[t.id].None?
    ensures t.id !in ase.tilesetPixels ==> r == Err(MissingId(FromAseTilesetId(t.id)))
    ensures r.Ok? ==> r.value.id == FromAseTilesetId(t.id) && r.value.name == t.name
  {
    TilesetDataFromAse(TextureFrom, ase, t)
  }

  /**
   * `TilesetData::move_into_bevy`: stores the texture, then the tileset keyed
   * by the file and its id and pointing at the stored texture.
   */
  method MoveIntoBevy(data: TilesetData<Texture>, aseId: AseId, textures: Assets<Texture>,
                      tilesets: Assets<Tileset>)
    returns (h: Handle)
    modifies textures, tilesets
    ensures textures.items == old(textures.items) + [data.texture]
    ensures tilesets.items == old(tilesets.items) + [Tileset(TilesetKey(aseId, data.id), data.tileCount,
      data.tileSize, data.name, Handle(|old(textures.items)|))]
    ensures h == Handle(|old(tilesets.items)|)
  {
    var texHandle := textures.Add(data.texture);
    var tileset := Tileset(NewTilesetKey(aseId, data.id), data.tileCount, data.tileSize, data.name, texHandle);
    h := tilesets.Add(tileset);
  }

  /** `TilesetsById::from_iter`: one entry per id; each comes from a pair, the last one for its id. */
  function TilesetsById<T>(pairs: seq<(TilesetId, TilesetData<T>)>): (m: map<TilesetId, TilesetData<T>>)
    ensures m.Keys == set i | 0 <= i < |pairs| :: pairs[i].0
    ensures forall i :: 0 <= i < |pairs| && (forall j :: i < j < |pairs| ==> pairs[j].0 != pairs[i].0) ==>
      m[pairs[i].0] == pairs[i].1
  {
    var m := FromPairs(pairs);
    forall i | 0 <= i < |pairs| && (forall j :: i < j < |pairs| ==> pairs[j].0 != pairs[i].0)
      ensures m[pairs[i].0] == pairs[i].1
    {
      FromPairsLastWins(pairs, i);
    }
    m
  }
}
