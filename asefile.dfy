/**
 * The decoded Aseprite document as the `asefile` crate hands it over. The
 * binary format and its decoder are outside this model: a document is plain
 * data, and images are opaque pixel buffers.
 */
module Asefile {
  import opened Common

  /** An RGBA image with its dimensions (`RgbaImage`). */
  datatype Image = Image(width: nat, height: nat, raw: seq<int>)

  /** One animation frame: its composited image and its duration in milliseconds. */
  datatype Frame = Frame(image: Image, duration: U32)

  /** A tag names an animation over the frames `fromFrame ..= toFrame`. */
  datatype Tag = Tag(name: string, fromFrame: U32, toFrame: U32)

  /** `asefile::TilesetId`. */
  datatype TilesetId = TilesetId(value: U32)

  /** `asefile::TileSize`: pixel size of one tile (two `u16`s). */
  datatype TileSize = TileSize(width: U16, height: U16)

  datatype Tileset = Tileset(id: TilesetId, name: string, tileCount: U32, tileSize: TileSize)

  /** Why `AsepriteFile::tileset_image` produced no image. */
  datatype TilesetImageError =
    | MissingTilesetId(id: TilesetId)
    | NoPixelsInTileset(id: TilesetId)

  /** Position and size of a slice from some frame on; opaque to the model. */
  datatype SliceKey = SliceKey(fromFrame: U32, origin: (int, int), size: (nat, nat))

  datatype UserData = UserData(text: Option<string>, color: Option<nat>)

  datatype Slice = Slice(name: string, keys: seq<SliceKey>, userData: Option<UserData>)

  /**
   * `AsepriteFile`. `tilesets` lists the file's tilesets in the order the
   * file's tileset map yields them (unspecified); `tilesetPixels` maps a
   * tileset id to its pixel data, if the file has any.
   */
  datatype AsepriteFile = AsepriteFile(
    width: nat,
    height: nat,
    frames: seq<Frame>,
    tags: seq<Tag>,
    tilesets: seq<Tileset>,
    tilesetPixels: map<TilesetId, Option<Image>>,
    slices: seq<Slice>)
  {
    function NumFrames(): nat {
      |frames|
    }

    function NumTags(): nat {
      |tags|
    }

    /** `AsepriteFile::tileset_image`. */
    function TilesetImage(id: TilesetId): (r: Result<Image, TilesetImageError>)
      ensures r.Err? <==> id !in tilesetPixels || tilesetPixels[id].None?
      ensures id !in tilesetPixels ==> r == Err(MissingTilesetId(id))
      ensures id in tilesetPixels && tilesetPixels[id].None? ==> r == Err(NoPixelsInTileset(id))
    {
      if id !in tilesetPixels then Err(MissingTilesetId(id))
      else if tilesetPixels[id].None? then Err(NoPixelsInTileset(id))
      else Ok(tilesetPixels[id].value)
    }

    /**
     * What the model assumes the decoder guarantees, and the crate never checks:
     * a `u32` frame count, and every tag lies within the frames.
     */
    predicate Valid() {
      && |frames| < U32_MODULUS
      && (forall i :: 0 <= i < |tags| ==> tags[i].toFrame < |frames|)
    }
  }

  /** Every document of a batch satisfies what the decoder guarantees. */
  predicate AllFilesValid(inputs: seq<(Path, AsepriteFile)>) {
    forall i :: 0 <= i < |inputs| ==> inputs[i].1.Valid()
  }
}
