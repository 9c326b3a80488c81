/**
 * Sub-asset labels (src/handle_id.rs). Every asset made from a file is
 * addressed by the file's path and a label `kind` followed by a suffix: a tag
 * or slice name, or a frame or tileset id in decimal. The documented textual
 * form is `{path}#{label}`. Hashing the path into a `HandleId` is Bevy's and
 * is not modelled: two sub-assets get the same handle exactly when they get
 * the same `AssetPath`.
 */
module HandleIds {
  import opened Common

  /** `AssetPath`: a file path and an optional label. */
  datatype AssetPath = AssetPath(path: Path, assetLabel: Option<string>)

  /** `make`: the label is the kind, followed by the suffix when there is one. */
  function Make(path: Path, kind: string, suffix: Option<string>): (r: AssetPath)
    ensures r.path == path && r.assetLabel.Some?
    ensures suffix.None? ==> r.assetLabel.value == kind
    ensures suffix.Some? ==> r.assetLabel.value == kind + suffix.value
  {
    var text := if suffix.Some? then kind + suffix.value else kind;
    AssetPath(path, Some(text))
  }

  /** `handle_id::animation`: label `Animation/{tag_name}`. */
  function AnimationPath(path: Path, tagName: string): (r: AssetPath)
    ensures r == AssetPath(path, Some("Animation/" + tagName))
  {
    Make(path, "Animation/", Some(tagName))
  }

  /** `handle_id::frame_image`: label `FrameImage{index}`. */
  function FrameImagePath(path: Path, frame: U32): (r: AssetPath)
    ensures r == AssetPath(path, Some("FrameImage" + Decimal(frame)))
  {
    Make(path, "FrameImage", Some(Decimal(frame)))
  }

  /** `handle_id::atlas`: label `Atlas`. */
  function AtlasPath(path: Path): (r: AssetPath)
    ensures r == AssetPath(path, Some("Atlas"))
  {
    Make(path, "Atlas", None)
  }

  /** `handle_id::tileset`: label `Tileset{tileset_id}`. */
  function TilesetPath(path: Path, tilesetId: U32): (r: AssetPath)
    ensures r == AssetPath(path, Some("Tileset" + Decimal(tilesetId)))
  {
    Make(path, "Tileset", Some(Decimal(tilesetId)))
  }

  /** `handle_id::tileset_image`: label `TilesetImage{tileset_id}`. */
  function TilesetImagePath(path: Path, tilesetId: U32): (r: AssetPath)
    ensures r == AssetPath(path, Some("TilesetImage" + Decimal(tilesetId)))
  {
    Make(path, "TilesetImage", Some(Decimal(tilesetId)))
  }

  /** `handle_id::slice`: label `Slice/{name}`. */
  function SlicePath(path: Path, name: string): (r: AssetPath)
    ensures r == AssetPath(path, Some("Slice/" + name))
  {
    Make(path, "Slice/", Some(name))
  }

  /** The sub-assets of one file the six functions address. */
  datatype SubAsset =
    | AnimationOf(tagName: string)
    | FrameImageOf(frame: U32)
    | AtlasOf
    | TilesetOf(tilesetId: U32)
    | TilesetImageOf(tilesetId: U32)
    | SliceOf(name: string)

  /** The asset path the crate gives a sub-asset of the file at `path`. */
  function SubAssetPath(path: Path, a: SubAsset): AssetPath {
    match a
    case AnimationOf(t) => AnimationPath(path, t)
    case FrameImageOf(f) => FrameImagePath(path, f)
    case AtlasOf => AtlasPath(path)
    case TilesetOf(id) => TilesetPath(path, id)
    case TilesetImageOf(id) => TilesetImagePath(path, id)
    case SliceOf(n) => SlicePath(path, n)
  }

  /** The label's first character tells the kind apart, except for the two tileset kinds. */
  function Head(a: SubAsset): char {
    match a
    case AnimationOf(_) => 'A'
    case FrameImageOf(_) => 'F'
    case AtlasOf => 'A'
    case TilesetOf(_) => 'T'
    case TilesetImageOf(_) => 'T'
    case SliceOf(_) => 'S'
  }

  lemma LabelHead(path: Path, a: SubAsset)
    ensures |SubAssetPath(path, a).assetLabel.value| > 1
    ensures SubAssetPath(path, a).assetLabel.value[0] == Head(a)
  {
  }

  /** After "Tileset", a tileset label continues with a digit and a tileset-image label with 'I'. */
  lemma TilesetKindsDiffer(a: U32, b: U32)
    ensures "Tileset" + Decimal(a) != "TilesetImage" + Decimal(b)
  {
    var x, y := "Tileset" + Decimal(a), "TilesetImage" + Decimal(b);
    assert x[7] == Decimal(a)[0] && IsDigit(x[7]);
    assert y[7] == 'I';
  }

  /**
   * No two different sub-assets, on the same path string or on different path
   * strings, get the same asset path: neither across kinds nor within one kind.
   * Paths are compared as strings here, not component by component.
   */
  lemma SubAssetPathInjective(p: Path, a: SubAsset, q: Path, b: SubAsset)
    requires SubAssetPath(p, a) == SubAssetPath(q, b)
    ensures p == q && a == b
  {
    var la, lb := SubAssetPath(p, a).assetLabel.value, SubAssetPath(q, b).assetLabel.value;
    LabelHead(p, a);
    LabelHead(q, b);
    assert la[0] == lb[0];
    match a {
      case AnimationOf(t) =>
        if b.AnimationOf? {
          SamePrefixSameRest("Animation/", t, b.tagName);
        }
      case AtlasOf =>
      case FrameImageOf(f) =>
        SamePrefixSameRest("FrameImage", Decimal(f), Decimal(b.frame));
        DecimalInjective(f, b.frame);
      case TilesetOf(id) =>
        if b.TilesetImageOf? {
          TilesetKindsDiffer(id, b.tilesetId);
        } else {
          SamePrefixSameRest("Tileset", Decimal(id), Decimal(b.tilesetId));
          DecimalInjective(id, b.tilesetId);
        }
      case TilesetImageOf(id) =>
        if b.TilesetOf? {
          TilesetKindsDiffer(b.tilesetId, id);
        } else {
          SamePrefixSameRest("TilesetImage", Decimal(id), Decimal(b.tilesetId));
          DecimalInjective(id, b.tilesetId);
        }
      case SliceOf(n) =>
        SamePrefixSameRest("Slice/", n, b.name);
    }
  }

  /** The documented textual form `{path}#{label}` (just the path when there is no label). */
  function FullForm(ap: AssetPath): string {
    if ap.assetLabel.Some? then ap.path + "#" + ap.assetLabel.value else ap.path
  }

  /** Reading a textual asset path: the label starts after the first '#'. */
  function ParseFullForm(s: string): (r: AssetPath)
    ensures '#' !in r.path
    decreases |s|
  {
    if s == [] then AssetPath([], None)
    else if s[0] == '#' then AssetPath([], Some(s[1..]))
    else
      var rest := ParseFullForm(s[1..]);
      AssetPath([s[0]] + rest.path, rest.assetLabel)
  }

  /** A textual form reads back as the same asset path when the file path has no '#'. */
  lemma {:induction false} FullFormRoundTrip(ap: AssetPath)
    requires '#' !in ap.path
    ensures ParseFullForm(FullForm(ap)) == ap
    decreases |ap.path|
  {
    if ap.path != [] {
      var s := FullForm(ap);
      assert s[0] == ap.path[0] && s[1..] == FullForm(AssetPath(ap.path[1..], ap.assetLabel));
      FullFormRoundTrip(AssetPath(ap.path[1..], ap.assetLabel));
      assert [ap.path[0]] + ap.path[1..] == ap.path;
    } else if ap.assetLabel.Some? {
      assert FullForm(ap)[1..] == ap.assetLabel.value;
    }
  }

  /**
   * The example in the doc comment of `frame_image_path` (src/handle_id.rs:24-30):
   * frame 0 of `assets/my_file.aseprite`.
   */
  lemma FrameImageExample()
    ensures FullForm(FrameImagePath("assets/my_file.aseprite", 0)) == "assets/my_file.aseprite#FrameImage0"
  {
  }
}
