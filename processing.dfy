/**
 * Turning a batch of decoded files into engine assets (src/processing.rs):
 * `AseAssets::new` gathers every file's frames as sprites, its animations and
 * its tilesets; `AseAssets::move_into_bevy` stores them, packs the sprites into
 * one atlas and registers every animation in `AnimationInfo`.
 */
module Processing {
  import opened Common
  import opened Asefile
  import opened Engine
  import opened AseIds
  import AA = AnimationAsset
  import Animate
  import Tilesets

  type TilesetData = Tilesets.TilesetData<Texture>

  // ---------------------------------------------------------------------------
  // Tilesets of a batch

  /**
   * The tilesets of one file, converted in the file's order, each under the key
   * made of the file's id and the tileset's id; the conversion stops at the first
   * tileset without pixel data (`collect` into a `Result`).
   */
  function ConvertTilesets(ase: AseKeyed, ts: seq<Asefile.Tileset>)
    : (r: Result<seq<(Tilesets.TilesetKey, TilesetData)>, Tilesets.TilesetError>)
    ensures r.Ok? <==> forall i :: 0 <= i < |ts| ==> Tilesets.FromAseWithTexture(ase.file, ts[i]).Ok?
    ensures r.Ok? ==> |r.value| == |ts|
    ensures r.Ok? ==> forall i :: 0 <= i < |ts| ==>
      r.value[i] == (Tilesets.TilesetKey(ase.id, Tilesets.FromAseTilesetId(ts[i].id)),
                     Tilesets.FromAseWithTexture(ase.file, ts[i]).value)
    ensures r.Err? ==> exists i :: (0 <= i < |ts| && Tilesets.FromAseWithTexture(ase.file, ts[i]) == Err(r.error)
      && forall j :: 0 <= j < i ==> Tilesets.FromAseWithTexture(ase.file, ts[j]).Ok?)
    decreases |ts|
  {
    if ts == [] then Ok([])
    else
      var first := Tilesets.FromAseWithTexture(ase.file, ts[0]);
      if first.Err? then Err(first.error)
      else
        var rest := ConvertTilesets(ase, ts[1..]);
        if rest.Err? then
          assert forall j :: 0 <= j < |ts| - 1 ==> ts[1..][j] == ts[j + 1];
          Err(rest.error)
        else Ok([(Tilesets.TilesetKey(ase.id, first.value.id), first.value)] + rest.value)
  }

  /** Every tileset is stored under its own id and the id of the file it came from. */
  predicate KeysMatch(table: map<Tilesets.TilesetKey, TilesetData>) {
    forall k :: k in table ==> table[k].id == k.tilesetId
  }

  /** `TilesetsByKey`: the tilesets of the files processed so far. */
  class TilesetsByKey {
    var table: map<Tilesets.TilesetKey, TilesetData>

    predicate Valid()
      reads this
    {
      KeysMatch(table)
    }

    /** `TilesetsByKey::new` */
    constructor ()
      ensures Valid() && table == map[]
    {
      table := map[];
    }

    /**
     * `TilesetsByKey::add_ase`: on success every tileset of the file is added,
     * replacing one under the same key; on the first failure the error is
     * returned and nothing is added.
     */
    method AddAse(ase: AseKeyed) returns (err: Option<Tilesets.TilesetError>)
      requires Valid()
      modifies this
      ensures Valid()
      ensures var c := ConvertTilesets(ase, ase.file.tilesets);
        && (c.Err? ==> err == Some(c.error) && table == old(table))
        && (c.Ok? ==> err == None && table == old(table) + FromPairs(c.value))
    {
      var c := ConvertTilesets(ase, ase.file.tilesets);
      if c.Err? {
        return Some(c.error);
      }
      var added := FromPairs(c.value);
      forall k | k in added
        ensures added[k].id == k.tilesetId
      {
        FromPairsEntryFrom(c.value, k);
      }
      table := table + added;
      err := None;
    }
  }

  // ---------------------------------------------------------------------------
  // The batch

  /** `AseAssets`: the sprites, the animations over them, and the tilesets of a batch. */
  datatype AseAssets = AseAssets(sprites: seq<AA.SpriteData<Texture>>, anims: seq<AA.AnimationData>,
                                 tilesets: map<Tilesets.TilesetKey, TilesetData>)

  /** All files are as the decoder produces them. */
  predicate AllValid(files: seq<AseKeyed>) {
    forall i :: 0 <= i < |files| ==> files[i].file.Valid()
  }

  /** The sprites of one file: one per frame, in frame order. */
  function FileSprites(f: AseKeyed): (r: seq<AA.SpriteData<Texture>>)
    requires f.file.Valid()
    ensures |r| == |f.file.frames|
    ensures forall i :: 0 <= i < |r| ==> r[i] == AA.NewSpriteData(f.file, i)
  {
    seq(|f.file.frames|, i requires 0 <= i < |f.file.frames| => AA.NewSpriteData(f.file, i))
  }

  /** The animations of one file whose sprites start at `offset`: the whole file, then one per tag. */
  function FileAnims(f: AseKeyed, offset: nat): (r: seq<AA.AnimationData>)
    ensures |r| == 1 + |f.file.tags|
    ensures r[0] == AA.NewAnimationData(f.path, f.file, offset)
    ensures forall j :: 0 <= j < |f.file.tags| ==> r[1 + j] == AA.AnimationDataFromTag(f.path, offset, f.file.tags[j])
  {
    [AA.NewAnimationData(f.path, f.file, offset)]
      + seq(|f.file.tags|, j requires 0 <= j < |f.file.tags| =>
              AA.AnimationDataFromTag(f.path, offset, f.file.tags[j]))
  }

  /** The sprites of the files, processed in order. */
  function SpritesOf(files: seq<AseKeyed>): seq<AA.SpriteData<Texture>>
    requires AllValid(files)
    decreases |files|
  {
    if files == [] then []
    else
      var n := |files| - 1;
      assert AllValid(files[..n]);
      SpritesOf(files[..n]) + FileSprites(files[n])
  }

  /** The animations of the files, processed in order; a file's sprites start after the earlier files'. */
  function AnimsOf(files: seq<AseKeyed>): seq<AA.AnimationData>
    requires AllValid(files)
    decreases |files|
  {
    if files == [] then []
    else
      var n := |files| - 1;
      assert AllValid(files[..n]);
      AnimsOf(files[..n]) + FileAnims(files[n], |SpritesOf(files[..n])|)
  }

  /** The tilesets of the files, added in order to `table`; the first failing file's error otherwise. */
  function TilesetsOf(table: map<Tilesets.TilesetKey, TilesetData>, files: seq<AseKeyed>)
    : Result<map<Tilesets.TilesetKey, TilesetData>, Tilesets.TilesetError>
    decreases |files|
  {
    if files == [] then Ok(table)
    else
      var n := |files| - 1;
      var before := TilesetsOf(table, files[..n]);
      if before.Err? then before
      else
        var c := ConvertTilesets(files[n], files[n].file.tilesets);
        if c.Err? then Err(c.error) else Ok(before.value + FromPairs(c.value))
  }

  /** The files of the id map in the order the ids are visited. */
  function InOrder(m: map<AseId, AseKeyed>, order: seq<AseId>): (files: seq<AseKeyed>)
    requires forall i :: 0 <= i < |order| ==> order[i] in m
    ensures |files| == |order|
  {
    seq(|order|, i requires 0 <= i < |order| => m[order[i]])
  }

  lemma InOrderValid(ases: seq<(Path, AsepriteFile)>, order: seq<AseId>)
    requires forall i :: 0 <= i < |ases| ==> ases[i].1.Valid()
    requires IsEnumeration(order, AsesById(ases).Keys)
    ensures AllValid(InOrder(AsesById(ases), order))
  {
    var m := AsesById(ases);
    forall i | 0 <= i < |order|
      ensures m[order[i]].file.Valid()
    {
      AsesByIdFromInputs(ases, order[i]);
    }
  }

  /** `r` is what `AseAssets::new` gives when the files are visited in `order`. */
  ghost predicate Batch(m: map<AseId, AseKeyed>, order: seq<AseId>, r: Result<AseAssets, Tilesets.TilesetError>)
  {
    && (forall i :: 0 <= i < |order| ==> order[i] in m)
    && AllValid(InOrder(m, order))
    && var files := InOrder(m, order);
       var t := TilesetsOf(map[], files);
       && (t.Err? ==> r == Err(t.error))
       && (t.Ok? ==> r == Ok(AseAssets(SpritesOf(files), AnimsOf(files), t.value)))
  }

  /**
   * `AseAssets::new`: the files are visited in the id map's (unspecified) order,
   * reported as `order`; each contributes its sprites, its animations and its
   * tilesets. A file with a tileset lacking pixel data makes the batch fail
   * (the `unwrap` there panics), reported as `Err` with the tileset error.
   */
  method New(ases: seq<(Path, AsepriteFile)>)
    returns (r: Result<AseAssets, Tilesets.TilesetError>, order: seq<AseId>)
    requires AllFilesValid(ases)
    ensures IsEnumeration(order, AsesById(ases).Keys)
    ensures Batch(AsesById(ases), order, r)
  {
    var m := AsesById(ases);
    order := Enumerate(m);
    InOrderValid(ases, order);
    ghost var files := InOrder(m, order);
    var sprites: seq<AA.SpriteData<Texture>> := [];
    var anims: seq<AA.AnimationData> := [];
    var tilesets := new TilesetsByKey();
    var i := 0;
    while i < |order|
      invariant 0 <= i <= |order|
      invariant AllValid(files[..i])
      invariant sprites == SpritesOf(files[..i]) && anims == AnimsOf(files[..i])
      invariant tilesets.Valid() && TilesetsOf(map[], files[..i]) == Ok(tilesets.table)
    {
      var f := m[order[i]];
      assert f == files[i];
      ProcessedStep(files, i);
      var offset := |sprites|;
      sprites := PushFileSprites(sprites, f);
      anims := PushFileAnims(anims, f, offset);
      var err := tilesets.AddAse(f);
      if err.Some? {
        TilesetsErrorStops(files, i + 1);
        r := Err(err.value);
        return;
      }
      i := i + 1;
    }
    assert files[..i] == files;
    r := Ok(AseAssets(sprites, anims, tilesets.table));
  }

  /**
   * The body of a loader task: the batch of `AseAssets::new` over the
   * documents, taken in some order of their ids, or the error that makes the
   * task panic; a finished batch's animations refer only to its own sprites.
   */
  method RunBatch(ases: seq<(Path, AsepriteFile)>) returns (r: Result<AseAssets, Tilesets.TilesetError>)
    requires AllFilesValid(ases)
    ensures r.Ok? ==> SpriteIdsBelow(r.value.anims, |r.value.sprites|)
    ensures exists order :: IsEnumeration(order, AsesById(ases).Keys) && Batch(AsesById(ases), order, r)
  {
    var order;
    r, order := New(ases);
    AnimsWithinSprites(InOrder(AsesById(ases), order));
  }


  /** Processing one more file appends its sprites, animations and tilesets. */
  lemma ProcessedStep(files: seq<AseKeyed>, i: nat)
    requires i < |files| && AllValid(files[..i]) && files[i].file.Valid()
    ensures AllValid(files[..i + 1])
    ensures SpritesOf(files[..i + 1]) == SpritesOf(files[..i]) + FileSprites(files[i])
    ensures AnimsOf(files[..i + 1]) == AnimsOf(files[..i]) + FileAnims(files[i], |SpritesOf(files[..i])|)
    ensures TilesetsOf(map[], files[..i + 1])
      == var before := TilesetsOf(map[], files[..i]);
         var c := ConvertTilesets(files[i], files[i].file.tilesets);
         if before.Err? then before else if c.Err? then Err(c.error) else Ok(before.value + FromPairs(c.value))
  {
    SpritesStep(files, i);
    AnimsStep(files, i);
    assert files[..i + 1][..i] == files[..i];
  }

  lemma SpritesStep(files: seq<AseKeyed>, i: nat)
    requires i < |files| && AllValid(files[..i]) && files[i].file.Valid()
    ensures AllValid(files[..i + 1])
    ensures SpritesOf(files[..i + 1]) == SpritesOf(files[..i]) + FileSprites(files[i])
  {
    assert files[..i + 1][..i] == files[..i];
  }

  lemma AnimsStep(files: seq<AseKeyed>, i: nat)
    requires i < |files| && AllValid(files[..i]) && files[i].file.Valid()
    ensures AllValid(files[..i + 1])
    ensures AnimsOf(files[..i + 1]) == AnimsOf(files[..i]) + FileAnims(files[i], |SpritesOf(files[..i])|)
  {
    assert files[..i + 1][..i] == files[..i];
  }

  /** `for frame in 0..file.num_frames() { tmp_sprites.push(Sprite::new(file, frame)) }` */
  method PushFileSprites(sprites: seq<AA.SpriteData<Texture>>, f: AseKeyed)
    returns (r: seq<AA.SpriteData<Texture>>)
    requires f.file.Valid()
    ensures r == sprites + FileSprites(f)
  {
    r := sprites;
    var frame := 0;
    while frame < |f.file.frames|
      invariant 0 <= frame <= |f.file.frames|
      invariant r == sprites + FileSprites(f)[..frame]
    {
      r := r + [AA.NewSpriteData(f.file, frame)];
      assert FileSprites(f)[..frame + 1] == FileSprites(f)[..frame] + [AA.NewSpriteData(f.file, frame)];
      frame := frame + 1;
    }
    assert FileSprites(f)[..frame] == FileSprites(f);
  }

  /** The whole-file animation, then `AnimationData::from_tag` for each tag in tag order. */
  method PushFileAnims(anims: seq<AA.AnimationData>, f: AseKeyed, offset: nat)
    returns (r: seq<AA.AnimationData>)
    ensures r == anims + FileAnims(f, offset)
  {
    r := anims + [AA.NewAnimationData(f.path, f.file, offset)];
    var tag := 0;
    while tag < |f.file.tags|
      invariant 0 <= tag <= |f.file.tags|
      invariant r == anims + FileAnims(f, offset)[..1 + tag]
    {
      r := r + [AA.AnimationDataFromTag(f.path, offset, f.file.tags[tag])];
      assert FileAnims(f, offset)[..1 + tag + 1]
        == FileAnims(f, offset)[..1 + tag] + [AA.AnimationDataFromTag(f.path, offset, f.file.tags[tag])];
      tag := tag + 1;
    }
    assert FileAnims(f, offset)[..1 + tag] == FileAnims(f, offset);
  }

  /** Once a file's tilesets fail, the later files do not change the outcome. */
  lemma {:induction false} TilesetsErrorStops(files: seq<AseKeyed>, n: nat)
    requires n <= |files|
    requires TilesetsOf(map[], files[..n]).Err?
    ensures TilesetsOf(map[], files) == TilesetsOf(map[], files[..n])
    decreases |files| - n
  {
    if n < |files| {
      var pre := files[..|files| - 1];
      assert pre[..n] == files[..n];
      TilesetsErrorStops(pre, n);
      TilesetsErrorStep(files);
      assert TilesetsOf(map[], files) == TilesetsOf(map[], pre) == TilesetsOf(map[], files[..n]);
    } else {
      assert files[..n] == files;
    }
  }

  lemma TilesetsErrorStep(files: seq<AseKeyed>)
    requires files != [] && TilesetsOf(map[], files[..|files| - 1]).Err?
    ensures TilesetsOf(map[], files) == TilesetsOf(map[], files[..|files| - 1])
  {
  }

  // ---------------------------------------------------------------------------
  // What a batch holds

  /** The frame count of the file under an id. */
  function FrameCount(m: map<AseId, AseKeyed>): AseId -> nat {
    id => if id in m then |m[id].file.frames| else 0
  }

  /** The animation count of the file under an id: one for the file, one per tag. */
  function AnimCount(m: map<AseId, AseKeyed>): AseId -> nat {
    id => if id in m then 1 + |m[id].file.tags| else 0
  }

  /** The total frame count of the input files. */
  function InputFrames(ases: seq<(Path, AsepriteFile)>): nat
    decreases |ases|
  {
    if ases == [] then 0 else InputFrames(ases[..|ases| - 1]) + |ases[|ases| - 1].1.frames|
  }

  /** The total animation count of the input files. */
  function InputAnims(ases: seq<(Path, AsepriteFile)>): nat
    decreases |ases|
  {
    if ases == [] then 0 else InputAnims(ases[..|ases| - 1]) + 1 + |ases[|ases| - 1].1.tags|
  }

  lemma InOrderPrefix(m: map<AseId, AseKeyed>, order: seq<AseId>, n: nat)
    requires forall i :: 0 <= i < |order| ==> order[i] in m
    requires n <= |order|
    ensures InOrder(m, order[..n]) == InOrder(m, order)[..n]
  {
  }

  /** Visiting the ids in `order` yields one sprite per frame of each visited file. */
  lemma {:induction false} SpriteCount(m: map<AseId, AseKeyed>, order: seq<AseId>)
    requires forall i :: 0 <= i < |order| ==> order[i] in m
    requires AllValid(InOrder(m, order))
    ensures |SpritesOf(InOrder(m, order))| == SumOf(order, FrameCount(m))
    ensures |AnimsOf(InOrder(m, order))| == SumOf(order, AnimCount(m))
    decreases |order|
  {
    if order != [] {
      var n := |order| - 1;
      var files := InOrder(m, order);
      InOrderPrefix(m, order, n);
      assert AllValid(files[..n]);
      SpriteCount(m, order[..n]);
    }
  }

  /** The ids `AseId(0), ..., AseId(n - 1)`, in order. */
  function IdsUpTo(n: nat): (r: seq<AseId>)
    requires n <= U32_MODULUS
    ensures |r| == n && forall i :: 0 <= i < n ==> r[i] == AseId(i)
  {
    seq(n, i requires 0 <= i < n => AseId(i))
  }

  /** `m` holds the `i`-th input file under `AseId(i)`, for every `i < n`. */
  predicate IdsHold(m: map<AseId, AseKeyed>, ases: seq<(Path, AsepriteFile)>, n: nat)
    requires n <= |ases| && n <= U32_MODULUS
  {
    forall i :: 0 <= i < n ==> AseId(i) in m && m[AseId(i)].file == ases[i].1
  }

  lemma IdsHoldInputs(ases: seq<(Path, AsepriteFile)>)
    requires |ases| <= U32_MODULUS
    ensures IdsHold(AsesById(ases), ases, |ases|)
  {
    forall i | 0 <= i < |ases|
      ensures AseId(i) in AsesById(ases) && AsesById(ases)[AseId(i)].file == ases[i].1
    {
      AsesByIdEntries(ases, i);
    }
  }

  /** In the id order `[AseId(0), AseId(1), ...]` the frame counts add up to those of the input files. */
  lemma {:induction false} InputOrderFrames(m: map<AseId, AseKeyed>, ases: seq<(Path, AsepriteFile)>, n: nat)
    requires n <= |ases| && n <= U32_MODULUS && IdsHold(m, ases, n)
    ensures SumOf(IdsUpTo(n), FrameCount(m)) == InputFrames(ases[..n])
    decreases n
  {
    if n > 0 {
      InputOrderFrames(m, ases, n - 1);
      var f := FrameCount(m);
      assert f(AseId(n - 1)) == |ases[n - 1].1.frames|;
      assert IdsUpTo(n)[..n - 1] == IdsUpTo(n - 1);
      assert ases[..n][..n - 1] == ases[..n - 1];
    }
  }

  /** In the id order the animation counts add up to those of the input files. */
  lemma {:induction false} InputOrderAnims(m: map<AseId, AseKeyed>, ases: seq<(Path, AsepriteFile)>, n: nat)
    requires n <= |ases| && n <= U32_MODULUS && IdsHold(m, ases, n)
    ensures SumOf(IdsUpTo(n), AnimCount(m)) == InputAnims(ases[..n])
    decreases n
  {
    if n > 0 {
      InputOrderAnims(m, ases, n - 1);
      var f := AnimCount(m);
      assert f(AseId(n - 1)) == 1 + |ases[n - 1].1.tags|;
      assert IdsUpTo(n)[..n - 1] == IdsUpTo(n - 1);
      assert ases[..n][..n - 1] == ases[..n - 1];
    }
  }

  /** The ids `AseId(0) ..< AseId(|ases|)` are an order of the id map's keys. */
  lemma IdsEnumerate(ases: seq<(Path, AsepriteFile)>)
    requires |ases| <= U32_MODULUS
    ensures IsEnumeration(IdsUpTo(|ases|), AsesById(ases).Keys)
  {
    var ids := IdsUpTo(|ases|);
    AsesByIdKeys(ases);
    forall k | k in AsesById(ases).Keys
      ensures k in ids
    {
      var i :| 0 <= i < |ases| && k == AseId(i);
      assert ids[i] == k;
    }
  }

  /**
   * Whatever order the id map is visited in, a batch holds one sprite per frame
   * of its input files and one animation per file and per tag.
   */
  lemma BatchCounts(ases: seq<(Path, AsepriteFile)>, order: seq<AseId>)
    requires |ases| <= U32_MODULUS
    requires IsEnumeration(order, AsesById(ases).Keys)
    requires AllValid(InOrder(AsesById(ases), order))
    ensures |SpritesOf(InOrder(AsesById(ases), order))| == InputFrames(ases)
    ensures |AnimsOf(InOrder(AsesById(ases), order))| == InputAnims(ases)
  {
    IdsEnumerate(ases);
    IdsHoldInputs(ases);
    CountsInAnyOrder(AsesById(ases), ases, order);
  }

  /** The counts of `BatchCounts`, for any id map that holds the input files under their indices. */
  lemma CountsInAnyOrder(m: map<AseId, AseKeyed>, ases: seq<(Path, AsepriteFile)>, order: seq<AseId>)
    requires |ases| <= U32_MODULUS && IdsHold(m, ases, |ases|)
    requires IsEnumeration(order, m.Keys) && IsEnumeration(IdsUpTo(|ases|), m.Keys)
    requires AllValid(InOrder(m, order))
    ensures |SpritesOf(InOrder(m, order))| == InputFrames(ases)
    ensures |AnimsOf(InOrder(m, order))| == InputAnims(ases)
  {
    var ids := IdsUpTo(|ases|);
    SpriteCount(m, order);
    SumOfEnumerations(order, ids, m.Keys, FrameCount(m));
    SumOfEnumerations(order, ids, m.Keys, AnimCount(m));
    InputOrderFrames(m, ases, |ases|);
    InputOrderAnims(m, ases, |ases|);
    assert ases[..|ases|] == ases;
  }

  /** The sprites of the earlier files come first. */
  lemma {:induction false} SpritesOfPrefix(files: seq<AseKeyed>, n: nat)
    requires AllValid(files) && n <= |files|
    ensures AllValid(files[..n])
    ensures |SpritesOf(files[..n])| <= |SpritesOf(files)|
    ensures SpritesOf(files[..n]) == SpritesOf(files)[..|SpritesOf(files[..n])|]
    decreases |files| - n
  {
    if n == |files| {
      assert files[..n] == files;
    } else {
      var k := |files| - 1;
      var pre := files[..k];
      assert pre[..n] == files[..n];
      assert AllValid(pre);
      SpritesOfPrefix(pre, n);
      SpritesStep(files, k);
      assert files[..k + 1] == files;
      PrefixOfPrefix(SpritesOf(pre), SpritesOf(files), |SpritesOf(files[..n])|);
    }
  }

  /** A prefix of a prefix of `whole` is a prefix of `whole`. */
  lemma PrefixOfPrefix<T>(part: seq<T>, whole: seq<T>, l: nat)
    requires |part| <= |whole| && part == whole[..|part|] && l <= |part|
    ensures part[..l] == whole[..l]
  {
  }

  /** The animations of the earlier files come first. */
  lemma {:induction false} AnimsOfPrefix(files: seq<AseKeyed>, n: nat)
    requires AllValid(files) && n <= |files|
    ensures AllValid(files[..n])
    ensures |AnimsOf(files[..n])| <= |AnimsOf(files)|
    ensures AnimsOf(files[..n]) == AnimsOf(files)[..|AnimsOf(files[..n])|]
    decreases |files| - n
  {
    if n == |files| {
      assert files[..n] == files;
    } else {
      var k := |files| - 1;
      var pre := files[..k];
      assert pre[..n] == files[..n];
      assert AllValid(pre);
      AnimsOfPrefix(pre, n);
      AnimsStep(files, k);
      assert files[..k + 1] == files;
      PrefixOfPrefix(AnimsOf(pre), AnimsOf(files), |AnimsOf(files[..n])|);
    }
  }

  /**
   * The `k`-th visited file's sprites are the block that starts at `offset`,
   * the number of sprites before it: its frame `f` is the sprite at
   * `offset + f` (`FileSprites`).
   */
  lemma SpritePlacement(files: seq<AseKeyed>, k: nat)
    requires AllValid(files) && k < |files|
    ensures AllValid(files[..k])
    ensures var offset := |SpritesOf(files[..k])|;
      && offset + |files[k].file.frames| <= |SpritesOf(files)|
      && SpritesOf(files)[offset..offset + |files[k].file.frames|] == FileSprites(files[k])
  {
    assert AllValid(files[..k]);
    SpritesOfPrefix(files, k + 1);
    SpritesStep(files, k);
    BlockOfPrefix(SpritesOf(files), SpritesOf(files[..k]), FileSprites(files[k]));
  }

  /**
   * The `k`-th visited file's animations are the block that starts at the
   * number of animations before it: the whole-file one first, then one per
   * tag, all over sprites counted from the number of sprites before the file
   * (`FileAnims`).
   */
  lemma AnimPlacement(files: seq<AseKeyed>, k: nat)
    requires AllValid(files) && k < |files|
    ensures AllValid(files[..k])
    ensures var a := |AnimsOf(files[..k])|; var offset := |SpritesOf(files[..k])|;
      && a + 1 + |files[k].file.tags| <= |AnimsOf(files)|
      && AnimsOf(files)[a..a + 1 + |files[k].file.tags|] == FileAnims(files[k], offset)
  {
    assert AllValid(files[..k]);
    AnimsOfPrefix(files, k + 1);
    AnimsStep(files, k);
    var pre, own := AnimsOf(files[..k]), FileAnims(files[k], |SpritesOf(files[..k])|);
    BlockOfPrefix(AnimsOf(files), pre, own);
    assert |pre| + |own| == |pre| + 1 + |files[k].file.tags|;
  }

  /** When `pre + own` starts `whole`, `own` is the block of `whole` right after `pre`. */
  lemma BlockOfPrefix<T>(whole: seq<T>, pre: seq<T>, own: seq<T>)
    requires |pre + own| <= |whole| && pre + own == whole[..|pre + own|]
    ensures whole[|pre|..|pre| + |own|] == own
  {
    assert whole[|pre|..|pre| + |own|] == (pre + own)[|pre|..];
  }

  /** Every sprite index of every animation is below `n`. */
  predicate SpriteIdsBelow(anims: seq<AA.AnimationData>, n: nat) {
    forall k, j :: 0 <= k < |anims| && 0 <= j < |anims[k].sprites| ==> anims[k].sprites[j] < n
  }

  /** Every animation of a batch refers only to sprites of the batch (`tmp_sprites[sprite_id]` never panics). */
  lemma {:induction false} AnimsWithinSprites(files: seq<AseKeyed>)
    requires AllValid(files)
    ensures SpriteIdsBelow(AnimsOf(files), |SpritesOf(files)|)
    decreases |files|
  {
    if files != [] {
      var n := |files| - 1;
      var pre := files[..n];
      assert AllValid(pre);
      AnimsWithinSprites(pre);
      var offset := |SpritesOf(pre)|;
      FileAnimsWithinFile(files[n], offset);
      assert |SpritesOf(files)| == offset + |files[n].file.frames|;
      SpriteIdsBelowAppend(AnimsOf(pre), FileAnims(files[n], offset), offset, |SpritesOf(files)|);
    }
  }

  /** A file's animations refer only to its own sprites, `offset ..< offset + frames`. */
  lemma FileAnimsWithinFile(f: AseKeyed, offset: nat)
    requires f.file.Valid()
    ensures SpriteIdsBelow(FileAnims(f, offset), offset + |f.file.frames|)
  {
    var own := FileAnims(f, offset);
    forall k, j | 0 <= k < |own| && 0 <= j < |own[k].sprites|
      ensures own[k].sprites[j] < offset + |f.file.frames|
    {
      if k > 0 {
        AA.FromTagWithinFile(f.path, f.file, offset, k - 1);
        assert own[k].sprites[j] in own[k].sprites;
      }
    }
  }

  lemma SpriteIdsBelowAppend(a: seq<AA.AnimationData>, b: seq<AA.AnimationData>, m: nat, n: nat)
    requires SpriteIdsBelow(a, m) && m <= n && SpriteIdsBelow(b, n)
    ensures SpriteIdsBelow(a + b, n)
  {
    forall k, j | 0 <= k < |a + b| && 0 <= j < |(a + b)[k].sprites|
      ensures (a + b)[k].sprites[j] < n
    {
      if k >= |a| {
        assert (a + b)[k] == b[k - |a|];
      }
    }
  }

  // ---------------------------------------------------------------------------
  // Handing a batch to the engine

  /** The textures of the tilesets visited in `order`. */
  function TilesetTextures(t: map<Tilesets.TilesetKey, TilesetData>, order: seq<Tilesets.TilesetKey>): (r: seq<Texture>)
    requires forall i :: 0 <= i < |order| ==> order[i] in t
    ensures |r| == |order|
  {
    seq(|order|, i requires 0 <= i < |order| => t[order[i]].texture)
  }

  /** The stored tilesets, in the order visited; the `i`-th points at the `i`-th texture stored from `texBase` on. */
  function TilesetRecords(t: map<Tilesets.TilesetKey, TilesetData>, order: seq<Tilesets.TilesetKey>, texBase: nat)
    : (r: seq<Tilesets.Tileset>)
    requires forall i :: 0 <= i < |order| ==> order[i] in t
    ensures |r| == |order|
  {
    seq(|order|, i requires 0 <= i < |order| =>
      var d := t[order[i]];
      Tilesets.Tileset(Tilesets.TilesetKey(order[i].aseId, d.id), d.tileCount, d.tileSize, d.name, Handle(texBase + i)))
  }

  /**
   * The tileset loop of `move_into_bevy`: every tileset of the batch, in the
   * map's (unspecified) iteration order, has its texture and then itself stored.
   */
  method MoveTilesets(t: map<Tilesets.TilesetKey, TilesetData>, textures: Assets<Texture>,
                      tilesets: Assets<Tilesets.Tileset>)
    returns (order: seq<Tilesets.TilesetKey>)
    modifies textures, tilesets
    ensures IsEnumeration(order, t.Keys)
    ensures textures.items == old(textures.items) + TilesetTextures(t, order)
    ensures tilesets.items == old(tilesets.items) + TilesetRecords(t, order, |old(textures.items)|)
  {
    order := Enumerate(t);
    var i := 0;
    while i < |order|
      invariant 0 <= i <= |order|
      invariant textures.items == old(textures.items) + TilesetTextures(t, order[..i])
      invariant tilesets.items == old(tilesets.items) + TilesetRecords(t, order[..i], |old(textures.items)|)
    {
      var key := order[i];
      TilesetsSnoc(t, order, |old(textures.items)|, i);
      var _ := Tilesets.MoveIntoBevy(t[key], key.AseIdOf(), textures, tilesets);
      i := i + 1;
    }
    assert order[..i] == order;
  }

  lemma TilesetsSnoc(t: map<Tilesets.TilesetKey, TilesetData>, order: seq<Tilesets.TilesetKey>, texBase: nat, i: nat)
    requires forall j :: 0 <= j < |order| ==> order[j] in t
    requires i < |order|
    ensures TilesetTextures(t, order[..i + 1]) == TilesetTextures(t, order[..i]) + [t[order[i]].texture]
    ensures var d := t[order[i]];
      TilesetRecords(t, order[..i + 1], texBase)
      == TilesetRecords(t, order[..i], texBase)
         + [Tilesets.Tileset(Tilesets.TilesetKey(order[i].aseId, d.id), d.tileCount, d.tileSize, d.name, Handle(texBase + i))]
  {
    assert TilesetTextures(t, order[..i + 1]) == TilesetTextures(t, order[..i]) + [t[order[i]].texture];
    assert TilesetRecords(t, order[..i + 1], texBase)
      == TilesetRecords(t, order[..i], texBase) + TilesetRecords(t, order, texBase)[i..i + 1];
  }

  /** Every tileset of the batch is stored exactly once, keyed by itself. */
  lemma TilesetsStoredOnce(t: map<Tilesets.TilesetKey, TilesetData>, order: seq<Tilesets.TilesetKey>, texBase: nat)
    requires KeysMatch(t) && IsEnumeration(order, t.Keys)
    ensures forall i :: 0 <= i < |order| ==> TilesetRecords(t, order, texBase)[i].key == order[i]
    ensures forall k :: k in t <==> exists i :: 0 <= i < |order| && TilesetRecords(t, order, texBase)[i].key == k
    ensures forall i, j :: 0 <= i < j < |order| ==> TilesetRecords(t, order, texBase)[i].key != TilesetRecords(t, order, texBase)[j].key
    ensures |TilesetRecords(t, order, texBase)| == |t|
  {
    var r := TilesetRecords(t, order, texBase);
    forall i | 0 <= i < |order|
      ensures r[i].key == order[i]
    {
    }
    forall k | k in t
      ensures exists i :: 0 <= i < |order| && r[i].key == k
    {
      var i :| 0 <= i < |order| && order[i] == k;
      assert r[i].key == k;
    }
    EnumerationSize(order, t.Keys);
  }

  /** The textures of the sprites, in sprite order. */
  function SpriteTextures(sprites: seq<AA.SpriteData<Texture>>): (r: seq<Texture>)
    ensures |r| == |sprites|
  {
    seq(|sprites|, i requires 0 <= i < |sprites| => sprites[i].texture)
  }

  /** The handles a store hands out for `n` assets added when it holds `base`. */
  function HandlesFrom(base: nat, n: nat): (r: seq<Handle>)
    ensures |r| == n
    ensures forall i :: 0 <= i < n ==> r[i] == Handle(base + i)
  {
    seq(n, i requires 0 <= i < n => Handle(base + i))
  }

  /**
   * The runtime frame for sprite `sid`: the atlas, the slot the packer gave the
   * sprite's texture (`atlas_index as u32` truncates it), and the sprite's duration.
   */
  function FrameFor(sprites: seq<AA.SpriteData<Texture>>, atlasHandle: Handle, atlas: TextureAtlas,
                    packer: Packer, sid: nat): (r: Animate.Frame)
    requires sid < |sprites| == |atlas.packed|
    ensures r.sprite.atlas == atlasHandle && r.durationMs == sprites[sid].duration
    ensures TextureIndex(atlas, packer, atlas.packed[sid]).Some?
    ensures r.sprite.atlasIndex == TextureIndex(atlas, packer, atlas.packed[sid]).value % U32_MODULUS
  {
    var index := TextureIndex(atlas, packer, atlas.packed[sid]);
    Animate.Frame(Animate.Sprite(atlasHandle, index.value % U32_MODULUS), sprites[sid].duration)
  }

  /** The frames of one animation: one per sprite index, in order. */
  function FramesFor(anim: AA.AnimationData, sprites: seq<AA.SpriteData<Texture>>, atlasHandle: Handle,
                     atlas: TextureAtlas, packer: Packer): (r: seq<Animate.Frame>)
    requires |sprites| == |atlas.packed|
    requires forall j :: 0 <= j < |anim.sprites| ==> anim.sprites[j] < |sprites|
    ensures |r| == |anim.sprites|
  {
    seq(|anim.sprites|, j requires 0 <= j < |anim.sprites| => FrameFor(sprites, atlasHandle, atlas, packer, anim.sprites[j]))
  }

  /** The runtime animations of the batch, in the batch's order. */
  function AnimationsFor(anims: seq<AA.AnimationData>, sprites: seq<AA.SpriteData<Texture>>, atlasHandle: Handle,
                         atlas: TextureAtlas, packer: Packer): (r: seq<Animate.Animation>)
    requires |sprites| == |atlas.packed| && SpriteIdsBelow(anims, |sprites|)
    ensures |r| == |anims|
  {
    seq(|anims|, k requires 0 <= k < |anims| => Animate.Animation(FramesFor(anims[k], sprites, atlasHandle, atlas, packer)))
  }

  /** The `add_anim` calls of the batch: each animation's file and tag with the handle stored for it. */
  function Additions(anims: seq<AA.AnimationData>, base: nat): (r: seq<Animate.Addition>)
    ensures |r| == |anims|
  {
    seq(|anims|, k requires 0 <= k < |anims| => Animate.Addition(anims[k].file, anims[k].tag, Handle(base + k)))
  }

  /** `for sprite_id in tmp_anim.sprites { frames.push(...) }` */
  method BuildFrames(anim: AA.AnimationData, sprites: seq<AA.SpriteData<Texture>>, atlasHandle: Handle,
                     atlas: TextureAtlas, packer: Packer) returns (frames: seq<Animate.Frame>)
    requires |sprites| == |atlas.packed|
    requires forall j :: 0 <= j < |anim.sprites| ==> anim.sprites[j] < |sprites|
    ensures frames == FramesFor(anim, sprites, atlasHandle, atlas, packer)
  {
    frames := [];
    var j := 0;
    while j < |anim.sprites|
      invariant 0 <= j <= |anim.sprites|
      invariant frames == FramesFor(anim, sprites, atlasHandle, atlas, packer)[..j]
    {
      var sid := anim.sprites[j];
      var index := TextureIndex(atlas, packer, atlas.packed[sid]);
      frames := frames + [Animate.Frame(Animate.Sprite(atlasHandle, index.value % U32_MODULUS), sprites[sid].duration)];
      j := j + 1;
    }
  }

  /**
   * The stores after a batch's sprites and animations went in, from `tex0`,
   * `atl0`, `an0` and `info0`: one texture per sprite in sprite order, then the
   * packed image; exactly one atlas over those textures; one runtime animation
   * per record in record order; and each record registered under its file and
   * tag with the handle its animation got.
   */
  ghost predicate Packed(sprites: seq<AA.SpriteData<Texture>>, anims: seq<AA.AnimationData>, packer: Packer,
                         tex0: seq<Texture>, tex: seq<Texture>, atl0: seq<TextureAtlas>, atl: seq<TextureAtlas>,
                         an0: seq<Animate.Animation>, an: seq<Animate.Animation>,
                         info0: Animate.InfoState, info: Animate.InfoState)
    requires SpriteIdsBelow(anims, |sprites|) && info0.Valid()
  {
    var handles := HandlesFrom(|tex0|, |sprites|);
    var atlas := TextureAtlas(Handle(|tex0| + |sprites|), handles);
    && tex == tex0 + SpriteTextures(sprites) + [packer.image(handles)]
    && atl == atl0 + [atlas]
    && an == an0 + AnimationsFor(anims, sprites, Handle(|atl0|), atlas, packer)
    && info == Animate.AddAll(info0, Additions(anims, |an0|))
  }

  /**
   * The sprite half of `move_into_bevy`, shared with the older loader's
   * `finish_animations`: each sprite's texture is stored and added to the atlas
   * builder, the packed atlas and its image are stored, then every animation is
   * built over the atlas, stored and registered under its file and tag.
   */
  method PackAndRegister(sprites: seq<AA.SpriteData<Texture>>, anims: seq<AA.AnimationData>, packer: Packer,
                         animations: Assets<Animate.Animation>, animInfo: Animate.AnimationInfo,
                         textures: Assets<Texture>, atlases: Assets<TextureAtlas>)
    requires SpriteIdsBelow(anims, |sprites|)
    requires animInfo.State().Valid()
    modifies animations, animInfo, textures, atlases
    ensures Packed(sprites, anims, packer, old(textures.items), textures.items, old(atlases.items), atlases.items,
                   old(animations.items), animations.items, old(animInfo.State()), animInfo.State())
  {
    var handles := AddSpriteTextures(sprites, textures);
    var atlas := FinishAtlas(handles, packer, textures);
    var atlasHandle := atlases.Add(atlas);
    RegisterAnimations(anims, sprites, atlasHandle, atlas, packer, animations, animInfo);
  }

  /** Stores each sprite's texture in order; the handles are those the builder packs. */
  method AddSpriteTextures(sprites: seq<AA.SpriteData<Texture>>, textures: Assets<Texture>)
    returns (handles: seq<Handle>)
    modifies textures
    ensures handles == HandlesFrom(|old(textures.items)|, |sprites|)
    ensures textures.items == old(textures.items) + SpriteTextures(sprites)
  {
    handles := [];
    var i := 0;
    while i < |sprites|
      invariant 0 <= i <= |sprites|
      invariant handles == HandlesFrom(|old(textures.items)|, i)
      invariant textures.items == old(textures.items) + SpriteTextures(sprites[..i])
    {
      var h := textures.Add(sprites[i].texture);
      handles := handles + [h];
      assert SpriteTextures(sprites[..i + 1]) == SpriteTextures(sprites[..i]) + [sprites[i].texture];
      i := i + 1;
    }
    assert sprites[..i] == sprites;
  }

  /** The animation loop: builds, stores and registers each animation in order. */
  method RegisterAnimations(anims: seq<AA.AnimationData>, sprites: seq<AA.SpriteData<Texture>>,
                            atlasHandle: Handle, atlas: TextureAtlas, packer: Packer,
                            animations: Assets<Animate.Animation>, animInfo: Animate.AnimationInfo)
    requires |sprites| == |atlas.packed| && SpriteIdsBelow(anims, |sprites|)
    requires animInfo.State().Valid()
    modifies animations, animInfo
    ensures animations.items == old(animations.items) + AnimationsFor(anims, sprites, atlasHandle, atlas, packer)
    ensures animInfo.State() == Animate.AddAll(old(animInfo.State()), Additions(anims, |old(animations.items)|))
  {
    var base := |animations.items|;
    ghost var items0 := animations.items;
    ghost var info0 := animInfo.State();
    ghost var built := AnimationsFor(anims, sprites, atlasHandle, atlas, packer);
    ghost var adds := Additions(anims, base);
    var k := 0;
    while k < |anims|
      invariant 0 <= k <= |anims|
      invariant RegisteredUpTo(animations, animInfo, items0, info0, built, adds, k)
    {
      AnimationsForAt(anims, sprites, atlasHandle, atlas, packer, k);
      AdditionsAt(anims, base, k);
      RegisterNext(anims[k], sprites, atlasHandle, atlas, packer, animations, animInfo, items0, info0, built, adds, k);
      k := k + 1;
    }
    assert built[..k] == built && adds[..k] == adds;
  }

  /** The first `k` animations are stored and registered. */
  ghost predicate RegisteredUpTo(animations: Assets<Animate.Animation>, animInfo: Animate.AnimationInfo,
                                 items0: seq<Animate.Animation>, info0: Animate.InfoState,
                                 built: seq<Animate.Animation>, adds: seq<Animate.Addition>, k: nat)
    reads animations, animInfo
  {
    && k <= |built| && k <= |adds| && info0.Valid()
    && animations.items == items0 + built[..k]
    && animInfo.State() == Animate.AddAll(info0, adds[..k])
  }

  /** The step of the animation loop: the `k`-th animation is stored and registered. */
  method RegisterNext(anim: AA.AnimationData, sprites: seq<AA.SpriteData<Texture>>,
                      atlasHandle: Handle, atlas: TextureAtlas, packer: Packer,
                      animations: Assets<Animate.Animation>, animInfo: Animate.AnimationInfo,
                      ghost items0: seq<Animate.Animation>, ghost info0: Animate.InfoState,
                      ghost built: seq<Animate.Animation>, ghost adds: seq<Animate.Addition>, k: nat)
    requires |sprites| == |atlas.packed|
    requires forall j :: 0 <= j < |anim.sprites| ==> anim.sprites[j] < |sprites|
    requires RegisteredUpTo(animations, animInfo, items0, info0, built, adds, k)
    requires k < |built| && built[k] == Animate.Animation(FramesFor(anim, sprites, atlasHandle, atlas, packer))
    requires k < |adds| && adds[k] == Animate.Addition(anim.file, anim.tag, Handle(|items0| + k))
    modifies animations, animInfo
    ensures RegisteredUpTo(animations, animInfo, items0, info0, built, adds, k + 1)
  {
    ghost var before := animInfo.State();
    assert |animations.items| == |items0| + k;
    RegisterOne(anim, sprites, atlasHandle, atlas, packer, animations, animInfo);
    assert animInfo.State() == before.AddAnim(adds[k].path, adds[k].tag, adds[k].handle);
    AddAllSnoc(info0, adds, k);
    PrefixSnoc(items0, built, k);
  }

  /** One animation: its frames are built, it is stored, and its handle is registered. */
  method RegisterOne(anim: AA.AnimationData, sprites: seq<AA.SpriteData<Texture>>, atlasHandle: Handle,
                     atlas: TextureAtlas, packer: Packer,
                     animations: Assets<Animate.Animation>, animInfo: Animate.AnimationInfo)
    requires |sprites| == |atlas.packed|
    requires forall j :: 0 <= j < |anim.sprites| ==> anim.sprites[j] < |sprites|
    modifies animations, animInfo
    ensures animations.items == old(animations.items) + [Animate.Animation(FramesFor(anim, sprites, atlasHandle, atlas, packer))]
    ensures animInfo.State() == old(animInfo.State()).AddAnim(anim.file, anim.tag, Handle(|old(animations.items)|))
  {
    var frames := BuildFrames(anim, sprites, atlasHandle, atlas, packer);
    var handle := animations.Add(Animate.Animation(frames));
    animInfo.AddAnim(anim.file, anim.tag, handle);
  }

  lemma AnimationsForAt(anims: seq<AA.AnimationData>, sprites: seq<AA.SpriteData<Texture>>, atlasHandle: Handle,
                        atlas: TextureAtlas, packer: Packer, k: nat)
    requires |sprites| == |atlas.packed| && SpriteIdsBelow(anims, |sprites|) && k < |anims|
    ensures forall j :: 0 <= j < |anims[k].sprites| ==> anims[k].sprites[j] < |sprites|
    ensures AnimationsFor(anims, sprites, atlasHandle, atlas, packer)[k]
      == Animate.Animation(FramesFor(anims[k], sprites, atlasHandle, atlas, packer))
  {
  }

  lemma AdditionsAt(anims: seq<AA.AnimationData>, base: nat, k: nat)
    requires k < |anims|
    ensures Additions(anims, base)[k] == Animate.Addition(anims[k].file, anims[k].tag, Handle(base + k))
  {
  }

  lemma PrefixSnoc<T>(a: seq<T>, s: seq<T>, k: nat)
    requires k < |s|
    ensures a + s[..k + 1] == (a + s[..k]) + [s[k]]
  {
    assert s[..k + 1] == s[..k] + [s[k]];
  }

  lemma AddAllSnoc(s: Animate.InfoState, adds: seq<Animate.Addition>, k: nat)
    requires s.Valid() && k < |adds|
    ensures Animate.AddAll(s, adds[..k + 1]) == Animate.AddAll(s, adds[..k]).AddAnim(adds[k].path, adds[k].tag, adds[k].handle)
  {
    assert adds[..k + 1][..k] == adds[..k];
  }

  /**
   * `AseAssets::move_into_bevy`: the tilesets first, then the sprites, the atlas
   * and the animations; `tilesetOrder` is the order the tilesets were visited in.
   */
  method MoveIntoBevy(assets: AseAssets, packer: Packer,
                      animations: Assets<Animate.Animation>, animInfo: Animate.AnimationInfo,
                      textures: Assets<Texture>, atlases: Assets<TextureAtlas>,
                      tilesets: Assets<Tilesets.Tileset>)
    returns (tilesetOrder: seq<Tilesets.TilesetKey>)
    requires SpriteIdsBelow(assets.anims, |assets.sprites|)
    requires animInfo.State().Valid()
    modifies animations, animInfo, textures, atlases, tilesets
    ensures IsEnumeration(tilesetOrder, assets.tilesets.Keys)
    ensures tilesets.items == old(tilesets.items) + TilesetRecords(assets.tilesets, tilesetOrder, |old(textures.items)|)
    ensures Packed(assets.sprites, assets.anims, packer,
                   old(textures.items) + TilesetTextures(assets.tilesets, tilesetOrder), textures.items,
                   old(atlases.items), atlases.items, old(animations.items), animations.items,
                   old(animInfo.State()), animInfo.State())
  {
    tilesetOrder := MoveTilesets(assets.tilesets, textures, tilesets);
    PackAndRegister(assets.sprites, assets.anims, packer, animations, animInfo, textures, atlases);
  }
}
