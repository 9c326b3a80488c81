# bevy_ase, modelled in Dafny

bevy_ase imports Aseprite documents into the Bevy engine. A loader resource keeps
a to-do list of asset handles. Once every listed document has been decoded, the
loader hands the whole list to a background task as one batch and marks each
document `Processed`. The background job turns the batch into flat lists: one sprite per
frame, one animation record for each file and one for each tag, and the
tilesets keyed by file and tileset id. Finished batches wait in an outbox. A
system then moves them into the engine stores: it stores the textures and packs
one texture atlas per batch. It also builds the runtime animations and indexes
them by file path and tag in `AnimationInfo`. At play time a per-entity step
moves each sprite through its animation's frames using a millisecond game clock.
Sub-assets are named by label strings such as `FrameImage3` or
`Animation/walk`.

The model has one Dafny module per source file, plus three shared modules:

- `Common`: Option/Result, decimal rendering, collecting pairs into a map,
  HashMap iteration order, and sums over key orders.
- `Engine`: Bevy handles, append-only asset stores, textures, texture atlases,
  and an abstract atlas `Packer`.
- `Asefile`: the decoded document as plain data.

Classes hold the source's mutable state: the two loaders, the tileset table of a
batch, `AnimationInfo`, `AnimationById`, `GameTimer`, the asset index maps and
the asset stores. Their methods are proved against value-level specification
functions. Lemmas about those functions prove the properties the crate relies
on:

- The batch counters always account for every spawned batch.
- A batch holds one sprite per input frame and one animation per file and per
  tag, whatever order the files are visited in.
- Each file's sprites and animations sit in one contiguous block.
- Animations only refer to sprites of their own batch, for documents that
  satisfy `Asefile.AsepriteFile.Valid` (see "## Left out").
- Registration in `AnimationInfo` is last-wins.
- Label strings cannot collide, and the `{path}#{label}` form can be parsed
  back.

The background task pool is made explicit in the model:

- `running` holds the input of every spawned task that has not finished.
- `RunTask` is one of those tasks running to its end.
- A task whose tileset conversion fails panics (the `unwrap` in the
  non-generic `AseAssets::new` of src/processing.rs). Neither loader's own task
  body is part of this model: the newer loader calls `ResourceData::new` and
  the older one the generic `AseAssets::<Texture>::new`. Both are stood in for
  by `AseAssets::new`, and the same panic is assumed there. The model counts
  such a task in `crashed`.

Two things outside the crate become parameters: whether the outbox lock was
acquired, and whether the to-do handles are all loaded.

## Model

| member | source | states |
|---|---|---|
| Engine.Assets.Add | src/processing.rs:100 | the store gains exactly the given asset at its end and hands back the handle of that new slot |
| Engine.Assets.Get | src/processing.rs:101 | a handle resolves exactly when it names a slot of the store, and then to that slot's asset |
| Engine.Assets.Swap | src/loader.rs:186-187 | the asset behind the handle is replaced and the previous one returned; no other slot changes |
| Engine.FinishAtlas | src/processing.rs:111-113 | packing stores one new texture, the packed image, and returns an atlas over the added textures in order, pointing at that image |
| Engine.TextureIndex | src/processing.rs:122 | a texture has an atlas slot exactly when it was added to the atlas |
| Asefile.AsepriteFile.TilesetImage | src/tileset.rs:46 | the image lookup fails with MissingTilesetId for an unknown id and NoPixelsInTileset for an id without pixels, and succeeds otherwise |
| AseIds.NewAseId | src/ase.rs:9-14 | `AseId::new(x).inner()` is x |
| AseIds.ShowAseId | src/ase.rs:16-20 | the id is displayed as `AseId(` followed by its decimal value and `)` |
| AseIds.ShowAseIdInjective | src/ase.rs:16-20 | two ids with the same display are the same id |
| AseIds.IdOf | src/ase.rs:43 | the position cast `idx as u32` is the position itself for every position below 2^32 |
| AseIds.KeyedPairs | src/ase.rs:40-46 | the i-th pair is keyed by the i-th id and holds the i-th input's path and file |
| AseIds.AsesById | src/ase.rs:37-50 | every entry's `AseKeyed.id` is its own key |
| AseIds.AsesByIdFromInputs | src/ase.rs:42-45 | every entry holds the path and file of some input |
| AseIds.KeyedPairsPrefix | src/ase.rs:40-46 | numbering a prefix of the inputs gives a prefix of the numbered pairs |
| AseIds.AsesByIdKeys | src/ase.rs:40-47 | with at most 2^32 inputs the keys are exactly `AseId(0)` to `AseId(n-1)` |
| AseIds.AsesByIdEntries | src/ase.rs:42-45 | the entry under `AseId(i)` holds exactly the path and file of input i |
| AseIds.AsesByIdSize | src/ase.rs:40-47 | n inputs, n at most 2^32, give a map of exactly n entries |
| AseAssetData.AseAsset.File | src/asset/ase.rs:31-37 | `file()` is Some exactly when the data is `Loaded`, and then it is the loaded document |
| AseAssetData.MarkProcessed | src/loader.rs:186-187 | swapping in `Processed` keeps the asset's name and leaves no document behind |
| AseAssetData.ProcessingIsFinal | src/asset/ase.rs:45-48 | a processed asset stays processed and never yields a document again |
| AseAssetData.Swept | src/loader.rs:175-192 | after the sweep exactly the assets named by a to-do handle are processed; all other assets are untouched |
| AseAssetData.TakenIsFirstLoaded | src/loader.rs:189-191 | the documents taken are, in to-do order, those of the handles whose asset was still loaded, so a repeated handle contributes once |
| AseAssetData.TakenValid | src/loader.rs:175-192 | every document taken is one the decoder produced |
| AseAssetData.SweepStep | src/loader.rs:176-191 | one step of the sweep processes the handle's asset and takes its document only if it was still loaded |
| AseAssetData.TakeLoaded | src/loader.rs:175-192 | the sweep loop leaves the store swept and returns exactly the documents taken |
| Timer.FromMillis | src/timer.rs:13-15 | `from_millis(m)` stores m |
| Timer.AddMillis | src/timer.rs:17-19 | `add_millis(m)` raises the stamp by exactly m, so strictly for a positive m |
| Timer.GameTimer.Default | src/timer.rs:27-34 | a fresh timer holds 1 ms of duration and time 1 |
| Timer.GameTimer.AddDt | src/timer.rs:37-40 | the duration grows by dt, and time is the whole milliseconds of the duration; time never decreases and is never ZERO |
| Timer.GameTimer.Time | src/timer.rs:42-44 | the timer reports its stamp, which is at least 1 ms |
| AnimationAsset.NewAnimation | src/asset/animation.rs:19-31 | `frames()` and `atlas()` give back exactly what `Animation::new` was given |
| AnimationAsset.NewSpriteData | src/asset/animation.rs:47-65 | the sprite records the frame index and that frame's duration, and its texture has the document's size and the frame's pixels |
| AnimationAsset.NewAnimationData | src/asset/animation.rs:84-92 | the whole-file record keeps the path, has no tag, and lists `offset + i` for each frame i in order |
| AnimationAsset.AnimationDataFromTag | src/asset/animation.rs:93-101 | a tag's record keeps the path and the tag name, and lists `offset + from + i`; its length is `to - from + 1` when from is at most to, and 0 otherwise |
| AnimationAsset.FromTagCovers | src/asset/animation.rs:97-99 | a tag's record shows a sprite iff the sprite lies between the shifted ends, both included |
| AnimationAsset.FromTagWithinFile | src/asset/animation.rs:97-99 | when the tag lies within the frames, every sprite of its record belongs to the file's block |
| AnimationRecord.NewAnimation | src/animation.rs:11-19 | the older whole-file record keeps the path, has no tag, and lists every frame shifted by the offset, in order |
| AnimationRecord.AnimationFromTag | src/animation.rs:20-28 | the older tag record keeps the path and the tag name, and lists the frames `from ..= to` shifted by the offset |
| AnimationRecord.AgreesWithAnimationData | src/animation.rs:10-29 | both generations of the record build the same data from the same inputs |
| Animate.InfoState.Lookup | src/animate.rs:27-31 | `lookup` is None exactly for an unknown path, and otherwise the handle at the path's default index |
| Animate.InfoState.LookupWithTag | src/animate.rs:34-38 | `lookup_with_tag` is None when the path or the tag is unknown, and otherwise the handle at the tag's index |
| Animate.InfoState.AddAnim | src/animate.rs:40-52 | `add_anim` appends the handle, adds the path to the names, and leaves the entries of other paths unchanged |
| Animate.AddAnimValid | src/animate.rs:40-52 | `add_anim` keeps every recorded index pointing at an added handle, or at the `usize::MAX` sentinel |
| Animate.AddAnimLastWins | src/animate.rs:40-52 | after `add_anim` the path and tag look up the new handle, whatever was there before, and earlier handles keep their positions |
| Animate.AddAll | src/processing.rs:131-132 | a sequence of `add_anim` calls keeps the index valid, adds one handle per call, and never forgets a path |
| Animate.AddAllKnowsAddedPaths | src/animate.rs:43-46 | after a sequence of `add_anim` calls the known paths are the earlier ones plus the added ones |
| Animate.AddAllTagLookup | src/animate.rs:47-48 | after a sequence of `add_anim` calls a tag lookup gives the last handle added under that path and tag, or else the earlier answer |
| Animate.AddAllDefaultLookup | src/animate.rs:43-50 | after a sequence of `add_anim` calls a path keeps the `usize::MAX` sentinel iff it got no default; when it got one, `lookup` gives the last such handle |
| Animate.Built | src/animate.rs:19-23 | the index built from the empty `AnimationInfo` is valid and holds one handle per call |
| Animate.BuiltKnowsAddedPaths | src/animate.rs:43-46 | from empty, the known paths are exactly the added ones |
| Animate.BuiltDefaultLookup | src/animate.rs:43-50 | from empty, a path has the sentinel default iff no default was added for it; otherwise `lookup` gives the last one |
| Animate.AnimationInfo.constructor | src/animate.rs:19-23 | a default `AnimationInfo` is empty |
| Animate.AnimationInfo.AddAnim | src/animate.rs:40-52 | the in-place `add_anim` leaves exactly the state of the value-level `add_anim` |
| Animate.NewPlayAnimation | src/animate.rs:66-74 | new playback starts at frame 0 with end ZERO, playing and looping |
| Animate.Advance | src/animate.rs:109-129 | the loop stays within the frames and never moves the end backwards; while playing it reaches t; it stops playing only if not looping; it initialises exactly an end of ZERO below t, to t plus the frame's duration; otherwise the frame reached is the one on screen at t |
| Animate.AnimateEntity | src/animate.rs:94-135 | the step changes nothing when not playing, when the end is not before t, or when the animation is missing; otherwise it stores the loop's frame, end and playing flag, and updates the sprite index exactly on init or a frame change; afterwards it is stopped or its end reaches t |
| AnimId.Resolve | src/anim_id.rs:48-52 | an id resolves through `lookup_with_tag` when its name has a tag, and through `lookup` otherwise |
| AnimId.Entry | src/anim_id.rs:56-66 | the entry holds the handle, the atlas index of every frame in frame order, and the atlas of frame 0 |
| AnimId.InitializedEntries | src/anim_id.rs:44-76 | a listed id that resolves gets the entry of its animation; an unlisted or unresolved id keeps its previous entry, or stays absent |
| AnimId.AnimationById.constructor | src/anim_id.rs:26-32 | a default table is empty |
| AnimId.AnimationById.Initialize | src/anim_id.rs:38-77 | the loop leaves exactly the table that resolving every id in order gives |
| AnimId.AnimationById.Get | src/anim_id.rs:79-98 | `get` spawns with the first frame's atlas index, the entry's atlas, and fresh playback of the entry's animation |
| AnimId.AnimationById.Sprite | src/anim_id.rs:100-108 | `sprite(id, frame)` gives that frame's atlas index and the entry's atlas |
| AssetIndex.AseAssetMap.constructor | src/asset/asset_index.rs:45-52 | a default map has no entries and the default atlas handle |
| AssetIndex.AseAssetMap.Animation | src/asset/asset_index.rs:55-57 | the lookup finds exactly the stored names, and gives the handle stored under the name |
| AssetIndex.AseAssetMap.Slice | src/asset/asset_index.rs:59-61 | the lookup finds exactly the stored names, and gives the handle stored under the name |
| AssetIndex.AseAssetMap.Tileset | src/asset/asset_index.rs:63-65 | the lookup finds exactly the stored ids, and gives the handle stored under the id |
| AssetIndex.AseAssetMap.Texture | src/asset/asset_index.rs:67-69 | the lookup finds exactly the stored frame indices, and gives the handle stored under the index |
| AssetIndex.AseAssetMap.InsertAnimation | src/asset/asset_index.rs:76-78 | after the insert the name gives the new handle, replacing any earlier one; other names and the other maps are unchanged |
| AssetIndex.AseAssetMap.InsertTileset | src/asset/asset_index.rs:79-81 | after the insert the id gives the new handle; other ids and the other maps are unchanged |
| AssetIndex.AseAssetMap.InsertSlice | src/asset/asset_index.rs:82-84 | after the insert the name gives the new handle; other names and the other maps are unchanged |
| AssetIndex.AseAssetMap.InsertTexture | src/asset/asset_index.rs:85-87 | after the insert the frame index gives the new handle; other indices and the other maps are unchanged |
| AssetIndex.AseAssetMap.InsertAtlas | src/asset/asset_index.rs:88-90 | after the insert `atlas()` is the new handle; the maps are unchanged |
| AssetIndex.AseFileMap.constructor | src/asset/asset_index.rs:122-123 | a default file map is empty |
| AssetIndex.AseFileMap.Get | src/asset/asset_index.rs:126-128 | `get` finds exactly the stored paths |
| AssetIndex.AseFileMap.GetMut | src/asset/asset_index.rs:129-132 | `get_mut` returns the existing map of a known path and changes nothing; for a new path it inserts and returns a fresh empty map, and other paths are unchanged |
| AssetIndex.AseFileMap.Animation | src/asset/asset_index.rs:134-136 | None when the path or the tag name is unknown, and otherwise the handle the file's map stores |
| AssetIndex.AseFileMap.Slice | src/asset/asset_index.rs:138-140 | None when the path or the slice name is unknown, and otherwise the handle the file's map stores |
| AssetIndex.AseFileMap.Tileset | src/asset/asset_index.rs:142-144 | None when the path or the tileset id is unknown, and otherwise the handle the file's map stores |
| HandleIds.Make | src/handle_id.rs:46-53 | the label is the kind followed by the suffix, or the kind alone when there is no suffix, on the given path |
| HandleIds.AnimationPath | src/handle_id.rs:77-79 | the animation label is `Animation/` followed by the tag name |
| HandleIds.FrameImagePath | src/handle_id.rs:98-100 | the frame-image label is `FrameImage` followed by the decimal frame index |
| HandleIds.AtlasPath | src/handle_id.rs:117-119 | the atlas label is exactly `Atlas` |
| HandleIds.TilesetPath | src/handle_id.rs:138-140 | the tileset label is `Tileset` followed by the decimal tileset id |
| HandleIds.TilesetImagePath | src/handle_id.rs:159-161 | the tileset-image label is `TilesetImage` followed by the decimal tileset id |
| HandleIds.SlicePath | src/handle_id.rs:185-187 | the slice label is `Slice/` followed by the slice name |
| HandleIds.LabelHead | src/handle_id.rs:46-53 | every sub-asset label is non-trivial and starts with the first letter of its kind |
| HandleIds.TilesetKindsDiffer | src/handle_id.rs:138-161 | no tileset label equals a tileset-image label |
| HandleIds.SubAssetPathInjective | src/handle_id.rs:1-13 | two sub-assets with the same asset path are the same sub-asset on the same path string (paths compared as strings) |
| HandleIds.ParseFullForm | src/handle_id.rs:27-30 | the path parsed from a full form has no `#` |
| HandleIds.FullFormRoundTrip | src/handle_id.rs:27-30 | for a path without `#`, `{path}#{label}` parses back to the path and the label |
| HandleIds.FrameImageExample | src/handle_id.rs:24-30 | the doc-comment example: frame 0 of `assets/my_file.aseprite` has the full form `assets/my_file.aseprite#FrameImage0` |
| Tilesets.NewTilesetId | src/tileset.rs:62-72 | `TilesetId::new(x)` gives back x through `inner` and through `into_inner` |
| Tilesets.FromAseTilesetId | src/tileset.rs:73-77 | the conversion keeps the decoder's id value |
| Tilesets.ShowTilesetId | src/tileset.rs:78-82 | the id is displayed as `TilesetId(` followed by its decimal value and `)` |
| Tilesets.ShowTilesetIdInjective | src/tileset.rs:78-82 | two tileset ids with the same display are equal |
| Tilesets.ShowTilesetError | src/tileset.rs:18-28 | each variant is displayed as its own message followed by the displayed id |
| Tilesets.MessagesDiffer | src/tileset.rs:21-26 | the two error messages never produce the same text |
| Tilesets.ShowTilesetErrorInjective | src/tileset.rs:18-28 | two errors with the same display are the same error |
| Tilesets.FromImageError | src/tileset.rs:30-42 | the conversion maps a missing id to `MissingId` and missing pixels to `NoPixels`, and keeps the id |
| Tilesets.NewTilesetKey | src/tileset.rs:89-102 | the key's accessors give back the ids it was made of |
| Tilesets.ShowTilesetKey | src/tileset.rs:103-111 | the key is displayed as `TilesetKey(ase_id ` then the displayed file id, `, tileset_id `, the displayed tileset id and `)` |
| Tilesets.ShowTilesetKeyInjective | src/tileset.rs:103-111 | two tileset keys with the same display are equal |
| Tilesets.TilesetKeyRendering | src/tileset.rs:103-111 | the display is the fixed text around the decimal file id and the decimal tileset id |
| Tilesets.TileSizeFromAse | src/tileset.rs:118-124 | the tile size copies width and height |
| Tilesets.TilesetDataFromAse | src/tileset.rs:152-168 | the texture function's error is returned unchanged; otherwise the data holds its texture, the converted id, and the tile count, tile size and name of the tileset |
| Tilesets.TextureFrom | src/tileset.rs:44-58 | the texture fails exactly when the tileset image does, with the converted error; otherwise it has the image's size and pixels |
| Tilesets.FromAseWithTexture | src/tileset.rs:170-175 | the conversion fails exactly for a tileset without pixel data, with `MissingId` for an unknown id; on success it keeps the id and the name |
| Tilesets.MoveIntoBevy | src/tileset.rs:176-198 | exactly one texture and one tileset are stored; the tileset is keyed by the file id and its own id, points at the new texture, and keeps its other fields |
| Tilesets.TilesetsById | src/tileset.rs:204-208 | the collected map holds one entry per id in the pairs, and each id maps to its last pair |
| TilesetAsset.ShowTilesetError | src/asset/tileset.rs:16-27 | each variant is displayed as its own message followed by the displayed id |
| TilesetAsset.VariantsPrintDifferently | src/asset/tileset.rs:16-27 | a missing-id error and a no-pixels error never display the same |
| TilesetAsset.FromImageError | src/asset/tileset.rs:28-40 | the conversion keeps the variant kind and the id |
| TilesetAsset.TileSizeFromAse | src/asset/tileset.rs:66-73 | the tile size copies width and height |
| TilesetAsset.TextureSize | src/asset/tileset.rs:88-96 | the texture is one tile wide and `tile_count` tiles high, a vertical strip |
| TilesetAsset.TileWithinTexture | src/asset/tileset.rs:88-96 | every tile of the strip lies within the texture |
| TilesetAsset.TilesetDataFromAse | src/asset/tileset.rs:106-120 | the texture function's error is returned unchanged; otherwise the data holds its texture and the tile count, tile size and name |
| TilesetAsset.TextureFrom | src/asset/tileset.rs:42-56 | the texture fails exactly when the tileset image does, with the converted error; otherwise it has the image's size and pixels |
| TilesetAsset.FromAseWithTexture | src/asset/tileset.rs:121-127 | the conversion fails exactly for a tileset without pixel data, with the matching variant; on success it keeps the name and the tile count |
| TilesetAsset.MoveIntoBevy | src/asset/tileset.rs:128-147 | exactly one texture and one tileset are stored, and the tileset points at the new texture and keeps its fields |
| Slices.NewSliceId | src/slice.rs:12-18 | `SliceId::new(x).inner()` is x |
| Slices.ShowSliceId | src/slice.rs:20-24 | the id is displayed as `SliceId(` followed by its decimal value and `)` |
| Slices.NewSliceAseKey | src/slice.rs:32-45 | the key's accessors give back the ids it was made of |
| Slices.ShowSliceAseKey | src/slice.rs:46-50 | the key is displayed as `SliceKey (` then the displayed file id, `, `, the displayed slice id and `)` |
| Slices.ShowSliceAseKeyInjective | src/slice.rs:46-50 | two slice keys with the same display are equal |
| Slices.KeyRendering | src/slice.rs:46-50 | the key's display spelled out with both decimal numbers |
| Slices.SliceFromAse | src/slice.rs:66-79 | the slice has the given key and copies the name, the keys in order and the user data |
| SliceAsset.SliceFromAse | src/asset/slice.rs:17-29 | the slice copies the name, the keys in order, and the user data, present exactly when it is in the source |
| Processing.ConvertTilesets | src/processing.rs:23-33 | the conversion succeeds iff every tileset converts, giving one pair per tileset in order, keyed by the file id and the tileset id; otherwise it fails with the first failing tileset's error |
| Processing.TilesetsByKey.constructor | src/processing.rs:18-20 | a new table is empty |
| Processing.TilesetsByKey.AddAse | src/processing.rs:21-36 | all or nothing: on success every tileset of the file is added and a repeated key is overwritten; on failure the error is returned and the table is unchanged |
| Processing.FileSprites | src/processing.rs:60-62 | a file gives one sprite per frame, in frame order |
| Processing.FileAnims | src/processing.rs:63-67 | a file gives the whole-file animation first, then one per tag in tag order, all at the file's sprite offset |
| Processing.InOrder | src/processing.rs:55 | visiting the id map in an order yields one file per id |
| Processing.InOrderValid | src/processing.rs:51-55 | every file visited is one of the decoded inputs |
| Processing.New | src/processing.rs:50-75 | the files are visited in some order of the map's keys; the batch is every file's sprites, animations and tilesets in that order, or the first tileset error |
| Processing.RunBatch | src/processing.rs:50-75 | a task's batch is that of `AseAssets::new` in some key order, and its animations only refer to its own sprites |
| Processing.ProcessedStep | src/processing.rs:55-69 | one more file appends its sprites, its animations at the current sprite count, and its tilesets |
| Processing.SpritesStep | src/processing.rs:59-62 | one more file appends its sprites |
| Processing.AnimsStep | src/processing.rs:63-67 | one more file appends its animations at the current sprite count |
| Processing.PushFileSprites | src/processing.rs:60-62 | the frame loop appends exactly the file's sprites |
| Processing.PushFileAnims | src/processing.rs:63-67 | the pushes append exactly the file's animations |
| Processing.TilesetsErrorStops | src/processing.rs:68 | once a file's tilesets fail, later files do not change the outcome |
| Processing.SpriteCount | src/processing.rs:59-67 | in any visiting order there is one sprite per frame and one animation per file and per tag of the visited files |
| Processing.IdsUpTo | src/ase.rs:40-46 | the ids of the input positions, in order |
| Processing.IdsHoldInputs | src/ase.rs:42-45 | the id map holds input i under `AseId(i)` |
| Processing.InputOrderFrames | src/processing.rs:59-62 | in input order the frame counts add up to the input files' frames |
| Processing.InputOrderAnims | src/processing.rs:63-67 | in input order the animation counts add up to the input files' `1 + num_tags` |
| Processing.IdsEnumerate | src/ase.rs:40-47 | the input positions' ids are an order of the id map's keys |
| Processing.BatchCounts | src/processing.rs:55-67 | whatever order the map is visited in, the batch has one sprite per input frame and `1 + num_tags` animations per input file |
| Processing.CountsInAnyOrder | src/processing.rs:55-67 | the counts do not depend on the visiting order |
| Processing.SpritesOfPrefix | src/processing.rs:59-62 | the earlier files' sprites come first |
| Processing.AnimsOfPrefix | src/processing.rs:63-67 | the earlier files' animations come first |
| Processing.SpritePlacement | src/processing.rs:59-62 | the k-th file's sprites are the block starting at its `sprite_offset`, the number of sprites before it |
| Processing.AnimPlacement | src/processing.rs:63-67 | the k-th file's animations are the block right after the earlier files' animations, all over sprites counted from its `sprite_offset` |
| Processing.AnimsWithinSprites | src/processing.rs:120-121 | every sprite id of every animation is below the batch's sprite count, so `tmp_sprites[sprite_id]` is in range |
| Processing.FileAnimsWithinFile | src/processing.rs:63-67 | a file's animations refer only to its own sprites |
| Processing.TilesetTextures | src/processing.rs:87-90 | one texture per tileset visited |
| Processing.TilesetRecords | src/processing.rs:87-90 | one stored tileset per tileset visited |
| Processing.MoveTilesets | src/processing.rs:87-90 | the tilesets are visited in some order of their keys; each has its texture stored, then itself, pointing at that texture |
| Processing.TilesetsStoredOnce | src/processing.rs:87-90 | every tileset of the batch is stored exactly once, under its own key, and nothing else is stored |
| Processing.SpriteTextures | src/processing.rs:91-110 | one texture per sprite |
| Processing.HandlesFrom | src/processing.rs:100 | the handles the store gives to assets added in a row are consecutive |
| Processing.FrameFor | src/processing.rs:120-129 | a frame shows the batch atlas at the slot of its sprite's texture, cast to `u32`, for the sprite's duration |
| Processing.FramesFor | src/processing.rs:119-130 | one frame per sprite id of the animation |
| Processing.AnimationsFor | src/processing.rs:118-131 | one animation per record |
| Processing.Additions | src/processing.rs:131-132 | one registration per record, with its file, tag and the handle of its stored animation |
| Processing.BuildFrames | src/processing.rs:119-130 | the frame loop builds exactly the animation's frames |
| Processing.PackAndRegister | src/processing.rs:91-133 | one texture per sprite in sprite order, then the packed image; exactly one atlas over those textures; one animation per record in record order, each registered under its file and tag |
| Processing.AddSpriteTextures | src/processing.rs:91-110 | the sprite textures are stored in order and the handles the atlas builder gets are theirs |
| Processing.RegisterAnimations | src/processing.rs:118-133 | the animation loop stores every record's animation in order and registers each |
| Processing.RegisterNext | src/processing.rs:118-133 | one step of the animation loop stores and registers one more record |
| Processing.RegisterOne | src/processing.rs:119-132 | one record's frames are built, the animation stored, and its handle registered under the record's file and tag |
| Processing.MoveIntoBevy | src/processing.rs:76-134 | the tilesets first, each stored once, then the sprites, the atlas and the animations as in `PackAndRegister` |
| Loading.FinishKeepsAccounted | src/loader.rs:194-199 | a finishing task keeps the counter accounting for every spawned batch |
| Loading.Loader.Default | src/loader.rs:106-114 | a new loader has nothing to do, nothing in flight, and is loaded |
| Loading.Loader.Add | src/loader.rs:134-136 | `add` appends exactly the handle to the to-do list and changes nothing else |
| Loading.Loader.PendingCount | src/loader.rs:150-152 | the pending count is the number of batches running, crashed or in the outbox |
| Loading.Loader.IsLoaded | src/loader.rs:155-157 | loaded iff nothing waits, runs or sits in the outbox, and no batch was lost |
| Loading.Loader.SpawnTasks | src/loader.rs:164-201 | an empty to-do list changes nothing; otherwise the counter rises by one, the list is emptied, the store is swept, and exactly one batch of the taken documents is spawned |
| Loading.Loader.RunTask | src/loader.rs:194-199 | a finishing task pushes its batch to the outbox, or is counted as crashed; the counter keeps accounting for it |
| Loading.Loader.TakeFinished | src/loader.rs:203-218 | on contention None and nothing changes; once acquired the outbox is emptied, and Some of it is returned only if it was not empty |
| Loading.Loader.MoveFinishedIntoResources | src/loader.rs:220-227 | the counter drops by exactly the number of batches drained, the outbox ends empty once acquired, and nothing changes on contention or an empty outbox |
| Loading.ImportStep | src/loader.rs:253-287 | dispatch happens before draining: a batch spawned in this call is still running, and the counter changes by the spawned batch and the drained ones |
| LegacyLoading.FinishAnimations | src/aseloader.rs:174-227 | one texture per sprite in sprite order, then the packed image; exactly one atlas; one animation per record in record order, each registered under its file and tag |
| LegacyLoading.AsepriteLoader.Default | src/aseloader.rs:77-85 | a new loader has nothing to do, nothing in flight, and is loaded |
| LegacyLoading.AsepriteLoader.Add | src/aseloader.rs:88-90 | `add` appends exactly the handle and changes nothing else |
| LegacyLoading.AsepriteLoader.CheckPending | src/aseloader.rs:165-167 | the pending count is the number of batches running, crashed or in the outbox |
| LegacyLoading.AsepriteLoader.IsLoaded | src/aseloader.rs:169-171 | loaded iff nothing waits, runs or sits in the outbox, and no batch was lost |
| LegacyLoading.AsepriteLoader.SpawnTasks | src/aseloader.rs:102-137 | a no-op on an empty to-do list; otherwise the counter rises by one, the list is emptied, every listed asset becomes `Processed`, and one batch is spawned |
| LegacyLoading.AsepriteLoader.RunTask | src/aseloader.rs:130-136 | a finishing task pushes its batch to the outbox, or is counted as crashed |
| LegacyLoading.AsepriteLoader.ProcessFinished | src/aseloader.rs:139-163 | on contention or an empty outbox no counter or store changes; otherwise the outbox is drained and the counter drops once per batch |
| LegacyLoading.LoaderStep | src/aseloader.rs:229-247 | spawning comes before processing, so a batch spawned in this call is not among those finished |

## Left out

- Concurrency: `AsyncComputeTaskPool`, `Arc<Mutex<..>>`, `AtomicU32` and `task.detach()` are left out. Tasks run one at a time, and only when `RunTask` is called. The lock outcome and the group load state are boolean parameters.
- Loading.Loader.RunTask and LegacyLoading.AsepriteLoader.RunTask: a panicking task (the tileset `unwrap` of the stand-in `AseAssets::new`, assumed for both task bodies; see the next two lines) is modelled as the batch being counted in `crashed`. The real counter just stays raised for ever, and the model's `IsLoaded` is false for the same reason.
- Loading.Loader.RunTask: the source's task body is `processing::ResourceData::new` (src/loader.rs:195), which is not part of this model. `Processing.RunBatch` (`AseAssets::new`) stands in for it, and its tileset panic is assumed to carry over.
- LegacyLoading.AsepriteLoader.RunTask: the source's task body is the generic `processing::AseAssets::<Texture>::new` (src/aseloader.rs:132), whose definition is not part of this model (src/processing.rs:44 defines a non-generic `AseAssets`). `Processing.RunBatch` (`AseAssets::new`) stands in for it, and its tileset panic is assumed to carry over.
- Loading.Loader.PendingCount and LegacyLoading.AsepriteLoader.CheckPending: the `u32` counter is an unbounded natural number. Its wrap-around after 2^32 pending batches is not modelled.
- Loading.Loader.MoveFinishedIntoResources: `processing::ResourceData` and its `move_into_resources` are not part of this model, and neither is the slice store they fill. Each drained batch goes through `Processing.MoveIntoBevy`, with every optional store present; the `Option` stores are not modelled. The method states the counters and the outbox; what each batch does to the stores is stated by `Processing.MoveIntoBevy`.
- LegacyLoading.AsepriteLoader.ProcessFinished: states the counters and the outbox; what each batch does to the stores is stated by `LegacyLoading.FinishAnimations`.
- Engine.FinishAtlas: `TextureAtlasBuilder` packing is a `Packer` parameter, and it always succeeds. The `expect("Creating texture atlas failed")` path is not modelled.
- Engine.TextureIndex: the slot a texture gets is chosen by the `Packer`.
- Timer.AddMillis: `GameTime` is a `Copy` value, so `add_millis` is a function that returns the new stamp. The `u64` is unbounded here.
- Timer.GameTimer.AddDt: `Duration` is a count of nanoseconds, and its overflow is not modelled.
- Animate.AnimateEntity: `frame_after` is not part of this model. It is a parameter that always returns an index within the frames. Frame durations are required to be positive, because otherwise the source loop does not end. It also requires `play.currentFrame < |frames|` when the animation is found; the source instead panics in `anim.frame(frame)` (src/animate.rs:116, :128, :133) when the playback frame is out of range, as it is for an animation with no frames (a tag with `from > to`, or a file with no frames), since `PlayAnimation::new` starts at frame 0. That panic is not modelled.
- AnimId.AnimationById.Get: a missing id makes the source panic (`unwrap`). The model requires the id to be present.
- AnimId.AnimationById.Initialize: requires `CanInitialize`, which excludes three source panics instead of modelling them: a resolved handle missing from the animation store (`animations.get(&h).unwrap()`, src/anim_id.rs:55), an animation with no frames (`anim.frame(0)`, src/anim_id.rs:65), and a path whose default index is still the `usize::MAX` sentinel (the indexing in `lookup`, src/animate.rs:30).
- AnimId.AnimationById.Sprite: requires the id to be present and `frame < |atlasSprites|`; the source panics instead (`unwrap` and `atlas_sprites[frame as usize]`, src/anim_id.rs:102-104).
- Animate.InfoState.Lookup: requires that a known path has a default animation; the source panics instead, indexing `animations` with the `usize::MAX` sentinel (src/animate.rs:30).
- Loading.Loader.SpawnTasks: requires every to-do handle to name an asset in the store (`Resolves`); the source panics instead (`expect("Failed to get aseprite from handle")`, src/loader.rs:176-178).
- LegacyLoading.AsepriteLoader.SpawnTasks: requires every to-do handle to name an asset in the store (`Resolves`); the source panics instead (`unwrap`, src/aseloader.rs:115).
- Asefile.AsepriteFile.Valid: assumed, not checked. The decoder is taken to give fewer than 2^32 frames and tags that end before the last frame; nothing in the crate checks this. `Processing.New`, `Processing.RunBatch`, `AseAssetData.TakenValid` and both `SpawnTasks` (through `AseAssetData.LoadedValid`) require it, and `Processing.AnimsWithinSprites` and `Processing.FileAnimsWithinFile` depend on it. Without it, a tag past the last frame gives sprite ids outside the file's block (src/asset/animation.rs:93-101): into the next file's sprites, or past the end of the batch, where `tmp_sprites[sprite_id]` panics (src/processing.rs:121).
- Timing and logging (`Instant`, `debug!`, `warn!`, `error!`) are left out.
- Decoding: `asefile` parsing, pixel buffers and `Texture::new_fill` are plain data.
- The `Display` of the decoder's own `TilesetId` is a parameter of `TilesetAsset.ShowTilesetError`.
- Handles: `AssetPath` to `HandleId` hashing is foreign. Only the label strings and the full `{path}#{label}` form are modelled.
- Floating point: `Tileset::texture_size` is in integers.
- Bevy wiring: plugins, asset loaders and system parameters are left out; only the call order of `ase_importer` and `aseprite_loader` is modelled.
- Not part of this model, for the same reasons: `src/sprite.rs`, `src/benimator.rs`, `src/bevy_ecs_tilemap.rs`, `src/lib.rs`, `src/asset.rs`, `src/tests.rs` and the examples.
