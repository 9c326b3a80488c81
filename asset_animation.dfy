/**
 * Animation records (src/asset/animation.rs): the runtime `Animation` asset,
 * the per-frame `SpriteData` extracted from a document, and `AnimationData`,
 * the list of flat sprite indices an animation will show.
 */
module AnimationAsset {
  import opened Common
  import opened Asefile
  import opened Engine

  /** `Sprite`: an index into the texture atlas. */
  datatype Sprite = Sprite(atlasIndex: U32)

  /** `Frame`: the sprite shown and for how many milliseconds. */
  datatype Frame = Frame(sprite: Sprite, durationMs: U32)

  /** `Animation`: frames in playing order over one texture atlas. */
  datatype Animation = Animation(frames: seq<Frame>, atlas: Handle) {
    /** `Animation::frames` */
    function Frames(): seq<Frame> {
      frames
    }

    /** `Animation::atlas` */
    function Atlas(): Handle {
      atlas
    }
  }

  /** `Animation::new`: the accessors give back exactly what was passed in. */
  function NewAnimation(frames: seq<Frame>, atlas: Handle): (r: Animation)
    ensures r.Frames() == frames
    ensures r.Atlas() == atlas
  {
    Animation(frames, atlas)
  }

  /** `SpriteData<T>`: a frame's index, its texture and its duration. */
  datatype SpriteData<T> = SpriteData(frame: U32, texture: T, duration: U32)

  /**
   * `SpriteData::new(ase, frame)`: the frame's index and duration, and a texture
   * of the document's size over the frame's pixels. `ase.frame(frame)` panics
   * outside the document's frames.
   */
  function NewSpriteData(ase: AsepriteFile, frame: U32): (r: SpriteData<Texture>)
    requires frame < |ase.frames|
    ensures r.frame == frame
    ensures r.duration == ase.frames[frame].duration
    ensures r.texture.width == ase.width && r.texture.height == ase.height
    ensures r.texture.raw == ase.frames[frame].image.raw
  {
    SpriteData(frame, NewFill(ase.width, ase.height, ase.frames[frame].image.raw),
      ase.frames[frame].duration)
  }

  /** `AnimationData`: the file, the tag (None for the whole file) and the flat sprite indices. */
  datatype AnimationData = AnimationData(file: Path, tag: Option<string>, sprites: seq<nat>)

  /** `AnimationData::new`: every frame of the file, shifted by the file's sprite offset. */
  function NewAnimationData(name: Path, ase: AsepriteFile, spriteOffset: nat): (r: AnimationData)
    ensures r.file == name && r.tag == None
    ensures |r.sprites| == ase.NumFrames()
    ensures forall i :: 0 <= i < |r.sprites| ==> r.sprites[i] == spriteOffset + i
  {
    AnimationData(name, None, ShiftedRange(spriteOffset, 0, ase.NumFrames()))
  }

  /**
   * `AnimationData::from_tag`: the tag's frames `from ..= to`, both ends
   * included, shifted by the file's sprite offset; empty when `from > to`.
   */
  function AnimationDataFromTag(name: Path, spriteOffset: nat, tag: Tag): (r: AnimationData)
    ensures r.file == name && r.tag == Some(tag.name)
    ensures |r.sprites| == if tag.fromFrame <= tag.toFrame then tag.toFrame - tag.fromFrame + 1 else 0
    ensures forall i :: 0 <= i < |r.sprites| ==> r.sprites[i] == spriteOffset + tag.fromFrame + i
  {
    AnimationData(name, Some(tag.name), ShiftedRange(spriteOffset, tag.fromFrame, tag.toFrame + 1))
  }

  /** A tag's animation shows exactly the sprites between its shifted ends, both included. */
  lemma FromTagCovers(name: Path, spriteOffset: nat, tag: Tag, s: nat)
    ensures s in AnimationDataFromTag(name, spriteOffset, tag).sprites
      <==> spriteOffset + tag.fromFrame <= s <= spriteOffset + tag.toFrame
  {
    ShiftedRangeMembers(spriteOffset, tag.fromFrame, tag.toFrame + 1, s);
  }

  /** Every sprite a tag's animation shows belongs to its file when the tag lies within the frames. */
  lemma FromTagWithinFile(name: Path, ase: AsepriteFile, spriteOffset: nat, t: nat)
    requires ase.Valid() && t < |ase.tags|
    ensures forall s :: s in AnimationDataFromTag(name, spriteOffset, ase.tags[t]).sprites ==>
      spriteOffset <= s < spriteOffset + ase.NumFrames()
  {
    forall s | s in AnimationDataFromTag(name, spriteOffset, ase.tags[t]).sprites
      ensures spriteOffset <= s < spriteOffset + ase.NumFrames()
    {
      FromTagCovers(name, spriteOffset, ase.tags[t], s);
    }
  }
}
