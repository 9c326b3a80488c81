/**
 * The older animation record (src/animation.rs), built exactly like
 * `AnimationData` in src/asset/animation.rs.
 */
module AnimationRecord {
  import opened Common
  import opened Asefile
  import AnimationAsset

  /** `Animation`: the file, the tag (None for the whole file) and the flat sprite indices. */
  datatype Animation = Animation(file: Path, tag: Option<string>, sprites: seq<nat>)

  /** `Animation::new`: every frame of the file, shifted by the file's sprite offset, in order. */
  function NewAnimation(name: Path, ase: AsepriteFile, spriteOffset: nat): (r: Animation)
    ensures r.file == name && r.tag == None
    ensures |r.sprites| == ase.NumFrames()
    ensures forall i :: 0 <= i < |r.sprites| ==> r.sprites[i] == spriteOffset + i
  {
    Animation(name, None, ShiftedRange(spriteOffset, 0, ase.NumFrames()))
  }

  /** `Animation::from_tag`: the tag's frames `from ..= to`, shifted by the sprite offset. */
  function AnimationFromTag(name: Path, spriteOffset: nat, tag: Tag): (r: Animation)
    ensures r.file == name && r.tag == Some(tag.name)
    ensures |r.sprites| == if tag.fromFrame <= tag.toFrame then tag.toFrame - tag.fromFrame + 1 else 0
    ensures forall i :: 0 <= i < |r.sprites| ==> r.sprites[i] == spriteOffset + tag.fromFrame + i
  {
    Animation(name, Some(tag.name), ShiftedRange(spriteOffset, tag.fromFrame, tag.toFrame + 1))
  }

  /** The record as the newer `AnimationData`. */
  function AsData(a: Animation): AnimationAsset.AnimationData {
    AnimationAsset.AnimationData(a.file, a.tag, a.sprites)
  }

  /** Both generations of the record agree field by field. */
  lemma AgreesWithAnimationData(name: Path, ase: AsepriteFile, spriteOffset: nat, tag: Tag)
    ensures AsData(NewAnimation(name, ase, spriteOffset))
      == AnimationAsset.NewAnimationData(name, ase, spriteOffset)
    ensures AsData(AnimationFromTag(name, spriteOffset, tag))
      == AnimationAsset.AnimationDataFromTag(name, spriteOffset, tag)
  {
  }
}
