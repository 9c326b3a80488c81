/**
 * Sprite animation at run time (src/animate.rs): the `AnimationInfo` index
 * from file paths and tags to animation handles, the per-entity playback
 * state and one entity's step of the `sprite_animator` system.
 */
module Animate {
  import opened Common
  import opened Engine
  import opened Timer

  /** `Sprite` of this generation of the crate: the atlas and the index into it. */
  datatype Sprite = Sprite(atlas: Handle, atlasIndex: U32)

  datatype Frame = Frame(sprite: Sprite, durationMs: U32)

  /** The runtime `Animation`: `frame(i)` indexes `frames`. */
  datatype Animation = Animation(frames: seq<Frame>)

  /** `usize::MAX`, the default index of a path that has no default animation yet. */
  const USIZE_MAX: nat := 0xFFFF_FFFF_FFFF_FFFF

  /** The value under a path in `names`: the default animation's index and the index per tag. */
  datatype NameEntry = NameEntry(default: nat, tags: map<string, nat>)

  /** The contents of `AnimationInfo`. */
  datatype InfoState = InfoState(animations: seq<Handle>, names: map<Path, NameEntry>) {
    /** Every recorded index is the sentinel or names an added animation. */
    predicate Valid() {
      forall p :: p in names ==>
        && (names[p].default == USIZE_MAX || names[p].default < |animations|)
        && (forall tag :: tag in names[p].tags ==> names[p].tags[tag] < |animations|)
    }

    /**
     * `AnimationInfo::lookup`: None for an unknown path, else the path's default
     * animation. Indexing `animations` panics unless a default was added.
     */
    function Lookup(path: Path): (r: Option<Handle>)
      requires path in names ==> names[path].default < |animations|
      ensures r.None? <==> path !in names
      ensures path in names ==> r == Some(animations[names[path].default])
    {
      if path in names then Some(animations[names[path].default]) else None
    }

    /** `AnimationInfo::lookup_with_tag`: None when the path or the tag is unknown. */
    function LookupWithTag(path: Path, tag: string): (r: Option<Handle>)
      requires path in names && tag in names[path].tags ==> names[path].tags[tag] < |animations|
      ensures r.None? <==> path !in names || tag !in names[path].tags
      ensures r.Some? ==> r == Some(animations[names[path].tags[tag]])
    {
      if path in names && tag in names[path].tags then Some(animations[names[path].tags[tag]])
      else None
    }

    /**
     * `AnimationInfo::add_anim`: append the handle; a new path starts with the
     * sentinel default and no tags; a tag maps to the new index, no tag makes it
     * the default.
     */
    function AddAnim(path: Path, tag: Option<string>, hdl: Handle): (r: InfoState)
      ensures r.animations == animations + [hdl]
      ensures r.names.Keys == names.Keys + {path}
      ensures forall p :: p in names && p != path ==> r.names[p] == names[p]
    {
      var idx := |animations|;
      var entry := if path in names then names[path] else NameEntry(USIZE_MAX, map[]);
      var entry' := if tag.Some? then entry.(tags := entry.tags[tag.value := idx])
                    else entry.(default := idx);
      InfoState(animations + [hdl], names[path := entry'])
    }
  }

  /** `AnimationInfo::default()`. */
  const EMPTY_INFO: InfoState := InfoState([], map[])

  /** Adding an animation keeps every index valid. */
  lemma AddAnimValid(s: InfoState, path: Path, tag: Option<string>, hdl: Handle)
    requires s.Valid()
    ensures s.AddAnim(path, tag, hdl).Valid()
  {
    var r := s.AddAnim(path, tag, hdl);
    forall p | p in r.names
      ensures r.names[p].default == USIZE_MAX || r.names[p].default < |r.animations|
      ensures forall t :: t in r.names[p].tags ==> r.names[p].tags[t] < |r.animations|
    {
      if p == path && path in s.names {
        assert s.names[p].default == USIZE_MAX || s.names[p].default < |s.animations|;
      }
    }
  }

  /** The newest addition wins for its (path, tag) pair; earlier handles stay where they were. */
  lemma AddAnimLastWins(s: InfoState, path: Path, tag: Option<string>, hdl: Handle)
    requires s.Valid()
    ensures s.AddAnim(path, tag, hdl).Valid()
    ensures tag.Some? ==> s.AddAnim(path, tag, hdl).LookupWithTag(path, tag.value) == Some(hdl)
    ensures tag.None? ==> s.AddAnim(path, tag, hdl).Lookup(path) == Some(hdl)
    ensures forall i :: 0 <= i < |s.animations| ==> s.AddAnim(path, tag, hdl).animations[i] == s.animations[i]
  {
    AddAnimValid(s, path, tag, hdl);
  }

  /** One `add_anim` call: the file, the tag (None for the default animation) and the handle. */
  datatype Addition = Addition(path: Path, tag: Option<string>, handle: Handle)

  /** The index after the given additions, made in order, to `s`. */
  function AddAll(s: InfoState, adds: seq<Addition>): (r: InfoState)
    requires s.Valid()
    ensures r.Valid()
    ensures |r.animations| == |s.animations| + |adds|
    ensures s.names.Keys <= r.names.Keys
    decreases |adds|
  {
    if adds == [] then s
    else
      var before := AddAll(s, adds[..|adds| - 1]);
      var a := adds[|adds| - 1];
      AddAnimValid(before, a.path, a.tag, a.handle);
      before.AddAnim(a.path, a.tag, a.handle)
  }

  /** Reference definition: the handle of the last addition for this path and tag, if any. */
  function LastAdded(adds: seq<Addition>, path: Path, tag: Option<string>): Option<Handle>
    decreases |adds|
  {
    if adds == [] then None
    else
      var a := adds[|adds| - 1];
      if a.path == path && a.tag == tag then Some(a.handle)
      else LastAdded(adds[..|adds| - 1], path, tag)
  }

  /** The paths something was added for. */
  function AddedPaths(adds: seq<Addition>): set<Path> {
    set i | 0 <= i < |adds| :: adds[i].path
  }

  lemma AddedPathsSnoc(adds: seq<Addition>)
    requires adds != []
    ensures AddedPaths(adds) == AddedPaths(adds[..|adds| - 1]) + {adds[|adds| - 1].path}
  {
    var pre := adds[..|adds| - 1];
    assert forall i :: 0 <= i < |pre| ==> pre[i] == adds[i];
  }

  /** A path is known after the additions iff it was known before or something was added for it. */
  lemma {:induction false} AddAllKnowsAddedPaths(s: InfoState, adds: seq<Addition>)
    requires s.Valid()
    ensures AddAll(s, adds).names.Keys == s.names.Keys + AddedPaths(adds)
    decreases |adds|
  {
    if adds == [] {
      assert AddedPaths(adds) == {};
    } else {
      var n := |adds| - 1;
      var pre, a := adds[..n], adds[n];
      AddAllKnowsAddedPaths(s, pre);
      AddedPathsSnoc(adds);
      var before := AddAll(s, pre);
      assert AddAll(s, adds).names.Keys == before.names.Keys + {a.path} by {
        assert AddAll(s, adds) == before.AddAnim(a.path, a.tag, a.handle);
      }
    }
  }

  /**
   * A tag lookup after the additions finds the last handle added for that path
   * and tag, and otherwise what it found before.
   */
  lemma {:induction false} AddAllTagLookup(s: InfoState, adds: seq<Addition>, path: Path, tag: string)
    requires s.Valid()
    ensures AddAll(s, adds).LookupWithTag(path, tag)
      == if LastAdded(adds, path, Some(tag)).Some? then LastAdded(adds, path, Some(tag))
         else s.LookupWithTag(path, tag)
    decreases |adds|
  {
    if adds != [] {
      AddAllTagLookup(s, adds[..|adds| - 1], path, tag);
    }
  }

  /**
   * While the indices stay below the sentinel, a known path's default stays the
   * sentinel exactly while no default was ever added for it; once one was,
   * `lookup` finds the last one added.
   */
  lemma {:induction false} AddAllDefaultLookup(s: InfoState, adds: seq<Addition>, path: Path)
    requires s.Valid()
    requires |s.animations| + |adds| <= USIZE_MAX
    ensures path in AddAll(s, adds).names ==>
      (AddAll(s, adds).names[path].default == USIZE_MAX <==>
       LastAdded(adds, path, None).None? && (path !in s.names || s.names[path].default == USIZE_MAX))
    ensures LastAdded(adds, path, None).Some? ==>
      path in AddAll(s, adds).names && AddAll(s, adds).Lookup(path) == LastAdded(adds, path, None)
    decreases |adds|
  {
    if adds != [] {
      var n := |adds| - 1;
      var pre, a := adds[..n], adds[n];
      AddAllDefaultLookup(s, pre, path);
      var before := AddAll(s, pre);
      assert AddAll(s, adds) == before.AddAnim(a.path, a.tag, a.handle);
    }
  }

  /** The index built from nothing by the given additions. */
  function Built(adds: seq<Addition>): (s: InfoState)
    ensures s.Valid()
    ensures |s.animations| == |adds|
  {
    AddAll(EMPTY_INFO, adds)
  }

  /** A path is known to the built index iff something was added for it. */
  lemma BuiltKnowsAddedPaths(adds: seq<Addition>)
    ensures Built(adds).names.Keys == AddedPaths(adds)
  {
    AddAllKnowsAddedPaths(EMPTY_INFO, adds);
  }

  /** A known path of the built index has the sentinel default iff no default was added for it. */
  lemma BuiltDefaultLookup(adds: seq<Addition>, path: Path)
    requires |adds| <= USIZE_MAX
    ensures path in Built(adds).names ==>
      (LastAdded(adds, path, None).None? <==> Built(adds).names[path].default == USIZE_MAX)
    ensures LastAdded(adds, path, None).Some? ==>
      path in Built(adds).names && Built(adds).Lookup(path) == LastAdded(adds, path, None)
  {
    AddAllDefaultLookup(EMPTY_INFO, adds, path);
  }

  /** `AnimationInfo`: the resource the loaders fill and systems read. */
  class AnimationInfo {
    var animations: seq<Handle>
    var names: map<Path, NameEntry>

    function State(): InfoState
      reads this
    {
      InfoState(animations, names)
    }

    constructor ()
      ensures State() == EMPTY_INFO
    {
      animations := [];
      names := map[];
    }

    /** `AnimationInfo::add_anim`, in place. */
    method AddAnim(path: Path, tag: Option<string>, hdl: Handle)
      modifies this
      ensures State() == old(State()).AddAnim(path, tag, hdl)
    {
      var idx := |animations|;
      animations := animations + [hdl];
      var entry := if path in names then names[path] else NameEntry(USIZE_MAX, map[]);
      if tag.Some? {
        entry := entry.(tags := entry.tags[tag.value := idx]);
      } else {
        entry := entry.(default := idx);
      }
      names := names[path := entry];
    }
  }

  /** `PlayAnimation`: the playback state a sprite entity carries. */
  datatype PlayAnimation = PlayAnimation(
    currentFrame: nat,
    frameEnd: GameTime,
    playing: bool,
    looping: bool,
    animation: Handle)

  /** `PlayAnimation::new`: first frame, end not yet known, playing and looping. */
  function NewPlayAnimation(animation: Handle): (r: PlayAnimation)
    ensures r.currentFrame == 0 && r.frameEnd == ZERO
    ensures r.playing && r.looping && r.animation == animation
  {
    PlayAnimation(0, ZERO, true, true, animation)
  }

  /** What an animation step may rely on: positive durations and `frame_after` staying in range. */
  predicate Steppable(frames: seq<Frame>, frameAfter: nat -> (nat, bool)) {
    && (forall i :: 0 <= i < |frames| ==> frames[i].durationMs > 0)
    && (forall i :: 0 <= i < |frames| ==> frameAfter(i).0 < |frames|)
  }

  /** Where the frame-advancing loop stops: the frame, its end, whether still playing, whether it initialised. */
  datatype Advanced = Advanced(frame: nat, frameEnd: nat, playing: bool, init: bool)

  /**
   * The frame-advancing loop of `sprite_animator` from `frame` ending at
   * `frameEnd`, for game time `t`. The result lies within the frames; it
   * reaches `t` unless a non-looping animation wrapped; an uninitialised end
   * becomes `t` plus the frame's duration; otherwise, while playing, the frame
   * reached is the one on screen at `t`.
   */
  function Advance(frames: seq<Frame>, frameAfter: nat -> (nat, bool), looping: bool,
                   t: nat, frame: nat, frameEnd: nat): (r: Advanced)
    requires Steppable(frames, frameAfter) && frame < |frames|
    ensures r.frame < |frames|
    ensures r.frameEnd >= frameEnd
    ensures r.playing ==> r.frameEnd >= t
    ensures !r.playing ==> !looping
    ensures r.init <==> frameEnd < t && frameEnd == 0
    ensures r.init ==> r.frame == frame && r.frameEnd == t + frames[frame].durationMs
    ensures frameEnd < t && r.playing && !r.init ==> r.frameEnd - frames[r.frame].durationMs < t
    decreases if frameEnd < t then t - frameEnd else 0
  {
    if frameEnd >= t then Advanced(frame, frameEnd, true, false)
    else if frameEnd == 0 then Advanced(frame, t + frames[frame].durationMs, true, true)
    else
      var (next, wrapped) := frameAfter(frame);
      if wrapped && !looping then Advanced(frame, frameEnd, false, false)
      else Advance(frames, frameAfter, looping, t, next, frameEnd + frames[next].durationMs)
  }

  /**
   * One entity's step of `sprite_animator` at game time `t`: `anim` is what
   * the animation store holds under `play.animation`, `frameAfter` is
   * `Animation::frame_after`. Returns the new playback state and sprite index.
   */
  method AnimateEntity(play: PlayAnimation, spriteIndex: nat, t: GameTime, anim: Option<Animation>,
                       frameAfter: nat -> (nat, bool))
    returns (play': PlayAnimation, spriteIndex': nat)
    requires anim.Some? ==> Steppable(anim.value.frames, frameAfter)
    requires anim.Some? ==> play.currentFrame < |anim.value.frames|
    ensures !play.playing || play.frameEnd.ms >= t.ms || anim.None? ==>
      play' == play && spriteIndex' == spriteIndex
    ensures play.playing && play.frameEnd.ms < t.ms && anim.Some? ==>
      var frames := anim.value.frames;
      var a := Advance(frames, frameAfter, play.looping, t.ms, play.currentFrame, play.frameEnd.ms);
      && play' == play.(currentFrame := a.frame, frameEnd := GameTime(a.frameEnd), playing := a.playing)
      && spriteIndex' == if a.init || a.frame != play.currentFrame then frames[a.frame].sprite.atlasIndex
                         else spriteIndex
    ensures play'.playing ==> play'.frameEnd.ms >= t.ms || play' == play
  {
    play', spriteIndex' := play, spriteIndex;
    if !play.playing || play.frameEnd.ms >= t.ms || anim.None? {
      return;
    }
    var frames := anim.value.frames;
    var frame: nat := play.currentFrame;
    var init := false;
    while play'.frameEnd.ms < t.ms
      invariant frame < |frames|
      invariant play'.playing && !init
      invariant play'.frameEnd.ms > 0 || (frame == play.currentFrame && play' == play)
      invariant play' == play.(frameEnd := play'.frameEnd)
      invariant Advance(frames, frameAfter, play.looping, t.ms, play.currentFrame, play.frameEnd.ms)
             == Advance(frames, frameAfter, play.looping, t.ms, frame, play'.frameEnd.ms)
      decreases t.ms - play'.frameEnd.ms
    {
      if play'.frameEnd == ZERO {
        play' := play'.(frameEnd := AddMillis(t, frames[frame].durationMs));
        init := true;
        break;
      }
      var (next, wrapped) := frameAfter(frame);
      if wrapped && !play'.looping {
        play' := play'.(playing := false);
        break;
      }
      frame := next;
      play' := play'.(frameEnd := AddMillis(play'.frameEnd, frames[frame].durationMs));
    }
    if init || frame != play.currentFrame {
      play' := play'.(currentFrame := frame);
      spriteIndex' := frames[frame].sprite.atlasIndex;
    }
  }
}
