/**
 * `AseAsset` (src/asset/ase.rs): a decoded file waiting in Bevy's asset store.
 * Its data is `Loaded` until a loader dispatches it, and `Processed` after:
 * dispatch moves the document out so that its memory can be freed.
 *
 * This module also states, once for both loaders, what their dispatch sweep
 * over the to-do handles does to the store and which documents it takes.
 */
module AseAssetData {
  import opened Common
  import opened Asefile
  import opened Engine

  datatype AseData = Loaded(file: AsepriteFile) | Processed

  datatype AseAsset = AseAsset(data: AseData, name: Path) {
    /** `AseAsset::file`: the document, if the asset has not been processed yet. */
    function File(): (r: Option<AsepriteFile>)
      ensures r.Some? <==> data.Loaded?
      ensures data.Loaded? ==> r == Some(data.file)
    {
      if data.Loaded? then Some(data.file) else None
    }
  }

  /** The asset once its data has been swapped for `Processed`. */
  function MarkProcessed(a: AseAsset): (r: AseAsset)
    ensures r.name == a.name
    ensures r.File() == None
  {
    a.(data := Processed)
  }

  /** Processing is one-way: a processed asset stays processed and never yields a file again. */
  lemma ProcessingIsFinal(a: AseAsset)
    requires a.data.Processed?
    ensures MarkProcessed(a) == a
    ensures a.File() == None
  {
  }

  /** Every handle names an asset in the store (`get_mut(..).expect(..)` succeeds). */
  predicate Resolves(items: seq<AseAsset>, hs: seq<Handle>) {
    forall i :: 0 <= i < |hs| ==> hs[i].Handle? && hs[i].id < |items|
  }

  /** Every asset that still holds a document holds a well-formed one. */
  predicate LoadedValid(items: seq<AseAsset>) {
    forall k :: 0 <= k < |items| ==> items[k].data.Loaded? ==> items[k].data.file.Valid()
  }

  /** The store after the sweep has swapped `Processed` into the asset of each handle in turn. */
  function Swept(items: seq<AseAsset>, hs: seq<Handle>): (r: seq<AseAsset>)
    requires Resolves(items, hs)
    ensures |r| == |items|
    ensures forall k :: 0 <= k < |items| ==>
      r[k] == if Handle(k) in hs then MarkProcessed(items[k]) else items[k]
    decreases |hs|
  {
    if hs == [] then items
    else
      var n := |hs| - 1;
      var before := Swept(items, hs[..n]);
      assert forall k :: Handle(k) in hs <==> Handle(k) in hs[..n] || Handle(k) == hs[n] by {
        assert hs == hs[..n] + [hs[n]];
      }
      before[hs[n].id := MarkProcessed(before[hs[n].id])]
  }

  /**
   * The `(name, file)` pairs the sweep pushes into the batch: the swapped-out
   * data of each handle in turn, when it was `Loaded`.
   */
  function Taken(items: seq<AseAsset>, hs: seq<Handle>): seq<(Path, AsepriteFile)>
    requires Resolves(items, hs)
    decreases |hs|
  {
    if hs == [] then []
    else
      var n := |hs| - 1;
      var cur := Swept(items, hs[..n])[hs[n].id];
      Taken(items, hs[..n]) + (if cur.data.Loaded? then [(cur.name, cur.data.file)] else [])
  }

  /**
   * The reference definition of a batch: in to-do order, the name and file of
   * each handle that was `Loaded` before the sweep, on its first occurrence.
   */
  function FirstLoaded(items: seq<AseAsset>, hs: seq<Handle>): seq<(Path, AsepriteFile)>
    requires Resolves(items, hs)
    decreases |hs|
  {
    if hs == [] then []
    else
      var n := |hs| - 1;
      var a := items[hs[n].id];
      FirstLoaded(items, hs[..n])
        + (if hs[n] !in hs[..n] && a.data.Loaded? then [(a.name, a.data.file)] else [])
  }

  /** The sweep takes exactly the loaded documents, each handle at most once. */
  lemma {:induction false} TakenIsFirstLoaded(items: seq<AseAsset>, hs: seq<Handle>)
    requires Resolves(items, hs)
    ensures Taken(items, hs) == FirstLoaded(items, hs)
    decreases |hs|
  {
    if hs != [] {
      var n := |hs| - 1;
      assert Handle(hs[n].id) == hs[n];
      TakenIsFirstLoaded(items, hs[..n]);
    }
  }

  /** A batch is made of well-formed documents when the store held only well-formed ones. */
  lemma {:induction false} TakenValid(items: seq<AseAsset>, hs: seq<Handle>)
    requires Resolves(items, hs) && LoadedValid(items)
    ensures AllFilesValid(Taken(items, hs))
    decreases |hs|
  {
    if hs != [] {
      TakenValid(items, hs[..|hs| - 1]);
    }
  }

  /** One more handle of the sweep: its asset is marked, and its document taken if it was loaded. */
  lemma SweepStep(items: seq<AseAsset>, hs: seq<Handle>, i: nat)
    requires i < |hs| && Resolves(items, hs[..i]) && hs[i].Handle? && hs[i].id < |items|
    ensures Resolves(items, hs[..i + 1])
    ensures var before := Swept(items, hs[..i]);
      && Swept(items, hs[..i + 1]) == before[hs[i].id := MarkProcessed(before[hs[i].id])]
      && Taken(items, hs[..i + 1])
         == Taken(items, hs[..i])
            + (if before[hs[i].id].data.Loaded? then [(before[hs[i].id].name, before[hs[i].id].data.file)] else [])
  {
    var hs' := hs[..i + 1];
    assert hs'[..i] == hs[..i] && hs'[i] == hs[i];
    assert Resolves(items, hs');
    SweptUnfold(items, hs');
    TakenUnfold(items, hs');
  }

  lemma SweptUnfold(items: seq<AseAsset>, hs: seq<Handle>)
    requires hs != [] && Resolves(items, hs)
    ensures var n := |hs| - 1; var before := Swept(items, hs[..n]);
      Swept(items, hs) == before[hs[n].id := MarkProcessed(before[hs[n].id])]
  {
  }

  lemma TakenUnfold(items: seq<AseAsset>, hs: seq<Handle>)
    requires hs != [] && Resolves(items, hs)
    ensures var n := |hs| - 1; var cur := Swept(items, hs[..n])[hs[n].id];
      Taken(items, hs) == Taken(items, hs[..n]) + (if cur.data.Loaded? then [(cur.name, cur.data.file)] else [])
  {
  }

  /**
   * The sweep of `spawn_tasks` over the to-do handles: each handle's asset has
   * `Processed` swapped in, and the document swapped out, if it was `Loaded`,
   * goes into the batch under the asset's name.
   */
  method TakeLoaded(aseprites: Assets<AseAsset>, handles: seq<Handle>) returns (inputs: seq<(Path, AsepriteFile)>)
    requires Resolves(aseprites.items, handles)
    modifies aseprites
    ensures aseprites.items == Swept(old(aseprites.items), handles)
    ensures inputs == Taken(old(aseprites.items), handles)
  {
    inputs := [];
    var i := 0;
    while i < |handles|
      invariant 0 <= i <= |handles|
      invariant Resolves(old(aseprites.items), handles[..i])
      invariant aseprites.items == Swept(old(aseprites.items), handles[..i])
      invariant inputs == Taken(old(aseprites.items), handles[..i])
    {
      var h := handles[i];
      SweepStep(old(aseprites.items), handles, i);
      var current := aseprites.items[h.id];
      var previous := aseprites.Swap(h, MarkProcessed(current));
      if previous.data.Loaded? {
        inputs := inputs + [(previous.name, previous.data.file)];
      }
      i := i + 1;
    }
    assert handles[..i] == handles;
  }
}
