/** Slices of the current loader (src/asset/slice.rs): the slice asset copied from the document. */
module SliceAsset {
  import opened Common
  import Asefile

  /** `Slice`: a named region of the sprite with its keys and optional user data. */
  datatype Slice = Slice(name: string, keys: seq<Asefile.SliceKey>, userData: Option<Asefile.UserData>)

  /** `Slice::from_ase`: name, keys (same length and order) and user data copied from the document. */
  function SliceFromAse(s: Asefile.Slice): (r: Slice)
    ensures r.name == s.name
    ensures |r.keys| == |s.keys| && forall i :: 0 <= i < |s.keys| ==> r.keys[i] == s.keys[i]
    ensures r.userData.Some? <==> s.userData.Some?
    ensures r.userData == s.userData
  {
    Slice(s.name, s.keys, s.userData)
  }
}
