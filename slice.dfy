/**
 * Slices of the older loader (src/slice.rs): slice ids, the key that names a
 * slice by its file and its id, and the slice asset copied from the document.
 */
module Slices {
  import opened Common
  import Asefile
  import opened AseIds

  /** `SliceId`: a slice's number within its file. */
  datatype SliceId = SliceId(value: U32) {
    /** `SliceId::inner` */
    function Inner(): U32 {
      value
    }
  }

  /** `SliceId::new` */
  function NewSliceId(inner: U32): (r: SliceId)
    ensures r.Inner() == inner
  {
    SliceId(inner)
  }

  /** `Display for SliceId`: `SliceId(n)`. */
  function ShowSliceId(id: SliceId): (s: string)
    ensures |s| > 9 && s[..8] == "SliceId(" && s[|s| - 1] == ')'
    ensures s[8..|s| - 1] == Decimal(id.value)
  {
    "SliceId(" + Decimal(id.value) + ")"
  }

  /** `SliceAseKey`: the file and the slice's id within it. */
  datatype SliceAseKey = SliceAseKey(aseId: AseId, sliceId: SliceId) {
    /** `SliceAseKey::ase_id` */
    function AseIdOf(): AseId {
      aseId
    }

    /** `SliceAseKey::slice_id` */
    function SliceIdOf(): SliceId {
      sliceId
    }
  }

  /** `SliceAseKey::new`: the accessors give back both parts. */
  function NewSliceAseKey(aseId: AseId, sliceId: SliceId): (k: SliceAseKey)
    ensures k.AseIdOf() == aseId && k.SliceIdOf() == sliceId
  {
    SliceAseKey(aseId, sliceId)
  }

  /** `Display for SliceAseKey`: `SliceKey (AseId(a), SliceId(s))`. */
  function ShowSliceAseKey(k: SliceAseKey): (s: string)
    ensures s == "SliceKey (" + ShowAseId(k.aseId) + ", " + ShowSliceId(k.sliceId) + ")"
  {
    "SliceKey (" + ShowAseId(k.aseId) + ", " + ShowSliceId(k.sliceId) + ")"
  }

  /** Different keys print differently: the rendering can be read back. */
  lemma ShowSliceAseKeyInjective(a: SliceAseKey, b: SliceAseKey)
    requires ShowSliceAseKey(a) == ShowSliceAseKey(b)
    ensures a == b
  {
    KeyRendering(a);
    KeyRendering(b);
    TwoNumeralsInjective("SliceKey (" + "AseId(", ")" + ", " + "SliceId(", ")" + ")",
      a.aseId.value, a.sliceId.value, b.aseId.value, b.sliceId.value);
  }

  lemma KeyRendering(k: SliceAseKey)
    ensures ShowSliceAseKey(k)
      == ("SliceKey (" + "AseId(") + Decimal(k.aseId.value) + (")" + ", " + "SliceId(") + Decimal(k.sliceId.value) + (")" + ")")
  {
    Regroup("SliceKey (", "AseId(", Decimal(k.aseId.value), ")", ", ", "SliceId(", Decimal(k.sliceId.value), ")", ")");
  }

  /** `Slice`: the engine asset. */
  datatype Slice = Slice(key: SliceAseKey, name: string, keys: seq<Asefile.SliceKey>,
                         userData: Option<Asefile.UserData>)

  /** `Slice::from_ase`: the given key, and the document slice's name, keys and user data copied. */
  function SliceFromAse(s: Asefile.Slice, key: SliceAseKey): (r: Slice)
    ensures r.key == key && r.name == s.name
    ensures |r.keys| == |s.keys| && forall i :: 0 <= i < |s.keys| ==> r.keys[i] == s.keys[i]
    ensures r.userData.Some? <==> s.userData.Some?
    ensures r.userData == s.userData
  {
    Slice(key, s.name, s.keys, s.userData)
  }
}
