/**
 * File identities (src/ase.rs): each document of a batch is numbered by its
 * position, and the batch is indexed by that number.
 */
module AseIds {
  import opened Common
  import opened Asefile

  /** `AseId`: a file's number within its batch. */
  datatype AseId = AseId(value: U32) {
    /** `AseId::inner` */
    function Inner(): U32 {
      value
    }
  }

  /** `AseId::new` */
  function NewAseId(inner: U32): (r: AseId)
    ensures r.Inner() == inner
  {
    AseId(inner)
  }

  /** `Display for AseId`: `AseId(n)`. */
  function ShowAseId(id: AseId): (s: string)
    ensures |s| > 7 && s[..6] == "AseId(" && s[|s| - 1] == ')'
    ensures s[6..|s| - 1] == Decimal(id.value)
  {
    "AseId(" + Decimal(id.value) + ")"
  }

  /** Two ids with the same rendering are the same id. */
  lemma ShowAseIdInjective(a: AseId, b: AseId)
    requires ShowAseId(a) == ShowAseId(b)
    ensures a == b
  {
    DecimalInjective(a.value, b.value);
  }

  /** `AseKeyed`: a document with its number and path. */
  datatype AseKeyed = AseKeyed(id: AseId, path: Path, file: AsepriteFile)

  /** The id of the input at position `idx`: `AseId::new(idx as u32)`, which wraps past 2^32. */
  function IdOf(idx: nat): (id: AseId)
    ensures idx < U32_MODULUS ==> id == AseId(idx)
  {
    AseId(idx % U32_MODULUS)
  }

  /** The `(id, value)` pairs `AsesById::from` collects, in input order. */
  function KeyedPairs(vec: seq<(Path, AsepriteFile)>): (r: seq<(AseId, AseKeyed)>)
    ensures |r| == |vec|
    ensures forall i :: 0 <= i < |vec| ==> r[i] == (IdOf(i), AseKeyed(IdOf(i), vec[i].0, vec[i].1))
  {
    seq(|vec|, i requires 0 <= i < |vec| => (IdOf(i), AseKeyed(IdOf(i), vec[i].0, vec[i].1)))
  }

  /** `AsesById::from(Vec<(PathBuf, AsepriteFile)>)`. */
  function AsesById(vec: seq<(Path, AsepriteFile)>): (m: map<AseId, AseKeyed>)
    ensures forall id :: id in m ==> m[id].id == id
  {
    var pairs := KeyedPairs(vec);
    var m := FromPairs(pairs);
    forall id | id in m
      ensures m[id].id == id
    {
      FromPairsEntryFrom(pairs, id);
    }
    m
  }

  /** Every entry holds the path and file of some input. */
  lemma AsesByIdFromInputs(vec: seq<(Path, AsepriteFile)>, id: AseId)
    requires id in AsesById(vec)
    ensures exists i :: 0 <= i < |vec| && AsesById(vec)[id].path == vec[i].0 && AsesById(vec)[id].file == vec[i].1
  {
    var pairs := KeyedPairs(vec);
    assert AsesById(vec) == FromPairs(pairs);
    FromPairsEntryFrom(pairs, id);
    var i :| 0 <= i < |pairs| && pairs[i] == (id, FromPairs(pairs)[id]);
    assert AsesById(vec)[id].path == vec[i].0;
  }

  lemma KeyedPairsPrefix(vec: seq<(Path, AsepriteFile)>, n: nat)
    requires n <= |vec|
    ensures KeyedPairs(vec[..n]) == KeyedPairs(vec)[..n]
  {
  }

  /** For at most 2^32 inputs, the ids are exactly the positions of the inputs. */
  lemma AsesByIdKeys(vec: seq<(Path, AsepriteFile)>)
    requires |vec| <= U32_MODULUS
    ensures AsesById(vec).Keys == set i | 0 <= i < |vec| :: AseId(i)
  {
    var pairs := KeyedPairs(vec);
    forall id | id in AsesById(vec)
      ensures exists i :: 0 <= i < |vec| && AseId(i) == id
    {
      var i :| 0 <= i < |pairs| && pairs[i].0 == id;
    }
    forall i | 0 <= i < |vec|
      ensures AseId(i) in AsesById(vec)
    {
      assert pairs[i].0 == AseId(i);
    }
  }

  /** For at most 2^32 inputs, input i is stored under `AseId(i)` with exactly its path and file. */
  lemma AsesByIdEntries(vec: seq<(Path, AsepriteFile)>, i: nat)
    requires |vec| <= U32_MODULUS && i < |vec|
    ensures AseId(i) in AsesById(vec)
    ensures AsesById(vec)[AseId(i)] == AseKeyed(AseId(i), vec[i].0, vec[i].1)
  {
    var pairs := KeyedPairs(vec);
    assert AsesById(vec) == FromPairs(pairs);
    forall j | i < j < |pairs|
      ensures pairs[j].0 != pairs[i].0
    {
      assert pairs[j].0 == AseId(j) && pairs[i].0 == AseId(i);
    }
    FromPairsLastWins(pairs, i);
  }

  /** For at most 2^32 inputs, there are exactly as many entries as inputs. */
  lemma {:induction false} AsesByIdSize(vec: seq<(Path, AsepriteFile)>)
    requires |vec| <= U32_MODULUS
    ensures |AsesById(vec)| == |vec|
    decreases |vec|
  {
    if vec != [] {
      var n := |vec| - 1;
      var pairs := KeyedPairs(vec);
      AsesByIdSize(vec[..n]);
      AsesByIdKeys(vec[..n]);
      KeyedPairsPrefix(vec, n);
      assert pairs[..n] == KeyedPairs(vec[..n]);
      assert pairs[n].0 == AseId(n);
      assert FromPairs(pairs) == FromPairs(pairs[..n])[AseId(n) := pairs[n].1];
      assert AsesById(vec) == FromPairs(pairs);
      assert AsesById(vec[..n]) == FromPairs(pairs[..n]);
      assert AseId(n) !in AsesById(vec[..n]);
    }
  }
}
