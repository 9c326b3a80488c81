/**
 * Vocabulary shared by every module of the model: optional values and
 * results, file paths, Rust's decimal rendering of unsigned integers, and
 * the two behaviours of Rust's `HashMap` the crate leans on: `collect` of
 * key/value pairs (a later pair overwrites an earlier one) and iteration
 * in an unspecified order.
 */
module Common {

  datatype Option<+T> = None | Some(value: T)

  datatype Result<+T, +E> = Ok(value: T) | Err(error: E)

  /** A file path relative to the assets directory (`PathBuf`). */
  type Path = string

  const U32_MODULUS: nat := 0x1_0000_0000

  /** Rust's `u32`. */
  type U32 = x: nat | x < U32_MODULUS

  const U16_MODULUS: nat := 0x1_0000

  /** Rust's `u16`. */
  type U16 = x: nat | x < U16_MODULUS

  // ---------------------------------------------------------------------------
  // Decimal rendering (`u32::to_string`, `{}` in `write!`)

  predicate IsDigit(c: char) {
    '0' <= c <= '9'
  }

  function DigitChar(d: nat): (c: char)
    requires d < 10
    ensures IsDigit(c) && c as int - '0' as int == d
  {
    ['0', '1', '2', '3', '4', '5', '6', '7', '8', '9'][d]
  }

  /** The shortest decimal numeral of `n`, most significant digit first. */
  function Decimal(n: nat): (s: string)
    ensures |s| >= 1
    ensures forall i :: 0 <= i < |s| ==> IsDigit(s[i])
    ensures |s| > 1 ==> s[0] != '0'
    decreases n
  {
    if n < 10 then [DigitChar(n)] else Decimal(n / 10) + [DigitChar(n % 10)]
  }

  /** The number a string of digits denotes. */
  function DigitsValue(s: string): nat
    requires forall i :: 0 <= i < |s| ==> IsDigit(s[i])
  {
    if s == [] then 0
    else
      assert IsDigit(s[|s| - 1]);
      DigitsValue(s[..|s| - 1]) * 10 + (s[|s| - 1] as int - '0' as int)
  }

  /** Reading the numeral back gives the number: decimal rendering loses nothing. */
  lemma {:induction false} DecimalRoundTrip(n: nat)
    ensures DigitsValue(Decimal(n)) == n
    decreases n
  {
    if n >= 10 {
      var s := Decimal(n);
      assert s[..|s| - 1] == Decimal(n / 10);
      DecimalRoundTrip(n / 10);
    }
  }

  /** Stripping a common prefix from two equal strings leaves equal strings. */
  lemma SamePrefixSameRest(p: string, x: string, y: string)
    requires p + x == p + y
    ensures x == y
  {
    assert x == (p + x)[|p|..] && y == (p + y)[|p|..];
  }

  /** A numeral followed by a non-digit can be cut off unambiguously. */
  lemma DigitsPrefixUnique(x: string, y: string, xs: string, ys: string)
    requires forall i :: 0 <= i < |x| ==> IsDigit(x[i])
    requires forall i :: 0 <= i < |y| ==> IsDigit(y[i])
    requires |xs| > 0 && !IsDigit(xs[0]) && |ys| > 0 && !IsDigit(ys[0])
    requires x + xs == y + ys
    ensures x == y && xs == ys
  {
    assert x == (x + xs)[..|x|] && y == (y + ys)[..|y|];
    assert xs == (x + xs)[|x|..] && ys == (y + ys)[|y|..];
  }

  predicate AllDigits(s: string) {
    forall i :: 0 <= i < |s| ==> IsDigit(s[i])
  }

  /** Two numerals between fixed texts, each followed by a non-digit, can be cut out again. */
  lemma TwoNumeralsSplit(p: string, q: string, r: string, d1: string, e1: string, d2: string, e2: string)
    requires AllDigits(d1) && AllDigits(e1) && AllDigits(d2) && AllDigits(e2)
    requires |q| > 0 && !IsDigit(q[0]) && |r| > 0 && !IsDigit(r[0])
    requires p + d1 + q + e1 + r == p + d2 + q + e2 + r
    ensures d1 == d2 && e1 == e2
  {
    var t1, t2 := q + (e1 + r), q + (e2 + r);
    assert p + d1 + q + e1 + r == p + (d1 + t1);
    assert p + d2 + q + e2 + r == p + (d2 + t2);
    SamePrefixSameRest(p, d1 + t1, d2 + t2);
    DigitsPrefixUnique(d1, d2, t1, t2);
    SamePrefixSameRest(q, e1 + r, e2 + r);
    DigitsPrefixUnique(e1, e2, r, r);
  }

  /** Two numbers rendered between fixed texts, each followed by a non-digit, can be read back. */
  lemma TwoNumeralsInjective(p: string, q: string, r: string, x1: nat, y1: nat, x2: nat, y2: nat)
    requires |q| > 0 && !IsDigit(q[0]) && |r| > 0 && !IsDigit(r[0])
    requires p + Decimal(x1) + q + Decimal(y1) + r == p + Decimal(x2) + q + Decimal(y2) + r
    ensures x1 == x2 && y1 == y2
  {
    TwoNumeralsSplit(p, q, r, Decimal(x1), Decimal(y1), Decimal(x2), Decimal(y2));
    DecimalInjective(x1, x2);
    DecimalInjective(y1, y2);
  }

  /** Moving the brackets of a nine-part concatenation. */
  lemma Regroup<T>(a: seq<T>, b: seq<T>, c: seq<T>, d: seq<T>, e: seq<T>, f: seq<T>, g: seq<T>, h: seq<T>, i: seq<T>)
    ensures a + (b + c + d) + e + (f + g + h) + i == (a + b) + c + (d + e + f) + g + (h + i)
  {
  }

  /** Two numbers with the same rendering are equal. */
  lemma DecimalInjective(a: nat, b: nat)
    requires Decimal(a) == Decimal(b)
    ensures a == b
  {
    DecimalRoundTrip(a);
    DecimalRoundTrip(b);
  }

  // ---------------------------------------------------------------------------
  // Index ranges

  /** `(lo..hi).map(|f| offset + f).collect()`: the half-open range `lo..hi`, shifted. */
  function ShiftedRange(offset: nat, lo: nat, hi: nat): (r: seq<nat>)
    ensures |r| == if lo <= hi then hi - lo else 0
    ensures forall i :: 0 <= i < |r| ==> r[i] == offset + lo + i
  {
    if lo < hi then seq(hi - lo, i requires 0 <= i < hi - lo => offset + lo + i) else []
  }

  /** A value is in the shifted range exactly when it lies between its ends. */
  lemma ShiftedRangeMembers(offset: nat, lo: nat, hi: nat, s: nat)
    ensures s in ShiftedRange(offset, lo, hi) <==> offset + lo <= s < offset + hi
  {
    var r := ShiftedRange(offset, lo, hi);
    if offset + lo <= s < offset + hi {
      assert r[s - offset - lo] == s;
    }
  }

  // ---------------------------------------------------------------------------
  // HashMap construction and iteration

  /** `pairs.into_iter().collect::<HashMap<_, _>>()`: each pair is inserted in turn. */
  function FromPairs<K, V>(pairs: seq<(K, V)>): (m: map<K, V>)
    ensures m.Keys == set i | 0 <= i < |pairs| :: pairs[i].0
    decreases |pairs|
  {
    if pairs == [] then map[]
    else
      var last := pairs[|pairs| - 1];
      FromPairs(pairs[..|pairs| - 1])[last.0 := last.1]
  }

  /** The value stored under a key is that of the LAST pair carrying the key. */
  lemma {:induction false} FromPairsLastWins<K, V>(pairs: seq<(K, V)>, i: nat)
    requires i < |pairs|
    requires forall j :: i < j < |pairs| ==> pairs[j].0 != pairs[i].0
    ensures pairs[i].0 in FromPairs(pairs)
    ensures FromPairs(pairs)[pairs[i].0] == pairs[i].1
    decreases |pairs|
  {
    if i < |pairs| - 1 {
      FromPairsLastWins(pairs[..|pairs| - 1], i);
    }
  }

  /** Every entry of the map comes from some pair. */
  lemma {:induction false} FromPairsEntryFrom<K, V>(pairs: seq<(K, V)>, k: K)
    requires k in FromPairs(pairs)
    ensures exists i :: 0 <= i < |pairs| && pairs[i] == (k, FromPairs(pairs)[k])
    decreases |pairs|
  {
    var n := |pairs| - 1;
    if pairs[n].0 != k {
      FromPairsEntryFrom(pairs[..n], k);
      var i :| 0 <= i < n && pairs[..n][i] == (k, FromPairs(pairs[..n])[k]);
      assert pairs[i] == (k, FromPairs(pairs)[k]);
    } else {
      assert pairs[n] == (k, FromPairs(pairs)[k]);
    }
  }

  /** `order` lists every key of a map exactly once: one possible iteration order. */
  predicate IsEnumeration<K>(order: seq<K>, keys: set<K>) {
    && (forall i, j :: 0 <= i < j < |order| ==> order[i] != order[j])
    && (forall i :: 0 <= i < |order| ==> order[i] in keys)
    && (forall k :: k in keys ==> k in order)
  }

  /**
   * Iterating a `HashMap`: the order is unspecified, so the method chooses one
   * and reports it; callers' contracts hold for whichever order it chose.
   */
  method Enumerate<K, V>(m: map<K, V>) returns (order: seq<K>)
    ensures IsEnumeration(order, m.Keys)
  {
    order := [];
    var remaining := m.Keys;
    while remaining != {}
      invariant forall i, j :: 0 <= i < j < |order| ==> order[i] != order[j]
      invariant forall i :: 0 <= i < |order| ==> order[i] in m.Keys && order[i] !in remaining
      invariant remaining <= m.Keys
      invariant forall k :: k in m.Keys ==> k in order || k in remaining
      decreases remaining
    {
      var k :| k in remaining;
      order := order + [k];
      remaining := remaining - {k};
    }
  }

  /** The sum of `f` over a sequence of keys. */
  function SumOf<K>(ks: seq<K>, f: K -> nat): nat
    decreases |ks|
  {
    if ks == [] then 0 else SumOf(ks[..|ks| - 1], f) + f(ks[|ks| - 1])
  }

  lemma {:induction false} SumOfAppend<K>(a: seq<K>, b: seq<K>, f: K -> nat)
    ensures SumOf(a + b, f) == SumOf(a, f) + SumOf(b, f)
    decreases |b|
  {
    if b == [] {
      assert a + b == a;
    } else {
      var ab := a + b;
      assert ab[..|ab| - 1] == a + b[..|b| - 1];
      assert ab[|ab| - 1] == b[|b| - 1];
      SumOfAppend(a, b[..|b| - 1], f);
    }
  }

  lemma SumOfRemove<K>(b: seq<K>, j: nat, f: K -> nat)
    requires j < |b|
    ensures SumOf(b, f) == SumOf(b[..j] + b[j + 1..], f) + f(b[j])
  {
    assert b == (b[..j] + [b[j]]) + b[j + 1..];
    SumOfAppend(b[..j] + [b[j]], b[j + 1..], f);
    SumOfAppend(b[..j], [b[j]], f);
    SumOfAppend(b[..j], b[j + 1..], f);
    assert SumOf([b[j]], f) == f(b[j]) by {
      assert [b[j]][..0] == [];
    }
  }

  lemma EnumerationRemove<K>(b: seq<K>, j: nat, keys: set<K>)
    requires IsEnumeration(b, keys) && j < |b|
    ensures IsEnumeration(b[..j] + b[j + 1..], keys - {b[j]})
  {
    var rest := b[..j] + b[j + 1..];
    forall i | 0 <= i < |rest|
      ensures rest[i] == b[if i < j then i else i + 1]
    {
    }
    forall k | k in keys - {b[j]}
      ensures k in rest
    {
      var p :| 0 <= p < |b| && b[p] == k;
      assert rest[if p < j then p else p - 1] == k;
    }
  }

  /** An iteration order has one element per key. */
  lemma {:induction false} EnumerationSize<K>(order: seq<K>, keys: set<K>)
    requires IsEnumeration(order, keys)
    ensures |order| == |keys|
    decreases |order|
  {
    if order == [] {
      assert keys == {};
    } else {
      var n := |order| - 1;
      EnumerationRemove(order, n, keys);
      assert order[..n] + order[n + 1..] == order[..n];
      EnumerationSize(order[..n], keys - {order[n]});
      assert keys == (keys - {order[n]}) + {order[n]};
    }
  }

  /** A sum over a map's keys does not depend on the iteration order. */
  lemma {:induction false} SumOfEnumerations<K>(a: seq<K>, b: seq<K>, keys: set<K>, f: K -> nat)
    requires IsEnumeration(a, keys) && IsEnumeration(b, keys)
    ensures SumOf(a, f) == SumOf(b, f)
    decreases |a|
  {
    if a == [] {
      EnumerationSize(a, keys);
      EnumerationSize(b, keys);
    } else {
      var n := |a| - 1;
      assert a[n] in keys;
      var j :| 0 <= j < |b| && b[j] == a[n];
      SumOfRemove(b, j, f);
      EnumerationRemove(b, j, keys);
      EnumerationRemove(a, n, keys);
      assert a[..n] + a[n + 1..] == a[..n];
      SumOfEnumerations(a[..n], b[..j] + b[j + 1..], keys - {a[n]}, f);
    }
  }
}
