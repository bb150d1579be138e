/** Shared value types, machine-width arithmetic and finite sums. */
module Common {

  datatype Option<+T> = None | Some(value: T)

  const U64_MAX: nat := 0xFFFF_FFFF_FFFF_FFFF

  /** `u64`, and `usize` on the 64-bit targets the source is built for. */
  type U64 = n: nat | n <= U64_MAX

  datatype Path = Path(absolute: bool, parts: seq<string>)

  predicate IsControl(c: char) {
    c < ' ' || '\U{7f}' <= c <= '\U{9f}'
  }

  /** Free of control characters. */
  predicate Plain(s: string) {
    forall c :: c in s ==> !IsControl(c)
  }

  predicate RootOk(p: Path) {
    p.absolute && (forall part :: part in p.parts ==> Plain(part)) && ".." !in p.parts
  }

  function Min(a: int, b: int): int {
    if a < b then a else b
  }

  /** `saturating_add`. */
  function SatAdd(a: nat, b: nat): U64 {
    Min(a + b, U64_MAX)
  }

  /** `saturating_sub`. */
  function SatSub(a: nat, b: nat): nat {
    if a < b then 0 else a - b
  }

  /** The sum of `f` over the values that a finite map holds under `ks`. */
  ghost function SumOn<K(!new), V>(m: map<K, V>, ks: set<K>, f: V -> nat): nat
    requires ks <= m.Keys
    decreases ks
  {
    if ks == {} then 0 else
      var k :| k in ks;
      f(m[k]) + SumOn(m, ks - {k}, f)
  }

  ghost function Sum<K(!new), V>(m: map<K, V>, f: V -> nat): nat {
    SumOn(m, m.Keys, f)
  }

  lemma {:induction false} SumOnRemove<K(!new), V>(m: map<K, V>, ks: set<K>, f: V -> nat, k: K)
    requires ks <= m.Keys && k in ks
    ensures SumOn(m, ks, f) == f(m[k]) + SumOn(m, ks - {k}, f)
    decreases ks
  {
    var c :| c in ks && SumOn(m, ks, f) == f(m[c]) + SumOn(m, ks - {c}, f);
    if c != k {
      SumOnRemove(m, ks - {c}, f, k);
      SumOnRemove(m, ks - {k}, f, c);
      assert ks - {c} - {k} == ks - {k} - {c};
    }
  }

  /** Only the images of the values under `f` and `g` matter. */
  lemma {:induction false} SumOnCongruent<K(!new), V>(a: map<K, V>, b: map<K, V>, ks: set<K>, f: V -> nat, g: V -> nat)
    requires ks <= a.Keys && ks <= b.Keys
    requires forall k :: k in ks ==> f(a[k]) == g(b[k])
    ensures SumOn(a, ks, f) == SumOn(b, ks, g)
    decreases ks
  {
    if ks != {} {
      var k :| k in ks;
      SumOnRemove(a, ks, f, k);
      SumOnRemove(b, ks, g, k);
      SumOnCongruent(a, b, ks - {k}, f, g);
    }
  }

  lemma SumRemove<K(!new), V>(m: map<K, V>, f: V -> nat, k: K)
    requires k in m
    ensures Sum(m, f) == f(m[k]) + Sum(m - {k}, f)
  {
    SumOnRemove(m, m.Keys, f, k);
    SumOnCongruent(m, m - {k}, m.Keys - {k}, f, f);
    assert (m - {k}).Keys == m.Keys - {k};
  }

  lemma SumPut<K(!new), V>(m: map<K, V>, f: V -> nat, k: K, v: V)
    requires k !in m
    ensures Sum(m[k := v], f) == f(v) + Sum(m, f)
  {
    SumRemove(m[k := v], f, k);
    assert m[k := v] - {k} == m;
  }

  lemma SumCongruent<K(!new), V>(a: map<K, V>, b: map<K, V>, f: V -> nat, g: V -> nat)
    requires a.Keys == b.Keys
    requires forall k :: k in a ==> f(a[k]) == g(b[k])
    ensures Sum(a, f) == Sum(b, g)
  {
    SumOnCongruent(a, b, a.Keys, f, g);
  }

  lemma {:induction false} SumOnMonotone<K(!new), V>(a: map<K, V>, b: map<K, V>, ks: set<K>, ls: set<K>, f: V -> nat, g: V -> nat)
    requires ks <= a.Keys && ls <= b.Keys && ks <= ls
    requires forall k :: k in ks ==> f(a[k]) <= g(b[k])
    ensures SumOn(a, ks, f) <= SumOn(b, ls, g)
    decreases ks
  {
    if ks != {} {
      var k :| k in ks;
      SumOnRemove(a, ks, f, k);
      SumOnRemove(b, ls, g, k);
      SumOnMonotone(a, b, ks - {k}, ls - {k}, f, g);
    }
  }

  lemma SumMonotone<K(!new), V>(a: map<K, V>, b: map<K, V>, f: V -> nat, g: V -> nat)
    requires a.Keys <= b.Keys
    requires forall k :: k in a ==> f(a[k]) <= g(b[k])
    ensures Sum(a, f) <= Sum(b, g)
  {
    SumOnMonotone(a, b, a.Keys, b.Keys, f, g);
  }

  lemma CountMinus<K, V>(m: map<K, V>, ks: set<K>)
    ensures |m - ks| <= |m|
    ensures ks <= m.Keys ==> |m - ks| == |m| - |ks|
  {
  }

  lemma CountKeys<K, V, W>(a: map<K, V>, b: map<K, W>)
    requires a.Keys == b.Keys
    ensures |a| == |b|
  {
  }
}
