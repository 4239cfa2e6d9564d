/** Option and Result, and a finite sum over the values of a map. */
module Common {

  datatype Option<+T> = None | Some(value: T)

  datatype Result<+T, +E> = Ok(value: T) | Err(error: E)

  ghost function Pick<K, V>(m: map<K, V>): (k: K)
    requires m != map[]
    ensures k in m
  {
    assert m.Keys != {};
    var k :| k in m;
    k
  }

  /** The sum of `f` over the values of `m`. */
  ghost function Sum<K, V>(m: map<K, V>, f: V -> nat): nat
    decreases |m|
  {
    if m == map[] then 0
    else
      var k := Pick(m);
      assert (m - {k}).Keys == m.Keys - {k};
      f(m[k]) + Sum(m - {k}, f)
  }

  lemma {:induction false} SumRemove<K, V>(m: map<K, V>, f: V -> nat, k: K)
    requires k in m
    ensures Sum(m, f) == f(m[k]) + Sum(m - {k}, f)
    decreases |m|
  {
    var p := Pick(m);
    assert (m - {p}).Keys == m.Keys - {p};
    if p != k {
      SumRemove(m - {p}, f, k);
      assert (m - {k}).Keys == m.Keys - {k};
      SumRemove(m - {k}, f, p);
      assert m - {p} - {k} == m - {k} - {p};
    }
  }

  lemma SumInsert<K, V>(m: map<K, V>, f: V -> nat, k: K, v: V)
    requires k !in m
    ensures Sum(m[k := v], f) == Sum(m, f) + f(v)
  {
    SumRemove(m[k := v], f, k);
    assert m[k := v] - {k} == m;
  }

  /** A map whose every value is bounded by the value another map has at the same key has the smaller sum. */
  lemma {:induction false} SumDominated<K, V, W>(m: map<K, V>, f: V -> nat, n: map<K, W>, g: W -> nat)
    requires forall k :: k in m ==> k in n && f(m[k]) <= g(n[k])
    ensures Sum(m, f) <= Sum(n, g)
    decreases |m|
  {
    if m != map[] {
      var p := Pick(m);
      assert (m - {p}).Keys == m.Keys - {p};
      SumRemove(n, g, p);
      SumDominated(m - {p}, f, n - {p}, g);
    }
  }

  /** Counting one for every key gives the size of the map. */
  lemma {:induction false} SumOfOnes<K, V>(m: map<K, V>, one: V -> nat)
    requires forall v: V :: one(v) == 1
    ensures Sum(m, one) == |m|
    decreases |m|
  {
    if m != map[] {
      var p := Pick(m);
      assert (m - {p}).Keys == m.Keys - {p};
      SumOfOnes(m - {p}, one);
    }
  }

  // ---- text ------------------------------------------------------------------

  /** Unicode White_Space, which `trim` removes. */
  predicate IsSpace(c: char) {
    var n := c as int;
    || 9 <= n <= 13 || n == 32 || n == 133 || n == 160 || n == 5760
    || 8192 <= n <= 8202 || n == 8232 || n == 8233 || n == 8239 || n == 8287 || n == 12288
  }

  /** ASCII letters in lower case, as `eq_ignore_ascii_case` compares. */
  function Lower(s: string): (r: string)
    ensures |r| == |s|
  {
    seq(|s|, k requires 0 <= k < |s| => if 'A' <= s[k] <= 'Z' then (s[k] as int + 32) as char else s[k])
  }

  /** Equal up to the case of ASCII letters. */
  ghost predicate EqualButForCase(a: string, b: string) {
    |a| == |b| && forall k :: 0 <= k < |a| ==> EqualLetters(a[k], b[k])
  }

  predicate EqualLetters(a: char, b: char) {
    || a == b
    || ('A' <= a <= 'Z' && b as int == a as int + 32)
    || ('A' <= b <= 'Z' && a as int == b as int + 32)
  }

  lemma LowerExactly(a: string, b: string)
    ensures Lower(a) == Lower(b) <==> EqualButForCase(a, b)
  {
    if Lower(a) == Lower(b) {
      forall k | 0 <= k < |a|
        ensures |a| == |b| && EqualLetters(a[k], b[k])
      {
        assert |Lower(a)| == |a| && |Lower(b)| == |b|;
        assert Lower(a)[k] == Lower(b)[k];
      }
      assert |Lower(a)| == |a| && |Lower(b)| == |b|;
    }
  }
}
