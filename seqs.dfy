/** Sequence facts shared by the pattern generator and the statistics scripts:
    occurrence counting, `String.prototype.repeat` and `endsWith`. */
module Seqs {

  /** Number of occurrences of `x` in `s`. Counted from the end, so that
      appending one element changes the count by at most one, as each
      `forEach` step of the counting loops does. */
  function Count<T(==)>(x: T, s: seq<T>): (n: nat)
    ensures n <= |s|
    ensures n == 0 <==> x !in s
  {
    if s == [] then 0 else Count(x, s[..|s| - 1]) + (if s[|s| - 1] == x then 1 else 0)
  }

  lemma {:induction false} CountAppend<T>(x: T, a: seq<T>, b: seq<T>)
    ensures Count(x, a + b) == Count(x, a) + Count(x, b)
  {
    if b == [] {
      assert a + b == a;
    } else {
      var b' := b[..|b| - 1];
      assert (a + b)[..|a + b| - 1] == a + b';
      CountAppend(x, a, b');
    }
  }

  lemma CountSnoc<T>(x: T, s: seq<T>, y: T)
    ensures Count(x, s + [y]) == Count(x, s) + (if y == x then 1 else 0)
  {
    assert (s + [y])[..|s + [y]| - 1] == s;
  }

  /** No element occurs twice. */
  predicate NoDup<T(==)>(s: seq<T>)
  {
    forall i, j :: 0 <= i < j < |s| ==> s[i] != s[j]
  }

  lemma {:induction false} CountInNoDup<T>(x: T, s: seq<T>)
    requires NoDup(s)
    ensures Count(x, s) == if x in s then 1 else 0
  {
    if s != [] {
      var s' := s[..|s| - 1];
      assert NoDup(s');
      CountInNoDup(x, s');
      assert s == s' + [s[|s| - 1]];
      assert s[|s| - 1] == x ==> x !in s';
    }
  }

  /** The sum, over the keys `ks`, of the number of occurrences of each key in `s`. */
  function SumCounts<T(==)>(ks: seq<T>, s: seq<T>): nat
  {
    if ks == [] then 0 else Count(ks[0], s) + SumCounts(ks[1..], s)
  }

  lemma {:induction false} SumCountsSnoc<T>(ks: seq<T>, s: seq<T>, y: T)
    ensures SumCounts(ks, s + [y]) == SumCounts(ks, s) + Count(y, ks)
  {
    if ks != [] {
      SumCountsSnoc(ks[1..], s, y);
      CountSnoc(ks[0], s, y);
      assert ks == [ks[0]] + ks[1..];
      CountAppend(y, [ks[0]], ks[1..]);
      CountSnoc(y, [], ks[0]);
    }
  }

  lemma {:induction false} SumCountsOfEmpty<T>(ks: seq<T>)
    ensures SumCounts(ks, []) == 0
  {
    if ks != [] {
      SumCountsOfEmpty(ks[1..]);
    }
  }

  /** When every element of `s` is one of the distinct keys `ks`, the
      per-key counts add up to the length of `s`. */
  lemma {:induction false} SumCountsIsLength<T>(ks: seq<T>, s: seq<T>)
    requires NoDup(ks)
    requires forall i :: 0 <= i < |s| ==> s[i] in ks
    ensures SumCounts(ks, s) == |s|
  {
    if s != [] {
      var s' := s[..|s| - 1];
      assert s == s' + [s[|s| - 1]];
      assert forall i :: 0 <= i < |s'| ==> s'[i] == s[i];
      SumCountsIsLength(ks, s');
      SumCountsSnoc(ks, s', s[|s| - 1]);
      assert s[|s| - 1] in ks;
      CountInNoDup(s[|s| - 1], ks);
    } else {
      SumCountsOfEmpty(ks);
    }
  }

  /** `s.repeat(n)` in JavaScript. */
  function Repeat<T>(s: seq<T>, n: nat): (r: seq<T>)
    ensures |r| == n * |s|
  {
    if n == 0 then [] else Repeat(s, n - 1) + s
  }

  /** Repeating a one-element sequence gives that element at every position. */
  lemma {:induction false} RepeatOne<T>(c: T, n: nat)
    ensures forall i :: 0 <= i < |Repeat([c], n)| ==> Repeat([c], n)[i] == c
  {
    if n > 0 {
      RepeatOne(c, n - 1);
      assert Repeat([c], n) == Repeat([c], n - 1) + [c];
    }
  }

  /** Block `j` of a repetition, the positions `j * |s|` to `j * |s| + |s| - 1`, is `s` itself. */
  lemma {:induction false} RepeatBlock<T>(s: seq<T>, n: nat, j: nat, o: nat)
    requires j < n && o < |s|
    ensures j * |s| + o < |Repeat(s, n)| && Repeat(s, n)[j * |s| + o] == s[o]
  {
    var m := (n - 1) * |s|;
    assert n * |s| == m + |s|;
    if j < n - 1 {
      MulLess(j + 1, n - 1, |s|);
      RepeatBlock(s, n - 1, j, o);
    }
  }

  lemma MulLess(a: nat, b: nat, c: nat)
    requires a <= b
    ensures a * c <= b * c
  {
    assert b * c == a * c + (b - a) * c;
  }

  /** `s.endsWith(suffix)` in JavaScript. */
  predicate EndsWith<T(==)>(s: seq<T>, suffix: seq<T>)
  {
    |suffix| <= |s| && s[|s| - |suffix|..] == suffix
  }
}
