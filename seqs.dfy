/** Generic facts about sequences: weighted sums, distinctness, first-occurrence order. */
module Seqs {

  /** The sum of `w` over `s`; the last element is added last. */
  function SumW<T>(s: seq<T>, w: T -> int): int
  {
    if s == [] then 0 else SumW(s[..|s| - 1], w) + w(s[|s| - 1])
  }

  /** The weight that counts elements. */
  function One<T>(x: T): int { 1 }

  lemma SumWAppend<T>(s: seq<T>, x: T, w: T -> int)
    ensures SumW(s + [x], w) == SumW(s, w) + w(x)
  {
    assert (s + [x])[..|s|] == s;
  }

  lemma {:induction false} SumWConcat<T>(a: seq<T>, b: seq<T>, w: T -> int)
    ensures SumW(a + b, w) == SumW(a, w) + SumW(b, w)
    decreases |b|
  {
    if b == [] {
      assert a + b == a;
    } else {
      var b' := b[..|b| - 1];
      SumWConcat(a, b', w);
      assert a + b == (a + b') + [b[|b| - 1]];
      SumWAppend(a + b', b[|b| - 1], w);
    }
  }

  lemma {:induction false} SumWOne<T>(s: seq<T>)
    ensures SumW(s, One) == |s|
    decreases |s|
  {
    if s != [] {
      SumWOne(s[..|s| - 1]);
    }
  }

  /** Two weights that agree on every element of `s` have the same sum. */
  lemma {:induction false} SumWCongruent<T>(s: seq<T>, f: T -> int, g: T -> int)
    requires forall x :: x in s ==> f(x) == g(x)
    ensures SumW(s, f) == SumW(s, g)
    decreases |s|
  {
    if s != [] {
      SumWCongruent(s[..|s| - 1], f, g);
    }
  }

  /** Sums are additive in the weight. */
  lemma {:induction false} SumWPointwise<T>(s: seq<T>, f: T -> int, g: T -> int, h: T -> int)
    requires forall x :: x in s ==> h(x) == f(x) + g(x)
    ensures SumW(s, h) == SumW(s, f) + SumW(s, g)
    decreases |s|
  {
    if s != [] {
      SumWPointwise(s[..|s| - 1], f, g, h);
    }
  }

  /** A weight that is zero on every element sums to zero. */
  lemma {:induction false} SumWZero<T>(s: seq<T>, f: T -> int)
    requires forall x :: x in s ==> f(x) == 0
    ensures SumW(s, f) == 0
    decreases |s|
  {
    if s != [] {
      SumWZero(s[..|s| - 1], f);
    }
  }

  /** Over distinct elements, a weight that is `v` at `k` and zero elsewhere sums to `v`. */
  lemma {:induction false} SumWSingle<T>(s: seq<T>, k: T, v: int, f: T -> int)
    requires Distinct(s) && k in s
    requires forall x :: x in s ==> f(x) == (if x == k then v else 0)
    ensures SumW(s, f) == v
    decreases |s|
  {
    var s' := s[..|s| - 1];
    var last := s[|s| - 1];
    assert s == s' + [last];
    if last == k {
      assert k !in s';
      SumWZero(s', f);
    } else {
      SumWSingle(s', k, v, f);
    }
  }

  /** Summing the images of `s` under `g` is summing `s` under the composed weight `h`. */
  lemma {:induction false} SumWImage<T, U>(s: seq<T>, g: T -> U, w: U -> int, h: T -> int)
    requires forall x :: x in s ==> h(x) == w(g(x))
    ensures SumW(Image(s, g), w) == SumW(s, h)
    decreases |s|
  {
    if s != [] {
      var s' := s[..|s| - 1];
      assert Image(s, g) == Image(s', g) + [g(s[|s| - 1])];
      SumWImage(s', g, w, h);
      SumWAppend(Image(s', g), g(s[|s| - 1]), w);
    }
  }

  /** The images of the elements of `s` under `g`, in order. */
  function Image<T, U>(s: seq<T>, g: T -> U): (r: seq<U>)
    ensures |r| == |s| && forall i :: 0 <= i < |s| ==> r[i] == g(s[i])
  {
    seq(|s|, i requires 0 <= i < |s| => g(s[i]))
  }

  lemma ImageSnoc<T, U>(s: seq<T>, x: T, g: T -> U)
    ensures Image(s + [x], g) == Image(s, g) + [g(x)]
  {
  }

  lemma ImagePrefix<T, U>(s: seq<T>, i: nat, g: T -> U)
    requires i < |s|
    ensures Image(s[..i + 1], g) == Image(s[..i], g) + [g(s[i])]
  {
    assert s[..i + 1] == s[..i] + [s[i]];
    ImageSnoc(s[..i], s[i], g);
  }

  /** One step of a loop that appends the image of each element of `s` to `out`. */
  lemma ImageStep<T, U>(out: seq<U>, prefix: seq<U>, s: seq<T>, i: nat, g: T -> U)
    requires i < |s| && out == prefix + Image(s[..i], g)
    ensures out + [g(s[i])] == prefix + Image(s[..i + 1], g)
  {
    ImagePrefix(s, i, g);
  }

  predicate Distinct<T(==)>(s: seq<T>)
  {
    forall i, j :: 0 <= i < j < |s| ==> s[i] != s[j]
  }

  /** The distinct elements of `s` in the order of their first occurrence. */
  function Dedup<T(==,!new)>(s: seq<T>): (r: seq<T>)
    ensures Distinct(r)
    ensures forall x :: x in r <==> x in s
    decreases |s|
  {
    if s == [] then []
    else
      var d := Dedup(s[..|s| - 1]);
      var x := s[|s| - 1];
      if x in d then d else d + [x]
  }

  lemma DedupAppend<T(!new)>(s: seq<T>, x: T)
    ensures Dedup(s + [x]) == if x in s then Dedup(s) else Dedup(s) + [x]
  {
    assert (s + [x])[..|s|] == s;
  }

  /** The first occurrences keep their relative order: `Dedup` of an extension extends `Dedup`. */
  lemma {:induction false} DedupPrefix<T(!new)>(a: seq<T>, b: seq<T>)
    ensures |Dedup(a)| <= |Dedup(a + b)| && Dedup(a + b)[..|Dedup(a)|] == Dedup(a)
    decreases |b|
  {
    if b == [] {
      assert a + b == a;
    } else {
      var b' := b[..|b| - 1];
      DedupPrefix(a, b');
      assert a + b == (a + b') + [b[|b| - 1]];
      DedupAppend(a + b', b[|b| - 1]);
    }
  }

  /** Indexing into the third part of a right-nested concatenation. */
  lemma Nest<T>(a: seq<T>, f: seq<T>, l: seq<T>, y: seq<T>, i: int)
    requires 0 <= i < |l|
    ensures (a + (f + (l + y)))[|a| + |f| + i] == l[i]
  {
    assert (a + (f + (l + y)))[|a| + (|f| + i)] == (f + (l + y))[|f| + i];
  }

  /** Indexing into the fourth part of a right-nested concatenation. */
  lemma Nest4<T>(a: seq<T>, f: seq<T>, l: seq<T>, b: seq<T>, e: seq<T>, i: int)
    requires 0 <= i < |b|
    ensures (a + (f + (l + (b + e))))[|a| + |f| + |l| + i] == b[i]
  {
    assert (a + (f + (l + (b + e))))[|a| + (|f| + (|l| + i))] == (f + (l + (b + e)))[|f| + (|l| + i)]
      == (l + (b + e))[|l| + i] == (b + e)[i];
  }

  /** A sequence is its part before `j`, its element at `j` and its part after `j`. */
  lemma Around<T>(s: seq<T>, j: int)
    requires 0 <= j < |s|
    ensures s == s[..j] + [s[j]] + s[j + 1..]
  {
  }

  /** A non-empty sequence is its front followed by its last element. */
  lemma Snoc<T>(s: seq<T>)
    requires |s| > 0
    ensures s == s[..|s| - 1] + [s[|s| - 1]]
  {
  }
}
