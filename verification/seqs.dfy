/** Sequence helpers shared by the layout tree, the filter pipeline and the workspace containers. */
module Seqs {

  /** `s.map(f)` */
  function MapSeq<A, B>(f: A -> B, s: seq<A>): (r: seq<B>)
    ensures |r| == |s|
    ensures forall i :: 0 <= i < |s| ==> r[i] == f(s[i])
  {
    seq(|s|, i requires 0 <= i < |s| => f(s[i]))
  }

  /** Concatenation of a sequence of sequences, left to right. */
  function Flatten<T>(xs: seq<seq<T>>): seq<T>
  {
    if xs == [] then [] else xs[0] + Flatten(xs[1..])
  }

  /** `s` with every occurrence of `x` removed, order kept. */
  function Without<T(==)>(s: seq<T>, x: T): (r: seq<T>)
    ensures forall y :: y in r ==> y in s && y != x
    ensures forall y :: y in s && y != x ==> y in r
    ensures x !in s ==> r == s
  {
    if s == [] then []
    else if s[0] == x then Without(s[1..], x)
    else [s[0]] + Without(s[1..], x)
  }

  /** No element occurs twice. */
  predicate NoDup<T(==)>(s: seq<T>)
  {
    forall i, j :: 0 <= i < j < |s| ==> s[i] != s[j]
  }

  /** `Array.prototype.indexOf`: the first index holding `x`, or -1. */
  function IndexOf<T(==)>(s: seq<T>, x: T): (r: int)
    ensures -1 <= r < |s|
    ensures r == -1 <==> x !in s
    ensures 0 <= r ==> s[r] == x && x !in s[..r]
  {
    if s == [] then -1
    else if s[0] == x then 0
    else var k := IndexOf(s[1..], x); if k == -1 then -1 else k + 1
  }

  /** `s.slice().reverse()` */
  function Reverse<T>(s: seq<T>): (r: seq<T>)
    ensures |r| == |s|
    ensures forall i :: 0 <= i < |s| ==> r[i] == s[|s| - 1 - i]
  {
    if s == [] then [] else Reverse(s[1..]) + [s[0]]
  }

  /** Inserting at position `k` (clamped like `insertWidget`) keeps everything else in order. */
  function InsertAt<T>(s: seq<T>, k: int, x: T): (r: seq<T>)
    ensures |r| == |s| + 1
    ensures var j := if k < 0 then 0 else if k > |s| then |s| else k;
      r[j] == x && r[..j] == s[..j] && r[j + 1..] == s[j..]
  {
    var j := if k < 0 then 0 else if k > |s| then |s| else k;
    s[..j] + [x] + s[j..]
  }

  /** Reversing twice gives back the sequence. */
  lemma ReverseInvolutive<T>(s: seq<T>)
    ensures Reverse(Reverse(s)) == s
  {
  }

  /** Removing an element never lengthens a sequence, and shortens it when the element is there. */
  lemma {:induction false} WithoutShorter<T>(s: seq<T>, x: T)
    ensures |Without(s, x)| <= |s|
    ensures x in s ==> |Without(s, x)| < |s|
  {
    if s != [] {
      WithoutShorter(s[1..], x);
      assert x in s && s[0] != x ==> x in s[1..];
    }
  }

  lemma {:induction false} FlattenAppend<T>(xs: seq<seq<T>>, ys: seq<seq<T>>)
    ensures Flatten(xs + ys) == Flatten(xs) + Flatten(ys)
  {
    if xs == [] {
      assert xs + ys == ys;
    } else {
      assert (xs + ys)[1..] == xs[1..] + ys;
      FlattenAppend(xs[1..], ys);
    }
  }

  lemma {:induction false} FlattenMember<T>(xs: seq<seq<T>>, x: T)
    ensures x in Flatten(xs) <==> exists i :: 0 <= i < |xs| && x in xs[i]
  {
    if xs != [] {
      FlattenMember(xs[1..], x);
      if x in Flatten(xs[1..]) {
        var i :| 0 <= i < |xs[1..]| && x in xs[1..][i];
        assert x in xs[i + 1];
      }
      if exists i :: 0 <= i < |xs| && x in xs[i] {
        var i :| 0 <= i < |xs| && x in xs[i];
        if i > 0 { assert x in xs[1..][i - 1]; }
      }
    }
  }

  /** Mapping each block and then flattening is mapping the flattened sequence. */
  lemma {:induction false} FlattenMap<A, B>(f: A -> B, xs: seq<seq<A>>, ys: seq<seq<B>>)
    requires |ys| == |xs|
    requires forall i :: 0 <= i < |xs| ==> ys[i] == MapSeq(f, xs[i])
    ensures Flatten(ys) == MapSeq(f, Flatten(xs))
  {
    if xs != [] {
      FlattenMap(f, xs[1..], ys[1..]);
      assert MapSeq(f, xs[0] + Flatten(xs[1..])) == MapSeq(f, xs[0]) + MapSeq(f, Flatten(xs[1..]));
    }
  }

  lemma {:induction false} WithoutAppend<T>(s: seq<T>, t: seq<T>, x: T)
    ensures Without(s + t, x) == Without(s, x) + Without(t, x)
  {
    if s != [] {
      assert (s + t)[1..] == s[1..] + t;
      WithoutAppend(s[1..], t, x);
    } else {
      assert s + t == t;
    }
  }

  /** Removing an element from each block and then flattening is removing it from the flattened sequence. */
  lemma {:induction false} FlattenWithout<T>(xs: seq<seq<T>>, ys: seq<seq<T>>, x: T)
    requires |ys| == |xs|
    requires forall i :: 0 <= i < |xs| ==> ys[i] == Without(xs[i], x)
    ensures Flatten(ys) == Without(Flatten(xs), x)
  {
    if xs != [] {
      FlattenWithout(xs[1..], ys[1..], x);
      WithoutAppend(xs[0], Flatten(xs[1..]), x);
    }
  }

  lemma {:induction false} WithoutNoDup<T>(s: seq<T>, x: T)
    requires NoDup(s)
    ensures NoDup(Without(s, x))
  {
    if s != [] {
      WithoutNoDup(s[1..], x);
      assert NoDup(s[1..]);
      assert s[0] !in s[1..];
      var r := Without(s[1..], x);
      if s[0] != x {
        assert s[0] !in r;
        assert forall i, j :: 0 <= i < j < |[s[0]] + r| ==> ([s[0]] + r)[i] != ([s[0]] + r)[j] by {
          forall i, j | 0 <= i < j < |[s[0]] + r| ensures ([s[0]] + r)[i] != ([s[0]] + r)[j] {
            if i == 0 { assert ([s[0]] + r)[j] == r[j - 1]; }
          }
        }
      }
    }
  }

  /** Putting a new element anywhere keeps a sequence free of duplicates. */
  lemma NoDupInsert<T>(p: seq<T>, q: seq<T>, x: T)
    requires NoDup(p + q) && x !in p + q
    ensures NoDup(p + [x] + q)
  {
    var s := p + [x] + q;
    forall i, j | 0 <= i < j < |s| ensures s[i] != s[j] {
      if i < |p| && j > |p| { assert s[i] == (p + q)[i] && s[j] == (p + q)[j - 1]; }
      else if i > |p| { assert s[i] == (p + q)[i - 1] && s[j] == (p + q)[j - 1]; }
      else if i < |p| && j < |p| { assert s[i] == (p + q)[i] && s[j] == (p + q)[j]; }
      else if i == |p| { assert s[j] == (p + q)[j - 1]; }
      else { assert s[i] == (p + q)[i]; }
    }
  }

  /** Two duplicate-free sequences with nothing in common concatenate to a duplicate-free one. */
  lemma NoDupConcat<T>(p: seq<T>, q: seq<T>)
    requires NoDup(p) && NoDup(q)
    requires forall x :: x in p ==> x !in q
    ensures NoDup(p + q)
  {
    var r := p + q;
    forall i, j | 0 <= i < j < |r| ensures r[i] != r[j] {
      if j < |p| {
        assert r[i] == p[i] && r[j] == p[j];
      } else if i >= |p| {
        assert r[i] == q[i - |p|] && r[j] == q[j - |p|];
      } else {
        assert r[i] in p && r[j] in q;
      }
    }
  }
}
