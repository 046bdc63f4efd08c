/** Small shared vocabulary: an optional value and order-preserving selection. */
module Common {

  /** A value that may be absent (a JSON field that is `undefined` or a nullable React state). */
  datatype Option<+T> = None | Some(value: T)

  /** `xs` is obtained from `ys` by deleting elements, keeping the relative order of the rest. */
  ghost predicate IsSubsequence<T>(xs: seq<T>, ys: seq<T>)
    decreases |ys|
  {
    if xs == [] then true
    else if ys == [] then false
    else if xs[|xs| - 1] == ys[|ys| - 1] then IsSubsequence(xs[..|xs| - 1], ys[..|ys| - 1])
    else IsSubsequence(xs, ys[..|ys| - 1])
  }

  /** No element occurs twice. */
  ghost predicate Distinct<T>(s: seq<T>)
  {
    forall i, j | 0 <= i < j < |s| :: s[i] != s[j]
  }

  /** Keeping a subsequence while the longer sequence grows at the end. */
  lemma {:induction false} SubsequenceExtend<T>(xs: seq<T>, ys: seq<T>, y: T)
    requires IsSubsequence(xs, ys)
    ensures IsSubsequence(xs, ys + [y])
    decreases |ys|, 1
  {
    if xs != [] {
      var zs := ys + [y];
      assert zs[..|zs| - 1] == ys;
      if xs[|xs| - 1] == y {
        SubsequenceDropLast(xs, ys);
      }
    }
  }

  lemma {:induction false} SubsequenceDropLast<T>(xs: seq<T>, ys: seq<T>)
    requires xs != [] && IsSubsequence(xs, ys)
    ensures IsSubsequence(xs[..|xs| - 1], ys)
    decreases |ys|, 0
  {
    var xs' := xs[..|xs| - 1];
    if xs' != [] {
      var ys' := ys[..|ys| - 1];
      if xs[|xs| - 1] == ys[|ys| - 1] {
        SubsequenceExtend(xs', ys', ys[|ys| - 1]);
        assert ys' + [ys[|ys| - 1]] == ys;
      } else {
        SubsequenceDropLast(xs, ys');
        SubsequenceExtend(xs', ys', ys[|ys| - 1]);
        assert ys' + [ys[|ys| - 1]] == ys;
      }
    }
  }

  lemma {:induction false} SubsequenceRefl<T>(xs: seq<T>)
    ensures IsSubsequence(xs, xs)
  {
    if xs != [] {
      SubsequenceRefl(xs[..|xs| - 1]);
    }
  }

  /** A subsequence of a subsequence is a subsequence. */
  lemma {:induction false} SubsequenceTrans<T>(xs: seq<T>, ys: seq<T>, zs: seq<T>)
    requires IsSubsequence(xs, ys) && IsSubsequence(ys, zs)
    ensures IsSubsequence(xs, zs)
    decreases |zs|
  {
    if xs != [] {
      var zs' := zs[..|zs| - 1];
      var z := zs[|zs| - 1];
      assert zs' + [z] == zs;
      if ys[|ys| - 1] == z {
        var ys' := ys[..|ys| - 1];
        if xs[|xs| - 1] == ys[|ys| - 1] {
          SubsequenceTrans(xs[..|xs| - 1], ys', zs');
        } else {
          SubsequenceTrans(xs, ys', zs');
          SubsequenceExtend(xs, zs', z);
        }
      } else {
        SubsequenceTrans(xs, ys, zs');
        SubsequenceExtend(xs, zs', z);
      }
    }
  }

  /** Every element of a subsequence occurs in the longer sequence. */
  lemma {:induction false} SubsequenceMembers<T>(xs: seq<T>, ys: seq<T>, x: T)
    requires IsSubsequence(xs, ys) && x in xs
    ensures x in ys
    decreases |ys|
  {
    var ys' := ys[..|ys| - 1];
    assert ys' + [ys[|ys| - 1]] == ys;
    if xs[|xs| - 1] == ys[|ys| - 1] {
      var xs' := xs[..|xs| - 1];
      assert xs' + [xs[|xs| - 1]] == xs;
      if x != xs[|xs| - 1] {
        SubsequenceMembers(xs', ys', x);
      }
    } else {
      SubsequenceMembers(xs, ys', x);
    }
  }

  /** Deleting elements cannot create a repeat. */
  lemma {:induction false} DistinctSubsequence<T>(xs: seq<T>, ys: seq<T>)
    requires IsSubsequence(xs, ys) && Distinct(ys)
    ensures Distinct(xs)
    decreases |ys|
  {
    if xs != [] {
      var ys' := ys[..|ys| - 1];
      if xs[|xs| - 1] == ys[|ys| - 1] {
        var xs' := xs[..|xs| - 1];
        DistinctSubsequence(xs', ys');
        forall i | 0 <= i < |xs'|
          ensures xs'[i] != xs[|xs| - 1]
        {
          SubsequenceMembers(xs', ys', xs'[i]);
        }
      } else {
        DistinctSubsequence(xs, ys');
      }
    }
  }

  /** In a sequence without repeats every value occurs at most once. */
  lemma {:induction false} DistinctOccursOnce<T>(s: seq<T>, x: T)
    requires Distinct(s)
    ensures multiset(s)[x] <= 1
  {
    if s != [] {
      var s' := s[..|s| - 1];
      assert s' + [s[|s| - 1]] == s;
      DistinctOccursOnce(s', x);
      assert s[|s| - 1] !in s';
    }
  }

  /** A permutation of a sequence without repeats has no repeats. */
  lemma DistinctPermutation<T>(a: seq<T>, b: seq<T>)
    requires multiset(a) == multiset(b) && Distinct(a)
    ensures Distinct(b)
  {
    forall i, j | 0 <= i < j < |b|
      ensures b[i] != b[j]
    {
      if b[i] == b[j] {
        assert b == b[..i] + [b[i]] + b[i + 1..j] + [b[j]] + b[j + 1..];
        assert multiset(b)[b[i]] >= 2;
        DistinctOccursOnce(a, b[i]);
      }
    }
  }
}
