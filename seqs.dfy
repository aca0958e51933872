/** Order-preserving selection from a sequence (`Array.prototype.filter`) and
    the sub-sequence relation it establishes. */
module Seqs {

  /** The elements of `s` that satisfy `p`, in their order in `s`. */
  function Filter<T>(p: T -> bool, s: seq<T>): (r: seq<T>)
    ensures |r| <= |s|
  {
    if |s| == 0 then []
    else Filter(p, s[..|s| - 1]) + (if p(s[|s| - 1]) then [s[|s| - 1]] else [])
  }

  /** `a` is obtained from `b` by deleting elements, keeping the rest in order. */
  predicate Subseq<T(==)>(a: seq<T>, b: seq<T>)
    decreases |b|
  {
    if |a| == 0 then true
    else if |b| == 0 then false
    else if a[|a| - 1] == b[|b| - 1] then Subseq(a[..|a| - 1], b[..|b| - 1])
    else Subseq(a, b[..|b| - 1])
  }

  /** The one-step unfolding of `Filter` at a prefix, the shape loops need. */
  lemma FilterSnoc<T>(p: T -> bool, s: seq<T>, i: nat)
    requires i < |s|
    ensures Filter(p, s[..i + 1]) == Filter(p, s[..i]) + (if p(s[i]) then [s[i]] else [])
  {
    assert s[..i + 1][..i] == s[..i];
  }

  lemma {:induction false} FilterMembers<T>(p: T -> bool, s: seq<T>, x: T)
    ensures x in Filter(p, s) <==> x in s && p(x)
  {
    if |s| > 0 {
      FilterMembers(p, s[..|s| - 1], x);
      assert s == s[..|s| - 1] + [s[|s| - 1]];
    }
  }

  lemma {:induction false} SubseqOfSnoc<T>(a: seq<T>, b: seq<T>, x: T)
    requires Subseq(a, b)
    ensures Subseq(a, b + [x])
    decreases |b|, 1
  {
    var c := b + [x];
    assert c[..|c| - 1] == b;
    if |a| > 0 && a[|a| - 1] == x {
      // Subseq(a, b) implies Subseq(a[..|a|-1], b)
      SubseqDropLast(a, b);
    }
  }

  lemma {:induction false} SubseqDropLast<T>(a: seq<T>, b: seq<T>)
    requires |a| > 0 && Subseq(a, b)
    ensures Subseq(a[..|a| - 1], b)
    decreases |b|, 0
  {
    if a[|a| - 1] == b[|b| - 1] {
      SubseqOfSnoc(a[..|a| - 1], b[..|b| - 1], b[|b| - 1]);
      assert b[..|b| - 1] + [b[|b| - 1]] == b;
    } else {
      SubseqDropLast(a, b[..|b| - 1]);
      SubseqOfSnoc(a[..|a| - 1], b[..|b| - 1], b[|b| - 1]);
      assert b[..|b| - 1] + [b[|b| - 1]] == b;
    }
  }

  /** What `filter` keeps is a sub-sequence of what it was given. */
  lemma {:induction false} FilterIsSubseq<T>(p: T -> bool, s: seq<T>)
    ensures Subseq(Filter(p, s), s)
  {
    if |s| > 0 {
      var init := s[..|s| - 1];
      FilterIsSubseq(p, init);
      var f := Filter(p, init);
      if p(s[|s| - 1]) {
        var g := f + [s[|s| - 1]];
        assert g[..|g| - 1] == f;
      } else {
        assert Filter(p, s) == f;
        SubseqOfSnoc(f, init, s[|s| - 1]);
        assert init + [s[|s| - 1]] == s;
      }
    }
  }

  lemma {:induction false} SubseqTransitive<T>(a: seq<T>, b: seq<T>, c: seq<T>)
    requires Subseq(a, b) && Subseq(b, c)
    ensures Subseq(a, c)
    decreases |c|
  {
    if |a| == 0 {
    } else if |b| == 0 {
    } else if b[|b| - 1] == c[|c| - 1] {
      if a[|a| - 1] == b[|b| - 1] {
        SubseqTransitive(a[..|a| - 1], b[..|b| - 1], c[..|c| - 1]);
      } else {
        SubseqTransitive(a, b[..|b| - 1], c[..|c| - 1]);
      }
    } else {
      SubseqTransitive(a, b, c[..|c| - 1]);
      SubseqOfSnoc(a, c[..|c| - 1], c[|c| - 1]);
      assert c[..|c| - 1] + [c[|c| - 1]] == c;
    }
  }

  /** Adding an element in front of the larger sequence keeps the relation. */
  lemma {:induction false} SubseqConsRight<T>(a: seq<T>, b: seq<T>, x: T)
    requires Subseq(a, b)
    ensures Subseq(a, [x] + b)
    decreases |b|
  {
    var c := [x] + b;
    if |a| > 0 {
      assert c[|c| - 1] == b[|b| - 1];
      assert c[..|c| - 1] == [x] + b[..|b| - 1];
      if a[|a| - 1] == b[|b| - 1] {
        SubseqConsRight(a[..|a| - 1], b[..|b| - 1], x);
      } else {
        SubseqConsRight(a, b[..|b| - 1], x);
      }
    }
  }

  /** Adding the same element in front of both keeps the relation. */
  lemma {:induction false} SubseqConsBoth<T>(a: seq<T>, b: seq<T>, x: T)
    requires Subseq(a, b)
    ensures Subseq([x] + a, [x] + b)
    decreases |b|
  {
    var a', c := [x] + a, [x] + b;
    if |b| == 0 {
      assert a' == [x] && c == [x];
      assert a'[..0] == [];
    } else {
      assert c[|c| - 1] == b[|b| - 1];
      assert c[..|c| - 1] == [x] + b[..|b| - 1];
      if |a| > 0 && a[|a| - 1] == b[|b| - 1] {
        SubseqConsBoth(a[..|a| - 1], b[..|b| - 1], x);
        assert a'[..|a'| - 1] == [x] + a[..|a| - 1];
      } else if |a| == 0 {
        SubseqConsBoth(a, b[..|b| - 1], x);
        if x == b[|b| - 1] {
          assert a'[..|a'| - 1] == [];
        }
      } else {
        SubseqConsBoth(a, b[..|b| - 1], x);
      }
    }
  }

  /** Adding a prefix to the larger sequence keeps the relation. */
  lemma {:induction false} SubseqPrefixRight<T>(a: seq<T>, b: seq<T>, pre: seq<T>)
    requires Subseq(a, b)
    ensures Subseq(a, pre + b)
    decreases |pre|
  {
    if |pre| > 0 {
      SubseqPrefixRight(a, b, pre[1..]);
      SubseqConsRight(a, pre[1..] + b, pre[0]);
      assert [pre[0]] + (pre[1..] + b) == pre + b;
    } else {
      assert pre + b == b;
    }
  }

  /** `Array.prototype.map` */
  function Map<T, U>(f: T -> U, s: seq<T>): (r: seq<U>)
    ensures |r| == |s|
    ensures forall i :: 0 <= i < |s| ==> r[i] == f(s[i])
  {
    if |s| == 0 then [] else Map(f, s[..|s| - 1]) + [f(s[|s| - 1])]
  }

  lemma MapSnoc<T, U>(f: T -> U, s: seq<T>, i: nat)
    requires i < |s|
    ensures Map(f, s[..i + 1]) == Map(f, s[..i]) + [f(s[i])]
  {
    assert s[..i + 1][..i] == s[..i];
  }

  /** `filter` distributes over concatenation. */
  lemma {:induction false} FilterAppend<T>(p: T -> bool, a: seq<T>, b: seq<T>)
    ensures Filter(p, a + b) == Filter(p, a) + Filter(p, b)
    decreases |b|
  {
    if |b| == 0 {
      assert a + b == a;
    } else {
      var b' := b[..|b| - 1];
      FilterAppend(p, a, b');
      assert (a + b)[..|a + b| - 1] == a + b';
    }
  }

  /** `filter` over a sequence grown by one element. */
  lemma FilterAppendOne<T>(p: T -> bool, s: seq<T>, x: T)
    ensures Filter(p, s + [x]) == Filter(p, s) + (if p(x) then [x] else [])
  {
    assert (s + [x])[..|s|] == s;
  }

  /** `map` over a sequence grown by one element. */
  lemma MapAppendOne<T, U>(f: T -> U, s: seq<T>, x: T)
    ensures Map(f, s + [x]) == Map(f, s) + [f(x)]
  {
    assert (s + [x])[..|s|] == s;
  }
}
