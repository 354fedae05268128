/** Lists of lists: concatenation in list order, element counts, multisets
    and element-wise mapping. The catalogue flattening and the schedule
    aggregation are both built from these. */
module Seqs {

  /** The inner lists laid end to end, in list order. */
  function Concat<T>(ls: seq<seq<T>>): seq<T>
  {
    if |ls| == 0 then [] else ls[0] + Concat(ls[1..])
  }

  /** The number of elements the inner lists hold together. */
  function SumLengths<T>(ls: seq<seq<T>>): nat
  {
    if |ls| == 0 then 0 else |ls[0]| + SumLengths(ls[1..])
  }

  /** The multiset union of the inner lists. */
  function Bag<T>(ls: seq<seq<T>>): multiset<T>
  {
    if |ls| == 0 then multiset{} else multiset(ls[0]) + Bag(ls[1..])
  }

  /** The position at which the inner list `ls[i]` starts once concatenated. */
  function Offset<T>(ls: seq<seq<T>>, i: nat): nat
    requires i <= |ls|
  {
    SumLengths(ls[..i])
  }

  /** `f` applied to every element, in order. */
  function Map<A, B>(f: A -> B, s: seq<A>): seq<B>
  {
    seq(|s|, i requires 0 <= i < |s| => f(s[i]))
  }

  lemma {:induction false} ConcatAppend<T>(a: seq<seq<T>>, b: seq<seq<T>>)
    ensures Concat(a + b) == Concat(a) + Concat(b)
    decreases |a|
  {
    if |a| == 0 {
      assert a + b == b;
    } else {
      assert (a + b)[1..] == a[1..] + b;
      ConcatAppend(a[1..], b);
    }
  }

  lemma ConcatSnoc<T>(ls: seq<seq<T>>, x: seq<T>)
    ensures Concat(ls + [x]) == Concat(ls) + x
  {
    ConcatAppend(ls, [x]);
    assert Concat([x]) == x + Concat([x][1..]);
    assert [x][1..] == [];
  }

  lemma {:induction false} SumLengthsAppend<T>(a: seq<seq<T>>, b: seq<seq<T>>)
    ensures SumLengths(a + b) == SumLengths(a) + SumLengths(b)
    decreases |a|
  {
    if |a| == 0 {
      assert a + b == b;
    } else {
      assert (a + b)[1..] == a[1..] + b;
      SumLengthsAppend(a[1..], b);
    }
  }

  lemma {:induction false} ConcatLength<T>(ls: seq<seq<T>>)
    ensures |Concat(ls)| == SumLengths(ls)
    decreases |ls|
  {
    if |ls| > 0 {
      ConcatLength(ls[1..]);
    }
  }

  lemma {:induction false} ConcatBag<T>(ls: seq<seq<T>>)
    ensures multiset(Concat(ls)) == Bag(ls)
    decreases |ls|
  {
    if |ls| > 0 {
      ConcatBag(ls[1..]);
    }
  }

  /** An element occurs in the concatenation exactly when it occurs in one of
      the inner lists. */
  lemma {:induction false} ConcatMember<T>(ls: seq<seq<T>>, x: T)
    ensures x in Concat(ls) <==> exists i :: 0 <= i < |ls| && x in ls[i]
    decreases |ls|
  {
    if |ls| > 0 {
      ConcatMember(ls[1..], x);
      if x in Concat(ls[1..]) {
        var i :| 0 <= i < |ls[1..]| && x in ls[1..][i];
        assert x in ls[i + 1];
      }
      if exists i :: 0 <= i < |ls| && x in ls[i] {
        var i :| 0 <= i < |ls| && x in ls[i];
        if i > 0 {
          assert x in ls[1..][i - 1];
        }
      }
    }
  }

  /** The k-th element of inner list i sits at Offset(ls, i) + k. */
  lemma ConcatIndex<T>(ls: seq<seq<T>>, i: nat, k: nat)
    requires i < |ls| && k < |ls[i]|
    ensures Offset(ls, i) + k < |Concat(ls)|
    ensures Concat(ls)[Offset(ls, i) + k] == ls[i][k]
  {
    assert ls == ls[..i] + ls[i..];
    ConcatAppend(ls[..i], ls[i..]);
    ConcatLength(ls[..i]);
    assert Concat(ls[i..]) == ls[i] + Concat(ls[i + 1..]) by {
      assert ls[i..][1..] == ls[i + 1..];
    }
  }

  /** Inner list i ends no later than inner list j starts, for i < j. */
  lemma OffsetMonotone<T>(ls: seq<seq<T>>, i: nat, j: nat)
    requires i < j <= |ls|
    ensures Offset(ls, i) + |ls[i]| <= Offset(ls, j)
  {
    assert ls[..j] == ls[..i] + [ls[i]] + ls[i + 1..j];
    SumLengthsAppend(ls[..i] + [ls[i]], ls[i + 1..j]);
    SumLengthsAppend(ls[..i], [ls[i]]);
    assert SumLengths([ls[i]]) == |ls[i]| + SumLengths([ls[i]][1..]);
    assert [ls[i]][1..] == [];
  }

  /** Concatenating a list of concatenations is one concatenation of all the
      innermost lists. */
  lemma {:induction false} ConcatConcat<T>(outer: seq<seq<seq<T>>>, flats: seq<seq<T>>)
    requires |flats| == |outer|
    requires forall i :: 0 <= i < |outer| ==> flats[i] == Concat(outer[i])
    ensures Concat(flats) == Concat(Concat(outer))
    decreases |outer|
  {
    if |outer| > 0 {
      ConcatConcat(outer[1..], flats[1..]);
      ConcatAppend(outer[0], Concat(outer[1..]));
    }
  }

  lemma MapAppend<A, B>(f: A -> B, a: seq<A>, b: seq<A>)
    ensures Map(f, a + b) == Map(f, a) + Map(f, b)
  {
  }

  /** Splits `s` around one occurrence of `x`, leaving the rest as a multiset. */
  lemma RemoveOne<T>(s: seq<T>, x: T) returns (i: nat)
    requires x in multiset(s)
    ensures i < |s| && s[i] == x
    ensures s == s[..i] + [x] + s[i + 1..]
    ensures multiset(s) == multiset(s[..i] + s[i + 1..]) + multiset{x}
  {
    assert x in s;
    i :| 0 <= i < |s| && s[i] == x;
    assert s == s[..i] + [x] + s[i + 1..];
  }

  /** Reordering the input reorders the output and nothing more. */
  lemma {:induction false} MapPermutation<A, B>(f: A -> B, a: seq<A>, b: seq<A>)
    requires multiset(a) == multiset(b)
    ensures multiset(Map(f, a)) == multiset(Map(f, b))
    decreases |a|
  {
    if |a| == 0 {
      assert |multiset(b)| == 0;
    } else {
      var i := RemoveOne(b, a[0]);
      var rest := b[..i] + b[i + 1..];
      assert a == [a[0]] + a[1..];
      assert multiset(a) == multiset{a[0]} + multiset(a[1..]);
      assert multiset(a[1..]) == multiset(a) - multiset{a[0]};
      assert multiset(rest) == multiset(b) - multiset{a[0]};
      MapPermutation(f, a[1..], rest);
      MapAppend(f, [a[0]], a[1..]);
      MapAppend(f, b[..i] + [a[0]], b[i + 1..]);
      MapAppend(f, b[..i], [a[0]]);
      MapAppend(f, b[..i], b[i + 1..]);
    }
  }

  /** Reordering the inner lists changes the concatenation's order only. */
  lemma {:induction false} ConcatPermutation<T>(a: seq<seq<T>>, b: seq<seq<T>>)
    requires multiset(a) == multiset(b)
    ensures multiset(Concat(a)) == multiset(Concat(b))
    decreases |a|
  {
    if |a| == 0 {
      assert |multiset(b)| == 0;
    } else {
      var i := RemoveOne(b, a[0]);
      var rest := b[..i] + b[i + 1..];
      assert a == [a[0]] + a[1..];
      assert multiset(a) == multiset{a[0]} + multiset(a[1..]);
      assert multiset(a[1..]) == multiset(a) - multiset{a[0]};
      assert multiset(rest) == multiset(b) - multiset{a[0]};
      ConcatPermutation(a[1..], rest);
      ConcatAppend(b[..i] + [a[0]], b[i + 1..]);
      ConcatSnoc(b[..i], a[0]);
      ConcatAppend(b[..i], b[i + 1..]);
    }
  }
}
