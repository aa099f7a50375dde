/** Row filtering shared by `load_and_clean` (dropna on two columns) and the
    final `dropna`: each row is mapped to an optional output row and the rows
    mapped to `None` are dropped, keeping the others in their original order. */
module Seqs {
  import opened Values

  /** The positions of `s` whose element `f` keeps, in increasing order. */
  function Kept<A, B>(s: seq<A>, f: A -> Option<B>): (idx: seq<nat>)
    ensures forall k :: 0 <= k < |idx| ==> idx[k] < |s| && f(s[idx[k]]).Some?
    ensures forall k, m :: 0 <= k < m < |idx| ==> idx[k] < idx[m]
    ensures forall i :: 0 <= i < |s| && f(s[i]).Some? ==> i in idx
    decreases |s|
  {
    if |s| == 0 then []
    else
      var front := s[..|s| - 1];
      var idx := Kept(front, f);
      assert forall k :: 0 <= k < |idx| ==> s[idx[k]] == front[idx[k]];
      assert forall i :: 0 <= i < |front| ==> front[i] == s[i];
      if f(s[|s| - 1]).Some? then idx + [|s| - 1] else idx
  }

  /** An index is kept exactly when `f` keeps the element there. */
  lemma KeptExactly<A, B>(s: seq<A>, f: A -> Option<B>)
    ensures forall i :: 0 <= i < |s| ==> (i in Kept(s, f) <==> f(s[i]).Some?)
  {
    var idx := Kept(s, f);
    forall i | 0 <= i < |s| && i in idx
      ensures f(s[i]).Some?
    {
      var k :| 0 <= k < |idx| && idx[k] == i;
    }
  }

  /** The elements `f` keeps, mapped through `f`, in their original order. */
  function FilterMap<A, B>(s: seq<A>, f: A -> Option<B>): (r: seq<B>)
    ensures |r| == |Kept(s, f)| <= |s|
    ensures forall k :: 0 <= k < |r| ==> f(s[Kept(s, f)[k]]) == Some(r[k])
    decreases |s|
  {
    if |s| == 0 then []
    else
      var front := s[..|s| - 1];
      var rest := FilterMap(front, f);
      assert forall k :: 0 <= k < |Kept(front, f)| ==> s[Kept(front, f)[k]] == front[Kept(front, f)[k]];
      match f(s[|s| - 1])
      case Some(b) => rest + [b]
      case None => rest
  }

  /** Filtering is row-local: filtering two tables one after the other gives
      the same rows as filtering their concatenation. */
  lemma {:induction false} FilterMapAppend<A, B>(a: seq<A>, b: seq<A>, f: A -> Option<B>)
    ensures FilterMap(a + b, f) == FilterMap(a, f) + FilterMap(b, f)
    decreases |b|
  {
    if |b| == 0 {
      assert a + b == a;
    } else {
      var b' := b[..|b| - 1];
      assert (a + b)[..|a + b| - 1] == a + b';
      assert (a + b)[|a + b| - 1] == b[|b| - 1];
      FilterMapAppend(a, b', f);
    }
  }

  predicate Distinct<T(==)>(s: seq<T>) {
    forall i, j :: 0 <= i < j < |s| ==> s[i] != s[j]
  }

  /** A sequence without repeats has as many elements as its set. */
  lemma {:induction false} DistinctCard<T>(s: seq<T>)
    requires Distinct(s)
    ensures |set x | x in s| == |s|
  {
    if |s| > 0 {
      assert Distinct(s[1..]) by {
        forall i, j | 0 <= i < j < |s[1..]|
          ensures s[1..][i] != s[1..][j]
        {
          assert s[1..][i] == s[i + 1] && s[1..][j] == s[j + 1];
        }
      }
      DistinctCard(s[1..]);
      assert (set x | x in s) == {s[0]} + (set x | x in s[1..]);
      assert s[0] !in (set x | x in s[1..]);
    }
  }

  /** A set drawn from a sequence has at most as many elements. */
  lemma {:induction false} SetCardAtMostLength<T>(s: seq<T>)
    ensures |set x | x in s| <= |s|
  {
    if |s| > 0 {
      SetCardAtMostLength(s[1..]);
      assert (set x | x in s) == {s[0]} + (set x | x in s[1..]);
    }
  }
}
