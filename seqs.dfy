/**
 * Sequence queries that stand for the store's row filters: `Filter` is a
 * `WHERE` clause, `Find` a lookup that returns the first matching row.
 */
module Seqs {
  import opened Wrappers

  /** The rows of `s` that satisfy `p`, in their original order. */
  function Filter<T(!new)>(s: seq<T>, p: T -> bool): (r: seq<T>)
    ensures |r| <= |s|
    ensures forall x :: x in r <==> x in s && p(x)
  {
    if s == [] then [] else (if p(s[0]) then [s[0]] else []) + Filter(s[1..], p)
  }

  /** The first row of `s` that satisfies `p`, if any. */
  function Find<T(!new)>(s: seq<T>, p: T -> bool): (r: Option<T>)
    ensures r.Some? <==> exists x :: x in s && p(x)
    ensures r.Some? ==> r.value in s && p(r.value)
  {
    if s == [] then None else if p(s[0]) then Some(s[0]) else Find(s[1..], p)
  }

  /** No two positions of `s` both satisfy `p`: the key that `p` selects is unique. */
  predicate AtMostOne<T(!new)>(s: seq<T>, p: T -> bool)
  {
    forall i, j :: 0 <= i < j < |s| && p(s[i]) ==> !p(s[j])
  }

  /** Under a uniqueness constraint a filter yields at most one row, and that row is `Find`'s. */
  lemma {:induction false} FilterOfUnique<T(!new)>(s: seq<T>, p: T -> bool)
    requires AtMostOne(s, p)
    ensures |Filter(s, p)| <= 1
    ensures |Filter(s, p)| == 1 <==> Find(s, p).Some?
    ensures |Filter(s, p)| == 1 ==> Filter(s, p)[0] == Find(s, p).value
  {
    if s != [] {
      assert AtMostOne(s[1..], p) by {
        forall i, j | 0 <= i < j < |s[1..]| && p(s[1..][i])
          ensures !p(s[1..][j])
        {
          assert s[1..][i] == s[i + 1] && s[1..][j] == s[j + 1];
        }
      }
      FilterOfUnique(s[1..], p);
      if p(s[0]) {
        forall x | x in s[1..] ensures !p(x) {
          var j :| 0 <= j < |s[1..]| && s[1..][j] == x;
          assert s[j + 1] == x;
        }
        assert Filter(s[1..], p) == [];
      }
    }
  }

  /** `Find` on rows with no match, plus one matching row, yields that row. */
  lemma {:induction false} FindAppended<T(!new)>(s: seq<T>, x: T, p: T -> bool)
    requires forall y :: y in s ==> !p(y)
    requires p(x)
    ensures Find(s + [x], p) == Some(x)
  {
    if s == [] {
    } else {
      assert (s + [x])[1..] == s[1..] + [x];
      FindAppended(s[1..], x, p);
    }
  }
}
