/** `Array.prototype.filter` and the facts about sub-lists that the routes and stores need. */
module Seqs {

  /** `r` is `s` with some elements left out and the rest kept in order. */
  ghost predicate SubsequenceOf<T>(r: seq<T>, s: seq<T>)
    decreases |s|
  {
    if |r| == 0 then true
    else if |s| == 0 then false
    else (r[|r| - 1] == s[|s| - 1] && SubsequenceOf(r[..|r| - 1], s[..|s| - 1]))
         || SubsequenceOf(r, s[..|s| - 1])
  }

  /** Every list is a sub-list of itself. */
  lemma {:induction false} SubsequenceReflexive<T>(s: seq<T>)
    ensures SubsequenceOf(s, s)
    decreases |s|
  {
    if |s| > 0 {
      SubsequenceReflexive(s[..|s| - 1]);
    }
  }

  /** A sub-list of a sub-list is a sub-list. */
  lemma {:induction false} SubsequenceTransitive<T>(a: seq<T>, b: seq<T>, c: seq<T>)
    requires SubsequenceOf(a, b) && SubsequenceOf(b, c)
    ensures SubsequenceOf(a, c)
    decreases |c|
  {
    if |a| == 0 {
    } else if LastMatched(b, c) {
      var b', c' := b[..|b| - 1], c[..|c| - 1];
      if a[|a| - 1] == b[|b| - 1] && SubsequenceOf(a[..|a| - 1], b') {
        SubsequenceTransitive(a[..|a| - 1], b', c');
      } else {
        SubsequenceTransitive(a, b', c');
      }
    } else {
      SubsequenceTransitive(a, b, c[..|c| - 1]);
    }
  }

  /** The last element of `b` is matched with the last element of `c`. */
  ghost predicate LastMatched<T>(b: seq<T>, c: seq<T>) {
    |b| > 0 && |c| > 0 && b[|b| - 1] == c[|c| - 1] && SubsequenceOf(b[..|b| - 1], c[..|c| - 1])
  }

  /** `s.filter(p)`: the elements satisfying `p`, in their original order. */
  function Filter<T>(s: seq<T>, p: T -> bool): (r: seq<T>)
    ensures |r| <= |s|
    ensures forall i :: 0 <= i < |r| ==> r[i] in s && p(r[i])
    ensures forall i :: 0 <= i < |s| && p(s[i]) ==> s[i] in r
    ensures SubsequenceOf(r, s)
    ensures (forall i :: 0 <= i < |s| ==> p(s[i])) ==> r == s
    decreases |s|
  {
    if |s| == 0 then []
    else
      var init, last := s[..|s| - 1], s[|s| - 1];
      assert s == init + [last];
      var r := Filter(init, p);
      if p(last) then
        assert (r + [last])[..|r|] == r;
        r + [last]
      else
        r
  }

  /** Filtering keeps every element that satisfies `p` as many times as the
      list holds it, and no other element. */
  lemma {:induction false} FilterCounts<T>(s: seq<T>, p: T -> bool)
    ensures forall x :: multiset(Filter(s, p))[x] == if p(x) then multiset(s)[x] else 0
    decreases |s|
  {
    if |s| > 0 {
      var init, last := s[..|s| - 1], s[|s| - 1];
      assert s == init + [last];
      assert multiset(s) == multiset(init) + multiset{last};
      FilterCounts(init, p);
    }
  }

  /** A sub-list is no longer than the list. */
  lemma {:induction false} SubsequenceLength<T>(r: seq<T>, s: seq<T>)
    requires SubsequenceOf(r, s)
    ensures |r| <= |s|
    decreases |s|
  {
    if |r| > 0 {
      if r[|r| - 1] == s[|s| - 1] && SubsequenceOf(r[..|r| - 1], s[..|s| - 1]) {
        SubsequenceLength(r[..|r| - 1], s[..|s| - 1]);
      } else {
        SubsequenceLength(r, s[..|s| - 1]);
      }
    }
  }

  /** Membership in a filtered list, for one element. */
  lemma FilterMembers<T>(s: seq<T>, p: T -> bool, x: T)
    ensures x in Filter(s, p) <==> x in s && p(x)
  {
    var r := Filter(s, p);
    if x in r {
      var i :| 0 <= i < |r| && r[i] == x;
    }
    if x in s && p(x) {
      var i :| 0 <= i < |s| && s[i] == x;
    }
  }

  /** No element occurs twice. */
  predicate NoDuplicates<T(==)>(s: seq<T>) {
    forall i, j :: 0 <= i < j < |s| ==> s[i] != s[j]
  }

  /** Every element of a sub-list is an element of the list. */
  lemma {:induction false} SubsequenceMembers<T>(r: seq<T>, s: seq<T>, x: T)
    requires SubsequenceOf(r, s) && x in r
    ensures x in s
    decreases |s|
  {
    var r', s' := r[..|r| - 1], s[..|s| - 1];
    assert r == r' + [r[|r| - 1]] && s == s' + [s[|s| - 1]];
    if r[|r| - 1] == s[|s| - 1] && SubsequenceOf(r', s') {
      if x != r[|r| - 1] {
        SubsequenceMembers(r', s', x);
      }
    } else {
      SubsequenceMembers(r, s', x);
    }
  }

  /** A sub-list of a list without duplicates has none either. */
  lemma {:induction false} SubsequenceNoDuplicates<T>(r: seq<T>, s: seq<T>)
    requires SubsequenceOf(r, s) && NoDuplicates(s)
    ensures NoDuplicates(r)
    decreases |s|
  {
    if |r| > 0 {
      var r', s' := r[..|r| - 1], s[..|s| - 1];
      assert s == s' + [s[|s| - 1]];
      if r[|r| - 1] == s[|s| - 1] && SubsequenceOf(r', s') {
        SubsequenceNoDuplicates(r', s');
        assert r == r' + [r[|r| - 1]];
        if r[|r| - 1] in r' {
          SubsequenceMembers(r', s', r[|r| - 1]);
          assert false;
        }
      } else {
        SubsequenceNoDuplicates(r, s');
      }
    }
  }

  /** Filtering a list without duplicates leaves a list without duplicates. */
  lemma {:induction false} FilterNoDuplicates<T>(s: seq<T>, p: T -> bool)
    requires NoDuplicates(s)
    ensures NoDuplicates(Filter(s, p))
    decreases |s|
  {
    if |s| > 0 {
      var init, last := s[..|s| - 1], s[|s| - 1];
      assert s == init + [last];
      FilterNoDuplicates(init, p);
      assert last !in init;
    }
  }
}
