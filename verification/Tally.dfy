/** Sums over a list of events: all of them, those whose id is in a set, and
    those whose id is not. */
module Tally {

  function Total<E>(xs: seq<E>, w: E -> real): real {
    if xs == [] then 0.0 else Total(xs[..|xs| - 1], w) + w(xs[|xs| - 1])
  }

  function Counted<E>(xs: seq<E>, key: E -> string, w: E -> real, ids: set<string>): real {
    if xs == [] then 0.0
    else
      var last := xs[|xs| - 1];
      Counted(xs[..|xs| - 1], key, w, ids) + if key(last) in ids then w(last) else 0.0
  }

  function Missing<E>(xs: seq<E>, key: E -> string, w: E -> real, ids: set<string>): real {
    if xs == [] then 0.0
    else
      var last := xs[|xs| - 1];
      Missing(xs[..|xs| - 1], key, w, ids) + if key(last) in ids then 0.0 else w(last)
  }

  ghost predicate DistinctKeys<E>(xs: seq<E>, key: E -> string) {
    forall i, j :: 0 <= i < j < |xs| ==> key(xs[i]) != key(xs[j])
  }

  lemma {:induction false} CountedPlusMissing<E>(xs: seq<E>, key: E -> string, w: E -> real, ids: set<string>)
    ensures Counted(xs, key, w, ids) + Missing(xs, key, w, ids) == Total(xs, w)
  {
    if xs != [] {
      CountedPlusMissing(xs[..|xs| - 1], key, w, ids);
    }
  }

  lemma {:induction false} SplitAt<E>(xs: seq<E>, n: nat, key: E -> string, w: E -> real, ids: set<string>)
    requires n <= |xs|
    ensures Total(xs, w) == Total(xs[..n], w) + Total(xs[n..], w)
    ensures Counted(xs, key, w, ids) == Counted(xs[..n], key, w, ids) + Counted(xs[n..], key, w, ids)
    ensures Missing(xs, key, w, ids) == Missing(xs[..n], key, w, ids) + Missing(xs[n..], key, w, ids)
    decreases |xs|
  {
    if n == |xs| {
      assert xs[..n] == xs;
    } else {
      var front := xs[..|xs| - 1];
      SplitAt(front, n, key, w, ids);
      assert front[..n] == xs[..n] && front[n..] == xs[n..][..|xs| - n - 1];
    }
  }

  /** Only membership of the listed events' own ids matters. */
  lemma {:induction false} CountedAgree<E>(xs: seq<E>, key: E -> string, w: E -> real, a: set<string>, b: set<string>)
    requires forall x :: x in xs ==> (key(x) in a <==> key(x) in b)
    ensures Counted(xs, key, w, a) == Counted(xs, key, w, b)
    ensures Missing(xs, key, w, a) == Missing(xs, key, w, b)
  {
    if xs != [] {
      CountedAgree(xs[..|xs| - 1], key, w, a, b);
      assert xs[|xs| - 1] in xs;
    }
  }

  lemma {:induction false} CountedOneMore<E>(xs: seq<E>, key: E -> string, w: E -> real, ids: set<string>, x: E)
    requires DistinctKeys(xs, key) && x in xs && key(x) !in ids
    ensures Counted(xs, key, w, ids + {key(x)}) == Counted(xs, key, w, ids) + w(x)
  {
    var front, last := xs[..|xs| - 1], xs[|xs| - 1];
    if x in front {
      CountedOneMore(front, key, w, ids, x);
      var i :| 0 <= i < |front| && front[i] == x;
      assert key(xs[i]) != key(last);
    } else {
      assert x == last;
      forall y | y in front ensures key(y) != key(x) {
        var i :| 0 <= i < |front| && front[i] == y;
        assert key(xs[i]) != key(last);
      }
      CountedAgree(front, key, w, ids, ids + {key(x)});
    }
  }

  lemma {:induction false} CountedNone<E>(xs: seq<E>, key: E -> string, w: E -> real)
    ensures Counted(xs, key, w, {}) == 0.0 && Missing(xs, key, w, {}) == Total(xs, w)
  {
    if xs != [] {
      CountedNone(xs[..|xs| - 1], key, w);
    }
  }

  /** Events that all weigh nothing add up to nothing. */
  lemma {:induction false} MissingNothing<E>(xs: seq<E>, key: E -> string, w: E -> real, ids: set<string>)
    requires forall x :: x in xs && key(x) !in ids ==> w(x) == 0.0
    ensures Missing(xs, key, w, ids) == 0.0
  {
    if xs != [] {
      MissingNothing(xs[..|xs| - 1], key, w, ids);
      assert xs[|xs| - 1] in xs;
    }
  }

  /** What is missing from one set is what is counted in its complement. */
  lemma {:induction false} MissingIsCounted<E>(xs: seq<E>, key: E -> string, w: E -> real, ids: set<string>,
                                               rest: set<string>)
    requires forall x :: x in xs ==> (key(x) !in ids <==> key(x) in rest)
    ensures Missing(xs, key, w, ids) == Counted(xs, key, w, rest)
  {
    if xs != [] {
      MissingIsCounted(xs[..|xs| - 1], key, w, ids, rest);
      assert xs[|xs| - 1] in xs;
    }
  }

  lemma FirstIsListed<E>(xs: seq<E>)
    ensures xs == [] || xs[0] in xs
  {
  }

  /** Two weights and their difference. */
  lemma {:induction false} MissingDifference<E>(xs: seq<E>, key: E -> string, u: E -> real, v: E -> real, w: E -> real,
                                                ids: set<string>)
    requires forall x :: x in xs ==> w(x) == u(x) - v(x)
    ensures Missing(xs, key, w, ids) == Missing(xs, key, u, ids) - Missing(xs, key, v, ids)
  {
    if xs != [] {
      MissingDifference(xs[..|xs| - 1], key, u, v, w, ids);
      assert xs[|xs| - 1] in xs;
    }
  }
}
