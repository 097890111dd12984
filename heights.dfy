/** Orderings over sets of block heights: the `reduce(Math.min)`, `reduce(Math.max)`
    and numeric `sort` the ledger applies to its keys. */
module Heights {

  /** Every height in `hs` is below every later one. */
  ghost predicate StrictlyAscending(hs: seq<int>)
  {
    forall i, j :: 0 <= i < j < |hs| ==> hs[i] < hs[j]
  }

  lemma NonEmptyHasElement(s: set<int>)
    requires s != {}
    ensures exists y :: y in s
  {
    if forall y :: y !in s {
      assert false;
    }
  }

  /** Some element of a non-empty set. */
  ghost function Pick(s: set<int>): (y: int)
    requires s != {}
    ensures y in s
  {
    NonEmptyHasElement(s);
    var y :| y in s; y
  }

  lemma {:induction false} LeastExists(s: set<int>)
    requires s != {}
    ensures exists m :: m in s && forall x :: x in s ==> m <= x
  {
    var y := Pick(s);
    if s != {y} {
      var rest := s - {y};
      LeastExists(rest);
      var m :| m in rest && forall x :: x in rest ==> m <= x;
      var least := if y < m then y else m;
      forall x | x in s
        ensures least <= x
      {
        if x != y { assert x in rest; }
      }
    } else {
      assert forall x :: x in s ==> y <= x;
    }
  }

  lemma {:induction false} GreatestExists(s: set<int>)
    requires s != {}
    ensures exists m :: m in s && forall x :: x in s ==> x <= m
  {
    var y := Pick(s);
    if s != {y} {
      var rest := s - {y};
      GreatestExists(rest);
      var m :| m in rest && forall x :: x in rest ==> x <= m;
      var greatest := if m < y then y else m;
      forall x | x in s
        ensures x <= greatest
      {
        if x != y { assert x in rest; }
      }
    } else {
      assert forall x :: x in s ==> x <= y;
    }
  }

  /** The smallest element of a non-empty set of heights. */
  function Least(s: set<int>): (m: int)
    requires s != {}
    ensures m in s && forall x :: x in s ==> m <= x
  {
    LeastExists(s);
    var m :| m in s && forall x :: x in s ==> m <= x;
    m
  }

  /** The largest element of a non-empty set of heights. */
  function Greatest(s: set<int>): (m: int)
    requires s != {}
    ensures m in s && forall x :: x in s ==> x <= m
  {
    GreatestExists(s);
    var m :| m in s && forall x :: x in s ==> x <= m;
    m
  }

  /** Two strictly ascending sequences with the same elements start alike. */
  lemma SameHead(xs: seq<int>, ys: seq<int>)
    requires StrictlyAscending(xs) && StrictlyAscending(ys)
    requires xs != [] && ys != []
    requires forall h :: h in xs <==> h in ys
    ensures xs[0] == ys[0]
  {
    assert xs[0] in xs && ys[0] in ys;
    var i :| 0 <= i < |xs| && xs[i] == ys[0];
    var j :| 0 <= j < |ys| && ys[j] == xs[0];
    assert xs[0] <= xs[i] && ys[0] <= ys[j];
  }

  /** Behind a shared head, the remaining elements are the same. */
  lemma SameTail(xs: seq<int>, ys: seq<int>, h: int)
    requires StrictlyAscending(xs) && StrictlyAscending(ys)
    requires xs != [] && ys != [] && xs[0] == ys[0]
    requires forall h :: h in xs <==> h in ys
    requires h in xs[1..]
    ensures h in ys[1..]
  {
    var i :| 1 <= i < |xs| && xs[i] == h;
    assert h in xs && h != ys[0];
    var j :| 0 <= j < |ys| && ys[j] == h;
    assert ys[1..][j - 1] == h;
  }

  /** A strictly ascending sequence is determined by its elements. */
  lemma {:induction false} AscendingUnique(xs: seq<int>, ys: seq<int>)
    requires StrictlyAscending(xs) && StrictlyAscending(ys)
    requires forall h :: h in xs <==> h in ys
    ensures xs == ys
  {
    if xs != [] { assert xs[0] in xs; }
    if ys != [] { assert ys[0] in ys; }
    if xs != [] && ys != [] {
      SameHead(xs, ys);
      forall h
        ensures h in xs[1..] <==> h in ys[1..]
      {
        if h in xs[1..] { SameTail(xs, ys, h); }
        if h in ys[1..] { SameTail(ys, xs, h); }
      }
      AscendingUnique(xs[1..], ys[1..]);
      assert xs == [xs[0]] + xs[1..] && ys == [ys[0]] + ys[1..];
    }
  }

  /** The heights of `s` in strictly ascending order, each exactly once. */
  function Ascending(s: set<int>): (hs: seq<int>)
    ensures StrictlyAscending(hs)
    ensures forall h :: h in hs <==> h in s
    ensures forall i :: 0 <= i < |hs| ==> hs[i] in s
    ensures |hs| == |s|
    decreases |s|
  {
    if s == {} then []
    else
      var m := Least(s);
      [m] + Ascending(s - {m})
  }
}
