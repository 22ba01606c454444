/** Sets gone through in some order. */
module Listings {

  ghost predicate NoRepeats<T>(s: seq<T>) { forall i, j :: 0 <= i < j < |s| ==> s[i] != s[j] }

  function Elements<T>(s: seq<T>): set<T> { set x | x in s }

  /** The sequence names every element of the set once. */
  ghost predicate Lists<T>(s: seq<T>, all: set<T>) { NoRepeats(s) && Elements(s) == all }

  lemma AppendedElement<T>(q: seq<T>, x: T)
    ensures Elements(q + [x]) == Elements(q) + {x}
    ensures Elements([x] + q) == Elements(q) + {x}
  {
    assert (q + [x])[|q|] == x && ([x] + q)[0] == x;
    assert [x] + q == [x] + q[..];
    forall y | y in Elements(q) ensures y in Elements(q + [x]) && y in Elements([x] + q) {
      assert y in q + [x] && y in [x] + q;
    }
  }

  ghost function Element<T>(s: set<T>): (x: T)
    requires s != {}
    ensures x in s
  {
    var x :| x in s;
    x
  }

  ghost function AnyOrder<T>(s: set<T>): (q: seq<T>)
    ensures Lists(q, s)
  {
    if s == {} then [] else
      var x := Element(s);
      var rest := AnyOrder(s - {x});
      AppendedElement(rest, x);
      rest + [x]
  }

  predicate Least(x: int, s: set<int>) { x in s && forall y :: y in s ==> x <= y }

  lemma {:induction false} SomeLeast(s: set<int>, x: int)
    requires x in s
    ensures exists least :: Least(least, s)
    decreases |s|
  {
    if !Least(x, s) {
      var y :| y in s && y < x;
      SomeLeast(s - {x}, y);
      var least :| Least(least, s - {x});
      forall z | z in s ensures least <= z { assert z == x || z in s - {x}; }
      assert Least(least, s);
    }
  }

  /** The elements of a set, smallest first. */
  ghost function Ascending(s: set<int>): (q: seq<int>)
    ensures |q| == |s| && forall i :: 0 <= i < |q| ==> q[i] in s
    decreases |s|
  {
    if s == {} then []
    else
      SomeLeast(s, Element(s));
      var least :| Least(least, s);
      [least] + Ascending(s - {least})
  }
}
