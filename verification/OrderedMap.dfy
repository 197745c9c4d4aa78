/** Iteration order of a map ordered by key: the keys in increasing order. */
module OrderedMap {

  predicate IsMin(s: set<nat>, x: nat) { x in s && forall y :: y in s ==> x <= y }

  lemma {:induction false} MinExists(s: set<nat>)
    requires s != {}
    ensures exists x :: IsMin(s, x)
  {
    var a :| a in s;
    if s - {a} == {} {
      assert s == {a} && IsMin(s, a);
    } else {
      MinExists(s - {a});
      var x :| IsMin(s - {a}, x);
      assert forall y :: y in s ==> y == a || y in s - {a};
      assert IsMin(s, if a <= x then a else x);
    }
  }

  function Min(s: set<nat>): (x: nat)
    requires s != {}
    ensures IsMin(s, x)
  {
    MinExists(s);
    var x :| x in s && IsMin(s, x);
    x
  }

  function SortedKeys(s: set<nat>): (k: seq<nat>)
    ensures forall x :: x in k <==> x in s
    ensures forall i, j :: 0 <= i < j < |k| ==> k[i] < k[j]
  {
    if s == {} then []
    else
      var rest := SortedKeys(s - {Min(s)});
      assert forall i :: 0 <= i < |rest| ==> rest[i] in rest;
      [Min(s)] + rest
  }
}
