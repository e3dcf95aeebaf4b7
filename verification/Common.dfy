/** Small shared vocabulary: optional values, refusals, and sorted enumerations of finite sets. */
module Common {

  datatype Option<+T> = None | Some(value: T)

  /** Stored error texts keep their first 128 characters. */
  function Clip(error: Option<string>): Option<string> {
    if error.Some? && |error.value| > 128 then Some(error.value[..128]) else error
  }

  predicate IsLeast(x: nat, s: set<nat>) {
    x in s && forall y :: y in s ==> x <= y
  }

  /** The least element of a nonempty set of naturals. */
  function Least(s: set<nat>): (x: nat)
    requires s != {}
    ensures x in s && forall y :: y in s ==> x <= y
  {
    LeastExists(s);
    var x :| IsLeast(x, s);
    x
  }

  lemma {:induction false} LeastExists(s: set<nat>)
    requires s != {}
    ensures exists x :: IsLeast(x, s)
  {
    var z :| z in s;
    if s == {z} {
      assert IsLeast(z, s);
    } else {
      LeastExists(s - {z});
      var m :| IsLeast(m, s - {z});
      var x := if z < m then z else m;
      forall y | y in s ensures x <= y { assert y == z || y in s - {z}; }
      assert IsLeast(x, s);
    }
  }

  predicate IsGreatest(x: nat, s: set<nat>) {
    x in s && forall y :: y in s ==> y <= x
  }

  /** The greatest element of a nonempty set of naturals. */
  function Greatest(s: set<nat>): (x: nat)
    requires s != {}
    ensures x in s && forall y :: y in s ==> y <= x
  {
    GreatestExists(s);
    var x :| IsGreatest(x, s);
    x
  }

  lemma {:induction false} GreatestExists(s: set<nat>)
    requires s != {}
    ensures exists x :: IsGreatest(x, s)
  {
    var z :| z in s;
    if s == {z} {
      assert IsGreatest(z, s);
    } else {
      GreatestExists(s - {z});
      var m :| IsGreatest(m, s - {z});
      var x := if z > m then z else m;
      forall y | y in s ensures y <= x { assert y == z || y in s - {z}; }
      assert IsGreatest(x, s);
    }
  }

  /** The ascending enumeration that `sorted(...)` and `ORDER BY` produce. */
  function Sorted(s: set<nat>): seq<nat> {
    if s == {} then [] else [Least(s)] + Sorted(s - {Least(s)})
  }

  function SetOf<T(==)>(r: seq<T>): set<T> { set x | x in r }

  lemma {:induction false} SortedMembers(s: set<nat>)
    ensures forall x :: x in s <==> x in Sorted(s)
    ensures |Sorted(s)| == |s|
  {
    if s != {} {
      SortedMembers(s - {Least(s)});
    }
  }

  lemma {:induction false} SortedAscends(s: set<nat>)
    ensures var r := Sorted(s); forall i, j :: 0 <= i < j < |r| ==> r[i] < r[j]
  {
    if s != {} {
      SortedAscends(s - {Least(s)});
      SortedMembers(s - {Least(s)});
      var rest := Sorted(s - {Least(s)});
      forall i | 0 <= i < |rest| ensures Least(s) < rest[i] { assert rest[i] in s - {Least(s)}; }
    }
  }

  /** `frozenset(sorted(s)) == s`. */
  lemma SortedRoundTrip(s: set<nat>)
    ensures SetOf(Sorted(s)) == s
  {
    SortedMembers(s);
  }

  lemma SubsetCardinality<T>(a: set<T>, b: set<T>)
    requires a <= b
    ensures |a| <= |b|
    ensures |a| == |b| ==> a == b
  {
    assert b == a + (b - a);
    if |a| == |b| {
      assert |b - a| == 0;
    }
  }
}
