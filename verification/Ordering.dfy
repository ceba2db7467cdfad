/** Ascending enumeration of a finite set of sequence numbers. */
module Ordering {

  ghost predicate Ascending(a: seq<nat>) {
    forall i, j :: 0 <= i < j < |a| ==> a[i] < a[j]
  }

  /** `a` visits exactly the members of `s`. */
  ghost predicate Enumerates(a: seq<nat>, s: set<nat>) {
    && (forall i :: 0 <= i < |a| ==> a[i] in s)
    && (forall x :: x in s ==> x in a)
  }

  predicate IsLeast(m: nat, s: set<nat>) {
    m in s && forall x :: x in s ==> m <= x
  }

  function Least(s: set<nat>): (m: nat)
    requires s != {}
    ensures IsLeast(m, s)
  {
    LeastExists(s);
    var m :| IsLeast(m, s);
    m
  }

  lemma {:induction false} LeastExists(s: set<nat>)
    requires s != {}
    ensures exists m :: IsLeast(m, s)
    decreases |s|
  {
    var y :| y in s;
    var rest := s - {y};
    if rest == {} {
      assert s == {y};
      assert IsLeast(y, s);
    } else {
      LeastExists(rest);
      var m :| IsLeast(m, rest);
      assert s == rest + {y};
      assert IsLeast(if y < m then y else m, s);
    }
  }

  /** The order in which a cursor over the set visits its members. */
  ghost function Ordered(s: set<nat>): seq<nat>
    decreases |s|
  {
    if s == {} then [] else [Least(s)] + Ordered(s - {Least(s)})
  }

  lemma {:induction false} OrderedEnumerates(s: set<nat>)
    ensures Ascending(Ordered(s)) && Enumerates(Ordered(s), s)
    decreases |s|
  {
    if s != {} {
      var m := Least(s);
      OrderedEnumerates(s - {m});
      ConsEnumerates(m, Ordered(s - {m}), s);
    }
  }

  lemma ConsEnumerates(m: nat, rest: seq<nat>, s: set<nat>)
    requires IsLeast(m, s) && Ascending(rest) && Enumerates(rest, s - {m})
    ensures Ascending([m] + rest) && Enumerates([m] + rest, s)
  {
    var a := [m] + rest;
    assert forall i :: 0 < i < |a| ==> a[i] == rest[i - 1] && m < a[i];
    forall x | x in s ensures x in a {
      if x == m { assert a[0] == x; } else {
        assert x in s - {m};
        var i :| 0 <= i < |rest| && rest[i] == x;
        assert a[i + 1] == x;
      }
    }
  }

  /** An ascending sequence is determined by its members. */
  lemma {:induction false} AscendingUnique(a: seq<nat>, b: seq<nat>, s: set<nat>)
    requires Ascending(a) && Ascending(b)
    requires Enumerates(a, s) && Enumerates(b, s)
    ensures a == b
    decreases |a|
  {
    if a != [] { assert a[0] in b; }
    if b != [] { assert b[0] in a; }
    if a != [] {
      assert a[0] == b[0];
      TailEnumerates(a, s);
      TailEnumerates(b, s);
      AscendingUnique(a[1..], b[1..], s - {a[0]});
      assert a == [a[0]] + a[1..];
    }
  }

  lemma TailEnumerates(a: seq<nat>, s: set<nat>)
    requires Ascending(a) && a != [] && Enumerates(a, s)
    ensures Ascending(a[1..]) && Enumerates(a[1..], s - {a[0]})
  {
    forall x | x in s - {a[0]} ensures x in a[1..] {
      var i :| 0 <= i < |a| && a[i] == x;
      assert a[1..][i - 1] == x;
    }
  }

  lemma OrderedUnique(a: seq<nat>, s: set<nat>)
    requires Ascending(a) && Enumerates(a, s)
    ensures a == Ordered(s)
  {
    OrderedEnumerates(s);
    AscendingUnique(a, Ordered(s), s);
  }

  /** Adding a number above all others extends the enumeration at its end. */
  lemma OrderedAppend(s: set<nat>, top: nat)
    requires forall x :: x in s ==> x < top
    ensures Ordered(s + {top}) == Ordered(s) + [top]
  {
    var a := Ordered(s);
    OrderedEnumerates(s);
    forall x | x in s + {top} ensures x in a + [top] {
      if x in s { assert x in a; } else { assert (a + [top])[|a|] == x; }
    }
    OrderedUnique(a + [top], s + {top});
  }
}
