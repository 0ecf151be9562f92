/** The order in which Go's sort.Strings and Python's sorted list names: byte by byte, a prefix first. */
module Lex {
  predicate Below(a: string, b: string)
    decreases |a|
  {
    if b == [] then false
    else if a == [] then true
    else if a[0] == b[0] then Below(a[1..], b[1..])
    else a[0] < b[0]
  }

  ghost predicate Sorted(list: seq<string>) {
    forall i, k :: 0 <= i < k < |list| ==> Below(list[i], list[k])
  }

  /** The members of s, each once, in order. */
  ghost predicate Lists(list: seq<string>, s: set<string>) {
    Sorted(list) && forall x :: x in list <==> x in s
  }

  lemma {:induction false} Irreflexive(a: string)
    ensures !Below(a, a)
    decreases |a|
  {
    if a != [] { Irreflexive(a[1..]); }
  }

  lemma {:induction false} Total(a: string, b: string)
    ensures Below(a, b) || a == b || Below(b, a)
    decreases |a|
  {
    if a != [] && b != [] {
      Total(a[1..], b[1..]);
      assert a == [a[0]] + a[1..] && b == [b[0]] + b[1..];
    }
  }

  lemma {:induction false} Transitive(a: string, b: string, c: string)
    requires Below(a, b) && Below(b, c)
    ensures Below(a, c)
    decreases |a|
  {
    if a != [] && a[0] == b[0] && b[0] == c[0] { Transitive(a[1..], b[1..], c[1..]); }
  }

  lemma InsertSorted(list: seq<string>, p: nat, x: string)
    requires Sorted(list) && p <= |list|
    requires p > 0 ==> Below(list[p - 1], x)
    requires p < |list| ==> Below(x, list[p])
    ensures Sorted(list[..p] + [x] + list[p..])
  {
    hide Below;
    var out := list[..p] + [x] + list[p..];
    forall i, k | 0 <= i < k < |out| ensures Below(out[i], out[k]) {
      if i < p && k == p {
        assert out[i] == list[i] && out[k] == x;
        if i < p - 1 { Transitive(list[i], list[p - 1], x); }
      } else if i == p {
        assert out[i] == x && out[k] == list[k - 1];
        if k > p + 1 { Transitive(x, list[p], list[k - 1]); }
      } else {
        assert out[i] == list[if i < p then i else i - 1] && out[k] == list[if k < p then k else k - 1];
      }
    }
  }

  method Sort(s: set<string>) returns (list: seq<string>)
    ensures Lists(list, s)
  {
    hide Below;
    list := [];
    var rest := s;
    while rest != {}
      invariant rest <= s && Lists(list, s - rest)
      decreases rest
    {
      var x :| x in rest;
      var p := |list|;
      while p > 0 && Below(x, list[p - 1])
        invariant 0 <= p <= |list| && (p < |list| ==> Below(x, list[p]))
      {
        p := p - 1;
      }
      if p > 0 { Total(x, list[p - 1]); }
      InsertSorted(list, p, x);
      ghost var was := list;
      list := list[..p] + [x] + list[p..];
      rest := rest - {x};
      SameMembers(was, p, x);
    }
    assert s - {} == s;
  }

  lemma SameMembers(list: seq<string>, p: nat, x: string)
    requires p <= |list|
    ensures forall y :: y in list[..p] + [x] + list[p..] <==> y == x || y in list
  {
    assert list == list[..p] + list[p..];
  }

  /** A set has one sorted listing. */
  lemma {:induction false} OneListing(a: seq<string>, b: seq<string>, s: set<string>)
    requires Lists(a, s) && Lists(b, s)
    ensures a == b
    decreases |a|
  {
    hide Below;
    assert b != [] ==> b[0] in a;
    if a != [] {
      assert a[0] in s && a[0] in b && b[0] in a;
      FirstIsLeast(a, b[0]);
      FirstIsLeast(b, a[0]);
      if a[0] != b[0] {
        Transitive(a[0], b[0], a[0]);
        Irreflexive(a[0]);
        assert false;
      }
      RestLists(a, s);
      RestLists(b, s);
      OneListing(a[1..], b[1..], s - {a[0]});
      assert a == [a[0]] + a[1..] && b == [b[0]] + b[1..];
    }
  }

  lemma FirstIsLeast(a: seq<string>, x: string)
    requires Sorted(a) && x in a
    ensures a[0] == x || Below(a[0], x)
  {
  }

  lemma RestLists(a: seq<string>, s: set<string>)
    requires Lists(a, s) && a != []
    ensures Lists(a[1..], s - {a[0]})
  {
    Irreflexive(a[0]);
    assert forall k :: 0 < k < |a| ==> a[k] != a[0];
  }

  lemma {:induction false} SomeListing(s: set<string>)
    ensures exists list :: Lists(list, s)
    decreases |s|
  {
    hide Below;
    if s == {} {
      assert Lists([], s);
    } else {
      var x :| x in s;
      SomeListing(s - {x});
      var list :| Lists(list, s - {x});
      var p := Place(list, x);
      InsertSorted(list, p, x);
      SameMembers(list, p, x);
      assert Lists(list[..p] + [x] + list[p..], s);
    }
  }

  lemma {:induction false} Place(list: seq<string>, x: string) returns (p: nat)
    requires x !in list
    ensures p <= |list| && (p > 0 ==> Below(list[p - 1], x)) && (p < |list| ==> Below(x, list[p]))
    decreases |list|
  {
    hide Below;
    p := |list|;
    if p > 0 && !Below(list[p - 1], x) {
      Total(x, list[p - 1]);
      var front := list[..p - 1];
      p := Place(front, x);
      assert p < |front| ==> front[p] == list[p];
      assert p > 0 ==> front[p - 1] == list[p - 1];
    }
  }

  /** The sorted listing of a set. */
  ghost function Listing(s: set<string>): (list: seq<string>)
    ensures Lists(list, s)
    ensures forall l :: Lists(l, s) ==> l == list
  {
    SomeListing(s);
    var list :| Lists(list, s);
    assert forall l :: Lists(l, s) ==> l == list by {
      forall l | Lists(l, s) ensures l == list { OneListing(l, list, s); }
    }
    list
  }

  lemma AppendLast(s: set<string>, x: string)
    requires forall y :: y in s ==> Below(y, x)
    ensures Listing(s + {x}) == Listing(s) + [x]
  {
    hide Below;
    var list := Listing(s);
    assert Lists(list + [x], s + {x});
  }

  lemma RemoveFirst(s: set<string>)
    requires s != {}
    ensures Listing(s) != [] && Listing(s - {Listing(s)[0]}) == Listing(s)[1..]
  {
    hide Below;
    var x :| x in s;
    RestLists(Listing(s), s);
  }
}
