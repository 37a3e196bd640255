// Sequences without duplicates, and the removal of a set of elements from one.
module Lists {

  ghost predicate NoDup(q: seq<int>) {
    forall i, j {:trigger q[i], q[j]} :: 0 <= i < j < |q| ==> q[i] != q[j]
  }

  ghost function Elems(q: seq<int>): set<int> {
    set x | x in q
  }

  // The elements of q outside v, in their order.
  ghost function Minus(q: seq<int>, v: set<int>): seq<int> {
    if q == [] then []
    else if q[0] in v then Minus(q[1..], v)
    else [q[0]] + Minus(q[1..], v)
  }

  lemma {:induction false} MinusElems(q: seq<int>, v: set<int>)
    ensures forall x :: x in Minus(q, v) <==> x in q && x !in v
    ensures |Minus(q, v)| <= |q|
  {
    if q != [] {
      MinusElems(q[1..], v);
      assert forall x :: x in q <==> x == q[0] || x in q[1..];
    }
  }

  lemma {:induction false} MinusShorter(q: seq<int>, v: set<int>, x: int)
    requires x in q && x in v
    ensures |Minus(q, v)| < |q|
  {
    if q[0] in v {
      MinusElems(q[1..], v);
    } else {
      MinusShorter(q[1..], v, x);
    }
  }

  lemma {:induction false} MinusNoDup(q: seq<int>, v: set<int>)
    requires NoDup(q)
    ensures NoDup(Minus(q, v))
  {
    if q != [] {
      MinusNoDup(q[1..], v);
      MinusElems(q[1..], v);
    }
  }

  lemma {:induction false} MinusNone(q: seq<int>, v: set<int>)
    requires forall x :: x in q ==> x !in v
    ensures Minus(q, v) == q
  {
    if q != [] {
      MinusNone(q[1..], v);
      var h := q[0];
      assert h in q && h !in v;
      assert q == [h] + q[1..];
    }
  }

  lemma {:induction false} MinusConcat(a: seq<int>, b: seq<int>, v: set<int>)
    ensures Minus(a + b, v) == Minus(a, v) + Minus(b, v)
  {
    if a == [] {
      assert a + b == b;
    } else {
      var h, t := a[0], a[1..];
      MinusConcat(t, b, v);
      assert (a + b)[0] == h && (a + b)[1..] == t + b;
      if h !in v {
        assert [h] + (Minus(t, v) + Minus(b, v)) == ([h] + Minus(t, v)) + Minus(b, v);
      }
    }
  }

  // Removing two sets one after the other removes their union.
  lemma {:induction false} MinusMinus(q: seq<int>, v: set<int>, w: set<int>)
    ensures Minus(Minus(q, v), w) == Minus(q, v + w)
  {
    if q != [] {
      MinusMinus(q[1..], v, w);
      if q[0] !in v {
        assert ([q[0]] + Minus(q[1..], v))[1..] == Minus(q[1..], v);
      }
    }
  }

  lemma MinusOne(a: seq<int>, x: int, b: seq<int>)
    requires x !in a && x !in b
    ensures Minus(a + ([x] + b), {x}) == a + b
  {
    assert Minus([x], {x}) == [];
    hide Minus;
    MinusConcat(a, [x] + b, {x});
    MinusConcat([x], b, {x});
    MinusNone(a, {x});
    MinusNone(b, {x});
  }

  lemma SplitAt(q: seq<int>, k: nat)
    requires k < |q|
    ensures q == q[..k] + ([q[k]] + q[k + 1..])
  {
  }

  lemma NoDupAt(q: seq<int>, k: nat)
    requires NoDup(q) && k < |q|
    ensures q[k] !in q[..k] && q[k] !in q[k + 1..]
  {
    forall i | 0 <= i < |q| && i != k
      ensures q[i] != q[k]
    {
    }
    hide NoDup;
  }

  // In a sequence without duplicates, removing q[k] cuts exactly position k.
  lemma MinusAt(q: seq<int>, k: nat)
    requires NoDup(q) && k < |q|
    ensures Minus(q, {q[k]}) == q[..k] + q[k + 1..]
  {
    hide Minus;
    NoDupAt(q, k);
    hide NoDup;
    SplitAt(q, k);
    MinusOne(q[..k], q[k], q[k + 1..]);
  }

  lemma MinusFirst(q: seq<int>)
    requires NoDup(q) && q != []
    ensures Minus(q, {q[0]}) == q[1..]
  {
    hide Minus;
    MinusAt(q, 0);
  }

  // r is q without its position k.
  ghost predicate Skips(q: seq<int>, k: nat, r: seq<int>) {
    && k < |q| && |r| == |q| - 1
    && (forall i {:trigger r[i]} :: 0 <= i < |r| ==> r[i] == q[if i < k then i else i + 1])
  }

  lemma MinusSkips(q: seq<int>, k: nat)
    requires NoDup(q) && k < |q|
    ensures Skips(q, k, Minus(q, {q[k]}))
  {
    hide Minus;
    MinusAt(q, k);
  }

  lemma {:induction false} ElemsCard(q: seq<int>)
    requires NoDup(q)
    ensures |Elems(q)| == |q|
  {
    if q != [] {
      ElemsCard(q[1..]);
      assert Elems(q) == {q[0]} + Elems(q[1..]);
    }
  }

  lemma Member(s: set<int>) returns (x: int)
    requires s != {}
    ensures x in s
  {
    EmptyOrNot(s);
    x :| x in s;
  }

  lemma EmptyOrNot(s: set<int>)
    ensures s == {} || exists x :: x in s
  {
    if !exists x :: x in s {
      assert s == {};
    }
  }

  lemma SubsetCard(a: set<int>, b: set<int>)
    requires a <= b
    ensures |a| <= |b|
    ensures |a| == |b| ==> a == b
  {
    assert b == a + (b - a);
  }

  // Only the elements of q matter to what is removed from it.
  lemma {:induction false} MinusSame(q: seq<int>, v: set<int>, w: set<int>)
    requires forall x :: x in q ==> (x in v <==> x in w)
    ensures Minus(q, v) == Minus(q, w)
  {
    if q != [] {
      var h := q[0];
      assert h in q;
      MinusSame(q[1..], v, w);
    }
  }

  lemma {:induction false} MinusCard(q: seq<int>, v: set<int>)
    requires NoDup(q)
    ensures |Minus(q, v)| == |q| - |Elems(q) * v|
  {
    if q == [] {
      assert Elems(q) * v == {};
    } else {
      MinusCard(q[1..], v);
      var r := Elems(q[1..]) * v;
      assert q[0] !in Elems(q[1..]);
      if q[0] in v {
        assert Elems(q) * v == r + {q[0]};
      } else {
        assert Elems(q) * v == r;
      }
    }
  }

  // ------------------------------------------- snapshots of a link field

  // a and b agree on every index outside s.
  ghost predicate SameBut(a: seq<int>, b: seq<int>, s: set<int>) {
    |a| == |b| && forall x {:trigger b[x]} :: 0 <= x < |a| && x !in s ==> b[x] == a[x]
  }

  // q with v at index i, if it has one.
  function Put<T>(q: seq<T>, i: int, v: T): seq<T> {
    if 0 <= i < |q| then q[i := v] else q
  }
}
