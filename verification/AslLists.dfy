// The Active Semaphore List as a value: descriptors in increasing address order
// between two sentinels, each one between them owning a process queue; and the
// finite map from addresses to queues that it represents.
module AslLists {
  import opened Lists
  import opened Links

  // ------------------------------------------ the list seen as a finite map

  type Queues = map<int, seq<int>>

  function QueueAt(b: Queues, a: int): seq<int> {
    if a in b then b[a] else []
  }

  // p joins the queue of address a.
  ghost function Block(b: Queues, a: int, p: int): Queues {
    b[a := QueueAt(b, a) + [p]]
  }

  // p leaves the queue of address a; an emptied queue leaves the map.
  ghost function Unblock(b: Queues, a: int, p: int): Queues {
    var q := Minus(QueueAt(b, a), {p});
    if q == [] then b - {a} else b[a := q]
  }

  // --------------------------------------------------- the active list

  ghost predicate Inner(a: int) {
    0 < a < MAXINT
  }

  ghost predicate IsActive(next: seq<int>, addr: seq<int>, head: int, nodes: seq<int>) {
    && |nodes| >= 2 && |addr| == |next| && Within(nodes, |next|)
    && head == nodes[0] && addr[nodes[0]] == 0 && addr[nodes[|nodes| - 1]] == MAXINT
    && (forall i {:trigger next[nodes[i]]} :: 0 <= i < |nodes| - 1 ==> next[nodes[i]] == nodes[i + 1])
    && (forall i, j {:trigger addr[nodes[i]], addr[nodes[j]]} ::
          0 <= i < j < |nodes| ==> addr[nodes[i]] < addr[nodes[j]])
  }

  // The queues of b belong to the descriptors with their addresses.
  ghost predicate Keyed(addr: seq<int>, nodes: seq<int>, b: Queues) {
    && Within(nodes, |addr|)
    && (forall a :: a in b ==> Inner(a) && b[a] != [] && exists d :: d in nodes && addr[d] == a)
  }

  // Every descriptor but, possibly, one has a process in its queue.
  ghost predicate NonEmptyBut(addr: seq<int>, nodes: seq<int>, b: Queues, one: int) {
    Within(nodes, |addr|) && forall d :: d in nodes && d != one && Inner(addr[d]) ==> addr[d] in b
  }

  // A blocked process carries the address it is blocked on.
  ghost predicate Tagged(semAdd: seq<int>, b: Queues) {
    forall a, x {:trigger x in b[a]} :: a in b && x in b[a] ==> 0 <= x < |semAdd| && semAdd[x] == a
  }

  // Each descriptor holds the tail pointer of the queue of its address.
  ghost predicate Owns(next: seq<int>, prev: seq<int>, procQ: seq<int>, addr: seq<int>, nodes: seq<int>, b: Queues) {
    && Within(nodes, |addr|) && |procQ| == |addr|
    && forall d :: d in nodes ==> IsProcQ(next, prev, procQ[d], QueueAt(b, addr[d]))
  }

  lemma NodeIn(nodes: seq<int>, n: nat, d: int) returns (i: nat)
    requires Within(nodes, n) && d in nodes
    ensures i < |nodes| && nodes[i] == d && 0 <= d < n
  {
    i :| 0 <= i < |nodes| && nodes[i] == d;
  }

  lemma OwnAddress(next: seq<int>, addr: seq<int>, head: int, nodes: seq<int>, d: int)
    requires IsActive(next, addr, head, nodes) && d in nodes
    ensures 0 <= d < |addr| && forall e :: e in nodes && e != d ==> 0 <= e < |addr| && addr[e] != addr[d]
  {
    var i := NodeIn(nodes, |addr|, d);
    forall e | e in nodes && e != d
      ensures 0 <= e < |addr| && addr[e] != addr[d]
    {
      var j := NodeIn(nodes, |addr|, e);
      assert addr[nodes[i]] != addr[nodes[j]];
    }
  }

  lemma NodesDistinct(next: seq<int>, addr: seq<int>, head: int, nodes: seq<int>)
    requires IsActive(next, addr, head, nodes)
    ensures NoDup(nodes)
  {
    forall i, j | 0 <= i < j < |nodes|
      ensures nodes[i] != nodes[j]
    {
      assert addr[nodes[i]] < addr[nodes[j]];
    }
  }

  // The node after the last one below a carries a exactly when a is active.
  lemma SearchFinds(next: seq<int>, addr: seq<int>, head: int, nodes: seq<int>, b: Queues, a: int, k: nat)
    requires IsActive(next, addr, head, nodes) && Keyed(addr, nodes, b) && NonEmptyBut(addr, nodes, b, NIL)
    requires k < |nodes| - 1 && Inner(a) && addr[nodes[k]] < a <= addr[nodes[k + 1]]
    ensures a in b <==> addr[nodes[k + 1]] == a
    ensures a in b ==> k + 1 < |nodes| - 1
  {
    assert nodes[k + 1] in nodes;
    if a in b {
      var d :| d in nodes && addr[d] == a;
      var i := NodeIn(nodes, |addr|, d);
      assert addr[nodes[i]] == a;
    }
  }

  lemma TaggedAt(semAdd: seq<int>, b: Queues, a: int)
    requires Tagged(semAdd, b)
    ensures forall x :: x in QueueAt(b, a) ==> 0 <= x < |semAdd| && semAdd[x] == a
  {
    if a in b {
      assert QueueAt(b, a) == b[a];
    }
  }

  lemma KeyedInner(addr: seq<int>, nodes: seq<int>, b: Queues)
    requires Keyed(addr, nodes, b)
    ensures forall a :: a in b ==> Inner(a) && b[a] != []
    ensures forall a :: a in b <==> QueueAt(b, a) != []
  {
  }

  lemma NonEmptyWeaker(addr: seq<int>, nodes: seq<int>, b: Queues, d: int)
    requires NonEmptyBut(addr, nodes, b, NIL)
    ensures NonEmptyBut(addr, nodes, b, d)
  {
  }

  lemma NonEmptyFull(addr: seq<int>, nodes: seq<int>, b: Queues, k: nat)
    requires k < |nodes| && NonEmptyBut(addr, nodes, b, nodes[k]) && addr[nodes[k]] in b
    ensures NonEmptyBut(addr, nodes, b, NIL)
  {
  }

  lemma OwnsNil(next: seq<int>, prev: seq<int>, procQ: seq<int>, addr: seq<int>, nodes: seq<int>, b: Queues, k: nat)
    requires Owns(next, prev, procQ, addr, nodes, b) && Keyed(addr, nodes, b) && k < |nodes|
    ensures 0 <= nodes[k] < |addr| && (procQ[nodes[k]] == NIL <==> addr[nodes[k]] !in b)
  {
    assert nodes[k] in nodes;
    TailOf(next, prev, procQ[nodes[k]], QueueAt(b, addr[nodes[k]]));
  }

  lemma OwnsAt(next: seq<int>, prev: seq<int>, procQ: seq<int>, addr: seq<int>, nodes: seq<int>, b: Queues, k: nat)
    requires Owns(next, prev, procQ, addr, nodes, b) && k < |nodes|
    ensures 0 <= nodes[k] < |addr| && IsProcQ(next, prev, procQ[nodes[k]], QueueAt(b, addr[nodes[k]]))
  {
    assert nodes[k] in nodes;
  }

  lemma UntagKeeps(semAdd: seq<int>, b: Queues, a: int, p: int)
    requires Tagged(semAdd, b) && 0 <= p < |semAdd| && semAdd[p] == a && p !in QueueAt(b, a)
    ensures Tagged(semAdd[p := NULL_ADDR], b)
  {
    forall c, x {:trigger x in b[c]} | c in b && x in b[c]
      ensures 0 <= x < |semAdd| && semAdd[p := NULL_ADDR][x] == c
    {
      assert x == p ==> c == a;
    }
  }

  ghost predicate IsLeastFrom(b: Queues, a: int, m: int) {
    m in b && a <= m && b[m] != [] && forall c :: c in b && a <= c ==> m <= c
  }

  // The address of a process in no queue is nobody's business.
  lemma TaggedElsewhere(semAdd: seq<int>, b: Queues, p: int)
    requires Tagged(semAdd, b) && 0 <= p < |semAdd|
    requires forall a, x {:trigger x in b[a]} :: a in b && x in b[a] ==> x != p
    ensures Tagged(semAdd[p := NULL_ADDR], b)
  {
  }

  // What headBlocked returns: the front of the queue of the least active address from a
  // on, which need not be a.
  ghost predicate HeadFound(b: Queues, a: int, h: int) {
    && (h == NIL <==> forall c :: c in b ==> c < a)
    && (h != NIL ==> exists m :: IsLeastFrom(b, a, m) && h == b[m][0])
  }

  // The node after the last one below a carries the least active address from a on.
  lemma LeastFrom(next: seq<int>, addr: seq<int>, head: int, nodes: seq<int>, b: Queues, a: int, k: nat)
    requires IsActive(next, addr, head, nodes) && Keyed(addr, nodes, b) && NonEmptyBut(addr, nodes, b, NIL)
    requires k < |nodes| - 1 && Inner(a) && addr[nodes[k]] < a <= addr[nodes[k + 1]]
    ensures addr[nodes[k + 1]] in b <==> exists c :: c in b && a <= c
    ensures forall c :: c in b && a <= c ==> addr[nodes[k + 1]] <= c
  {
    var m := addr[nodes[k + 1]];
    assert nodes[k + 1] in nodes;
    forall c | c in b && a <= c
      ensures m <= c && m in b
    {
      var d :| d in nodes && addr[d] == c;
      var i := NodeIn(nodes, |addr|, d);
      assert addr[nodes[i]] == c && Inner(c);
      assert addr[nodes[|nodes| - 1]] == MAXINT;
    }
  }

  lemma TaggedHead(semAdd: seq<int>, b: Queues, a: int)
    requires Tagged(semAdd, b) && a in b && b[a] != []
    ensures 0 <= b[a][0] < |semAdd|
  {
    var x := b[a][0];
    assert x in b[a];
  }

  // Links of processes that wait for nothing do not matter to any semaphore queue.
  lemma OwnsFrame(next: seq<int>, prev: seq<int>, next': seq<int>, prev': seq<int>,
                  procQ: seq<int>, addr: seq<int>, nodes: seq<int>, b: Queues, v: set<int>)
    requires Owns(next, prev, procQ, addr, nodes, b)
    requires SameBut(next, next', v) && SameBut(prev, prev', v)
    requires forall a, x {:trigger x in b[a]} :: a in b && x in b[a] ==> x !in v
    ensures Owns(next', prev', procQ, addr, nodes, b)
  {
    hide IsProcQ, SameBut;
    forall d | d in nodes
      ensures IsProcQ(next', prev', procQ[d], QueueAt(b, addr[d]))
    {
      var q := QueueAt(b, addr[d]);
      assert forall x :: x in q ==> addr[d] in b && x in b[addr[d]];
      ProcQFrame(next, prev, next', prev', procQ[d], q, v);
    }
  }

  lemma BlockKeeps(addr: seq<int>, nodes: seq<int>, semAdd: seq<int>, b: Queues, a: int, p: int, d: int)
    requires Keyed(addr, nodes, b) && NonEmptyBut(addr, nodes, b, d) && Tagged(semAdd, b)
    requires d in nodes && addr[d] == a && Inner(a)
    requires 0 <= p < |semAdd| && semAdd[p] == NULL_ADDR
    ensures Keyed(addr, nodes, Block(b, a, p)) && NonEmptyBut(addr, nodes, Block(b, a, p), NIL)
    ensures Tagged(semAdd[p := a], Block(b, a, p))
    ensures QueueAt(Block(b, a, p), a) == QueueAt(b, a) + [p]
    ensures forall c :: c != a ==> QueueAt(Block(b, a, p), c) == QueueAt(b, c)
  {
    var b' := Block(b, a, p);
    TaggedAt(semAdd, b, a);
    forall c, x {:trigger x in b'[c]} | c in b' && x in b'[c]
      ensures 0 <= x < |semAdd| && semAdd[p := a][x] == c
    {
      if c == a {
        assert x == p || x in QueueAt(b, a);
      } else {
        assert c in b && x in b[c];
      }
    }
  }

  lemma UnblockKeeps(addr: seq<int>, nodes: seq<int>, semAdd: seq<int>, b: Queues, a: int, p: int, d: int)
    requires Keyed(addr, nodes, b) && NonEmptyBut(addr, nodes, b, NIL) && Tagged(semAdd, b)
    requires d in nodes && addr[d] == a && forall e :: e in nodes && e != d ==> addr[e] != a
    ensures Keyed(addr, nodes, Unblock(b, a, p)) && NonEmptyBut(addr, nodes, Unblock(b, a, p), d)
    ensures Tagged(semAdd, Unblock(b, a, p))
    ensures QueueAt(Unblock(b, a, p), a) == Minus(QueueAt(b, a), {p})
    ensures forall c :: c != a ==> QueueAt(Unblock(b, a, p), c) == QueueAt(b, c)
  {
    hide Minus;
    MinusElems(QueueAt(b, a), {p});
    var b' := Unblock(b, a, p);
    forall c, x {:trigger x in b'[c]} | c in b' && x in b'[c]
      ensures 0 <= x < |semAdd| && semAdd[x] == c
    {
      assert c in b && x in b[c];
    }
  }

  // Changing the queue of address a leaves the queue of every other descriptor alone.
  lemma OwnsOthers(next: seq<int>, prev: seq<int>, next': seq<int>, prev': seq<int>, semAdd: seq<int>,
                   procQ: seq<int>, procQ': seq<int>, addr: seq<int>, nodes: seq<int>,
                   b: Queues, b': Queues, a: int, v: set<int>)
    requires Owns(next, prev, procQ, addr, nodes, b) && Tagged(semAdd, b)
    requires |procQ'| == |addr|
    requires forall d :: d in nodes && addr[d] != a ==> procQ'[d] == procQ[d]
    requires SameBut(next, next', v) && SameBut(prev, prev', v)
    requires forall x :: x in v ==> x in QueueAt(b, a) || (0 <= x < |semAdd| && !Inner(semAdd[x]))
    requires forall c :: c in b ==> Inner(c)
    requires forall c :: c != a ==> QueueAt(b', c) == QueueAt(b, c)
    requires forall d :: d in nodes && addr[d] == a ==> IsProcQ(next', prev', procQ'[d], QueueAt(b', a))
    ensures Owns(next', prev', procQ', addr, nodes, b')
  {
    TaggedAt(semAdd, b, a);
    forall d | d in nodes && addr[d] != a
      ensures IsProcQ(next', prev', procQ'[d], QueueAt(b', addr[d]))
    {
      var q := QueueAt(b, addr[d]);
      forall x | x in q
        ensures x !in v
      {
        assert addr[d] in b && x in b[addr[d]] && Inner(addr[d]);
        assert semAdd[x] == addr[d];
      }
      ProcQFrame(next, prev, next', prev', procQ[d], q, v);
    }
  }

  // The list without its position k + 1.
  lemma ActiveCut(next: seq<int>, addr: seq<int>, head: int, nodes: seq<int>, k: nat)
    requires IsActive(next, addr, head, nodes) && k < |nodes| - 2
    ensures IsActive(next[nodes[k] := nodes[k + 2]], addr, head, nodes[..k + 1] + nodes[k + 2..])
    ensures nodes[k + 1] !in nodes[..k + 1] + nodes[k + 2..]
  {
    NodesDistinct(next, addr, head, nodes);
    var r := nodes[..k + 1] + nodes[k + 2..];
    assert Skips(nodes, k + 1, r);
    ActiveSkip(next, addr, head, nodes, k, r);
  }

  lemma ActiveSkip(next: seq<int>, addr: seq<int>, head: int, nodes: seq<int>, k: nat, r: seq<int>)
    requires IsActive(next, addr, head, nodes) && k < |nodes| - 2 && NoDup(nodes) && Skips(nodes, k + 1, r)
    ensures IsActive(next[nodes[k] := nodes[k + 2]], addr, head, r) && nodes[k + 1] !in r
  {
    var next' := next[nodes[k] := nodes[k + 2]];
    forall i | 0 <= i < |r| - 1
      ensures next'[r[i]] == r[i + 1]
    {
      assert next[nodes[if i <= k then i else i + 1]] == nodes[if i <= k then i + 1 else i + 2];
    }
    forall i, j | 0 <= i < j < |r|
      ensures addr[r[i]] < addr[r[j]]
    {
      assert addr[nodes[if i <= k then i else i + 1]] < addr[nodes[if j <= k then j else j + 1]];
    }
  }

  // nodes with d behind position k.
  ghost function Spliced(nodes: seq<int>, k: nat, d: int): seq<int>
    requires k < |nodes|
  {
    nodes[..k + 1] + [d] + nodes[k + 1..]
  }

  // Where the i-th node of it comes from.
  lemma SplicedAt(nodes: seq<int>, k: nat, d: int, i: nat)
    requires k < |nodes| && i <= |nodes|
    ensures Spliced(nodes, k, d)[i] == if i <= k then nodes[i] else if i == k + 1 then d else nodes[i - 1]
  {
  }

  lemma SplicedNext(next: seq<int>, addr: seq<int>, head: int, nodes: seq<int>, k: nat, d: int, i: nat)
    requires IsActive(next, addr, head, nodes) && k < |nodes| - 1 && 0 <= d < |next| && d !in nodes && NoDup(nodes)
    requires i < |nodes|
    ensures var r := Spliced(nodes, k, d);
      0 <= r[i] < |next| && next[d := nodes[k + 1]][nodes[k] := d][r[i]] == r[i + 1]
  {
    SplicedAt(nodes, k, d, i);
    SplicedAt(nodes, k, d, i + 1);
    if i != k + 1 {
      var j := if i <= k then i else i - 1;
      assert next[nodes[j]] == nodes[j + 1];
    }
  }

  lemma SplicedOrder(next: seq<int>, addr: seq<int>, head: int, nodes: seq<int>, k: nat, d: int, a: int, i: nat, j: nat)
    requires IsActive(next, addr, head, nodes) && k < |nodes| - 1 && 0 <= d < |next| && d !in nodes
    requires addr[nodes[k]] < a < addr[nodes[k + 1]] && i < j <= |nodes|
    ensures var r := Spliced(nodes, k, d);
      0 <= r[i] < |addr| && 0 <= r[j] < |addr| && addr[d := a][r[i]] < addr[d := a][r[j]]
  {
    SplicedAt(nodes, k, d, i);
    SplicedAt(nodes, k, d, j);
    if i != k + 1 && j != k + 1 {
      assert addr[nodes[if i <= k then i else i - 1]] < addr[nodes[if j <= k then j else j - 1]];
    } else if i == k + 1 {
      assert addr[nodes[k + 1]] <= addr[nodes[j - 1]];
    } else {
      assert addr[nodes[i]] <= addr[nodes[k]];
    }
  }

  // A new descriptor d spliced in behind position k.
  lemma ActiveSplice(next: seq<int>, addr: seq<int>, head: int, nodes: seq<int>, k: nat, d: int, a: int)
    requires IsActive(next, addr, head, nodes) && k < |nodes| - 1 && 0 <= d < |next| && d !in nodes
    requires addr[nodes[k]] < a < addr[nodes[k + 1]]
    ensures IsActive(next[d := nodes[k + 1]][nodes[k] := d], addr[d := a], head, Spliced(nodes, k, d))
  {
    hide NoDup, Spliced;
    NodesDistinct(next, addr, head, nodes);
    var r := Spliced(nodes, k, d);
    SplicedSize(nodes, k, d, |next|);
    SplicedAt(nodes, k, d, 0);
    SplicedAt(nodes, k, d, |nodes|);
    forall i | 0 <= i < |r| - 1
      ensures next[d := nodes[k + 1]][nodes[k] := d][r[i]] == r[i + 1]
    {
      SplicedNext(next, addr, head, nodes, k, d, i);
    }
    forall i, j | 0 <= i < j < |r|
      ensures addr[d := a][r[i]] < addr[d := a][r[j]]
    {
      SplicedOrder(next, addr, head, nodes, k, d, a, i, j);
    }
  }

  lemma SplicedSize(nodes: seq<int>, k: nat, d: int, n: nat)
    requires k < |nodes| && Within(nodes, n) && 0 <= d < n
    ensures |Spliced(nodes, k, d)| == |nodes| + 1 && Within(Spliced(nodes, k, d), n)
  {
  }

  lemma NextAt(next: seq<int>, addr: seq<int>, head: int, nodes: seq<int>, k: nat)
    requires IsActive(next, addr, head, nodes) && k < |nodes| - 1
    ensures 0 <= nodes[k] < |next| && 0 <= nodes[k + 1] < |next| && next[nodes[k]] == nodes[k + 1]
  {
  }

  // A list does not depend on descriptors outside it.
  lemma ActiveFrame(next: seq<int>, addr: seq<int>, next': seq<int>, addr': seq<int>, head: int, nodes: seq<int>,
                    d: int)
    requires IsActive(next, addr, head, nodes) && d !in nodes
    requires SameBut(next, next', {d}) && SameBut(addr, addr', {d})
    ensures IsActive(next', addr', head, nodes)
  {
  }

  // The addresses of the list between its sentinels.
  ghost function Addresses(addr: seq<int>, nodes: seq<int>): seq<int>
    requires |nodes| >= 2 && Within(nodes, |addr|)
  {
    seq(|nodes| - 2, i requires 0 <= i < |nodes| - 2 => addr[nodes[i + 1]])
  }

  // There are no more descriptors between the sentinels than semaphores with a queue.
  lemma NodesCount(next: seq<int>, addr: seq<int>, head: int, nodes: seq<int>, b: Queues)
    requires IsActive(next, addr, head, nodes) && NonEmptyBut(addr, nodes, b, NIL)
    ensures |nodes| - 2 <= |b.Keys|
  {
    var q := Addresses(addr, nodes);
    forall i, j | 0 <= i < j < |q|
      ensures q[i] != q[j]
    {
      assert addr[nodes[i + 1]] < addr[nodes[j + 1]];
    }
    forall i | 0 <= i < |q|
      ensures q[i] in b.Keys
    {
      AddressRange(next, addr, head, nodes, i + 1);
      assert nodes[i + 1] in nodes;
    }
    ElemsCard(q);
    SubsetCard(Elems(q), b.Keys);
  }

  ghost function Carriers(semAdd: seq<int>, keys: set<int>): set<int> {
    set x | 0 <= x < |semAdd| && semAdd[x] in keys
  }

  // Each queue holds a process of its own.
  lemma {:induction false} KeysCount(semAdd: seq<int>, b: Queues, keys: set<int>)
    requires Tagged(semAdd, b) && keys <= b.Keys && forall a :: a in b ==> b[a] != []
    ensures |keys| <= |Carriers(semAdd, keys)|
  {
    if keys != {} {
      var a := Member(keys);
      var x := b[a][0];
      assert x in b[a];
      KeysCount(semAdd, b, keys - {a});
      SubsetCard(Carriers(semAdd, keys - {a}), Carriers(semAdd, keys) - {x});
    }
  }

  // Every address lies between the sentinels'.
  lemma AddressRange(next: seq<int>, addr: seq<int>, head: int, nodes: seq<int>, i: nat)
    requires IsActive(next, addr, head, nodes) && i < |nodes|
    ensures 0 <= addr[nodes[i]] <= MAXINT
    ensures 0 < i < |nodes| - 1 ==> Inner(addr[nodes[i]])
  {
    assert addr[nodes[0]] == 0 && addr[nodes[|nodes| - 1]] == MAXINT;
  }

  // A spliced-in descriptor with no queue yet.
  lemma SpliceKeeps(next: seq<int>, prev: seq<int>, procQ: seq<int>, addr: seq<int>, nodes: seq<int>, b: Queues,
                    d: int, a: int, k: nat, r: seq<int>)
    requires Keyed(addr, nodes, b) && NonEmptyBut(addr, nodes, b, NIL) && Owns(next, prev, procQ, addr, nodes, b)
    requires k < |nodes| && r == Spliced(nodes, k, d)
    requires 0 <= d < |addr| && d !in nodes && a !in b && |next| == |prev|
    ensures Keyed(addr[d := a], r, b) && NonEmptyBut(addr[d := a], r, b, d)
    ensures Owns(next, prev, procQ[d := NIL], addr[d := a], r, b)
  {
    assert forall e :: e in r <==> e == d || e in nodes by {
      assert nodes == nodes[..k + 1] + nodes[k + 1..];
    }
    assert Within(r, |addr|);
  }

  // A descriptor cut out with its queue empty.
  lemma CutKeeps(next: seq<int>, prev: seq<int>, procQ: seq<int>, addr: seq<int>, nodes: seq<int>, b: Queues,
                 k: nat, r: seq<int>)
    requires k + 1 < |nodes| && r == nodes[..k + 1] + nodes[k + 2..] && nodes[k + 1] !in r
    requires Keyed(addr, nodes, b) && NonEmptyBut(addr, nodes, b, nodes[k + 1])
    requires Owns(next, prev, procQ, addr, nodes, b)
    requires addr[nodes[k + 1]] !in b
    ensures Keyed(addr[nodes[k + 1] := NULL_ADDR], r, b) && NonEmptyBut(addr[nodes[k + 1] := NULL_ADDR], r, b, NIL)
    ensures Owns(next, prev, procQ, addr[nodes[k + 1] := NULL_ADDR], r, b)
  {
    var d := nodes[k + 1];
    assert forall e :: e in nodes <==> e == d || e in r by {
      assert nodes == nodes[..k + 1] + [d] + nodes[k + 2..];
    }
    assert Within(r, |addr|);
  }
}
