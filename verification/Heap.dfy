/** The 4-ary heap of cached deadlines, kept in place in an array. */
module Heap {
  import opened Watchers

  const DHEAP := 4
  const HEAP0 := DHEAP - 1

  /** A heap entry: a watcher and a copy of its deadline. */
  datatype Anhe = Anhe(at: real, w: Watcher)

  /** Division as in C. */
  function Truncating(x: int, d: int): int
    requires d > 0
  {
    if x >= 0 then x / d else -((-x) / d)
  }

  function HParent(k: int): int
    requires k >= HEAP0
  {
    if k == HEAP0 then HEAP0 else (k - HEAP0 - 1) / DHEAP + HEAP0
  }

  /** The parent formula of the original, where the division truncates and so the root is its own parent. */
  lemma HParentRange(k: int)
    requires k >= HEAP0
    ensures HParent(k) == Truncating(k - HEAP0 - 1, DHEAP) + HEAP0
    ensures HEAP0 <= HParent(k) <= k && (HParent(k) == k <==> k == HEAP0)
  {
  }

  /** The children of slot k are the DHEAP slots from the one downheap computes. */
  lemma Children(k: int, c: int)
    requires k >= HEAP0 && c > HEAP0
    ensures HParent(c) == k <==> FirstChild(k) <= c < FirstChild(k) + DHEAP
  {
  }

  function FirstChild(k: int): int {
    DHEAP * (k - HEAP0) + HEAP0 + 1
  }

  // ---------- what verify_heap asserts ----------

  ghost predicate Ordered(s: seq<Anhe>, n: nat)
    requires n + HEAP0 <= |s|
  {
    forall i {:trigger HParent(i)} :: HEAP0 < i < n + HEAP0 ==> s[HParent(i)].at <= s[i].at
  }

  ghost predicate BackPointers(s: seq<Anhe>, n: nat)
    requires n + HEAP0 <= |s|
    reads Ws(s, n)`active
  {
    forall i {:trigger s[i]} :: HEAP0 <= i < n + HEAP0 ==> s[i].w.active == i
  }

  ghost predicate Cached(s: seq<Anhe>, n: nat)
    requires n + HEAP0 <= |s|
    reads Ws(s, n)`at
  {
    forall i {:trigger s[i]} :: HEAP0 <= i < n + HEAP0 ==> s[i].at == s[i].w.at
  }

  ghost predicate VerifyHeap(s: seq<Anhe>, n: nat)
    requires n + HEAP0 <= |s|
    reads Ws(s, n)`active, Ws(s, n)`at
  {
    Ordered(s, n) && BackPointers(s, n) && Cached(s, n)
  }

  /** The watchers in the heap. */
  ghost function Ws(s: seq<Anhe>, n: nat): set<Watcher>
    requires n + HEAP0 <= |s|
  {
    set i | HEAP0 <= i < n + HEAP0 :: s[i].w
  }

  ghost function Entries(s: seq<Anhe>, n: nat): set<Anhe>
    requires n + HEAP0 <= |s|
  {
    set i | HEAP0 <= i < n + HEAP0 :: s[i]
  }

  lemma {:induction false} RootIsMin(s: seq<Anhe>, n: nat, i: int)
    requires n + HEAP0 <= |s| && Ordered(s, n) && HEAP0 <= i < n + HEAP0
    ensures s[HEAP0].at <= s[i].at
  {
    if i > HEAP0 {
      HParentRange(i);
      RootIsMin(s, n, HParent(i));
    }
  }

  // ---------- the heap with one entry out of place ----------

  /** Back-pointers are right but for slot k, whose watcher is in no other slot. */
  ghost predicate BackPointersBut(s: seq<Anhe>, n: nat, k: int)
    requires HEAP0 <= k < n + HEAP0 <= |s|
    reads Ws(s, n)`active
  {
    forall i {:trigger s[i]} :: HEAP0 <= i < n + HEAP0 && i != k ==> s[i].w.active == i && s[i].w != s[k].w
  }

  /** Nothing below slot k is smaller than its parent. */
  ghost predicate Straddles(s: seq<Anhe>, n: nat, k: int)
    requires HEAP0 <= k < n + HEAP0 <= |s|
  {
    k > HEAP0 ==>
      forall i {:trigger HParent(i)} :: HEAP0 < i < n + HEAP0 && HParent(i) == k ==> s[HParent(k)].at <= s[i].at
  }

  /** Only the entry at slot k can be smaller than its parent. */
  ghost predicate OrderedAbove(s: seq<Anhe>, n: nat, k: int)
    requires HEAP0 <= k < n + HEAP0 <= |s|
  {
    && (forall i {:trigger HParent(i)} :: HEAP0 < i < n + HEAP0 && i != k ==> s[HParent(i)].at <= s[i].at)
    && Straddles(s, n, k)
  }

  /** Only the children of slot k can be smaller than their parent. */
  ghost predicate OrderedBelow(s: seq<Anhe>, n: nat, k: int)
    requires HEAP0 <= k < n + HEAP0 <= |s|
  {
    && (forall i {:trigger HParent(i)} :: HEAP0 < i < n + HEAP0 && HParent(i) != k ==> s[HParent(i)].at <= s[i].at)
    && Straddles(s, n, k)
  }

  /** The order holds wherever slot k is not involved. */
  ghost predicate OrderedBut(s: seq<Anhe>, n: nat, k: int)
    requires HEAP0 <= k < n + HEAP0 <= |s|
  {
    && (forall i {:trigger HParent(i)} :: HEAP0 < i < n + HEAP0 && i != k && HParent(i) != k ==>
          s[HParent(i)].at <= s[i].at)
    && Straddles(s, n, k)
  }

  /** The heaps hold the same entries, and the arrays agree beyond them. */
  ghost predicate Rearranged(s: seq<Anhe>, t: seq<Anhe>, n: nat) {
    && n + HEAP0 <= |s| == |t|
    && Entries(s, n) == Entries(t, n)
    && forall i :: n + HEAP0 <= i < |s| ==> s[i] == t[i]
  }

  ghost function Swapped(s: seq<Anhe>, i: int, j: int): (t: seq<Anhe>)
    requires 0 <= i < |s| && 0 <= j < |s|
    ensures |t| == |s| && forall x :: 0 <= x < |s| ==> t[x] == s[if x == i then j else if x == j then i else x]
  {
    s[i := s[j]][j := s[i]]
  }

  lemma SwapRearranges(s: seq<Anhe>, n: nat, i: int, j: int)
    requires HEAP0 <= i < n + HEAP0 <= |s| && HEAP0 <= j < n + HEAP0
    ensures Rearranged(s, Swapped(s, i, j), n)
  {
    var t := Swapped(s, i, j);
    forall e ensures e in Entries(s, n) <==> e in Entries(t, n) {
      if e in Entries(s, n) {
        var x :| HEAP0 <= x < n + HEAP0 && s[x] == e;
        assert t[if x == i then j else if x == j then i else x] == e;
      }
    }
  }

  lemma SwapUp(s: seq<Anhe>, n: nat, k: int)
    requires HEAP0 < k < n + HEAP0 <= |s| && OrderedAbove(s, n, k)
    requires s[HParent(k)].at > s[k].at
    ensures HEAP0 <= HParent(k) < k && OrderedAbove(Swapped(s, k, HParent(k)), n, HParent(k))
  {
    HParentRange(k);
  }

  lemma SwapDown(s: seq<Anhe>, n: nat, k: int, c: int)
    requires HEAP0 <= k < n + HEAP0 <= |s| && OrderedBelow(s, n, k)
    requires HEAP0 < c < n + HEAP0 && HParent(c) == k && s[c].at < s[k].at
    requires forall i {:trigger HParent(i)} :: HEAP0 < i < n + HEAP0 && HParent(i) == k ==> s[c].at <= s[i].at
    ensures k < c && OrderedBelow(Swapped(s, k, c), n, c)
  {
    HParentRange(c);
  }

  /** The entry at slot k swaps with its parent until the parent is no larger. */
  ghost function SiftUp(s: seq<Anhe>, k: int): seq<Anhe>
    requires HEAP0 <= k < |s|
    decreases k
  {
    var p := HParent(k);
    if p == k || s[p].at <= s[k].at then s else SiftUp(Swapped(s, k, p), p)
  }

  lemma {:induction false} SiftUpOrders(s: seq<Anhe>, n: nat, k: int)
    requires HEAP0 <= k < n + HEAP0 <= |s| && OrderedAbove(s, n, k)
    ensures Rearranged(s, SiftUp(s, k), n) && Ordered(SiftUp(s, k), n)
    decreases k
  {
    var p := HParent(k);
    if p != k && s[p].at > s[k].at {
      SwapUp(s, n, k);
      SwapRearranges(s, n, k, p);
      SiftUpOrders(Swapped(s, k, p), n, p);
    }
  }

  /** `heap` holds v except that slot k is a hole, where v has the entry being moved. */
  ghost predicate Hole(heap: array<Anhe>, v: seq<Anhe>, n: nat, k: int, ws: set<Watcher>)
    reads heap, ws`active
  {
    && HEAP0 <= k < n + HEAP0 <= heap.Length == |v|
    && (forall i {:trigger v[i]} {:trigger heap[i]} :: 0 <= i < |v| && i != k ==> heap[i] == v[i])
    && (forall i {:trigger v[i]} :: HEAP0 <= i < n + HEAP0 ==>
          v[i].w in ws && (i != k ==> v[i].w.active == i && v[i].w != v[k].w))
  }

  /** The entry at slot p goes into the hole at slot k. */
  method MoveHole(heap: array<Anhe>, ghost v: seq<Anhe>, ghost n: nat, k: int, p: int, ghost ws: set<Watcher>)
    requires Hole(heap, v, n, k, ws) && HEAP0 <= p < n + HEAP0 && p != k
    modifies heap, ws`active
    ensures Hole(heap, Swapped(v, k, p), n, p, ws)
  {
    heap[k] := heap[p];
    heap[k].w.active := k;
  }

  method FillHole(heap: array<Anhe>, ghost v: seq<Anhe>, ghost n: nat, k: int, he: Anhe, ghost ws: set<Watcher>)
    requires Hole(heap, v, n, k, ws) && he == v[k]
    modifies heap, ws`active
    ensures heap[..] == v && BackPointers(v, n)
  {
    heap[k] := he;
    he.w.active := k;
  }

  /** Towards the root: moves a hole instead of swapping. */
  method Upheap(heap: array<Anhe>, ghost n: nat, slot: int)
    requires HEAP0 <= slot < n + HEAP0 <= heap.Length
    requires BackPointersBut(heap[..], n, slot)
    modifies heap, Ws(heap[..], n)`active
    ensures heap[..] == SiftUp(old(heap[..]), slot) && BackPointers(heap[..], n)
  {
    var k := slot;
    var he := heap[k];
    ghost var v, ws := heap[..], Ws(heap[..], n);
    while true
      invariant Hole(heap, v, n, k, ws) && v[k] == he
      invariant SiftUp(v, k) == SiftUp(old(heap[..]), slot)
      decreases k
    {
      var p := HParent(k);
      if p == k || heap[p].at <= he.at {
        break;
      }
      MoveHole(heap, v, n, k, p, ws);
      v := Swapped(v, k, p);
      k := p;
    }
    FillHole(heap, v, n, k, he, ws);
  }

  /** The first smallest entry among s[lo..hi]. */
  ghost function MinIndex(s: seq<Anhe>, lo: int, hi: int): (m: int)
    requires 0 <= lo < hi <= |s|
    ensures lo <= m < hi && forall i :: lo <= i < hi ==> s[m].at <= s[i].at
  {
    if lo + 1 == hi then lo
    else
      var m := MinIndex(s, lo, hi - 1);
      if s[m].at > s[hi - 1].at then hi - 1 else m
  }

  /** The end of the children of slot k in a heap of n entries. */
  function LastChild(n: nat, k: int): int {
    if FirstChild(k) + DHEAP < n + HEAP0 then FirstChild(k) + DHEAP else n + HEAP0
  }

  /** The entry at slot k swaps with its smallest child until no child is smaller. */
  ghost function SiftDown(s: seq<Anhe>, n: nat, k: int): seq<Anhe>
    requires HEAP0 <= k < n + HEAP0 <= |s|
    decreases n + HEAP0 - k
  {
    if FirstChild(k) >= n + HEAP0 then s
    else
      var c := MinIndex(s, FirstChild(k), LastChild(n, k));
      if s[k].at <= s[c].at then s else SiftDown(Swapped(s, k, c), n, c)
  }

  lemma SiftDownStep(s: seq<Anhe>, n: nat, k: int)
    requires HEAP0 <= k < n + HEAP0 <= |s| && OrderedBelow(s, n, k)
    ensures FirstChild(k) >= n + HEAP0 ==> Ordered(s, n)
    ensures FirstChild(k) < n + HEAP0 ==>
              var c := MinIndex(s, FirstChild(k), LastChild(n, k));
              if s[k].at <= s[c].at then Ordered(s, n) else OrderedBelow(Swapped(s, k, c), n, c)
  {
    forall i {:trigger HParent(i)} | HEAP0 < i < n + HEAP0
      ensures HParent(i) == k <==> FirstChild(k) <= i < LastChild(n, k)
    {
      Children(k, i);
    }
    if FirstChild(k) < n + HEAP0 {
      var c := MinIndex(s, FirstChild(k), LastChild(n, k));
      assert HParent(c) == k;
      if s[k].at > s[c].at {
        SwapDown(s, n, k, c);
      }
    }
  }

  lemma {:induction false} SiftDownOrders(s: seq<Anhe>, n: nat, k: int)
    requires HEAP0 <= k < n + HEAP0 <= |s| && OrderedBelow(s, n, k)
    ensures Rearranged(s, SiftDown(s, n, k), n) && Ordered(SiftDown(s, n, k), n)
    decreases n + HEAP0 - k
  {
    SiftDownStep(s, n, k);
    if FirstChild(k) < n + HEAP0 {
      var c := MinIndex(s, FirstChild(k), LastChild(n, k));
      if s[k].at > s[c].at {
        SwapRearranges(s, n, k, c);
        SiftDownOrders(Swapped(s, k, c), n, c);
      }
    }
  }

  lemma MinIndexIs(s: seq<Anhe>, lo: int, hi: int, m: int)
    requires 0 <= lo <= m < hi <= |s|
    requires forall i :: lo <= i < hi ==> s[m].at <= s[i].at && (i < m ==> s[m].at < s[i].at)
    ensures MinIndex(s, lo, hi) == m
  {
  }

  /** The smallest of up to DHEAP children from slot pos, the first of them if several are;
      four children are compared without bounds checks. */
  method MinChild(heap: array<Anhe>, e: int, pos: int) returns (minpos: int)
    requires 0 <= pos < e <= heap.Length
    ensures pos <= minpos < pos + DHEAP && minpos < e
    ensures forall i :: pos <= i < pos + DHEAP && i < e ==>
      heap[minpos].at <= heap[i].at && (i < minpos ==> heap[minpos].at < heap[i].at)
  {
    minpos := pos;
    if pos + DHEAP - 1 < e {
      if heap[minpos].at > heap[pos + 1].at { minpos := pos + 1; }
      if heap[minpos].at > heap[pos + 2].at { minpos := pos + 2; }
      if heap[minpos].at > heap[pos + 3].at { minpos := pos + 3; }
    } else {
      if pos + 1 < e && heap[minpos].at > heap[pos + 1].at { minpos := pos + 1; }
      if pos + 2 < e && heap[minpos].at > heap[pos + 2].at { minpos := pos + 2; }
      assert pos + 3 >= e;  // so the slow path's test of a fourth child never succeeds
    }
  }

  lemma SiftDownStops(s: seq<Anhe>, n: nat, k: int)
    requires HEAP0 <= k < n + HEAP0 <= |s|
    ensures FirstChild(k) >= n + HEAP0 ==> SiftDown(s, n, k) == s
  {
  }

  lemma SiftDownGoes(s: seq<Anhe>, n: nat, k: int, c: int)
    requires HEAP0 <= k < n + HEAP0 <= |s| && FirstChild(k) <= c < LastChild(n, k)
    requires forall i :: FirstChild(k) <= i < LastChild(n, k) ==> s[c].at <= s[i].at && (i < c ==> s[c].at < s[i].at)
    ensures SiftDown(s, n, k) == if s[k].at <= s[c].at then s else SiftDown(Swapped(s, k, c), n, c)
  {
    MinIndexIs(s, FirstChild(k), LastChild(n, k), c);
  }

  /** Away from the root. */
  method Downheap(heap: array<Anhe>, n: nat, slot: int)
    requires HEAP0 <= slot < n + HEAP0 <= heap.Length
    requires BackPointersBut(heap[..], n, slot)
    modifies heap, Ws(heap[..], n)`active
    ensures heap[..] == SiftDown(old(heap[..]), n, slot) && BackPointers(heap[..], n)
  {
    hide SiftDown;
    var k := slot;
    var he := heap[k];
    ghost var v, ws := heap[..], Ws(heap[..], n);
    while true
      invariant Hole(heap, v, n, k, ws) && v[k] == he
      invariant SiftDown(v, n, k) == SiftDown(old(heap[..]), n, slot)
      decreases n + HEAP0 - k
    {
      var pos := FirstChild(k);
      SiftDownStops(v, n, k);
      if pos >= n + HEAP0 {
        break;
      }
      var minpos := MinChild(heap, n + HEAP0, pos);
      SiftDownGoes(v, n, k, minpos);
      if he.at <= heap[minpos].at {
        break;
      }
      MoveHole(heap, v, n, k, minpos, ws);
      v := Swapped(v, k, minpos);
      k := minpos;
    }
    FillHole(heap, v, n, k, he, ws);
  }

  // ---------- adjustheap and reheap ----------

  /** What adjustheap leaves of a heap whose entry at slot k has moved or has a new deadline. */
  ghost function Adjusted(s: seq<Anhe>, n: nat, k: int): seq<Anhe>
    requires HEAP0 <= k < n + HEAP0 <= |s|
  {
    if k > HEAP0 && s[k].at <= s[HParent(k)].at then SiftUp(s, k) else SiftDown(s, n, k)
  }

  lemma AdjustedOrders(s: seq<Anhe>, n: nat, k: int)
    requires HEAP0 <= k < n + HEAP0 <= |s| && OrderedBut(s, n, k)
    ensures Rearranged(s, Adjusted(s, n, k), n) && Ordered(Adjusted(s, n, k), n)
  {
    if k > HEAP0 && s[k].at <= s[HParent(k)].at {
      SiftUpOrders(s, n, k);
    } else {
      SiftDownOrders(s, n, k);
    }
  }

  method AdjustHeap(heap: array<Anhe>, n: nat, k: int)
    requires HEAP0 <= k < n + HEAP0 <= heap.Length
    requires BackPointersBut(heap[..], n, k)
    modifies heap, Ws(heap[..], n)`active
    ensures heap[..] == Adjusted(old(heap[..]), n, k) && BackPointers(heap[..], n)
  {
    if k > HEAP0 && heap[k].at <= heap[HParent(k)].at {
      Upheap(heap, n, k);
    } else {
      Downheap(heap, n, k);
    }
  }

  ghost predicate Distinct(s: seq<Anhe>, n: nat)
    requires n + HEAP0 <= |s|
  {
    forall i, j :: HEAP0 <= i < j < n + HEAP0 ==> s[i].w != s[j].w
  }

  lemma RearrangedMember(s: seq<Anhe>, t: seq<Anhe>, n: nat, i: int) returns (x: int)
    requires Rearranged(s, t, n) && HEAP0 <= i < n + HEAP0
    ensures HEAP0 <= x < n + HEAP0 && s[x] == t[i]
  {
    assert t[i] in Entries(t, n);
    x :| HEAP0 <= x < n + HEAP0 && s[x] == t[i];
  }

  lemma RearrangedGrows(s: seq<Anhe>, t: seq<Anhe>, n: nat)
    requires Rearranged(s, t, n) && n + 1 + HEAP0 <= |s|
    ensures Rearranged(s, t, n + 1)
  {
    assert Entries(s, n + 1) == Entries(s, n) + {s[n + HEAP0]};
    assert Entries(t, n + 1) == Entries(t, n) + {t[n + HEAP0]};
  }

  lemma RearrangedWs(s: seq<Anhe>, t: seq<Anhe>, n: nat)
    requires Rearranged(s, t, n)
    ensures Ws(s, n) == Ws(t, n)
  {
    forall i | HEAP0 <= i < n + HEAP0 ensures s[i].w in Ws(t, n) && t[i].w in Ws(s, n) {
      assert s[i] in Entries(s, n) && t[i] in Entries(t, n);
    }
  }

  /** Repairs an array in any order whose watchers are distinct, whatever their back-pointers. */
  method Reheap(heap: array<Anhe>, n: nat)
    requires n + HEAP0 <= heap.Length && Distinct(heap[..], n)
    modifies heap, Ws(heap[..], n)`active
    ensures Ordered(heap[..], n) && BackPointers(heap[..], n)
    ensures Rearranged(old(heap[..]), heap[..], n)
  {
    hide Ordered, BackPointers, BackPointersBut, OrderedAbove, Rearranged, SiftUp, Distinct;
    ghost var s0 := heap[..];
    ghost var s := s0;
    ReheapStarts(s0);
    for i := 0 to n
      invariant heap[..] == s && BackPointers(s, i)
      invariant Rearranged(s0, s, i) && Ordered(s, i)
    {
      ReheapReady(s0, s, n, i);
      Upheap(heap, i + 1, i + HEAP0);
      ReheapStep(s0, s, n, i);
      s := heap[..];
    }
  }

  lemma ReheapStarts(s: seq<Anhe>)
    requires HEAP0 <= |s|
    ensures BackPointers(s, 0) && Ordered(s, 0) && Rearranged(s, s, 0)
  {
  }

  lemma ReheapReady(s0: seq<Anhe>, s: seq<Anhe>, n: nat, i: nat)
    requires i < n && n + HEAP0 <= |s| && Rearranged(s0, s, i) && Distinct(s0, n) && BackPointers(s, i)
    ensures BackPointersBut(s, i + 1, i + HEAP0) && Ws(s, i + 1) <= Ws(s0, n)
  {
    RearrangedGrows(s0, s, i);
    RearrangedWs(s0, s, i + 1);
    forall j | HEAP0 <= j < i + HEAP0 ensures s[j].w != s[i + HEAP0].w {
      var x := RearrangedMember(s0, s, i, j);
    }
  }

  lemma ReheapStep(s0: seq<Anhe>, s: seq<Anhe>, n: nat, i: nat)
    requires i < n && n + HEAP0 <= |s| && Rearranged(s0, s, i) && Ordered(s, i)
    ensures Rearranged(s0, SiftUp(s, i + HEAP0), i + 1) && Ordered(SiftUp(s, i + HEAP0), i + 1)
  {
    RearrangedGrows(s0, s, i);
    forall j {:trigger HParent(j)} | HEAP0 < j < i + 1 + HEAP0 ensures HParent(j) < i + HEAP0 {
      HParentRange(j);
    }
    SiftUpOrders(s, i + 1, i + HEAP0);
  }
}
