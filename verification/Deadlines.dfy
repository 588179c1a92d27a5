/** A heap of active watchers: the part of starting, stopping and rescheduling
    that timers and periodics share. */
module Deadlines {
  import opened Watchers
  import opened Heap
  import opened Growth

  const SIZEOF_ANHE: nat := 16

  lemma RearrangedCached(s: seq<Anhe>, t: seq<Anhe>, n: nat)
    requires Rearranged(s, t, n) && Cached(s, n)
    ensures Cached(t, n)
  {
    forall i {:trigger t[i]} | HEAP0 <= i < n + HEAP0 ensures t[i].at == t[i].w.at {
      var x := RearrangedMember(s, t, n, i);
    }
  }

  /** A new entry in the slot after the last. */
  lemma Appended(s: seq<Anhe>, t: seq<Anhe>, n: nat, w: Watcher)
    requires n + HEAP0 <= |s| && n + HEAP0 < |t| && s[..n + HEAP0] == t[..n + HEAP0]
    requires Ordered(s, n) && BackPointers(s, n) && Cached(s, n) && w !in Ws(s, n)
    requires t[n + HEAP0] == Anhe(w.at, w)
    ensures OrderedAbove(t, n + 1, n + HEAP0) && BackPointersBut(t, n + 1, n + HEAP0) && Cached(t, n + 1)
    ensures Ws(t, n + 1) == Ws(s, n) + {w}
  {
    assert forall i {:trigger t[i]} :: HEAP0 <= i < n + HEAP0 ==> t[i] == s[i];
    forall i {:trigger HParent(i)} | HEAP0 < i < n + 1 + HEAP0 ensures HEAP0 <= HParent(i) < n + HEAP0 {
      HParentRange(i);
    }
    assert Ws(t, n + 1) == Ws(t, n) + {w};
  }

  /** Whatever entry replaces the one at slot k, only the order around slot k is in doubt. */
  lemma Replaced(s: seq<Anhe>, n: nat, k: int, e: Anhe)
    requires HEAP0 <= k < n + HEAP0 <= |s| && Ordered(s, n)
    ensures OrderedBut(s[k := e], n, k) && (k == HEAP0 ==> OrderedBelow(s[k := e], n, k))
  {
    forall i {:trigger HParent(i)} | HEAP0 < i < n + HEAP0 ensures HEAP0 <= HParent(i) < i {
      HParentRange(i);
    }
    if k > HEAP0 { HParentRange(k); }
  }

  /** The last entry takes the place of the one at slot k, which leaves the heap. */
  lemma LastMoved(s: seq<Anhe>, n: nat, k: int)
    requires HEAP0 <= k < n + HEAP0 < |s|
    requires Ordered(s, n + 1) && BackPointers(s, n + 1) && Cached(s, n + 1)
    ensures var t := s[k := s[n + HEAP0]];
            && OrderedBut(t, n, k) && BackPointersBut(t, n, k) && Cached(t, n)
            && Ws(t, n) == Ws(s, n + 1) - {s[k].w}
  {
    var t := s[k := s[n + HEAP0]];
    Replaced(s, n, k, s[n + HEAP0]);
    forall i | HEAP0 <= i < n + 1 + HEAP0 && i != k ensures s[i].w in Ws(t, n) {
      assert t[if i == n + HEAP0 then k else i].w == s[i].w;
    }
  }

  lemma LastDropped(s: seq<Anhe>, n: nat)
    requires n + HEAP0 < |s|
    requires Ordered(s, n + 1) && BackPointers(s, n + 1) && Cached(s, n + 1)
    ensures Ordered(s, n) && BackPointers(s, n) && Cached(s, n)
    ensures Ws(s, n) == Ws(s, n + 1) - {s[n + HEAP0].w}
  {
  }

  class DeadlineHeap {
    ghost const universe: set<Watcher>  // the watchers that use this heap
    var heap: array<Anhe>               // timers, periodics
    var cnt: nat                        // timercnt, periodiccnt

    ghost function Active(): set<Watcher>
      requires cnt + HEAP0 <= heap.Length
      reads this, heap
    {
      Ws(heap[..], cnt)
    }

    /** Everything but the order of the heap. */
    ghost predicate Unordered()
      reads this, heap, universe`active, universe`at
    {
      && cnt + HEAP0 <= heap.Length
      && Active() <= universe
      && BackPointers(heap[..], cnt) && Cached(heap[..], cnt)
      && (forall w :: w in universe && w.active != 0 ==> w in Active())
    }

    /** verify_heap, and `active` is set exactly on the watchers in the heap. */
    ghost predicate Valid()
      reads this, heap, universe`active, universe`at
    {
      Unordered() && Ordered(heap[..], cnt)
    }

    constructor (ghost universe: set<Watcher>, w: Watcher)
      requires forall w :: w in universe ==> w.active == 0
      ensures Valid() && Active() == {} && this.universe == universe && fresh(heap)
    {
      this.universe := universe;
      heap := new Anhe[HEAP0](_ => Anhe(0.0, w));
      cnt := 0;
    }

    /** array_needsize: room for slot `last`, the rest unchanged. */
    method NeedSize(last: nat, filler: Anhe)
      modifies this`heap
      ensures last < heap.Length && old(heap.Length) <= heap.Length
      ensures heap[..old(heap.Length)] == old(heap[..]) && (heap == old(heap) || fresh(heap))
    {
      if last + 1 > heap.Length {
        var ncur := ArrayNextsize(SIZEOF_ANHE, heap.Length, last + 1);
        var was := heap;
        heap := new Anhe[ncur](i reads was => if 0 <= i < was.Length then was[i] else filler);
      }
    }

    /** verify_heap */
    ghost predicate Verified()
      requires cnt + HEAP0 <= heap.Length
      reads this, heap, Active()`active, Active()`at
    {
      VerifyHeap(heap[..], cnt)
    }

    method Rise(slot: int)
      requires HEAP0 <= slot < cnt + HEAP0 <= heap.Length && Cached(heap[..], cnt)
      requires OrderedAbove(heap[..], cnt, slot) && BackPointersBut(heap[..], cnt, slot)
      modifies heap, Active()`active
      ensures Verified() && Active() == old(Active())
    {
      ghost var s := heap[..];
      Upheap(heap, cnt, slot);
      SiftUpOrders(s, cnt, slot);
      RearrangedWs(s, heap[..], cnt);
      RearrangedCached(s, heap[..], cnt);
    }

    method Adjust(slot: int)
      requires HEAP0 <= slot < cnt + HEAP0 <= heap.Length && Cached(heap[..], cnt)
      requires OrderedBut(heap[..], cnt, slot) && BackPointersBut(heap[..], cnt, slot)
      modifies heap, Active()`active
      ensures Verified() && Active() == old(Active())
    {
      ghost var s := heap[..];
      AdjustHeap(heap, cnt, slot);
      AdjustedOrders(s, cnt, slot);
      RearrangedWs(s, heap[..], cnt);
      RearrangedCached(s, heap[..], cnt);
    }

    method SinkRoot()
      requires cnt > 0 && cnt + HEAP0 <= heap.Length && Cached(heap[..], cnt)
      requires OrderedBelow(heap[..], cnt, HEAP0) && BackPointersBut(heap[..], cnt, HEAP0)
      modifies heap, Active()`active
      ensures Verified() && Active() == old(Active())
    {
      ghost var s := heap[..];
      Downheap(heap, cnt, HEAP0);
      SiftDownOrders(s, cnt, HEAP0);
      RearrangedWs(s, heap[..], cnt);
      RearrangedCached(s, heap[..], cnt);
    }

    /** ++timercnt; the new entry goes after the last. */
    method Append(w: Watcher)
      requires Valid() && w in universe && w.active == 0
      modifies this, heap, w`active
      ensures cnt == old(cnt) + 1 && w.active == cnt + HEAP0 - 1 < heap.Length && (heap == old(heap) || fresh(heap))
      ensures Cached(heap[..], cnt)
      ensures OrderedAbove(heap[..], cnt, w.active) && BackPointersBut(heap[..], cnt, w.active)
      ensures Active() == old(Active()) + {w}
    {
      ghost var s, n := heap[..], cnt;
      assert w !in Ws(s, n);
      cnt := cnt + 1;
      w.active := cnt + HEAP0 - 1;
      NeedSize(w.active, Anhe(w.at, w));
      heap[w.active] := Anhe(w.at, w);
      assert s[..n + HEAP0] == heap[..][..n + HEAP0];
      Appended(s, heap[..], n, w);
    }

    method Insert(w: Watcher)
      requires Valid() && w in universe && w.active == 0
      modifies this, heap, universe`active
      ensures Valid() && Active() == old(Active()) + {w} && (heap == old(heap) || fresh(heap))
    {
      Append(w);
      Rise(w.active);
    }

    /** ... with a new deadline. */
    method InsertAt(w: Watcher, at: real)
      requires Valid() && w in universe && w.active == 0
      modifies this, heap, universe`active, w`at
      ensures Valid() && Active() == old(Active()) + {w} && w.at == at && (heap == old(heap) || fresh(heap))
    {
      assert w !in Active();
      w.at := at;
      Insert(w);
    }

    /** The entry after the last, which was the last one, replaces the one at slot `active`. */
    method FillFromLast(active: int)
      requires HEAP0 <= active < cnt + HEAP0 < heap.Length && VerifyHeap(heap[..], cnt + 1)
      modifies heap, Ws(heap[..], cnt + 1)`active
      ensures Verified() && Active() == old(Ws(heap[..], cnt + 1)) - {old(heap[active].w)}
      ensures old(heap[active].w).active == old(heap[active].w.active)
    {
      ghost var s := heap[..];
      LastMoved(s, cnt, active);
      heap[active] := heap[cnt + HEAP0];
      assert heap[..] == s[active := s[cnt + HEAP0]];
      Adjust(active);
    }

    method Remove(w: Watcher)
      requires Valid() && w in universe && w.active != 0
      modifies this`cnt, heap, universe`active
      ensures Valid() && Active() == old(Active()) - {w} && w.active == 0
    {
      var active := w.active;
      assert active < cnt + HEAP0 && heap[active].w == w;
      cnt := cnt - 1;
      if active < cnt + HEAP0 {
        FillFromLast(active);
      } else {
        LastDropped(heap[..], cnt);
      }
      w.active := 0;
    }

    /** A new deadline for an active watcher. */
    method Reset(w: Watcher, at: real)
      requires Valid() && w in universe && w.active != 0
      modifies heap, universe`active, w`at
      ensures Valid() && Active() == old(Active()) && w.at == at
    {
      ghost var s := heap[..];
      var k := w.active;
      assert k < cnt + HEAP0 && heap[k].w == w;
      w.at := at;
      heap[k] := Anhe(w.at, w);
      assert heap[..] == s[k := Anhe(w.at, w)];
      Replaced(s, cnt, k, Anhe(w.at, w));
      SameWatchers(s, heap[..], cnt);
      Adjust(k);
    }

    /** A new deadline for the watcher at the root. */
    method ResetRoot(at: real)
      requires Valid() && cnt > 0
      modifies heap, universe`active, universe`at
      ensures Valid() && Active() == old(Active())
      ensures forall w :: w in universe ==> w.at == if w == old(heap[HEAP0].w) then at else old(w.at)
    {
      ghost var s := heap[..];
      var w := heap[HEAP0].w;
      w.at := at;
      heap[HEAP0] := Anhe(w.at, w);
      assert heap[..] == s[HEAP0 := Anhe(w.at, w)];
      Replaced(s, cnt, HEAP0, Anhe(w.at, w));
      SameWatchers(s, heap[..], cnt);
      SinkRoot();
    }

    /** reheap, on entries in any order. */
    method Rebuild()
      requires Unordered()
      modifies heap, Active()`active
      ensures Valid() && Active() == old(Active())
    {
      ghost var s := heap[..];
      Reheap(heap, cnt);
      RearrangedWs(s, heap[..], cnt);
      RearrangedCached(s, heap[..], cnt);
    }

    /** ANHE_at (heap [HEAP0]) is the earliest deadline of all active watchers. */
    lemma RootIsEarliest(w: Watcher)
      requires Valid() && w in Active()
      ensures cnt > 0 && heap[HEAP0].at <= w.at
    {
      RootIsMin(heap[..], cnt, w.active);
    }
  }

  lemma SameWatchers(s: seq<Anhe>, t: seq<Anhe>, n: nat)
    requires n + HEAP0 <= |s| == |t| && forall i :: HEAP0 <= i < n + HEAP0 ==> s[i].w == t[i].w
    ensures Ws(s, n) == Ws(t, n)
  {
    forall i | HEAP0 <= i < n + HEAP0 ensures s[i].w in Ws(t, n) && t[i].w in Ws(s, n) {
      assert s[i].w == t[i].w;
    }
  }
}
