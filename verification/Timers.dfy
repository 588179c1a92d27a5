/** Relative timers: start, stop, again, and making due timers pending. */
module Timers {
  import opened Watchers
  import opened Heap
  import opened Pending
  import opened Deadlines
  import opened Rounds
  import Grid

  /** Where expiry moves the deadline of a timer. */
  function Rearmed(at: real, repeat: real, now: real): real {
    if repeat == 0.0 then at - now else if at + repeat < now then now else at + repeat
  }

  // ---------- a repeating timer over many rounds ----------

  /** The deadlines of a repeating timer before and after the rounds at the times `now`. */
  ghost predicate Repeats(at: seq<real>, repeat: real, now: seq<real>) {
    && |at| == |now| + 1 && repeat > 0.0
    && forall i :: 0 <= i < |now| ==> at[i + 1] == if at[i] < now[i] then Rearmed(at[i], repeat, now[i]) else at[i]
  }

  /** In how many of the first n rounds it fired. */
  ghost function Firings(at: seq<real>, now: seq<real>, n: nat): nat
    requires n <= |now| < |at|
  {
    if n == 0 then 0 else Firings(at, now, n - 1) + if at[n - 1] < now[n - 1] then 1 else 0
  }

  /** A repeating timer that is never a whole period late does not drift: its deadline is its first one and a
      period for every time it fired, however late each of them was. */
  lemma {:induction false} NoDrift(at: seq<real>, repeat: real, now: seq<real>, n: nat)
    requires Repeats(at, repeat, now) && n <= |now|
    requires forall i :: 0 <= i < n ==> now[i] <= at[i] + repeat
    ensures at[n] == Grid.Point(at[0], repeat, Firings(at, now, n))
  {
    hide Grid.Point;
    if n == 0 {
      NoPeriod(at[0], repeat);
    } else {
      NoDrift(at, repeat, now, n - 1);
      Grid.NextPoint(at[0], repeat, Firings(at, now, n - 1));
    }
  }

  lemma NoPeriod(at: real, repeat: real)
    ensures Grid.Point(at, repeat, 0) == at
  {
  }

  class Timers {
    ghost const universe: set<Watcher>
    const pend: Pendings
    const deadlines: DeadlineHeap
    var mnNow: real

    ghost function Active(): set<Watcher>
      requires deadlines.cnt + HEAP0 <= deadlines.heap.Length
      reads deadlines, deadlines.heap
    {
      deadlines.Active()
    }

    ghost function Ats(): map<Watcher, real>
      reads universe`at
    {
      map w | w in universe :: w.at
    }

    ghost function Repeating(): set<Watcher>
      reads universe`repeat
    {
      set w | w in universe && w.repeat != 0.0
    }

    /** The deadlines that expiry gives to timers due at `at0`. */
    ghost function Next(at0: map<Watcher, real>): map<Watcher, real>
      reads this`mnNow, universe`repeat
    {
      map w | w in universe && w in at0 :: Rearmed(at0[w], w.repeat, mnNow)
    }

    /** The part that does not depend on what is pending. */
    ghost predicate Sound()
      reads this, deadlines, deadlines.heap, universe`active, universe`at, universe`repeat
    {
      && deadlines.universe == universe <= pend.ws && deadlines.Valid()
      && forall w :: w in universe ==> w.repeat >= 0.0
    }

    ghost predicate Valid()
      reads this, pend, deadlines, deadlines.heap, pend.ws`pending
      reads universe`active, universe`at, universe`repeat
    {
      Sound() && pend.Valid()
    }

    constructor (pend: Pendings, ghost universe: set<Watcher>)
      requires pend.Valid() && universe <= pend.ws
      requires forall w :: w in universe ==> w.active == 0 && w.repeat >= 0.0
      ensures Valid() && Active() == {} && this.pend == pend && this.universe == universe && fresh(deadlines)
      ensures fresh(deadlines.heap)
    {
      this.pend, this.universe := pend, universe;
      deadlines := new DeadlineHeap(universe, pend.dummy);
      mnNow := 0.0;
    }

    /** ev_timer_set. */
    method TimerSet(w: Watcher, at: real, repeat: real)
      requires Sound() && w in universe && w.active == 0 && repeat >= 0.0
      modifies w`at, w`repeat
      ensures Sound() && w.at == at && w.repeat == repeat && Active() == old(Active())
    {
      assert w !in Active();
      w.at, w.repeat := at, repeat;
    }

    method TimerStart(w: Watcher)
      requires Valid() && w in universe
      modifies deadlines, deadlines.heap, universe`active, w`at
      ensures Valid() && (deadlines.heap == old(deadlines.heap) || fresh(deadlines.heap))
      ensures Active() == old(Active()) + {w}
      ensures w.at == if w in old(Active()) then old(w.at) else old(w.at) + mnNow
    {
      if w.active != 0 {
        return;
      }
      assert w !in Active();
      deadlines.InsertAt(w, w.at + mnNow);
    }

    method TimerStop(w: Watcher)
      requires Valid() && w in universe
      modifies pend`pendings, pend`log, w`pending, deadlines`cnt, deadlines.heap, universe`active, w`at
      ensures Valid() && Active() == old(Active()) - {w}
      ensures w.at == if w in old(Active()) then old(w.at) - mnNow else old(w.at)
      ensures w.pending == 0 && pend.log == old(pend.log) + [Cleared(w)]
    {
      hide Pendings.Valid;
      pend.ClearPending(w);
      if w.active == 0 {
        return;
      }
      assert deadlines.heap[w.active].w == w;  // "internal timer heap corruption"
      deadlines.Remove(w);
      w.at := w.at - mnNow;
    }

    method TimerAgain(w: Watcher)
      requires Valid() && w in universe
      modifies pend`pendings, pend`log, w`pending, deadlines, deadlines.heap, universe`active, w`at
      ensures Valid() && (deadlines.heap == old(deadlines.heap) || fresh(deadlines.heap))
      ensures Active() == if w.repeat != 0.0 then old(Active()) + {w} else old(Active()) - {w}
      ensures w.repeat != 0.0 ==> w.at == mnNow + w.repeat
      ensures w.repeat == 0.0 ==> w.at == if w in old(Active()) then old(w.at) - mnNow else old(w.at)
      ensures w.pending == 0 && old(pend.log) <= pend.log
    {
      hide Pendings.Valid;
      pend.ClearPending(w);
      if w.active != 0 {
        if w.repeat != 0.0 {
          deadlines.Reset(w, mnNow + w.repeat);
        } else {
          TimerStop(w);
        }
      } else if w.repeat != 0.0 {
        w.at := w.repeat;
        TimerStart(w);
      }
    }

    /** Reschedules or stops the timer at the root, which is due. */
    method ExpireRoot() returns (w: Watcher)
      requires Valid() && Due()
      modifies pend`pendings, pend`log, universe`pending
      modifies deadlines`cnt, deadlines.heap, universe`active, universe`at
      ensures Valid() && w in old(Active()) && old(w.at) < mnNow
      ensures forall v :: v in old(Active()) ==> old(w.at) <= old(v.at)
      ensures Active() == if w.repeat == 0.0 then old(Active()) - {w} else old(Active())
      ensures Ats() == old(Ats())[w := Rearmed(old(w.at), w.repeat, mnNow)]
      ensures pend.log == old(pend.log) + if w.repeat == 0.0 then [Cleared(w)] else []
    {
      hide Pendings.Valid;
      w := deadlines.heap[HEAP0].w;
      ghost var ats := Ats();
      assert w in Active() && w.at == deadlines.heap[HEAP0].at;
      forall v | v in Active() ensures w.at <= v.at {
        deadlines.RootIsEarliest(v);
      }
      if w.repeat != 0.0 {
        var at := w.at + w.repeat;
        deadlines.ResetRoot(if at < mnNow then mnNow else at);
      } else {
        TimerStop(w);
      }
    }

    /** The root is due. */
    predicate Due()
      requires Valid()
      reads this, pend, deadlines, deadlines.heap, pend.ws`pending
      reads universe`active, universe`at, universe`repeat
    {
      deadlines.cnt > 0 && deadlines.heap[HEAP0].at < mnNow
    }

    lemma Bounds()
      requires Valid()
      ensures deadlines.cnt + HEAP0 <= deadlines.heap.Length && Active() <= universe <= pend.ws
    {
    }

    lemma NoneDue()
      requires Valid() && !Due()
      ensures forall v :: v in Active() ==> v.at >= mnNow
    {
      forall v | v in Active() ensures v.at >= mnNow {
        deadlines.RootIsEarliest(v);
      }
    }

    /** Expires the root as one more step of a round that has expired `fired`. */
    method ExpireNext(ghost act0: set<Watcher>, ghost at0: map<Watcher, real>, ghost log0: seq<Event>,
                      ghost fired: seq<Watcher>)
      returns (w: Watcher)
      requires Valid() && Due()
      requires Progress(act0, at0, Repeating(), Next(at0), mnNow, fired, Active(), Ats())
      requires pend.log == log0 + StopEvents(fired, Repeating())
      modifies pend`pendings, pend`log, universe`pending
      modifies deadlines`cnt, deadlines.heap, universe`active, universe`at
      ensures Valid() && w in act0 && w !in fired
      ensures Progress(act0, at0, Repeating(), Next(at0), mnNow, fired + [w], Active(), Ats())
      ensures pend.log == log0 + StopEvents(fired + [w], Repeating())
    {
      hide Pendings.Valid, Progress, Cached, Ordered, BackPointers, Rearmed, StopEvents;
      ghost var act, at := Active(), Ats();
      w := ExpireRoot();
      ProgressStep(act0, at0, Repeating(), Next(at0), mnNow, fired, act, at, w);
      StopEventsLast(fired, w, Repeating());
    }

    /** Expires timers until none is due. */
    method ExpireDue() returns (rfeeds: seq<Watcher>)
      requires Valid()
      modifies pend`pendings, pend`log, universe`pending
      modifies deadlines`cnt, deadlines.heap, universe`active, universe`at
      ensures Valid() && forall v :: v in Active() ==> v.at >= mnNow
      ensures Progress(old(Active()), old(Ats()), Repeating(), Next(old(Ats())), mnNow, rfeeds, Active(), Ats())
      ensures pend.log == old(pend.log) + StopEvents(rfeeds, Repeating())
    {
      hide Valid, Due, Progress, StopEvents;
      Bounds();
      ghost var act0, at0, log0 := Active(), Ats(), pend.log;
      ghost var todo := act0;
      rfeeds := [];
      ProgressStart(act0, at0, Repeating(), Next(at0), mnNow);
      StopEventsNone(Repeating());
      while Due()
        invariant deadlines.cnt + HEAP0 <= deadlines.heap.Length
        invariant Valid() && Progress(act0, at0, Repeating(), Next(at0), mnNow, rfeeds, Active(), Ats())
        invariant pend.log == log0 + StopEvents(rfeeds, Repeating())
        invariant forall v :: v in act0 && v !in rfeeds ==> v in todo
        decreases todo
      {
        var w := ExpireNext(act0, at0, log0, rfeeds);
        rfeeds, todo := rfeeds + [w], todo - {w};
        Bounds();
      }
      NoneDue();
    }

    /** The loop of timers_reify, in terms of each timer's own deadline. */
    method ExpireEach() returns (rfeeds: seq<Watcher>)
      requires Valid()
      modifies pend`pendings, pend`log, universe`pending
      modifies deadlines`cnt, deadlines.heap, universe`active, universe`at
      ensures Valid()
      ensures Progress(old(Active()), old(Ats()), Repeating(), Next(old(Ats())), mnNow, rfeeds, Active(), Ats())
      ensures ByDeadline(rfeeds, old(Ats())) && forall w :: w in rfeeds ==> w in universe
      ensures forall w :: w in old(Active()) ==> (w in rfeeds <==> old(w.at) < mnNow)
      ensures Active() == set w | w in old(Active()) && (w in rfeeds ==> w.repeat != 0.0)
      ensures forall w :: w in universe && w !in rfeeds ==> w.at == old(w.at)
      ensures forall w :: w in rfeeds && w.repeat != 0.0 ==>
                w.at == if old(w.at) + w.repeat >= mnNow then old(w.at) + w.repeat else mnNow
      ensures forall w :: w in rfeeds && w.repeat == 0.0 ==> w.at == old(w.at) - mnNow
      ensures pend.log == old(pend.log) + StopEvents(rfeeds, Repeating())
    {
      hide Valid, Progress, ByDeadline, StopEvents, Rearmed;
      Bounds();
      ghost var act0, at0 := Active(), Ats();
      rfeeds := ExpireDue();
      Bounds();
      ProgressDone(act0, at0, Repeating(), Next(at0), mnNow, rfeeds, Active(), Ats());
      NewAts(act0, at0, rfeeds);
    }

    /** Takes every timer due before mn_now exactly once, earliest deadline first, then feeds them in reverse. A
        repeating timer comes next one period after its own deadline, or at once if that has passed too. */
    method TimersReify() returns (ghost fired: seq<Watcher>)
      requires Valid()
      modifies pend`pendings, pend`pendingpri, pend`log, universe`pending
      modifies deadlines`cnt, deadlines.heap, universe`active, universe`at
      ensures Valid()
      ensures Progress(old(Active()), old(Ats()), Repeating(), Next(old(Ats())), mnNow, fired, Active(), Ats())
      ensures ByDeadline(fired, old(Ats()))
      ensures forall w :: w in old(Active()) ==> (w in fired <==> old(w.at) < mnNow)
      ensures Active() == set w | w in old(Active()) && (w in fired ==> w.repeat != 0.0)
      ensures forall w :: w in universe && w !in fired ==> w.at == old(w.at)
      ensures forall w :: w in fired && w.repeat != 0.0 ==>
                w.at == if old(w.at) + w.repeat >= mnNow then old(w.at) + w.repeat else mnNow
      ensures forall w :: w in fired && w.repeat == 0.0 ==> w.at == old(w.at) - mnNow
      ensures pend.log == old(pend.log) + StopEvents(fired, Repeating()) + FeedEvents(fired, {TIMER})
    {
      hide Pendings.Valid, DeadlineHeap.Valid, Progress, ByDeadline, StopEvents, FeedEvents, Rearmed;
      var rfeeds := ExpireEach();
      Bounds();
      fired := rfeeds;
      if rfeeds != [] {
        FeedReverseDone(pend, rfeeds, {TIMER});
      } else {
        FeedEventsNone({TIMER});
      }
    }

    /** What a round made of each timer's own deadline. */
    lemma NewAts(act0: set<Watcher>, at0: map<Watcher, real>, fired: seq<Watcher>)
      requires deadlines.cnt + HEAP0 <= deadlines.heap.Length && at0.Keys == universe
      requires Progress(act0, at0, Repeating(), Next(at0), mnNow, fired, Active(), Ats())
      ensures Active() == set w | w in act0 && (w in fired ==> w.repeat != 0.0)
      ensures forall w :: w in fired ==> w in universe
      ensures forall w :: w in universe && w !in fired ==> w.at == at0[w]
      ensures forall w :: w in fired && w.repeat != 0.0 ==>
                w.at == if at0[w] + w.repeat >= mnNow then at0[w] + w.repeat else mnNow
      ensures forall w :: w in fired && w.repeat == 0.0 ==> w.at == at0[w] - mnNow
    {
      hide DeadlineHeap.Active;
      forall w | w in universe
        ensures w.at == if w in fired then Rearmed(at0[w], w.repeat, mnNow) else at0[w]
      {
        assert w in Ats() && Ats()[w] == w.at;
      }
    }

    // ---------- after a time jump ----------

    /** The timers in the slots below i have their new deadline, in the cache too. */
    ghost predicate Moved(s: seq<Anhe>, heap: seq<Anhe>, at0: map<Watcher, real>, adjust: real, i: int)
      reads universe`at
    {
      && HEAP0 <= i <= |s| == |heap| && universe == at0.Keys
      && (forall j {:trigger heap[j]} {:trigger s[j]} :: 0 <= j < |s| ==>
            heap[j] == Anhe(if HEAP0 <= j < i then s[j].at + adjust else s[j].at, s[j].w))
      && forall w :: w in universe ==> w.at == if w in Ws(s, i - HEAP0) then at0[w] + adjust else at0[w]
    }

    method MoveSlot(i: int, adjust: real, ghost s: seq<Anhe>, ghost at0: map<Watcher, real>)
      requires HEAP0 <= i < deadlines.heap.Length && Moved(s, deadlines.heap[..], at0, adjust, i)
      requires s[i].w in universe && s[i].w !in Ws(s, i - HEAP0) && s[i].at == at0[s[i].w]
      modifies deadlines.heap, s[i].w`at
      ensures Moved(s, deadlines.heap[..], at0, adjust, i + 1)
    {
      var w := deadlines.heap[i].w;
      w.at := w.at + adjust;
      deadlines.heap[i] := Anhe(w.at, w);
      assert Ws(s, i + 1 - HEAP0) == Ws(s, i - HEAP0) + {w};
    }

    method MoveAll(adjust: real, ghost s: seq<Anhe>, ghost at0: map<Watcher, real>)
      requires Sound() && s == deadlines.heap[..] && at0 == Ats()
      modifies deadlines.heap, universe`at
      ensures Moved(s, deadlines.heap[..], at0, adjust, deadlines.cnt + HEAP0)
    {
      Slots(s, at0);
      hide DeadlineHeap.Valid, DeadlineHeap.Unordered;
      for i := HEAP0 to deadlines.cnt + HEAP0
        invariant Moved(s, deadlines.heap[..], at0, adjust, i)
      {
        MoveSlot(i, adjust, s, at0);
      }
    }

    /** timers_reschedule: every active timer moves by the same amount, and the heap stays one. */
    method TimersReschedule(adjust: real)
      requires Sound()
      modifies deadlines.heap, universe`at
      ensures Sound() && Active() == old(Active())
      ensures Ats() == Shifted(old(Ats()), old(Active()), adjust)
      ensures forall w :: w in universe ==> w.at == if w in Active() then old(w.at) + adjust else old(w.at)
    {
      hide Ordered, BackPointers, Cached;
      var n := deadlines.cnt;
      ghost var s, at0 := deadlines.heap[..], Ats();
      Slots(s, at0);
      MoveAll(adjust, s, at0);
      SameWatchers(s, deadlines.heap[..], n);
      MovedHeap(s, deadlines.heap[..], n, adjust);
      MovedCached(s, at0, adjust);
    }

    /** Every slot holds a timer of its own, with its deadline. */
    lemma Slots(s: seq<Anhe>, at0: map<Watcher, real>)
      requires Sound() && s == deadlines.heap[..] && at0 == Ats()
      ensures forall i :: HEAP0 <= i < deadlines.cnt + HEAP0 ==>
                s[i].w in universe && s[i].w !in Ws(s, i - HEAP0) && s[i].at == at0[s[i].w]
      ensures deadlines.cnt + HEAP0 <= deadlines.heap.Length
    {
      forall i | HEAP0 <= i < deadlines.cnt + HEAP0
        ensures s[i].w in universe && s[i].w !in Ws(s, i - HEAP0) && s[i].at == at0[s[i].w]
      {
        assert s[i].w in Ws(s, deadlines.cnt);
      }
    }

    lemma MovedCached(s: seq<Anhe>, at0: map<Watcher, real>, adjust: real)
      requires deadlines.cnt + HEAP0 <= |s| == deadlines.heap.Length
      requires Moved(s, deadlines.heap[..], at0, adjust, deadlines.cnt + HEAP0)
      requires forall i :: HEAP0 <= i < deadlines.cnt + HEAP0 ==> s[i].w in universe && s[i].at == at0[s[i].w]
      ensures Cached(deadlines.heap[..], deadlines.cnt)
    {
      forall i | HEAP0 <= i < deadlines.cnt + HEAP0
        ensures deadlines.heap[i].at == deadlines.heap[i].w.at
      {
        assert s[i].w in Ws(s, deadlines.cnt);
      }
    }
  }

  /** The deadlines after every active timer has moved by `adjust`. */
  ghost function Shifted(at0: map<Watcher, real>, act: set<Watcher>, adjust: real): map<Watcher, real> {
    map w | w in at0 :: if w in act then at0[w] + adjust else at0[w]
  }

  lemma MovedHeap(s: seq<Anhe>, t: seq<Anhe>, n: nat, adjust: real)
    requires n + HEAP0 <= |s| == |t| && Ordered(s, n) && BackPointers(s, n)
    requires forall j :: HEAP0 <= j < n + HEAP0 ==> t[j] == Anhe(s[j].at + adjust, s[j].w)
    ensures Ordered(t, n) && BackPointers(t, n)
  {
    forall i {:trigger HParent(i)} | HEAP0 < i < n + HEAP0
      ensures t[HParent(i)].at <= t[i].at
    {
      HParentRange(i);
    }
  }
}
