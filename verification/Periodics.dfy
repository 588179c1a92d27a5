/** Absolute timers: start, stop, again, making due ones pending, and rescheduling after a time jump. */
module Periodics {
  import opened Watchers
  import opened Heap
  import opened Pending
  import opened Deadlines
  import opened Rounds
  import opened Grid

  class Periodics {
    ghost const universe: set<Watcher>
    const pend: Pendings
    const deadlines: DeadlineHeap
    const callback: (Watcher, real) -> real  // every watcher's reschedule_cb
    var rtNow: real                          // ev_rt_now

    ghost function Active(): set<Watcher>
      requires deadlines.cnt + HEAP0 <= deadlines.heap.Length
      reads deadlines, deadlines.heap
    {
      deadlines.Active()
    }

    ghost function Ats(): map<Watcher, real>
      reads universe`at
    {
      map w | w in universe :: w.at
    }

    /** The deadline a watcher gets when it is rescheduled. */
    function Rescheduled(w: Watcher): real
      requires w.interval >= 0.0
      reads this`rtNow, w`at, w`offset, w`interval, w`hasCallback
    {
      Renewed(w, w.at, rtNow)
    }

    /** ... at time rt, if its deadline is `at`. */
    function Renewed(w: Watcher, at: real, rt: real): real
      requires w.interval >= 0.0
      reads w`offset, w`interval, w`hasCallback
    {
      if w.hasCallback then callback(w, rt)
      else if w.interval != 0.0 then Recalc(w.offset, w.interval, rt)
      else at
    }

    /** `next` is what the watcher's own parameters ask for at time rt: what its callback returns, else the next
        point of its own grid after rt. */
    ghost predicate ComesNext(w: Watcher, next: real, rt: real)
      reads w`offset, w`interval, w`hasCallback
    {
      && (w.hasCallback ==> next == callback(w, rt))
      && (!w.hasCallback && w.interval != 0.0 ==> rt < next <= rt + w.interval)
      && (!w.hasCallback && w.interval > MIN_INTERVAL ==> OnGrid(next, w.offset, w.interval))
    }

    lemma RenewedComes(w: Watcher, at: real, rt: real)
      requires w.interval >= 0.0
      ensures ComesNext(w, Renewed(w, at, rt), rt)
      ensures !w.hasCallback && w.interval == 0.0 ==> Renewed(w, at, rt) == at
    {
      hide Recalc, OnGrid;
      if !w.hasCallback && w.interval != 0.0 {
        RecalcIsSoon(w.offset, w.interval, rt);
        if w.interval > MIN_INTERVAL {
          RecalcIsNextGridPoint(w.offset, w.interval, rt, 0);
        }
      }
    }

    /** The part that does not depend on what is pending. */
    ghost predicate Sound()
      reads this, deadlines, deadlines.heap, universe`active, universe`at, universe`interval
    {
      && deadlines.universe == universe <= pend.ws && deadlines.Valid()
      && forall w :: w in universe ==> w.interval >= 0.0
    }

    ghost predicate Valid()
      reads this, pend, deadlines, deadlines.heap, pend.ws`pending
      reads universe`active, universe`at, universe`interval
    {
      Sound() && pend.Valid()
    }

    constructor (pend: Pendings, ghost universe: set<Watcher>, callback: (Watcher, real) -> real)
      requires pend.Valid() && universe <= pend.ws
      requires forall w :: w in universe ==> w.active == 0 && w.interval >= 0.0
      ensures Valid() && Active() == {} && this.pend == pend && this.universe == universe && fresh(deadlines)
      ensures fresh(deadlines.heap)
      ensures this.callback == callback
    {
      this.pend, this.universe, this.callback := pend, universe, callback;
      deadlines := new DeadlineHeap(universe, pend.dummy);
      rtNow := 0.0;
    }

    method PeriodicStart(w: Watcher)
      requires Valid() && w in universe
      modifies deadlines, deadlines.heap, universe`active, w`at
      ensures Valid() && (deadlines.heap == old(deadlines.heap) || fresh(deadlines.heap))
      ensures Active() == old(Active()) + {w}
      ensures w.at == if w in old(Active()) then old(w.at)
                      else if !w.hasCallback && w.interval == 0.0 then w.offset
                      else old(Rescheduled(w))
      ensures w !in old(Active()) ==> ComesNext(w, w.at, rtNow)
    {
      hide Pendings.Valid, Recalc, DeadlineHeap.Valid, OnGrid;
      if w.active != 0 {
        Started(w);
        return;
      }
      NotStarted(w);
      RenewedComes(w, w.at, rtNow);
      var at := w.offset;
      if w.hasCallback {
        at := callback(w, rtNow);
      } else if w.interval != 0.0 {
        at := PeriodicRecalc(w.offset, w.interval, rtNow);
      }
      deadlines.InsertAt(w, at);
    }

    lemma Started(w: Watcher)
      requires deadlines.Valid() && w in deadlines.universe && w.active != 0
      ensures w in Active() && Active() + {w} == Active()
    {
    }

    lemma NotStarted(w: Watcher)
      requires deadlines.Valid() && w in deadlines.universe && w.active == 0
      ensures w !in Active()
    {
    }

    method PeriodicStop(w: Watcher)
      requires Valid() && w in universe
      modifies pend`pendings, pend`log, w`pending, deadlines`cnt, deadlines.heap, universe`active
      ensures Valid() && Active() == old(Active()) - {w}
      ensures w.pending == 0 && pend.log == old(pend.log) + [Cleared(w)]
    {
      hide Pendings.Valid;
      pend.ClearPending(w);
      if w.active == 0 {
        return;
      }
      assert deadlines.heap[w.active].w == w;  // "internal periodic heap corruption"
      deadlines.Remove(w);
    }

    method PeriodicAgain(w: Watcher)
      requires Valid() && w in universe
      modifies pend`pendings, pend`log, w`pending, deadlines, deadlines.heap, universe`active, w`at
      ensures Valid() && (deadlines.heap == old(deadlines.heap) || fresh(deadlines.heap))
      ensures Active() == old(Active()) + {w} && w.pending == 0 && old(pend.log) <= pend.log
      ensures w.at == if !w.hasCallback && w.interval == 0.0 then w.offset else old(Rescheduled(w))
      ensures ComesNext(w, w.at, rtNow)
    {
      hide Valid, ComesNext;
      PeriodicStop(w);
      PeriodicStart(w);
    }

    // ---------- making due watchers pending ----------

    ghost function Repeating(): set<Watcher>
      reads universe`interval, universe`hasCallback
    {
      set w | w in universe && (w.hasCallback || w.interval != 0.0)
    }

    /** The deadlines that expiry gives; a watcher that is stopped keeps its own. */
    ghost function Next(at0: map<Watcher, real>): map<Watcher, real>
      requires forall w :: w in universe ==> w.interval >= 0.0
      reads this`rtNow, universe`offset, universe`interval, universe`hasCallback
    {
      map w | w in universe && w in at0 ::
        Renewed(w, at0[w], rtNow)
    }

    /** "ev_periodic reschedule callback returned time in the past" */
    ghost predicate CallbacksLookAhead()
      reads this`rtNow, universe`hasCallback
    {
      forall w :: w in universe && w.hasCallback ==> callback(w, rtNow) >= rtNow
    }

    predicate Due()
      requires Valid()
      reads this, pend, deadlines, deadlines.heap, pend.ws`pending
      reads universe`active, universe`at, universe`interval
    {
      deadlines.cnt > 0 && deadlines.heap[HEAP0].at < rtNow
    }

    lemma Bounds()
      requires Valid()
      ensures deadlines.cnt + HEAP0 <= deadlines.heap.Length && Active() <= universe
      ensures forall w :: w in universe ==> w.interval >= 0.0
    {
    }

    lemma NoneDue()
      requires Valid() && !Due()
      ensures forall v :: v in Active() ==> v.at >= rtNow
    {
      forall v | v in Active() ensures v.at >= rtNow {
        deadlines.RootIsEarliest(v);
      }
    }

    lemma NextIsLater(at0: map<Watcher, real>)
      requires Valid() && CallbacksLookAhead()
      ensures forall w :: w in Next(at0) && w in Repeating() ==> Next(at0)[w] >= rtNow
    {
      forall w | w in universe && w.interval != 0.0 ensures Recalc(w.offset, w.interval, rtNow) >= rtNow {
        RecalcIsSoon(w.offset, w.interval, rtNow);
      }
    }

    /** The watcher at the root has the earliest deadline. */
    method Root() returns (w: Watcher)
      requires Valid() && deadlines.cnt > 0
      ensures w in Active() && w.active != 0 && w == deadlines.heap[HEAP0].w && w.at == deadlines.heap[HEAP0].at
      ensures forall v :: v in Active() ==> w.at <= v.at
      ensures Active() <= universe && w.interval >= 0.0
    {
      w := deadlines.heap[HEAP0].w;
      forall v | v in Active() ensures w.at <= v.at {
        deadlines.RootIsEarliest(v);
      }
    }

    /** Reschedules or stops the watcher at the root, which is due. */
    method ExpireRoot() returns (w: Watcher)
      requires Valid() && Due()
      modifies pend`pendings, pend`log, universe`pending
      modifies deadlines`cnt, deadlines.heap, universe`active, universe`at
      ensures Valid() && w in old(Active()) && old(w.at) < rtNow
      ensures forall v :: v in old(Active()) ==> old(w.at) <= old(v.at)
      ensures Active() == if w in Repeating() then old(Active()) else old(Active()) - {w}
      ensures Ats() == old(Ats())[w := old(Rescheduled(w))]
      ensures pend.log == old(pend.log) + if w in Repeating() then [] else [Cleared(w)]
    {
      hide Pendings.Valid, DeadlineHeap.Valid, Recalc;
      w := Root();
      if w.hasCallback {
        deadlines.ResetRoot(callback(w, rtNow));
      } else if w.interval != 0.0 {
        var at := PeriodicRecalc(w.offset, w.interval, rtNow);
        deadlines.ResetRoot(at);
      } else {
        PeriodicStop(w);
      }
    }

    method ExpireNext(ghost act0: set<Watcher>, ghost at0: map<Watcher, real>, ghost log0: seq<Event>,
                      ghost fired: seq<Watcher>)
      returns (w: Watcher)
      requires Valid() && Due()
      requires Progress(act0, at0, Repeating(), Next(at0), rtNow, fired, Active(), Ats())
      requires pend.log == log0 + StopEvents(fired, Repeating())
      modifies pend`pendings, pend`log, universe`pending
      modifies deadlines`cnt, deadlines.heap, universe`active, universe`at
      ensures Valid() && w in act0 && w !in fired
      ensures Progress(act0, at0, Repeating(), Next(at0), rtNow, fired + [w], Active(), Ats())
      ensures pend.log == log0 + StopEvents(fired + [w], Repeating())
    {
      hide Valid, Due, DeadlineHeap.Valid, Progress, StopEvents, Recalc;
      Bounds();
      ghost var act, at := Active(), Ats();
      w := ExpireRoot();
      ProgressStep(act0, at0, Repeating(), Next(at0), rtNow, fired, act, at, w);
      StopEventsLast(fired, w, Repeating());
    }

    /** Terminates because a rescheduled watcher is no longer due. */
    method ExpireDue() returns (rfeeds: seq<Watcher>)
      requires Valid() && CallbacksLookAhead()
      modifies pend`pendings, pend`log, universe`pending
      modifies deadlines`cnt, deadlines.heap, universe`active, universe`at
      ensures Valid() && forall v :: v in Active() ==> v.at >= rtNow
      ensures Progress(old(Active()), old(Ats()), Repeating(), Next(old(Ats())), rtNow, rfeeds, Active(), Ats())
      ensures pend.log == old(pend.log) + StopEvents(rfeeds, Repeating())
    {
      hide Valid, Due, Progress, StopEvents, Recalc;
      Bounds();
      ghost var act0, at0, log0 := Active(), Ats(), pend.log;
      ghost var todo := act0;
      rfeeds := [];
      NextIsLater(at0);
      ProgressStart(act0, at0, Repeating(), Next(at0), rtNow);
      StopEventsNone(Repeating());
      while Due()
        invariant deadlines.cnt + HEAP0 <= deadlines.heap.Length
        invariant Valid() && Progress(act0, at0, Repeating(), Next(at0), rtNow, rfeeds, Active(), Ats())
        invariant pend.log == log0 + StopEvents(rfeeds, Repeating())
        invariant forall v :: v in act0 && v !in rfeeds ==> v in todo
        decreases todo
      {
        var w := ExpireNext(act0, at0, log0, rfeeds);
        rfeeds, todo := rfeeds + [w], todo - {w};
        Bounds();
      }
      NoneDue();
    }

    /** What a round made of each watcher's own deadline. */
    lemma NewAts(act0: set<Watcher>, at0: map<Watcher, real>, fired: seq<Watcher>)
      requires deadlines.cnt + HEAP0 <= deadlines.heap.Length && at0.Keys == universe
      requires forall w :: w in universe ==> w.interval >= 0.0
      requires Progress(act0, at0, Repeating(), Next(at0), rtNow, fired, Active(), Ats())
      ensures Active() == set w | w in act0 && (w in fired ==> w.hasCallback || w.interval != 0.0)
      ensures forall w :: w in fired ==> w in universe
      ensures forall w :: w in universe && w !in fired ==> w.at == at0[w]
      ensures forall w :: w in fired ==> ComesNext(w, w.at, rtNow)
    {
      hide DeadlineHeap.Active, ComesNext, Renewed;
      forall w | w in universe
        ensures w.at == if w in fired then Renewed(w, at0[w], rtNow) else at0[w]
      {
        assert w in Ats() && Ats()[w] == w.at;
      }
      forall w | w in fired
        ensures ComesNext(w, w.at, rtNow)
      {
        RenewedComes(w, at0[w], rtNow);
      }
    }

    /** The loops of periodics_reify, in terms of each watcher's own parameters. */
    method ExpireEach() returns (rfeeds: seq<Watcher>)
      requires Valid() && CallbacksLookAhead()
      modifies pend`pendings, pend`log, universe`pending
      modifies deadlines`cnt, deadlines.heap, universe`active, universe`at
      ensures Valid() && forall w :: w in Active() ==> w.at >= rtNow
      ensures Progress(old(Active()), old(Ats()), Repeating(), Next(old(Ats())), rtNow, rfeeds, Active(), Ats())
      ensures ByDeadline(rfeeds, old(Ats())) && forall w :: w in rfeeds ==> w in universe
      ensures forall w :: w in old(Active()) ==> (w in rfeeds <==> old(w.at) < rtNow)
      ensures Active() == set w | w in old(Active()) && (w in rfeeds ==> w.hasCallback || w.interval != 0.0)
      ensures forall w :: w in universe && w !in rfeeds ==> w.at == old(w.at)
      ensures forall w :: w in rfeeds ==> ComesNext(w, w.at, rtNow)
      ensures pend.log == old(pend.log) + StopEvents(rfeeds, Repeating())
    {
      hide Valid, Progress, ByDeadline, StopEvents, Renewed, ComesNext;
      Bounds();
      ghost var act0, at0 := Active(), Ats();
      rfeeds := ExpireDue();
      Bounds();
      ProgressDone(act0, at0, Repeating(), Next(at0), rtNow, rfeeds, Active(), Ats());
      NewAts(act0, at0, rfeeds);
    }

    /** Takes every periodic due before ev_rt_now exactly once, earliest first, then feeds them in reverse;
        nothing is due afterwards, so the outer loop of the original runs at most once. */
    method PeriodicsReify() returns (ghost fired: seq<Watcher>)
      requires Valid() && CallbacksLookAhead()
      modifies pend`pendings, pend`pendingpri, pend`log, universe`pending
      modifies deadlines`cnt, deadlines.heap, universe`active, universe`at
      ensures Valid() && forall w :: w in Active() ==> w.at >= rtNow
      ensures Progress(old(Active()), old(Ats()), Repeating(), Next(old(Ats())), rtNow, fired, Active(), Ats())
      ensures ByDeadline(fired, old(Ats()))
      ensures forall w :: w in old(Active()) ==> (w in fired <==> old(w.at) < rtNow)
      ensures Active() == set w | w in old(Active()) && (w in fired ==> w.hasCallback || w.interval != 0.0)
      ensures forall w :: w in universe && w !in fired ==> w.at == old(w.at)
      ensures forall w :: w in fired ==> ComesNext(w, w.at, rtNow)
      ensures pend.log == old(pend.log) + StopEvents(fired, Repeating()) + FeedEvents(fired, {PERIODIC})
    {
      hide Pendings.Valid, DeadlineHeap.Valid, Progress, ByDeadline, StopEvents, FeedEvents, Renewed, OnGrid;
      var rfeeds := ExpireEach();
      Bounds();
      fired := rfeeds;
      if rfeeds != [] {
        FeedReverseDone(pend, rfeeds, {PERIODIC});
      } else {
        FeedEventsNone({PERIODIC});
      }
    }

    // ---------- after a time jump ----------

    /** The watchers in the slots below i have their new deadline, in the cache too. */
    ghost predicate Recached(s: seq<Anhe>, heap: seq<Anhe>, at0: map<Watcher, real>,
                             renewed: map<Watcher, real>, i: int)
      reads universe`at
    {
      && HEAP0 <= i <= |s| == |heap| && universe == at0.Keys == renewed.Keys
      && (forall j {:trigger heap[j]} {:trigger s[j]} :: 0 <= j < |s| ==> heap[j].w == s[j].w)
      && (forall j {:trigger heap[j]} :: HEAP0 <= j < i ==> heap[j].w in universe && heap[j].at == heap[j].w.at)
      && forall w :: w in universe ==> w.at == if w in Ws(s, i - HEAP0) then renewed[w] else at0[w]
    }

    method RescheduleSlot(i: int, ghost s: seq<Anhe>, ghost at0: map<Watcher, real>, ghost renewed: map<Watcher, real>)
      requires HEAP0 <= i < deadlines.heap.Length && Recached(s, deadlines.heap[..], at0, renewed, i)
      requires deadlines.heap[i].w in universe && deadlines.heap[i].w !in Ws(s, i - HEAP0)
      requires deadlines.heap[i].w.interval >= 0.0
      requires renewed[deadlines.heap[i].w] == Rescheduled(deadlines.heap[i].w)
      modifies deadlines.heap, deadlines.heap[i].w`at
      ensures Recached(s, deadlines.heap[..], at0, renewed, i + 1)
    {
      hide Recalc;
      var heap := deadlines.heap;
      var w := heap[i].w;
      if w.hasCallback {
        w.at := callback(w, rtNow);
      } else if w.interval != 0.0 {
        w.at := PeriodicRecalc(w.offset, w.interval, rtNow);
      }
      heap[i] := Anhe(w.at, w);
      assert Ws(s, i + 1 - HEAP0) == Ws(s, i - HEAP0) + {w};
    }

    /** The deadlines after the active periodics were rescheduled at time rt. */
    ghost function RescheduledAts(at0: map<Watcher, real>, act: set<Watcher>, rt: real): map<Watcher, real>
      requires forall w :: w in universe ==> w.interval >= 0.0
      reads universe`offset, universe`interval, universe`hasCallback
    {
      map w | w in universe && w in at0 ::
        if w in act then Renewed(w, at0[w], rt) else at0[w]
    }

    /** The loop of periodics_reschedule. */
    method RescheduleSlots(ghost s: seq<Anhe>, ghost at0: map<Watcher, real>, ghost renewed: map<Watcher, real>)
      requires Valid() && s == deadlines.heap[..] && at0 == Ats()
      requires renewed == map w | w in universe :: Rescheduled(w)
      modifies deadlines.heap, universe`at
      ensures Recached(s, deadlines.heap[..], at0, renewed, deadlines.cnt + HEAP0)
    {
      hide Pendings.Valid, Recalc, Ordered;
      for i := HEAP0 to deadlines.cnt + HEAP0
        invariant Recached(s, deadlines.heap[..], at0, renewed, i)
      {
        assert deadlines.heap[i].w == s[i].w;
        RescheduleSlot(i, s, at0, renewed);
      }
    }

    lemma RecachedUnordered(s: seq<Anhe>, at0: map<Watcher, real>, renewed: map<Watcher, real>)
      requires deadlines.universe == universe && deadlines.cnt + HEAP0 <= |s|
      requires Recached(s, deadlines.heap[..], at0, renewed, deadlines.cnt + HEAP0)
      requires BackPointers(s, deadlines.cnt) && Ws(s, deadlines.cnt) <= universe
      requires forall w :: w in universe && w.active != 0 ==> w in Ws(s, deadlines.cnt)
      ensures deadlines.Unordered() && Active() == Ws(s, deadlines.cnt)
      ensures forall w :: w in universe ==> w.at == if w in Active() then renewed[w] else at0[w]
    {
      SameWatchers(s, deadlines.heap[..], deadlines.cnt);
    }

    /** Gives every periodic a new deadline. */
    method RescheduleAll()
      requires Valid()
      modifies deadlines.heap, universe`at
      ensures deadlines.Unordered() && Active() == old(Active())
      ensures forall w :: w in universe ==> w.at == if w in Active() then old(Rescheduled(w)) else old(w.at)
    {
      ghost var s, at0 := deadlines.heap[..], Ats();
      ghost var renewed := map w | w in universe :: Rescheduled(w);
      RescheduleSlots(s, at0, renewed);
      hide Pendings.Valid, Recalc, Ordered, Cached, BackPointers, Ws, Recached, Renewed;
      RecachedUnordered(s, at0, renewed);
    }

    /** After a time jump no periodic with an interval or a callback is due: each comes next as it asks for itself. */
    lemma JumpPostpones(at0: map<Watcher, real>, act: set<Watcher>, rt: real, w: Watcher)
      requires (forall v :: v in universe ==> v.interval >= 0.0) && w in universe && w in at0 && w in act
      requires w.hasCallback || w.interval != 0.0
      requires w.hasCallback ==> callback(w, rt) >= rt
      ensures RescheduledAts(at0, act, rt)[w] >= rt && ComesNext(w, RescheduledAts(at0, act, rt)[w], rt)
    {
      hide Recalc, OnGrid;
      RenewedComes(w, at0[w], rt);
    }

    lemma RenewedAts(at0: map<Watcher, real>, act: set<Watcher>, rt: real)
      requires (forall w :: w in universe ==> w.interval >= 0.0) && at0.Keys == universe
      requires forall w :: w in universe ==> w.at == if w in act then Renewed(w, at0[w], rt) else at0[w]
      ensures Ats() == RescheduledAts(at0, act, rt)
    {
      hide Renewed;
    }

    /** Gives every periodic a new deadline, whatever it is, and repairs the heap. */
    method PeriodicsReschedule()
      requires Valid()
      modifies deadlines.heap, universe`active, universe`at
      ensures Valid() && Active() == old(Active())
      ensures Ats() == RescheduledAts(old(Ats()), old(Active()), rtNow)
      ensures forall w :: w in universe ==> w.at == if w in Active() then old(Rescheduled(w)) else old(w.at)
    {
      hide Pendings.Valid, Recalc, DeadlineHeap.Valid, RescheduledAts, Renewed;
      Bounds();
      ghost var at0, act := Ats(), Active();
      RescheduleAll();
      deadlines.Rebuild();
      RenewedAts(at0, act, rtNow);
    }
  }
}
