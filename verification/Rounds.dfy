/** One round in which due watchers leave or re-enter a deadline heap and become pending,
    and the order in which their callbacks then run. */
module Rounds {
  import opened Watchers
  import opened Pending
  import opened History

  /** The watchers `fired` so far, out of the active set act0 with deadlines at0, left act and at: each one
      has got its deadline in `next`, and has left the heap unless it is in `keep`. */
  ghost predicate Progress(act0: set<Watcher>, at0: map<Watcher, real>, keep: set<Watcher>, next: map<Watcher, real>,
                           now: real, fired: seq<Watcher>, act: set<Watcher>, at: map<Watcher, real>)
  {
    && act0 <= at0.Keys && at0.Keys == next.Keys == at.Keys
    && (forall w :: w in act0 && w in keep && at0[w] < now ==> next[w] >= now)
    && (forall i :: 0 <= i < |fired| ==> fired[i] in act0 && at0[fired[i]] < now)
    && (forall i, j :: 0 <= i < j < |fired| ==> fired[i] != fired[j] && at0[fired[i]] <= at0[fired[j]])
    && (forall w, i :: w in act0 && w !in fired && 0 <= i < |fired| ==> at0[fired[i]] <= at0[w])
    && act == (set w | w in act0 && (w in fired ==> w in keep))
    && (forall w :: w in at0 ==> at[w] == if w in fired then next[w] else at0[w])
  }

  lemma ProgressStart(act: set<Watcher>, at: map<Watcher, real>, keep: set<Watcher>, next: map<Watcher, real>,
                      now: real)
    requires act <= at.Keys == next.Keys && forall w :: w in act && w in keep && at[w] < now ==> next[w] >= now
    ensures Progress(act, at, keep, next, now, [], act, at)
  {
  }

  lemma ProgressStep(act0: set<Watcher>, at0: map<Watcher, real>, keep: set<Watcher>, next: map<Watcher, real>,
                     now: real, fired: seq<Watcher>, act: set<Watcher>, at: map<Watcher, real>, w: Watcher)
    requires Progress(act0, at0, keep, next, now, fired, act, at) && w in act && at[w] < now
    requires forall v :: v in act ==> at[w] <= at[v]
    ensures w in act0 && w !in fired && at0[w] == at[w]
    ensures Progress(act0, at0, keep, next, now, fired + [w], if w in keep then act else act - {w}, at[w := next[w]])
  {
    assert forall v :: v in fired + [w] <==> v in fired || v == w;
  }

  /** Distinct watchers, earliest deadline first. */
  ghost predicate ByDeadline(fired: seq<Watcher>, at0: map<Watcher, real>) {
    && (forall i :: 0 <= i < |fired| ==> fired[i] in at0)
    && (forall i, j :: 0 <= i < j < |fired| ==> fired[i] != fired[j] && at0[fired[i]] <= at0[fired[j]])
  }

  lemma ProgressDone(act0: set<Watcher>, at0: map<Watcher, real>, keep: set<Watcher>, next: map<Watcher, real>,
                     now: real, fired: seq<Watcher>, act: set<Watcher>, at: map<Watcher, real>)
    requires Progress(act0, at0, keep, next, now, fired, act, at) && forall v :: v in act ==> at[v] >= now
    ensures forall w :: w in act0 ==> (w in fired <==> at0[w] < now)
    ensures (forall w :: w in fired ==> w in act0) && ByDeadline(fired, at0)
  {
  }

  /** What stopping the watchers that do not repeat does to the history. */
  ghost function StopEvents(fired: seq<Watcher>, keep: set<Watcher>): seq<Event> {
    if fired == [] then []
    else
      var w := fired[|fired| - 1];
      StopEvents(fired[..|fired| - 1], keep) + if w in keep then [] else [Cleared(w)]
  }

  /** What feed_reverse_done does to the history: the last comes first. */
  ghost function FeedEvents(fired: seq<Watcher>, revents: Events): seq<Event> {
    if fired == [] then []
    else [Fed(fired[|fired| - 1], revents)] + FeedEvents(fired[..|fired| - 1], revents)
  }

  lemma StopEventsNone(keep: set<Watcher>)
    ensures StopEvents([], keep) == []
  {
  }

  lemma StopEventsLast(fired: seq<Watcher>, w: Watcher, keep: set<Watcher>)
    ensures StopEvents(fired + [w], keep) == StopEvents(fired, keep) + if w in keep then [] else [Cleared(w)]
  {
    assert (fired + [w])[..|fired|] == fired;
  }

  lemma FeedEventsNone(revents: Events)
    ensures FeedEvents([], revents) == []
  {
  }

  lemma FeedEventsLast(fired: seq<Watcher>, w: Watcher, revents: Events)
    ensures FeedEvents(fired + [w], revents) == [Fed(w, revents)] + FeedEvents(fired, revents)
  {
    assert (fired + [w])[..|fired|] == fired;
  }

  /** Every watcher of the round is fed, and no other. */
  lemma {:induction false} FedOnce(fired: seq<Watcher>, revents: Events, w: Watcher)
    ensures Fed(w, revents) in FeedEvents(fired, revents) <==> w in fired
    ensures |FeedEvents(fired, revents)| == |fired|
    decreases |fired|
  {
    if fired != [] {
      FedOnce(fired[..|fired| - 1], revents, w);
    }
  }

  // ---------- the order of invocation ----------

  lemma {:induction false} StoppedNotPending(log: seq<Event>, fired: seq<Watcher>, keep: set<Watcher>, w: Watcher)
    requires !Has(PendingAfter(log, w.pri), w) || (w in fired && w !in keep)
    ensures !Has(PendingAfter(log + StopEvents(fired, keep), w.pri), w)
  {
    if fired == [] {
      assert log + [] == log;
    } else {
      var init, last := fired[..|fired| - 1], fired[|fired| - 1];
      var log' := log + StopEvents(init, keep);
      if w != last || last in keep {
        StoppedNotPending(log, init, keep, w);
      }
      if last !in keep {
        assert log + StopEvents(fired, keep) == log' + [Cleared(last)];
        PendingAfterSnoc(log', Cleared(last), w.pri);
        WithoutHas(PendingAfter(log', w.pri), last, w);
      } else {
        assert log + StopEvents(fired, keep) == log';
      }
    }
  }

  lemma FeedsSplit(log: seq<Event>, fired: seq<Watcher>, revents: Events)
    requires fired != []
    ensures var last := fired[|fired| - 1];
            log + FeedEvents(fired, revents) == (log + [Fed(last, revents)]) + FeedEvents(fired[..|fired| - 1], revents)
  {
  }

  lemma {:induction false} FeedsKeepBelow(log: seq<Event>, fired: seq<Watcher>, revents: Events, v: Watcher, w: Watcher)
    requires Below(PendingAfter(log, w.pri), v, w)
    ensures Below(PendingAfter(log + FeedEvents(fired, revents), w.pri), v, w)
    decreases |fired|
  {
    if fired == [] {
      assert log + [] == log;
    } else {
      var last := fired[|fired| - 1];
      FeedsSplit(log, fired, revents);
      PendingAfterSnoc(log, Fed(last, revents), w.pri);
      FeedingBelow(PendingAfter(log, w.pri), last, revents, v, w);
      FeedsKeepBelow(log + [Fed(last, revents)], fired[..|fired| - 1], revents, v, w);
    }
  }

  /** A watcher first fed now comes to lie above one that is pending already. */
  lemma {:induction false} FedAbove(log: seq<Event>, fired: seq<Watcher>, revents: Events, v: Watcher, w: Watcher)
    requires w in fired && v != w && v.pri == w.pri
    requires Has(PendingAfter(log, w.pri), v) && !Has(PendingAfter(log, w.pri), w)
    ensures Below(PendingAfter(log + FeedEvents(fired, revents), w.pri), v, w)
    decreases |fired|
  {
    var last, l := fired[|fired| - 1], PendingAfter(log, w.pri);
    FeedsSplit(log, fired, revents);
    PendingAfterSnoc(log, Fed(last, revents), w.pri);
    if last == w {
      var a :| 0 <= a < |l| && l[a].w == v;
      var m := l + [Anpending(w, revents)];
      assert m[a].w == v && m[|l|].w == w;
      FeedsKeepBelow(log + [Fed(last, revents)], fired[..|fired| - 1], revents, v, w);
    } else {
      FeedingHas(l, last, revents, v);
      FeedingHas(l, last, revents, w);
      FedAbove(log + [Fed(last, revents)], fired[..|fired| - 1], revents, v, w);
    }
  }

  /** Of two watchers fed in reverse, the one that expired first lies on top. */
  lemma {:induction false} FedInReverse(log: seq<Event>, fired: seq<Watcher>, revents: Events, i: nat, j: nat)
    requires i < j < |fired| && fired[i].pri == fired[j].pri
    requires forall a, b :: 0 <= a < b < |fired| ==> fired[a] != fired[b]
    requires !Has(PendingAfter(log, fired[i].pri), fired[i])
    ensures Below(PendingAfter(log + FeedEvents(fired, revents), fired[i].pri), fired[j], fired[i])
    decreases |fired|
  {
    hide FeedEvents, PendingAfter, Below, Has, Feeding;
    var init, last, w := fired[..|fired| - 1], fired[|fired| - 1], fired[i];
    var l := PendingAfter(log, w.pri);
    FeedsSplit(log, fired, revents);
    PendingAfterSnoc(log, Fed(last, revents), w.pri);
    assert init[i] == w;
    if j == |fired| - 1 {
      FeedingHas(l, last, revents, last);
      FeedingHas(l, last, revents, w);
      FedAbove(log + [Fed(last, revents)], init, revents, last, w);
    } else {
      FeedingHas(l, last, revents, w);
      FedInReverse(log + [Fed(last, revents)], init, revents, i, j);
    }
  }

  /** Of two watchers of one priority expired by the same round, the one with the earlier deadline is invoked
      first, unless it is stopped before, or was pending already and kept its place. */
  lemma InvokedInDeadlineOrder(at0: map<Watcher, real>, keep: set<Watcher>, fired: seq<Watcher>, revents: Events,
                               before: seq<Event>, round: seq<Event>, log: seq<Event>,
                               w: Watcher, v: Watcher, k: nat)
    requires ByDeadline(fired, at0)
    requires w in fired && v in fired && w.pri == v.pri && at0[w] < at0[v]
    requires w !in keep || !Has(PendingAfter(before, w.pri), w)
    requires round == before + StopEvents(fired, keep) + FeedEvents(fired, revents)
    requires TopPriority(log) && round <= log && |round| <= k < |log|
    requires log[k].Invoked? && log[k].w == v && !Removed(log, v, |round|, k)
    ensures Removed(log, w, |round|, k)
  {
    hide FeedEvents, StopEvents, TopPriority, PendingAfter;
    var i :| 0 <= i < |fired| && fired[i] == w;
    var j :| 0 <= j < |fired| && fired[j] == v;
    StoppedNotPending(before, fired, keep, w);
    FedInReverse(before + StopEvents(fired, keep), fired, revents, i, j);
    assert log[..|round|] == round;
    LastFedFirstInvoked(log, v, w, |round|, k);
  }

  /** From position `start` of a history on, the watchers expired by a round run in the order of the deadlines
      they had, as InvokedInDeadlineOrder says; `before` is the history when the round began. */
  ghost predicate DeadlineOrder(at0: map<Watcher, real>, keep: set<Watcher>, fired: seq<Watcher>,
                                before: seq<Event>, log: seq<Event>, start: nat)
  {
    forall w, k :: w in fired && start <= k < |log| && log[k].Invoked? && log[k].w in fired ==>
      InOrder(at0, keep, before, log, start, w, k)
  }

  /** The round gave w its place among the pending: it does not repeat, or was not pending before. */
  ghost predicate Queued(keep: set<Watcher>, before: seq<Event>, w: Watcher) {
    w !in keep || !Has(PendingAfter(before, w.pri), w)
  }

  ghost predicate InOrder(at0: map<Watcher, real>, keep: set<Watcher>, before: seq<Event>, log: seq<Event>, start: nat,
                          w: Watcher, k: nat)
    requires start <= k < |log|
  {
    var v := log[k].w;
    w in at0 && v in at0 && w.pri == v.pri && at0[w] < at0[v] && Queued(keep, before, w) ==>
      Removed(log, v, start, k) || Removed(log, w, start, k)
  }

  lemma RoundInOrder(at0: map<Watcher, real>, keep: set<Watcher>, fired: seq<Watcher>, revents: Events,
                     before: seq<Event>, round: seq<Event>, log: seq<Event>)
    requires ByDeadline(fired, at0)
    requires round == before + StopEvents(fired, keep) + FeedEvents(fired, revents)
    requires TopPriority(log) && round <= log
    ensures DeadlineOrder(at0, keep, fired, before, log, |round|)
  {
    hide TopPriority, PendingAfter, StopEvents, FeedEvents, Removed;
    forall w, k: nat | w in fired && |round| <= k < |log| && log[k].Invoked? && log[k].w in fired
      ensures InOrder(at0, keep, before, log, |round|, w, k)
    {
      var v := log[k].w;
      if w in at0 && v in at0 && w.pri == v.pri && at0[w] < at0[v] && Queued(keep, before, w)
         && !Removed(log, v, |round|, k) {
        InvokedInDeadlineOrder(at0, keep, fired, revents, before, round, log, w, v, k);
      }
    }
  }

  method FeedReverseDone(pend: Pendings, rfeeds: seq<Watcher>, revents: Events)
    requires pend.Valid() && rfeeds != [] && forall w :: w in rfeeds ==> w in pend.ws
    modifies pend`pendings, pend`pendingpri, pend`log, (set w | w in rfeeds)`pending
    ensures pend.Valid() && pend.log == old(pend.log) + FeedEvents(rfeeds, revents)
  {
    hide Pendings.Valid, FeedEvents;
    var cnt := |rfeeds|;
    ghost var left := FeedEvents(rfeeds, revents);
    assert rfeeds[..cnt] == rfeeds;
    while cnt > 0
      invariant 0 <= cnt <= |rfeeds| && pend.Valid() && left == FeedEvents(rfeeds[..cnt], revents)
      invariant pend.log + left == old(pend.log) + FeedEvents(rfeeds, revents)
    {
      cnt := cnt - 1;
      FeedEventsLast(rfeeds[..cnt], rfeeds[cnt], revents);
      assert rfeeds[..cnt + 1] == rfeeds[..cnt] + [rfeeds[cnt]];
      left := FeedEvents(rfeeds[..cnt], revents);
      pend.FeedEvent(rfeeds[cnt], revents);
    }
    FeedEventsNone(revents);
  }
}
