/** What nev's channels and timers take for granted about their libev watchers: each change that Tcp and TimerOwner
    describe on flags of their own is what libev's own start, stop, feed and reify do to a watcher. */
module Watched {
  import opened Watchers
  import opened Pending
  import opened History
  import opened Rounds
  import F = Fds
  import T = Timers
  import Tcp
  import TimerOwner

  // ---------- channels ----------

  /** A channel that asks for `events` and whose watcher is w. */
  ghost function InterestOf(fds: F.FdTable, w: Watcher, events: Events): Tcp.Interest
    reads fds.pend, w
  {
    Tcp.Interest(events, w.active != 0, w.events - {IOFDSET}, Gathered(fds.pend.log, w))
  }

  /** EventLoop::updateChannel: stop, set, and start unless there is nothing to wait for. */
  method UpdateChannel(fds: F.FdTable, w: Watcher, fd: int, events: Events)
    requires fds.Valid() && w in fds.universe && fd >= 0 && events <= {READ, WRITE}
    modifies fds, w`active, w`fd, w`events, w`pending, fds.pend`pendings, fds.pend`log
    ensures fds.Valid() && w.fd == fd && InterestOf(fds, w, events) == Tcp.Updated(events)
  {
    hide F.FdTable.Valid;
    fds.IoStop(w);
    GatheredSnoc(fds.pend.log, w);
    fds.IoSet(w, fd, events);
    if events != {} {
      fds.IoStart(w);
    }
  }

  /** EventLoop::removeChannel. */
  method RemoveChannel(fds: F.FdTable, w: Watcher, ghost events: Events)
    requires fds.Valid() && w in fds.universe
    modifies fds, w`active, w`pending, fds.pend`pendings, fds.pend`log
    ensures fds.Valid()
    ensures InterestOf(fds, w, events) == old(InterestOf(fds, w, events)).(active := false, pending := {})
  {
    hide F.FdTable.Valid;
    fds.IoStop(w);
    GatheredSnoc(fds.pend.log, w);
  }

  /** The backend reports events on the channel's descriptor: those the mask asks for become pending too. */
  method ReportEvents(fds: F.FdTable, w: Watcher, fd: int, revents: Events, ghost events: Events)
    requires fds.Valid() && 0 <= fd < |fds.anfds| && w in fds.Watching(fd) && fds.anfds[fd].reify == {}
    modifies fds.pend`pendings, fds.pend`pendingpri, fds.pend`log, fds.universe`pending
    ensures fds.Valid()
    ensures var was := old(InterestOf(fds, w, events));
            InterestOf(fds, w, events) == was.(pending := was.pending + w.events * revents)
  {
    hide F.FdTable.Valid, F.FdFeeds, Gathered;
    ghost var log, head, v := fds.pend.log, fds.Watching(fd), fds.Ios();
    ListOk(fds, fd);
    fds.FdEvent(fd, revents);
    GatheredFeeds(log, head, revents, v, w);
  }

  lemma ListOk(fds: F.FdTable, fd: int)
    requires fds.Valid() && 0 <= fd < |fds.anfds|
    ensures forall x :: x in fds.Watching(fd) ==> x in fds.universe
    ensures var head := fds.Watching(fd); forall i, j :: 0 <= i < j < |head| ==> head[i] != head[j]
  {
    assert F.OneList(fds.Watching(fd), fd, fds.Ios());
  }

  lemma GatheredMore(log: seq<Event>, e: Event, w: Watcher)
    ensures Gathered(log + [e], w) ==
            if e.w != w then Gathered(log, w) else if e.Fed? then Gathered(log, w) + e.events else {}
  {
    assert (log + [e])[..|log|] == log;
  }

  lemma {:induction false} GatheredFeeds(log: seq<Event>, head: seq<Watcher>, revents: Events, v: F.View, w: Watcher)
    requires (forall x :: x in head ==> x in v) && forall i, j :: 0 <= i < j < |head| ==> head[i] != head[j]
    ensures Gathered(log + F.FdFeeds(head, revents, v), w) ==
            Gathered(log, w) + if w in head then v[w].events * revents else {}
  {
    if head == [] {
      assert log + F.FdFeeds(head, revents, v) == log;
    } else {
      var init, x := head[..|head| - 1], head[|head| - 1];
      assert head == init + [x] && x !in init;
      GatheredFeeds(log, init, revents, v, w);
      var ev := v[x].events * revents;
      var before := log + F.FdFeeds(init, revents, v);
      if ev != {} {
        assert log + F.FdFeeds(head, revents, v) == before + [Fed(x, ev)];
        GatheredMore(before, Fed(x, ev), w);
      } else {
        assert F.FdFeeds(init, revents, v) + [] == F.FdFeeds(init, revents, v);
      }
    }
  }

  /** The callback gets exactly the pending events, and nothing is pending then. */
  lemma InvokedClears(log: seq<Event>, w: Watcher, events: Events)
    requires TopPriority(log + [Invoked(w, events)])
    ensures events == Gathered(log, w) && Gathered(log + [Invoked(w, events)], w) == {}
  {
    InvokedWithGathered(log + [Invoked(w, events)], |log|);
    assert (log + [Invoked(w, events)])[..|log|] == log;
    GatheredMore(log, Invoked(w, events), w);
  }

  // ---------- timers ----------

  /** The flags of nev's Timer whose watcher is w. */
  ghost function FlagsOf(t: T.Timers, w: Watcher): TimerOwner.Flags
    reads t.pend, w
  {
    TimerOwner.Flags(w.active != 0, TIMER in Gathered(t.pend.log, w))
  }

  /** Timer::start. */
  method StartTimer(t: T.Timers, w: Watcher)
    requires t.Valid() && w in t.universe
    modifies t.deadlines, t.deadlines.heap, t.universe`active, w`at
    ensures t.Valid() && FlagsOf(t, w) == TimerOwner.Started(old(FlagsOf(t, w)))
  {
    t.TimerStart(w);
    assert w in t.deadlines.Active();
  }

  /** ~Timer. */
  method DestroyTimer(t: T.Timers, w: Watcher)
    requires t.Valid() && w in t.universe
    modifies t.pend`pendings, t.pend`log, w`pending, t.deadlines`cnt, t.deadlines.heap, t.universe`active, w`at
    ensures t.Valid() && FlagsOf(t, w) == TimerOwner.STOPPED
  {
    t.TimerStop(w);
    GatheredSnoc(t.pend.log, w);
    assert w !in t.deadlines.Active();
  }

  /** timers_reify: the timers that expire do as Expired says, and the flags of all others stay. */
  method ExpireTimers(t: T.Timers) returns (ghost fired: seq<Watcher>)
    requires t.Valid()
    modifies t.pend`pendings, t.pend`pendingpri, t.pend`log, t.universe`pending
    modifies t.deadlines`cnt, t.deadlines.heap, t.universe`active, t.universe`at
    ensures t.Valid()
    ensures forall w :: w in t.universe ==>
              FlagsOf(t, w) == if w in fired then TimerOwner.Expired(w.repeat != 0.0) else old(FlagsOf(t, w))
  {
    ghost var log, act := t.pend.log, t.Active();
    ActiveOrNot(t);
    fired := t.TimersReify();
    ActiveOrNot(t);
    forall w | w in t.universe
      ensures FlagsOf(t, w) == if w in fired then TimerOwner.Expired(w.repeat != 0.0) else old(FlagsOf(t, w))
    {
      GatheredRound(log, fired, t.Repeating(), w);
    }
  }

  lemma ActiveOrNot(t: T.Timers)
    requires t.Valid()
    ensures t.deadlines.cnt + 3 <= t.deadlines.heap.Length
    ensures forall w :: w in t.universe ==> (w.active != 0 <==> w in t.Active())
  {
  }

  lemma {:induction false} GatheredStops(log: seq<Event>, fired: seq<Watcher>, keep: set<Watcher>, w: Watcher)
    ensures Gathered(log + StopEvents(fired, keep), w) == if w in fired && w !in keep then {} else Gathered(log, w)
  {
    if fired == [] {
      assert log + StopEvents(fired, keep) == log;
    } else {
      var init, x := fired[..|fired| - 1], fired[|fired| - 1];
      assert fired == init + [x];
      GatheredStops(log, init, keep, w);
      var before := log + StopEvents(init, keep);
      if x in keep {
        assert StopEvents(init, keep) + [] == StopEvents(init, keep);
      } else {
        assert log + StopEvents(fired, keep) == before + [Cleared(x)];
        GatheredMore(before, Cleared(x), w);
      }
    }
  }

  lemma {:induction false} GatheredExpired(log: seq<Event>, fired: seq<Watcher>, revents: Events, w: Watcher)
    ensures Gathered(log + FeedEvents(fired, revents), w) == Gathered(log, w) + if w in fired then revents else {}
    decreases |fired|
  {
    if fired == [] {
      assert log + FeedEvents(fired, revents) == log;
    } else {
      var init, x := fired[..|fired| - 1], fired[|fired| - 1];
      assert fired == init + [x];
      assert log + FeedEvents(fired, revents) == log + [Fed(x, revents)] + FeedEvents(init, revents);
      GatheredMore(log, Fed(x, revents), w);
      GatheredExpired(log + [Fed(x, revents)], init, revents, w);
    }
  }

  lemma GatheredRound(log: seq<Event>, fired: seq<Watcher>, keep: set<Watcher>, w: Watcher)
    ensures TIMER in Gathered(log + StopEvents(fired, keep) + FeedEvents(fired, {TIMER}), w) <==>
              w in fired || TIMER in Gathered(log, w)
  {
    hide Gathered;
    GatheredStops(log, fired, keep, w);
    GatheredExpired(log + StopEvents(fired, keep), fired, {TIMER}, w);
  }
}
