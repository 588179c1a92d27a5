/** The loop: invoking pending watchers whose callbacks call back into it, how long to wait,
    and whole iterations. */
module Loop {
  import opened Watchers
  import opened Pending
  import opened Heap
  import opened Deadlines
  import opened Rounds
  import H = History
  import T = Timers
  import P = Periodics
  import F = Fds
  import C = Clock

  /** What a callback may do to the loop. */
  datatype Op =
    | Feed(w: Watcher, revents: Events)
    | Clear(w: Watcher)
    | TimerStart(w: Watcher)
    | TimerStop(w: Watcher)
    | TimerAgain(w: Watcher)
    | PeriodicStart(w: Watcher)
    | PeriodicStop(w: Watcher)
    | PeriodicAgain(w: Watcher)
    | IoSet(w: Watcher, fd: int, events: Events)
    | IoStart(w: Watcher)
    | IoStop(w: Watcher)
    | TimerSet(w: Watcher, at: real, repeat: real)  // ev_timer_set, on an inactive timer
    | TimerRepeat(w: Watcher, repeat: real)
    | PeriodicSet(w: Watcher, offset: real, interval: real, hasCallback: bool)  // ev_periodic_set
    | NowUpdate(r: C.Readings)  // ev_now_update
    | InvokePending  // through a nested ev_run

  type Script = seq<Op>

  /** What the outside world contributes to one iteration: the clocks before and after poll, how long the loop
      slept and polled, what the backend reports, and the check watchers. */
  datatype Turn = Turn(before: C.Readings, after: C.Readings, blocked: real,
                       ready: seq<(int, Events)>, checks: seq<Watcher>)

  /** The time and all deadlines when timers and periodics are looked at. */
  datatype Due = Due(mn: real, rt: real, timers: map<Watcher, real>, periodics: map<Watcher, real>)

  const MAX_BLOCKTIME := 59.743

  /** A wait ends no later than a deadline `left` seconds away, up to the collect interval and the backend's
      resolution; with no collect interval there is no wait at all once the deadline has passed. */
  predicate InTime(waittime: real, left: real, timeoutBlocktime: real, backendMintime: real) {
    && (waittime <= left || waittime <= timeoutBlocktime || waittime <= backendMintime)
    && (left <= 0.0 && timeoutBlocktime == 0.0 ==> waittime == 0.0)
  }

  /** From history a to history b nothing but invocations happened. */
  predicate OnlyInvoked(a: seq<Event>, b: seq<Event>) {
    a <= b && forall i :: |a| <= i < |b| ==> b[i].Invoked?
  }

  class EvLoop {
    const pend: Pendings
    const timers: T.Timers
    const periodics: P.Periodics
    const fds: F.FdTable
    const clock: C.Clock

    ghost predicate Shape()
      reads this, timers, periodics, timers.deadlines, periodics.deadlines
    {
      && timers.pend == periodics.pend == fds.pend == pend
      && timers.universe !! periodics.universe && timers.universe !! fds.universe && periodics.universe !! fds.universe
      && timers.universe <= pend.ws && periodics.universe <= pend.ws && fds.universe <= pend.ws
      && timers.deadlines != periodics.deadlines && timers.deadlines.heap != periodics.deadlines.heap
    }

    /** What ev_verify asserts, and more. */
    ghost predicate Valid()
      reads this, pend, pend.ws
      reads timers, timers.deadlines, timers.deadlines.heap, timers.universe
      reads periodics, periodics.deadlines, periodics.deadlines.heap, periodics.universe
      reads fds, fds.poll, fds.universe
    {
      Shape() && pend.Valid() && timers.Sound() && periodics.Sound() && fds.Sound()
    }

    constructor (ghost timerWs: set<Watcher>, ghost periodicWs: set<Watcher>, ghost ioWs: set<Watcher>,
                 ghost otherWs: set<Watcher>, callback: (Watcher, real) -> real, monotonic: bool)
      requires timerWs !! periodicWs && timerWs !! ioWs && periodicWs !! ioWs
      requires forall w :: w in timerWs + periodicWs + ioWs + otherWs ==> w.pending == 0 && w.active == 0
      requires forall w :: w in timerWs ==> w.repeat >= 0.0
      requires forall w :: w in periodicWs ==> w.interval >= 0.0
      ensures Valid() && pend.log == [] && pend.ws == timerWs + periodicWs + ioWs + otherWs
      ensures timers.universe == timerWs && periodics.universe == periodicWs && fds.universe == ioWs
    {
      hide Pendings.Valid, DeadlineHeap.Valid, F.FdTable.Sound, P.Periodics.Sound, T.Timers.Sound;
      var q := new Pendings(timerWs + periodicWs + ioWs + otherWs);
      pend := q;
      timers := new T.Timers(q, timerWs);
      periodics := new P.Periodics(q, periodicWs, callback);
      fds := new F.FdTable(q, ioWs);
      clock := new C.Clock(monotonic);
    }

    /** The watcher is of the kind the call is for, and an I/O watcher gets an fd and a mask that make sense. */
    ghost predicate Legal(op: Op)
      reads this, timers, periodics, fds
    {
      match op
      case Feed(w, _) => w in pend.ws
      case Clear(w) => w in pend.ws
      case TimerStart(w) => w in timers.universe
      case TimerStop(w) => w in timers.universe
      case TimerAgain(w) => w in timers.universe
      case PeriodicStart(w) => w in periodics.universe
      case PeriodicStop(w) => w in periodics.universe
      case PeriodicAgain(w) => w in periodics.universe
      case IoSet(w, fd, events) => w in fds.universe && fd >= 0 && events <= {READ, WRITE}
      case IoStart(w) => w in fds.universe
      case IoStop(w) => w in fds.universe
      case TimerSet(w, _, repeat) => w in timers.universe && repeat >= 0.0
      case TimerRepeat(w, repeat) => w in timers.universe && repeat >= 0.0
      case PeriodicSet(w, _, interval, _) => w in periodics.universe && interval >= 0.0
      case NowUpdate(_) => true
      case InvokePending => true
    }

    ghost predicate LegalScripts(scripts: seq<Script>)
      reads this, timers, periodics, fds
    {
      forall s, op :: s in scripts && op in s ==> Legal(op)
    }

    method TimerOp(op: Op)
      requires Valid() && Legal(op) && (op.TimerStart? || op.TimerStop? || op.TimerAgain?)
      modifies pend, timers.deadlines, timers.deadlines.heap, timers.universe
      ensures Valid() && old(pend.log) <= pend.log
      ensures (timers.deadlines.heap == old(timers.deadlines.heap) || fresh(timers.deadlines.heap))
    {
      hide Pendings.Valid, DeadlineHeap.Valid, F.FdTable.Sound, P.Periodics.Sound, T.Timers.Sound;
      match op
      case TimerStart(w) => timers.TimerStart(w);
      case TimerStop(w) => timers.TimerStop(w);
      case TimerAgain(w) => timers.TimerAgain(w);
    }

    method PeriodicOp(op: Op)
      requires Valid() && Legal(op) && (op.PeriodicStart? || op.PeriodicStop? || op.PeriodicAgain?)
      modifies pend, periodics.deadlines, periodics.deadlines.heap, periodics.universe
      ensures Valid() && old(pend.log) <= pend.log
      ensures (periodics.deadlines.heap == old(periodics.deadlines.heap) || fresh(periodics.deadlines.heap))
    {
      hide Pendings.Valid, DeadlineHeap.Valid, F.FdTable.Sound, P.Periodics.Sound, T.Timers.Sound;
      match op
      case PeriodicStart(w) => periodics.PeriodicStart(w);
      case PeriodicStop(w) => periodics.PeriodicStop(w);
      case PeriodicAgain(w) => periodics.PeriodicAgain(w);
    }

    /** Changing when a watcher comes next; ev_timer_set on an active timer is not made. */
    method SetOp(op: Op)
      requires Valid() && Legal(op) && (op.TimerSet? || op.TimerRepeat? || op.PeriodicSet?)
      modifies timers.universe, periodics.universe
      ensures Valid()
    {
      hide Pendings.Valid, DeadlineHeap.Valid, F.FdTable.Sound;
      match op
      case TimerSet(w, at, repeat) =>
        if w.active == 0 {
          timers.TimerSet(w, at, repeat);
        }
      case TimerRepeat(w, repeat) => w.repeat := repeat;
      case PeriodicSet(w, offset, interval, hasCallback) =>
        w.offset, w.interval, w.hasCallback := offset, interval, hasCallback;
    }

    /** ev_io_set on an active watcher, and starting a watcher that was not set, are not made. */
    method IoOp(op: Op)
      requires Valid() && Legal(op) && (op.IoSet? || op.IoStart? || op.IoStop?)
      modifies pend, fds, fds.universe
      ensures Valid() && old(pend.log) <= pend.log
    {
      hide Pendings.Valid, F.FdTable.Sound, P.Periodics.Sound, T.Timers.Sound;
      match op
      case IoSet(w, fd, events) =>
        if w.active == 0 {
          fds.IoSet(w, fd, events);
        }
      case IoStart(w) =>
        if w.active == 0 && w.fd >= 0 && w.events <= {IOFDSET, READ, WRITE} {
          fds.IoStart(w);
        }
      case IoStop(w) => fds.IoStop(w);
    }

    /** The two deadline arrays are as before, or new. */
    twostate predicate ArraysKept()
      reads timers, periodics, timers.deadlines, periodics.deadlines
    {
      && (timers.deadlines.heap == old(timers.deadlines.heap) || fresh(timers.deadlines.heap))
      && (periodics.deadlines.heap == old(periodics.deadlines.heap) || fresh(periodics.deadlines.heap))
    }

    /** One call made by a callback; a nested ev_invoke_pending draws on the callbacks still to come. */
    method Do(op: Op, scripts: seq<Script>) returns (rest: seq<Script>)
      requires Valid() && Legal(op) && LegalScripts(scripts)
      modifies pend, pend.ws, pend.dummy, fds, fds.poll, timers`mnNow, periodics`rtNow, clock
      modifies timers.deadlines, timers.deadlines.heap, periodics.deadlines, periodics.deadlines.heap
      ensures Valid() && LegalScripts(rest) && |rest| <= |scripts| && ArraysKept() && old(pend.log) <= pend.log
      decreases |scripts|, 3
    {
      hide Pendings.Valid, F.FdTable.Sound, P.Periodics.Sound, T.Timers.Sound;
      rest := scripts;
      if op.Feed? {
        pend.FeedEvent(op.w, op.revents);
      } else if op.Clear? {
        pend.ClearPending(op.w);
      } else if op.TimerStart? || op.TimerStop? || op.TimerAgain? {
        TimerOp(op);
      } else if op.PeriodicStart? || op.PeriodicStop? || op.PeriodicAgain? {
        PeriodicOp(op);
      } else if op.TimerSet? || op.TimerRepeat? || op.PeriodicSet? {
        SetOp(op);
      } else if op.NowUpdate? {
        TimeUpdate(op.r, C.TSTAMP_HUGE);
      } else if op.InvokePending? {
        rest := EvInvokePending(scripts);
      } else {
        IoOp(op);
      }
    }

    method Callback(script: Script, scripts: seq<Script>) returns (rest: seq<Script>)
      requires Valid() && LegalScripts(scripts) && forall op :: op in script ==> Legal(op)
      modifies pend, pend.ws, pend.dummy, fds, fds.poll, timers`mnNow, periodics`rtNow, clock
      modifies timers.deadlines, timers.deadlines.heap, periodics.deadlines, periodics.deadlines.heap
      ensures Valid() && LegalScripts(rest) && |rest| <= |scripts| && ArraysKept() && old(pend.log) <= pend.log
      decreases |scripts|, 4
    {
      hide Pendings.Valid, F.FdTable.Sound, P.Periodics.Sound, T.Timers.Sound;
      rest := scripts;
      for i := 0 to |script|
        invariant Valid() && LegalScripts(rest) && |rest| <= |scripts| && ArraysKept() && old(pend.log) <= pend.log
        invariant forall op :: op in script ==> Legal(op)
      {
        assert script[i] in script;
        rest := Do(script[i], rest);
      }
    }

    lemma StacksExist()
      requires Valid()
      ensures |pend.pendings| == NUMPRI && pend.pendingpri < NUMPRI
    {
    }

    /** The body of ev_invoke_pending's inner loop: the callback makes the calls of the next script, if there is one. */
    method InvokeTop(scripts: seq<Script>) returns (rest: seq<Script>)
      requires Valid() && LegalScripts(scripts) && |pend.pendings| == NUMPRI
      requires pend.pendingpri < NUMPRI && pend.pendings[pend.pendingpri] != []
      modifies pend, pend.ws, pend.dummy, fds, fds.poll, timers`mnNow, periodics`rtNow, clock
      modifies timers.deadlines, timers.deadlines.heap, periodics.deadlines, periodics.deadlines.heap
      ensures Valid() && LegalScripts(rest) && ArraysKept() && old(pend.log) <= pend.log
      ensures |pend.pendings| == NUMPRI
      ensures |rest| < |scripts| || (rest == scripts && pend.pendingpri == old(pend.pendingpri)
                                     && pend.SlotCount() < old(pend.SlotCount()))
      ensures scripts == [] ==> OnlyInvoked(old(pend.log), pend.log)
      decreases |scripts|, 0
    {
      hide F.FdTable.Sound, P.Periodics.Sound, T.Timers.Sound, Refines, Pendings.Slots;
      rest := scripts;
      pend.TopIsKnown();
      var p := pend.Top();
      pend.Pop(p);
      StacksExist();
      if p.w != pend.dummy && scripts != [] {
        rest := Callback(scripts[0], scripts[1..]);
        StacksExist();
      }
    }

    /** ev_invoke_pending's inner loop; pendingpri may move while it runs. */
    method InvokeStack(scripts: seq<Script>) returns (rest: seq<Script>)
      requires Valid() && LegalScripts(scripts) && |pend.pendings| == NUMPRI
      modifies pend, pend.ws, pend.dummy, fds, fds.poll, timers`mnNow, periodics`rtNow, clock
      modifies timers.deadlines, timers.deadlines.heap, periodics.deadlines, periodics.deadlines.heap
      ensures Valid() && LegalScripts(rest) && ArraysKept() && old(pend.log) <= pend.log
      ensures |pend.pendings| == NUMPRI && pend.pendingpri < NUMPRI && pend.pendings[pend.pendingpri] == []
      ensures |rest| < |scripts| || (rest == scripts && pend.pendingpri == old(pend.pendingpri)
                                     && pend.SlotCount() <= old(pend.SlotCount()))
      ensures scripts == [] ==> OnlyInvoked(old(pend.log), pend.log)
      decreases |scripts|, 1
    {
      hide Valid, Pendings.SlotCount;
      StacksExist();
      rest := scripts;
      while pend.pendings[pend.pendingpri] != []
        invariant Valid() && LegalScripts(rest) && ArraysKept() && old(pend.log) <= pend.log
        invariant |pend.pendings| == NUMPRI && pend.pendingpri < NUMPRI
        invariant |rest| < |scripts| || (rest == scripts && pend.pendingpri == old(pend.pendingpri)
                                         && pend.SlotCount() <= old(pend.SlotCount()))
        invariant scripts == [] ==> OnlyInvoked(old(pend.log), pend.log)
        decreases |rest|, pend.SlotCount()
      {
        rest := InvokeTop(rest);
        StacksExist();
      }
    }

    /** Runs callbacks until nothing is pending; each one may call back into the loop.
        Every invocation enters the history, and Valid() keeps the history within TopPriority. Only callbacks
        take a watcher off the stacks without invoking it. */
    method EvInvokePending(scripts: seq<Script>) returns (rest: seq<Script>)
      requires Valid() && LegalScripts(scripts)
      modifies pend, pend.ws, pend.dummy, fds, fds.poll, timers`mnNow, periodics`rtNow, clock
      modifies timers.deadlines, timers.deadlines.heap, periodics.deadlines, periodics.deadlines.heap
      ensures Valid() && LegalScripts(rest) && |rest| <= |scripts| && ArraysKept() && old(pend.log) <= pend.log
      ensures |pend.pendings| == NUMPRI && forall p: Pri :: pend.pendings[p] == []
      ensures scripts == [] ==> OnlyInvoked(old(pend.log), pend.log)
      ensures AllDelivered(pend.log)
      decreases |scripts|, 2
    {
      hide F.FdTable.Sound, P.Periodics.Sound, T.Timers.Sound, Refines, Pendings.Slots, Pendings.SlotCount;
      hide AllDelivered;
      rest := scripts;
      StacksExist();
      pend.pendingpri := NUMPRI - 1;
      var more := true;
      while more
        invariant Valid() && LegalScripts(rest) && |rest| <= |scripts| && ArraysKept() && old(pend.log) <= pend.log
        invariant |pend.pendings| == NUMPRI && (!more ==> pend.pendingpri == 0 && pend.pendings[0] == [])
        invariant scripts == [] ==> OnlyInvoked(old(pend.log), pend.log)
        decreases |rest|, pend.SlotCount(), pend.pendingpri, more
      {
        rest := InvokeStack(rest);
        more := pend.pendingpri != 0;
        if more {
          pend.pendingpri := pend.pendingpri - 1;
        }
      }
      NothingLeft();
    }

    /** When the stacks are empty nothing that was ever fed is lost. */
    lemma NothingLeft()
      requires Valid() && |pend.pendings| == NUMPRI && forall p: Pri :: pend.pendings[p] == []
      ensures AllDelivered(pend.log)
    {
      hide F.FdTable.Sound, P.Periodics.Sound, T.Timers.Sound, TopPriority, PendingAfter, H.Delivered, Pendings.Slots;
      forall i: nat | i < |pend.log| && pend.log[i].Fed?
        ensures H.Delivered(pend.log, i)
      {
        assert Live(pend.pendings[pend.log[i].w.pri], pend.dummy) == [];
        H.FedIsDelivered(pend.log, i);
      }
    }

    /** The assertions of ev_verify about timers, periodics, I/O watchers and pending watchers. */
    lemma EvVerify()
      requires Valid()
      ensures timers.deadlines.cnt + HEAP0 <= timers.deadlines.heap.Length
      ensures periodics.deadlines.cnt + HEAP0 <= periodics.deadlines.heap.Length
      ensures VerifyHeap(timers.deadlines.heap[..], timers.deadlines.cnt)
      ensures VerifyHeap(periodics.deadlines.heap[..], periodics.deadlines.cnt)
      ensures |pend.pendings| == NUMPRI
      ensures forall w :: w in pend.ws && w.pending > 0 ==>
                w.pending <= |pend.pendings[w.pri]| && pend.pendings[w.pri][w.pending - 1].w == w
      ensures forall fd, w :: w in fds.Watching(fd) ==> w.active == 1 && w.fd == fd
      ensures forall fd, i, j :: 0 <= i < j < |fds.Watching(fd)| ==> fds.Watching(fd)[i] != fds.Watching(fd)[j]
      ensures forall i :: 0 <= i < |fds.fdchanges| ==> fds.fdchanges[i] >= 0
    {
      hide DeadlineHeap.Active;
      forall fd, w | w in fds.Watching(fd) ensures w.active == 1 && w.fd == fd {
        assert F.OneList(fds.anfds[fd].head, fd, fds.Ios());
        var i :| 0 <= i < |fds.anfds[fd].head| && fds.anfds[fd].head[i] == w;
      }
      forall fd, i, j | 0 <= i < j < |fds.Watching(fd)| ensures fds.Watching(fd)[i] != fds.Watching(fd)[j] {
        assert F.OneList(fds.anfds[fd].head, fd, fds.Ios());
      }
      forall w | w in pend.ws && w.pending > 0
        ensures w.pending <= |pend.pendings[w.pri]| && pend.pendings[w.pri][w.pending - 1].w == w
      {
        assert pend.InSlot(w, pend.pendings[w.pri]);
      }
    }

    // ---------- how long ev_run waits ----------

    /** How long ev_run sleeps for the I/O collect interval, of which `elapsed` has passed, and then the time it
        passes to the backend. */
    method WaitTime(canBlock: bool, timeoutBlocktime: real, backendMintime: real, ioBlocktime: real, elapsed: real)
      returns (slept: real, waittime: real)
      requires Valid() && timeoutBlocktime >= 0.0 && backendMintime >= 0.0
      ensures slept >= 0.0 && waittime >= 0.0 && (!canBlock ==> slept + waittime == 0.0)
      ensures slept > 0.0 ==> ioBlocktime != 0.0 && slept <= ioBlocktime - elapsed && waittime >= backendMintime
      ensures forall w :: w in timers.Active() ==>
                InTime(slept + waittime, w.at - timers.mnNow, timeoutBlocktime, backendMintime)
      ensures forall w :: w in periodics.Active() ==>
                InTime(slept + waittime, w.at - periodics.rtNow, timeoutBlocktime, backendMintime)
      ensures canBlock ==>
                || slept + waittime >= MAX_BLOCKTIME
                || (exists w :: w in timers.Active() && slept + waittime >= w.at - timers.mnNow)
                || (exists w :: w in periodics.Active() && slept + waittime >= w.at - periodics.rtNow)
    {
      slept, waittime := 0.0, 0.0;
      if canBlock {
        waittime := Longest(timeoutBlocktime, backendMintime);
        if ioBlocktime != 0.0 {
          var sleeptime := ioBlocktime - elapsed;
          if sleeptime > waittime - backendMintime {
            sleeptime := waittime - backendMintime;
          }
          if sleeptime > 0.0 {
            slept, waittime := sleeptime, waittime - sleeptime;
          }
        }
      }
    }

    /** The time until the next deadline, raised to the collect interval and the backend's resolution. */
    method Longest(timeoutBlocktime: real, backendMintime: real) returns (waittime: real)
      requires Valid() && timeoutBlocktime >= 0.0 && backendMintime >= 0.0
      ensures waittime >= 0.0
      ensures forall w :: w in timers.Active() ==>
                InTime(waittime, w.at - timers.mnNow, timeoutBlocktime, backendMintime)
      ensures forall w :: w in periodics.Active() ==>
                InTime(waittime, w.at - periodics.rtNow, timeoutBlocktime, backendMintime)
      ensures || waittime >= MAX_BLOCKTIME
              || (exists w :: w in timers.Active() && waittime >= w.at - timers.mnNow)
              || (exists w :: w in periodics.Active() && waittime >= w.at - periodics.rtNow)
    {
      hide Pendings.Valid, F.FdTable.Sound;
      waittime := MAX_BLOCKTIME;
      if timers.deadlines.cnt > 0 {
        var to := timers.deadlines.heap[HEAP0].at - timers.mnNow;
        if waittime > to { waittime := to; }
        RootIsActive(timers.deadlines);
      }
      if periodics.deadlines.cnt > 0 {
        var to := periodics.deadlines.heap[HEAP0].at - periodics.rtNow;
        if waittime > to { waittime := to; }
        RootIsActive(periodics.deadlines);
      }
      EarliestFirst(timers.deadlines);
      EarliestFirst(periodics.deadlines);
      if waittime < timeoutBlocktime {
        waittime := timeoutBlocktime;
      }
      if waittime < backendMintime {
        waittime := if waittime <= 0.0 then 0.0 else backendMintime;
      }
    }

    lemma RootIsActive(d: DeadlineHeap)
      requires d.Valid() && d.cnt > 0
      ensures d.heap[HEAP0].w in d.Active() && d.heap[HEAP0].w.at == d.heap[HEAP0].at
    {
    }

    lemma EarliestFirst(d: DeadlineHeap)
      requires d.Valid()
      ensures forall w :: w in d.Active() ==> d.cnt > 0 && d.heap[HEAP0].at <= w.at
    {
      forall w | w in d.Active() ensures d.cnt > 0 && d.heap[HEAP0].at <= w.at {
        d.RootIsEarliest(w);
      }
    }

    // ---------- whole iterations ----------

    /** What the backend's report feeds, as fd_event does. */
    ghost function Reported(ready: seq<(int, Events)>): seq<Event>
      reads this, fds, fds.universe`fd, fds.universe`events, fds.universe`active
    {
      if ready == [] then []
      else
        var (fd, revents) := ready[|ready| - 1];
        Reported(ready[..|ready| - 1]) + F.FdFeeds(fds.Watching(fd), revents, fds.Ios())
    }

    /** Each report reaches every watcher in the descriptor's list that asks for some of its events, and feeds
        nobody else. */
    lemma {:induction false} ReportReaches(ready: seq<(int, Events)>, w: Watcher, events: Events)
      ensures Fed(w, events) in Reported(ready) <==>
                exists n :: 0 <= n < |ready| && Wants(ready[n], w, events)
    {
      if ready != [] {
        var init, last := ready[..|ready| - 1], ready[|ready| - 1];
        ReportReaches(init, w, events);
        FdFeedsReach(fds.Watching(last.0), last.1, fds.Ios(), w, events);
        assert forall n :: 0 <= n < |init| ==> ready[n] == init[n];
        assert Wants(last, w, events) ==> Wants(ready[|ready| - 1], w, events);
      }
    }

    /** The watcher is in the list of the reported descriptor, and `events` are those it asks for. */
    ghost predicate Wants(report: (int, Events), w: Watcher, events: Events)
      reads this, fds, fds.universe`fd, fds.universe`events, fds.universe`active
    {
      w in fds.Watching(report.0) && w in fds.Ios() && events == fds.Ios()[w].events * report.1 != {}
    }

    ghost function Now(): C.Times
      reads timers, periodics, clock
    {
      C.Times(timers.mnNow, periodics.rtNow, clock.nowFloor, clock.rtmnDiff)
    }

    /** What a clock reading makes of the time and the deadlines: a jump reschedules every active periodic. */
    ghost function Past(d: Due, u: C.Update): Due
      requires Valid()
      reads this, pend, pend.ws
      reads timers, timers.deadlines, timers.deadlines.heap, timers.universe
      reads periodics, periodics.deadlines, periodics.deadlines.heap, periodics.universe
      reads fds, fds.poll, fds.universe
    {
      Due(u.times.mn, u.times.rt, T.Shifted(d.timers, timers.Active(), u.shift),
          if u.jumped then periodics.RescheduledAts(d.periodics, periodics.Active(), u.times.rt) else d.periodics)
    }

    /** The time and the deadlines that timers_reify and periodics_reify find: the clocks are read before the wait
        and after it. */
    ghost function DueAfter(before: C.Readings, after: C.Readings, blocked: real): Due
      requires Valid()
      reads this, pend, pend.ws, clock
      reads timers, timers.deadlines, timers.deadlines.heap, timers.universe
      reads periodics, periodics.deadlines, periodics.deadlines.heap, periodics.universe
      reads fds, fds.poll, fds.universe
    {
      var u := C.Updated(clock.haveMonotonic, Now(), before, C.TSTAMP_HUGE);
      var d := Past(Due(0.0, 0.0, timers.Ats(), periodics.Ats()), u);
      Past(d, C.Updated(clock.haveMonotonic, u.times, after, blocked))
    }

    /** With a monotonic clock mn_now is one of the readings taken after the wait, and no timer's deadline has moved;
        without a jump no periodic's has. */
    lemma DueIs(before: C.Readings, after: C.Readings, blocked: real) returns (i: nat)
      requires Valid() && clock.haveMonotonic
      ensures i < 4
      ensures var d, u := DueAfter(before, after, blocked), C.Updated(true, Now(), before, C.TSTAMP_HUGE);
              && d.mn == after.mono[i] && d.timers == timers.Ats()
              && (C.Ascending(after.mono) ==> d.mn >= after.mono[0])
              && (!u.jumped && !C.Updated(true, u.times, after, blocked).jumped ==> d.periodics == periodics.Ats())
    {
      hide Pendings.Valid, F.FdTable.Sound, P.Periodics.Sound, T.Timers.Sound, T.Timers.Ats, P.Periodics.Ats;
      hide C.Updated, T.Shifted, P.Periodics.RescheduledAts;
      Bounds();
      var j := C.UpdateReads(Now(), before, C.TSTAMP_HUGE);
      var u := C.Updated(true, Now(), before, C.TSTAMP_HUGE);
      NoShift(timers.Ats(), timers.Active());
      i := C.UpdateReads(u.times, after, blocked);
    }

    /** Without one both times are what the wall clock reads after the wait. */
    lemma DueByWallClock(before: C.Readings, after: C.Readings, blocked: real)
      requires Valid() && !clock.haveMonotonic
      ensures var d := DueAfter(before, after, blocked); d.mn == d.rt == after.wall[0]
    {
    }

    /** One iteration of ev_run: the clocks, what the backend reports, and every callback. The history is `polled`
        after the report, `timed` after timers_reify and `reified` after periodics_reify; then come the check
        watchers and the callbacks. Exactly what is due at the new time, after any time jump has rescheduled the
        periodics, expires, and it runs in the order of its deadlines. */
    method RunOnce(turn: Turn, scripts: seq<Script>)
      returns (rest: seq<Script>, ghost timersFired: seq<Watcher>, ghost periodicsFired: seq<Watcher>,
               ghost polled: seq<Event>, ghost timed: seq<Event>, ghost reified: seq<Event>)
      requires Valid() && LegalScripts(scripts) && (forall w :: w in turn.checks ==> w in pend.ws) && LooksAhead()
      modifies pend, pend.ws, pend.dummy, fds, fds.poll, timers`mnNow, periodics`rtNow, clock
      modifies timers.deadlines, timers.deadlines.heap, periodics.deadlines, periodics.deadlines.heap
      ensures Valid() && LegalScripts(rest) && |rest| <= |scripts| && ArraysKept()
      ensures |pend.pendings| == NUMPRI && forall p: Pri :: pend.pendings[p] == []
      ensures var d := old(DueAfter(turn.before, turn.after, turn.blocked));
              && (forall w :: w in old(timers.Active()) ==> (w in timersFired <==> d.timers[w] < d.mn))
              && (forall w :: w in old(periodics.Active()) ==> (w in periodicsFired <==> d.periodics[w] < d.rt))
              && DeadlineOrder(d.timers, old(timers.Repeating()), timersFired, polled, pend.log, |timed|)
              && DeadlineOrder(d.periodics, old(periodics.Repeating()), periodicsFired, timed, pend.log, |reified|)
      ensures clock.haveMonotonic ==> Punctual(old(timers.Ats()), old(timers.Active()), timersFired, turn.after.mono)
      ensures polled == old(pend.log + Reported(turn.ready))
      ensures timed == polled + StopEvents(timersFired, old(timers.Repeating())) + FeedEvents(timersFired, {TIMER})
      ensures reified == timed + StopEvents(periodicsFired, old(periodics.Repeating()))
                         + FeedEvents(periodicsFired, {PERIODIC})
      ensures reified + CheckFeeds(turn.checks) <= pend.log && old(pend.log) <= pend.log
      ensures AllDelivered(pend.log)
    {
      hide Valid, ByDeadline, DeadlineOrder, FeedEvents, StopEvents, CheckFeeds, Reported, TopPriority, DueAfter;
      hide F.FdTable.Sound, P.Periodics.Sound, T.Timers.Sound, Pendings.Valid, Punctual, AllDelivered;
      Bounds();
      ghost var d := DueAfter(turn.before, turn.after, turn.blocked);
      ghost var keep, pkeep := timers.Repeating(), periodics.Repeating();
      ghost var act, at0 := timers.Active(), timers.Ats();
      ghost var i: nat := 0;
      if clock.haveMonotonic {
        i := DueIs(turn.before, turn.after, turn.blocked);
      }
      timersFired, periodicsFired, polled, timed, reified := Gather(turn);
      rest := EvInvokePending(scripts);
      HistoryOrdered();
      NothingLeft();
      RoundInOrder(d.timers, keep, timersFired, {TIMER}, polled, timed, pend.log);
      RoundInOrder(d.periodics, pkeep, periodicsFired, {PERIODIC}, timed, reified, pend.log);
      if clock.haveMonotonic {
        AtReading(at0, act, timersFired, turn.after.mono, i);
      }
    }

    /** "ev_periodic reschedule callback returned time in the past" */
    ghost predicate LooksAhead()
      reads this, periodics
    {
      forall w, rt :: w in periodics.universe ==> periodics.callback(w, rt) >= rt
    }

    /** The part of an iteration before the callbacks. */
    method Gather(turn: Turn)
      returns (ghost timersFired: seq<Watcher>, ghost periodicsFired: seq<Watcher>,
               ghost polled: seq<Event>, ghost timed: seq<Event>, ghost reified: seq<Event>)
      requires Valid() && (forall w :: w in turn.checks ==> w in pend.ws) && LooksAhead()
      modifies pend, pend.ws, fds, fds.poll, timers`mnNow, periodics`rtNow, clock
      modifies timers.deadlines`cnt, timers.deadlines.heap, periodics.deadlines`cnt, periodics.deadlines.heap
      ensures Valid()
      ensures var d := old(DueAfter(turn.before, turn.after, turn.blocked));
              && (forall w :: w in old(timers.Active()) ==> (w in timersFired <==> d.timers[w] < d.mn))
              && (forall w :: w in old(periodics.Active()) ==> (w in periodicsFired <==> d.periodics[w] < d.rt))
              && ByDeadline(timersFired, d.timers) && ByDeadline(periodicsFired, d.periodics)
      ensures polled == old(pend.log + Reported(turn.ready))
      ensures timed == polled + StopEvents(timersFired, old(timers.Repeating())) + FeedEvents(timersFired, {TIMER})
      ensures reified == timed + StopEvents(periodicsFired, old(periodics.Repeating()))
                         + FeedEvents(periodicsFired, {PERIODIC})
      ensures pend.log == reified + CheckFeeds(turn.checks)
    {
      hide Valid, ByDeadline, FeedEvents, StopEvents, CheckFeeds, Reported, DueAfter;
      hide F.FdTable.Sound, P.Periodics.Sound, T.Timers.Sound, Pendings.Valid;
      hide T.Timers.Ats, P.Periodics.Ats;
      Bounds();
      Prepare(turn);
      polled := pend.log;
      timersFired, periodicsFired, timed, reified := ExpireAll(turn.checks);
    }

    /** timers_reify, periodics_reify, and the check watchers. */
    method ExpireAll(checks: seq<Watcher>)
      returns (ghost timersFired: seq<Watcher>, ghost periodicsFired: seq<Watcher>,
               ghost timed: seq<Event>, ghost reified: seq<Event>)
      requires Valid() && (forall w :: w in checks ==> w in pend.ws) && LooksAhead()
      modifies pend, pend.ws
      modifies timers.deadlines`cnt, timers.deadlines.heap, periodics.deadlines`cnt, periodics.deadlines.heap
      ensures Valid()
      ensures forall w :: w in old(timers.Active()) ==>
                && w in old(timers.Ats())
                && (w in timersFired <==> old(timers.Ats())[w] < timers.mnNow)
      ensures forall w :: w in old(periodics.Active()) ==>
                && w in old(periodics.Ats())
                && (w in periodicsFired <==> old(periodics.Ats())[w] < periodics.rtNow)
      ensures ByDeadline(timersFired, old(timers.Ats())) && ByDeadline(periodicsFired, old(periodics.Ats()))
      ensures timed == old(pend.log) + StopEvents(timersFired, old(timers.Repeating()))
                       + FeedEvents(timersFired, {TIMER})
      ensures reified == timed + StopEvents(periodicsFired, old(periodics.Repeating()))
                         + FeedEvents(periodicsFired, {PERIODIC})
      ensures pend.log == reified + CheckFeeds(checks)
    {
      hide Valid, ByDeadline, FeedEvents, StopEvents, CheckFeeds;
      hide F.FdTable.Sound, P.Periodics.Sound, T.Timers.Sound, Pendings.Valid;
      Bounds();
      timersFired := ExpireTimers();
      timed := pend.log;
      assert periodics.Active() == old(periodics.Active());
      periodicsFired := ExpirePeriodics();
      reified := pend.log;
      FeedChecks(checks);
    }

    lemma Bounds()
      requires Valid()
      ensures timers.deadlines.cnt + HEAP0 <= timers.deadlines.heap.Length && timers.Active() <= timers.universe
      ensures periodics.deadlines.cnt + HEAP0 <= periodics.deadlines.heap.Length
      ensures periodics.Active() <= periodics.universe
      ensures timers.universe !! periodics.universe && timers.deadlines != periodics.deadlines
      ensures timers.deadlines.heap != periodics.deadlines.heap
      ensures timers.universe <= pend.ws && periodics.universe <= pend.ws && fds.universe <= pend.ws
      ensures fds.universe !! timers.universe && fds.universe !! periodics.universe
      ensures forall w :: w in periodics.universe ==> w.interval >= 0.0
    {
      timers.Bounds();
      periodics.Bounds();
    }

    lemma HistoryOrdered()
      requires Valid()
      ensures TopPriority(pend.log)
    {
    }

    /** Any number of iterations, whatever the clocks, the backend and the callbacks do. */
    method Run(turns: seq<Turn>, scripts: seq<Script>)
      requires Valid() && LegalScripts(scripts) && LooksAhead()
      requires forall t, w :: t in turns && w in t.checks ==> w in pend.ws
      modifies pend, pend.ws, pend.dummy, fds, fds.poll, timers`mnNow, periodics`rtNow, clock
      modifies timers.deadlines, timers.deadlines.heap, periodics.deadlines, periodics.deadlines.heap
      ensures Valid() && old(pend.log) <= pend.log
    {
      hide Valid, DueAfter, DeadlineOrder, Reported, FeedEvents, StopEvents, CheckFeeds;
      var rest := scripts;
      for i := 0 to |turns|
        invariant Valid() && LegalScripts(rest) && ArraysKept() && old(pend.log) <= pend.log
      {
        var turn := turns[i];
        ghost var timersFired, periodicsFired, polled, timed, reified;
        rest, timersFired, periodicsFired, polled, timed, reified := RunOnce(turn, rest);
      }
    }

    method ReifyFds()
      requires Valid()
      modifies fds, fds.poll
      ensures Valid() && fds.fdchanges == [] && forall fd :: fds.Watching(fd) == old(fds.Watching(fd))
    {
      hide Pendings.Valid, P.Periodics.Sound, T.Timers.Sound;
      fds.FdReify();
    }

    method SetTime(mn: real, rt: real)
      requires Valid()
      modifies timers`mnNow, periodics`rtNow
      ensures Valid() && timers.mnNow == mn && periodics.rtNow == rt
    {
      hide Pendings.Valid, DeadlineHeap.Valid, F.FdTable.Sound;
      timers.mnNow, periodics.rtNow := mn, rt;
    }

    method ShiftTimers(shift: real)
      requires Valid()
      modifies timers.deadlines.heap, timers.universe`at
      ensures Valid() && timers.Active() == old(timers.Active())
      ensures timers.Ats() == T.Shifted(old(timers.Ats()), old(timers.Active()), shift)
    {
      hide Pendings.Valid, F.FdTable.Sound, P.Periodics.Sound, T.Shifted;
      timers.TimersReschedule(shift);
    }

    method ReschedulePeriodics()
      requires Valid()
      modifies periodics.deadlines.heap, periodics.universe`active, periodics.universe`at
      ensures Valid() && periodics.Active() == old(periodics.Active())
      ensures periodics.Ats() ==
              periodics.RescheduledAts(old(periodics.Ats()), old(periodics.Active()), periodics.rtNow)
    {
      hide Pendings.Valid, F.FdTable.Sound, T.Timers.Sound, P.Periodics.RescheduledAts;
      periodics.PeriodicsReschedule();
    }

    /** Without a monotonic clock a time jump leaves every active timer the time it had left, and an inactive one
        its own. */
    lemma TimeLeftKept(at0: map<Watcher, real>, act: set<Watcher>, t: C.Times, r: C.Readings, maxBlock: real,
                       w: Watcher)
      requires w in at0
      ensures var u := C.Updated(false, t, r, maxBlock);
              var at := T.Shifted(at0, act, u.shift);
              && w in at && (w !in act || !u.jumped ==> at[w] == at0[w])
              && (w in act && u.jumped ==> at[w] - u.times.mn == at0[w] - t.mn)
    {
      C.JumpKeepsTimeLeft(t, r, maxBlock, at0[w]);
    }

    lemma NoShift(at0: map<Watcher, real>, act: set<Watcher>)
      ensures T.Shifted(at0, act, 0.0) == at0
    {
    }

    /** What time_update does about a time jump. */
    method Jump(jumped: bool, shift: real)
      requires Valid() && (!jumped || clock.haveMonotonic ==> shift == 0.0)
      modifies timers.universe`at, timers.deadlines.heap
      modifies periodics.deadlines.heap, periodics.universe`active, periodics.universe`at
      ensures Valid() && timers.Active() == old(timers.Active()) && periodics.Active() == old(periodics.Active())
      ensures timers.Ats() == T.Shifted(old(timers.Ats()), old(timers.Active()), shift)
      ensures periodics.Ats() ==
              if jumped then periodics.RescheduledAts(old(periodics.Ats()), old(periodics.Active()), periodics.rtNow)
              else old(periodics.Ats())
    {
      hide Valid, P.Periodics.RescheduledAts, T.Shifted;
      Bounds();
      NoShift(timers.Ats(), timers.Active());
      if jumped {
        if !clock.haveMonotonic {
          ShiftTimers(shift);
        }
        Bounds();
        ReschedulePeriodics();
      }
    }

    /** time_update: new times, and after a time jump new deadlines. */
    method TimeUpdate(r: C.Readings, maxBlock: real)
      requires Valid()
      modifies timers`mnNow, periodics`rtNow, clock, timers.universe`at
      modifies timers.deadlines.heap, periodics.deadlines.heap, periodics.universe`active, periodics.universe`at
      ensures Valid() && timers.Active() == old(timers.Active()) && periodics.Active() == old(periodics.Active())
      ensures var u := old(C.Updated(clock.haveMonotonic, Now(), r, maxBlock));
              && Now() == u.times && timers.Ats() == T.Shifted(old(timers.Ats()), old(timers.Active()), u.shift)
              && periodics.Ats() ==
                 if u.jumped then periodics.RescheduledAts(old(periodics.Ats()), old(periodics.Active()), u.times.rt)
                 else old(periodics.Ats())
    {
      hide Valid, P.Periodics.RescheduledAts, T.Shifted, T.Timers.Ats, P.Periodics.Ats;
      Bounds();
      var mn, rt, jumped, shift := clock.Read(timers.mnNow, r, maxBlock);
      SetTime(mn, rt);
      Jump(jumped, shift);
    }

    /** fd_reify, the time before the wait, and the backend's report. */
    method Wait(before: C.Readings, ready: seq<(int, Events)>)
      requires Valid()
      modifies pend, fds, fds.poll, fds.universe`pending, timers`mnNow, periodics`rtNow, clock, timers.universe`at
      modifies timers.deadlines.heap, periodics.deadlines.heap, periodics.universe`active, periodics.universe`at
      ensures Valid() && pend.log == old(pend.log + Reported(ready))
      ensures timers.Active() == old(timers.Active()) && periodics.Active() == old(periodics.Active())
      ensures var u := old(C.Updated(clock.haveMonotonic, Now(), before, C.TSTAMP_HUGE));
              && Now() == u.times && timers.Ats() == T.Shifted(old(timers.Ats()), old(timers.Active()), u.shift)
              && periodics.Ats() ==
                 if u.jumped then periodics.RescheduledAts(old(periodics.Ats()), old(periodics.Active()), u.times.rt)
                 else old(periodics.Ats())
    {
      hide Valid, Reported, P.Periodics.RescheduledAts, T.Shifted, C.Updated;
      Bounds();
      FdsThenTimes(before);
      Bounds();
      SameReport(ready);
      FeedReady(ready);
    }

    /** fd_reify and the time before the wait. */
    method FdsThenTimes(before: C.Readings)
      requires Valid()
      modifies fds, fds.poll, timers`mnNow, periodics`rtNow, clock, timers.universe`at
      modifies timers.deadlines.heap, periodics.deadlines.heap, periodics.universe`active, periodics.universe`at
      ensures Valid() && fds.fdchanges == [] && forall fd :: fds.Watching(fd) == old(fds.Watching(fd))
      ensures timers.Active() == old(timers.Active()) && periodics.Active() == old(periodics.Active())
      ensures var u := old(C.Updated(clock.haveMonotonic, Now(), before, C.TSTAMP_HUGE));
              && Now() == u.times && timers.Ats() == T.Shifted(old(timers.Ats()), old(timers.Active()), u.shift)
              && periodics.Ats() ==
                 if u.jumped then periodics.RescheduledAts(old(periodics.Ats()), old(periodics.Active()), u.times.rt)
                 else old(periodics.Ats())
    {
      hide Valid, P.Periodics.RescheduledAts, T.Shifted, C.Updated, T.Timers.Ats, P.Periodics.Ats;
      Bounds();
      ReifyFds();
      TimeUpdate(before, C.TSTAMP_HUGE);
    }

    /** ... and the time after it. */
    method Prepare(turn: Turn)
      requires Valid()
      modifies pend, fds, fds.poll, fds.universe`pending, timers`mnNow, periodics`rtNow, clock, timers.universe`at
      modifies timers.deadlines.heap, periodics.deadlines.heap, periodics.universe`active, periodics.universe`at
      ensures Valid() && pend.log == old(pend.log + Reported(turn.ready))
      ensures timers.Active() == old(timers.Active()) && periodics.Active() == old(periodics.Active())
      ensures Due(timers.mnNow, periodics.rtNow, timers.Ats(), periodics.Ats()) ==
              old(DueAfter(turn.before, turn.after, turn.blocked))
    {
      hide Valid, Reported, P.Periodics.RescheduledAts, T.Shifted, C.Updated, T.Timers.Ats, P.Periodics.Ats;
      Bounds();
      Wait(turn.before, turn.ready);
      Bounds();
      TimeUpdate(turn.after, turn.blocked);
    }

    twostate lemma SameReport(ready: seq<(int, Events)>)
      requires forall fd :: fds.Watching(fd) == old(fds.Watching(fd))
      requires fds.Ios() == old(fds.Ios())
      ensures Reported(ready) == old(Reported(ready))
    {
      if ready != [] {
        SameReport(ready[..|ready| - 1]);
      }
    }

    method ExpireTimers() returns (ghost fired: seq<Watcher>)
      requires Valid()
      modifies pend, timers.universe, timers.deadlines`cnt, timers.deadlines.heap
      ensures Valid() && ByDeadline(fired, old(timers.Ats()))
      ensures pend.log == old(pend.log) + StopEvents(fired, old(timers.Repeating())) + FeedEvents(fired, {TIMER})
      ensures forall w :: w in old(timers.Active()) ==> (w in fired <==> old(w.at) < timers.mnNow)
    {
      hide F.FdTable.Sound, P.Periodics.Sound, T.Timers.Sound, Pendings.Valid;
      hide Progress, ByDeadline, StopEvents, FeedEvents;
      fired := timers.TimersReify();
    }

    method ExpirePeriodics() returns (ghost fired: seq<Watcher>)
      requires Valid() && periodics.CallbacksLookAhead()
      modifies pend, periodics.universe, periodics.deadlines`cnt, periodics.deadlines.heap
      ensures Valid() && ByDeadline(fired, old(periodics.Ats()))
      ensures pend.log == old(pend.log) + StopEvents(fired, old(periodics.Repeating())) + FeedEvents(fired, {PERIODIC})
      ensures forall w :: w in old(periodics.Active()) ==> (w in fired <==> old(w.at) < periodics.rtNow)
    {
      hide F.FdTable.Sound, P.Periodics.Sound, T.Timers.Sound, Pendings.Valid;
      hide Progress, ByDeadline, StopEvents, FeedEvents;
      fired := periodics.PeriodicsReify();
    }

    method FeedChecks(checks: seq<Watcher>)
      requires Valid() && forall w :: w in checks ==> w in pend.ws
      modifies pend, pend.ws`pending
      ensures Valid() && pend.log == old(pend.log) + CheckFeeds(checks)
    {
      hide F.FdTable.Sound, P.Periodics.Sound, T.Timers.Sound, Pendings.Valid;
      for i := 0 to |checks|
        invariant Valid() && pend.log == old(pend.log) + CheckFeeds(checks[..i])
      {
        assert checks[..i + 1][..i] == checks[..i];
        pend.FeedEvent(checks[i], {CHECK});
      }
      assert checks[..|checks|] == checks;
    }

    method FeedFd(fd: int, revents: Events)
      requires Valid() && fds.fdchanges == []
      modifies pend, fds.universe`pending
      ensures Valid() && pend.log == old(pend.log) + F.FdFeeds(fds.Watching(fd), revents, fds.Ios())
    {
      hide P.Periodics.Sound, T.Timers.Sound, Pendings.Valid, F.FdFeeds;
      if 0 <= fd < |fds.anfds| {
        assert fds.anfds[fd].reify == {};
        fds.FdEvent(fd, revents);
      } else {
        F.FdFeedsNone(revents, fds.Ios());
      }
    }

    method FeedReady(ready: seq<(int, Events)>)
      requires Valid() && fds.fdchanges == []
      modifies pend, fds.universe`pending
      ensures Valid() && pend.log == old(pend.log) + Reported(ready)
    {
      hide Valid, F.FdFeeds;
      for i := 0 to |ready|
        invariant Valid() && pend.log == old(pend.log) + Reported(ready[..i])
      {
        var (fd, revents) := ready[i];
        assert ready[..i + 1][..i] == ready[..i];
        FeedFd(fd, revents);
      }
      assert ready[..|ready|] == ready;
    }
  }

  ghost predicate FiredBefore(at0: map<Watcher, real>, act: set<Watcher>, fired: seq<Watcher>, now: real) {
    forall w :: w in act && w in at0 ==> (w in fired <==> at0[w] < now)
  }

  /** Every event fed was delivered to a callback, or its watcher was cleared. */
  ghost predicate AllDelivered(log: seq<Event>) {
    forall i: nat :: i < |log| && log[i].Fed? ==> H.Delivered(log, i)
  }

  /** Exactly the timers due at one reading of the clock have fired, so all that were due before the first have. */
  ghost predicate Punctual(at0: map<Watcher, real>, act: set<Watcher>, fired: seq<Watcher>, mono: C.Four) {
    && (exists i: nat :: i < 4 && FiredBefore(at0, act, fired, mono[i]))
    && (C.Ascending(mono) ==> forall w :: w in act && w in at0 && at0[w] < mono[0] ==> w in fired)
  }

  lemma AtReading(at0: map<Watcher, real>, act: set<Watcher>, fired: seq<Watcher>, mono: C.Four, i: nat)
    requires i < 4 && forall w :: w in act && w in at0 ==> (w in fired <==> at0[w] < mono[i])
    ensures Punctual(at0, act, fired, mono)
  {
    assert FiredBefore(at0, act, fired, mono[i]);
  }

  lemma {:induction false} FdFeedsReach(head: seq<Watcher>, revents: Events, v: F.View, w: Watcher, events: Events)
    ensures Fed(w, events) in F.FdFeeds(head, revents, v) <==>
              w in head && w in v && events == v[w].events * revents != {}
  {
    if head != [] {
      FdFeedsReach(head[..|head| - 1], revents, v, w, events);
    }
  }

  lemma {:induction false} ChecksFed(checks: seq<Watcher>, w: Watcher)
    ensures Fed(w, {CHECK}) in CheckFeeds(checks) <==> w in checks
  {
    if checks != [] {
      ChecksFed(checks[..|checks| - 1], w);
    }
  }

  /** What queueing the check watchers adds to the history. */
  ghost function CheckFeeds(checks: seq<Watcher>): seq<Event> {
    if checks == [] then [] else CheckFeeds(checks[..|checks| - 1]) + [Fed(checks[|checks| - 1], {CHECK})]
  }
}
