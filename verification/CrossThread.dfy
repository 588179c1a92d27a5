/** Other threads against a loop that may be blocked in poll.

    Every shared access of ev_async_send, evpipe_write, pipecb and ev_run is one
    atomic step, and so are the locked push of queueInLoop and the swap of
    doPendingFunctors.  Any number of threads interleave freely.  The loop thread
    is thread LOOP: while a callback runs it can push, quit and send like the others. */
module CrossThread {

  type Tid = nat
  const LOOP: Tid := 0

  /** Index in `asyncs` of the async watcher that EventLoop::wakeup sends to. */
  const WAKE: nat := 0

  /** A queued functor; `early` if the loop thread pushed it while outside loop(). */
  datatype Entry = Entry(id: nat, early: bool)

  /** What a thread does next on its way through ev_async_send and evpipe_write. */
  datatype SenderPc =
    | Idle
    | Announce(w: nat)  // set w->sent
    | ReadFlag(w: nat)  // return if async_pending is set
    | SetFlag(w: nat)   // set async_pending
    | SetSkipped        // set pipe_write_skipped
    | ReadWanted        // return unless pipe_write_wanted
    | ClearSkipped      // clear pipe_write_skipped
    | WritePipe
  {
    predicate Bound() { SetSkipped? || ClearSkipped? || WritePipe? }
    predicate Flags(w: nat) { (ReadFlag? || SetFlag?) && this.w == w }
    predicate Announces(w: nat) { Announce? && this.w == w }
    predicate Rechecks() { ReadWanted? || ClearSkipped? }
    predicate Writes(flag: bool) { Bound() || ReadWanted? || SetFlag? || (ReadFlag? && !flag) }
    /** It leaves pipe_write_skipped alone, as long as async_pending is set. */
    predicate Settled() { Idle? || Announce? || ReadFlag? || WritePipe? }
  }

  /** What the loop thread does next. */
  datatype LoopPc =
    | Outside                // not inside loop()
    | Top                    // test loop_done at the head of an iteration
    | WantWakeup             // set pipe_write_wanted
    | TestSkipped            // test pipe_write_skipped and choose the wait time
    | Poll(blocking: bool, ready: bool)  // `ready` if the pipe was readable when poll was called
    | Unwant                 // clear pipe_write_wanted
    | TestSkippedAgain       // feed pipe_w if pipe_write_skipped
    | Dispatch               // ev_invoke_pending, above the check watcher's priority
    | PipeClearSkipped       // pipecb, after its read
    | PipeTestFlag
    | PipeClearFlag
    | Scan(i: nat)           // pipecb has yet to look at asyncs[..i]
    | TakeSent(i: nat)       // it found asyncs[i] with `sent` set, and clears and feeds it
    | Swap                   // doPendingFunctors, before it takes the queue
    | Functors               // doPendingFunctors, running the batch
    | LoopTest               // test loop_done at the end of an iteration
  {
    /** User code runs on the loop thread only inside callbacks or outside loop(). */
    predicate UserCode() { Outside? || Dispatch? || Functors? }
    predicate Steps() { !Outside? && !Poll? && !Dispatch? }
    predicate Returns(reported: bool) { Poll? && (ready ==> reported) }
    predicate Blocking() { Poll? && blocking }
    predicate Pipecb() { PipeClearSkipped? || PipeTestFlag? || PipeClearFlag? }
    predicate Unscanned(w: nat) { (Scan? && w < i) || (TakeSent? && w <= i) }
    /** Poll has returned and doPendingFunctors has not taken the queue yet. */
    predicate Draining() { Scan? || TakeSent? || Pipecb() || Unwant? || TestSkippedAgain? || Dispatch? || Swap? }
  }

  datatype State = State(
    threads: map<Tid, SenderPc>,
    wanted: bool,            // pipe_write_wanted
    skipped: bool,           // pipe_write_skipped
    asyncPending: bool,      // async_pending
    pipe: nat,               // unread wake-ups
    sent: set<nat>,          // async watchers with `sent` set
    asyncCount: nat,         // asynccnt
    pc: LoopPc,
    pipeFed: bool,           // pipe_w is pending
    pipeRead: bool,          // ... with EV_READ among its events
    fed: set<nat>,           // pending async watchers
    calling: bool,           // calling_pending_functors_
    queue: seq<Entry>,       // pending_functors_
    batch: seq<Entry>,       // swapped out, not yet run
    quit: bool,              // quit_
    loopDone: bool,          // loop_done
    // history
    pushed: seq<Entry>,
    executed: seq<Entry>,
    due: nat                 // |pushed| when poll last returned
  )

  datatype Action =
    | Push(t: Tid, id: nat)        // queueInLoop
    | Quit(t: Tid)                 // quit
    | Send(t: Tid, w: nat)         // ev_async_send on any async watcher
    | SenderStep(t: Tid)
    | EnterLoop                    // loop() starts
    | LoopStep(blocking: bool)     // `blocking` is used by TestSkipped only
    | PollReturn(reported: bool)   // poll comes back, with the pipe among the ready fds or not
    | RunPipe(left: nat)           // pipecb starts; `left` wake-ups stay in the pipe
    | RunAsync(w: nat)
    | RunCheck                     // handleDoPendingFunctors starts

  ghost predicate Init(s: State) {
    && LOOP in s.threads && (forall t :: t in s.threads ==> s.threads[t].Idle?)
    && !s.wanted && !s.skipped && !s.asyncPending && s.pipe == 0 && s.sent == {}
    && WAKE < s.asyncCount && s.pc.Outside?
    && !s.pipeFed && !s.pipeRead && s.fed == {} && !s.calling
    && s.queue == [] && s.batch == [] && !s.quit && !s.loopDone
    && s.pushed == [] && s.executed == [] && s.due == 0
  }

  predicate MayCall(s: State, t: Tid) {
    t in s.threads && s.threads[t].Idle? && (t == LOOP ==> s.pc.UserCode())
  }

  predicate Enabled(s: State, a: Action) {
    match a
    case Push(t, _) => MayCall(s, t)
    case Quit(t) => MayCall(s, t)
    case Send(t, w) => MayCall(s, t) && w < s.asyncCount
    case SenderStep(t) => t in s.threads && !s.threads[t].Idle?
    case _ =>
      && LOOP in s.threads && s.threads[LOOP].Idle?
      && match a {
           case EnterLoop => s.pc.Outside?
           case LoopStep(blocking) =>
             && s.pc.Steps()
             && (s.pc.TestSkipped? && blocking ==> !s.skipped)
           // poll(2) reports an fd that was readable when it was called, and none that is not readable
           case PollReturn(reported) => s.pc.Returns(reported) && (reported ==> s.pipe > 0)
           // one eventfd read takes every wake-up, one pipe read at most four bytes
           case RunPipe(left) =>
             s.pc.Dispatch? && s.pipeFed
             && if s.pipeRead then left == 0 || left == s.pipe - 4 else left == s.pipe
           case RunAsync(w) => s.pc.Dispatch? && w in s.fed
           // the check watcher has minimum priority: see Pending.TopPriority
           case _ => s.pc.Dispatch? && !s.pipeFed && s.fed == {}
         }
  }

  function Apply(s: State, a: Action): State
    requires Enabled(s, a)
  {
    match a
    case Push(t, id) =>
      var e := Entry(id, t == LOOP && s.pc.Outside?);
      s.(queue := s.queue + [e], pushed := s.pushed + [e],
         threads := if t != LOOP || s.calling then s.threads[t := Announce(WAKE)] else s.threads)
    case Quit(t) =>
      s.(quit := true, loopDone := s.loopDone || t == LOOP,
         threads := if t == LOOP then s.threads else s.threads[t := Announce(WAKE)])
    case Send(t, w) => s.(threads := s.threads[t := Announce(w)])
    case SenderStep(t) => SenderNext(s, t, s.threads[t])
    case EnterLoop => s.(quit := false, loopDone := false, pc := Top)
    case LoopStep(blocking) => LoopNext(s, blocking)
    case PollReturn(reported) =>
      s.(pc := Unwant, pipeFed := reported, pipeRead := reported, loopDone := false, due := |s.pushed|)
    case RunPipe(left) => s.(pipeFed := false, pipeRead := false, pipe := left, pc := PipeClearSkipped)
    case RunAsync(w) => s.(fed := s.fed - {w}, loopDone := s.loopDone || (w == WAKE && s.quit))
    case RunCheck => s.(calling := true, pc := Swap)
  }

  /** One shared access of thread `t`, which stands at `at`. */
  function SenderNext(s: State, t: Tid, at: SenderPc): State
    requires !at.Idle?
  {
    s.(threads := s.threads[t := SenderGoes(s, at)],
       sent := if at.Announce? then s.sent + {at.w} else s.sent,
       asyncPending := s.asyncPending || at.SetFlag?,
       skipped := (s.skipped || at.SetSkipped?) && !at.ClearSkipped?,
       pipe := if at.WritePipe? then s.pipe + 1 else s.pipe)
  }

  function SenderGoes(s: State, at: SenderPc): SenderPc
    requires !at.Idle?
  {
    match at
    case Announce(w) => ReadFlag(w)
    case ReadFlag(w) => if s.asyncPending then Idle else SetFlag(w)
    case SetFlag(_) => SetSkipped
    case SetSkipped => ReadWanted
    case ReadWanted => if s.wanted then ClearSkipped else Idle
    case ClearSkipped => WritePipe
    case WritePipe => Idle
  }

  /** One step of the loop thread outside poll and outside user code. */
  function LoopNext(s: State, blocking: bool): State
    requires s.pc.Steps()
  {
    var run := s.pc.Functors? && s.batch != [];
    s.(pc := LoopGoes(s, blocking),
       wanted := (s.wanted || s.pc.WantWakeup?) && !s.pc.Unwant?,
       pipeFed := s.pipeFed || (s.pc.TestSkippedAgain? && s.skipped),
       skipped := s.skipped && !s.pc.PipeClearSkipped?,
       asyncPending := s.asyncPending && !s.pc.PipeClearFlag?,
       sent := if s.pc.TakeSent? then s.sent - {s.pc.i} else s.sent,
       fed := if s.pc.TakeSent? then s.fed + {s.pc.i} else s.fed,
       queue := if s.pc.Swap? then [] else s.queue,
       batch := if s.pc.Swap? then s.queue else if run then s.batch[1..] else s.batch,
       executed := if run then s.executed + [s.batch[0]] else s.executed,
       calling := s.calling && !(s.pc.Functors? && !run))
  }

  function LoopGoes(s: State, blocking: bool): LoopPc
    requires s.pc.Steps()
  {
    match s.pc
    case Top => if s.loopDone then Outside else WantWakeup
    case WantWakeup => TestSkipped
    case TestSkipped => Poll(blocking, s.pipe > 0)
    case Unwant => TestSkippedAgain
    case TestSkippedAgain => Dispatch
    case PipeClearSkipped => PipeTestFlag
    case PipeTestFlag => if s.asyncPending then PipeClearFlag else Dispatch
    case PipeClearFlag => Scan(s.asyncCount)
    case Scan(i) => if i == 0 then Dispatch else if i - 1 in s.sent then TakeSent(i - 1) else Scan(i - 1)
    case TakeSent(i) => Scan(i)
    case Swap => Functors
    case Functors => if s.batch == [] then LoopTest else Functors
    case LoopTest => if s.loopDone then Outside else Top
  }

  // ---------- what every reachable state satisfies ----------

  /** Some thread is past its test of async_pending on its way to the pipe, or will find it clear. */
  ghost predicate Writing(s: State) {
    exists t :: t in s.threads && s.threads[t].Writes(s.asyncPending)
  }

  /** Some thread is about to write the pipe, or will once it has set `sent` of the loop's own async watcher. */
  ghost predicate Waking(s: State) {
    Writing(s) || (Announcing(s, WAKE) && !s.asyncPending)
  }

  /** Some thread is bound to write the pipe or to set pipe_write_skipped. */
  ghost predicate Committed(s: State) {
    exists t :: t in s.threads && s.threads[t].Bound()
  }

  ghost predicate Announcing(s: State, w: nat) {
    exists t :: t in s.threads && s.threads[t].Announces(w)
  }

  ghost predicate Flagging(s: State, w: nat) {
    exists t :: t in s.threads && s.threads[t].Flags(w)
  }

  ghost predicate Rechecking(s: State) {
    exists t :: t in s.threads && s.threads[t].Rechecks()
  }

  ghost predicate ThreadsInv(s: State) {
    && LOOP in s.threads && WAKE < s.asyncCount
    && (!s.threads[LOOP].Idle? ==> s.pc.UserCode())
    && (forall w :: w in s.sent || w in s.fed ==> w < s.asyncCount)
    && (forall t :: t in s.threads && s.threads[t].Announce? ==> s.threads[t].w < s.asyncCount)
    && (s.pc.TakeSent? ==> s.pc.i in s.sent)
  }

  predicate PhaseInv(s: State) {
    && (s.wanted <==> s.pc.TestSkipped? || s.pc.Poll? || s.pc.Unwant?)
    && (s.calling <==> s.pc.Swap? || s.pc.Functors?)
    && (s.pipeFed ==> s.pc.Unwant? || s.pc.TestSkippedAgain? || s.pc.Dispatch?)
    && (s.fed != {} ==> s.pc.Dispatch? || s.pc.Pipecb() || s.pc.Scan? || s.pc.TakeSent?)
    && (s.batch != [] ==> s.pc.Functors?)
    && (s.pc.Poll? && s.pc.ready ==> s.pipe > 0)
    && (s.loopDone ==>
          && !s.pc.Top? && !s.pc.WantWakeup? && !s.pc.TestSkipped?
          && !s.pc.Poll? && !s.pc.Unwant? && !s.pc.TestSkippedAgain?)
  }

  ghost predicate ShapeInv(s: State) {
    ThreadsInv(s) && PhaseInv(s)
  }

  /** A set async_pending is on its way to pipecb. */
  ghost predicate FlagInv(s: State) {
    s.asyncPending ==> s.pipe > 0 || s.skipped || Committed(s) || s.pipeFed || s.pc.Pipecb()
  }

  /** A set `sent` is on its way to a scan. */
  ghost predicate SentInv(s: State) {
    forall w :: w in s.sent ==> s.asyncPending || Flagging(s, w) || s.pc.Unscanned(w)
  }

  /** While poll blocks, a set pipe_write_skipped is about to be noticed by a sender. */
  ghost predicate SkipInv(s: State) {
    s.pc.Blocking() && s.skipped ==> Rechecking(s)
  }

  ghost predicate QueueInv(s: State) {
    && s.executed + s.batch + s.queue == s.pushed
    && s.due <= |s.pushed|
    && (!s.pc.Draining() ==> s.due <= |s.executed| + |s.batch|)
    && ((exists e :: e in s.queue && !e.early) && !s.pc.Draining() ==> WAKE in s.sent || Announcing(s, WAKE))
  }

  ghost predicate QuitInv(s: State) {
    s.quit && !s.pc.Outside? ==> s.loopDone || WAKE in s.sent || WAKE in s.fed || Announcing(s, WAKE)
  }

  ghost predicate Inv(s: State) {
    ShapeInv(s) && FlagInv(s) && SentInv(s) && SkipInv(s) && QueueInv(s) && QuitInv(s)
  }

  /** At most thread `t` moves between `s` and `s'`. */
  ghost predicate OnlyMoves(s: State, s': State, t: Tid) {
    t in s.threads && t in s'.threads && s'.threads == s.threads[t := s'.threads[t]]
  }

  predicate ByThread(a: Action) {
    a.Push? || a.Quit? || a.Send? || a.SenderStep?
  }

  lemma CommittedStays(s: State, s': State, t: Tid)
    requires OnlyMoves(s, s', t) && Committed(s)
    ensures s.threads[t].Bound() || Committed(s')
  {
    var u :| u in s.threads && s.threads[u].Bound();
    assert u == t || (u in s'.threads && s'.threads[u] == s.threads[u]);
  }

  lemma FlaggingStays(s: State, s': State, t: Tid, w: nat)
    requires OnlyMoves(s, s', t) && Flagging(s, w)
    ensures s.threads[t].Flags(w) || Flagging(s', w)
  {
    var u :| u in s.threads && s.threads[u].Flags(w);
    assert u == t || (u in s'.threads && s'.threads[u] == s.threads[u]);
  }

  lemma RecheckingStays(s: State, s': State, t: Tid)
    requires OnlyMoves(s, s', t) && Rechecking(s)
    ensures s.threads[t].Rechecks() || Rechecking(s')
  {
    var u :| u in s.threads && s.threads[u].Rechecks();
    assert u == t || (u in s'.threads && s'.threads[u] == s.threads[u]);
  }

  lemma CallKeepsShape(s: State, a: Action)
    requires ShapeInv(s) && Enabled(s, a) && ByThread(a)
    ensures ShapeInv(Apply(s, a)) && OnlyMoves(s, Apply(s, a), a.t)
  {
    assert ThreadsInv(Apply(s, a)) by { hide PhaseInv; }
    assert PhaseInv(Apply(s, a)) by { hide ThreadsInv; }
  }

  lemma LoopStepKeepsThreads(s: State, blocking: bool)
    requires ThreadsInv(s) && s.pc.Steps() && s.threads[LOOP].Idle?
    ensures ThreadsInv(LoopNext(s, blocking))
  {
  }

  lemma LoopKeepsThreads(s: State, a: Action)
    requires ThreadsInv(s) && Enabled(s, a) && !ByThread(a)
    ensures ThreadsInv(Apply(s, a)) && Apply(s, a).threads == s.threads
  {
    if a.LoopStep? {
      LoopStepKeepsThreads(s, a.blocking);
    }
  }

  lemma LoopStepKeepsPhase(s: State, blocking: bool)
    requires PhaseInv(s) && s.pc.Steps()
    ensures PhaseInv(LoopNext(s, blocking))
  {
  }

  lemma LoopKeepsPhase(s: State, a: Action)
    requires PhaseInv(s) && Enabled(s, a) && !ByThread(a)
    ensures PhaseInv(Apply(s, a))
  {
    hide LoopNext;
    if a.LoopStep? {
      LoopStepKeepsPhase(s, a.blocking);
    }
  }

  lemma LoopKeepsShape(s: State, a: Action)
    requires ShapeInv(s) && Enabled(s, a) && !ByThread(a)
    ensures ShapeInv(Apply(s, a)) && Apply(s, a).threads == s.threads
  {
    hide ThreadsInv, PhaseInv, Apply, Enabled;
    LoopKeepsThreads(s, a);
    LoopKeepsPhase(s, a);
  }

  lemma CallKeepsFlag(s: State, a: Action)
    requires ShapeInv(s) && FlagInv(s) && Enabled(s, a) && ByThread(a)
    ensures FlagInv(Apply(s, a))
  {
    var s' := Apply(s, a);
    CallKeepsShape(s, a);
    if Committed(s) { CommittedStays(s, s', a.t); }
    assert s'.threads[a.t].Bound() ==> Committed(s');
  }

  lemma CallKeepsSkip(s: State, a: Action)
    requires ShapeInv(s) && SkipInv(s) && Enabled(s, a) && ByThread(a)
    ensures SkipInv(Apply(s, a))
  {
    var s' := Apply(s, a);
    CallKeepsShape(s, a);
    if Rechecking(s) { RecheckingStays(s, s', a.t); }
    assert s'.threads[a.t].Rechecks() ==> Rechecking(s');
  }

  lemma LoopKeepsFlags(s: State, a: Action)
    requires ShapeInv(s) && FlagInv(s) && SkipInv(s) && Enabled(s, a) && !ByThread(a)
    ensures FlagInv(Apply(s, a)) && SkipInv(Apply(s, a))
  {
    LoopKeepsShape(s, a);
    assert Committed(s) ==> Committed(Apply(s, a));
  }

  lemma CallKeepsSent(s: State, a: Action)
    requires ShapeInv(s) && SentInv(s) && Enabled(s, a) && ByThread(a)
    ensures SentInv(Apply(s, a))
  {
    var s' := Apply(s, a);
    CallKeepsShape(s, a);
    forall w | w in s'.sent ensures s'.asyncPending || Flagging(s', w) || s'.pc.Unscanned(w) {
      if Flagging(s, w) { FlaggingStays(s, s', a.t, w); }
      assert s'.threads[a.t].Flags(w) ==> Flagging(s', w);
    }
  }

  lemma LoopKeepsSent(s: State, a: Action)
    requires ShapeInv(s) && SentInv(s) && Enabled(s, a) && !ByThread(a)
    ensures SentInv(Apply(s, a))
  {
    var s' := Apply(s, a);
    LoopKeepsShape(s, a);
    forall w | w in s'.sent ensures s'.asyncPending || Flagging(s', w) || s'.pc.Unscanned(w) {
      assert Flagging(s, w) ==> Flagging(s', w);
    }
  }

  lemma AnnounceStays(s: State, a: Action)
    requires ShapeInv(s) && Enabled(s, a) && ByThread(a)
    ensures Announcing(s, WAKE) ==> WAKE in Apply(s, a).sent || Announcing(Apply(s, a), WAKE)
    ensures Apply(s, a).threads[a.t].Announces(WAKE) ==> Announcing(Apply(s, a), WAKE)
  {
    CallKeepsShape(s, a);
    if Announcing(s, WAKE) {
      var u :| u in s.threads && s.threads[u].Announces(WAKE);
      assert u == a.t || Apply(s, a).threads[u] == s.threads[u];
    }
  }

  lemma CallKeepsQueue(s: State, a: Action)
    requires ShapeInv(s) && QueueInv(s) && Enabled(s, a) && ByThread(a)
    ensures QueueInv(Apply(s, a))
  {
    var s' := Apply(s, a);
    CallKeepsShape(s, a);
    AnnounceStays(s, a);
    if a.Push? {
      var e := Entry(a.id, a.t == LOOP && s.pc.Outside?);
      assert s.executed + s.batch + (s.queue + [e]) == (s.executed + s.batch + s.queue) + [e];
      assert forall x :: x in s'.queue ==> x in s.queue || x == e;
    }
  }

  lemma LoopStepKeepsQueue(s: State, blocking: bool)
    requires ThreadsInv(s) && PhaseInv(s) && QueueInv(s) && s.pc.Steps()
    ensures QueueInv(LoopNext(s, blocking))
  {
    var s' := LoopNext(s, blocking);
    assert Announcing(s, WAKE) ==> Announcing(s', WAKE);
    if s'.executed + s'.batch != s.executed + s.batch {
      assert s.pc.Swap? && s.executed + [] + s.queue == s.executed + s.queue + [];
    }
  }

  lemma LoopKeepsQueue(s: State, a: Action)
    requires ShapeInv(s) && QueueInv(s) && Enabled(s, a) && !ByThread(a)
    ensures QueueInv(Apply(s, a))
  {
    hide LoopNext;
    if a.LoopStep? {
      LoopStepKeepsQueue(s, a.blocking);
    } else {
      var s' := Apply(s, a);
      LoopKeepsShape(s, a);
      assert Announcing(s, WAKE) ==> Announcing(s', WAKE);
    }
  }

  lemma CallKeepsQuit(s: State, a: Action)
    requires ShapeInv(s) && QuitInv(s) && Enabled(s, a) && ByThread(a)
    ensures QuitInv(Apply(s, a))
  {
    CallKeepsShape(s, a);
    AnnounceStays(s, a);
  }

  lemma LoopKeepsQuit(s: State, a: Action)
    requires ShapeInv(s) && QuitInv(s) && Enabled(s, a) && !ByThread(a)
    ensures QuitInv(Apply(s, a))
  {
    LoopKeepsShape(s, a);
    assert Announcing(s, WAKE) ==> Announcing(Apply(s, a), WAKE);
  }

  lemma StepKeepsInv(s: State, a: Action)
    requires Inv(s) && Enabled(s, a)
    ensures Inv(Apply(s, a))
  {
    if ByThread(a) {
      CallKeepsShape(s, a);
      CallKeepsFlag(s, a);
      CallKeepsSkip(s, a);
      CallKeepsSent(s, a);
      CallKeepsQueue(s, a);
      CallKeepsQuit(s, a);
    } else {
      LoopKeepsShape(s, a);
      LoopKeepsFlags(s, a);
      LoopKeepsSent(s, a);
      LoopKeepsQueue(s, a);
      LoopKeepsQuit(s, a);
    }
  }

  // ---------- runs ----------

  /** A run: the states an arbitrary interleaving passes through, one action apart. */
  ghost predicate IsRun(states: seq<State>, actions: seq<Action>) {
    && |states| == |actions| + 1 && Init(states[0])
    && forall i :: 0 <= i < |actions| ==>
         Enabled(states[i], actions[i]) && states[i + 1] == Apply(states[i], actions[i])
  }

  lemma {:induction false} RunInv(states: seq<State>, actions: seq<Action>, i: nat)
    requires IsRun(states, actions) && i < |states|
    ensures Inv(states[i])
  {
    if i > 0 {
      RunInv(states, actions, i - 1);
      StepKeepsInv(states[i - 1], actions[i - 1]);
    }
  }

  /** No lost wake-up: while poll blocks and no sender is about to write, a `sent` watcher means a readable pipe. */
  lemma NoLostWakeup(states: seq<State>, actions: seq<Action>, i: nat, w: nat)
    requires IsRun(states, actions) && i < |states|
    requires states[i].pc.Blocking() && !Writing(states[i])
    ensures w in states[i].sent ==> states[i].pipe > 0
  {
    RunInv(states, actions, i);
  }

  /** Functors run in push order, each push at most once, and none disappears. */
  lemma FunctorsRunInPushOrder(states: seq<State>, actions: seq<Action>, i: nat)
    requires IsRun(states, actions) && i < |states|
    ensures states[i].executed + states[i].batch + states[i].queue == states[i].pushed
    ensures states[i].executed <= states[i].pushed
  {
    RunInv(states, actions, i);
  }

  /** In state `i` of a run poll blocks with an empty pipe, nobody is about to write it, and `e` is still queued.
      Other senders may be anywhere else. */
  ghost predicate SleepsOn(states: seq<State>, actions: seq<Action>, i: nat, e: Entry) {
    && IsRun(states, actions) && i < |states|
    && states[i].pc.Blocking() && !Waking(states[i]) && states[i].pipe == 0
    && e in states[i].queue
  }

  lemma Extend(states: seq<State>, actions: seq<Action>, a: Action, s': State)
    requires IsRun(states, actions) && Enabled(states[|actions|], a) && s' == Apply(states[|actions|], a)
    ensures IsRun(states + [s'], actions + [a])
  {
  }

  lemma Starts(s: State)
    requires Init(s)
    ensures IsRun([s], [])
  {
  }

  /** The loop thread pushes a functor, enters loop() and goes to sleep on it. */
  lemma EarlyFunctorStrands(id: nat) returns (states: seq<State>, actions: seq<Action>)
    ensures exists i :: SleepsOn(states, actions, i, Entry(id, true))
  {
    var s := State(map[LOOP := Idle], false, false, false, 0, {}, 1, Outside, false, false, {}, false,
                   [], [], false, false, [], [], 0);
    states, actions := [s], [];
    Starts(s);
    hide IsRun;
    var steps := [Push(LOOP, id), EnterLoop, LoopStep(false), LoopStep(false), LoopStep(true)];
    var at := [Outside, Top, WantWakeup, TestSkipped, Poll(true, false)];
    for i := 0 to 5
      invariant IsRun(states, actions) && |actions| == i && |states| == i + 1 && states[i] == s
      invariant s.threads == map[LOOP := Idle] && !s.skipped && s.pipe == 0 && !s.loopDone && !s.calling
      invariant s.pc == if i == 0 then Outside else at[i - 1]
      invariant i > 0 ==> s.queue == [Entry(id, true)]
    {
      var s' := Apply(s, steps[i]);
      Extend(states, actions, steps[i], s');
      states, actions, s := states + [s'], actions + [steps[i]], s';
    }
    assert SleepsOn(states, actions, 5, Entry(id, true));
  }

  /** A loop blocks on a queued functor exactly when the loop thread pushed it outside loop();
      pushes by other threads, by functors, and by I/O or timer callbacks are all safe. */
  lemma SleepsOnlyOnEarlyFunctors(e: Entry)
    ensures (exists states, actions, i :: SleepsOn(states, actions, i, e)) <==> e.early
  {
    if exists states, actions, i :: SleepsOn(states, actions, i, e) {
      var states, actions, i :| SleepsOn(states, actions, i, e);
      RunInv(states, actions, i);
    }
    if e.early {
      var states, actions := EarlyFunctorStrands(e.id);
    }
  }

  /** Every functor pushed before poll returned has run when that iteration ends. */
  lemma IterationRunsWhatItFound(states: seq<State>, actions: seq<Action>, i: nat)
    requires IsRun(states, actions) && i < |states| && states[i].pc.LoopTest?
    ensures states[i].due <= |states[i].pushed| && states[i].pushed[..states[i].due] <= states[i].executed
  {
    RunInv(states, actions, i);
    var s := states[i];
    assert s.executed == s.pushed[..|s.executed|];
    assert s.pushed[..s.due] == s.executed[..s.due];
  }

  /** A quit() by another thread after loop() started is never slept over. */
  lemma QuitIsNotSleptOver(states: seq<State>, actions: seq<Action>, i: nat)
    requires IsRun(states, actions) && i < |states|
    requires states[i].pc.Blocking() && !Waking(states[i]) && states[i].quit
    ensures states[i].pipe > 0
  {
    RunInv(states, actions, i);
  }

  // ---------- delivery ----------

  /** pipe_write_skipped is set and stays so until pipecb clears it. */
  ghost predicate SkippedForGood(s: State) {
    s.skipped && forall t :: t in s.threads ==> s.threads[t].Settled()
  }

  /** The callback of async watcher w runs in this iteration of ev_run. */
  ghost predicate Coming(s: State, w: nat) {
    w in s.fed ||
    (w in s.sent && match s.pc
       case Poll(_, ready) => s.asyncPending && (ready || SkippedForGood(s))
       case Unwant => s.asyncPending && (s.pipeFed || SkippedForGood(s))
       case TestSkippedAgain => s.asyncPending && (s.pipeFed || SkippedForGood(s))
       case Dispatch => s.asyncPending && s.pipeFed
       case PipeClearSkipped => s.asyncPending
       case PipeTestFlag => s.asyncPending
       case PipeClearFlag => true
       case Scan(i) => w < i
       case TakeSent(i) => w <= i
       case _ => (s.pc.Top? || s.pc.WantWakeup? || s.pc.TestSkipped?) && Awaits(s))
  }

  /** A poll that starts now comes back to pipecb. */
  ghost predicate Awaits(s: State) {
    s.asyncPending && (s.pipe > 0 || SkippedForGood(s))
  }

  /** The callback of w runs in this iteration or in the next. */
  ghost predicate Promised(s: State, w: nat) {
    Coming(s, w) || (w in s.sent && Awaits(s))
  }

  lemma SkippedStays(s: State, a: Action)
    requires Enabled(s, a) && ByThread(a) && SkippedForGood(s) && s.asyncPending
    ensures SkippedForGood(Apply(s, a))
  {
  }

  lemma SkippedWhileLooping(s: State, a: Action)
    requires Enabled(s, a) && !ByThread(a) && !s.pc.PipeClearSkipped?
    ensures SkippedForGood(s) ==> SkippedForGood(Apply(s, a))
  {
  }

  lemma ComingWhileCalled(s: State, a: Action, w: nat)
    requires Enabled(s, a) && ByThread(a) && Coming(s, w)
    ensures Coming(Apply(s, a), w)
  {
    hide SkippedForGood;
    if SkippedForGood(s) && s.asyncPending {
      SkippedStays(s, a);
    }
  }

  lemma ComingWhileStepping(s: State, blocking: bool, w: nat)
    requires ShapeInv(s) && s.pc.Steps() && Coming(s, w)
    requires SkippedForGood(s) && !s.pc.PipeClearSkipped? ==> SkippedForGood(LoopNext(s, blocking))
    ensures Coming(LoopNext(s, blocking), w)
  {
    assert SkippedForGood(s) ==> s.skipped;
    hide SkippedForGood, ThreadsInv;
  }

  lemma ComingStays(s: State, a: Action, w: nat)
    requires ShapeInv(s) && Enabled(s, a) && Coming(s, w) && a != RunAsync(w)
    ensures Coming(Apply(s, a), w)
  {
    hide SkippedForGood, LoopNext, ThreadsInv;
    if ByThread(a) {
      ComingWhileCalled(s, a, w);
    } else {
      if !s.pc.PipeClearSkipped? {
        SkippedWhileLooping(s, a);
      }
      if a.LoopStep? {
        ComingWhileStepping(s, a.blocking, w);
      }
    }
  }

  lemma AwaitsWhileCalled(s: State, a: Action, w: nat)
    requires Enabled(s, a) && ByThread(a) && w in s.sent && Awaits(s)
    ensures w in Apply(s, a).sent && Awaits(Apply(s, a))
  {
    hide SkippedForGood;
    if SkippedForGood(s) {
      SkippedStays(s, a);
    }
  }

  lemma AwaitsWhileStepping(s: State, blocking: bool, w: nat)
    requires ShapeInv(s) && s.pc.Steps() && w in s.sent && Awaits(s) && !Coming(s, w)
    requires SkippedForGood(s) && !s.pc.PipeClearSkipped? ==> SkippedForGood(LoopNext(s, blocking))
    ensures Promised(LoopNext(s, blocking), w)
  {
    hide SkippedForGood, ThreadsInv;
  }

  lemma PromisedStays(s: State, a: Action, w: nat)
    requires ShapeInv(s) && Enabled(s, a) && Promised(s, w) && a != RunAsync(w)
    ensures Promised(Apply(s, a), w)
  {
    hide SkippedForGood, LoopNext, ThreadsInv;
    if Coming(s, w) {
      ComingStays(s, a, w);
    } else if ByThread(a) {
      AwaitsWhileCalled(s, a, w);
    } else {
      if !s.pc.PipeClearSkipped? {
        SkippedWhileLooping(s, a);
      }
      if a.LoopStep? {
        AwaitsWhileStepping(s, a.blocking, w);
      }
    }
  }

  /** With nobody about to write, every `sent` watcher is promised its callback. */
  lemma SentIsPromised(s: State, w: nat)
    requires Inv(s) && !Writing(s) && w in s.sent
    ensures Promised(s, w)
  {
  }

  /** The callback of w ran between states i and j. */
  predicate Served(actions: seq<Action>, i: nat, j: nat, w: nat)
    requires j <= |actions|
  {
    exists k :: i <= k < j && actions[k] == RunAsync(w)
  }

  lemma {:induction false} ComingIsServed(states: seq<State>, actions: seq<Action>, i: nat, j: nat, w: nat)
    requires IsRun(states, actions) && i <= j < |states| && Coming(states[i], w)
    ensures Served(actions, i, j, w) || Coming(states[j], w)
    decreases j
  {
    hide Coming, Inv, Apply, Enabled;
    if i < j {
      ComingIsServed(states, actions, i, j - 1, w);
      ShapeInRun(states, actions, j - 1);
      if !Served(actions, i, j - 1, w) && actions[j - 1] != RunAsync(w) {
        ComingStays(states[j - 1], actions[j - 1], w);
      }
    }
  }

  lemma ShapeInRun(states: seq<State>, actions: seq<Action>, i: nat)
    requires IsRun(states, actions) && i < |states|
    ensures ShapeInv(states[i])
  {
    RunInv(states, actions, i);
  }

  lemma {:induction false} PromiseIsKept(states: seq<State>, actions: seq<Action>, i: nat, j: nat, w: nat)
    requires IsRun(states, actions) && i <= j < |states| && Promised(states[i], w)
    ensures Served(actions, i, j, w) || Promised(states[j], w)
    decreases j
  {
    hide Promised, Inv, Apply, Enabled;
    if i < j {
      PromiseIsKept(states, actions, i, j - 1, w);
      ShapeInRun(states, actions, j - 1);
      if !Served(actions, i, j - 1, w) && actions[j - 1] != RunAsync(w) {
        PromisedStays(states[j - 1], actions[j - 1], w);
      }
    }
  }

  /** Every async watcher with `sent` set and no sender about to write has had its callback run when the first
      iteration ends whose poll starts after that, whether the wake-up took the pipe or pipe_write_skipped. */
  lemma SentIsDelivered(states: seq<State>, actions: seq<Action>, i: nat, m: nat, j: nat, w: nat)
    requires IsRun(states, actions) && i <= m <= j < |states|
    requires !Writing(states[i]) && w in states[i].sent
    requires states[m].pc.TestSkipped? && states[j].pc.LoopTest?
    ensures Served(actions, i, j, w)
  {
    RunInv(states, actions, i);
    SentIsPromised(states[i], w);
    PromiseIsKept(states, actions, i, m, w);
    if !Served(actions, i, m, w) {
      ComingIsServed(states, actions, m, j, w);
      ShapeInRun(states, actions, j);
    }
  }

  lemma FoundIsComing(s: State, w: nat)
    requires s.pc.Unwant? && (s.pipeFed || s.skipped) && !Writing(s) && Promised(s, w)
    ensures Coming(s, w)
  {
  }

  /** ... and already when the iteration ends whose poll has just returned, if that poll reported the pipe or
      left pipe_write_skipped set. */
  lemma FoundIsDelivered(states: seq<State>, actions: seq<Action>, i: nat, j: nat, w: nat)
    requires IsRun(states, actions) && i <= j < |states|
    requires states[i].pc.Unwant? && (states[i].pipeFed || states[i].skipped)
    requires !Writing(states[i]) && w in states[i].sent && states[j].pc.LoopTest?
    ensures Served(actions, i, j, w)
  {
    RunInv(states, actions, i);
    SentIsPromised(states[i], w);
    ComingIsServed(states, actions, i, j, w);
    ShapeInRun(states, actions, j);
  }

  /** quit_ is set, and the loop has ended or learns of it through handleWakeup, in this iteration or the next. */
  ghost predicate Quits(s: State) {
    s.quit && (s.pc.Outside? || s.loopDone || Promised(s, WAKE))
  }

  /** ... in this iteration. */
  ghost predicate QuitsNow(s: State) {
    s.quit && (s.pc.Outside? || s.loopDone || Coming(s, WAKE))
  }

  lemma LoopStepKeepsEnd(s: State, blocking: bool)
    requires s.pc.Steps()
    ensures LoopNext(s, blocking).quit == s.quit && LoopNext(s, blocking).loopDone == s.loopDone
  {
    hide LoopGoes;
  }

  lemma SenderKeepsEnd(s: State, t: Tid, at: SenderPc)
    requires !at.Idle?
    ensures var s' := SenderNext(s, t, at); s'.quit == s.quit && s'.loopDone == s.loopDone && s'.pc == s.pc
  {
    hide SenderGoes;
  }

  lemma EndStays(s: State, a: Action)
    requires Enabled(s, a) && !a.EnterLoop? && s.quit
    ensures Apply(s, a).quit
    ensures s.pc.Outside? || (s.loopDone && !s.pc.Poll?) ==> Apply(s, a).pc.Outside? || Apply(s, a).loopDone
  {
    hide LoopNext, SenderNext;
    if a.LoopStep? {
      LoopStepKeepsEnd(s, a.blocking);
    } else if a.SenderStep? {
      SenderKeepsEnd(s, a.t, s.threads[a.t]);
    }
  }

  lemma WakeupEnds(s: State)
    requires Enabled(s, RunAsync(WAKE)) && s.quit
    ensures Apply(s, RunAsync(WAKE)).loopDone
  {
  }

  lemma QuitsStays(s: State, a: Action)
    requires ShapeInv(s) && Enabled(s, a) && !a.EnterLoop?
    ensures Quits(s) ==> Quits(Apply(s, a))
    ensures QuitsNow(s) ==> QuitsNow(Apply(s, a))
  {
    assert s.loopDone ==> !s.pc.Poll?;
    hide Promised, Coming, ShapeInv, Apply, Enabled;
    if s.quit {
      EndStays(s, a);
      if a == RunAsync(WAKE) {
        WakeupEnds(s);
      } else {
        if Promised(s, WAKE) {
          PromisedStays(s, a, WAKE);
        }
        if Coming(s, WAKE) {
          ComingStays(s, a, WAKE);
        }
      }
    }
  }

  predicate SameLoop(actions: seq<Action>, i: nat, j: nat)
    requires j <= |actions|
  {
    forall k :: i <= k < j ==> !actions[k].EnterLoop?
  }

  lemma {:induction false} QuitsInRun(states: seq<State>, actions: seq<Action>, i: nat, j: nat)
    requires IsRun(states, actions) && i <= j < |states| && SameLoop(actions, i, j)
    ensures Quits(states[i]) ==> Quits(states[j])
    ensures QuitsNow(states[i]) ==> QuitsNow(states[j])
    decreases j
  {
    hide Quits, QuitsNow, Inv, Apply, Enabled;
    if i < j {
      QuitsInRun(states, actions, i, j - 1);
      ShapeInRun(states, actions, j - 1);
      QuitsStays(states[j - 1], actions[j - 1]);
    }
  }

  /** The wake-up of a quit() is past ev_async_send's first store. */
  ghost predicate QuitSeen(s: State) {
    s.quit && (s.pc.Outside? || s.loopDone || WAKE in s.sent || WAKE in s.fed)
  }

  /** Thread t is on its way there. */
  predicate QuitsFrom(s: State, t: Tid) {
    s.quit && t in s.threads && s.threads[t].Announces(WAKE)
  }

  lemma QuitSeenStays(s: State, a: Action)
    requires ShapeInv(s) && Enabled(s, a) && !a.EnterLoop? && QuitSeen(s)
    ensures QuitSeen(Apply(s, a))
  {
    EndStays(s, a);
    hide LoopGoes, SenderGoes, ThreadsInv, Quits;
  }

  lemma QuitsFromStays(s: State, a: Action, t: Tid)
    requires ShapeInv(s) && Enabled(s, a) && !a.EnterLoop? && QuitsFrom(s, t)
    ensures QuitSeen(Apply(s, a)) || QuitsFrom(Apply(s, a), t)
  {
    EndStays(s, a);
    if ByThread(a) {
      CallKeepsShape(s, a);
    } else {
      LoopKeepsShape(s, a);
    }
  }

  lemma QuitStarts(s: State, t: Tid)
    requires Enabled(s, Quit(t))
    ensures QuitSeen(Apply(s, Quit(t))) || QuitsFrom(Apply(s, Quit(t)), t)
  {
  }

  /** Thread t called quit() in step k; in every later state of the same loop() its wake-up is on its way. */
  lemma {:induction false} QuitUnderWay(states: seq<State>, actions: seq<Action>, k: nat, i: nat, t: Tid)
    requires IsRun(states, actions) && k < i < |states| && SameLoop(actions, k, i) && actions[k] == Quit(t)
    ensures QuitSeen(states[i]) || QuitsFrom(states[i], t)
    decreases i
  {
    hide QuitSeen, QuitsFrom, Inv, Apply, Enabled;
    if k == i - 1 {
      QuitStarts(states[k], t);
    } else {
      QuitUnderWay(states, actions, k, i - 1, t);
      ShapeInRun(states, actions, i - 1);
      if QuitSeen(states[i - 1]) {
        QuitSeenStays(states[i - 1], actions[i - 1]);
      } else {
        QuitsFromStays(states[i - 1], actions[i - 1], t);
      }
    }
  }

  lemma QuitIsPromised(s: State)
    requires Inv(s) && QuitSeen(s) && !Writing(s)
    ensures Quits(s)
  {
    hide Promised, Writing;
    if WAKE in s.sent {
      SentIsPromised(s, WAKE);
    }
    assert WAKE in s.fed ==> Promised(s, WAKE) by { FedIsPromised(s, WAKE); }
  }

  lemma FedIsPromised(s: State, w: nat)
    ensures w in s.fed ==> Promised(s, w)
  {
  }

  /** A quit() by any thread after loop() started is never lost: once that thread has announced its wake-up and
      nobody is about to write, the first iteration whose poll starts after that is the last one, if it comes to
      that. Other threads may be announcing wake-ups meanwhile. */
  lemma QuitEndsTheLoop(states: seq<State>, actions: seq<Action>, k: nat, i: nat, m: nat, j: nat, t: Tid)
    requires IsRun(states, actions) && k < i <= m <= j < |states| && SameLoop(actions, k, j)
    requires actions[k] == Quit(t) && !QuitsFrom(states[i], t) && !Writing(states[i])
    requires states[m].pc.TestSkipped? && states[j].pc.LoopTest?
    ensures states[j].loopDone
  {
    hide QuitSeen, QuitsFrom, Writing;
    RunInv(states, actions, i);
    QuitUnderWay(states, actions, k, i, t);
    QuitIsPromised(states[i]);
    QuitsInRun(states, actions, i, m);
    ShapeInRun(states, actions, m);
    assert QuitsNow(states[m]);
    QuitsInRun(states, actions, m, j);
    ShapeInRun(states, actions, j);
  }

  /** ... and the iteration whose poll has just returned already is, if that poll reported the pipe or left
      pipe_write_skipped set. */
  lemma QuitFoundEndsTheLoop(states: seq<State>, actions: seq<Action>, k: nat, i: nat, j: nat, t: Tid)
    requires IsRun(states, actions) && k < i <= j < |states| && SameLoop(actions, k, j)
    requires actions[k] == Quit(t) && !QuitsFrom(states[i], t) && !Writing(states[i])
    requires states[i].pc.Unwant? && (states[i].pipeFed || states[i].skipped) && states[j].pc.LoopTest?
    ensures states[j].loopDone
  {
    hide QuitsFrom;
    RunInv(states, actions, i);
    QuitUnderWay(states, actions, k, i, t);
    if WAKE in states[i].sent {
      SentIsPromised(states[i], WAKE);
      FoundIsComing(states[i], WAKE);
    }
    QuitsInRun(states, actions, i, j);
    ShapeInRun(states, actions, j);
  }

  // ---------- nothing without a cause ----------

  /** No quit() and no new loop() among the steps from i to j. */
  predicate NoQuit(actions: seq<Action>, i: nat, j: nat)
    requires j <= |actions|
  {
    forall k :: i <= k < j ==> !actions[k].EnterLoop? && !actions[k].Quit?
  }

  /** loop() is running, nobody has called quit(), and the loop is not about to end. */
  predicate Runs(s: State) {
    !s.quit && !s.loopDone && !s.pc.Outside?
  }

  lemma LoopStepRuns(s: State, blocking: bool)
    requires Runs(s) && s.pc.Steps()
    ensures Runs(LoopNext(s, blocking))
  {
    LoopStepKeepsEnd(s, blocking);
  }

  lemma RunsOn(s: State, a: Action)
    requires Runs(s) && Enabled(s, a) && !a.EnterLoop? && !a.Quit?
    ensures Runs(Apply(s, a))
  {
    hide LoopNext, SenderNext;
    if a.LoopStep? {
      LoopStepRuns(s, a.blocking);
    } else if a.SenderStep? {
      SenderKeepsEnd(s, a.t, s.threads[a.t]);
    }
  }

  lemma EnterRuns(s: State)
    requires Enabled(s, EnterLoop)
    ensures Runs(Apply(s, EnterLoop))
  {
  }

  /** loop() goes on as long as nobody calls quit(), whatever wakes it up. */
  lemma {:induction false} OnlyQuitEndsTheLoop(states: seq<State>, actions: seq<Action>, k: nat, i: nat)
    requires IsRun(states, actions) && k < i < |states| && actions[k].EnterLoop? && NoQuit(actions, k + 1, i)
    ensures Runs(states[i])
    decreases i
  {
    hide Runs, Apply, Enabled;
    if i == k + 1 {
      EnterRuns(states[k]);
    } else {
      OnlyQuitEndsTheLoop(states, actions, k, i - 1);
      RunsOn(states[i - 1], actions[i - 1]);
    }
  }

  /** A step that sets `sent` of watcher w. */
  predicate Announced(s: State, a: Action, w: nat)
    requires Enabled(s, a)
  {
    a.SenderStep? && s.threads[a.t].Announces(w)
  }

  /** How often `sent` of w was set in the first i steps of a run. */
  ghost function Sends(states: seq<State>, actions: seq<Action>, i: nat, w: nat): nat
    requires IsRun(states, actions) && i < |states|
  {
    if i == 0 then 0
    else Sends(states, actions, i - 1, w) + if Announced(states[i - 1], actions[i - 1], w) then 1 else 0
  }

  /** How often its callback ran. */
  function Runnings(actions: seq<Action>, i: nat, w: nat): nat
    requires i <= |actions|
  {
    if i == 0 then 0 else Runnings(actions, i - 1, w) + if actions[i - 1] == RunAsync(w) then 1 else 0
  }

  /** Wake-ups of w that are still to be delivered. */
  function Underway(s: State, w: nat): nat {
    (if w in s.sent then 1 else 0) + (if w in s.fed then 1 else 0)
  }

  lemma UnderwayStep(s: State, a: Action, w: nat)
    requires Enabled(s, a) && ThreadsInv(s)
    ensures Underway(Apply(s, a), w) + (if a == RunAsync(w) then 1 else 0) <=
            Underway(s, w) + if Announced(s, a, w) then 1 else 0
  {
    hide LoopGoes, SenderGoes;
  }

  /** Every callback of an async watcher answers an ev_async_send of its own. */
  lemma {:induction false} NoSpuriousCallback(states: seq<State>, actions: seq<Action>, i: nat, w: nat)
    requires IsRun(states, actions) && i < |states|
    ensures Runnings(actions, i, w) + Underway(states[i], w) <= Sends(states, actions, i, w)
  {
    if i > 0 {
      hide Apply, Underway, Announced;
      NoSpuriousCallback(states, actions, i - 1, w);
      ShapeInRun(states, actions, i - 1);
      UnderwayStep(states[i - 1], actions[i - 1], w);
    }
  }
}
