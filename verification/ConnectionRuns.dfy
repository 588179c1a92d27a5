/** What holds in every run of the connections model. */
module ConnectionRuns {
  import opened Network
  import opened Watchers
  import opened Tcp
  import opened Connections

  ghost predicate Init(w: World) {
    && w.conns == map[] && w.server == {} && w.checks && |w.loops| > 0
    && forall l :: 0 <= l < |w.loops| ==> w.loops[l] == Loop([], [])
  }

  ghost predicate IsRun(worlds: seq<World>, steps: seq<Step>) {
    && |worlds| == |steps| + 1 && Init(worlds[0])
    && forall i :: 0 <= i < |steps| ==> Enabled(worlds[i], steps[i]) && worlds[i + 1] == Apply(worlds[i], steps[i])
  }

  lemma {:induction false} RunInv(worlds: seq<World>, steps: seq<Step>, i: nat)
    requires IsRun(worlds, steps) && i < |worlds|
    ensures Inv(worlds[i])
  {
    hide Enabled, Apply;
    if i > 0 {
      RunInv(worlds, steps, i - 1);
      StepKeepsInv(worlds[i - 1], steps[i - 1]);
    }
  }

  /** A step changes one connection at most, and only forwards. */
  ghost predicate Later(k: Conn, k': Conn) {
    k'.id == k.id && k'.loop == k.loop && Rank(k.state) <= Rank(k'.state) && k.log <= k'.log
  }

  lemma SentLater(k: Conn, data: seq<Byte>, wrote: int)
    requires -1 <= wrote <= |data|
    ensures Later(k, Sent(k, data, wrote).c)
  {
  }

  lemma WroteLater(k: Conn, wrote: int)
    requires -1 <= wrote <= |k.out|
    ensures Later(k, Wrote(k, wrote).c)
  {
  }

  lemma CalledLater(k: Conn, call: Call)
    requires call.Send? ==> -1 <= call.wrote <= |call.data|
    ensures Later(k, Called(k, call).c)
  {
    hide Sent;
    if call.Send? {
      SentLater(k, call.data, call.wrote);
    }
  }

  lemma DoneLater(w: World, l: nat, t: Job, rest: seq<Job>, wrote: int, c: Id)
    requires Known(w) && Enabled(w, Next(l, wrote)) && t == w.loops[l].todo[0] && c in w.conns
    requires t.Establish? ==> w.conns[t.c].state.Connecting?
    requires t.Destroy? ==> w.conns[t.c].state.Disconnected?
    ensures c in Done(w, l, t, rest, wrote).conns && Later(w.conns[c], Done(w, l, t, rest, wrote).conns[c])
  {
    hide Sent, Wrote;
    match t
    case Write(d) => WroteLater(w.conns[d], wrote);
    case SendIn(d, data) => SentLater(w.conns[d], data, wrote);
    case _ =>
  }

  /** Connections never go, never lose a note, and never go back to an earlier state. */
  lemma StepLater(w: World, s: Step, c: Id)
    requires Inv(w) && Enabled(w, s) && c in w.conns
    ensures c in Apply(w, s).conns && Later(w.conns[c], Apply(w, s).conns[c])
  {
    hide Placed, AllTokens, Ok, Life, Given, Taken, Called, Done;
    match s
    case Accept(l, _) => assert c != w.nextId;
    case Next(l, wrote) =>
      HeadState(w, l);
      DoneLater(w, l, w.loops[l].todo[0], w.loops[l].todo[1..], wrote, c);
    case Handle(d, _, _) =>
      assert Ok(w.conns[d]);
      PendingOpen(w.conns[d]);
    case UserCall(l, d, call) => CalledLater(w.conns[d], call);
    case _ =>
  }

  /** What the DCHECKs and branches at the head of a job find. */
  lemma HeadState(w: World, l: nat)
    requires Inv(w) && l < |w.loops| && w.loops[l].todo != [] && !w.loops[l].todo[0].Callback?
    ensures var t := w.loops[l].todo[0];
            && t.c in w.conns && w.conns[t.c].loop < |w.loops|
            && (t.Establish? ==> w.conns[t.c].state.Connecting?)
            && (t.Remove? ==> l == SERVER && t.c in w.server)
            && (t.Destroy? ==> w.conns[t.c].state.Disconnected? && t.c !in w.server)
  {
    hide Placed, TokensBut, AllTokens, Ok, Count, Life, Given, Taken;
    PlacedHead(w, l);
    HeadCounts(w, l);
    var c := w.loops[l].todo[0].c;
    InvApart(w, c);
    OkParts(w.conns[c]);
  }

  lemma {:induction false} RunLater(worlds: seq<World>, steps: seq<Step>, i: nat, j: nat, c: Id)
    requires IsRun(worlds, steps) && i <= j < |worlds| && c in worlds[i].conns
    ensures c in worlds[j].conns && Later(worlds[i].conns[c], worlds[j].conns[c])
    decreases j
  {
    hide Inv, Enabled, Apply;
    if i < j {
      RunLater(worlds, steps, i, j - 1, c);
      RunInv(worlds, steps, j - 1);
      StepLater(worlds[j - 1], steps[j - 1], c);
    }
  }

  /** In every run no DCHECK fails, and each job finds what it needs: connectEstablished a connecting
      connection, removeConnectionInLoop one entry to erase, connectDestroyed a disconnected connection
      (so the branch for kConnected is never taken). A loop with a job to do can do it. */
  lemma ChecksHold(worlds: seq<World>, steps: seq<Step>, i: nat, l: nat)
    requires IsRun(worlds, steps) && i < |worlds|
    ensures worlds[i].checks
    ensures l < |worlds[i].loops| && worlds[i].loops[l].todo != [] && !worlds[i].loops[l].todo[0].Callback? ==>
              var t := worlds[i].loops[l].todo[0];
              && Enabled(worlds[i], Next(l, -1))
              && (t.Establish? ==> worlds[i].conns[t.c].state.Connecting?)
              && (t.Remove? ==> t.c in worlds[i].server)
              && (t.Destroy? ==> worlds[i].conns[t.c].state.Disconnected?)
  {
    RunInv(worlds, steps, i);
    if l < |worlds[i].loops| && worlds[i].loops[l].todo != [] && !worlds[i].loops[l].todo[0].Callback? {
      HeadState(worlds[i], l);
    }
  }

  /** Bytes taken by the socket, then the output buffer: the messages given, in order. Until disconnection
      the channel asks for writability exactly while the buffer holds something. */
  lemma StreamConserved(worlds: seq<World>, steps: seq<Step>, i: nat, c: Id)
    requires IsRun(worlds, steps) && i < |worlds| && c in worlds[i].conns
    ensures var k := worlds[i].conns[c];
            Taken(k.log) + k.out == Given(k.log) && (k.Open() ==> (WRITE in k.ch.events <==> k.out != []))
  {
    RunInv(worlds, steps, i);
    OkParts(worlds[i].conns[c]);
  }

  /** Up once, then down at most once, then closed at most once, as the state says. */
  lemma NotifiedInOrder(worlds: seq<World>, steps: seq<Step>, i: nat, c: Id)
    requires IsRun(worlds, steps) && i < |worlds| && c in worlds[i].conns
    ensures var k := worlds[i].conns[c];
            match k.state
            case Connecting => Life(k.log) == []
            case Disconnected => Life(k.log) == [Up, Down] || Life(k.log) == [Up, Down, Closed]
            case _ => Life(k.log) == [Up]
  {
    RunInv(worlds, steps, i);
    OkParts(worlds[i].conns[c]);
  }

  /** Once disconnected a connection stays so, and its watcher is neither active nor pending. */
  lemma QuietOnceDown(worlds: seq<World>, steps: seq<Step>, i: nat, j: nat, c: Id)
    requires IsRun(worlds, steps) && i <= j < |worlds| && c in worlds[i].conns && worlds[i].conns[c].state.Disconnected?
    ensures c in worlds[j].conns
    ensures var k := worlds[j].conns[c]; k.state.Disconnected? && !k.ch.active && k.ch.pending == {}
  {
    hide Placed, AllTokens, LifeOk, StreamOk, HalfCloseOk;
    RunLater(worlds, steps, i, j, c);
    RunInv(worlds, steps, j);
    OkParts(worlds[j].conns[c]);
  }

  /** A half-close finds everything given so far taken. It is the last use of the socket's sending side
      if and only if no message is given to sendInLoop after it. */
  lemma HalfCloseIsLast(worlds: seq<World>, steps: seq<Step>, i: nat, c: Id)
    requires IsRun(worlds, steps) && i < |worlds| && c in worlds[i].conns
    ensures ShutDrained(worlds[i].conns[c].log)
    ensures !UsedLate(worlds[i].conns[c].log) <==> !GaveLate(worlds[i].conns[c].log)
  {
    RunInv(worlds, steps, i);
    OkParts(worlds[i].conns[c]);
  }

  // ---------- half-close by calls on the loop thread ----------

  /** No message of another thread for c is waiting. */
  ghost predicate NoneWaiting(w: World, c: Id) {
    forall l, t :: 0 <= l < |w.loops| && (t in w.loops[l].todo || t in w.loops[l].queue) && t.SendIn? ==> t.c != c
  }

  lemma SentQueues(k: Conn, data: seq<Byte>, wrote: int)
    requires -1 <= wrote <= |data|
    ensures forall t :: t in Sent(k, data, wrote).queued ==> !t.SendIn?
  {
  }

  lemma WroteQueues(k: Conn, wrote: int)
    requires -1 <= wrote <= |k.out|
    ensures forall t :: t in Wrote(k, wrote).queued ==> !t.SendIn?
  {
  }

  lemma DoneWaiting(w: World, l: nat, t: Job, rest: seq<Job>, wrote: int, c: Id)
    requires Enabled(w, Next(l, wrote)) && w.loops[l].todo == [t] + rest && t == w.loops[l].todo[0] && NoneWaiting(w, c)
    ensures NoneWaiting(Done(w, l, t, rest, wrote), c)
  {
    hide Sent, Wrote, Established, Closing, Destroyed;
    match t {
      case Write(_) => WroteQueues(w.conns[t.c], wrote);
      case SendIn(_, data) => SentQueues(w.conns[t.c], data, wrote);
      case _ =>
    }
    forall l', x: Job | 0 <= l' < |w.loops| && x.SendIn? &&
                   (x in Done(w, l, t, rest, wrote).loops[l'].todo || x in Done(w, l, t, rest, wrote).loops[l'].queue)
      ensures x.c != c
    {
      assert x in w.loops[l'].todo || x in w.loops[l'].queue;
    }
  }

  lemma PushWaiting(w: World, l: nat, x: Job, c: Id)
    requires l < |w.loops| && NoneWaiting(w, c) && !x.Callback? && x.c != c
    ensures NoneWaiting(Push(w, l, x), c)
  {
    var w' := Push(w, l, x);
    forall l', t | 0 <= l' < |w'.loops| && (t in w'.loops[l'].todo || t in w'.loops[l'].queue) && t.SendIn?
      ensures t.c != c
    {
      assert t == x || t in w.loops[l'].todo || t in w.loops[l'].queue;
    }
  }

  lemma CalledQueues(k: Conn, call: Call)
    requires call.Send? ==> -1 <= call.wrote <= |call.data|
    ensures forall t :: t in Called(k, call).queued ==> !t.SendIn?
  {
    hide Sent;
    if call.Send? {
      SentQueues(k, call.data, call.wrote);
    }
  }

  ghost predicate NoNewSends(w: World, w': World) {
    |w'.loops| == |w.loops| &&
    forall l, x: Job ::
      0 <= l < |w.loops| && (x in w'.loops[l].todo || x in w'.loops[l].queue) && x.SendIn? ==>
        x in w.loops[l].todo || x in w.loops[l].queue
  }

  /** Any other step leaves a loop with jobs it had, and with new ones that are no messages. */
  lemma OtherWaiting(w: World, s: Step)
    requires Enabled(w, s) && !s.Next? && !s.OtherSend?
    ensures NoNewSends(w, Apply(w, s))
  {
    hide Called, Established, Closing;
    if s.UserCall? {
      CalledQueues(w.conns[s.c], s.call);
    }
  }

  lemma StepWaiting(w: World, s: Step, c: Id)
    requires Enabled(w, s) && NoneWaiting(w, c) && (s.OtherSend? ==> s.c != c)
    ensures NoneWaiting(Apply(w, s), c)
  {
    hide Done, Push, Called, Handled, Accepted;
    match s
    case Next(l, wrote) =>
      assert w.loops[l].todo == [w.loops[l].todo[0]] + w.loops[l].todo[1..];
      DoneWaiting(w, l, w.loops[l].todo[0], w.loops[l].todo[1..], wrote, c);
    case OtherSend(d, data) => PushWaiting(w, w.conns[d].loop, SendIn(d, data), c);
    case _ => OtherWaiting(w, s);
  }

  lemma NotedPolite(log: seq<Note>, x: Note)
    requires !GaveLate(log) && (x.Gave? ==> ShutWrite !in log)
    ensures !GaveLate(log + [x])
  {
    NotedGaveLate(log, x);
  }

  lemma SentPolite(k: Conn, data: seq<Byte>, wrote: int)
    requires !GaveLate(k.log) && ShutWrite !in k.log && -1 <= wrote <= |data|
    ensures !GaveLate(Sent(k, data, wrote).c.log)
  {
    hide GaveLate;
    NotedPolite(k.log, Gave(data));
    if wrote >= 0 {
      NotedPolite(k.log + [Gave(data)], Tried(data[..wrote]));
    } else {
      NotedPolite(k.log + [Gave(data)], Tried(data[..0]));
    }
  }

  lemma WrotePolite(k: Conn, wrote: int)
    requires !GaveLate(k.log) && -1 <= wrote <= |k.out|
    ensures !GaveLate(Wrote(k, wrote).c.log)
  {
    hide GaveLate;
    var x := Tried(k.out[..if wrote >= 0 then wrote else 0]);
    NotedPolite(k.log, x);
    NotedPolite(k.log + [x], ShutWrite);
  }

  lemma CalledPolite(k: Conn, call: Call)
    requires Ok(k) && !GaveLate(k.log) && (call.Send? ==> -1 <= call.wrote <= |call.data|)
    ensures !GaveLate(Called(k, call).c.log)
  {
    hide GaveLate, Sent, LifeOk, StreamOk, InterestOk;
    NotedPolite(k.log, ShutWrite);
    if call.Send? && k.state.Connected? {
      OkParts(k);
      SentPolite(k, call.data, call.wrote);
    }
  }

  lemma DonePolite(w: World, l: nat, t: Job, rest: seq<Job>, wrote: int, c: Id)
    requires Known(w) && Enabled(w, Next(l, wrote)) && t == w.loops[l].todo[0] && c in w.conns
    requires !GaveLate(w.conns[c].log) && (t.SendIn? ==> t.c != c)
    ensures c in Done(w, l, t, rest, wrote).conns && !GaveLate(Done(w, l, t, rest, wrote).conns[c].log)
  {
    hide GaveLate, Sent, Wrote;
    var k := w.conns[c];
    NotedPolite(k.log, Up);
    NotedPolite(k.log, Down);
    NotedPolite(k.log, Closed);
    match t
    case Write(d) => if d == c { WrotePolite(k, wrote); } else { WroteLater(w.conns[d], wrote); }
    case SendIn(d, data) => SentLater(w.conns[d], data, wrote);
    case _ =>
  }

  /** The step gives c a message that waited in its loop's queue. */
  predicate GivesWaiting(w: World, s: Step, c: Id)
    requires Enabled(w, s)
  {
    s.Next? && w.loops[s.l].todo[0].SendIn? && w.loops[s.l].todo[0].c == c
  }

  lemma NotGiven(w: World, s: Step, c: Id)
    requires Enabled(w, s) && NoneWaiting(w, c)
    ensures !GivesWaiting(w, s, c)
  {
    if s.Next? {
      assert w.loops[s.l].todo[0] in w.loops[s.l].todo;
    }
  }

  /** Anything but a waiting message leaves the connection polite. */
  lemma StepPolite(w: World, s: Step, c: Id)
    requires Inv(w) && Enabled(w, s) && c in w.conns && !GivesWaiting(w, s, c) && !GaveLate(w.conns[c].log)
    ensures c in Apply(w, s).conns && !GaveLate(Apply(w, s).conns[c].log)
  {
    hide Placed, AllTokens, Ok, GaveLate, Called, Done;
    var k := w.conns[c];
    assert Ok(k);
    NotedPolite(k.log, Down);
    match s {
      case UserCall(l, d, call) =>
        if d == c {
          CalledPolite(k, call);
        } else {
          CalledLater(w.conns[d], call);
        }
      case Next(l, wrote) => DonePolite(w, l, w.loops[l].todo[0], w.loops[l].todo[1..], wrote, c);
      case _ =>
    }
  }

  lemma GivenLate(k: Conn, data: seq<Byte>, wrote: int)
    requires Ok(k) && !k.state.Connecting? && -1 <= wrote <= |data| && !GaveLate(k.log)
    ensures GaveLate(Sent(k, data, wrote).c.log) <==> k.Open() && ShutWrite in k.log
  {
    hide GaveLate, LifeOk, StreamOk, InterestOk;
    if ShutWrite !in k.log {
      SentPolite(k, data, wrote);
    } else if k.Open() {
      NotedGaveLate(k.log, Gave(data));
      NotedGaveLate(k.log + [Gave(data)], Tried(data[..if wrote >= 0 then wrote else 0]));
    }
  }

  /** Exactly one kind of step uses the sending side of a half-closed connection: a message of another
      thread, still queued at the half-close, reaches sendInLoop before the connection is closed. */
  lemma SpoiledExactlyBy(worlds: seq<World>, steps: seq<Step>, i: nat, c: Id)
    requires IsRun(worlds, steps) && i < |steps| && c in worlds[i].conns
    requires !UsedLate(worlds[i].conns[c].log)
    ensures c in worlds[i + 1].conns && Enabled(worlds[i], steps[i])
    ensures UsedLate(worlds[i + 1].conns[c].log) <==>
              GivesWaiting(worlds[i], steps[i], c) && worlds[i].conns[c].Open() && ShutWrite in worlds[i].conns[c].log
  {
    hide Inv, UsedLate, GaveLate, ShutDrained, GivesWaiting, Apply, Enabled;
    var w, s := worlds[i], steps[i];
    RunInv(worlds, steps, i);
    HalfCloseIsLast(worlds, steps, i, c);
    RunLater(worlds, steps, i, i + 1, c);
    HalfCloseIsLast(worlds, steps, i + 1, c);
    if GivesWaiting(w, s, c) {
      GivenIsSent(w, s, c);
    } else {
      StepPolite(w, s, c);
    }
  }

  lemma GivenIsSent(w: World, s: Step, c: Id)
    requires Inv(w) && Enabled(w, s) && c in w.conns && GivesWaiting(w, s, c) && !GaveLate(w.conns[c].log)
    ensures c in Apply(w, s).conns
    ensures GaveLate(Apply(w, s).conns[c].log) <==> w.conns[c].Open() && ShutWrite in w.conns[c].log
  {
    hide Ok, GaveLate, Sent, AllTokens;
    var t := w.loops[s.l].todo[0];
    PlacedHead(w, s.l);
    assert Ok(w.conns[c]);
    SentLater(w.conns[c], t.data, s.wrote);
    GivenLate(w.conns[c], t.data, s.wrote);
  }

  /** From a state where no message of another thread for c is waiting, and none was given late, and as
      long as other threads do not send to c: at most one half-close, and no write after it. */
  lemma {:induction false} LoopThreadHalfClose(worlds: seq<World>, steps: seq<Step>, i: nat, j: nat, c: Id)
    requires IsRun(worlds, steps) && i <= j < |worlds| && c in worlds[i].conns
    requires NoneWaiting(worlds[i], c) && !GaveLate(worlds[i].conns[c].log)
    requires forall n :: i <= n < j && steps[n].OtherSend? ==> steps[n].c != c
    ensures NoneWaiting(worlds[j], c) && c in worlds[j].conns && !GaveLate(worlds[j].conns[c].log)
    ensures !UsedLate(worlds[j].conns[c].log)
    decreases j
  {
    hide Inv, NoneWaiting, GivesWaiting, GaveLate, UsedLate, ShutDrained, Apply, Enabled;
    if i < j {
      LoopThreadHalfClose(worlds, steps, i, j - 1, c);
      RunInv(worlds, steps, j - 1);
      StepWaiting(worlds[j - 1], steps[j - 1], c);
      NotGiven(worlds[j - 1], steps[j - 1], c);
      StepPolite(worlds[j - 1], steps[j - 1], c);
    }
    HalfCloseIsLast(worlds, steps, j, c);
  }

  lemma Extend(worlds: seq<World>, steps: seq<Step>, s: Step)
    requires IsRun(worlds, steps) && Enabled(worlds[|steps|], s)
    ensures IsRun(worlds + [Apply(worlds[|steps|], s)], steps + [s])
  {
    hide Enabled, Apply, Init;
    var worlds', steps' := worlds + [Apply(worlds[|steps|], s)], steps + [s];
    forall i | 0 <= i < |steps'|
      ensures Enabled(worlds'[i], steps'[i]) && worlds'[i + 1] == Apply(worlds'[i], steps'[i])
    {
      if i < |steps| {
        assert Enabled(worlds[i], steps[i]) && worlds[i + 1] == Apply(worlds[i], steps[i]);
      }
    }
  }

  /** One loop and one connection. */
  function One(todo: seq<Job>, queue: seq<Job>, k: Conn): World {
    World([Loop(todo, queue)], map[1 := k], {1}, 2, true)
  }

  lemma OneSet(lp: Loop, lp': Loop, k: Conn, k': Conn)
    ensures [lp][0 := lp'] == [lp'] && map[1 := k][1 := k'] == map[1 := k']
  {
  }

  lemma OneAccept(k: Conn)
    requires k == Established(Fresh(1, 0, false))
    ensures var w := World([Loop([], [])], map[], {}, 1, true);
            Init(w) && Enabled(w, Accept(0, false)) && Apply(w, Accept(0, false)) == One([Callback], [], k)
  {
    var none: seq<Job>, conns: map<Id, Conn>, server: set<Id> := [], map[], {};
    assert none + none == none && [Callback] + none == [Callback];
    assert conns[1 := k] == map[1 := k] && server + {1} == {1};
    OneSet(Loop([], []), Loop([Callback], []), k, k);
  }

  lemma OneLeave(queue: seq<Job>, k: Conn)
    ensures var w := One([Callback], queue, k); Enabled(w, Leave(0)) && Apply(w, Leave(0)) == One([], queue, k)
  {
    assert [Callback][1..] == [];
    OneSet(Loop([Callback], queue), Loop([], queue), k, k);
  }

  lemma OneEnter(queue: seq<Job>, k: Conn)
    ensures var w := One([], queue, k); Enabled(w, Enter(0)) && Apply(w, Enter(0)) == One([Callback], queue, k)
  {
    OneSet(Loop([], queue), Loop([Callback], queue), k, k);
  }

  lemma OneBatch(queue: seq<Job>, k: Conn)
    ensures var w := One([], queue, k); Enabled(w, Batch(0)) && Apply(w, Batch(0)) == One(queue, [], k)
  {
    OneSet(Loop([], queue), Loop(queue, []), k, k);
  }

  lemma OneSend(k: Conn, data: seq<Byte>)
    requires k.loop == 0 && !k.state.Connecting?
    ensures var w, s := One([], [], k), OtherSend(1, data);
            Enabled(w, s) && Apply(w, s) == One([], [SendIn(1, data)], k)
  {
    var none: seq<Job> := [];
    assert none + [SendIn(1, data)] == [SendIn(1, data)];
    OneSet(Loop([], []), Loop([], [SendIn(1, data)]), k, k);
  }

  lemma OneShutdown(queue: seq<Job>, k: Conn)
    requires k.loop == 0 && k.id == 1
    ensures var w, s := One([Callback], queue, k), UserCall(0, 1, Shutdown);
            Enabled(w, s) && Apply(w, s) == One([Callback], queue, ShutDown(k))
  {
    assert queue + [] == queue;
    OneSet(Loop([Callback], queue), Loop([Callback], queue), k, ShutDown(k));
  }

  /** Without that condition: another thread's message is queued while the connection is up, then a callback
      calls shutdown. The message is written, or at least tried, after the half-close. */
  lemma ThreadSendBreaksHalfClose(data: seq<Byte>, wrote: int) returns (worlds: seq<World>, steps: seq<Step>)
    requires -1 <= wrote <= |data|
    ensures IsRun(worlds, steps) && |steps| == 8
    ensures steps[2] == OtherSend(1, data) && steps[4] == UserCall(0, 1, Shutdown)
    ensures 1 in worlds[8].conns && UsedLate(worlds[8].conns[1].log)
  {
    hide IsRun, Apply, Enabled, Init, UsedLate;
    var k := Established(Fresh(1, 0, false));
    var queue := [SendIn(1, data)];
    OneAccept(k);
    var w0 := World([Loop([], [])], map[], {}, 1, true);
    assert IsRun([w0], []) by { RunStarts(w0); }
    worlds, steps := Then([w0], [], Accept(0, false));
    OneLeave([], k);
    worlds, steps := Then(worlds, steps, Leave(0));
    OneSend(k, data);
    worlds, steps := Then(worlds, steps, OtherSend(1, data));
    OneEnter(queue, k);
    worlds, steps := Then(worlds, steps, Enter(0));
    OneShutdown(queue, k);
    worlds, steps := Then(worlds, steps, UserCall(0, 1, Shutdown));
    OneLeave(queue, ShutDown(k));
    worlds, steps := Then(worlds, steps, Leave(0));
    OneBatch(queue, ShutDown(k));
    worlds, steps := Then(worlds, steps, Batch(0));
    OneTried(data, wrote, ShutDown(k));
    worlds, steps := Then(worlds, steps, Next(0, wrote));
  }

  lemma Then(worlds: seq<World>, steps: seq<Step>, s: Step) returns (worlds': seq<World>, steps': seq<Step>)
    requires IsRun(worlds, steps) && |worlds| == |steps| + 1 && Enabled(worlds[|steps|], s)
    ensures IsRun(worlds', steps') && steps' == steps + [s] && |worlds'| == |steps'| + 1
    ensures worlds'[|steps'|] == Apply(worlds[|steps|], s)
  {
    Extend(worlds, steps, s);
    worlds', steps' := worlds + [Apply(worlds[|steps|], s)], steps + [s];
  }

  lemma RunStarts(w: World)
    requires Init(w)
    ensures IsRun([w], [])
  {
  }

  /** The waiting message meets a half-closed connection. */
  lemma OneTried(data: seq<Byte>, wrote: int, k: Conn)
    requires k.log == [Up, ShutWrite] && k.out == [] && !k.Writing()
    requires k.state.Disconnecting? && k.loop == 0 && k.id == 1
    requires -1 <= wrote <= |data|
    ensures var w, s := One([SendIn(1, data)], [], k), Next(0, wrote);
            Enabled(w, s) && 1 in Apply(w, s).conns && UsedLate(Apply(w, s).conns[1].log)
  {
    var n := if wrote >= 0 then wrote else 0;
    var log := [Up, ShutWrite, Gave(data), Tried(data[..n])];
    assert k.log + [Gave(data)] + [Tried(data[..n])] == log;
    assert log[1].ShutWrite? && log[3].Tried?;
  }

  /** When nothing is left to do, the map holds exactly the connections that are open. */
  lemma MapIsExact(worlds: seq<World>, steps: seq<Step>, i: nat, c: Id)
    requires IsRun(worlds, steps) && i < |worlds| && c in worlds[i].conns
    requires forall l :: 0 <= l < |worlds[i].loops| ==> worlds[i].loops[l] == Loop([], [])
    ensures c in worlds[i].server <==> worlds[i].conns[c].Open()
  {
    hide Life, Placed;
    RunInv(worlds, steps, i);
    assert Tokens(worlds[i], c);
    OkParts(worlds[i].conns[c]);
  }
}
