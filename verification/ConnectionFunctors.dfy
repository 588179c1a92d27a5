/** The functors of a loop, over whole runs of the connections model: none is lost and none overtakes another, so
    a forced close closes, and a connection taken out of the server's map is destroyed, once. */
module ConnectionFunctors {
  import opened Network
  import opened Watchers
  import opened Tcp
  import opened Connections
  import opened ConnectionRuns
  import opened ConnectionPromises

  // ---------- functors ----------

  /** What loop l has to do, in the order in which it will. */
  ghost function Backlog(w: World, l: nat): seq<Job>
    requires l < |w.loops|
  {
    w.loops[l].todo + w.loops[l].queue
  }

  /** The step finishes the job at the head of loop l's work. */
  ghost predicate Finishes(w: World, s: Step, l: nat) {
    (s.Next? || s.Leave?) && s.l == l
  }

  /** The loop's work went from `was` to `now`: its first d jobs are done, and new ones came around the rest. */
  ghost predicate Between(was: seq<Job>, now: seq<Job>, front: seq<Job>, d: nat, back: seq<Job>) {
    d <= |was| && now == front + was[d..] + back
  }

  lemma LoopBetween(p: Loop, p': Loop, front: seq<Job>, d: nat, back: seq<Job>)
    requires d <= |p.todo| && p'.todo == front + p.todo[d..] && p'.queue == p.queue + back
    ensures Between(p.todo + p.queue, p'.todo + p'.queue, front, d, back)
  {
  }

  ghost predicate NoDestroy(s: seq<Job>) {
    forall t :: t in s ==> !t.Destroy?
  }

  /** Loop l is told to destroy exactly the connection of its own that the step removes from the map. */
  ghost predicate DestroysRemoved(w: World, s: Step, l: nat, back: seq<Job>)
    requires Enabled(w, s)
  {
    if s.Next? && w.loops[s.l].todo[0].Remove? && w.conns[w.loops[s.l].todo[0].c].loop == l then
      back == [Destroy(w.loops[s.l].todo[0].c)]
    else
      NoDestroy(back)
  }

  lemma BetweenSame(was: seq<Job>)
    ensures Between(was, was, [], 0, [])
  {
    assert [] + was[0..] + [] == was;
  }

  lemma WroteKeepsAll(k: Conn, wrote: int)
    requires -1 <= wrote <= |k.out|
    ensures NoDestroy(Wrote(k, wrote).queued)
  {
  }

  lemma SentKeepsAll(k: Conn, data: seq<Byte>, wrote: int)
    requires -1 <= wrote <= |data|
    ensures NoDestroy(Sent(k, data, wrote).queued)
  {
  }

  lemma CalledKeepsAll(k: Conn, call: Call)
    requires call.Send? ==> -1 <= call.wrote <= |call.data|
    ensures NoDestroy(Called(k, call).queued)
  {
    hide Sent;
    if call.Send? {
      SentKeepsAll(k, call.data, call.wrote);
    }
  }

  lemma DoneBacklog(w: World, l: nat, wrote: int, l': nat) returns (front: seq<Job>, back: seq<Job>)
    requires Inv(w) && Enabled(w, Next(l, wrote)) && l' < |w.loops|
    ensures var w' := Apply(w, Next(l, wrote));
            && |w'.loops| == |w.loops|
            && Between(Backlog(w, l'), Backlog(w', l'), front, if l' == l then 1 else 0, back)
            && NoDestroy(front) && DestroysRemoved(w, Next(l, wrote), l', back)
  {
    hide Ok, Placed, AllTokens, Sent, Wrote, Between;
    HeadState(w, l);
    var t, rest, k := w.loops[l].todo[0], w.loops[l].todo[1..], w.conns[w.loops[l].todo[0].c];
    var p, p' := w.loops[l'], Apply(w, Next(l, wrote)).loops[l'];
    front, back := [], [];
    match t {
      case Write(_) => if l' == l { back := Wrote(k, wrote).queued; WroteKeepsAll(k, wrote); }
      case SendIn(_, data) => if l' == l { back := Sent(k, data, wrote).queued; SentKeepsAll(k, data, wrote); }
      case Remove(_) => if l' == k.loop { back := [Destroy(k.id)]; }
      case Close(_) =>
        if l' == l && l == SERVER { front := [Remove(k.id)]; }
        if l' == SERVER && l != SERVER { back := [Remove(k.id)]; }
      case Destroy(_) => if l' == l && k.state.Connected? { front := [Callback]; }
      case ForceClose(_) => if l' == l && k.Open() { front := [Callback, Close(k.id)]; }
      case _ => if l' == l { front := [Callback]; }
    }
    LoopBetween(p, p', front, if l' == l then 1 else 0, back);
  }

  lemma BatchBacklog(w: World, l0: nat, l: nat)
    requires Enabled(w, Batch(l0)) && l < |w.loops|
    ensures Between(Backlog(w, l), Backlog(Apply(w, Batch(l0)), l), [], 0, [])
  {
    hide Between;
    BetweenSame(Backlog(w, l));
    assert Backlog(Apply(w, Batch(l0)), l) == Backlog(w, l);
  }

  lemma HandledLoops(w: World, k: Conn, n: int, fault: bool, l: nat)
    requires k.loop < |w.loops| && l < |w.loops|
    ensures var w' := Handled(w, k, n, fault);
            && |w'.loops| == |w.loops| && w'.loops[l].queue == w.loops[l].queue
            && if l == k.loop then NoDestroy(w'.loops[l].todo) else w'.loops[l].todo == w.loops[l].todo
  {
    hide Closing;
  }

  lemma HandleBacklog(w: World, c: Id, n: int, fault: bool, l: nat) returns (front: seq<Job>)
    requires Known(w) && Enabled(w, Handle(c, n, fault)) && l < |w.loops|
    ensures var w' := Apply(w, Handle(c, n, fault));
            |w'.loops| == |w.loops| && NoDestroy(front) && Between(Backlog(w, l), Backlog(w', l), front, 0, [])
  {
    hide Between, Handled, NoDestroy, Known;
    HandledLoops(w, w.conns[c], n, fault, l);
    var p, p' := w.loops[l], Apply(w, Handle(c, n, fault)).loops[l];
    front := if l == w.conns[c].loop then p'.todo else [];
    assert l == w.conns[c].loop ==> p.todo == [] && p.todo[0..] == [];
    assert NoDestroy([]) by { NoneDestroys(); }
    LoopBetween(p, p', front, 0, []);
  }

  lemma NoneDestroys()
    ensures NoDestroy([])
  {
  }

  lemma OtherBacklog(w: World, s: Step, l: nat) returns (front: seq<Job>, back: seq<Job>)
    requires Known(w) && Enabled(w, s) && l < |w.loops| && !s.Next? && !s.Batch? && !s.Handle?
    ensures var w' := Apply(w, s);
            && |w'.loops| == |w.loops|
            && Between(Backlog(w, l), Backlog(w', l), front, if Finishes(w, s, l) then 1 else 0, back)
            && NoDestroy(front) && NoDestroy(back)
  {
    hide Called, Between;
    front, back := [], [];
    var p, p' := w.loops[l], Apply(w, s).loops[l];
    match s {
      case Accept(l0, _) =>
        if l == l0 && l == SERVER { front := [Callback]; }
        if l == l0 && l != SERVER { back := [Establish(w.nextId)]; }
      case Enter(l0) => if l == l0 { front := [Callback]; }
      case Queue(l0) => if l == l0 { back := [Callback]; }
      case UserCall(l0, c, call) =>
        CalledKeepsAll(w.conns[c], call);
        if l == l0 { back := Called(w.conns[c], call).queued; }
      case OtherSend(c, data) => if l == w.conns[c].loop { back := [SendIn(c, data)]; }
      case _ =>
    }
    LoopBetween(p, p', front, if Finishes(w, s, l) then 1 else 0, back);
  }

  lemma StepBacklog(w: World, s: Step, l: nat) returns (front: seq<Job>, back: seq<Job>)
    requires Inv(w) && Enabled(w, s) && l < |w.loops|
    ensures var w' := Apply(w, s);
            && |w'.loops| == |w.loops|
            && Between(Backlog(w, l), Backlog(w', l), front, if Finishes(w, s, l) then 1 else 0, back)
            && NoDestroy(front) && DestroysRemoved(w, s, l, back)
  {
    hide Placed, AllTokens, AllOk, Between, Backlog;
    front, back := [], [];
    match s
    case Next(l0, wrote) => front, back := DoneBacklog(w, l0, wrote, l);
    case Batch(l0) => BatchBacklog(w, l0, l);
    case Handle(c, n, fault) => front := HandleBacklog(w, c, n, fault, l);
    case _ => front, back := OtherBacklog(w, s, l);
  }

  /** `when` are the steps, in ascending order, that did the jobs `done`, one each. */
  ghost predicate DoneAt(worlds: seq<World>, steps: seq<Step>, i: nat, j: nat, l: nat, done: seq<Job>, when: seq<nat>)
    requires IsRun(worlds, steps)
  {
    && |when| == |done|
    && (forall p, q :: 0 <= p < q < |when| ==> when[p] < when[q])
    && forall p :: 0 <= p < |when| ==>
         && i <= when[p] < j && when[p] < |steps| && Finishes(worlds[when[p]], steps[when[p]], l)
         && l < |worlds[when[p]].loops|
         && worlds[when[p]].loops[l].todo != [] && worlds[when[p]].loops[l].todo[0] == done[p]
  }

  /** One more step on a loop whose first d jobs of long ago are done. */
  lemma BetweenMore(was: seq<Job>, now: seq<Job>, now': seq<Job>, front: seq<Job>, d: nat, back: seq<Job>,
                    front': seq<Job>, e: nat, back': seq<Job>)
      returns (front'': seq<Job>, d'': nat, back'': seq<Job>)
    requires Between(was, now, front, d, back) && Between(now, now', front', e, back') && e <= 1
    ensures Between(was, now', front'', d'', back'') && d <= d'' <= d + 1
    ensures d'' > d ==> e == 1 && now != [] && now[0] == was[d]
    ensures e == 1 && front == [] && d < |was| ==> d'' == d + 1
  {
    front'', d'', back'' := front' + front, d, back + back';
    if e == 1 {
      if front != [] {
        front'' := front' + front[1..];
      } else if d < |was| {
        d'' := d + 1;
      } else {
        back'' := back[1..] + back';
      }
    }
  }

  lemma FinishesHead(w: World, s: Step, l: nat)
    requires Enabled(w, s) && Finishes(w, s, l)
    ensures l < |w.loops| && w.loops[l].todo != [] && w.loops[l].todo[0] == Backlog(w, l)[0]
  {
  }

  lemma DoneLonger(worlds: seq<World>, steps: seq<Step>, i: nat, j: nat, l: nat, done: seq<Job>, when: seq<nat>)
    requires IsRun(worlds, steps) && j > 0 && DoneAt(worlds, steps, i, j - 1, l, done, when)
    ensures DoneAt(worlds, steps, i, j, l, done, when)
  {
    hide IsRun, Finishes;
  }

  lemma DoneMore(worlds: seq<World>, steps: seq<Step>, i: nat, j: nat, l: nat, was: seq<Job>, d: nat, when: seq<nat>)
    requires IsRun(worlds, steps) && |worlds| == |steps| + 1 && i < j <= |steps| && d < |was|
    requires DoneAt(worlds, steps, i, j - 1, l, was[..d], when) && Finishes(worlds[j - 1], steps[j - 1], l)
    requires l < |worlds[j - 1].loops| && worlds[j - 1].loops[l].todo != [] && worlds[j - 1].loops[l].todo[0] == was[d]
    ensures DoneAt(worlds, steps, i, j, l, was[..d + 1], when + [j - 1])
  {
    hide IsRun, Finishes;
    assert was[..d + 1] == was[..d] + [was[d]];
    var when' := when + [j - 1];
    forall p | 0 <= p < |when'|
      ensures i <= when'[p] < j && when'[p] < |steps| && Finishes(worlds[when'[p]], steps[when'[p]], l)
      ensures l < |worlds[when'[p]].loops| && worlds[when'[p]].loops[l].todo != []
      ensures worlds[when'[p]].loops[l].todo[0] == was[..d + 1][p]
    {
      if p < |when| {
        assert when'[p] == when[p];
      }
    }
  }

  /** No functor is lost and none overtakes another: what a loop had to do is done in that order, one step each,
      and is otherwise still to be done in that order; other jobs may come first or last, never between. */
  lemma {:induction false} FunctorsInOrder(worlds: seq<World>, steps: seq<Step>, i: nat, j: nat, l: nat)
      returns (front: seq<Job>, d: nat, back: seq<Job>, when: seq<nat>)
    requires IsRun(worlds, steps) && i <= j < |worlds| && l < |worlds[i].loops|
    ensures l < |worlds[j].loops| && Between(Backlog(worlds[i], l), Backlog(worlds[j], l), front, d, back)
    ensures d <= |Backlog(worlds[i], l)|
    ensures DoneAt(worlds, steps, i, j, l, Backlog(worlds[i], l)[..d], when)
    decreases j
  {
    hide Inv, Enabled, Apply, Between, Finishes, Backlog;
    if i == j {
      var was := Backlog(worlds[i], l);
      front, d, back, when := [], 0, [], [];
      BetweenSame(was);
    } else {
      front, d, back, when := FunctorsInOrder(worlds, steps, i, j - 1, l);
      var w, s, was := worlds[j - 1], steps[j - 1], Backlog(worlds[i], l);
      RunInv(worlds, steps, j - 1);
      var front', back' := StepBacklog(w, s, l);
      var d';
      front, d', back := BetweenMore(was, Backlog(w, l), Backlog(worlds[j], l), front, d, back,
                                     front', if Finishes(w, s, l) then 1 else 0, back');
      if d' > d {
        FinishesHead(w, s, l);
        DoneMore(worlds, steps, i, j, l, was, d, when);
        when := when + [j - 1];
      } else {
        DoneLonger(worlds, steps, i, j, l, was[..d], when);
      }
      d := d';
    }
  }

  lemma StillIn(was: seq<Job>, now: seq<Job>, front: seq<Job>, d: nat, back: seq<Job>, p: nat)
    requires Between(was, now, front, d, back) && d <= p < |was|
    ensures was[p] in now
  {
    assert was[d..][p - d] == was[p];
  }

  /** Hence a job that a loop had, and no longer has, was done in between. */
  lemma JobIsDone(worlds: seq<World>, steps: seq<Step>, i: nat, j: nat, l: nat, t: Job) returns (n: nat)
    requires IsRun(worlds, steps) && i <= j < |worlds| && l < |worlds[i].loops| && !t.Callback?
    requires t in Backlog(worlds[i], l)
    requires l < |worlds[j].loops| ==> t !in Backlog(worlds[j], l)
    ensures i <= n < j && steps[n].Next? && steps[n].l == l && Does(worlds[n], steps[n], t)
  {
    hide Inv, Apply, Backlog, Between;
    var was := Backlog(worlds[i], l);
    var front, d, back, when := FunctorsInOrder(worlds, steps, i, j, l);
    var p :| 0 <= p < |was| && was[p] == t;
    if p >= d {
      StillIn(was, Backlog(worlds[j], l), front, d, back, p);
    }
    assert was[..d][p] == t;
    n := when[p];
    assert Finishes(worlds[n], steps[n], l) && Enabled(worlds[n], steps[n]);
  }

  // ---------- a forced close ----------

  lemma ForceCloseQueued(w: World, l: nat, c: Id)
    requires Enabled(w, UserCall(l, c, ForceCloseCall)) && Known(w) && w.conns[c].Open()
    ensures var w' := Apply(w, UserCall(l, c, ForceCloseCall));
            && l < |w'.loops| && ForceClose(c) in Backlog(w', l)
            && c in w'.conns && w'.conns[c].state.Disconnecting?
  {
  }

  /** forceClose() of an open connection: it is closed by the time the functor it queued is gone. */
  lemma ForceCloseCloses(worlds: seq<World>, steps: seq<Step>, i: nat, j: nat, l: nat, c: Id)
    requires IsRun(worlds, steps) && i < j < |worlds|
    requires steps[i] == UserCall(l, c, ForceCloseCall) && c in worlds[i].conns && worlds[i].conns[c].Open()
    requires l < |worlds[j].loops| ==> ForceClose(c) !in Backlog(worlds[j], l)
    ensures c in worlds[j].conns && worlds[j].conns[c].state.Disconnected?
  {
    hide Inv, Enabled, Apply, Backlog;
    RunInv(worlds, steps, i);
    assert Known(worlds[i]) by { InvKnown(worlds[i]); }
    ForceCloseQueued(worlds[i], l, c);
    var n := JobIsDone(worlds, steps, i + 1, j, l, ForceClose(c));
    RunInv(worlds, steps, n);
    RunLater(worlds, steps, i + 1, n, c);
    RunLater(worlds, steps, n, n + 1, c);
    StateMoves(worlds[n], steps[n], c);
    RunLater(worlds, steps, n + 1, j, c);
  }

  lemma InvKnown(w: World)
    requires Inv(w)
    ensures Known(w)
  {
  }

  // ---------- a message of another thread ----------

  lemma SendQueued(w: World, c: Id, data: seq<Byte>)
    requires Enabled(w, OtherSend(c, data))
    ensures var l, w' := w.conns[c].loop, Apply(w, OtherSend(c, data));
            l < |w'.loops| && SendIn(c, data) in Backlog(w', l)
  {
  }

  /** send() on another thread: once its functor is gone, some step in between gave the message to c, unless c
      was disconnected by then. */
  lemma ThreadSendArrives(worlds: seq<World>, steps: seq<Step>, i: nat, j: nat, c: Id, data: seq<Byte>)
      returns (n: nat)
    requires IsRun(worlds, steps) && i < j < |worlds| && steps[i] == OtherSend(c, data) && c in worlds[i].conns
    requires var l := worlds[i].conns[c].loop; l < |worlds[j].loops| ==> SendIn(c, data) !in Backlog(worlds[j], l)
    ensures i < n < j && c in worlds[n].conns && Enabled(worlds[n], steps[n])
    ensures Message(worlds[n], steps[n], c) == if worlds[n].conns[c].state.Disconnected? then [] else data
  {
    hide Inv, Enabled, Apply, Backlog;
    SendQueued(worlds[i], c, data);
    n := JobIsDone(worlds, steps, i + 1, j, worlds[i].conns[c].loop, SendIn(c, data));
    RunLater(worlds, steps, i, n, c);
    DoesGives(worlds[n], steps[n], c, data);
  }

  lemma DoesGives(w: World, s: Step, c: Id, data: seq<Byte>)
    requires Enabled(w, s) && c in w.conns && Does(w, s, SendIn(c, data))
    ensures Message(w, s, c) == if w.conns[c].state.Disconnected? then [] else data
  {
  }

  // ---------- destruction ----------

  ghost function Once(b: bool): nat {
    if b then 1 else 0
  }

  lemma BetweenCount(was: seq<Job>, now: seq<Job>, front: seq<Job>, d: nat, back: seq<Job>, t: Job)
    requires Between(was, now, front, d, back) && d <= 1 && t !in front
    ensures d <= |was| && multiset(now)[t] + Once(d == 1 && was[0] == t) == multiset(was)[t] + multiset(back)[t]
  {
    assert was == was[..d] + was[d..];
  }

  lemma BacklogCount(w: World, l: nat, t: Job)
    requires l < |w.loops|
    ensures multiset(Backlog(w, l))[t] == Count(w, l, t)
  {
  }

  /** Removing a connection from the map, and nothing else, has it destroyed. */
  lemma StepDestroys(w: World, s: Step, c: Id)
    requires Inv(w) && Enabled(w, s) && c in w.conns
    ensures var l, w' := w.conns[c].loop, Apply(w, s);
            && l < |w.loops| && |w'.loops| == |w.loops|
            && Count(w', l, Destroy(c)) + Once(Does(w, s, Destroy(c))) ==
               Count(w, l, Destroy(c)) + Once(Does(w, s, Remove(c)))
  {
    hide Ok, AllTokens, Apply, Count, Between, Backlog;
    var l, t := w.conns[c].loop, Destroy(c);
    var front, back := StepBacklog(w, s, l);
    BetweenCount(Backlog(w, l), Backlog(Apply(w, s), l), front, if Finishes(w, s, l) then 1 else 0, back, t);
    BacklogCount(w, l, t);
    BacklogCount(Apply(w, s), l, t);
    HeadIsDone(w, s, c);
    RemovedCount(w, s, c, back);
  }

  lemma HeadIsDone(w: World, s: Step, c: Id)
    requires Inv(w) && Enabled(w, s) && c in w.conns
    ensures var l := w.conns[c].loop;
            l < |w.loops| &&
            (Does(w, s, Destroy(c)) <==>
               Finishes(w, s, l) && Backlog(w, l) != [] && Backlog(w, l)[0] == Destroy(c))
  {
    hide Ok, AllTokens;
    if s.Next? {
      PlacedHead(w, s.l);
    }
  }

  lemma RemovedCount(w: World, s: Step, c: Id, back: seq<Job>)
    requires Inv(w) && Enabled(w, s) && c in w.conns && DestroysRemoved(w, s, w.conns[c].loop, back)
    ensures multiset(back)[Destroy(c)] == Once(Does(w, s, Remove(c)))
  {
    hide Ok, AllTokens;
    assert NoDestroy(back) ==> Destroy(c) !in back;
    if s.Next? {
      PlacedHead(w, s.l);
    }
  }

  lemma DoneServer(w: World, l: nat, wrote: int, c: Id)
    requires Inv(w) && Enabled(w, Next(l, wrote)) && c in w.conns
    ensures Once(c in Apply(w, Next(l, wrote)).server) + Once(Does(w, Next(l, wrote), Remove(c))) == Once(c in w.server)
  {
    hide Ok, AllTokens, Sent, Wrote;
    HeadState(w, l);
  }

  lemma StepServer(w: World, s: Step, c: Id)
    requires Inv(w) && Enabled(w, s) && c in w.conns
    ensures Once(c in Apply(w, s).server) + Once(Does(w, s, Remove(c))) == Once(c in w.server)
  {
    hide Ok, AllTokens, Called, Done;
    if s.Next? {
      DoneServer(w, s.l, s.wrote, c);
    }
  }

  /** How often connectDestroyed has been done for c. */
  ghost function Destroys(worlds: seq<World>, steps: seq<Step>, i: nat, c: Id): nat
    requires IsRun(worlds, steps) && i < |worlds|
  {
    if i == 0 then 0
    else Destroys(worlds, steps, i - 1, c) + Once(Does(worlds[i - 1], steps[i - 1], Destroy(c)))
  }

  lemma UnknownIsIdle(w: World, s: Step, c: Id)
    requires Inv(w) && Enabled(w, s) && c !in w.conns
    ensures !Does(w, s, Destroy(c))
  {
    hide Ok, AllTokens;
  }

  lemma MadeCounts(w: World, s: Step, c: Id)
    requires Inv(w) && Enabled(w, s) && c !in w.conns && c in Apply(w, s).conns
    ensures Known(Apply(w, s))
    ensures c in Apply(w, s).server && Count(Apply(w, s), Apply(w, s).conns[c].loop, Destroy(c)) == 0
  {
    hide Apply, Ok, Placed, AllTokens, Count;
    StepKeepsInv(w, s);
    OnlyAcceptMakes(w, s, c);
    AcceptServes(w, s);
    InvApart(Apply(w, s), c);
  }

  lemma AcceptServes(w: World, s: Step)
    requires Enabled(w, s) && s.Accept?
    ensures w.nextId in Apply(w, s).server
  {
  }

  /** connectDestroyed is done once for every connection taken out of the server's map, at most once at any
      time, and it has been done unless it is still among its loop's functors. */
  lemma {:induction false} DestroyedOnce(worlds: seq<World>, steps: seq<Step>, i: nat, c: Id)
    requires IsRun(worlds, steps) && i < |worlds|
    ensures c !in worlds[i].conns ==> Destroys(worlds, steps, i, c) == 0
    ensures c in worlds[i].conns ==>
              var l := worlds[i].conns[c].loop;
              l < |worlds[i].loops| &&
              Destroys(worlds, steps, i, c) + Count(worlds[i], l, Destroy(c)) + Once(c in worlds[i].server) == 1
  {
    hide Inv, Enabled, Apply, Count, Does;
    if i > 0 {
      var w, s := worlds[i - 1], steps[i - 1];
      DestroyedOnce(worlds, steps, i - 1, c);
      RunInv(worlds, steps, i - 1);
      if c in w.conns {
        RunLater(worlds, steps, i - 1, i, c);
        StepDestroys(w, s, c);
        StepServer(w, s, c);
      } else {
        UnknownIsIdle(w, s, c);
        if c in worlds[i].conns {
          MadeCounts(w, s, c);
          InvKnown(worlds[i]) by { RunInv(worlds, steps, i); }
        }
      }
    }
  }
}
