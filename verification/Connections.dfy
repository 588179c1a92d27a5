/** Connections over a server: the accepting loop, the loops connections live on, and other threads.

    Each loop thread works through `todo`; user code runs while a Callback is at its head and may call on any
    connection of that loop. Loops interleave freely, and any thread may send. */
module Connections {
  import opened Network
  import opened Watchers
  import opened Tcp

  /** The loop the server itself lives on. */
  const SERVER: nat := 0

  /** A loop thread: the rest of what it is doing, and pending_functors_. */
  datatype Loop = Loop(todo: seq<Job>, queue: seq<Job>)

  datatype World = World(
    loops: seq<Loop>,
    conns: map<Id, Conn>,     // every connection made so far
    server: set<Id>,          // the keys of connections_
    nextId: Id,               // next_conn_id_
    checks: bool              // every DCHECK so far held
  )

  datatype Call =
    | Send(data: seq<Byte>, wrote: int)
    | Shutdown
    | ForceCloseCall
    | ForceCloseWithDelay
    | SetHighWaterMark(mark: nat)

  datatype Step =
    | Accept(l: nat, hasComplete: bool)        // newConnection, on loop l
    | Poll(c: Id, events: Events)              // the kernel reports events on c's descriptor
    | Handle(c: Id, n: int, fault: bool)       // c's io watcher is invoked; its read, if any, returns n
    | Batch(l: nat)                            // doPendingFunctors takes the queue
    | Enter(l: nat)                            // some other callback starts: a timer, say
    | Leave(l: nat)                            // the running callback returns
    | Queue(l: nat)                            // user code of any thread queues a functor of its own on loop l
    | UserCall(l: nat, c: Id, call: Call)      // ... or calls on a connection of its loop
    | OtherSend(c: Id, data: seq<Byte>)        // a thread that found c connected queues its message
    | Next(l: nat, wrote: int)                 // the loop does its next job; its write, if any, returns wrote

  predicate Idle(w: World, l: nat) {
    l < |w.loops| && w.loops[l].todo == []
  }

  predicate InCallback(w: World, l: nat) {
    l < |w.loops| && w.loops[l].todo != [] && w.loops[l].todo[0].Callback?
  }

  predicate Enabled(w: World, s: Step) {
    match s
    case Accept(l, _) => Idle(w, SERVER) && l < |w.loops|
    case Poll(c, events) =>
      && c in w.conns && Idle(w, w.conns[c].loop) && w.conns[c].ch.active
      && events != {} && events <= w.conns[c].ch.armed
    case Handle(c, n, _) =>
      c in w.conns && Idle(w, w.conns[c].loop) && w.conns[c].ch.pending != {} && -1 <= n
    case Batch(l) => Idle(w, l)
    case Enter(l) => Idle(w, l)
    case Leave(l) => InCallback(w, l)
    case Queue(l) => l < |w.loops|
    case UserCall(l, c, call) =>
      && InCallback(w, l) && c in w.conns && w.conns[c].loop == l
      && (call.Send? ==> -1 <= call.wrote <= |call.data|)
    case OtherSend(c, _) => c in w.conns && !w.conns[c].state.Connecting? && w.conns[c].loop < |w.loops|
    case Next(l, wrote) =>
      && SERVER < |w.loops| && l < |w.loops| && w.loops[l].todo != []
      && var t := w.loops[l].todo[0];
      && !t.Callback? && t.c in w.conns && w.conns[t.c].loop < |w.loops|
      && (t.SendIn? ==> -1 <= wrote <= |t.data|)
      && (t.Write? ==> -1 <= wrote <= |w.conns[t.c].out|)
  }

  /** Loop l goes on with `todo` after changing connection k and queueing `queued` on itself. */
  function Go(w: World, l: nat, k: Conn, todo: seq<Job>, queued: seq<Job>): World
    requires l < |w.loops|
  {
    w.(conns := w.conns[k.id := k], loops := w.loops[l := Loop(todo, w.loops[l].queue + queued)])
  }

  /** queueInLoop on loop l. */
  function Push(w: World, l: nat, t: Job): World
    requires l < |w.loops|
  {
    w.(loops := w.loops[l := w.loops[l].(queue := w.loops[l].queue + [t])])
  }

  function Apply(w: World, s: Step): World
    requires Enabled(w, s)
  {
    match s
    case Accept(l, hasComplete) =>
      Accepted(w, l, Fresh(w.nextId, l, hasComplete))
    case Poll(c, events) =>
      var k := w.conns[c];
      Go(w, k.loop, k.(ch := k.ch.(pending := k.ch.pending + events)), [], [])
    case Handle(c, n, fault) => Handled(w, w.conns[c], n, fault)
    case Batch(l) => w.(loops := w.loops[l := Loop(w.loops[l].queue, [])])
    case Enter(l) => w.(loops := w.loops[l := w.loops[l].(todo := [Callback])])
    case Leave(l) => w.(loops := w.loops[l := w.loops[l].(todo := w.loops[l].todo[1..])])
    case Queue(l) => Push(w, l, Callback)
    case UserCall(l, c, call) =>
      var d := Called(w.conns[c], call);
      Go(w, l, d.c, w.loops[l].todo, d.queued)
    case OtherSend(c, data) => Push(w, w.conns[c].loop, SendIn(c, data))
    case Next(l, wrote) => Done(w, l, w.loops[l].todo[0], w.loops[l].todo[1..], wrote)
  }

  /** newConnection: the map gets the connection, and its loop is told. */
  function Accepted(w: World, l: nat, k: Conn): World
    requires l < |w.loops|
  {
    var w' := w.(server := w.server + {k.id}, nextId := w.nextId + 1);
    var told := Opening(k.id, l == SERVER);
    Go(w', l, Opened(k, l == SERVER), told.next + w.loops[l].todo, told.queued)
  }

  /** The channel's handleEvent, read before write; ev_invoke_pending has cleared the pending event. */
  function Handled(w: World, k: Conn, n: int, fault: bool): World
    requires k.loop < |w.loops|
  {
    var k' := k.(ch := k.ch.(pending := {}));
    var write := if WRITE in k.ch.pending then [Write(k.id)] else [];
    if READ !in k.ch.pending || (n < 0 && !fault) then Go(w, k.loop, k', write, [])
    else if n > 0 then Go(w, k.loop, k', [Callback] + write, [])
    else Go(w.(checks := w.checks && k.Open()), k.loop, Closing(k'), [Callback, Close(k.id)] + write, [])
  }

  function Called(k: Conn, call: Call): Did
    requires call.Send? ==> -1 <= call.wrote <= |call.data|
  {
    match call
    case Send(data, wrote) => if k.state.Connected? then Sent(k, data, wrote) else Did(k, [])
    case Shutdown => Did(ShutDown(k), [])
    case ForceCloseCall => ForceClosing(k)
    case ForceCloseWithDelay => Did(DelayedClosing(k), [])
    case SetHighWaterMark(mark) => Did(k.(hasHigh := true, highMark := mark), [])
  }

  /** Job t, taken off loop l's todo; `rest` is left. */
  function Done(w: World, l: nat, t: Job, rest: seq<Job>, wrote: int): World
    requires SERVER < |w.loops| && l < |w.loops| && !t.Callback? && t.c in w.conns && w.conns[t.c].loop < |w.loops|
    requires (t.SendIn? ==> -1 <= wrote <= |t.data|) && (t.Write? ==> -1 <= wrote <= |w.conns[t.c].out|)
  {
    var k := w.conns[t.c];
    match t
    case Write(_) => var d := Wrote(k, wrote); Go(w, l, d.c, rest, d.queued)
    case SendIn(_, data) => var d := Sent(k, data, wrote); Go(w, l, d.c, rest, d.queued)
    case WriteComplete(_) => Go(w, l, k, [Callback] + rest, [])
    case HighWater(_, _) => Go(w, l, k, [Callback] + rest, [])
    case Establish(_) => Go(w.(checks := w.checks && k.state.Connecting?), l, Established(k), [Callback] + rest, [])
    case ForceClose(_) =>
      if k.Open() then Go(w, l, Closing(k), [Callback, Close(k.id)] + rest, []) else Go(w, l, k, rest, [])
    case Close(_) =>
      var k' := k.(log := k.log + [Closed]);
      // removeConnection: runInLoop on the server's loop
      var told := RunInLoop(Remove(k.id), l == SERVER);
      var w' := Go(w, l, k', told.next + rest, []);
      if told.queued == [] then w' else Push(w', SERVER, told.queued[0])
    case Remove(_) =>
      var w' := w.(server := w.server - {k.id}, checks := w.checks && k.id in w.server);
      Push(Go(w', l, k, rest, []), k.loop, Destroy(k.id))
    case Destroy(_) =>
      var k' := Destroyed(k);
      var told := if k.state.Connected? then [Callback] else [];
      Go(w.(checks := w.checks && k'.ch.events == {}), l, k', told + rest, [])
  }

  // ---------- the invariant ----------

  /** How often loop l still has to do t. */
  ghost function Count(w: World, l: nat, t: Job): nat
    requires l < |w.loops|
  {
    multiset(w.loops[l].todo)[t] + multiset(w.loops[l].queue)[t]
  }

  ghost predicate Known(w: World) {
    && SERVER < |w.loops| && w.server <= w.conns.Keys
    && forall c :: c in w.conns ==> w.conns[c].id == c && c < w.nextId && w.conns[c].loop < |w.loops|
  }

  ghost predicate AllOk(w: World) {
    forall c :: c in w.conns ==> Ok(w.conns[c])
  }

  /** A job is where it belongs, and sending starts only once the connection is up. */
  ghost predicate PlacedAt(w: World, l: nat, t: Job) {
    t.Callback? ||
    (t.c in w.conns && (if t.Remove? then l == SERVER else l == w.conns[t.c].loop)
     && (t.SendIn? ==> !w.conns[t.c].state.Connecting?))
  }

  ghost predicate Placed(w: World) {
    forall l, t :: 0 <= l < |w.loops| && (t in w.loops[l].todo || t in w.loops[l].queue) ==> PlacedAt(w, l, t)
  }

  /** What is still to come for a connection, by what it has been through. */
  ghost predicate Tokens(w: World, c: Id)
    requires Known(w) && c in w.conns
  {
    var k := w.conns[c];
    && Count(w, k.loop, Establish(c)) == (if k.state.Connecting? then 1 else 0)
    && Count(w, k.loop, Close(c)) == (if Life(k.log) == [Up, Down] then 1 else 0)
    && Count(w, SERVER, Remove(c)) == (if Life(k.log) == [Up, Down, Closed] && c in w.server then 1 else 0)
    && (c in w.server <== Life(k.log) != [Up, Down, Closed])
    && Count(w, k.loop, Destroy(c)) <= (if c in w.server then 0 else 1)
  }

  ghost predicate AllTokens(w: World)
    requires Known(w)
  {
    forall c :: c in w.conns ==> Tokens(w, c)
  }

  ghost predicate Inv(w: World) {
    w.checks && Known(w) && AllOk(w) && Placed(w) && AllTokens(w)
  }

  // ---------- one change at a time ----------

  predicate About(s: seq<Job>, c: Id) {
    forall t :: t in s ==> t.Callback? || t.c == c
  }

  ghost predicate TokensBut(w: World, c: Id)
    requires Known(w)
  {
    forall d :: d in w.conns && d != c ==> Tokens(w, d)
  }

  /** Everything but what is still to come for c. */
  ghost predicate InvBut(w: World, c: Id) {
    w.checks && Known(w) && AllOk(w) && Placed(w) && TokensBut(w, c)
  }

  lemma GoCount(w: World, l: nat, k: Conn, popped: seq<Job>, front: seq<Job>, rest: seq<Job>, queued: seq<Job>,
                l': nat, t: Job)
    requires l < |w.loops| && l' < |w.loops| && w.loops[l].todo == popped + rest
    ensures var w' := Go(w, l, k, front + rest, queued);
            Count(w', l', t) + (if l' == l then multiset(popped)[t] else 0) ==
            Count(w, l', t) + (if l' == l then multiset(front)[t] + multiset(queued)[t] else 0)
  {
  }

  lemma PushCount(w: World, l: nat, x: Job, l': nat, t: Job)
    requires l < |w.loops| && l' < |w.loops|
    ensures Count(Push(w, l, x), l', t) == Count(w, l', t) + if l' == l && t == x then 1 else 0
  {
  }

  lemma NoneAbout(s: seq<Job>, c: Id, t: Job)
    requires About(s, c) && !t.Callback? && t.c != c
    ensures multiset(s)[t] == 0
  {
  }

  /** What is still to come for d depends on its own jobs only. */
  lemma TokensSame(w: World, w': World, d: Id)
    requires Known(w) && Known(w') && d in w.conns && d in w'.conns && Tokens(w, d) && |w.loops| == |w'.loops|
    requires w.conns[d].state == w'.conns[d].state && w.conns[d].loop == w'.conns[d].loop
    requires Life(w.conns[d].log) == Life(w'.conns[d].log)
    requires d in w.server <==> d in w'.server
    requires forall l, t: Job :: 0 <= l < |w.loops| && !t.Callback? && t.c == d ==> Count(w', l, t) == Count(w, l, t)
    ensures Tokens(w', d)
  {
    hide Count, Life;
  }

  lemma GoKeepsTokens(w: World, l: nat, k: Conn, popped: seq<Job>, front: seq<Job>, rest: seq<Job>, queued: seq<Job>)
    requires Known(w) && TokensBut(w, k.id) && l < |w.loops| && w.loops[l].todo == popped + rest
    requires k.id in w.conns && k.loop == w.conns[k.id].loop
    requires About(popped, k.id) && About(front, k.id) && About(queued, k.id)
    ensures var w' := Go(w, l, k, front + rest, queued); Known(w') && TokensBut(w', k.id)
  {
    hide Tokens, Count;
    var w' := Go(w, l, k, front + rest, queued);
    forall d | d in w'.conns && d != k.id
      ensures Tokens(w', d)
    {
      forall l', t: Job | 0 <= l' < |w.loops| && !t.Callback? && t.c == d
        ensures Count(w', l', t) == Count(w, l', t)
      {
        GoCount(w, l, k, popped, front, rest, queued, l', t);
        NoneAbout(popped, k.id, t);
        NoneAbout(front, k.id, t);
        NoneAbout(queued, k.id, t);
      }
      TokensSame(w, w', d);
    }
  }

  /** Jobs that may join loop l when the connection becomes k. */
  predicate Joins(k: Conn, l: nat, s: seq<Job>) {
    forall t :: t in s ==>
      t.Callback? || (t.c == k.id && (if t.Remove? then l == SERVER else l == k.loop) && !t.SendIn?)
  }

  lemma GoKeepsPlaced(w: World, l: nat, k: Conn, popped: seq<Job>, front: seq<Job>, rest: seq<Job>, queued: seq<Job>)
    requires Known(w) && Placed(w) && l < |w.loops| && w.loops[l].todo == popped + rest
    requires k.id in w.conns && k.loop == w.conns[k.id].loop
    requires (k.state.Connecting? ==> w.conns[k.id].state.Connecting?)
    requires Joins(k, l, front) && Joins(k, l, queued)
    ensures Placed(Go(w, l, k, front + rest, queued))
  {
    var w' := Go(w, l, k, front + rest, queued);
    forall l', t | 0 <= l' < |w'.loops| && (t in w'.loops[l'].todo || t in w'.loops[l'].queue)
      ensures PlacedAt(w', l', t)
    {
      if l' == l && (t in front || t in queued) {
      } else {
        assert t in w.loops[l'].todo || t in w.loops[l'].queue;
        assert PlacedAt(w, l', t);
      }
    }
  }

  lemma GoKeeps(w: World, l: nat, k: Conn, popped: seq<Job>, front: seq<Job>, rest: seq<Job>, queued: seq<Job>)
    requires InvBut(w, k.id) && l < |w.loops| && w.loops[l].todo == popped + rest
    requires k.id in w.conns && k.loop == w.conns[k.id].loop
    requires (k.state.Connecting? ==> w.conns[k.id].state.Connecting?)
    requires About(popped, k.id) && Joins(k, l, front) && Joins(k, l, queued) && Ok(k)
    ensures InvBut(Go(w, l, k, front + rest, queued), k.id)
  {
    hide Placed, TokensBut, Ok;
    GoKeepsTokens(w, l, k, popped, front, rest, queued);
    GoKeepsPlaced(w, l, k, popped, front, rest, queued);
  }

  lemma PushKeeps(w: World, l: nat, x: Job)
    requires !x.Callback? && InvBut(w, x.c) && l < |w.loops| && PlacedAt(w, l, x)
    ensures InvBut(Push(w, l, x), x.c)
  {
    hide Tokens, Count, Ok;
    var w' := Push(w, l, x);
    forall l', t | 0 <= l' < |w'.loops| && (t in w'.loops[l'].todo || t in w'.loops[l'].queue)
      ensures PlacedAt(w', l', t)
    {
      assert PlacedAt(w, l', t) || (l' == l && t == x);
    }
    forall d | d in w'.conns && d != x.c
      ensures Tokens(w', d)
    {
      forall l', t: Job | 0 <= l' < |w.loops| && !t.Callback? && t.c == d
        ensures Count(w', l', t) == Count(w, l', t)
      {
        PushCount(w, l, x, l', t);
      }
      TokensSame(w, w', d);
    }
  }

  predicate Plain(s: seq<Job>) {
    forall t :: t in s ==> !t.Establish? && !t.Close? && !t.Remove? && !t.Destroy?
  }

  /** A call that notifies nobody took a connection from k to k'. */
  ghost predicate Quiet(k: Conn, k': Conn) {
    && k'.id == k.id && k'.loop == k.loop && Life(k'.log) == Life(k.log)
    && (k'.state == k.state || (k.Open() && k'.state.Disconnecting?))
  }

  ghost predicate QuietDid(k: Conn, d: Did) {
    Ok(d.c) && Quiet(k, d.c) && Plain(d.queued) && Joins(d.c, k.loop, d.queued)
  }

  lemma SentQuiet(k: Conn, data: seq<Byte>, wrote: int)
    requires Ok(k) && !k.state.Connecting? && -1 <= wrote <= |data|
    ensures QuietDid(k, Sent(k, data, wrote))
  {
    hide Life, StreamOk, HalfCloseOk, InterestOk;
    SentOk(k, data, wrote);
  }

  lemma WroteQuiet(k: Conn, wrote: int)
    requires Ok(k) && -1 <= wrote <= |k.out|
    ensures QuietDid(k, Wrote(k, wrote))
  {
    hide Life, StreamOk, HalfCloseOk;
    WroteOk(k, wrote);
  }

  lemma CalledQuiet(k: Conn, call: Call)
    requires Ok(k) && (call.Send? ==> -1 <= call.wrote <= |call.data|)
    ensures QuietDid(k, Called(k, call))
  {
    hide Life, StreamOk, HalfCloseOk, InterestOk, Sent;
    match call
    case Send(data, wrote) => if k.state.Connected? { SentQuiet(k, data, wrote); }
    case Shutdown => ShutDownOk(k);
    case _ =>
      assert StreamOk(Called(k, call).c) by { StreamSame(k, Called(k, call).c); }
      assert InterestOk(Called(k, call).c) by { InterestSame(k, Called(k, call).c); }
      assert HalfCloseOk(Called(k, call).c) by { HalfCloseSame(k, Called(k, call).c); }
  }

  lemma StreamSame(k: Conn, k': Conn)
    requires StreamOk(k) && k'.log == k.log && k'.out == k.out && (k'.state.Connecting? ==> k.state.Connecting?)
    ensures StreamOk(k')
  {
    hide Given, Taken;
  }

  lemma InterestSame(k: Conn, k': Conn)
    requires InterestOk(k) && k'.ch == k.ch && k'.out == k.out && k'.Open() == k.Open()
    ensures InterestOk(k')
  {
  }

  lemma HalfCloseSame(k: Conn, k': Conn)
    requires HalfCloseOk(k) && k'.log == k.log && k'.out == k.out && Rank(k.state) <= Rank(k'.state)
    ensures HalfCloseOk(k')
  {
  }

  lemma InvApart(w: World, c: Id)
    requires Known(w) && c in w.conns
    ensures Inv(w) <==> InvBut(w, c) && Tokens(w, c)
  {
    hide Tokens, Placed, AllOk;
  }

  predicate IsToken(t: Job) {
    t.Establish? || t.Close? || t.Remove? || t.Destroy?
  }

  lemma PlainCount(s: seq<Job>, t: Job)
    requires Plain(s) && IsToken(t)
    ensures multiset(s)[t] == 0
  {
  }

  lemma TokensQuiet(w: World, w': World, c: Id)
    requires Known(w) && Known(w') && c in w.conns && c in w'.conns && Tokens(w, c) && |w.loops| == |w'.loops|
    requires Quiet(w.conns[c], w'.conns[c]) && w'.server == w.server
    requires forall l, t: Job :: 0 <= l < |w.loops| && IsToken(t) ==> Count(w', l, t) == Count(w, l, t)
    ensures Tokens(w', c)
  {
    hide Count, Life;
  }

  /** A call that notifies nobody keeps the invariant. */
  lemma GoQuiet(w: World, l: nat, k: Conn, popped: seq<Job>, front: seq<Job>, rest: seq<Job>, queued: seq<Job>)
    requires Inv(w) && l < |w.loops| && w.loops[l].todo == popped + rest
    requires k.id in w.conns && Quiet(w.conns[k.id], k) && Ok(k)
    requires About(popped, k.id) && Joins(k, l, front) && Joins(k, l, queued)
    requires Plain(popped) && Plain(front) && Plain(queued)
    ensures Inv(Go(w, l, k, front + rest, queued))
  {
    hide Placed, TokensBut, AllTokens, Tokens, Ok, Count, Life, Plain, Joins, About;
    var w' := Go(w, l, k, front + rest, queued);
    InvApart(w, k.id);
    GoKeeps(w, l, k, popped, front, rest, queued);
    forall l', t: Job | 0 <= l' < |w.loops| && IsToken(t)
      ensures Count(w', l', t) == Count(w, l', t)
    {
      GoCount(w, l, k, popped, front, rest, queued, l', t);
      PlainCount(popped, t);
      PlainCount(front, t);
      PlainCount(queued, t);
    }
    TokensQuiet(w, w', k.id);
    InvApart(w', k.id);
  }

  // ---------- the steps that notify ----------

  lemma EstablishKeeps(w: World, l: nat, rest: seq<Job>, c: Id)
    requires Inv(w) && l < |w.loops| && w.loops[l].todo == [Establish(c)] + rest && c in w.conns
    ensures w.conns[c].state.Connecting? && Inv(Go(w, l, Established(w.conns[c]), [Callback] + rest, []))
  {
    hide Placed, TokensBut, AllTokens, Ok, Count, Life, Given, Taken;
    assert PlacedAt(w, l, Establish(c)) by { PlacedHead(w, l); }
    InvApart(w, c);
    assert Count(w, l, Establish(c)) > 0 by { HeadCounts(w, l); }
    var k := Established(w.conns[c]);
    EstablishedOk(w.conns[c]);
    GoKeeps(w, l, k, [Establish(c)], [Callback], rest, []);
    var w' := Go(w, l, k, [Callback] + rest, []);
    forall l', t: Job | 0 <= l' < |w.loops| && IsToken(t) && t.c == c
      ensures Count(w', l', t) == if l' == l && t.Establish? then Count(w, l', t) - 1 else Count(w, l', t)
    {
      GoCount(w, l, k, [Establish(c)], [Callback], rest, [], l', t);
    }
    OkParts(w.conns[c]);
    OkParts(k);
    assert Tokens(w', c);
    InvApart(w', c);
  }

  lemma PlacedHead(w: World, l: nat)
    requires Placed(w) && l < |w.loops| && w.loops[l].todo != []
    ensures PlacedAt(w, l, w.loops[l].todo[0])
  {
    assert w.loops[l].todo[0] in w.loops[l].todo;
  }

  lemma HeadCounts(w: World, l: nat)
    requires l < |w.loops| && w.loops[l].todo != []
    ensures Count(w, l, w.loops[l].todo[0]) > 0
  {
    assert w.loops[l].todo[0] in multiset(w.loops[l].todo);
  }

  /** handleClose: close_cb_ is still to come. */
  lemma ClosingKeeps(w: World, l: nat, popped: seq<Job>, rest: seq<Job>, more: seq<Job>, k: Conn)
    requires Inv(w) && k.id in w.conns && l == k.loop && l < |w.loops| && w.loops[l].todo == popped + rest
    requires k.Open() && Ok(k) && Quiet(w.conns[k.id], k)
    requires About(popped, k.id) && Plain(popped) && Plain(more) && Joins(Closing(k), l, more)
    ensures Inv(Go(w, l, Closing(k), [Callback, Close(k.id)] + more + rest, []))
  {
    hide Placed, TokensBut, AllTokens, Ok, Count, Life, About, Plain, Given, Taken;
    var c := k.id;
    InvApart(w, c);
    ClosingOk(k);
    var front := [Callback, Close(c)] + more;
    GoKeeps(w, l, Closing(k), popped, front, rest, []);
    var w' := Go(w, l, Closing(k), front + rest, []);
    forall l', t: Job | 0 <= l' < |w.loops| && IsToken(t) && t.c == c
      ensures Count(w', l', t) == if l' == l && t.Close? then Count(w, l', t) + 1 else Count(w, l', t)
    {
      GoCount(w, l, Closing(k), popped, front, rest, [], l', t);
      PlainCount(popped, t);
      PlainCount(more, t);
    }
    assert LifeOk(k) by { OkParts(k); }
    assert LifeOk(Closing(k)) by { OkParts(Closing(k)); }
    assert Life(k.log) == [Up] && Life(Closing(k).log) == [Up, Down] by { Noted(k.log, Down); }
    assert Tokens(w', c);
    InvApart(w', c);
  }

  lemma OkParts(k: Conn)
    requires Ok(k)
    ensures LifeOk(k) && InterestOk(k) && StreamOk(k) && HalfCloseOk(k)
  {
  }

  /** close_cb_: the server is told, at once or through its loop's queue. */
  lemma CloseKeeps(w: World, l: nat, rest: seq<Job>, c: Id)
    requires Inv(w) && l < |w.loops| && w.loops[l].todo == [Close(c)] + rest && c in w.conns
    requires w.conns[c].loop == l
    ensures Inv(Done(w, l, Close(c), rest, 0))
  {
    hide Placed, TokensBut, AllTokens, Ok, Count, Life, Given, Taken, PlacedAt;
    InvApart(w, c);
    assert Count(w, l, Close(c)) > 0 by { HeadCounts(w, l); }
    var k := w.conns[c];
    var k' := k.(log := k.log + [Closed]);
    assert Life(k.log) == [Up, Down];
    OkParts(k);
    ClosedOk(k);
    var front := RunInLoop(Remove(c), l == SERVER).next;
    GoKeeps(w, l, k', [Close(c)], front, rest, []);
    var w' := Go(w, l, k', front + rest, []);
    var done := Done(w, l, Close(c), rest, 0);
    assert done == if l == SERVER then w' else Push(w', SERVER, Remove(c));
    if l != SERVER {
      assert PlacedAt(w', SERVER, Remove(c)) by { RemovePlaced(w', c); }
      PushKeeps(w', SERVER, Remove(c));
    }
    forall l', t: Job | 0 <= l' < |w.loops| && IsToken(t) && t.c == c
      ensures Count(done, l', t) == Count(w, l', t) + (if l' == SERVER && t.Remove? then 1 else 0)
                                    - (if l' == l && t.Close? then 1 else 0)
    {
      GoCount(w, l, k', [Close(c)], front, rest, [], l', t);
      if l != SERVER {
        PushCount(w', SERVER, Remove(c), l', t);
      }
    }
    assert Tokens(done, c);
    InvApart(done, c);
  }

  lemma RemovePlaced(w: World, c: Id)
    requires c in w.conns
    ensures PlacedAt(w, SERVER, Remove(c))
  {
  }

  lemma DestroyPlaced(w: World, c: Id)
    requires c in w.conns
    ensures PlacedAt(w, w.conns[c].loop, Destroy(c))
  {
  }

  /** removeConnectionInLoop finds the connection in the map. */
  lemma RemoveKeeps(w: World, rest: seq<Job>, c: Id)
    requires Inv(w) && SERVER < |w.loops| && w.loops[SERVER].todo == [Remove(c)] + rest && c in w.conns
    ensures c in w.server && Inv(Done(w, SERVER, Remove(c), rest, 0))
  {
    hide Placed, TokensBut, AllTokens, Ok, Count, Life, PlacedAt;
    InvApart(w, c);
    assert Count(w, SERVER, Remove(c)) > 0 by { HeadCounts(w, SERVER); }
    var k := w.conns[c];
    assert Life(k.log) == [Up, Down, Closed] && c in w.server;
    var w0 := w.(server := w.server - {c});
    assert InvBut(w0, c) by { ServerBut(w, c); }
    GoKeeps(w0, SERVER, k, [Remove(c)], [], rest, []);
    assert [] + rest == rest;
    var w' := Go(w0, SERVER, k, rest, []);
    assert PlacedAt(w', k.loop, Destroy(c)) by { DestroyPlaced(w', c); }
    PushKeeps(w', k.loop, Destroy(c));
    var done := Done(w, SERVER, Remove(c), rest, 0);
    assert done == Push(w', k.loop, Destroy(c));
    forall l', t: Job | 0 <= l' < |w.loops| && IsToken(t) && t.c == c
      ensures Count(done, l', t) == Count(w, l', t) + (if l' == k.loop && t.Destroy? then 1 else 0)
                                    - (if l' == SERVER && t.Remove? then 1 else 0)
    {
      assert Count(w0, l', t) == Count(w, l', t) by { ServerCount(w, w.server - {c}, l', t); }
      GoCount(w0, SERVER, k, [Remove(c)], [], rest, [], l', t);
      PushCount(w', k.loop, Destroy(c), l', t);
    }
    assert Tokens(done, c);
    InvApart(done, c);
  }

  lemma ServerCount(w: World, server: set<Id>, l: nat, t: Job)
    requires l < |w.loops|
    ensures Count(w.(server := server), l, t) == Count(w, l, t)
  {
  }

  lemma ServerBut(w: World, c: Id)
    requires InvBut(w, c) && c in w.conns
    ensures InvBut(w.(server := w.server - {c}), c)
  {
    hide Ok, Life, Tokens, Count, PlacedAt;
    var w' := w.(server := w.server - {c});
    forall l, t | 0 <= l < |w'.loops| && (t in w'.loops[l].todo || t in w'.loops[l].queue)
      ensures PlacedAt(w', l, t)
    {
      assert PlacedAt(w, l, t);
      assert PlacedAt(w', l, t) by { PlacedSame(w, w', l, t); }
    }
    forall d | d in w'.conns && d != c
      ensures Tokens(w', d)
    {
      forall l, t: Job | 0 <= l < |w.loops|
        ensures Count(w', l, t) == Count(w, l, t)
      {
        ServerCount(w, w.server - {c}, l, t);
      }
      TokensSame(w, w', d);
    }
  }

  lemma PlacedSame(w: World, w': World, l: nat, t: Job)
    requires PlacedAt(w, l, t) && w'.conns == w.conns
    ensures PlacedAt(w', l, t)
  {
  }

  /** connectDestroyed finds the connection disconnected, its channel quiet. */
  lemma DestroyKeeps(w: World, l: nat, rest: seq<Job>, c: Id)
    requires Inv(w) && l < |w.loops| && w.loops[l].todo == [Destroy(c)] + rest && c in w.conns && w.conns[c].loop == l
    ensures w.conns[c].state.Disconnected? && Destroyed(w.conns[c]) == w.conns[c]
    ensures Inv(Done(w, l, Destroy(c), rest, 0))
  {
    hide Placed, TokensBut, AllTokens, Ok, Count, Life, PlacedAt;
    InvApart(w, c);
    assert Count(w, l, Destroy(c)) > 0 by { HeadCounts(w, l); }
    var k := w.conns[c];
    OkParts(k);
    assert c !in w.server && Life(k.log) == [Up, Down, Closed];
    assert [] + rest == rest;
    GoKeeps(w, l, k, [Destroy(c)], [], rest, []);
    var w' := Go(w, l, k, rest, []);
    forall l', t: Job | 0 <= l' < |w.loops| && IsToken(t) && t.c == c
      ensures Count(w', l', t) == Count(w, l', t) - if l' == l && t.Destroy? then 1 else 0
    {
      GoCount(w, l, k, [Destroy(c)], [], rest, [], l', t);
    }
    assert Tokens(w', c);
    InvApart(w', c);
  }

  // ---------- the other steps ----------

  /** Only the loops change, and each still has the same to do. */
  lemma SameWork(w: World, w': World)
    requires Inv(w) && w' == w.(loops := w'.loops) && |w'.loops| == |w.loops|
    requires forall l, t: Job :: 0 <= l < |w.loops| && !t.Callback? ==> Count(w', l, t) == Count(w, l, t)
    ensures Inv(w')
  {
    hide Ok, Life, Tokens, Count, PlacedAt;
    forall l, t | 0 <= l < |w'.loops| && (t in w'.loops[l].todo || t in w'.loops[l].queue)
      ensures PlacedAt(w', l, t)
    {
      if t.Callback? {
        assert PlacedAt(w', l, t) by { CallbackPlaced(w', l); }
      } else {
        CountIn(w', l, t);
        CountIn(w, l, t);
        assert PlacedAt(w, l, t);
        PlacedSame(w, w', l, t);
      }
    }
    forall d | d in w'.conns
      ensures Tokens(w', d)
    {
      TokensSame(w, w', d);
    }
  }

  lemma CountIn(w: World, l: nat, t: Job)
    requires l < |w.loops|
    ensures Count(w, l, t) > 0 <==> t in w.loops[l].todo || t in w.loops[l].queue
  {
    assert t in w.loops[l].todo <==> t in multiset(w.loops[l].todo);
    assert t in w.loops[l].queue <==> t in multiset(w.loops[l].queue);
  }

  lemma CallbackPlaced(w: World, l: nat)
    ensures PlacedAt(w, l, Callback)
  {
  }

  lemma LeaveCount(w: World, w': World, l: nat, l': nat, t: Job)
    requires InCallback(w, l) && w' == Apply(w, Leave(l)) && l' < |w.loops| && !t.Callback?
    ensures Count(w', l', t) == Count(w, l', t)
  {
    var todo := w.loops[l].todo;
    assert todo == [Callback] + todo[1..];
  }

  lemma LoopStepKeeps(w: World, s: Step)
    requires Inv(w) && Enabled(w, s) && (s.Batch? || s.Enter? || s.Leave? || s.Queue?)
    ensures Inv(Apply(w, s))
  {
    hide Inv;
    var w' := Apply(w, s);
    forall l, t: Job | 0 <= l < |w.loops| && !t.Callback?
      ensures Count(w', l, t) == Count(w, l, t)
    {
      if s.Leave? {
        LeaveCount(w, w', s.l, l, t);
      }
    }
    SameWork(w, w');
  }

  /** A new connection is nobody's business yet. */
  lemma Made(w: World, k: Conn)
    requires Inv(w) && k.id == w.nextId && k.loop < |w.loops| && Ok(k)
    ensures k.id !in w.conns
    ensures var w' := w.(server := w.server + {k.id}, nextId := w.nextId + 1, conns := w.conns[k.id := k]);
            && InvBut(w', k.id)
            && forall l, t: Job :: 0 <= l < |w.loops| && !t.Callback? && t.c == k.id ==> Count(w', l, t) == 0
  {
    hide Ok, Life, Tokens, Count;
    var w' := w.(server := w.server + {k.id}, nextId := w.nextId + 1, conns := w.conns[k.id := k]);
    forall l, t | 0 <= l < |w'.loops| && (t in w'.loops[l].todo || t in w'.loops[l].queue)
      ensures PlacedAt(w', l, t)
    {
      assert PlacedAt(w, l, t);
    }
    forall l, t: Job | 0 <= l < |w.loops| && !t.Callback? && t.c == k.id
      ensures Count(w', l, t) == 0
    {
      CountIn(w', l, t);
      assert t in w.loops[l].todo || t in w.loops[l].queue ==> PlacedAt(w, l, t);
    }
    forall d | d in w'.conns && d != k.id
      ensures Tokens(w', d)
    {
      forall l, t: Job | 0 <= l < |w.loops|
        ensures Count(w', l, t) == Count(w, l, t)
      {
        MadeCount(w, w', l, t);
      }
      TokensSame(w, w', d);
    }
  }

  lemma MadeCount(w: World, w': World, l: nat, t: Job)
    requires w'.loops == w.loops && l < |w.loops|
    ensures Count(w', l, t) == Count(w, l, t)
  {
  }

  lemma AcceptKeeps(w: World, l: nat, k: Conn)
    requires Inv(w) && Idle(w, SERVER) && l < |w.loops|
    requires k.id == w.nextId && k.loop == l && k.state.Connecting? && Ok(k)
    ensures Inv(Accepted(w, l, k))
  {
    hide Placed, TokensBut, AllTokens, Ok, Count, Life, Given, Taken, PlacedAt;
    Made(w, k);
    var w0 := w.(server := w.server + {k.id}, nextId := w.nextId + 1, conns := w.conns[k.id := k]);
    var todo := w.loops[l].todo;
    var k', front, queued := k, [], [Establish(k.id)];
    if l == SERVER {
      k', front, queued := Established(k), [Callback], [];
      EstablishedOk(k);
    }
    assert w0.loops[l].todo == [] + todo;
    GoKeeps(w0, l, k', [], front, todo, queued);
    var w' := Go(w0, l, k', front + todo, queued);
    assert w0.conns[k.id := k'] == w.conns[k.id := k'];
    assert w' == Accepted(w, l, k);
    forall l', t: Job | 0 <= l' < |w.loops| && IsToken(t) && t.c == k.id
      ensures Count(w', l', t) == if l' == l && l != SERVER && t.Establish? then 1 else 0
    {
      GoCount(w0, l, k', [], front, todo, queued, l', t);
    }
    OkParts(k');
    assert Tokens(w', k.id);
    InvApart(w', k.id);
  }

  lemma SendKeeps(w: World, c: Id, data: seq<Byte>)
    requires Inv(w) && c in w.conns && !w.conns[c].state.Connecting? && w.conns[c].loop < |w.loops|
    ensures Inv(Push(w, w.conns[c].loop, SendIn(c, data)))
  {
    hide Placed, TokensBut, AllTokens, Ok, Count, Life, Tokens;
    var l := w.conns[c].loop;
    var x := SendIn(c, data);
    InvApart(w, c);
    PushKeeps(w, l, x);
    var w' := Push(w, l, x);
    forall l', t: Job | 0 <= l' < |w.loops| && IsToken(t)
      ensures Count(w', l', t) == Count(w, l', t)
    {
      PushCount(w, l, x, l', t);
    }
    TokensQuiet(w, w', c);
    InvApart(w', c);
  }

  lemma PendingOpen(k: Conn)
    requires Ok(k) && (k.ch.pending != {} || k.ch.active)
    ensures k.Open()
  {
    hide LifeOk, StreamOk, HalfCloseOk;
  }

  /** A change of the pending events only. */
  lemma PendingQuiet(k: Conn, events: Events)
    requires Ok(k) && events <= k.ch.armed
    ensures var k' := k.(ch := k.ch.(pending := events)); Ok(k') && Quiet(k, k')
  {
    hide Life, Given, Taken;
    var k' := k.(ch := k.ch.(pending := events));
    OkParts(k);
    StreamSame(k, k');
    HalfCloseSame(k, k');
  }

  lemma HandleKeeps(w: World, k: Conn, n: int, fault: bool)
    requires Inv(w) && k.id in w.conns && w.conns[k.id] == k && Idle(w, k.loop) && k.ch.pending != {}
    ensures k.Open() && Inv(Handled(w, k, n, fault))
  {
    hide Placed, TokensBut, AllTokens, Ok, Count, Life, Given, Taken, PlacedAt;
    assert Ok(k);
    PendingOpen(k);
    PendingQuiet(k, {});
    var l, k' := k.loop, k.(ch := k.ch.(pending := {}));
    var write := if WRITE in k.ch.pending then [Write(k.id)] else [];
    assert w.loops[l].todo == [] + [];
    if READ !in k.ch.pending || (n < 0 && !fault) {
      assert write + [] == write;
      GoQuiet(w, l, k', [], write, [], []);
    } else if n > 0 {
      assert [Callback] + write + [] == [Callback] + write;
      GoQuiet(w, l, k', [], [Callback] + write, [], []);
    } else {
      var front := [Callback, Close(k.id)] + write;
      assert front + [] == front;
      ClosingKeeps(w, l, [], [], write, k');
    }
  }

  /** The job at the head of a loop's work, when it is not one that notifies. */
  lemma PlainJobKeeps(w: World, l: nat, t: Job, rest: seq<Job>, wrote: int)
    requires Inv(w) && Enabled(w, Next(l, wrote)) && w.loops[l].todo == [t] + rest && t == w.loops[l].todo[0]
    requires !IsToken(t) && !t.ForceClose?
    ensures Inv(Done(w, l, t, rest, wrote))
  {
    hide Placed, TokensBut, AllTokens, Ok, Count, Life, Given, Taken;
    PlacedHead(w, l);
    var k := w.conns[t.c];
    assert Ok(k);
    var front: seq<Job>, d := [], Did(k, []);
    match t {
      case Write(_) => d := Wrote(k, wrote); WroteQuiet(k, wrote);
      case SendIn(_, data) => d := Sent(k, data, wrote); SentQuiet(k, data, wrote);
      case _ => front := [Callback];
    }
    assert [] + rest == rest;
    GoQuiet(w, l, d.c, [t], front, rest, d.queued);
  }

  lemma ForceCloseKeeps(w: World, l: nat, rest: seq<Job>, c: Id)
    requires Inv(w) && l < |w.loops| && w.loops[l].todo == [ForceClose(c)] + rest
    requires c in w.conns && w.conns[c].loop == l
    requires SERVER < |w.loops|
    ensures Inv(Done(w, l, ForceClose(c), rest, 0))
  {
    hide Placed, TokensBut, AllTokens, Ok, Count, Life, Given, Taken;
    var k := w.conns[c];
    assert Ok(k);
    assert [] + rest == rest;
    var front := [Callback, Close(c)];
    assert front + [] + rest == front + rest;
    if k.Open() {
      ClosingKeeps(w, l, [ForceClose(c)], rest, [], k);
    } else {
      GoQuiet(w, l, k, [ForceClose(c)], [], rest, []);
    }
  }

  lemma NextKeeps(w: World, l: nat, wrote: int)
    requires Inv(w) && Enabled(w, Next(l, wrote))
    ensures Inv(Apply(w, Next(l, wrote)))
  {
    hide Placed, TokensBut, AllTokens, Ok, Count, Life, Given, Taken;
    PlacedHead(w, l);
    var t, rest := w.loops[l].todo[0], w.loops[l].todo[1..];
    assert w.loops[l].todo == [t] + rest;
    hide Inv;
    match t
    case Establish(c) => EstablishKeeps(w, l, rest, c);
    case Close(c) => CloseKeeps(w, l, rest, c);
    case Remove(c) => RemoveKeeps(w, rest, c);
    case Destroy(c) => DestroyKeeps(w, l, rest, c);
    case ForceClose(c) => ForceCloseKeeps(w, l, rest, c);
    case _ => PlainJobKeeps(w, l, t, rest, wrote);
  }

  lemma StepKeepsInv(w: World, s: Step)
    requires Inv(w) && Enabled(w, s)
    ensures Inv(Apply(w, s))
  {
    hide Placed, TokensBut, AllTokens, Ok, Count, Life, Given, Taken, Done, Handled, Accepted, Called;
    match s
    case Accept(l, hasComplete) =>
      var k := Fresh(w.nextId, l, hasComplete);
      assert Ok(k) by { FreshOk(k); }
      AcceptKeeps(w, l, k);
    case Poll(c, events) =>
      var k := w.conns[c];
      assert Ok(k) && InterestOk(k) by { OkParts(k); }
      PendingQuiet(k, k.ch.pending + events);
      GoQuiet(w, k.loop, k.(ch := k.ch.(pending := k.ch.pending + events)), [], [], [], []);
    case Handle(c, n, fault) => HandleKeeps(w, w.conns[c], n, fault);
    case UserCall(l, c, call) =>
      var k := w.conns[c];
      assert Ok(k);
      CalledQuiet(k, call);
      var d := Called(k, call);
      var todo := w.loops[l].todo;
      assert [] + todo == todo;
      GoQuiet(w, l, d.c, [], [], todo, d.queued);
    case OtherSend(c, data) => SendKeeps(w, c, data);
    case Next(l, wrote) => NextKeeps(w, l, wrote);
    case _ => LoopStepKeeps(w, s);
  }

  lemma FreshOk(k: Conn)
    requires k.state.Connecting? && k.ch == IDLE && k.out == [] && k.log == []
    ensures Ok(k)
  {
  }
}
