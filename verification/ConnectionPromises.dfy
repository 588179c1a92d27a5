/** What the calls on a connection lead to, read off the steps of a run: which bytes are sent, that a shutdown
    ends in a half-close, when the state moves, and who is told what. */
module ConnectionPromises {
  import opened Network
  import opened Watchers
  import opened Tcp
  import opened Connections
  import opened ConnectionRuns

  // ---------- the bytes ----------

  /** The job a loop is about to do. */
  ghost predicate Does(w: World, s: Step, t: Job) {
    s.Next? && s.l < |w.loops| && w.loops[s.l].todo != [] && w.loops[s.l].todo[0] == t
  }

  /** The message this step gives to c: from a callback while c is connected, or out of the queue while it is
      not disconnected. */
  ghost function Message(w: World, s: Step, c: Id): seq<Byte>
    requires Enabled(w, s) && c in w.conns
  {
    match s
    case UserCall(_, d, Send(data, _)) => if d == c && w.conns[c].state.Connected? then data else []
    case Next(l, _) =>
      var t := w.loops[l].todo[0];
      if t.SendIn? && t.c == c && !w.conns[c].state.Disconnected? then t.data else []
    case _ => []
  }

  /** The bytes of the socket's write in this step: of the message if nothing is buffered, else of the buffer. */
  ghost function Took(w: World, s: Step, c: Id): seq<Byte>
    requires Enabled(w, s) && c in w.conns
  {
    var k := w.conns[c];
    match s
    case UserCall(_, _, Send(data, wrote)) =>
      if Message(w, s, c) != [] && k.out == [] && wrote > 0 then data[..wrote] else []
    case Next(l, wrote) =>
      var t := w.loops[l].todo[0];
      if Message(w, s, c) != [] && k.out == [] && wrote > 0 then t.data[..wrote]
      else if t == Write(c) && k.Open() && k.out != [] && wrote > 0 then k.out[..wrote]
      else []
    case _ => []
  }

  ghost function Messages(worlds: seq<World>, steps: seq<Step>, i: nat, c: Id): seq<Byte>
    requires IsRun(worlds, steps) && i < |worlds|
  {
    if i == 0 then [] else
    Messages(worlds, steps, i - 1, c) +
    if c in worlds[i - 1].conns then Message(worlds[i - 1], steps[i - 1], c) else []
  }

  ghost function TookAll(worlds: seq<World>, steps: seq<Step>, i: nat, c: Id): seq<Byte>
    requires IsRun(worlds, steps) && i < |worlds|
  {
    if i == 0 then [] else
    TookAll(worlds, steps, i - 1, c) +
    if c in worlds[i - 1].conns then Took(worlds[i - 1], steps[i - 1], c) else []
  }

  lemma SentGives(k: Conn, data: seq<Byte>, wrote: int)
    requires Ok(k) && !k.state.Connecting? && -1 <= wrote <= |data|
    ensures var log := Sent(k, data, wrote).c.log;
            && Given(log) == Given(k.log) + (if k.Open() then data else [])
            && Taken(log) == Taken(k.log) + (if k.Open() && k.out == [] && wrote > 0 then data[..wrote] else [])
  {
    hide Given, Taken, Life, LifeOk, StreamOk, HalfCloseOk;
    Noted(k.log, Gave(data));
    Noted(k.log + [Gave(data)], Tried(data[..if wrote >= 0 then wrote else 0]));
  }

  lemma WroteGives(k: Conn, wrote: int)
    requires Ok(k) && -1 <= wrote <= |k.out|
    ensures var log := Wrote(k, wrote).c.log;
            && Given(log) == Given(k.log)
            && Taken(log) == Taken(k.log) + (if k.Open() && k.out != [] && wrote > 0 then k.out[..wrote] else [])
  {
    hide Given, Taken, Life, LifeOk, StreamOk, HalfCloseOk;
    var x := Tried(k.out[..if wrote >= 0 then wrote else 0]);
    Noted(k.log, x);
    Noted(k.log + [x], ShutWrite);
  }

  lemma CalledGives(k: Conn, call: Call)
    requires Ok(k) && (call.Send? ==> -1 <= call.wrote <= |call.data|)
    ensures var log := Called(k, call).c.log;
            var sends := call.Send? && k.state.Connected?;
            && Given(log) == Given(k.log) + (if sends then call.data else [])
            && Taken(log) == Taken(k.log) +
               (if sends && k.out == [] && call.wrote > 0 then call.data[..call.wrote] else [])
  {
    hide Given, Taken, Life, Ok, Sent;
    Noted(k.log, ShutWrite);
    if call.Send? && k.state.Connected? {
      SentGives(k, call.data, call.wrote);
    }
  }

  lemma DoneGives(w: World, l: nat, wrote: int, c: Id)
    requires Inv(w) && Enabled(w, Next(l, wrote)) && c in w.conns && c in Apply(w, Next(l, wrote)).conns
    ensures var s := Next(l, wrote);
            && Given(Apply(w, s).conns[c].log) == Given(w.conns[c].log) + Message(w, s, c)
            && Taken(Apply(w, s).conns[c].log) == Taken(w.conns[c].log) + Took(w, s, c)
  {
    hide Given, Taken, Life, Ok, Placed, AllTokens, Sent, Wrote;
    var t, k := w.loops[l].todo[0], w.conns[c];
    HeadState(w, l);
    assert PlacedAt(w, l, t) by { PlacedHead(w, l); }
    assert Ok(k) && Ok(w.conns[t.c]);
    Noted(k.log, Down);
    Noted(k.log, Up);
    Noted(k.log, Closed);
    match t
    case SendIn(d, data) =>
      SentGives(w.conns[d], data, wrote);
      SentLater(w.conns[d], data, wrote);
    case Write(d) =>
      WroteGives(w.conns[d], wrote);
      WroteLater(w.conns[d], wrote);
    case _ =>
  }

  lemma StepGives(w: World, s: Step, c: Id)
    requires Inv(w) && Enabled(w, s) && c in w.conns && c in Apply(w, s).conns
    ensures Given(Apply(w, s).conns[c].log) == Given(w.conns[c].log) + Message(w, s, c)
    ensures Taken(Apply(w, s).conns[c].log) == Taken(w.conns[c].log) + Took(w, s, c)
  {
    hide Given, Taken, Life, Ok, Placed, AllTokens, Called, Done;
    var k := w.conns[c];
    assert Ok(k);
    Noted(k.log, Down);
    match s
    case UserCall(l, d, call) =>
      CalledGives(w.conns[d], call);
      CalledLater(w.conns[d], call);
    case Next(l, wrote) => DoneGives(w, l, wrote, c);
    case _ =>
  }

  lemma DoneMakes(w: World, l: nat, wrote: int, c: Id)
    requires Inv(w) && Enabled(w, Next(l, wrote)) && c !in w.conns
    ensures c !in Apply(w, Next(l, wrote)).conns
  {
    hide Sent, Wrote, Ok, Placed, AllTokens;
    var t := w.loops[l].todo[0];
    match t
    case SendIn(d, data) => SentLater(w.conns[d], data, wrote);
    case Write(d) => WroteLater(w.conns[d], wrote);
    case _ =>
  }

  /** Only an accept makes a connection. */
  lemma OnlyAcceptMakes(w: World, s: Step, c: Id)
    requires Inv(w) && Enabled(w, s) && c !in w.conns && c in Apply(w, s).conns
    ensures s.Accept? && c == w.nextId
  {
    hide Ok, Placed, AllTokens, Called, Done;
    match s
    case UserCall(l, d, call) => CalledLater(w.conns[d], call);
    case Next(l, wrote) => DoneMakes(w, l, wrote, c);
    case _ =>
  }

  /** A connection starts with nothing given and nothing taken. */
  lemma MadeGives(w: World, s: Step, c: Id)
    requires Inv(w) && Enabled(w, s) && c !in w.conns && c in Apply(w, s).conns
    ensures Given(Apply(w, s).conns[c].log) == [] && Taken(Apply(w, s).conns[c].log) == []
  {
    hide Inv, Enabled, Apply, Given, Taken, Life;
    OnlyAcceptMakes(w, s, c);
    MadeLog(w, s.l, s.hasComplete);
    GivenNone();
    Noted([], Up);
  }

  lemma GivenNone()
    ensures Given([]) == [] && Taken([]) == []
  {
  }

  lemma MadeLog(w: World, l: nat, hasComplete: bool)
    requires Enabled(w, Accept(l, hasComplete))
    ensures w.nextId in Apply(w, Accept(l, hasComplete)).conns
    ensures var log := Apply(w, Accept(l, hasComplete)).conns[w.nextId].log; log == [] || log == [] + [Up]
  {
  }

  /** What the socket took of c's bytes, write by write, and then its buffer are the messages of the run, in
      the order in which they reached sendInLoop. */
  lemma {:induction false} MessagesAreTaken(worlds: seq<World>, steps: seq<Step>, i: nat, c: Id)
    requires IsRun(worlds, steps) && i < |worlds|
    ensures c !in worlds[i].conns ==> Messages(worlds, steps, i, c) == [] && TookAll(worlds, steps, i, c) == []
    ensures c in worlds[i].conns ==>
              && Given(worlds[i].conns[c].log) == Messages(worlds, steps, i, c)
              && Taken(worlds[i].conns[c].log) == TookAll(worlds, steps, i, c)
              && TookAll(worlds, steps, i, c) + worlds[i].conns[c].out == Messages(worlds, steps, i, c)
  {
    hide Inv, Enabled, Apply, Given, Taken, Message, Took;
    if i > 0 {
      MessagesAreTaken(worlds, steps, i - 1, c);
      RunInv(worlds, steps, i - 1);
      if c in worlds[i - 1].conns {
        RunLater(worlds, steps, i - 1, i, c);
        StepGives(worlds[i - 1], steps[i - 1], c);
      } else if c in worlds[i].conns {
        MadeGives(worlds[i - 1], steps[i - 1], c);
      }
    }
    if c in worlds[i].conns {
      StreamConserved(worlds, steps, i, c);
    }
  }

  // ---------- shutdown ----------

  /** The sending side is shut down, or will be as soon as the buffer is drained. */
  ghost predicate Finishing(k: Conn) {
    k.state.Disconnected? || (k.state.Disconnecting? && (k.out == [] ==> ShutWrite in k.log))
  }

  lemma SentFinishes(k: Conn, data: seq<Byte>, wrote: int)
    requires Ok(k) && Finishing(k) && -1 <= wrote <= |data|
    ensures Finishing(Sent(k, data, wrote).c)
  {
    hide LifeOk, StreamOk, HalfCloseOk;
  }

  lemma WroteFinishes(k: Conn, wrote: int)
    requires Ok(k) && Finishing(k) && -1 <= wrote <= |k.out|
    ensures Finishing(Wrote(k, wrote).c)
  {
    hide LifeOk, StreamOk, HalfCloseOk;
  }

  lemma CalledFinishes(k: Conn, call: Call)
    requires Ok(k) && (call.Send? ==> -1 <= call.wrote <= |call.data|)
    requires Finishing(k) || (call.Shutdown? && k.state.Connected?)
    ensures Finishing(Called(k, call).c)
  {
    hide LifeOk, StreamOk, HalfCloseOk, Sent;
  }

  lemma DoneFinishes(w: World, l: nat, wrote: int, c: Id)
    requires Inv(w) && Enabled(w, Next(l, wrote)) && c in w.conns && Finishing(w.conns[c])
    requires c in Apply(w, Next(l, wrote)).conns
    ensures Finishing(Apply(w, Next(l, wrote)).conns[c])
  {
    hide Ok, Placed, AllTokens, Sent, Wrote;
    HeadState(w, l);
    var t, k := w.loops[l].todo[0], w.conns[c];
    assert Ok(k);
    match t
    case SendIn(d, data) =>
      SentLater(w.conns[d], data, wrote);
      if d == c { SentFinishes(k, data, wrote); }
    case Write(d) =>
      WroteLater(w.conns[d], wrote);
      if d == c { WroteFinishes(k, wrote); }
    case _ =>
  }

  lemma StepFinishes(w: World, s: Step, c: Id)
    requires Inv(w) && Enabled(w, s) && c in w.conns && c in Apply(w, s).conns
    requires Finishing(w.conns[c]) || (s.UserCall? && s.c == c && s.call.Shutdown? && w.conns[c].state.Connected?)
    ensures Finishing(Apply(w, s).conns[c])
  {
    hide Ok, Placed, AllTokens, Called, Done;
    assert Ok(w.conns[c]);
    match s
    case UserCall(l, d, call) =>
      CalledLater(w.conns[d], call);
      if d == c { CalledFinishes(w.conns[c], call); }
    case Next(l, wrote) => DoneFinishes(w, l, wrote, c);
    case _ =>
  }

  /** After shutdown() of a connected connection the half-close happens as soon as the output buffer is empty,
      whatever else is called: in every later world of an open connection with nothing buffered it is done. */
  lemma {:induction false} ShutdownHalfCloses(worlds: seq<World>, steps: seq<Step>, i: nat, j: nat, l: nat, c: Id)
    requires IsRun(worlds, steps) && i < j < |worlds|
    requires steps[i] == UserCall(l, c, Shutdown) && c in worlds[i].conns && worlds[i].conns[c].state.Connected?
    ensures c in worlds[j].conns && Finishing(worlds[j].conns[c])
    ensures worlds[j].conns[c].Open() && worlds[j].conns[c].out == [] ==> ShutWrite in worlds[j].conns[c].log
    decreases j
  {
    hide Inv, Enabled, Apply;
    if i + 1 < j {
      ShutdownHalfCloses(worlds, steps, i, j - 1, l, c);
    }
    RunInv(worlds, steps, j - 1);
    RunLater(worlds, steps, j - 1, j, c);
    StepFinishes(worlds[j - 1], steps[j - 1], c);
  }

  // ---------- states ----------

  /** The step finds the peer gone, or carries out a forced close. */
  ghost predicate Closes(w: World, s: Step, c: Id)
    requires Enabled(w, s) && c in w.conns
  {
    || (s.Handle? && s.c == c && READ in w.conns[c].ch.pending && (s.n == 0 || (s.n < 0 && s.fault)))
    || (Does(w, s, ForceClose(c)) && w.conns[c].Open())
  }

  /** The user asks for the end. */
  ghost predicate Asks(w: World, s: Step, c: Id)
    requires Enabled(w, s) && c in w.conns
  {
    s.UserCall? && s.c == c && w.conns[c].Open() &&
    (s.call.ForceCloseCall? || s.call.ForceCloseWithDelay? || s.call.Shutdown?)
  }

  lemma DoneMoves(w: World, l: nat, wrote: int, c: Id)
    requires Inv(w) && Enabled(w, Next(l, wrote)) && c in w.conns && c in Apply(w, Next(l, wrote)).conns
    ensures var s := Next(l, wrote);
            Apply(w, s).conns[c].state ==
            if Closes(w, s, c) then Disconnected else if Does(w, s, Establish(c)) then Connected else w.conns[c].state
  {
    hide Ok, Placed, AllTokens, Sent, Wrote;
    HeadState(w, l);
    var t, k := w.loops[l].todo[0], w.conns[c];
    assert PlacedAt(w, l, t) by { PlacedHead(w, l); }
    assert Ok(k) && Ok(w.conns[t.c]);
    match t
    case SendIn(d, data) =>
      SentOk(w.conns[d], data, wrote);
      SentLater(w.conns[d], data, wrote);
    case Write(d) =>
      WroteOk(w.conns[d], wrote);
      WroteLater(w.conns[d], wrote);
    case _ =>
  }

  lemma CalledMoves(k: Conn, call: Call)
    requires Ok(k) && (call.Send? ==> -1 <= call.wrote <= |call.data|)
    ensures Called(k, call).c.state ==
            if k.Open() && !call.Send? && !call.SetHighWaterMark? then Disconnecting else k.state
  {
    hide Ok, Sent;
    if call.Send? && k.state.Connected? {
      SentOk(k, call.data, call.wrote);
    }
  }

  /** Exactly when a connection's state moves, and to which. */
  lemma StateMoves(w: World, s: Step, c: Id)
    requires Inv(w) && Enabled(w, s) && c in w.conns && c in Apply(w, s).conns
    ensures Apply(w, s).conns[c].state ==
            if Closes(w, s, c) then Disconnected
            else if Asks(w, s, c) then Disconnecting
            else if Does(w, s, Establish(c)) then Connected
            else w.conns[c].state
  {
    hide Ok, Placed, AllTokens, Called, Done;
    match s
    case UserCall(l, d, call) =>
      assert Ok(w.conns[d]);
      CalledMoves(w.conns[d], call);
      CalledLater(w.conns[d], call);
    case Next(l, wrote) => DoneMoves(w, l, wrote, c);
    case _ =>
  }

  // ---------- what the user and the server are told ----------

  /** A message reaches an open connection's sendInLoop, and the socket's write, if any, returns `wrote`. */
  ghost predicate Reaches(w: World, s: Step, c: Id, data: seq<Byte>, wrote: int)
    requires Enabled(w, s) && c in w.conns
  {
    || (s == UserCall(w.conns[c].loop, c, Send(data, wrote)) && w.conns[c].state.Connected?)
    || (s == Next(w.conns[c].loop, wrote) && Does(w, s, SendIn(c, data)) && w.conns[c].Open())
  }

  lemma SentTells(k: Conn, data: seq<Byte>, wrote: int)
    requires Ok(k) && k.Open() && -1 <= wrote <= |data|
    ensures var d := Sent(k, data, wrote);
            d.queued ==
              (if k.hasComplete && k.out == [] && wrote == |data| then [WriteComplete(k.id)] else []) +
              (if k.hasHigh && |k.out| < k.highMark <= |d.c.out| then [HighWater(k.id, |d.c.out|)] else [])
  {
    hide LifeOk, StreamOk, HalfCloseOk;
  }

  /** The callbacks that are set, and the mark. */
  ghost predicate SameSettings(k: Conn, k': Conn) {
    k'.hasComplete == k.hasComplete && k'.hasHigh == k.hasHigh && k'.highMark == k.highMark
  }

  lemma CallsKeepSettings(k: Conn, data: seq<Byte>, wrote: int)
    ensures -1 <= wrote <= |data| ==> SameSettings(k, Sent(k, data, wrote).c)
    ensures -1 <= wrote <= |k.out| ==> SameSettings(k, Wrote(k, wrote).c)
  {
  }

  lemma DoneKeepsSettings(w: World, l: nat, wrote: int, c: Id)
    requires Inv(w) && Enabled(w, Next(l, wrote)) && c in w.conns && c in Apply(w, Next(l, wrote)).conns
    ensures SameSettings(w.conns[c], Apply(w, Next(l, wrote)).conns[c])
  {
    hide Ok, Placed, AllTokens, Sent, Wrote;
    HeadState(w, l);
    var t := w.loops[l].todo[0];
    match t
    case SendIn(d, data) =>
      CallsKeepSettings(w.conns[d], data, wrote);
      SentLater(w.conns[d], data, wrote);
    case Write(d) =>
      CallsKeepSettings(w.conns[d], [], wrote);
      WroteLater(w.conns[d], wrote);
    case _ =>
  }

  /** Only setHighWaterMarkCallback changes what a connection reports, and to what it is given. */
  lemma SettingsStay(w: World, s: Step, c: Id)
    requires Inv(w) && Enabled(w, s) && c in w.conns && c in Apply(w, s).conns
    ensures var k, k' := w.conns[c], Apply(w, s).conns[c];
            if s.UserCall? && s.c == c && s.call.SetHighWaterMark?
            then k'.hasComplete == k.hasComplete && k'.hasHigh && k'.highMark == s.call.mark
            else SameSettings(k, k')
  {
    hide Ok, Placed, AllTokens, Sent, Done;
    match s
    case UserCall(l, d, call) =>
      CalledLater(w.conns[d], call);
      if call.Send? {
        CallsKeepSettings(w.conns[d], call.data, call.wrote);
      }
    case Next(l, wrote) => DoneKeepsSettings(w, l, wrote, c);
    case _ =>
  }

  /** The write-complete callback is queued exactly when the socket takes a whole message at once; the
      high-water callback exactly when the output buffer crosses the mark, with the size it reaches. */
  lemma MessageTells(w: World, s: Step, c: Id, data: seq<Byte>, wrote: int)
    requires Inv(w) && Enabled(w, s) && c in w.conns && Reaches(w, s, c, data, wrote)
    ensures c in Apply(w, s).conns && w.conns[c].loop < |w.loops| && |Apply(w, s).loops| == |w.loops|
    ensures var k, k', l := w.conns[c], Apply(w, s).conns[c], w.conns[c].loop;
            Apply(w, s).loops[l].queue ==
              w.loops[l].queue +
              (if k.hasComplete && k.out == [] && wrote == |data| then [WriteComplete(c)] else []) +
              (if k.hasHigh && |k.out| < k.highMark <= |k'.out| then [HighWater(c, |k'.out|)] else [])
  {
    hide Ok, Placed, AllTokens, Sent;
    var k := w.conns[c];
    assert Ok(k);
    SentTells(k, data, wrote);
    SentLater(k, data, wrote);
  }

  lemma WroteTells(k: Conn, wrote: int)
    requires Ok(k) && -1 <= wrote <= |k.out|
    ensures Wrote(k, wrote).queued ==
              if k.hasComplete && k.Open() && k.out != [] && wrote == |k.out| then [WriteComplete(k.id)] else []
  {
    hide LifeOk, StreamOk, HalfCloseOk;
  }

  /** Writing out the buffer queues the write-complete callback exactly when it empties it. */
  lemma WritingTells(w: World, s: Step, c: Id)
    requires Inv(w) && Enabled(w, s) && Does(w, s, Write(c))
    ensures c in w.conns && c in Apply(w, s).conns && w.conns[c].loop == s.l && |Apply(w, s).loops| == |w.loops|
    ensures var k, k' := w.conns[c], Apply(w, s).conns[c];
            Apply(w, s).loops[s.l].queue ==
              w.loops[s.l].queue +
              if k.hasComplete && k.Open() && k.out != [] && k'.out == [] then [WriteComplete(c)] else []
  {
    hide Ok, Placed, AllTokens, Wrote;
    HeadState(w, s.l);
    assert PlacedAt(w, s.l, Write(c)) by { PlacedHead(w, s.l); }
    var k := w.conns[c];
    assert Ok(k);
    WroteTells(k, s.wrote);
    WroteLater(k, s.wrote);
    if k.Open() && k.out != [] {
      WroteEmpties(k, s.wrote);
    }
  }

  lemma WroteEmpties(k: Conn, wrote: int)
    requires Ok(k) && k.Open() && k.out != [] && -1 <= wrote <= |k.out|
    ensures Wrote(k, wrote).c.out == [] <==> wrote == |k.out|
  {
    hide LifeOk, StreamOk, HalfCloseOk;
  }

  /** The user's code runs at every change of state that is not of its own asking, and for each of its callbacks. */
  lemma UserIsTold(w: World, s: Step, c: Id)
    requires Inv(w) && Enabled(w, s) && c in w.conns && c in Apply(w, s).conns
    requires || (Apply(w, s).conns[c].state != w.conns[c].state && !Asks(w, s, c))
             || Does(w, s, WriteComplete(c)) || (exists n :: Does(w, s, HighWater(c, n)))
             || (s.Handle? && s.c == c && READ in w.conns[c].ch.pending && s.n > 0)
    ensures InCallback(Apply(w, s), w.conns[c].loop)
  {
    hide Ok, AllTokens, Called, Sent, Wrote;
    StateMoves(w, s, c);
    if s.Next? {
      PlacedHead(w, s.l);
      HeadState(w, s.l);
    }
  }

  /** handleEvent: the pending events are taken, and what they ask for is done, reading before writing. */
  lemma HandleDoes(w: World, c: Id, n: int, fault: bool)
    requires Inv(w) && Enabled(w, Handle(c, n, fault))
    ensures var s := Handle(c, n, fault);
            var l, pending, w' := w.conns[c].loop, w.conns[c].ch.pending, Apply(w, s);
            && l < |w'.loops| && c in w'.conns && w'.conns[c].ch.pending == {}
            && (Write(c) in w'.loops[l].todo <==> WRITE in pending)
            && (Write(c) in w'.loops[l].todo ==> w'.loops[l].todo[|w'.loops[l].todo| - 1] == Write(c))
            && (Close(c) in w'.loops[l].todo <==> Closes(w, s, c))
            && w'.loops[l].queue == w.loops[l].queue
  {
    hide Ok, AllTokens;
  }
}
