/** One TCP connection: its state, its channel's interest, its output buffer, and what it has done. */
module Tcp {
  import opened Network
  import opened Watchers
  import Buffer

  /** Stands for a connection's name, which is the server's name and a number. */
  type Id = nat

  datatype State = Connecting | Connected | Disconnecting | Disconnected

  function Rank(s: State): nat {
    match s
    case Connecting => 0
    case Connected => 1
    case Disconnecting => 2
    case Disconnected => 3
  }

  /** A channel: events_, and its watcher's active flag, mask and pending events. */
  datatype Interest = Interest(events: Events, active: bool, armed: Events, pending: Events)

  /** What a connection has done, as its socket and its user see it. */
  datatype Note =
    | Gave(data: seq<Byte>)      // sendInLoop was given a message
    | Tried(accepted: seq<Byte>) // a write, and the bytes the socket took: none if it failed
    | ShutWrite                  // shutdownWrite
    | Up                         // connection_cb_, connected
    | Down                       // connection_cb_, disconnected
    | Closed                     // close_cb_

  /** Something a loop thread has yet to do: a queued functor, or the rest of a call after a callback. */
  datatype Job =
    | Callback                         // user code
    | Write(c: Id)                     // handleEvent, after its read callback
    | Close(c: Id)                     // handleClose, after connection_cb_
    | Establish(c: Id)
    | Remove(c: Id)                    // removeConnectionInLoop
    | Destroy(c: Id)
    | ForceClose(c: Id)
    | SendIn(c: Id, data: seq<Byte>)   // sendInLoop, for another thread
    | WriteComplete(c: Id)
    | HighWater(c: Id, size: nat)

  datatype Conn = Conn(id: Id, loop: nat, state: State, ch: Interest, out: seq<Byte>,
                       hasComplete: bool, hasHigh: bool, highMark: nat, log: seq<Note>)
  {
    predicate Writing() { WRITE in ch.events }
    predicate Open() { state.Connected? || state.Disconnecting? }
  }

  /** A connection after a call, and the functors the call queued on its loop. */
  datatype Did = Did(c: Conn, queued: seq<Job>)

  /** What a loop thread does next after a call, and what the call queued on another loop. */
  datatype Told = Told(next: seq<Job>, queued: seq<Job>)

  // ---------- what each call does ----------

  function Fresh(id: Id, loop: nat, hasComplete: bool): Conn {
    Conn(id, loop, Connecting, IDLE, [], hasComplete, false, 64 * 1024 * 1024, [])
  }

  /** runInLoop: at once on the loop's own thread, else through its queue. */
  function RunInLoop(j: Job, here: bool): Told {
    if here then Told([j], []) else Told([], [j])
  }

  /** runInLoop of connectEstablished: the connection, and what is left to do or to come. */
  function Opened(k: Conn, here: bool): Conn {
    if here then Established(k) else k
  }

  function Opening(id: Id, here: bool): Told {
    if here then Told([Callback], []) else RunInLoop(Establish(id), false)
  }

  /** updateChannel: stop, set, and start unless there is nothing to wait for. */
  function Updated(events: Events): Interest {
    Interest(events, events != {}, events, {})
  }

  const IDLE := Updated({})

  /** WriteComplete(id) if there is a callback for it. */
  function Completed(c: Conn): seq<Job> {
    if c.hasComplete then [WriteComplete(c.id)] else []
  }

  /** HighWater(id, size) if `more` bytes take the buffer across the mark. */
  function Crossed(c: Conn, more: nat): seq<Job> {
    if c.hasHigh && |c.out| < c.highMark <= |c.out| + more then [HighWater(c.id, |c.out| + more)] else []
  }

  function Sent(c: Conn, data: seq<Byte>, wrote: int): Did
    requires -1 <= wrote <= |data|
  {
    if c.state.Disconnected? then Did(c, [])
    else if c.Writing() || c.out != [] then Buffered(c.(log := c.log + [Gave(data)]), data)
    else
      var n := if wrote >= 0 then wrote else 0;
      var c' := c.(log := c.log + [Gave(data)] + [Tried(data[..n])]);
      if wrote == |data| then Did(c', Completed(c)) else Buffered(c', data[n..])
  }

  function Buffered(c: Conn, rest: seq<Byte>): Did {
    if rest == [] then Did(c, [])
    else
      Did(c.(out := c.out + rest, ch := if c.Writing() then c.ch else Updated(c.ch.events + {WRITE})),
          Crossed(c, |rest|))
  }

  function Wrote(c: Conn, wrote: int): Did
    requires -1 <= wrote <= |c.out|
  {
    if !c.Writing() then Did(c, [])
    else
      var n := if wrote >= 0 then wrote else 0;
      var c' := c.(log := c.log + [Tried(c.out[..n])], out := c.out[n..]);
      if n == 0 || c'.out != [] then Did(c', []) else Did(Drained(c'), Completed(c))
  }

  function Drained(c: Conn): Conn {
    var c' := c.(ch := Updated(c.ch.events - {WRITE}));
    if c.state.Disconnecting? then HalfClosed(c') else c'
  }

  function HalfClosed(c: Conn): Conn {
    if c.Writing() then c else c.(log := c.log + [ShutWrite])
  }

  function ShutDown(c: Conn): Conn {
    if c.state.Connected? then HalfClosed(c.(state := Disconnecting)) else c
  }

  function ForceClosing(c: Conn): Did {
    if c.Open() then Did(c.(state := Disconnecting), [ForceClose(c.id)]) else Did(c, [])
  }

  function DelayedClosing(c: Conn): Conn {
    if c.Open() then c.(state := Disconnecting) else c
  }

  /** handleClose up to and including its call of connection_cb_. */
  function Closing(c: Conn): Conn {
    c.(state := Disconnected, ch := IDLE, log := c.log + [Down])
  }

  function Established(c: Conn): Conn {
    c.(state := Connected, ch := Updated(c.ch.events + {READ}), log := c.log + [Up])
  }

  function Destroyed(c: Conn): Conn {
    var c' := if c.state.Connected? then Closing(c) else c;
    c'.(ch := c'.ch.(active := false, pending := {}))
  }

  // ---------- what the notes say ----------

  /** The messages given to sendInLoop before disconnection, joined. */
  function Given(log: seq<Note>): seq<Byte> {
    if log == [] then []
    else Given(log[..|log| - 1]) + match log[|log| - 1] { case Gave(data) => data case _ => [] }
  }

  /** The bytes the socket has taken, in order. */
  function Taken(log: seq<Note>): seq<Byte> {
    if log == [] then []
    else Taken(log[..|log| - 1]) + match log[|log| - 1] { case Tried(data) => data case _ => [] }
  }

  /** The notifications, in order. */
  function Life(log: seq<Note>): seq<Note> {
    if log == [] then []
    else
      var x := log[|log| - 1];
      Life(log[..|log| - 1]) + if x.Up? || x.Down? || x.Closed? then [x] else []
  }

  lemma Noted(log: seq<Note>, x: Note)
    ensures Given(log + [x]) == Given(log) + if x.Gave? then x.data else []
    ensures Taken(log + [x]) == Taken(log) + if x.Tried? then x.accepted else []
    ensures Life(log + [x]) == Life(log) + if x.Up? || x.Down? || x.Closed? then [x] else []
  {
    assert (log + [x])[..|log|] == log;
  }

  /** A message was given to sendInLoop after the half-close. */
  ghost predicate GaveLate(log: seq<Note>) {
    exists i, j :: 0 <= i < j < |log| && log[i].ShutWrite? && log[j].Gave?
  }

  /** A write was tried after the half-close, or there was a second one. */
  ghost predicate UsedLate(log: seq<Note>) {
    exists i, j :: 0 <= i < j < |log| && log[i].ShutWrite? && (log[j].Tried? || log[j].ShutWrite?)
  }

  /** Every half-close found all that was given so far taken. */
  ghost predicate ShutDrained(log: seq<Note>) {
    forall i :: 0 <= i < |log| && log[i].ShutWrite? ==> Given(log[..i]) == Taken(log[..i])
  }

  lemma NotedGaveLate(log: seq<Note>, x: Note)
    ensures GaveLate(log + [x]) <==> GaveLate(log) || (ShutWrite in log && x.Gave?)
  {
    var l := log + [x];
    if GaveLate(log) {
      var i, j :| 0 <= i < j < |log| && log[i].ShutWrite? && log[j].Gave?;
      assert l[i].ShutWrite? && l[j].Gave?;
    }
    if ShutWrite in log && x.Gave? {
      var i :| 0 <= i < |log| && log[i] == ShutWrite;
      assert l[i].ShutWrite? && l[|log|].Gave?;
    }
  }

  lemma NotedUsedLate(log: seq<Note>, x: Note)
    ensures UsedLate(log + [x]) <==> UsedLate(log) || (ShutWrite in log && (x.Tried? || x.ShutWrite?))
  {
    var l := log + [x];
    if UsedLate(log) {
      var i, j :| 0 <= i < j < |log| && log[i].ShutWrite? && (log[j].Tried? || log[j].ShutWrite?);
      assert l[i].ShutWrite? && (l[j].Tried? || l[j].ShutWrite?);
    }
    if ShutWrite in log && (x.Tried? || x.ShutWrite?) {
      var i :| 0 <= i < |log| && log[i] == ShutWrite;
      assert l[i].ShutWrite? && (l[|log|].Tried? || l[|log|].ShutWrite?);
    }
  }

  lemma NotedDrained(log: seq<Note>, x: Note)
    requires ShutDrained(log) && (x.ShutWrite? ==> Given(log) == Taken(log))
    ensures ShutDrained(log + [x])
  {
    hide Given, Taken;
    var l := log + [x];
    assert l[..|log|] == log;
    forall i | 0 <= i < |l| && l[i].ShutWrite?
      ensures Given(l[..i]) == Taken(l[..i])
    {
      if i < |log| {
        assert l[i] == log[i] && l[..i] == log[..i];
      }
    }
  }

  // ---------- the invariant of one connection ----------

  /** What connection_cb_ and close_cb_ have been told, by state. */
  predicate LifeOk(c: Conn) {
    match c.state
    case Connecting => Life(c.log) == []
    case Disconnected => Life(c.log) == [Up, Down] || Life(c.log) == [Up, Down, Closed]
    case _ => Life(c.log) == [Up]
  }

  predicate InterestOk(c: Conn) {
    && c.ch.active == (c.ch.events != {}) && c.ch.armed == c.ch.events && c.ch.pending <= c.ch.armed
    && if c.Open() then c.ch.events == (if c.out == [] then {READ} else {READ, WRITE}) else c.ch.events == {}
  }

  ghost predicate StreamOk(c: Conn) {
    && Given(c.log) == Taken(c.log) + c.out && ShutDrained(c.log)
    && (c.state.Connecting? ==> c.out == [] && c.log == [])
  }

  ghost predicate HalfCloseOk(c: Conn) {
    && (ShutWrite in c.log ==> Rank(c.state) >= 2)
    && (GaveLate(c.log) <==> UsedLate(c.log))
    && (ShutWrite in c.log && !GaveLate(c.log) ==> c.out == [])
  }

  ghost predicate Ok(c: Conn) {
    LifeOk(c) && InterestOk(c) && StreamOk(c) && HalfCloseOk(c)
  }

  // ---------- every call keeps it ----------

  /** One more note, and nothing else. */
  lemma NoteOk(log: seq<Note>, x: Note)
    requires ShutDrained(log) && (x.ShutWrite? ==> Given(log) == Taken(log))
    ensures Given(log + [x]) == Given(log) + if x.Gave? then x.data else []
    ensures Taken(log + [x]) == Taken(log) + if x.Tried? then x.accepted else []
    ensures Life(log + [x]) == Life(log) + if x.Up? || x.Down? || x.Closed? then [x] else []
    ensures ShutDrained(log + [x])
    ensures GaveLate(log + [x]) <==> GaveLate(log) || (ShutWrite in log && x.Gave?)
    ensures UsedLate(log + [x]) <==> UsedLate(log) || (ShutWrite in log && (x.Tried? || x.ShutWrite?))
  {
    Noted(log, x);
    NotedDrained(log, x);
    NotedGaveLate(log, x);
    NotedUsedLate(log, x);
  }

  lemma BufferedNothing(c: Conn)
    ensures Buffered(c, []) == Did(c, [])
  {
  }

  lemma BufferedOk(c: Conn, rest: seq<Byte>)
    requires c.Open() && LifeOk(c) && InterestOk(c) && HalfCloseOk(c) && ShutDrained(c.log)
    requires ShutWrite in c.log ==> GaveLate(c.log)
    requires Given(c.log) == Taken(c.log) + (c.out + rest)
    ensures Ok(Buffered(c, rest).c) && Buffered(c, rest).c.state == c.state
  {
    assert rest == [] ==> c.out + rest == c.out;
  }

  lemma SentOk(c: Conn, data: seq<Byte>, wrote: int)
    requires Ok(c) && !c.state.Connecting? && -1 <= wrote <= |data|
    ensures Ok(Sent(c, data, wrote).c) && Sent(c, data, wrote).c.state == c.state
  {
    hide Given, Taken, Life, GaveLate, UsedLate, ShutDrained;
    if c.Open() {
      var log := c.log + [Gave(data)];
      NoteOk(c.log, Gave(data));
      if c.out != [] {
        assert Taken(log) + c.out + data == Taken(log) + (c.out + data);
        BufferedOk(c.(log := log), data);
      } else {
        var n := if wrote >= 0 then wrote else 0;
        var log' := log + [Tried(data[..n])];
        NoteOk(log, Tried(data[..n]));
        assert data == data[..n] + data[n..];
        assert Given(log') == Taken(log') + (c.out + data[n..]);
        BufferedOk(c.(log := log'), data[n..]);
      }
    }
  }

  lemma HalfClosedOk(c: Conn)
    requires Ok(c) && c.state.Disconnecting? && (ShutWrite in c.log ==> GaveLate(c.log))
    ensures Ok(HalfClosed(c)) && HalfClosed(c).state == c.state
  {
    hide Given, Taken, Life, GaveLate, UsedLate, ShutDrained;
    if !c.Writing() {
      assert c.out == [] && Taken(c.log) + c.out == Taken(c.log);
      NoteOk(c.log, ShutWrite);
    }
  }

  /** The socket took n bytes of the buffer. */
  lemma TriedOk(c: Conn, n: nat)
    requires Ok(c) && c.Writing() && n <= |c.out|
    ensures var c' := c.(log := c.log + [Tried(c.out[..n])], out := c.out[n..]);
            && c'.Open() && LifeOk(c') && StreamOk(c') && HalfCloseOk(c') && (c'.out != [] ==> InterestOk(c'))
            && (ShutWrite in c'.log ==> GaveLate(c'.log))
  {
    hide Given, Taken, Life, GaveLate, UsedLate, ShutDrained;
    NoteOk(c.log, Tried(c.out[..n]));
    assert c.out == c.out[..n] + c.out[n..];
    assert Taken(c.log) + c.out == Taken(c.log) + c.out[..n] + c.out[n..];
  }

  lemma DrainedOk(c: Conn)
    requires c.Open() && c.Writing() && c.ch.events <= {READ, WRITE} && READ in c.ch.events && c.out == []
    requires LifeOk(c) && StreamOk(c) && HalfCloseOk(c) && (ShutWrite in c.log ==> GaveLate(c.log))
    ensures Ok(Drained(c)) && Drained(c).state == c.state
  {
    hide Given, Taken, Life, GaveLate, UsedLate, ShutDrained;
    var c' := c.(ch := Updated(c.ch.events - {WRITE}));
    assert c.ch.events - {WRITE} == {READ};
    if c.state.Disconnecting? {
      HalfClosedOk(c');
    }
  }

  lemma WroteOk(c: Conn, wrote: int)
    requires Ok(c) && -1 <= wrote <= |c.out|
    ensures Ok(Wrote(c, wrote).c) && Wrote(c, wrote).c.state == c.state
  {
    hide LifeOk, StreamOk, HalfCloseOk, Drained;
    if c.Writing() {
      var n := if wrote >= 0 then wrote else 0;
      TriedOk(c, n);
      var c' := c.(log := c.log + [Tried(c.out[..n])], out := c.out[n..]);
      if c'.out == [] {
        DrainedOk(c');
      }
    }
  }

  lemma ShutDownOk(c: Conn)
    requires Ok(c)
    ensures Ok(ShutDown(c)) && Rank(c.state) <= Rank(ShutDown(c).state)
  {
    hide Given, Taken, Life, GaveLate, UsedLate, ShutDrained;
    if c.state.Connected? {
      HalfClosedOk(c.(state := Disconnecting));
    }
  }

  lemma ClosingOk(c: Conn)
    requires Ok(c) && c.Open()
    ensures Ok(Closing(c))
  {
    hide Given, Taken, Life, GaveLate, UsedLate, ShutDrained;
    NoteOk(c.log, Down);
  }

  lemma ClosedOk(c: Conn)
    requires Ok(c) && c.state.Disconnected? && Closed !in Life(c.log)
    ensures Ok(c.(log := c.log + [Closed])) && Life(c.log + [Closed]) == [Up, Down, Closed]
  {
    hide Given, Taken, Life, GaveLate, UsedLate, ShutDrained;
    NoteOk(c.log, Closed);
  }

  lemma EstablishedOk(c: Conn)
    requires Ok(c) && c.state.Connecting?
    ensures Ok(Established(c))
  {
    hide Given, Taken, Life, GaveLate, UsedLate, ShutDrained;
    NoteOk(c.log, Up);
    assert ShutWrite !in c.log && ShutWrite !in c.log + [Up];
  }

  // ---------- the objects ----------

  class Channel {
    var events: Events
    var active: bool      // of the ev_io watcher
    var armed: Events     // ... its mask
    var pending: Events   // ... its pending events

    ghost function View(): Interest
      reads this
    {
      Interest(events, active, armed, pending)
    }

    constructor ()
      ensures View() == IDLE
    {
      events, active, armed, pending := {}, false, {}, {};
    }

    /** EventLoop::updateChannel; ev_io_stop also clears a pending event. */
    method Update()
      modifies this
      ensures View() == Updated(old(events))
    {
      active, pending := false, {};
      armed := events;
      if events != {} {
        active := true;
      }
    }

    method EnableReading()
      modifies this
      ensures View() == Updated(old(events) + {READ})
    {
      events := events + {READ};
      Update();
    }

    method EnableWriting()
      modifies this
      ensures View() == Updated(old(events) + {WRITE})
    {
      events := events + {WRITE};
      Update();
    }

    method DisableWriting()
      modifies this
      ensures View() == Updated(old(events) - {WRITE})
    {
      events := events - {WRITE};
      Update();
    }

    method DisableAll()
      modifies this
      ensures View() == IDLE
    {
      events := {};
      Update();
    }

    /** EventLoop::removeChannel. */
    method Remove()
      requires events == {}
      modifies this
      ensures View() == old(View()).(active := false, pending := {})
    {
      active, pending := false, {};
    }

    predicate IsWriting()
      reads this
    {
      WRITE in events
    }
  }

  /** The loop's pending_functors_. */
  class Functors {
    var queue: seq<Job>

    constructor ()
      ensures queue == []
    {
      queue := [];
    }

    method QueueInLoop(t: Job)
      modifies this
      ensures queue == old(queue) + [t]
    {
      queue := queue + [t];
    }
  }

  /** What a write or read call may return is a parameter; where a call runs user code the parts after
      it are returned as `next`. */
  class TcpConnection {
    const id: Id
    const loop: nat
    const functors: Functors
    const channel: Channel
    const outputBuffer: Buffer.Buffer
    var state: State
    var hasComplete: bool
    var hasHigh: bool
    var highMark: nat
    ghost var log: seq<Note>

    ghost predicate Valid()
      reads this, outputBuffer
    {
      outputBuffer.Valid()
    }

    ghost function View(): Conn
      requires Valid()
      reads this, channel, outputBuffer, outputBuffer.buffer
    {
      Conn(id, loop, state, channel.View(), outputBuffer.Contents(), hasComplete, hasHigh, highMark, log)
    }

    constructor (id: Id, loop: nat, functors: Functors)
      ensures Valid() && Ok(View()) && View() == Fresh(id, loop, false) && this.functors == functors
      ensures state == Connecting && highMark == 0x400_0000 && !hasHigh && !hasComplete
      ensures fresh(channel) && fresh(outputBuffer) && fresh(outputBuffer.buffer)
    {
      this.id, this.loop, this.functors := id, loop, functors;
      channel := new Channel();
      outputBuffer := new Buffer.Buffer(Buffer.INITIAL_SIZE);
      state, log := Connecting, [];
      hasComplete, hasHigh, highMark := false, false, 64 * 1024 * 1024;
    }

    /** The second half of sendInLoop: what was not written goes to the buffer. */
    method Keep(rest: seq<Byte>)
      requires Valid()
      modifies channel, functors, outputBuffer, outputBuffer.buffer
      ensures Valid() && (outputBuffer.buffer == old(outputBuffer.buffer) || fresh(outputBuffer.buffer))
      ensures var d := Buffered(old(View()), rest); View() == d.c && functors.queue == old(functors.queue) + d.queued
    {
      if |rest| > 0 {
        var oldLen := outputBuffer.ReadableBytes();
        if oldLen + |rest| >= highMark && oldLen < highMark && hasHigh {
          functors.QueueInLoop(HighWater(id, oldLen + |rest|));
        }
        outputBuffer.Append(rest);
        if !channel.IsWriting() {
          channel.EnableWriting();
        }
      }
    }

    /** sendInLoop; its write, if it makes one, returns `wrote`. */
    method SendInLoop(data: seq<Byte>, wrote: int)
      requires Valid() && -1 <= wrote <= |data|
      modifies this`log, channel, functors, outputBuffer, outputBuffer.buffer
      ensures Valid() && (outputBuffer.buffer == old(outputBuffer.buffer) || fresh(outputBuffer.buffer))
      ensures var d := Sent(old(View()), data, wrote); View() == d.c && functors.queue == old(functors.queue) + d.queued
    {
      hide Buffered;
      if state == Disconnected {
        return;
      }
      log := log + [Gave(data)];
      var nwrote, remaining := 0, |data|;
      if !channel.IsWriting() && outputBuffer.ReadableBytes() == 0 {
        nwrote := wrote;
        if nwrote >= 0 {
          remaining := |data| - nwrote;
          if nwrote >= |data| && hasComplete {
            functors.QueueInLoop(WriteComplete(id));
          }
        } else {
          nwrote := 0;
        }
        log := log + [Tried(data[..nwrote])];
      }
      ghost var c, q := View(), functors.queue;
      assert data[0..] == data && q + [] == q && (remaining == 0 ==> data[nwrote..] == []);
      BufferedNothing(c);
      Keep(data[nwrote..]);
    }

    /** send, called in the loop thread. */
    method Send(data: seq<Byte>, wrote: int)
      requires Valid() && -1 <= wrote <= |data|
      modifies this`log, channel, functors, outputBuffer, outputBuffer.buffer
      ensures Valid() && (outputBuffer.buffer == old(outputBuffer.buffer) || fresh(outputBuffer.buffer))
      ensures var d := if old(state).Connected? then Sent(old(View()), data, wrote) else Did(old(View()), []);
              View() == d.c && functors.queue == old(functors.queue) + d.queued
    {
      hide Sent;
      if state == Connected {
        SendInLoop(data, wrote);
      }
    }

    /** shutdownInLoop; noting ShutWrite stands for the system call. */
    method ShutdownInLoop()
      requires Valid()
      modifies this`log
      ensures Valid() && View() == HalfClosed(old(View()))
    {
      if !channel.IsWriting() {
        log := log + [ShutWrite];
      }
    }

    method Shutdown()
      requires Valid()
      modifies this`log, this`state
      ensures Valid() && View() == ShutDown(old(View()))
    {
      if state == Connected {
        state := Disconnecting;
        ShutdownInLoop();
      }
    }

    /** handleWrite; its write, if it makes one, returns `n`. */
    method HandleWrite(n: int)
      requires Valid() && -1 <= n <= outputBuffer.ReadableBytes()
      modifies this`log, channel, functors, outputBuffer
      ensures Valid() && outputBuffer.buffer == old(outputBuffer.buffer)
      ensures var d := Wrote(old(View()), n); View() == d.c && functors.queue == old(functors.queue) + d.queued
    {
      if channel.IsWriting() {
        ghost var accepted := outputBuffer.Contents()[..if n > 0 then n else 0];
        log := log + [Tried(accepted)];
        if n > 0 {
          outputBuffer.Retrieve(n);
          if outputBuffer.ReadableBytes() == 0 {
            channel.DisableWriting();
            if hasComplete {
              functors.QueueInLoop(WriteComplete(id));
            }
            if state == Disconnecting {
              ShutdownInLoop();
            }
          }
        }
      }
    }

    method ForceClose()
      requires Valid()
      modifies this`state, functors
      ensures Valid()
      ensures var d := ForceClosing(old(View())); View() == d.c && functors.queue == old(functors.queue) + d.queued
    {
      if state == Connected || state == Disconnecting {
        state := Disconnecting;
        functors.QueueInLoop(Job.ForceClose(id));
      }
    }

    /** Its timer calls ForceClose later. */
    method ForceCloseWithDelay()
      requires Valid()
      modifies this`state
      ensures Valid() && View() == DelayedClosing(old(View()))
    {
      if state == Connected || state == Disconnecting {
        state := Disconnecting;
      }
    }

    method HandleClose() returns (next: seq<Job>)
      requires Valid() && (state == Connected || state == Disconnecting)
      modifies this`state, this`log, channel
      ensures Valid() && View() == Closing(old(View())) && next == [Callback, Close(id)]
    {
      state := Disconnected;
      channel.DisableAll();
      log := log + [Down];
      next := [Callback, Close(id)];
    }

    method ForceCloseInLoop() returns (next: seq<Job>)
      requires Valid()
      modifies this`state, this`log, channel
      ensures Valid()
      ensures if old(View()).Open() then View() == Closing(old(View())) && next == [Callback, Close(id)]
              else View() == old(View()) && next == []
    {
      next := [];
      if state == Connected || state == Disconnecting {
        next := HandleClose();
      }
    }

    /** handleRead; its read returned `n`, and `fault` says whether a failure is one that closes. */
    method HandleRead(n: int, fault: bool) returns (next: seq<Job>)
      requires Valid() && (state == Connected || state == Disconnecting)
      modifies this`state, this`log, channel
      ensures Valid()
      ensures if n > 0 || (n < 0 && !fault) then View() == old(View()) && next == (if n > 0 then [Callback] else [])
              else View() == Closing(old(View())) && next == [Callback, Close(id)]
    {
      next := [];
      if n > 0 {
        next := [Callback];
      } else if n == 0 {
        next := HandleClose();
      } else if fault {
        next := HandleClose();
      }
    }

    method ConnectEstablished() returns (next: seq<Job>)
      requires Valid() && state == Connecting
      modifies this`state, this`log, channel
      ensures Valid() && View() == Established(old(View())) && next == [Callback]
    {
      state := Connected;
      channel.EnableReading();
      log := log + [Up];
      next := [Callback];
    }

    method ConnectDestroyed() returns (next: seq<Job>)
      requires Valid() && (state == Connected || channel.events == {})
      modifies this`state, this`log, channel
      ensures Valid() && View() == Destroyed(old(View()))
      ensures next == if old(state).Connected? then [Callback] else []
    {
      next := [];
      if state == Connected {
        state := Disconnected;
        channel.DisableAll();
        log := log + [Down];
        next := [Callback];
      }
      channel.Remove();
    }
  }
}
