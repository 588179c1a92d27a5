/** Who owns a timer: EventLoop's map, filled and emptied in the loop thread, from callbacks and functors. */
module TimerOwner {

  type TimerId = nat

  /** Whether an ev_timer is active, and whether it is pending. */
  datatype Flags = Flags(active: bool, pending: bool)

  const STOPPED := Flags(false, false)

  function Started(f: Flags): Flags {
    f.(active := true)
  }

  /** A timer found due: it stops unless it repeats. */
  function Expired(repeat: bool): Flags {
    Flags(repeat, true)
  }

  /** nev's Timer; `active` and `pending` are those of its ev_timer. */
  class Timer {
    const sequence: TimerId
    const repeat: bool
    var started: bool   // io_loop_ is set
    var active: bool
    var pending: bool

    ghost function View(): Flags
      reads this
    {
      Flags(active, pending)
    }

    constructor (sequence: TimerId, repeat: bool)
      ensures this.sequence == sequence && this.repeat == repeat && !started && !active && !pending
    {
      this.sequence, this.repeat := sequence, repeat;
      started, active, pending := false, false, false;
    }

    method Start()
      modifies this
      ensures started && View() == Started(old(View()))
    {
      started, active := true, true;
    }

    /** ~Timer; ev_timer_stop clears a pending event too. */
    method Destroy()
      requires active || pending ==> started
      modifies this
      ensures !started && View() == STOPPED
    {
      if started {
        active, pending := false, false;
        started := false;
      }
    }
  }

  /** The functors that matter here; Other is any other functor, running user code. */
  datatype Functor = AddTimer(timer: Timer) | CancelTimer(id: TimerId) | Other

  /** What has happened: a timer's callback was called, or a cancel functor ran. */
  datatype Event = Fired(id: TimerId, repeat: bool) | Cancelled(id: TimerId)

  /** What can be called while user code runs, on this thread or, at that moment, on another. `gap` is how many
      timers other loops created first. */
  datatype Call =
    | RunTimer(gap: nat, repeat: bool)          // runAt, runAfter, runEvery in the loop thread
    | RunTimerElsewhere(gap: nat, repeat: bool) // ... in another thread
    | CancelCall(id: TimerId)

  // ---------- values ----------

  /** No event of timer `id`. */
  predicate Untouched(log: seq<Event>, id: TimerId) {
    forall e :: e in log ==> e.id != id
  }

  /** No timer fires once its cancel functor has run. */
  predicate QuietAfterCancel(log: seq<Event>) {
    forall i, j :: 0 <= i < j < |log| && log[i].Cancelled? && log[j].Fired? ==> log[i].id != log[j].id
  }

  /** A one-shot timer fires at most once. */
  predicate OneShotsOnce(log: seq<Event>) {
    forall i, j :: 0 <= i < j < |log| && log[i].Fired? && log[j].Fired? && !log[i].repeat ==> log[i].id != log[j].id
  }

  predicate LogOk(log: seq<Event>, issued: nat) {
    QuietAfterCancel(log) && OneShotsOnce(log) && forall e :: e in log ==> e.id <= issued
  }

  /** Each timer still to be added is new, is added once, and is cancelled only later. */
  predicate TodoOk(todo: seq<Functor>, timers: map<TimerId, Timer>, issued: nat, log: seq<Event>) {
    && (forall i :: 0 <= i < |todo| && todo[i].AddTimer? ==>
          var id := todo[i].timer.sequence; id !in timers && id <= issued && Untouched(log, id))
    && (forall i, j :: 0 <= i < j < |todo| && todo[j].AddTimer? ==>
          match todo[i] {
            case AddTimer(t) => t.sequence != todo[j].timer.sequence
            case CancelTimer(id) => id != todo[j].timer.sequence
            case Other => true
          })
    && (forall i :: 0 <= i < |todo| && todo[i].CancelTimer? ==> todo[i].id <= issued)
  }

  datatype Option<T> = None | Some(value: T)

  /** What the map holds has not been cancelled, and a one-shot timer in it has not fired, unless its
      callback is running. */
  predicate TimersOk(timers: map<TimerId, Timer>, issued: nat, log: seq<Event>, running: Option<TimerId>) {
    && (forall id :: id in timers ==>
          && timers[id].sequence == id && id <= issued && Cancelled(id) !in log
          && (Fired(id, false) in log ==> running == Some(id) && !timers[id].repeat)
          && (Fired(id, true) in log ==> timers[id].repeat))
    && (running.Some? ==> running.value in timers)
  }

  predicate Owned(timers: map<TimerId, Timer>, todo: seq<Functor>, issued: nat, log: seq<Event>,
                  running: Option<TimerId>)
  {
    LogOk(log, issued) && TodoOk(todo, timers, issued, log) && TimersOk(timers, issued, log, running)
  }

  lemma OwnedAdd(timers: map<TimerId, Timer>, todo: seq<Functor>, issued: nat, log: seq<Event>,
                 running: Option<TimerId>, t: Timer)
    requires Owned(timers, todo, issued, log, running) && t.sequence > issued
    ensures Owned(timers[t.sequence := t], todo, t.sequence, log, running)
  {
  }

  lemma OwnedPushAdd(timers: map<TimerId, Timer>, todo: seq<Functor>, issued: nat, log: seq<Event>,
                     running: Option<TimerId>, t: Timer)
    requires Owned(timers, todo, issued, log, running) && t.sequence > issued
    ensures Owned(timers, todo + [AddTimer(t)], t.sequence, log, running)
  {
  }

  lemma OwnedPush(timers: map<TimerId, Timer>, todo: seq<Functor>, issued: nat, log: seq<Event>,
                  running: Option<TimerId>, f: Functor)
    requires Owned(timers, todo, issued, log, running) && !f.AddTimer? && (f.CancelTimer? ==> f.id <= issued)
    ensures Owned(timers, todo + [f], issued, log, running)
  {
  }

  lemma TodoTail(f: Functor, todo: seq<Functor>, timers: map<TimerId, Timer>, issued: nat, log: seq<Event>)
    requires TodoOk([f] + todo, timers, issued, log)
    ensures TodoOk(todo, timers, issued, log)
    ensures f.AddTimer? ==>
              f.timer.sequence !in timers && f.timer.sequence <= issued && Untouched(log, f.timer.sequence)
    ensures f.CancelTimer? ==> f.id <= issued
    ensures forall i :: 0 <= i < |todo| && todo[i].AddTimer? ==>
              && (f.AddTimer? ==> f.timer.sequence != todo[i].timer.sequence)
              && (f.CancelTimer? ==> f.id != todo[i].timer.sequence)
  {
    var all := [f] + todo;
    assert all[0] == f;
    assert forall i :: 0 <= i < |todo| ==> todo[i] == all[i + 1];
  }

  lemma OwnedPopAdd(timers: map<TimerId, Timer>, todo: seq<Functor>, issued: nat, log: seq<Event>, t: Timer)
    requires Owned(timers, [AddTimer(t)] + todo, issued, log, None)
    ensures t.sequence !in timers && Owned(timers[t.sequence := t], todo, issued, log, None)
  {
    hide LogOk;
    TodoTail(AddTimer(t), todo, timers, issued, log);
    assert Cancelled(t.sequence) !in log && Fired(t.sequence, true) !in log && Fired(t.sequence, false) !in log by {
      assert forall e :: e in log ==> e.id != t.sequence;
    }
  }

  lemma OwnedPopCancel(timers: map<TimerId, Timer>, todo: seq<Functor>, issued: nat, log: seq<Event>, id: TimerId)
    requires Owned(timers, [CancelTimer(id)] + todo, issued, log, None)
    ensures Owned(timers - {id}, todo, issued, log + [Cancelled(id)], None)
  {
    TodoTail(CancelTimer(id), todo, timers, issued, log);
  }

  lemma OwnedPopOther(timers: map<TimerId, Timer>, todo: seq<Functor>, issued: nat, log: seq<Event>)
    requires Owned(timers, [Other] + todo, issued, log, None)
    ensures Owned(timers, todo, issued, log, None)
  {
    hide LogOk, TimersOk;
    TodoTail(Other, todo, timers, issued, log);
  }

  lemma OwnedFire(timers: map<TimerId, Timer>, todo: seq<Functor>, issued: nat, log: seq<Event>, id: TimerId)
    requires Owned(timers, todo, issued, log, None) && id in timers
    ensures Owned(timers, todo, issued, log + [Fired(id, timers[id].repeat)], Some(id))
  {
  }

  lemma OwnedDestroy(timers: map<TimerId, Timer>, todo: seq<Functor>, issued: nat, log: seq<Event>, id: TimerId)
    requires Owned(timers, todo, issued, log, Some(id))
    ensures id in timers && Owned(timers - {id}, todo, issued, log, None)
  {
  }

  /** A repeating timer's callback returns. */
  lemma OwnedReturn(timers: map<TimerId, Timer>, todo: seq<Functor>, issued: nat, log: seq<Event>, id: TimerId)
    requires Owned(timers, todo, issued, log, Some(id))
    ensures id in timers && (timers[id].repeat ==> Owned(timers, todo, issued, log, None))
  {
  }

  // ---------- the loop object ----------

  class EventLoop {
    var timers: map<TimerId, Timer>        // timers_, of owning pointers
    var pendingFunctors: seq<Functor>
    var numCreated: nat                    // s_num_created_
    var made: map<TimerId, Timer>          // every Timer this loop was ever given, owned or not
    ghost var rest: seq<Functor>           // taken by doPendingFunctors and not yet run
    ghost var running: Option<TimerId>     // the timer whose callback is running
    ghost var log: seq<Event>
    ghost var objects: set<Timer>          // the Timers in `made`

    ghost predicate Valid()
      reads this, objects
    {
      && Owned(timers, rest + pendingFunctors, numCreated, log, running)
      && (forall id :: id in made ==> made[id] in objects && made[id].sequence == id && id <= numCreated)
      && (forall id :: id in timers ==> id in made && made[id] == timers[id] && timers[id].started)
      && (forall f :: f in rest + pendingFunctors && f.AddTimer? ==>
            f.timer.sequence in made && made[f.timer.sequence] == f.timer)
      // a watcher that can still fire, or be destroyed, is one the map owns
      && (forall id :: id in made && (made[id].started || made[id].active || made[id].pending) ==> id in timers)
    }

    constructor (created: nat)
      ensures Valid() && timers == map[] && made == map[] && pendingFunctors == [] && rest == []
      ensures running == None && log == [] && numCreated == created
    {
      timers, pendingFunctors, numCreated, made := map[], [], created, map[];
      rest, running, log, objects := [], None, [], {};
    }

    /** new Timer: ids are never used twice. */
    method Create(gap: nat, repeat: bool) returns (t: Timer)
      requires Valid()
      modifies this`numCreated, this`made, this`objects
      ensures fresh(t) && t.sequence == numCreated == old(numCreated) + gap + 1 && t.repeat == repeat
      ensures !t.started && !t.active && !t.pending && made == old(made)[t.sequence := t]
      ensures objects == old(objects) + {t}
    {
      numCreated := numCreated + gap + 1;
      t := new Timer(numCreated, repeat);
      made := made[numCreated := t];
      objects := objects + {t};
    }

    /** addTimerInLoop: the map owns it, then it is started. */
    method AddTimerInLoop(t: Timer)
      requires t.sequence !in timers
      modifies this`timers, t
      ensures timers == old(timers)[t.sequence := t] && t.started && t.active && t.pending == old(t.pending)
    {
      timers := timers[t.sequence := t];
      t.Start();
    }

    /** runAt, runAfter and runEvery in the loop thread. */
    method RunTimer(gap: nat, repeat: bool) returns (id: TimerId)
      requires Valid()
      modifies this`numCreated, this`made, this`objects, this`timers
      ensures Valid() && fresh(objects - old(objects)) && id !in old(made) && old(made.Keys) <= made.Keys
      ensures id in timers && timers == old(timers)[id := timers[id]] && timers[id].repeat == repeat
      ensures timers[id].active && !timers[id].pending
    {
      var t := Create(gap, repeat);
      OwnedAdd(old(timers), rest + pendingFunctors, old(numCreated), log, running, t);
      AddTimerInLoop(t);
      id := t.sequence;
    }

    /** ... in another thread, which queues the functor. */
    method RunTimerElsewhere(gap: nat, repeat: bool) returns (id: TimerId)
      requires Valid()
      modifies this`numCreated, this`made, this`objects, this`pendingFunctors
      ensures Valid() && fresh(objects - old(objects)) && id !in old(made) && old(made.Keys) <= made.Keys
      ensures id in made && made[id].sequence == id && made[id].repeat == repeat
      ensures pendingFunctors == old(pendingFunctors) + [AddTimer(made[id])]
    {
      var t := Create(gap, repeat);
      OwnedPushAdd(timers, rest + pendingFunctors, old(numCreated), log, running, t);
      assert rest + (pendingFunctors + [AddTimer(t)]) == rest + pendingFunctors + [AddTimer(t)];
      pendingFunctors := pendingFunctors + [AddTimer(t)];
      id := t.sequence;
    }

    /** cancel, in any thread: it only queues. */
    method Cancel(id: TimerId)
      requires Valid() && id <= numCreated
      modifies this`pendingFunctors
      ensures Valid() && pendingFunctors == old(pendingFunctors) + [CancelTimer(id)]
    {
      OwnedPush(timers, rest + pendingFunctors, numCreated, log, running, CancelTimer(id));
      assert rest + (pendingFunctors + [CancelTimer(id)]) == rest + pendingFunctors + [CancelTimer(id)];
      pendingFunctors := pendingFunctors + [CancelTimer(id)];
    }

    /** timers_.erase(id) on an entry: the Timer goes with it. */
    method Erase(id: TimerId)
      requires id in timers && timers[id].started
      modifies this`timers, timers[id]
      ensures timers == old(timers) - {id}
      ensures var t := old(timers[id]); !t.started && !t.active && !t.pending
    {
      timers[id].Destroy();
      timers := timers - {id};
    }

    /** destroyTimer, as the callback of one-shot timer `id` returns: one entry is erased. */
    method DestroyTimer(id: TimerId)
      requires Valid() && running == Some(id)
      modifies this`timers, this`running, objects
      ensures Valid() && id in old(timers) && timers == old(timers) - {id} && running == None
    {
      OwnedDestroy(timers, rest + pendingFunctors, numCreated, log, id);
      Erase(id);
      running := None;
    }

    /** Calls made while user code runs or, if not `mine`, by other threads meanwhile. What is in the map stays:
        cancelling only queues. Cancelling an id that was never given out is not a legal call, and is skipped. */
    method DoCalls(calls: seq<Call>, mine: bool)
      requires Valid()
      modifies this`numCreated, this`made, this`objects, this`timers, this`pendingFunctors
      ensures Valid() && fresh(objects - old(objects)) && old(made.Keys) <= made.Keys
      ensures forall id :: id in old(timers) ==> id in timers && timers[id] == old(timers)[id]
    {
      var i := 0;
      while i < |calls|
        invariant 0 <= i <= |calls| && Valid() && fresh(objects - old(objects)) && old(made.Keys) <= made.Keys
        invariant forall id :: id in old(timers) ==> id in timers && timers[id] == old(timers)[id]
      {
        match calls[i] {
          case RunTimer(gap, repeat) =>
            if mine {
              var id := RunTimer(gap, repeat);
            }
          case RunTimerElsewhere(gap, repeat) =>
            var id := RunTimerElsewhere(gap, repeat);
          case CancelCall(id) =>
            if id <= numCreated {
              Cancel(id);
            }
        }
        i := i + 1;
      }
    }

    /** ev_invoke_pending takes the watcher off its stack and its callback starts: only an owned timer fires. */
    method Invoke(id: TimerId)
      requires Valid() && id in made && made[id].pending && running == None
      modifies this`running, this`log, made[id]
      ensures Valid() && id in timers && running == Some(id)
      ensures log == old(log) + [Fired(id, timers[id].repeat)]
    {
      hide Owned;
      made[id].pending := false;
      OwnedFire(timers, rest + pendingFunctors, numCreated, log, id);
      ghost var e := Fired(id, timers[id].repeat);
      log, running := log + [e], Some(id);
    }

    /** The end of handleTimerCb. */
    method Return(id: TimerId)
      requires Valid() && running == Some(id) && id in made
      modifies this`timers, this`running, objects
      ensures Valid() && running == None && id in old(timers)
      ensures timers == if made[id].repeat then old(timers) else old(timers) - {id}
    {
      OwnedReturn(timers, rest + pendingFunctors, numCreated, log, id);
      if !made[id].repeat {
        DestroyTimer(id);
      } else {
        running := None;
      }
    }

    /** handleTimerCb; the callback makes `calls`. Whatever it cancels, itself included, the Timer is still in
        the map when the callback returns, and then a one-shot timer goes. */
    method HandleTimerCb(id: TimerId, calls: seq<Call>)
      requires Valid() && id in made && made[id].pending && running == None
      modifies this`numCreated, this`made, this`objects, this`timers, this`pendingFunctors
      modifies this`running, this`log, objects
      ensures Valid() && fresh(objects - old(objects)) && old(made.Keys) <= made.Keys && running == None
      ensures id in old(timers) && log == old(log) + [Fired(id, old(timers)[id].repeat)]
      ensures id in timers <==> old(timers)[id].repeat
    {
      hide Owned;
      Invoke(id);
      DoCalls(calls, true);
      assert id in timers && timers[id] == old(timers)[id];
      Return(id);
    }

    // ---------- functors ----------

    /** cancelTimerInLoop: the timer may be gone already. */
    method CancelTimerInLoop(id: TimerId)
      requires Valid() && running == None && rest != [] && rest[0] == CancelTimer(id)
      modifies this`timers, this`rest, this`log, objects
      ensures Valid() && timers == old(timers) - {id} && rest == old(rest)[1..] && log == old(log) + [Cancelled(id)]
      ensures forall i :: i in timers ==> timers[i].active == old(timers[i].active)
    {
      hide Owned;
      assert rest + pendingFunctors == [CancelTimer(id)] + (rest[1..] + pendingFunctors);
      OwnedPopCancel(timers, rest[1..] + pendingFunctors, numCreated, log, id);
      if id in timers {
        Erase(id);
      } else {
        assert timers - {id} == timers;
      }
      ghost var e := Cancelled(id);
      rest, log := rest[1..], log + [e];
    }

    /** The functor queued by RunTimerElsewhere. */
    method AddTimerFunctor(t: Timer)
      requires Valid() && running == None && rest != [] && rest[0] == AddTimer(t)
      modifies this`timers, this`rest, objects
      ensures Valid() && timers == old(timers)[t.sequence := t] && rest == old(rest)[1..] && t.active
      ensures t.sequence !in old(timers)
      ensures forall i :: i in old(timers) ==> i in timers && timers[i].active == old(timers[i].active)
    {
      assert rest + pendingFunctors == [AddTimer(t)] + (rest[1..] + pendingFunctors);
      OwnedPopAdd(timers, rest[1..] + pendingFunctors, numCreated, log, t);
      assert AddTimer(t) in rest + pendingFunctors;
      AddTimerInLoop(t);
      rest := rest[1..];
    }

    method OtherFunctor()
      requires Valid() && running == None && rest != [] && rest[0] == Other
      modifies this`rest
      ensures Valid() && rest == old(rest)[1..]
    {
      assert rest + pendingFunctors == [Other] + (rest[1..] + pendingFunctors);
      OwnedPopOther(timers, rest[1..] + pendingFunctors, numCreated, log);
      rest := rest[1..];
    }

    method RunFunctor(f: Functor)
      requires Valid() && running == None && rest != [] && rest[0] == f
      modifies this`timers, this`rest, this`log, objects
      ensures Valid() && rest == old(rest)[1..]
      ensures log == old(log) + if f.CancelTimer? then [Cancelled(f.id)] else []
      ensures timers == match f {
                case AddTimer(t) => old(timers)[t.sequence := t]
                case CancelTimer(id) => old(timers) - {id}
                case Other => old(timers)
              }
      ensures f.AddTimer? ==> f.timer.sequence !in old(timers) && f.timer.active
      ensures forall i :: i in timers && i in old(timers) ==> timers[i].active == old(timers[i].active)
    {
      hide Owned, EventLoop.Valid;
      match f {
        case AddTimer(t) => AddTimerFunctor(t);
        case CancelTimer(id) => CancelTimerInLoop(id);
        case Other => OtherFunctor();
      }
    }

    method TakeQueue() returns (functors: seq<Functor>)
      requires Valid() && rest == []
      modifies this`rest, this`pendingFunctors
      ensures Valid() && rest == functors == old(pendingFunctors) && pendingFunctors == []
    {
      hide Owned;
      functors := pendingFunctors;
      rest, pendingFunctors := functors, [];
      assert rest + pendingFunctors == old(rest + pendingFunctors);
    }

    /** The map owns the timer, and it is started. */
    ghost predicate Runs(t: Timer)
      reads this, t
    {
      t.sequence in timers && timers[t.sequence] == t && t.active
    }

    /** doPendingFunctors. While the i-th functor runs, user code or other threads make the calls scripts[i]. */
    method DoPendingFunctors(scripts: seq<seq<Call>>)
      requires Valid() && running == None && rest == []
      modifies this, objects
      ensures Valid() && running == None && rest == [] && fresh(objects - old(objects)) && old(log) <= log
      ensures old(made.Keys) <= made.Keys
      ensures forall id :: CancelTimer(id) in old(pendingFunctors) ==> Cancelled(id) in log
      ensures forall f :: f in old(pendingFunctors) && f.AddTimer? ==>
                Runs(f.timer) || Cancelled(f.timer.sequence) in log
    {
      hide Owned, EventLoop.Valid;
      var functors := TakeQueue();
      var i := 0;
      while i < |functors|
        invariant 0 <= i <= |functors| && rest == functors[i..] && functors == old(pendingFunctors)
        invariant Valid() && running == None && fresh(objects - old(objects)) && old(log) <= log
        invariant old(made.Keys) <= made.Keys
        invariant forall j :: 0 <= j < i && functors[j].CancelTimer? ==> Cancelled(functors[j].id) in log
        invariant forall j :: 0 <= j < i && functors[j].AddTimer? ==>
                    Runs(functors[j].timer) || Cancelled(functors[j].timer.sequence) in log
      {
        RunFunctor(functors[i]);
        DoCalls(if i < |scripts| then scripts[i] else [], functors[i].Other?);
        i := i + 1;
      }
    }

    // ---------- runs ----------

    /** The loop's timer watcher is found due: a one-shot watcher stops, and is fed. */
    method Expire(id: TimerId)
      requires Valid() && id in made && made[id].active
      modifies objects
      ensures Valid() && made[id].View() == Expired(made[id].repeat)
    {
      hide Owned;
      made[id].pending := true;
      if !made[id].repeat {
        made[id].active := false;
      }
    }
  }

  /** What the loop does next; a turn that is not possible is skipped. */
  datatype Turn =
    | Due(id: TimerId)                        // timers_reify feeds the timer
    | Fire(id: TimerId, calls: seq<Call>)     // its callback is invoked
    | Batch(scripts: seq<seq<Call>>)          // the check watcher runs the functors
    | Between(calls: seq<Call>, mine: bool)   // any other callback, or another thread meanwhile

  method Take(loop: EventLoop, turn: Turn)
    requires loop.Valid() && loop.running == None && loop.rest == []
    modifies loop, loop.objects
    ensures loop.Valid() && loop.running == None && loop.rest == [] && fresh(loop.objects - old(loop.objects))
  {
    hide Owned, EventLoop.Valid;
    match turn
    case Due(id) =>
      if id in loop.made && loop.made[id].active {
        loop.Expire(id);
      }
    case Fire(id, calls) =>
      if id in loop.made && loop.made[id].pending {
        loop.HandleTimerCb(id, calls);
      }
    case Batch(scripts) => loop.DoPendingFunctors(scripts);
    case Between(calls, mine) => loop.DoCalls(calls, mine);
  }

  /** In every run no timer fires once its cancel functor has run, and a one-shot timer fires at most once. */
  method Run(loop: EventLoop, turns: seq<Turn>)
    requires loop.Valid() && loop.running == None && loop.rest == []
    modifies loop, loop.objects
    ensures loop.Valid() && QuietAfterCancel(loop.log) && OneShotsOnce(loop.log)
  {
    hide Owned, EventLoop.Valid, QuietAfterCancel, OneShotsOnce;
    for i := 0 to |turns|
      invariant loop.Valid() && loop.running == None && loop.rest == [] && fresh(loop.objects - old(loop.objects))
    {
      Take(loop, turns[i]);
    }
    ValidLog(loop);
  }

  lemma ValidLog(loop: EventLoop)
    requires loop.Valid()
    ensures QuietAfterCancel(loop.log) && OneShotsOnce(loop.log)
  {
  }
}
