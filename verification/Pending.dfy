/** The per-priority stacks of pending watchers. */
module Pending {
  import opened Watchers

  datatype Anpending = Anpending(w: Watcher, events: Events)

  type Stack = seq<Anpending>

  // ---------- what is pending, as told by the history of calls ----------

  datatype Event =
    | Fed(w: Watcher, events: Events)      // ev_feed_event
    | Cleared(w: Watcher)                  // clear_pending, ev_clear_pending
    | Invoked(w: Watcher, events: Events)  // popped by ev_invoke_pending

  ghost predicate Has(l: Stack, w: Watcher) {
    exists i :: 0 <= i < |l| && l[i].w == w
  }

  ghost function Without(l: Stack, w: Watcher): Stack {
    if l == [] then []
    else if l[|l| - 1].w == w then Without(l[..|l| - 1], w)
    else Without(l[..|l| - 1], w) + [l[|l| - 1]]
  }

  function Merge(e: Anpending, w: Watcher, events: Events): Anpending {
    if e.w == w then Anpending(w, e.events + events) else e
  }

  ghost function Or(l: Stack, w: Watcher, events: Events): Stack {
    if l == [] then [] else Or(l[..|l| - 1], w, events) + [Merge(l[|l| - 1], w, events)]
  }

  /** A watcher fed while pending keeps its place and gathers the events; otherwise it goes on top. */
  ghost function Feeding(l: Stack, w: Watcher, events: Events): Stack {
    if Has(l, w) then Or(l, w, events) else l + [Anpending(w, events)]
  }

  /** The pending watchers of priority `pri` after a history, the last one on top. */
  ghost function PendingAfter(log: seq<Event>, pri: Pri): Stack {
    if log == [] then []
    else
      After(PendingAfter(log[..|log| - 1], pri), log[|log| - 1], pri)
  }

  ghost function After(l: Stack, e: Event, pri: Pri): Stack {
    if e.w.pri != pri then l
    else if e.Fed? then Feeding(l, e.w, e.events)
    else Without(l, e.w)
  }

  /** The history invokes only pending watchers, with all events fed since, from the top of the
      highest priority at which something is pending. */
  ghost predicate TopPriority(log: seq<Event>) {
    forall i :: 0 <= i < |log| && log[i].Invoked? ==> OnTop(log[..i], log[i].w, log[i].events)
  }

  ghost predicate OnTop(log: seq<Event>, w: Watcher, events: Events) {
    var l := PendingAfter(log, w.pri);
    && l != [] && l[|l| - 1] == Anpending(w, events)
    && forall pri: Pri :: pri > w.pri ==> PendingAfter(log, pri) == []
  }

  // ---------- the stacks with their dummy slots ----------

  /** A stack without the slots that hold the dummy watcher. */
  ghost function Live(s: Stack, dummy: Watcher): Stack {
    if s == [] then []
    else if s[|s| - 1].w == dummy then Live(s[..|s| - 1], dummy)
    else Live(s[..|s| - 1], dummy) + [s[|s| - 1]]
  }

  lemma {:induction false} LiveHas(s: Stack, dummy: Watcher, w: Watcher)
    requires w != dummy
    ensures Has(Live(s, dummy), w) <==> Has(s, w)
  {
    if s != [] {
      LiveHas(s[..|s| - 1], dummy, w);
      var t := Live(s[..|s| - 1], dummy);
      if s[|s| - 1].w != dummy {
        assert (t + [s[|s| - 1]])[|t|] == s[|s| - 1];
        assert forall i :: 0 <= i < |t| ==> (t + [s[|s| - 1]])[i] == t[i];
      }
    }
  }

  lemma {:induction false} LiveOr(s: Stack, dummy: Watcher, w: Watcher, events: Events)
    requires w != dummy
    ensures Live(Or(s, w, events), dummy) == Or(Live(s, dummy), w, events)
  {
    if s != [] {
      var u := s[..|s| - 1];
      LiveOr(u, dummy, w, events);
      assert Or(s, w, events)[..|Or(u, w, events)|] == Or(u, w, events);
      if s[|s| - 1].w != dummy {
        assert Live(s, dummy)[..|Live(u, dummy)|] == Live(u, dummy);
      }
    }
  }

  lemma {:induction false} OrIsUpdate(s: Stack, w: Watcher, events: Events, i: nat)
    requires i < |s| && s[i].w == w && forall j :: 0 <= j < |s| && j != i ==> s[j].w != w
    ensures Or(s, w, events) == s[i := Merge(s[i], w, events)]
  {
    var u := s[..|s| - 1];
    if i == |s| - 1 {
      OrAbsent(u, w, events);
    } else {
      OrIsUpdate(u, w, events, i);
    }
  }

  lemma {:induction false} OrAbsent(l: Stack, w: Watcher, events: Events)
    requires forall i :: 0 <= i < |l| ==> l[i].w != w
    ensures Or(l, w, events) == l
  {
    if l != [] {
      OrAbsent(l[..|l| - 1], w, events);
    }
  }

  lemma LiveSnoc(u: Stack, e: Anpending, dummy: Watcher)
    ensures Live(u + [e], dummy) == if e.w == dummy then Live(u, dummy) else Live(u, dummy) + [e]
  {
    assert (u + [e])[..|u|] == u;
  }

  lemma WithoutSnoc(l: Stack, e: Anpending, w: Watcher)
    ensures Without(l + [e], w) == if e.w == w then Without(l, w) else Without(l, w) + [e]
  {
    assert (l + [e])[..|l|] == l;
  }

  lemma {:induction false} LiveWithout(s: Stack, dummy: Watcher, w: Watcher, i: nat)
    requires w != dummy && i < |s| && s[i].w == w && forall j :: 0 <= j < |s| && j != i ==> s[j].w != w
    ensures Live(s[i := s[i].(w := dummy)], dummy) == Without(Live(s, dummy), w)
  {
    hide Live, Without;
    var u, e := s[..|s| - 1], s[|s| - 1];
    assert s == u + [e];
    LiveSnoc(u, e, dummy);
    WithoutSnoc(Live(u, dummy), e, w);
    if i == |s| - 1 {
      assert s[i := e.(w := dummy)] == u + [e.(w := dummy)];
      LiveSnoc(u, e.(w := dummy), dummy);
      LiveHas(u, dummy, w);
      WithoutAbsent(Live(u, dummy), w);
    } else {
      assert s[i := s[i].(w := dummy)] == u[i := u[i].(w := dummy)] + [e];
      LiveSnoc(u[i := u[i].(w := dummy)], e, dummy);
      LiveWithout(u, dummy, w, i);
    }
  }

  lemma {:induction false} WithoutAbsent(l: Stack, w: Watcher)
    requires !Has(l, w)
    ensures Without(l, w) == l
  {
    if l != [] {
      assert forall i :: 0 <= i < |l| - 1 ==> l[..|l| - 1][i] == l[i];
      WithoutAbsent(l[..|l| - 1], w);
    }
  }

  /** The stacks, dummies aside, are what the history says is pending. */
  ghost predicate Refines(pendings: seq<Stack>, dummy: Watcher, log: seq<Event>) {
    && |pendings| == NUMPRI
    && (forall p: Pri :: Live(pendings[p], dummy) == PendingAfter(log, p))
    && TopPriority(log)
  }

  lemma PendingAfterSnoc(log: seq<Event>, e: Event, pri: Pri)
    ensures PendingAfter(log + [e], pri) == After(PendingAfter(log, pri), e, pri)
  {
    assert (log + [e])[..|log|] == log;
  }

  lemma TopPrioritySnoc(log: seq<Event>, e: Event)
    requires TopPriority(log) && (e.Invoked? ==> OnTop(log, e.w, e.events))
    ensures TopPriority(log + [e])
  {
    hide PendingAfter, OnTop;
    var log' := log + [e];
    forall i | 0 <= i < |log'| && log'[i].Invoked? ensures OnTop(log'[..i], log'[i].w, log'[i].events) {
      assert log'[..i] == if i == |log| then log else log[..i];
    }
  }

  lemma RefinesAfter(pendings: seq<Stack>, dummy: Watcher, log: seq<Event>, e: Event, s: Stack)
    requires Refines(pendings, dummy, log) && (e.Invoked? ==> OnTop(log, e.w, e.events))
    requires Live(s, dummy) == After(PendingAfter(log, e.w.pri), e, e.w.pri)
    ensures Refines(pendings[e.w.pri := s], dummy, log + [e])
  {
    hide TopPriority, PendingAfter, Live, OnTop;
    TopPrioritySnoc(log, e);
    forall p: Pri ensures Live(pendings[e.w.pri := s][p], dummy) == PendingAfter(log + [e], p) {
      PendingAfterSnoc(log, e, p);
    }
  }

  lemma RefinesFedAgain(pendings: seq<Stack>, dummy: Watcher, log: seq<Event>, w: Watcher, events: Events, i: nat)
    requires Refines(pendings, dummy, log) && w != dummy
    requires var s := pendings[w.pri]; i < |s| && s[i].w == w && forall j :: 0 <= j < |s| && j != i ==> s[j].w != w
    ensures var s := pendings[w.pri];
            Refines(pendings[w.pri := s[i := Merge(s[i], w, events)]], dummy, log + [Fed(w, events)])
  {
    var s := pendings[w.pri];
    LiveHas(s, dummy, w);
    assert Has(s, w);
    LiveOr(s, dummy, w, events);
    OrIsUpdate(s, w, events, i);
    RefinesAfter(pendings, dummy, log, Fed(w, events), s[i := Merge(s[i], w, events)]);
  }

  lemma RefinesFedFirst(pendings: seq<Stack>, dummy: Watcher, log: seq<Event>, w: Watcher, events: Events)
    requires Refines(pendings, dummy, log) && w != dummy
    requires var s := pendings[w.pri]; forall i :: 0 <= i < |s| ==> s[i].w != w
    ensures Refines(pendings[w.pri := pendings[w.pri] + [Anpending(w, events)]], dummy, log + [Fed(w, events)])
  {
    var s := pendings[w.pri];
    LiveHas(s, dummy, w);
    assert !Has(s, w);
    assert (s + [Anpending(w, events)])[..|s|] == s;
    RefinesAfter(pendings, dummy, log, Fed(w, events), s + [Anpending(w, events)]);
  }

  lemma RefinesCleared(pendings: seq<Stack>, dummy: Watcher, log: seq<Event>, w: Watcher, i: nat)
    requires Refines(pendings, dummy, log) && w != dummy
    requires var s := pendings[w.pri]; i < |s| && s[i].w == w && forall j :: 0 <= j < |s| && j != i ==> s[j].w != w
    ensures Refines(pendings[w.pri := pendings[w.pri][i := pendings[w.pri][i].(w := dummy)]], dummy, log + [Cleared(w)])
  {
    LiveWithout(pendings[w.pri], dummy, w, i);
    RefinesAfter(pendings, dummy, log, Cleared(w), pendings[w.pri][i := pendings[w.pri][i].(w := dummy)]);
  }

  lemma RefinesNotPending(pendings: seq<Stack>, dummy: Watcher, log: seq<Event>, w: Watcher)
    requires Refines(pendings, dummy, log) && w != dummy
    requires var s := pendings[w.pri]; forall i :: 0 <= i < |s| ==> s[i].w != w
    ensures Refines(pendings, dummy, log + [Cleared(w)])
  {
    LiveHas(pendings[w.pri], dummy, w);
    assert !Has(pendings[w.pri], w);
    WithoutAbsent(PendingAfter(log, w.pri), w);
    RefinesAfter(pendings, dummy, log, Cleared(w), pendings[w.pri]);
    assert pendings[w.pri := pendings[w.pri]] == pendings;
  }

  lemma RefinesPopped(pendings: seq<Stack>, dummy: Watcher, log: seq<Event>, pri: Pri)
    requires Refines(pendings, dummy, log) && pendings[pri] != []
    requires forall p: Pri :: p > pri ==> pendings[p] == []
    requires var s := pendings[pri]; var e := s[|s| - 1];
             e.w != dummy ==> e.w.pri == pri && forall i :: 0 <= i < |s| - 1 ==> s[i].w != e.w
    ensures var s := pendings[pri]; var e := s[|s| - 1];
            Refines(pendings[pri := s[..|s| - 1]], dummy, if e.w == dummy then log else log + [Invoked(e.w, e.events)])
  {
    var s := pendings[pri];
    var e, u := s[|s| - 1], s[..|s| - 1];
    if e.w != dummy {
      LiveHas(u, dummy, e.w);
      WithoutAbsent(Live(u, dummy), e.w);
      assert (Live(u, dummy) + [e])[..|Live(u, dummy)|] == Live(u, dummy);
      RefinesAfter(pendings, dummy, log, Invoked(e.w, e.events), u);
    }
  }

  class Pendings {
    ghost const ws: set<Watcher>    // the watchers used with this loop
    const dummy: Watcher            // pending_w
    var pendings: seq<Stack>        // pendings[pri][..pendingcnt[pri]]
    var pendingpri: nat
    ghost var log: seq<Event>

    /** Each pending watcher owns the slot its `pending` number names; every other slot holds the dummy. */
    ghost predicate Slots()
      reads this`pendings, ws`pending
    {
      && dummy !in ws && |pendings| == NUMPRI
      && (forall p: Pri :: OwnSlots(pendings[p], p))
      && (forall w :: w in ws ==> InSlot(w, pendings[w.pri]))
    }

    ghost predicate OwnSlots(s: Stack, p: Pri)
      reads ws`pending
    {
      forall i :: 0 <= i < |s| && s[i].w != dummy ==> s[i].w in ws && s[i].w.pri == p && s[i].w.pending == i + 1
    }

    /** verify_watcher */
    ghost predicate InSlot(w: Watcher, s: Stack)
      reads w`pending
    {
      w.pending > 0 ==> w.pending <= |s| && s[w.pending - 1].w == w
    }

    ghost predicate Valid()
      reads this, ws`pending
    {
      Slots() && Refines(pendings, dummy, log) && Tidy()
    }

    /** No stack above `pendingpri` holds anything. */
    ghost predicate Tidy()
      requires |pendings| == NUMPRI
      reads this`pendings, this`pendingpri
    {
      pendingpri < NUMPRI && forall p: Pri :: p > pendingpri ==> pendings[p] == []
    }

    constructor (ghost ws: set<Watcher>)
      requires forall w :: w in ws ==> w.pending == 0
      ensures Valid() && this.ws == ws && log == []
    {
      this.ws := ws;
      dummy := new Watcher(0);
      pendings, pendingpri := [[], [], [], [], []], 0;
      log := [];
    }

    method FeedEvent(w: Watcher, revents: Events)
      requires Valid() && w in ws
      modifies this`pendings, this`pendingpri, this`log, w`pending
      ensures Valid() && log == old(log) + [Fed(w, revents)] && pendingpri == NUMPRI - 1
      ensures w.pending > 0 && (old(w.pending) > 0 ==> w.pending == old(w.pending))
    {
      if w.pending != 0 {
        FeedAgain(w, revents);
      } else {
        FeedFirst(w, revents);
      }
      pendingpri := NUMPRI - 1;
    }

    method FeedAgain(w: Watcher, revents: Events)
      requires Valid() && w in ws && w.pending > 0
      modifies this`pendings, this`log
      ensures Slots() && Refines(pendings, dummy, log) && log == old(log) + [Fed(w, revents)]
    {
      hide Refines;
      var s, i := pendings[w.pri], w.pending - 1;
      RefinesFedAgain(pendings, dummy, log, w, revents, i);
      ghost var t := s[i := Merge(s[i], w, revents)];
      assert forall j {:trigger t[j]} :: 0 <= j < |s| ==> t[j].w == s[j].w;
      pendings := pendings[w.pri := s[i := Merge(s[i], w, revents)]];
      log := log + [Fed(w, revents)];
    }

    method FeedFirst(w: Watcher, revents: Events)
      requires Valid() && w in ws && w.pending == 0
      modifies this`pendings, this`log, w`pending
      ensures Slots() && Refines(pendings, dummy, log) && log == old(log) + [Fed(w, revents)] && w.pending > 0
    {
      hide Refines;
      var s := pendings[w.pri];
      RefinesFedFirst(pendings, dummy, log, w, revents);
      w.pending := |s| + 1;
      pendings := pendings[w.pri := s + [Anpending(w, revents)]];
      log := log + [Fed(w, revents)];
    }

    method ClearPending(w: Watcher)
      requires Valid() && w in ws
      modifies this`pendings, this`log, w`pending
      ensures Valid() && log == old(log) + [Cleared(w)] && w.pending == 0
    {
      hide Refines;
      if w.pending != 0 {
        RefinesCleared(pendings, dummy, log, w, w.pending - 1);
        LeaveSlot(w);
      } else {
        RefinesNotPending(pendings, dummy, log, w);
      }
      log := log + [Cleared(w)];
    }

    /** The slot of a pending watcher goes to the dummy. */
    method LeaveSlot(w: Watcher)
      requires Slots() && Tidy() && w in ws && w.pending > 0
      modifies this`pendings, w`pending
      ensures Slots() && Tidy() && w.pending == 0
      ensures var s, i := old(pendings)[w.pri], old(w.pending) - 1;
              pendings == old(pendings)[w.pri := s[i := s[i].(w := dummy)]]
    {
      var i := w.pending - 1;
      pendings := pendings[w.pri := pendings[w.pri][i := pendings[w.pri][i].(w := dummy)]];
      w.pending := 0;
    }

    /** ev_pending_count, with the dummies. */
    ghost function SlotCount(): nat
      requires |pendings| == NUMPRI
      reads this`pendings
    {
      |pendings[0]| + |pendings[1]| + |pendings[2]| + |pendings[3]| + |pendings[4]|
    }

    /** The top slot of stack `pendingpri`. */
    function Top(): Anpending
      requires pendingpri < |pendings| && pendings[pendingpri] != []
      reads this`pendings, this`pendingpri
    {
      pendings[pendingpri][|pendings[pendingpri]| - 1]
    }

    lemma TopIsKnown()
      requires Valid() && pendings[pendingpri] != []
      ensures Top().w == dummy || Top().w in ws
    {
    }

    /** Takes the top slot of stack `pendingpri`, which is `e`. */
    method Pop(e: Anpending)
      requires Valid() && pendings[pendingpri] != [] && e == Top()
      modifies this`pendings, this`log, e.w`pending
      ensures Valid() && e.w.pending == 0 && (e.w == dummy || e.w in ws)
      ensures var s := old(pendings[pendingpri]); pendings == old(pendings)[pendingpri := s[..|s| - 1]]
      ensures log == if e.w == dummy then old(log) else old(log) + [Invoked(e.w, e.events)]
    {
      hide Refines;
      RefinesPopped(pendings, dummy, log, pendingpri);
      DropTop(e);
      log := if e.w == dummy then log else log + [Invoked(e.w, e.events)];
    }

    method DropTop(e: Anpending)
      requires Slots() && Tidy() && pendings[pendingpri] != [] && e == Top()
      modifies this`pendings, e.w`pending
      ensures Slots() && Tidy() && e.w.pending == 0 && (e.w == dummy || e.w in ws)
      ensures var s := old(pendings[pendingpri]); pendings == old(pendings)[pendingpri := s[..|s| - 1]]
    {
      var s := pendings[pendingpri];
      pendings := pendings[pendingpri := s[..|s| - 1]];
      e.w.pending := 0;
    }
  }
}
