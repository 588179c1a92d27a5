/** I/O watchers per fd, the list of changed fds, and the reify pass that brings the backend up to date. */
module Fds {
  import opened Watchers
  import opened Growth
  import opened Pending
  import opened Poll

  /** anfds[fd]: the list of active watchers, the mask the backend knows, and the pending changes. */
  datatype Anfd = Anfd(head: seq<Watcher>, events: Events, reify: Events)

  const SIZEOF_ANFD: nat := 16
  const ANFD_REIFY: Flag := READ  // EV_ANFD_REIFY is bit 0, which is also EV_READ's

  /** The fields of an ev_io. */
  datatype Io = Io(fd: int, events: Events, active: int)

  type View = map<Watcher, Io>

  // ---------- the invariant ----------

  /** The list of an fd holds its active watchers, once each: the ev_verify loop over anfds. */
  ghost predicate Lists(anfds: seq<Anfd>, v: View) {
    && (forall fd {:trigger anfds[fd]} :: 0 <= fd < |anfds| ==> OneList(anfds[fd].head, fd, v))
    && (forall w :: w in v && v[w].active != 0 ==> 0 <= v[w].fd < |anfds| && w in anfds[v[w].fd].head)
  }

  ghost predicate OneList(head: seq<Watcher>, fd: int, v: View) {
    && (forall i {:trigger head[i]} :: 0 <= i < |head| ==>
          head[i] in v && v[head[i]].fd == fd && v[head[i]].active == 1 && v[head[i]].events <= {READ, WRITE})
    && (forall i, j :: 0 <= i < j < |head| ==> head[i] != head[j])
  }

  /** fdchanges holds exactly the fds with a non-zero reify, once each. */
  ghost predicate Changes(anfds: seq<Anfd>, fdchanges: seq<int>) {
    && (forall i, j :: 0 <= i < j < |fdchanges| ==> fdchanges[i] != fdchanges[j])
    && (forall i {:trigger fdchanges[i]} :: 0 <= i < |fdchanges| ==>
          0 <= fdchanges[i] < |anfds| && anfds[fdchanges[i]].reify != {})
    && (forall fd {:trigger anfds[fd]} :: 0 <= fd < |anfds| && anfds[fd].reify != {} ==> fd in fdchanges)
  }

  /** The OR of the masks of a list of watchers. */
  ghost function OrOf(head: seq<Watcher>, v: View): Events {
    if head == [] then {} else (if head[0] in v then v[head[0]].events else {}) + OrOf(head[1..], v)
  }

  /** Every unchanged fd's `events` is the OR of its watchers' masks. */
  ghost predicate Synced(anfds: seq<Anfd>, v: View) {
    forall fd {:trigger anfds[fd]} :: 0 <= fd < |anfds| ==>
      anfds[fd].events <= {READ, WRITE} && (anfds[fd].reify == {} ==> anfds[fd].events == OrOf(anfds[fd].head, v))
  }

  /** What the recorded masks ask poll(2) to watch. */
  ghost function Asked(anfds: seq<Anfd>): map<int, set<PollFlag>> {
    map fd | 0 <= fd < |anfds| && anfds[fd].events != {} :: ToPoll(anfds[fd].events)
  }

  ghost predicate Inv(anfds: seq<Anfd>, fdchanges: seq<int>, v: View) {
    Lists(anfds, v) && Changes(anfds, fdchanges) && Synced(anfds, v)
  }

  // ---------- lemmas ----------

  lemma {:induction false} OrOfFrame(head: seq<Watcher>, v: View, v': View)
    requires forall w :: w in head ==> w in v && w in v' && v[w] == v'[w]
    ensures OrOf(head, v) == OrOf(head, v')
  {
    if head != [] {
      assert forall w :: w in head[1..] ==> w in head;
      OrOfFrame(head[1..], v, v');
    }
  }

  lemma {:induction false} OrOfBound(head: seq<Watcher>, v: View)
    requires forall w :: w in head && w in v ==> v[w].events <= {READ, WRITE}
    ensures OrOf(head, v) <= {READ, WRITE}
  {
    if head != [] {
      assert forall w :: w in head[1..] ==> w in head;
      OrOfBound(head[1..], v);
    }
  }

  lemma Grown(anfds: seq<Anfd>, fdchanges: seq<int>, v: View, more: seq<Anfd>)
    requires Inv(anfds, fdchanges, v) && forall i :: 0 <= i < |more| ==> more[i] == Anfd([], {}, {})
    ensures Inv(anfds + more, fdchanges, v) && Asked(anfds + more) == Asked(anfds)
  {
    forall fd {:trigger (anfds + more)[fd]} | 0 <= fd < |anfds + more|
      ensures (anfds + more)[fd] == if fd < |anfds| then anfds[fd] else Anfd([], {}, {})
    {}
    assert Asked(anfds + more).Keys == Asked(anfds).Keys;
  }

  /** fd_change */
  function Changed(anfds: seq<Anfd>, fdchanges: seq<int>, fd: int): seq<int>
    requires 0 <= fd < |anfds|
  {
    if anfds[fd].reify == {} then fdchanges + [fd] else fdchanges
  }

  /** The two views agree about every active watcher of an fd other than `fd`. */
  ghost predicate AgreeBut(v: View, v': View, fd: int) {
    && (forall w :: w in v && v[w].active != 0 && v[w].fd != fd ==> w in v' && v'[w] == v[w])
    && (forall w :: w in v' && v'[w].active != 0 && v'[w].fd != fd ==> w in v && v[w] == v'[w])
  }

  /** `head` is a proper list of all active watchers of `fd`. */
  ghost predicate NewList(head: seq<Watcher>, fd: int, v: View) {
    OneList(head, fd, v) && forall w :: w in v && v[w].active != 0 && v[w].fd == fd ==> w in head
  }

  lemma ListsChanged(anfds: seq<Anfd>, v: View, fd: int, a: Anfd, v': View)
    requires Lists(anfds, v) && 0 <= fd < |anfds| && AgreeBut(v, v', fd) && NewList(a.head, fd, v')
    ensures Lists(anfds[fd := a], v')
  {
    forall g {:trigger anfds[g]} | 0 <= g < |anfds| && g != fd ensures OneList(anfds[g].head, g, v') {
      assert OneList(anfds[g].head, g, v);
    }
  }

  lemma SyncedChanged(anfds: seq<Anfd>, v: View, fd: int, a: Anfd, v': View)
    requires Lists(anfds, v) && Synced(anfds, v) && 0 <= fd < |anfds| && AgreeBut(v, v', fd)
    requires a.events <= {READ, WRITE} && (a.reify == {} ==> a.events == OrOf(a.head, v'))
    ensures Synced(anfds[fd := a], v')
  {
    forall g {:trigger anfds[g]} | 0 <= g < |anfds| && g != fd
      ensures OrOf(anfds[g].head, v') == OrOf(anfds[g].head, v)
    {
      assert OneList(anfds[g].head, g, v);
      OrOfFrame(anfds[g].head, v, v');
    }
  }

  lemma AskedChanged(anfds: seq<Anfd>, fd: int, a: Anfd)
    requires 0 <= fd < |anfds|
    ensures Asked(anfds[fd := a]) ==
            if a.events == {} then Asked(anfds) - {fd} else Asked(anfds)[fd := ToPoll(a.events)]
  {
    assert Asked(anfds[fd := a]).Keys == if a.events == {} then Asked(anfds).Keys - {fd} else Asked(anfds).Keys + {fd};
  }

  lemma ChangedOk(anfds: seq<Anfd>, fdchanges: seq<int>, fd: int, a: Anfd)
    requires Changes(anfds, fdchanges) && 0 <= fd < |anfds| && a.reify != {}
    ensures Changes(anfds[fd := a], Changed(anfds, fdchanges, fd))
  {
    var c := Changed(anfds, fdchanges, fd);
    assert forall g :: g in c <==> g in fdchanges || g == fd;
  }

  /** The list of one fd may change, if the fd is marked as changed. */
  lemma ListChanged(anfds: seq<Anfd>, fdchanges: seq<int>, v: View, fd: int, head: seq<Watcher>,
                    flags: Events, v': View)
    requires Inv(anfds, fdchanges, v) && 0 <= fd < |anfds| && flags != {}
    requires AgreeBut(v, v', fd) && NewList(head, fd, v')
    ensures var anfds' := anfds[fd := Anfd(head, anfds[fd].events, anfds[fd].reify + flags)];
            Inv(anfds', Changed(anfds, fdchanges, fd), v') && Asked(anfds') == Asked(anfds)
  {
    hide Lists, Changes, AgreeBut, NewList;
    var a := Anfd(head, anfds[fd].events, anfds[fd].reify + flags);
    ListsChanged(anfds, v, fd, a, v');
    SyncedChanged(anfds, v, fd, a, v');
    ChangedOk(anfds, fdchanges, fd, a);
    AskedChanged(anfds, fd, a);
    AskedChanged(anfds, fd, anfds[fd]);
    assert anfds[fd := anfds[fd]] == anfds;
  }

  lemma ChangedListed(anfds: seq<Anfd>, fdchanges: seq<int>, v: View, fd: int)
    requires Inv(anfds, fdchanges, v) && 0 <= fd < |anfds| && anfds[fd].reify != {}
    ensures fd in fdchanges
  {
  }

  lemma ChangeTaken(anfds: seq<Anfd>, fdchanges: seq<int>, a: Anfd)
    requires Changes(anfds, fdchanges) && fdchanges != [] && a.reify == {}
    ensures 0 <= fdchanges[0] < |anfds| && Changes(anfds[fdchanges[0] := a], fdchanges[1..])
  {
    assert forall g :: g in fdchanges <==> g == fdchanges[0] || g in fdchanges[1..];
    assert forall i {:trigger fdchanges[1..][i]} :: 0 <= i < |fdchanges| - 1 ==> fdchanges[1..][i] == fdchanges[i + 1];
  }

  /** One turn of fd_reify's loop: the fd's recorded mask becomes the OR of its watchers' masks. */
  lemma Reified(anfds: seq<Anfd>, fdchanges: seq<int>, v: View)
    requires Inv(anfds, fdchanges, v) && fdchanges != []
    ensures 0 <= fdchanges[0] < |anfds|
    ensures var fd := fdchanges[0];
            var mask := OrOf(anfds[fd].head, v);
            var anfds' := anfds[fd := Anfd(anfds[fd].head, mask, {})];
            && Inv(anfds', fdchanges[1..], v)
            && Asked(anfds') == if mask == {} then Asked(anfds) - {fd} else Asked(anfds)[fd := ToPoll(mask)]
  {
    var fd := fdchanges[0];
    assert 0 <= fd < |anfds| && OneList(anfds[fd].head, fd, v);
    var a := Anfd(anfds[fd].head, OrOf(anfds[fd].head, v), {});
    OrOfBound(anfds[fd].head, v);
    ListsChanged(anfds, v, fd, a, v);
    SyncedChanged(anfds, v, fd, a, v);
    ChangeTaken(anfds, fdchanges, a);
    AskedChanged(anfds, fd, a);
  }

  // ---------- the lists ----------

  ghost function Unlinked(head: seq<Watcher>, w: Watcher): seq<Watcher> {
    if head == [] then [] else if head[0] == w then head[1..] else [head[0]] + Unlinked(head[1..], w)
  }

  lemma {:induction false} UnlinkedMember(head: seq<Watcher>, w: Watcher, x: Watcher)
    requires forall i, j :: 0 <= i < j < |head| ==> head[i] != head[j]
    ensures x in Unlinked(head, w) <==> x in head && x != w
  {
    if head != [] {
      assert forall i :: 0 <= i < |head| - 1 ==> head[1..][i] == head[i + 1];
      assert x in head <==> x == head[0] || x in head[1..];
      assert head[0] !in head[1..];
      UnlinkedMember(head[1..], w, x);
    }
  }

  lemma PrependDistinct(x: Watcher, u: seq<Watcher>)
    requires x !in u && forall i, j :: 0 <= i < j < |u| ==> u[i] != u[j]
    ensures forall i, j :: 0 <= i < j < |u| + 1 ==> ([x] + u)[i] != ([x] + u)[j]
  {
  }

  lemma {:induction false} UnlinkedDistinct(head: seq<Watcher>, w: Watcher)
    requires forall i, j :: 0 <= i < j < |head| ==> head[i] != head[j]
    ensures var u := Unlinked(head, w); forall i, j :: 0 <= i < j < |u| ==> u[i] != u[j]
  {
    if head != [] && head[0] != w {
      var u := Unlinked(head[1..], w);
      assert forall i :: 0 <= i < |head| - 1 ==> head[1..][i] == head[i + 1];
      UnlinkedDistinct(head[1..], w);
      UnlinkedMember(head[1..], w, head[0]);
      PrependDistinct(head[0], u);
    }
  }

  lemma Started(anfds: seq<Anfd>, fdchanges: seq<int>, v: View, w: Watcher, events: Events)
    requires Inv(anfds, fdchanges, v) && w in v && v[w].active == 0 && 0 <= v[w].fd < |anfds| && events <= {READ, WRITE}
    ensures var fd := v[w].fd; var v' := v[w := Io(fd, events, 1)];
            AgreeBut(v, v', fd) && NewList([w] + anfds[fd].head, fd, v')
  {
    var fd, v' := v[w].fd, v[w := Io(v[w].fd, events, 1)];
    var head := anfds[fd].head;
    assert OneList(head, fd, v);
    forall i {:trigger ([w] + head)[i]} | 0 <= i < |head| + 1
      ensures ([w] + head)[i] == if i == 0 then w else head[i - 1]
    {}
  }

  lemma Stopped(anfds: seq<Anfd>, fdchanges: seq<int>, v: View, w: Watcher)
    requires Inv(anfds, fdchanges, v) && w in v && v[w].active != 0
    ensures 0 <= v[w].fd < |anfds|
    ensures var fd := v[w].fd; var v' := v[w := v[w].(active := 0)];
            AgreeBut(v, v', fd) && NewList(Unlinked(anfds[fd].head, w), fd, v')
  {
    var fd := v[w].fd;
    var head := anfds[fd].head;
    assert OneList(head, fd, v);
    var u := Unlinked(head, w);
    UnlinkedDistinct(head, w);
    forall i {:trigger u[i]} | 0 <= i < |u| ensures u[i] in head && u[i] != w {
      UnlinkedMember(head, w, u[i]);
    }
    forall x | x in head && x != w ensures x in u {
      UnlinkedMember(head, w, x);
    }
  }

  lemma {:induction false} UnlinkedAt(head: seq<Watcher>, w: Watcher, i: nat)
    requires i <= |head| && w !in head[..i] && (i < |head| ==> head[i] == w)
    ensures Unlinked(head, w) == if i < |head| then head[..i] + head[i + 1..] else head
  {
    if i > 0 {
      assert head[0] in head[..i] && head[1..][..i - 1] == head[..i][1..];
      UnlinkedAt(head[1..], w, i - 1);
    }
  }

  method WlistDel(head: seq<Watcher>, w: Watcher) returns (r: seq<Watcher>)
    ensures r == Unlinked(head, w)
  {
    var i := 0;
    while i < |head| && head[i] != w
      invariant 0 <= i <= |head| && w !in head[..i]
    {
      i := i + 1;
    }
    UnlinkedAt(head, w, i);
    r := if i < |head| then head[..i] + head[i + 1..] else head;
  }

  class FdTable {
    ghost const universe: set<Watcher>
    const pend: Pendings
    const poll: PollTable
    var anfds: seq<Anfd>
    var fdchanges: seq<int>

    ghost function Ios(): View
      reads universe`fd, universe`events, universe`active
    {
      map w | w in universe :: Io(w.fd, w.events, w.active)
    }

    /** The part that does not depend on what is pending. */
    ghost predicate Sound()
      reads this, poll, universe`fd, universe`events, universe`active
    {
      && universe <= pend.ws && poll.Valid()
      && Inv(anfds, fdchanges, Ios()) && poll.Interest() == Asked(anfds)
    }

    ghost predicate Valid()
      reads this, pend, poll, pend.ws`pending
      reads universe`fd, universe`events, universe`active
    {
      Sound() && pend.Valid()
    }

    /** The watchers of an fd, the last one started first. */
    ghost function Watching(fd: int): seq<Watcher>
      reads this`anfds
    {
      if 0 <= fd < |anfds| then anfds[fd].head else []
    }

    constructor (pend: Pendings, ghost universe: set<Watcher>)
      requires pend.Valid() && universe <= pend.ws && forall w :: w in universe ==> w.active == 0
      ensures Valid() && this.pend == pend && this.universe == universe && fresh(poll)
      ensures forall fd :: Watching(fd) == []
    {
      this.pend, this.universe := pend, universe;
      poll := new PollTable();
      anfds, fdchanges := [], [];
    }

    method NeedFd(fd: int)
      requires Valid() && fd >= 0
      modifies this`anfds
      ensures Valid() && fd < |anfds| && forall g :: Watching(g) == old(Watching(g))
    {
      hide Pendings.Valid, PollTable.Valid, Inv, Asked;
      if fd + 1 > |anfds| {
        var ncur := ArrayNextsize(SIZEOF_ANFD, |anfds|, fd + 1);
        var more := seq(ncur - |anfds|, _ => Anfd([], {}, {}));
        Grown(anfds, fdchanges, Ios(), more);
        anfds := anfds + more;
      }
    }

    /** wlist_add or wlist_del, and fd_change. */
    method SetList(fd: int, head: seq<Watcher>, flags: Events, ghost v: View)
      requires 0 <= fd < |anfds| && Inv(anfds, fdchanges, v) && flags != {}
      requires AgreeBut(v, Ios(), fd) && NewList(head, fd, Ios())
      modifies this
      ensures Inv(anfds, fdchanges, Ios()) && Asked(anfds) == old(Asked(anfds)) && fd in fdchanges
      ensures forall g :: Watching(g) == if g == fd then head else old(Watching(g))
    {
      hide Inv, Asked, AgreeBut, NewList;
      ListChanged(anfds, fdchanges, v, fd, head, flags, Ios());
      if anfds[fd].reify != {} {
        ChangedListed(anfds, fdchanges, v, fd);
      }
      var reify := anfds[fd].reify;
      anfds := anfds[fd := Anfd(head, anfds[fd].events, reify + flags)];
      if reify == {} {
        fdchanges := fdchanges + [fd];
      }
    }

    /** ev_io_set: only an inactive watcher may be changed. */
    method IoSet(w: Watcher, fd: int, events: Events)
      requires Valid() && w in universe && w.active == 0
      modifies w`fd, w`events
      ensures Valid() && w.fd == fd && w.events == events + {IOFDSET}
    {
      hide Pendings.Valid, PollTable.Valid, Asked;
      ghost var v := Ios();
      w.fd, w.events := fd, events + {IOFDSET};
      forall g {:trigger anfds[g]} | 0 <= g < |anfds| ensures OrOf(anfds[g].head, v) == OrOf(anfds[g].head, Ios()) {
        assert OneList(anfds[g].head, g, v);
        OrOfFrame(anfds[g].head, v, Ios());
      }
    }

    method IoStart(w: Watcher)
      requires Valid() && w in universe
      requires w.active == 0 ==> w.fd >= 0 && w.events <= {IOFDSET, READ, WRITE}
      modifies this, w`active, w`events
      ensures Valid() && w.active != 0
      ensures forall fd :: Watching(fd) == (if fd == w.fd && old(w.active) == 0 then [w] else []) + old(Watching(fd))
      ensures old(w.active) == 0 ==> w.fd in fdchanges && w.events == old(w.events) - {IOFDSET}
    {
      hide Pendings.Valid, PollTable.Valid, Asked, Inv, AgreeBut, NewList;
      if w.active != 0 {
        return;
      }
      NeedFd(w.fd);
      ghost var v := Ios();
      Started(anfds, fdchanges, v, w, w.events - {IOFDSET});
      var flags := w.events * {IOFDSET} + {ANFD_REIFY};
      w.active := 1;
      w.events := w.events - {IOFDSET};
      assert Ios() == v[w := Io(w.fd, w.events, 1)];
      SetList(w.fd, [w] + anfds[w.fd].head, flags, v);
    }

    method IoStop(w: Watcher)
      requires Valid() && w in universe
      modifies this, w`active, pend`pendings, pend`log, w`pending
      ensures Valid() && w.active == 0 && w.pending == 0 && pend.log == old(pend.log) + [Cleared(w)]
      ensures forall fd :: fd != w.fd || old(w.active) == 0 ==> Watching(fd) == old(Watching(fd))
      ensures old(w.active) != 0 ==> Watching(w.fd) == Unlinked(old(Watching(w.fd)), w) && w.fd in fdchanges
    {
      hide Pendings.Valid, PollTable.Valid, Asked, Inv, AgreeBut, NewList;
      pend.ClearPending(w);
      if w.active == 0 {
        return;
      }
      ghost var v := Ios();
      Stopped(anfds, fdchanges, v, w);
      var head := WlistDel(anfds[w.fd].head, w);
      w.active := 0;
      assert Ios() == v[w := v[w].(active := 0)];
      SetList(w.fd, head, {ANFD_REIFY}, v);
    }

    // ---------- fd_reify ----------

    method OrMasks(head: seq<Watcher>) returns (events: Events)
      requires forall w :: w in head ==> w in universe
      ensures events == OrOf(head, Ios())
    {
      events := {};
      for i := 0 to |head|
        invariant events + OrOf(head[i..], Ios()) == OrOf(head, Ios())
      {
        assert head[i..][1..] == head[i + 1..];
        events := events + head[i].events;
      }
    }

    /** One changed fd: recompute its mask and tell the backend if it differs or the fd was reset. */
    method ReifyNext(fd: int, ghost changes: seq<int>)
      requires poll.Valid() && changes != [] && Inv(anfds, changes, Ios()) && poll.Interest() == Asked(anfds)
      requires fd == changes[0]
      modifies this`anfds, poll
      ensures poll.Valid() && Inv(anfds, changes[1..], Ios()) && poll.Interest() == Asked(anfds)
      ensures forall g :: Watching(g) == old(Watching(g))
    {
      hide PollTable.Valid, PollTable.Interest, ToPoll, Asked, Inv;
      Reified(anfds, changes, Ios());
      ListMembers(fd, changes);
      AskedAt(fd);
      var oEvents, oReify := anfds[fd].events, anfds[fd].reify;
      var events := OrMasks(anfds[fd].head);
      anfds := anfds[fd := Anfd(anfds[fd].head, events, {})];
      TellBackend(fd, oReify, oEvents, events);
    }

    lemma AskedAt(fd: int)
      requires 0 <= fd < |anfds|
      ensures var e := anfds[fd].events;
              Asked(anfds) == if e == {} then Asked(anfds) - {fd} else Asked(anfds)[fd := ToPoll(e)]
    {
    }

    method TellBackend(fd: int, reify: Events, oEvents: Events, events: Events)
      requires poll.Valid() && fd >= 0
      requires poll.Interest() ==
               if oEvents == {} then poll.Interest() - {fd} else poll.Interest()[fd := ToPoll(oEvents)]
      modifies poll
      ensures poll.Valid()
      ensures poll.Interest() ==
              if events == {} then old(poll.Interest()) - {fd} else old(poll.Interest())[fd := ToPoll(events)]
    {
      hide PollTable.Valid, PollTable.Interest, ToPoll;
      var oReify := reify;
      if oEvents != events {
        oReify := {IOFDSET};
      }
      if IOFDSET in oReify {
        poll.PollModify(fd, oEvents, events);
      }
    }

    lemma ListMembers(fd: int, changes: seq<int>)
      requires Inv(anfds, changes, Ios()) && 0 <= fd < |anfds|
      ensures forall w :: w in anfds[fd].head ==> w in universe
    {
      assert OneList(anfds[fd].head, fd, Ios());
    }

    method FdReify()
      requires Valid()
      modifies this, poll
      ensures Valid() && fdchanges == []
      ensures forall g :: Watching(g) == old(Watching(g))
    {
      hide Pendings.Valid, PollTable.Valid, Asked, Inv;
      var changecnt := |fdchanges|;
      ghost var changes := fdchanges;
      for i := 0 to changecnt
        invariant fdchanges == changes && poll.Valid()
        invariant Inv(anfds, changes[i..], Ios()) && poll.Interest() == Asked(anfds)
        invariant forall g :: Watching(g) == old(Watching(g))
      {
        assert changes[i..][1..] == changes[i + 1..];
        ReifyNext(fdchanges[i], changes[i..]);
      }
      fdchanges := fdchanges[changecnt..];
    }

    /** Some active watcher of the fd asks for `flag`. */
    ghost predicate Wanted(fd: int, flag: Flag)
      reads universe`fd, universe`events, universe`active
    {
      exists w :: w in universe && w.active != 0 && w.fd == fd && flag in w.events
    }

    lemma WantedInMask(fd: int, flag: Flag)
      requires Valid() && 0 <= fd < |anfds|
      ensures Wanted(fd, flag) <==> flag in OrOf(anfds[fd].head, Ios())
    {
      var head, v := anfds[fd].head, Ios();
      assert OneList(head, fd, v);
      OrOfHas(head, v, flag);
      if Wanted(fd, flag) {
        var w :| w in universe && w.active != 0 && w.fd == fd && flag in w.events;
        assert v[w].active != 0 && w in head;
        var i :| 0 <= i < |head| && head[i] == w;
        assert flag in v[head[i]].events;
      }
      if flag in OrOf(head, v) {
        var i :| 0 <= i < |head| && flag in v[head[i]].events;
        assert head[i] in universe && head[i].active != 0 && head[i].fd == fd;
      }
    }

    /** With no change outstanding poll(2) watches an fd for exactly what some active watcher of it wants. */
    lemma BackendIsExact(fd: int)
      requires Valid() && fdchanges == []
      ensures fd in poll.Interest() <==> Wanted(fd, READ) || Wanted(fd, WRITE)
      ensures fd in poll.Interest() ==> (POLLIN in poll.Interest()[fd] <==> Wanted(fd, READ))
      ensures fd in poll.Interest() ==> (POLLOUT in poll.Interest()[fd] <==> Wanted(fd, WRITE))
    {
      if 0 <= fd < |anfds| {
        WantedInMask(fd, READ);
        WantedInMask(fd, WRITE);
        var a := anfds[fd];
        assert a.reify == {} && a.events == OrOf(a.head, Ios()) && a.events <= {READ, WRITE};
      } else {
        assert forall w :: w in universe && w.active != 0 ==> Ios()[w].active != 0;
      }
    }

    // ---------- events from the backend ----------

    /** fd_event: nothing for an fd that changed while poll ran; else each watcher that asked for it. */
    method FdEvent(fd: int, revents: Events)
      requires Valid() && 0 <= fd < |anfds|
      modifies pend`pendings, pend`pendingpri, pend`log, universe`pending
      ensures Valid()
      ensures pend.log == old(pend.log) + if anfds[fd].reify == {} then FdFeeds(Watching(fd), revents, Ios()) else []
    {
      hide Pendings.Valid, PollTable.Valid, Asked, FdFeeds;
      if anfds[fd].reify == {} {
        var head := anfds[fd].head;
        assert OneList(head, fd, Ios());
        FdFeedsNone(revents, Ios());
        for i := 0 to |head|
          invariant Valid() && pend.log == old(pend.log) + FdFeeds(head[..i], revents, Ios())
        {
          FdFeedsLast(head[..i], head[i], revents, Ios());
          assert head[..i + 1] == head[..i] + [head[i]];
          var ev := head[i].events * revents;
          if ev != {} {
            pend.FeedEvent(head[i], ev);
          }
        }
        assert head[..|head|] == head;
      }
    }
  }

  lemma {:induction false} OrOfHas(head: seq<Watcher>, v: View, flag: Flag)
    requires forall w :: w in head ==> w in v
    ensures flag in OrOf(head, v) <==> exists i :: 0 <= i < |head| && flag in v[head[i]].events
  {
    if head != [] {
      assert forall i :: 0 <= i < |head| - 1 ==> head[1..][i] == head[i + 1];
      OrOfHas(head[1..], v, flag);
    }
  }

  /** What fd_event_nocheck adds to the history. */
  ghost function FdFeeds(head: seq<Watcher>, revents: Events, v: View): seq<Event> {
    if head == [] then []
    else
      var w := head[|head| - 1];
      FdFeeds(head[..|head| - 1], revents, v) +
      if w in v && v[w].events * revents != {} then [Fed(w, v[w].events * revents)] else []
  }

  lemma FdFeedsNone(revents: Events, v: View)
    ensures FdFeeds([], revents, v) == []
  {
  }

  lemma FdFeedsLast(head: seq<Watcher>, w: Watcher, revents: Events, v: View)
    requires w in v
    ensures FdFeeds(head + [w], revents, v) ==
            FdFeeds(head, revents, v) + if v[w].events * revents != {} then [Fed(w, v[w].events * revents)] else []
  {
    assert (head + [w])[..|head|] == head;
  }
}
