/** The poll backend's interest table: a dense array of pollfds and an index from fds into it. */
module Poll {
  import opened Watchers
  import opened Growth

  datatype PollFlag = POLLIN | POLLOUT
  datatype Pollfd = Pollfd(fd: int, events: set<PollFlag>)

  const SIZEOF_INT: nat := 4
  const SIZEOF_POLLFD: nat := 8

  function ToPoll(nev: Events): set<PollFlag> {
    (if READ in nev then {POLLIN} else {}) + (if WRITE in nev then {POLLOUT} else {})
  }

  /** `polls` and `pollidxs` are mutually inverse. */
  ghost predicate Inverse(polls: seq<Pollfd>, cnt: nat, idxs: seq<int>) {
    && cnt <= |polls|
    && (forall fd {:trigger idxs[fd]} :: 0 <= fd < |idxs| ==>
          idxs[fd] == -1 || (0 <= idxs[fd] < cnt && polls[idxs[fd]].fd == fd))
    && (forall i {:trigger polls[i]} :: 0 <= i < cnt ==> 0 <= polls[i].fd < |idxs| && idxs[polls[i].fd] == i)
  }

  /** What poll(2) is asked to watch. */
  ghost function InterestOf(polls: seq<Pollfd>, cnt: nat, idxs: seq<int>): map<int, set<PollFlag>>
    requires Inverse(polls, cnt, idxs)
  {
    map fd | 0 <= fd < |idxs| && idxs[fd] >= 0 :: polls[idxs[fd]].events
  }

  lemma IndexGrown(polls: seq<Pollfd>, cnt: nat, idxs: seq<int>, more: seq<int>)
    requires Inverse(polls, cnt, idxs) && forall i :: 0 <= i < |more| ==> more[i] == -1
    ensures Inverse(polls, cnt, idxs + more)
    ensures InterestOf(polls, cnt, idxs + more) == InterestOf(polls, cnt, idxs)
  {
    forall fd {:trigger (idxs + more)[fd]} | 0 <= fd < |idxs + more|
      ensures (idxs + more)[fd] == if fd < |idxs| then idxs[fd] else -1
    {}
    assert InterestOf(polls, cnt, idxs + more).Keys == InterestOf(polls, cnt, idxs).Keys;
  }

  lemma SlotAdded(polls: seq<Pollfd>, cnt: nat, idxs: seq<int>, more: seq<Pollfd>, fd: int, events: set<PollFlag>)
    requires Inverse(polls, cnt, idxs) && 0 <= fd < |idxs| && idxs[fd] == -1 && cnt < |polls + more|
    ensures var polls' := (polls + more)[cnt := Pollfd(fd, events)];
            && Inverse(polls', cnt + 1, idxs[fd := cnt])
            && InterestOf(polls', cnt + 1, idxs[fd := cnt]) == InterestOf(polls, cnt, idxs)[fd := events]
  {
    var polls', idxs' := (polls + more)[cnt := Pollfd(fd, events)], idxs[fd := cnt];
    forall i {:trigger polls'[i]} | 0 <= i < cnt + 1
      ensures polls'[i] == if i == cnt then Pollfd(fd, events) else polls[i]
    {}
    assert forall i {:trigger polls[i]} :: 0 <= i < cnt ==> polls[i].fd != fd;
    assert InterestOf(polls', cnt + 1, idxs').Keys == InterestOf(polls, cnt, idxs).Keys + {fd};
  }

  lemma SlotSet(polls: seq<Pollfd>, cnt: nat, idxs: seq<int>, fd: int, events: set<PollFlag>)
    requires Inverse(polls, cnt, idxs) && 0 <= fd < |idxs| && idxs[fd] >= 0
    ensures var polls' := polls[idxs[fd] := polls[idxs[fd]].(events := events)];
            && Inverse(polls', cnt, idxs) && InterestOf(polls', cnt, idxs) == InterestOf(polls, cnt, idxs)[fd := events]
  {
    var polls' := polls[idxs[fd] := polls[idxs[fd]].(events := events)];
    forall i {:trigger polls'[i]} | 0 <= i < |polls| ensures polls'[i].fd == polls[i].fd {}
    assert InterestOf(polls', cnt, idxs).Keys == InterestOf(polls, cnt, idxs).Keys + {fd};
  }

  /** The last slot has gone into slot idx, if that is another one. */
  function Filled(polls: seq<Pollfd>, cnt: nat, idx: nat): seq<Pollfd>
    requires idx < cnt <= |polls|
  {
    if idx < cnt - 1 then polls[idx := polls[cnt - 1]] else polls
  }

  function Reindexed(polls: seq<Pollfd>, cnt: nat, idxs: seq<int>, fd: int): seq<int>
    requires 0 <= fd < |idxs| && 0 <= idxs[fd] < cnt <= |polls| && 0 <= polls[cnt - 1].fd < |idxs|
  {
    if idxs[fd] < cnt - 1 then idxs[fd := -1][polls[cnt - 1].fd := idxs[fd]] else idxs[fd := -1]
  }

  lemma ReleasedIndex(polls: seq<Pollfd>, cnt: nat, idxs: seq<int>, fd: int, g: int)
    requires 0 <= fd < |idxs| && 0 <= g < |idxs| && 0 <= idxs[fd] < cnt <= |polls| && polls[idxs[fd]].fd == fd
    requires idxs[g] == -1 || (0 <= idxs[g] < cnt && polls[idxs[g]].fd == g)
    requires 0 <= polls[cnt - 1].fd < |idxs| && idxs[polls[cnt - 1].fd] == cnt - 1
    ensures var idxs' := Reindexed(polls, cnt, idxs, fd);
            && |idxs'| == |idxs|
            && idxs'[g] == (if g == fd then -1 else if g == polls[cnt - 1].fd then idxs[fd] else idxs[g])
            && (g != fd && idxs[g] != -1 ==>
                  0 <= idxs'[g] < cnt - 1 && Filled(polls, cnt, idxs[fd])[idxs'[g]] == polls[idxs[g]])
  {
    assert polls[cnt - 1].fd == fd <==> idxs[fd] == cnt - 1;
  }

  lemma SlotReleased(polls: seq<Pollfd>, cnt: nat, idxs: seq<int>, fd: int)
    requires Inverse(polls, cnt, idxs) && 0 <= fd < |idxs| && idxs[fd] >= 0
    ensures var polls', idxs' := Filled(polls, cnt, idxs[fd]), Reindexed(polls, cnt, idxs, fd);
            && Inverse(polls', cnt - 1, idxs')
            && InterestOf(polls', cnt - 1, idxs') == InterestOf(polls, cnt, idxs) - {fd}
  {
    var polls', idxs' := Filled(polls, cnt, idxs[fd]), Reindexed(polls, cnt, idxs, fd);
    forall g {:trigger idxs'[g]} | 0 <= g < |idxs|
      ensures idxs'[g] == -1 <==> g == fd || idxs[g] == -1
      ensures idxs'[g] != -1 ==> 0 <= idxs'[g] < cnt - 1 && polls'[idxs'[g]] == polls[idxs[g]]
    {
      ReleasedIndex(polls, cnt, idxs, fd, g);
    }
    forall i {:trigger polls'[i]} | 0 <= i < cnt - 1 ensures 0 <= polls'[i].fd < |idxs| && idxs'[polls'[i].fd] == i {
      ReleasedIndex(polls, cnt, idxs, fd, polls'[i].fd);
    }
    assert InterestOf(polls', cnt - 1, idxs').Keys == InterestOf(polls, cnt, idxs).Keys - {fd};
  }

  class PollTable {
    var polls: seq<Pollfd>  // |polls| is pollmax; slots from pollcnt on hold anything
    var pollcnt: nat
    var pollidxs: seq<int>  // |pollidxs| is pollidxmax

    ghost predicate Valid()
      reads this
    {
      Inverse(polls, pollcnt, pollidxs)
    }

    ghost function Interest(): map<int, set<PollFlag>>
      requires Valid()
      reads this
    {
      InterestOf(polls, pollcnt, pollidxs)
    }

    constructor ()
      ensures Valid() && Interest() == map[]
    {
      polls, pollcnt, pollidxs := [], 0, [];
    }

    /** array_needsize_pollidx: new indices are -1. */
    method NeedIndex(fd: int)
      requires Valid() && fd >= 0
      modifies this`pollidxs
      ensures Valid() && Interest() == old(Interest())
      ensures fd < |pollidxs|
    {
      if fd + 1 > |pollidxs| {
        var ncur := ArrayNextsize(SIZEOF_INT, |pollidxs|, fd + 1);
        var more := seq(ncur - |pollidxs|, _ => -1);
        IndexGrown(polls, pollcnt, pollidxs, more);
        pollidxs := pollidxs + more;
      }
    }

    /** A new slot for an fd that has none; the slot's events are whatever was there. */
    method Allocate(fd: int)
      requires Valid() && 0 <= fd < |pollidxs| && pollidxs[fd] == -1
      modifies this
      ensures Valid() && |pollidxs| == old(|pollidxs|) && pollidxs[fd] == old(pollcnt)
      ensures fd in Interest() && Interest() == old(Interest())[fd := Interest()[fd]]
    {
      var more: seq<Pollfd> := [];
      if pollcnt + 1 > |polls| {
        var ncur := ArrayNextsize(SIZEOF_POLLFD, |polls|, pollcnt + 1);
        more := seq(ncur - |polls|, _ => Pollfd(0, {}));
      }
      ghost var events := (polls + more)[pollcnt].events;
      SlotAdded(polls, pollcnt, pollidxs, more, fd, events);
      polls := polls + more;
      polls := polls[pollcnt := polls[pollcnt].(fd := fd)];
      pollidxs := pollidxs[fd := pollcnt];
      pollcnt := pollcnt + 1;
    }

    /** The fd's slot goes, and the last one takes its place. */
    method Release(fd: int)
      requires Valid() && 0 <= fd < |pollidxs| && pollidxs[fd] >= 0
      modifies this
      ensures Valid() && Interest() == old(Interest()) - {fd}
    {
      hide InterestOf;
      Slot(fd);
      SlotReleased(polls, pollcnt, pollidxs, fd);
      hide Inverse;
      var idx := pollidxs[fd];
      pollidxs := pollidxs[fd := -1];
      pollcnt := pollcnt - 1;
      if idx < pollcnt {
        polls := polls[idx := polls[pollcnt]];
        pollidxs := pollidxs[polls[idx].fd := idx];
      }
    }

    method PollModify(fd: int, oev: Events, nev: Events)
      requires Valid() && fd >= 0
      modifies this
      ensures Valid()
      ensures Interest() == if oev == nev then old(Interest())
                            else if nev == {} then old(Interest()) - {fd}
                            else old(Interest())[fd := ToPoll(nev)]
    {
      hide Inverse, InterestOf, ToPoll;
      if oev == nev {
        return;
      }
      NeedIndex(fd);
      Slot(fd);
      if pollidxs[fd] < 0 {
        Allocate(fd);
      }
      Slot(fd);
      var idx := pollidxs[fd];
      assert polls[idx].fd == fd;
      if nev != {} {
        SlotSet(polls, pollcnt, pollidxs, fd, ToPoll(nev));
        polls := polls[idx := polls[idx].(events := ToPoll(nev))];
      } else {
        Release(fd);
      }
    }

    lemma Slot(fd: int)
      requires Valid() && 0 <= fd < |pollidxs|
      ensures pollidxs[fd] == -1 || 0 <= pollidxs[fd] < pollcnt <= |polls|
      ensures pollidxs[fd] >= 0 ==> polls[pollidxs[fd]].fd == fd
      ensures pollcnt > 0 ==> pollcnt <= |polls| && 0 <= polls[pollcnt - 1].fd < |pollidxs|
    {
    }
  }
}
