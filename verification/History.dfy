/** What a history of feeds, clears and invocations allows, over whole runs.
    Every history a loop produces satisfies Pending.TopPriority. */
module History {
  import opened Watchers
  import opened Pending

  lemma {:induction false} WithoutHas(l: Stack, x: Watcher, w: Watcher)
    ensures Has(Without(l, x), w) <==> Has(l, w) && w != x
  {
    if l != [] {
      var u, last := l[..|l| - 1], l[|l| - 1];
      WithoutHas(u, x, w);
      HasSnoc(u, last, w);
      HasSnoc(Without(u, x), last, w);
      assert u + [last] == l;
    }
  }

  lemma HasSnoc(l: Stack, e: Anpending, w: Watcher)
    ensures Has(l + [e], w) <==> Has(l, w) || e.w == w
  {
    assert (l + [e])[|l|] == e;
    assert forall i :: 0 <= i < |l| ==> (l + [e])[i] == l[i];
  }

  lemma {:induction false} OrAt(l: Stack, w: Watcher, events: Events)
    ensures |Or(l, w, events)| == |l|
    ensures forall i :: 0 <= i < |l| ==> Or(l, w, events)[i] == Merge(l[i], w, events)
  {
    if l != [] {
      OrAt(l[..|l| - 1], w, events);
    }
  }

  lemma FeedingHas(l: Stack, x: Watcher, events: Events, w: Watcher)
    ensures Has(Feeding(l, x, events), w) <==> Has(l, w) || w == x
  {
    if Has(l, x) {
      OrAt(l, x, events);
      var m := Or(l, x, events);
      assert forall i :: 0 <= i < |l| ==> m[i].w == l[i].w;
      if Has(l, w) {
        var i :| 0 <= i < |l| && l[i].w == w;
        assert m[i].w == w;
      }
      if Has(m, w) {
        var i :| 0 <= i < |m| && m[i].w == w;
        assert l[i].w == w;
      }
    } else {
      HasSnoc(l, Anpending(x, events), w);
    }
  }

  // ---------- a watcher that was stopped or invoked waits for the next feed ----------

  predicate Fed(log: seq<Event>, w: Watcher, i: int, j: int)
    requires 0 <= i && j <= |log|
  {
    exists k :: i <= k < j && log[k].w == w && log[k].Fed?
  }

  lemma {:induction false} NotPendingUntilFed(log: seq<Event>, w: Watcher, i: nat, j: nat)
    requires i < j <= |log| && log[i].w == w && !log[i].Fed? && !Fed(log, w, i, j)
    ensures !Has(PendingAfter(log[..j], w.pri), w)
    decreases j
  {
    var l, e := PendingAfter(log[..j - 1], w.pri), log[j - 1];
    assert log[..j] == log[..j - 1] + [e];
    PendingAfterSnoc(log[..j - 1], e, w.pri);
    if i < j - 1 {
      NotPendingUntilFed(log, w, i, j - 1);
    }
    if e.Fed? {
      FeedingHas(l, e.w, e.events, w);
    } else {
      WithoutHas(l, e.w, w);
    }
  }

  /** A watcher that was stopped, or already invoked, is not invoked before it is fed again. */
  lemma NotInvokedUntilFed(log: seq<Event>, w: Watcher, i: nat, j: nat)
    requires TopPriority(log) && i < j < |log|
    requires log[i].w == w && !log[i].Fed? && log[j].w == w && log[j].Invoked?
    ensures Fed(log, w, i, j)
  {
    var l := PendingAfter(log[..j], w.pri);
    assert l[|l| - 1].w == w;
    if !Fed(log, w, i, j) {
      NotPendingUntilFed(log, w, i, j);
    }
  }

  // ---------- no event is lost or invented ----------

  /** The OR of the events `w` was fed with since it was last cleared or invoked. */
  ghost function Gathered(log: seq<Event>, w: Watcher): Events {
    if log == [] then {}
    else
      var e := log[|log| - 1];
      if e.w != w then Gathered(log[..|log| - 1], w)
      else if e.Fed? then Gathered(log[..|log| - 1], w) + e.events
      else {}
  }

  ghost predicate Carries(l: Stack, w: Watcher, events: Events) {
    forall i :: 0 <= i < |l| && l[i].w == w ==> l[i].events == events
  }

  lemma {:induction false} WithoutCarries(l: Stack, x: Watcher, w: Watcher, events: Events)
    requires Carries(l, w, events)
    ensures Carries(Without(l, x), w, events)
  {
    if l != [] {
      WithoutCarries(l[..|l| - 1], x, w, events);
    }
  }

  lemma FeedingCarries(l: Stack, x: Watcher, more: Events, w: Watcher, events: Events)
    requires Carries(l, w, events) && (!Has(l, w) ==> events == {})
    ensures Carries(Feeding(l, x, more), w, if x == w then events + more else events)
  {
    OrAt(l, x, more);
    if x == w && !Has(l, w) {
      assert {} + more == more;
    }
  }

  lemma {:induction false} PendingCarriesGathered(log: seq<Event>, w: Watcher)
    ensures Carries(PendingAfter(log, w.pri), w, Gathered(log, w))
    ensures !Has(PendingAfter(log, w.pri), w) ==> Gathered(log, w) == {}
  {
    if log != [] {
      var log', e := log[..|log| - 1], log[|log| - 1];
      var l := PendingAfter(log', w.pri);
      PendingCarriesGathered(log', w);
      hide Gathered, Carries, Without, Feeding;
      assert PendingAfter(log, w.pri) == After(l, e, w.pri);
      GatheredSnoc(log, w);
      if e.w.pri == w.pri && e.Fed? {
        FeedingCarries(l, e.w, e.events, w, Gathered(log', w));
        FeedingHas(l, e.w, e.events, w);
      } else if e.w.pri == w.pri {
        WithoutHas(l, e.w, w);
        WithoutCarries(l, e.w, w, Gathered(log', w));
        if e.w == w { NoneLeft(Without(l, w), w); }
      }
    }
  }

  lemma GatheredSnoc(log: seq<Event>, w: Watcher)
    requires log != []
    ensures var e, before := log[|log| - 1], Gathered(log[..|log| - 1], w);
            Gathered(log, w) == if e.w != w then before else if e.Fed? then before + e.events else {}
  {
  }

  lemma NoneLeft(l: Stack, w: Watcher)
    requires !Has(l, w)
    ensures forall events :: Carries(l, w, events)
  {
  }

  /** A callback receives exactly the events fed since the watcher was last cleared or invoked. */
  lemma InvokedWithGathered(log: seq<Event>, j: nat)
    requires TopPriority(log) && j < |log| && log[j].Invoked?
    ensures log[j].events == Gathered(log[..j], log[j].w)
  {
    PendingCarriesGathered(log[..j], log[j].w);
  }

  predicate Removed(log: seq<Event>, w: Watcher, i: int, j: int)
    requires 0 <= i && j <= |log|
  {
    exists k :: i <= k < j && log[k].w == w && !log[k].Fed?
  }

  /** A watcher that was fed stays pending, with what it was fed, until it is cleared or invoked. */
  lemma {:induction false} PendingUntilTaken(log: seq<Event>, i: nat, j: nat)
    requires i < j <= |log| && log[i].Fed? && !Removed(log, log[i].w, i, j)
    ensures Has(PendingAfter(log[..j], log[i].w.pri), log[i].w) && log[i].events <= Gathered(log[..j], log[i].w)
    decreases j
  {
    hide PendingAfter, Gathered, Has;
    var w, e := log[i].w, log[j - 1];
    var l := PendingAfter(log[..j - 1], w.pri);
    assert log[..j] == log[..j - 1] + [e] && log[..j][..j - 1] == log[..j - 1];
    PendingAfterSnoc(log[..j - 1], e, w.pri);
    GatheredSnoc(log[..j], w);
    if i < j - 1 {
      PendingUntilTaken(log, i, j - 1);
    }
    if e.Fed? {
      FeedingHas(l, e.w, e.events, w);
    } else {
      WithoutHas(l, e.w, w);
    }
  }

  /** The feed was taken back, or a callback got its events. */
  ghost predicate Delivered(log: seq<Event>, i: nat)
    requires i < |log| && log[i].Fed?
  {
    exists k :: i < k < |log| && log[k].w == log[i].w &&
      (log[k].Cleared? || (log[k].Invoked? && log[i].events <= log[k].events))
  }

  lemma FirstRemoved(log: seq<Event>, w: Watcher, i: nat, j: nat) returns (k: nat)
    requires i <= j <= |log| && Removed(log, w, i, j)
    ensures i <= k < j && log[k].w == w && !log[k].Fed? && !Removed(log, w, i, k)
  {
    k := i;
    while log[k].w != w || log[k].Fed?
      invariant i <= k <= j && !Removed(log, w, i, k) && Removed(log, w, k, j)
      decreases j - k
    {
      k := k + 1;
    }
  }

  /** When nothing is pending any more, every event that was ever fed has been delivered or taken back. */
  lemma FedIsDelivered(log: seq<Event>, i: nat)
    requires TopPriority(log) && i < |log| && log[i].Fed? && PendingAfter(log, log[i].w.pri) == []
    ensures Delivered(log, i)
  {
    hide PendingAfter, Gathered, TopPriority;
    var w := log[i].w;
    assert log[..|log|] == log;
    if !Removed(log, w, i, |log|) {
      PendingUntilTaken(log, i, |log|);
    }
    var k := FirstRemoved(log, w, i, |log|);
    PendingUntilTaken(log, i, k);
    if log[k].Invoked? {
      InvokedWithGathered(log, k);
    }
  }

  // ---------- within a priority, the last one fed is invoked first ----------

  ghost predicate Below(l: Stack, v: Watcher, w: Watcher) {
    exists a, b :: 0 <= a < b < |l| && l[a].w == v && l[b].w == w
  }

  ghost predicate Unique(l: Stack) {
    forall a, b :: 0 <= a < b < |l| ==> l[a].w != l[b].w
  }

  lemma {:induction false} WithoutUnique(l: Stack, x: Watcher)
    requires Unique(l)
    ensures Unique(Without(l, x))
  {
    if l != [] {
      var u, last := l[..|l| - 1], l[|l| - 1];
      WithoutUnique(u, x);
      WithoutHas(u, x, last.w);
    }
  }

  lemma {:induction false} WithoutBelow(l: Stack, x: Watcher, v: Watcher, w: Watcher)
    requires Below(l, v, w) && x != v && x != w
    ensures Below(Without(l, x), v, w)
  {
    var a, b :| 0 <= a < b < |l| && l[a].w == v && l[b].w == w;
    var u, last := l[..|l| - 1], l[|l| - 1];
    var r := Without(u, x);
    if b < |u| {
      assert u[a].w == v && u[b].w == w;
      WithoutBelow(u, x, v, w);
      var c, d :| 0 <= c < d < |r| && r[c].w == v && r[d].w == w;
      assert (r + [last])[c].w == v && (r + [last])[d].w == w;
    } else {
      assert u[a].w == v;
      WithoutHas(u, x, v);
      var c :| 0 <= c < |r| && r[c].w == v;
      assert (r + [last])[c].w == v && (r + [last])[|r|].w == w;
    }
  }

  lemma {:induction false} PendingUnique(log: seq<Event>, pri: Pri)
    ensures Unique(PendingAfter(log, pri))
  {
    if log != [] {
      var l, e := PendingAfter(log[..|log| - 1], pri), log[|log| - 1];
      PendingUnique(log[..|log| - 1], pri);
      OrAt(l, e.w, if e.Cleared? then {} else e.events);
      WithoutUnique(l, e.w);
    }
  }

  lemma FeedingBelow(l: Stack, x: Watcher, events: Events, v: Watcher, w: Watcher)
    requires Below(l, v, w)
    ensures Below(Feeding(l, x, events), v, w)
  {
    var a, b :| 0 <= a < b < |l| && l[a].w == v && l[b].w == w;
    OrAt(l, x, events);
    assert Feeding(l, x, events)[a].w == v && Feeding(l, x, events)[b].w == w;
  }

  lemma {:induction false} StaysBelow(log: seq<Event>, v: Watcher, w: Watcher, t: nat, j: nat)
    requires t <= j <= |log| && Below(PendingAfter(log[..t], w.pri), v, w)
    requires !Removed(log, v, t, j) && !Removed(log, w, t, j)
    ensures Below(PendingAfter(log[..j], w.pri), v, w)
    decreases j
  {
    if t < j {
      var l, e := PendingAfter(log[..j - 1], w.pri), log[j - 1];
      StaysBelow(log, v, w, t, j - 1);
      assert log[..j] == log[..j - 1] + [e];
      PendingAfterSnoc(log[..j - 1], e, w.pri);
      if e.w.pri == w.pri {
        if e.Fed? { FeedingBelow(l, e.w, e.events, v, w); } else { WithoutBelow(l, e.w, v, w); }
      }
    }
  }

  /** If `w` was pending above `v` at time t, `w` is invoked or cleared before `v` is invoked. */
  lemma LastFedFirstInvoked(log: seq<Event>, v: Watcher, w: Watcher, t: nat, j: nat)
    requires TopPriority(log) && t <= j < |log| && v.pri == w.pri
    requires Below(PendingAfter(log[..t], w.pri), v, w)
    requires log[j].Invoked? && log[j].w == v && !Removed(log, v, t, j)
    ensures Removed(log, w, t, j)
  {
    var l := PendingAfter(log[..j], w.pri);
    PendingUnique(log[..j], w.pri);
    assert l[|l| - 1].w == v;
    if !Removed(log, w, t, j) {
      StaysBelow(log, v, w, t, j);
    }
  }
}
