/** Which bytes each callback is given, in terms of the actions that the tables name along the way and where each of
    them happened. */
module HttpTrace {
  import opened HttpTables
  import opened Http
  import opened HttpSlices

  /** An action, and the position it was carried out at. */
  datatype Deed = Deed(action: nat, p: nat)

  function At(acts: seq<nat>, p: nat): seq<Deed>
    decreases |acts|
  {
    if acts == [] then [] else [Deed(acts[0], p)] + At(acts[1..], p)
  }

  function Target(g: Config, cs: nat, c: Char): (r: nat)
    requires g.tables.WellFormed() && g.tables.IsState(cs)
    ensures g.tables.IsState(r)
  {
    assert g.tables.IsState(g.tables.transTargs[Taken(g, cs, c)]);
    g.tables.transTargs[Taken(g, cs, c)]
  }

  /** The state after data[p..q]. */
  function StateAfter(g: Config, cs: nat, data: seq<Char>, p: nat, q: nat): nat
    requires g.tables.WellFormed() && g.tables.IsState(cs) && p <= q <= |data|
    decreases q - p
  {
    if p == q then cs else StateAfter(g, Target(g, cs, data[p]), data, p + 1, q)
  }

  /** The actions that the tables name for data[p..q]. */
  function Trace(g: Config, cs: nat, data: seq<Char>, p: nat, q: nat): seq<Deed>
    requires g.tables.WellFormed() && g.tables.IsState(cs) && p <= q <= |data|
    decreases q - p
  {
    if p == q then []
    else
      At(ActionList(g.tables, Taken(g, cs, data[p])), p) + Trace(g, Target(g, cs, data[p]), data, p + 1, q)
  }

  // ---------- what a trace means ----------

  /** Where one of the actions in `which` was last carried out; `none` if it never was. */
  function Last(tr: seq<Deed>, which: set<nat>, none: nat): nat {
    if tr == [] then none
    else if tr[|tr| - 1].action in which then tr[|tr| - 1].p
    else Last(tr[..|tr| - 1], which, none)
  }

  /** From the start of the last field name that was ended to its end. */
  function NameLength(m: Machine, tr: seq<Deed>): int {
    if tr == [] then m.fieldLen
    else if tr[|tr| - 1].action == 2 then tr[|tr| - 1].p - Last(tr, {1}, m.fieldStart)
    else NameLength(m, tr[..|tr| - 1])
  }

  predicate Happened(tr: seq<Deed>, action: nat) {
    exists i :: 0 <= i < |tr| && tr[i].action == action
  }

  /** The callback that the last deed of a trace makes: its slice ends where the deed is done, and begins at the last
      query mark for a query, else at the last mark. A field has its name too. */
  function Made(m: Machine, before: seq<Deed>, d: Deed): Call {
    var mark, query := Last(before, {0, 3}, m.mark), Last(before, {8}, m.queryStart);
    if d.action == 4 then Field(Last(before, {1}, m.fieldStart), NameLength(m, before), mark, d.p - mark)
    else if d.action == 9 then Element(9, query, d.p - query)
    else Element(d.action, mark, d.p - mark)
  }

  /** The actions that make a callback: a field, the method, the URI, a fragment, a query, the version, the path. */
  const CALLBACKS: set<nat> := {4, 5, 6, 7, 9, 10, 11}

  function CallsOf(g: Config, m: Machine, tr: seq<Deed>): seq<Call> {
    if tr == [] then []
    else
      var before, d := tr[..|tr| - 1], tr[|tr| - 1];
      CallsOf(g, m, before) + if d.action in CALLBACKS * g.handlers then [Made(m, before, d)] else []
  }

  /** What the trace says about the machine m it began with and the machine m' it ends in. */
  ghost predicate Follows(g: Config, m: Machine, tr: seq<Deed>, m': Machine) {
    && m'.mark == Last(tr, {0, 3}, m.mark)
    && m'.fieldStart == Last(tr, {1}, m.fieldStart) && m'.fieldLen == NameLength(m, tr)
    && m'.queryStart == Last(tr, {8}, m.queryStart)
    && m'.xmlSent == (m.xmlSent || Happened(tr, 13)) && m'.jsonSent == (m.jsonSent || Happened(tr, 14))
    && m'.calls == m.calls + CallsOf(g, m, tr)
  }

  ghost predicate Unended(g: Config, m: Machine, tr: seq<Deed>, m': Machine) {
    && Follows(g, m, tr, m') && !Happened(tr, DONE)
    && m'.bodyStart == m.bodyStart && m'.contentLen == m.contentLen
  }

  /** The request ended with the last deed of the trace. A JSON or XML message is the body, from the last mark to
      here; otherwise the body begins behind, and header_done is told so. */
  ghost predicate Ended(g: Config, m: Machine, tr: seq<Deed>, m': Machine, len: nat) {
    && tr != [] && tr[|tr| - 1].action == DONE && !Happened(tr[..|tr| - 1], DONE)
    && var before, p := tr[..|tr| - 1], tr[|tr| - 1].p;
    var mark := Last(before, {0, 3}, m.mark);
    var message := m.xmlSent || m.jsonSent || Happened(before, 13) || Happened(before, 14);
    && Follows(g, m, before, m'.(calls := m.calls + CallsOf(g, m, before)))
    && m'.bodyStart == (if message then mark else p + 1)
    && m'.contentLen == (if message then p - mark + 1 else m.contentLen)
    && m'.calls == m.calls + CallsOf(g, m, before) +
                   if !message && DONE in g.handlers then [Element(DONE, p + 1, len - p - 1)] else []
  }

  // ---------- the engine does what its trace says ----------

  lemma Snoc(g: Config, m: Machine, tr: seq<Deed>, d: Deed)
    ensures var l := tr + [d];
            && (forall which, none :: Last(l, which, none) == if d.action in which then d.p else Last(tr, which, none))
            && NameLength(m, l) == (if d.action == 2 then d.p - Last(tr, {1}, m.fieldStart) else NameLength(m, tr))
            && (forall a :: Happened(l, a) <==> Happened(tr, a) || d.action == a)
            && CallsOf(g, m, l) ==
               CallsOf(g, m, tr) + if d.action in CALLBACKS * g.handlers then [Made(m, tr, d)] else []
  {
    var l := tr + [d];
    assert l[..|l| - 1] == tr && l[|tr|] == d;
    forall a | Happened(tr, a) ensures Happened(l, a) {
      var i :| 0 <= i < |tr| && tr[i].action == a;
      assert l[i].action == a;
    }
  }

  lemma ActFollows(g: Config, m: Machine, tr: seq<Deed>, m': Machine, action: nat, p: nat)
    requires Unended(g, m, tr, m') && action != DONE
    ensures Unended(g, m, tr + [Deed(action, p)], Act(g, m', action, p))
  {
    hide Last, NameLength, Happened, CallsOf;
    Snoc(g, m, tr, Deed(action, p));
  }

  lemma DoneEnds(g: Config, m: Machine, tr: seq<Deed>, m': Machine, p: nat, len: nat)
    requires Unended(g, m, tr, m')
    ensures Ended(g, m, tr + [Deed(DONE, p)], Done(g, m', p, len), len)
  {
    hide Last, NameLength, Happened, CallsOf;
    assert (tr + [Deed(DONE, p)])[..|tr|] == tr;
  }

  /** A list of actions, of which the first `n` are carried out. */
  lemma {:induction false} ActAllFollows(g: Config, m: Machine, tr: seq<Deed>, m': Machine, acts: seq<nat>, p: nat,
                                         len: nat)
      returns (tr': seq<Deed>)
    requires Unended(g, m, tr, m')
    ensures var a := ActAll(g, m', acts, p, len);
            if a.done then Ended(g, m, tr', a.m, len) && tr' <= tr + At(acts, p) && tr'[|tr'| - 1].p == p
            else tr' == tr + At(acts, p) && Unended(g, m, tr', a.m)
    decreases |acts|
  {
    hide Unended, Ended, Act, Done;
    if acts == [] {
      tr' := tr;
    } else {
      var d := Deed(acts[0], p);
      assert tr + At(acts, p) == tr + [d] + At(acts[1..], p);
      if acts[0] == DONE {
        DoneEnds(g, m, tr, m', p, len);
        tr' := tr + [d];
      } else {
        ActFollows(g, m, tr, m', acts[0], p);
        tr' := ActAllFollows(g, m, tr + [d], Act(g, m', acts[0], p), acts[1..], p, len);
      }
    }
  }

  // ---------- parsing a buffer ----------

  lemma StepState(g: Config, m: Machine, c: Char, p: nat, len: nat)
    requires g.tables.WellFormed() && Ready(g, m)
    ensures Step(g, m, c, p, len).m.cs == Target(g, m.cs, c)
  {
    var tr := Taken(g, m.cs, c);
    ActAllKeepsState(g, m.(cs := g.tables.transTargs[tr]), ActionList(g.tables, tr), p, len);
  }

  /** Parsing takes the states the tables give, one for each character, up to the first error, the end of the
      request, or the end of the buffer. */
  lemma {:induction false} ParseStates(g: Config, m: Machine, data: seq<Char>, p: nat)
    requires g.tables.WellFormed() && Ready(g, m) && p <= |data| && m.cs != ERROR_STATE
    ensures var r := Parse(g, m, data, p);
            && p <= Seen(r) <= |data| && r.m.cs == StateAfter(g, m.cs, data, p, Seen(r))
            && (!r.done ==> r.p == |data| || r.m.cs == ERROR_STATE) && (r.done ==> Seen(r) == r.p > p)
            && forall k :: p < k < Seen(r) ==> StateAfter(g, m.cs, data, p, k) != ERROR_STATE
    decreases |data| - p
  {
    hide Parse, Step, Target;
    ParseEnds(g, m, data, p);
    if p < |data| {
      ParseGoesOn(g, m, data, p);
      StepState(g, m, data[p], p, |data|);
      var a := Step(g, m, data[p], p, |data|);
      if !a.done && a.m.cs != ERROR_STATE {
        ParseStates(g, a.m, data, p + 1);
        forall k | p < k < Seen(Parse(g, m, data, p))
          ensures StateAfter(g, m.cs, data, p, k) != ERROR_STATE
        {
          assert k > p + 1 ==> StateAfter(g, a.m.cs, data, p + 1, k) != ERROR_STATE;
        }
      }
    }
  }

  lemma StepFollows(g: Config, m: Machine, tr: seq<Deed>, m': Machine, c: Char, p: nat, len: nat)
      returns (tr': seq<Deed>)
    requires g.tables.WellFormed() && Ready(g, m') && Unended(g, m, tr, m')
    ensures var a, all := Step(g, m', c, p, len), tr + At(ActionList(g.tables, Taken(g, m'.cs, c)), p);
            if a.done then Ended(g, m, tr', a.m, len) && tr' <= all && tr'[|tr'| - 1].p == p
            else tr' == all && Unended(g, m, tr', a.m)
  {
    hide Ended, ActAll, ActionList, At, Follows, Transition, Widened;
    var tk := Taken(g, m'.cs, c);
    FollowsState(g, m, tr, m', g.tables.transTargs[tk]);
    tr' := ActAllFollows(g, m, tr, m'.(cs := g.tables.transTargs[tk]), ActionList(g.tables, tk), p, len);
  }

  lemma FollowsState(g: Config, m: Machine, tr: seq<Deed>, m': Machine, cs: nat)
    requires Follows(g, m, tr, m')
    ensures Follows(g, m, tr, m'.(cs := cs))
  {
  }

  lemma TraceStep(g: Config, cs: nat, data: seq<Char>, p: nat, q: nat)
    requires g.tables.WellFormed() && g.tables.IsState(cs) && p < q <= |data|
    ensures Trace(g, cs, data, p, q) ==
            At(ActionList(g.tables, Taken(g, cs, data[p])), p) + Trace(g, Target(g, cs, data[p]), data, p + 1, q)
    ensures Trace(g, Target(g, cs, data[p]), data, p + 1, p + 1) == []
  {
  }

  /** The trace `tr` of a parse that stopped at r: all the actions that the tables name, or those up to the end of the
      request. */
  ghost predicate Tells(g: Config, m: Machine, tr: seq<Deed>, all: seq<Deed>, r: Stop, len: nat) {
    if r.done then Ended(g, m, tr, r.m, len) && tr <= all && tr[|tr| - 1].p + 1 == r.p
    else Unended(g, m, tr, r.m) && tr == all
  }

  lemma {:induction false} ParseFollows(g: Config, m: Machine, tr: seq<Deed>, m': Machine, data: seq<Char>, p: nat)
      returns (tr': seq<Deed>)
    requires g.tables.WellFormed() && Ready(g, m') && p <= |data| && m'.cs != ERROR_STATE && Unended(g, m, tr, m')
    ensures var r := Parse(g, m', data, p);
            p <= Seen(r) <= |data| && Tells(g, m, tr', tr + Trace(g, m'.cs, data, p, Seen(r)), r, |data|)
    decreases |data| - p
  {
    hide Unended, Ended, Parse, Target, Step, ActionList, Taken, At, Trace;
    ParseEnds(g, m', data, p);
    ParseStates(g, m', data, p);
    if p == |data| {
      tr' := tr;
      TraceNone(g, m'.cs, data, p);
    } else {
      var r := Parse(g, m', data, p);
      ParseGoesOn(g, m', data, p);
      StepState(g, m', data[p], p, |data|);
      var a := Step(g, m', data[p], p, |data|);
      tr' := StepFollows(g, m, tr, m', data[p], p, |data|);
      TraceStep(g, m'.cs, data, p, Seen(r));
      var first, rest := At(ActionList(g.tables, Taken(g, m'.cs, data[p])), p), Trace(g, a.m.cs, data, p + 1, Seen(r));
      if !a.done && a.m.cs != ERROR_STATE {
        tr' := ParseFollows(g, m, tr', a.m, data, p + 1);
        assert tr + (first + rest) == tr + first + rest;
      } else {
        assert first + rest == first;
      }
    }
  }

  lemma TraceNone(g: Config, cs: nat, data: seq<Char>, p: nat)
    requires g.tables.WellFormed() && g.tables.IsState(cs) && p <= |data|
    ensures Trace(g, cs, data, p, p) == []
  {
  }

  /** What parsing a buffer does is what its trace says: the actions that the tables name for its characters, up to
      the end of the request. Each callback gets the bytes between the marks that the trace last made for it. */
  lemma ParseIsItsTrace(g: Config, m: Machine, data: seq<Char>, p: nat) returns (tr: seq<Deed>)
    requires g.tables.WellFormed() && Ready(g, m) && p <= |data| && m.cs != ERROR_STATE
    ensures var r := Parse(g, m, data, p);
            p <= Seen(r) <= |data| && Tells(g, m, tr, Trace(g, m.cs, data, p, Seen(r)), r, |data|)
  {
    hide Unended, Tells, Parse, Trace;
    NothingYet(g, m);
    tr := ParseFollows(g, m, [], m, data, p);
    var all := Trace(g, m.cs, data, p, Seen(Parse(g, m, data, p)));
    assert [] + all == all;
  }

  lemma NothingYet(g: Config, m: Machine)
    ensures Unended(g, m, [], m)
  {
  }

  // ---------- the slices, deed by deed ----------

  /** The deed at position i of the trace is the last of its kind. */
  ghost predicate LastAt(tr: seq<Deed>, which: set<nat>, i: nat) {
    i < |tr| && tr[i].action in which && forall k :: i < k < |tr| ==> tr[k].action !in which
  }

  lemma {:induction false} LastIs(tr: seq<Deed>, which: set<nat>, none: nat, i: nat)
    requires LastAt(tr, which, i)
    ensures Last(tr, which, none) == tr[i].p
    decreases |tr|
  {
    if i < |tr| - 1 {
      LastIs(tr[..|tr| - 1], which, none, i);
    }
  }

  lemma {:induction false} NameIs(m: Machine, tr: seq<Deed>, i: nat, j: nat)
    requires LastAt(tr, {1}, i) && LastAt(tr, {2}, j) && i < j
    ensures NameLength(m, tr) == tr[j].p - tr[i].p
    decreases |tr|
  {
    if j < |tr| - 1 {
      NameIs(m, tr[..|tr| - 1], i, j);
    } else {
      LastIs(tr, {1}, m.fieldStart, i);
    }
  }

  /** A header field is reported with the name between the deeds that start and end it, and the value from the deed
      that starts it to the one that reports it. */
  lemma FieldIs(m: Machine, before: seq<Deed>, d: Deed, i: nat, j: nat, k: nat)
    requires d.action == 4
    requires LastAt(before, {1}, i) && LastAt(before, {2}, j) && i < j && LastAt(before, {0, 3}, k)
    ensures Made(m, before, d) ==
            Field(before[i].p, before[j].p - before[i].p, before[k].p, d.p - before[k].p)
  {
    LastIs(before, {1}, m.fieldStart, i);
    NameIs(m, before, i, j);
    LastIs(before, {0, 3}, m.mark, k);
  }

  /** A query is reported from the deed that starts it, everything else from the last mark. */
  lemma ElementIs(m: Machine, before: seq<Deed>, d: Deed, k: nat)
    requires d.action in CALLBACKS - {4} && LastAt(before, if d.action == 9 then {8} else {0, 3}, k)
    ensures Made(m, before, d) == Element(d.action, before[k].p, d.p - before[k].p)
  {
    if d.action == 9 {
      LastIs(before, {8}, m.queryStart, k);
    } else {
      LastIs(before, {0, 3}, m.mark, k);
    }
  }
}
