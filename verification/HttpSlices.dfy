/** Every slice a request callback is given lies in the buffer, for tables whose actions mark before they use. */
module HttpSlices {
  import opened HttpTables
  import opened Http

  /** What is known on the way: the last field name has been ended; a query has been started. */
  datatype Marks = Marks(name: bool, query: bool)

  predicate Weaker(a: Marks, b: Marks) {
    (a.name ==> b.name) && (a.query ==> b.query)
  }

  function MarksAfter(s: Marks, action: nat): Marks {
    Marks(if action == 1 then false else s.name || action == 2, s.query || action == 8)
  }

  function MarksAfterAll(s: Marks, acts: seq<nat>): Marks
    decreases |acts|
  {
    if acts == [] || acts[0] == DONE then s else MarksAfterAll(MarksAfter(s, acts[0]), acts[1..])
  }

  /** Field callbacks find the name ended and query callbacks the query started. */
  predicate Usable(s: Marks, acts: seq<nat>)
    decreases |acts|
  {
    acts == [] || acts[0] == DONE ||
    ((acts[0] == 4 ==> s.name) && (acts[0] == 9 ==> s.query) && Usable(MarksAfter(s, acts[0]), acts[1..]))
  }

  /** The transition for a character, as Step takes it. */
  function Taken(g: Config, cs: nat, c: Char): nat
    requires g.tables.WellFormed() && g.tables.IsState(cs)
    ensures Taken(g, cs, c) < |g.tables.transTargs|
  {
    Transition(g.tables, cs, Widened(g.tables, cs, c, g.relaxed))
  }

  /** A labelling of the states that every transition respects: a property of the tables alone. */
  ghost predicate Respects(g: Config, labels: seq<Marks>, cs: nat, c: Char)
    requires g.tables.WellFormed() && g.tables.IsState(cs) && |labels| == |g.tables.keyOffsets|
  {
    var tr := Taken(g, cs, c);
    var acts := ActionList(g.tables, tr);
    assert g.tables.IsState(g.tables.transTargs[tr]);
    Usable(labels[cs], acts) && Weaker(labels[g.tables.transTargs[tr]], MarksAfterAll(labels[cs], acts))
  }

  ghost predicate Flows(g: Config, labels: seq<Marks>)
    requires g.tables.WellFormed()
  {
    |labels| == |g.tables.keyOffsets| &&
    forall cs: nat, c: Char :: g.tables.IsState(cs) ==> Respects(g, labels, cs, c)
  }

  /** The marks of a machine are before q, and what `s` promises holds of them. */
  predicate Sound(m: Machine, s: Marks, q: nat) {
    && Marked(m, q)
    && (s.name ==> m.fieldStart + m.fieldLen <= q)
    && (s.query ==> m.queryStart < q)
  }

  /** The slices of a callback lie in the first `len` bytes. */
  predicate Within(call: Call, len: nat) {
    match call
    case Field(field, flen, value, vlen) =>
      0 <= field && 0 <= flen && field + flen <= len && 0 <= value && 0 <= vlen && value + vlen <= len
    case Element(_, start, length) => 0 <= start && 0 <= length && start + length <= len
  }

  ghost predicate AllWithin(calls: seq<Call>, len: nat) {
    forall i :: 0 <= i < |calls| ==> Within(calls[i], len)
  }

  lemma ActWithin(g: Config, m: Machine, s: Marks, action: nat, p: nat, len: nat)
    requires Sound(m, s, p + 1) && AllWithin(m.calls, len) && p < len
    requires (action == 4 ==> s.name) && (action == 9 ==> s.query)
    ensures Sound(Act(g, m, action, p), MarksAfter(s, action), p + 1) && AllWithin(Act(g, m, action, p).calls, len)
  {
  }

  lemma {:induction false} ActAllWithin(g: Config, m: Machine, s: Marks, acts: seq<nat>, p: nat, len: nat)
    requires Sound(m, s, p + 1) && AllWithin(m.calls, len) && p < len && Usable(s, acts)
    ensures var a := ActAll(g, m, acts, p, len);
            AllWithin(a.m.calls, len) && (!a.done ==> Sound(a.m, MarksAfterAll(s, acts), p + 1))
    decreases |acts|
  {
    hide Act, Sound, AllWithin;
    if acts != [] {
      if acts[0] == DONE {
        DoneWithin(g, m, s, p, len);
      } else {
        ActWithin(g, m, s, acts[0], p, len);
        ActAllWithin(g, Act(g, m, acts[0], p), MarksAfter(s, acts[0]), acts[1..], p, len);
      }
    }
  }

  lemma DoneWithin(g: Config, m: Machine, s: Marks, p: nat, len: nat)
    requires Sound(m, s, p + 1) && AllWithin(m.calls, len) && p < len
    ensures AllWithin(Done(g, m, p, len).calls, len)
  {
  }

  lemma SoundLater(m: Machine, s: Marks, s': Marks, q: nat, cs: nat)
    requires Sound(m, s, q) && Weaker(s', s)
    ensures Sound(m.(cs := cs), s', q + 1) && Sound(m, s', q)
  {
  }

  /** For such tables, every slice of every callback of a parse lies in the buffer. */
  lemma {:induction false} SlicesWithin(g: Config, labels: seq<Marks>, m: Machine, data: seq<Char>, p: nat)
    requires g.tables.WellFormed() && Flows(g, labels) && Ready(g, m) && p <= |data|
    requires Sound(m, labels[m.cs], p) && AllWithin(m.calls, |data|)
    ensures AllWithin(Parse(g, m, data, p).m.calls, |data|)
    decreases |data| - p
  {
    hide Parse, ActAll, Sound, AllWithin, Usable, MarksAfterAll, ActionList, Transition, Widened;
    ParseEnds(g, m, data, p);
    if p < |data| && m.cs != ERROR_STATE {
      var tr := Taken(g, m.cs, data[p]);
      var acts := ActionList(g.tables, tr);
      var m' := m.(cs := g.tables.transTargs[tr]);
      assert Respects(g, labels, m.cs, data[p]);
      SoundLater(m, labels[m.cs], labels[m.cs], p, m'.cs);
      ActAllWithin(g, m', labels[m.cs], acts, p, |data|);
      ActAllKeepsState(g, m', acts, p, |data|);
      ParseGoesOn(g, m, data, p);
      var a := Step(g, m, data[p], p, |data|);
      if !a.done && a.m.cs != ERROR_STATE {
        SoundLater(a.m, MarksAfterAll(labels[m.cs], acts), labels[a.m.cs], p + 1, a.m.cs);
        SlicesWithin(g, labels, a.m, data, p + 1);
      }
    }
  }
}
