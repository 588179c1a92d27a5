/** The request parser's engine: a character at a time through the tables, with actions that set marks
    and make callbacks. */
module Http {
  import opened HttpTables

  const ERROR_STATE: nat := 0
  const DONE: nat := 12  // the action that ends a request

  /** A callback with the slices of the buffer it is given, as offsets and lengths. */
  datatype Call =
    | Field(field: int, flen: int, value: int, vlen: int)
    | Element(action: nat, start: int, length: int)

  /** The fields of http_parser, with `cs` as http_parser_execute works on it, and the callbacks made. */
  datatype Machine = Machine(cs: nat, bodyStart: nat, contentLen: int, mark: nat, fieldStart: nat, fieldLen: int,
                             queryStart: nat, xmlSent: bool, jsonSent: bool, calls: seq<Call>)

  /** What does not change while a buffer is parsed; `handlers` are the actions whose callback is set. */
  datatype Config = Config(tables: Tables, relaxed: bool, handlers: set<nat>)

  function Calling(g: Config, m: Machine, action: nat, call: Call): Machine {
    if action in g.handlers then m.(calls := m.calls + [call]) else m
  }

  /** An action other than DONE at position `p`. */
  function Act(g: Config, m: Machine, action: nat, p: nat): Machine {
    if action == 0 || action == 3 then m.(mark := p)
    else if action == 1 then m.(fieldStart := p)
    else if action == 2 then m.(fieldLen := p - m.fieldStart)
    else if action == 4 then Calling(g, m, 4, Field(m.fieldStart, m.fieldLen, m.mark, p - m.mark))
    else if action in {5, 6, 7, 10, 11} then Calling(g, m, action, Element(action, m.mark, p - m.mark))
    else if action == 8 then m.(queryStart := p)
    else if action == 9 then Calling(g, m, 9, Element(9, m.queryStart, p - m.queryStart))
    else if action == 13 then m.(xmlSent := true)
    else if action == 14 then m.(jsonSent := true)
    else m
  }

  /** The request ends at position `p` of a buffer of `len` bytes. */
  function Done(g: Config, m: Machine, p: nat, len: nat): Machine {
    if m.xmlSent || m.jsonSent then m.(bodyStart := m.mark, contentLen := p - m.mark + 1)
    else Calling(g, m.(bodyStart := p + 1), DONE, Element(DONE, p + 1, len - p - 1))
  }

  datatype Acted = Acted(m: Machine, done: bool)

  /** A list of actions, up to the first DONE. */
  function ActAll(g: Config, m: Machine, acts: seq<nat>, p: nat, len: nat): Acted
    decreases |acts|
  {
    if acts == [] then Acted(m, false)
    else if acts[0] == DONE then Acted(Done(g, m, p, len), true)
    else ActAll(g, Act(g, m, acts[0], p), acts[1..], p, len)
  }

  function ActionList(t: Tables, tr: nat): seq<nat>
    requires t.WellFormed() && tr < |t.transTargs|
  {
    var a := t.transActions[tr];
    if a == 0 then [] else t.actions[a + 1..a + 1 + t.actions[a]]
  }

  predicate Ready(g: Config, m: Machine) {
    g.tables.IsState(m.cs)
  }

  /** One character: the new state, then the actions. */
  function Step(g: Config, m: Machine, c: Char, p: nat, len: nat): Acted
    requires g.tables.WellFormed() && Ready(g, m)
  {
    var tr := Transition(g.tables, m.cs, Widened(g.tables, m.cs, c, g.relaxed));
    ActAll(g, m.(cs := g.tables.transTargs[tr]), ActionList(g.tables, tr), p, len)
  }

  lemma {:induction false} ActAllKeepsState(g: Config, m: Machine, acts: seq<nat>, p: nat, len: nat)
    ensures ActAll(g, m, acts, p, len).m.cs == m.cs
    decreases |acts|
  {
    if acts != [] && acts[0] != DONE {
      ActAllKeepsState(g, Act(g, m, acts[0], p), acts[1..], p, len);
    }
  }

  /** Where parsing stops and why. */
  datatype Stop = Stop(m: Machine, p: nat, done: bool)

  /** Parsing data[p..]: stops at the end, on an error, or past the end of the request. */
  function Parse(g: Config, m: Machine, data: seq<Char>, p: nat): (r: Stop)
    requires g.tables.WellFormed() && Ready(g, m) && p <= |data|
    ensures p <= r.p <= |data| && Ready(g, r.m)
    decreases |data| - p
  {
    if p == |data| || m.cs == ERROR_STATE then Stop(m, p, false)
    else
      var a := Step(g, m, data[p], p, |data|);
      StepReady(g, m, data[p], p, |data|);
      if a.done then Stop(a.m, p + 1, true)
      else if a.m.cs == ERROR_STATE then Stop(a.m, p, false)
      else Parse(g, a.m, data, p + 1)
  }

  lemma StepReady(g: Config, m: Machine, c: Char, p: nat, len: nat)
    requires g.tables.WellFormed() && Ready(g, m)
    ensures Ready(g, Step(g, m, c, p, len).m)
  {
    var tr := Transition(g.tables, m.cs, Widened(g.tables, m.cs, c, g.relaxed));
    ActAllKeepsState(g, m.(cs := g.tables.transTargs[tr]), ActionList(g.tables, tr), p, len);
    assert g.tables.IsState(g.tables.transTargs[tr]);
  }

  // ---------- chunks ----------

  lemma {:induction false} ActAllLength(g: Config, m: Machine, acts: seq<nat>, p: nat, len: nat, len': nat)
    ensures ActAll(g, m, acts, p, len).done == ActAll(g, m, acts, p, len').done
    ensures !ActAll(g, m, acts, p, len).done ==> ActAll(g, m, acts, p, len) == ActAll(g, m, acts, p, len')
    decreases |acts|
  {
    if acts != [] && acts[0] != DONE {
      ActAllLength(g, Act(g, m, acts[0], p), acts[1..], p, len, len');
    }
  }

  /** Parsing a prefix and going on from where that stopped is parsing the whole,
      unless the request ended within the prefix. */
  lemma {:induction false} ParseInTwo(g: Config, m: Machine, data: seq<Char>, k: nat, p: nat)
    requires g.tables.WellFormed() && Ready(g, m) && p <= k <= |data|
    requires !Parse(g, m, data[..k], p).done
    ensures var r := Parse(g, m, data[..k], p); Parse(g, r.m, data, r.p) == Parse(g, m, data, p)
    decreases k - p
  {
    if p < k && m.cs != ERROR_STATE {
      var a, a' := Step(g, m, data[p], p, k), Step(g, m, data[p], p, |data|);
      var tr := Transition(g.tables, m.cs, Widened(g.tables, m.cs, data[p], g.relaxed));
      ActAllLength(g, m.(cs := g.tables.transTargs[tr]), ActionList(g.tables, tr), p, k, |data|);
      StepReady(g, m, data[p], p, k);
      if a.m.cs != ERROR_STATE {
        ParseInTwo(g, a.m, data, k, p + 1);
      }
    }
  }

  /** A request that ends within a prefix ends in the whole. */
  lemma {:induction false} DoneStays(g: Config, m: Machine, data: seq<Char>, k: nat, p: nat)
    requires g.tables.WellFormed() && Ready(g, m) && p <= k <= |data|
    ensures Parse(g, m, data[..k], p).done ==> Parse(g, m, data, p).done
    decreases k - p
  {
    if p < k && m.cs != ERROR_STATE {
      var a := Step(g, m, data[p], p, k);
      var tr := Transition(g.tables, m.cs, Widened(g.tables, m.cs, data[p], g.relaxed));
      ActAllLength(g, m.(cs := g.tables.transTargs[tr]), ActionList(g.tables, tr), p, k, |data|);
      StepReady(g, m, data[p], p, k);
      StepReady(g, m, data[p], p, |data|);
      if !a.done && a.m.cs != ERROR_STATE {
        DoneStays(g, a.m, data, k, p + 1);
      }
    }
  }

  /** Ascending positions from p on, where the input seen so far ended at successive calls. */
  predicate Cuts(cuts: seq<nat>, p: nat, len: nat) {
    && p <= len && (forall i :: 0 <= i < |cuts| ==> p <= cuts[i] <= len)
    && (forall i, j :: 0 <= i < j < |cuts| ==> cuts[i] <= cuts[j])
  }

  /** One call at each cut and one on the whole, each from where the one before stopped. */
  function ParseChunks(g: Config, m: Machine, data: seq<Char>, p: nat, cuts: seq<nat>): Stop
    requires g.tables.WellFormed() && Ready(g, m) && Cuts(cuts, p, |data|)
    decreases |cuts|
  {
    if cuts == [] then Parse(g, m, data, p)
    else
      var r := Parse(g, m, data[..cuts[0]], p);
      ParseChunks(g, r.m, data, r.p, cuts[1..])
  }

  /** The request is not over in the input up to the last cut. */
  predicate Unfinished(g: Config, m: Machine, data: seq<Char>, p: nat, cuts: seq<nat>)
    requires g.tables.WellFormed() && Ready(g, m) && Cuts(cuts, p, |data|)
  {
    cuts != [] ==> !Parse(g, m, data[..cuts[|cuts| - 1]], p).done
  }

  /** The first of several cuts: what is left to parse is the same, and still unfinished. */
  lemma FirstChunk(g: Config, m: Machine, data: seq<Char>, p: nat, cuts: seq<nat>)
    requires g.tables.WellFormed() && Ready(g, m) && Cuts(cuts, p, |data|)
    requires cuts != [] && Unfinished(g, m, data, p, cuts)
    ensures var r := Parse(g, m, data[..cuts[0]], p);
            !r.done && Cuts(cuts[1..], r.p, |data|) && Unfinished(g, r.m, data, r.p, cuts[1..])
            && Parse(g, r.m, data, r.p) == Parse(g, m, data, p)
  {
    hide Parse, Ready;
    var c, seen := cuts[0], data[..cuts[|cuts| - 1]];
    assert seen[..c] == data[..c] && forall i :: 0 <= i < |cuts| - 1 ==> cuts[1..][i] == cuts[i + 1];
    DoneStays(g, m, seen, c, p);
    ParseInTwo(g, m, seen, c, p);
    ParseInTwo(g, m, data, c, p);
  }

  /** However the input is cut into chunks, parsing it chunk by chunk is parsing it at once. */
  lemma {:induction false} ParseInChunks(g: Config, m: Machine, data: seq<Char>, p: nat, cuts: seq<nat>)
    requires g.tables.WellFormed() && Ready(g, m) && Cuts(cuts, p, |data|) && Unfinished(g, m, data, p, cuts)
    ensures ParseChunks(g, m, data, p, cuts) == Parse(g, m, data, p)
    decreases |cuts|
  {
    hide Parse, Ready, Unfinished;
    if cuts != [] {
      FirstChunk(g, m, data, p, cuts);
      var r := Parse(g, m, data[..cuts[0]], p);
      ParseInChunks(g, r.m, data, r.p, cuts[1..]);
    }
  }

  // ---------- bounds ----------

  /** Every mark was set before position q, or never. */
  predicate Marked(m: Machine, q: nat) {
    && (m.mark == 0 || m.mark < q) && (m.fieldStart == 0 || m.fieldStart < q)
    && 0 <= m.fieldLen <= q && m.bodyStart <= q
  }

  /** The slices made from `mark` lie in the first `len` bytes, whatever the tables say. HttpSlices has the
      other two kinds: a field's name and a query. */
  predicate Inside(call: Call, len: nat) {
    match call
    case Field(_, _, value, vlen) => 0 <= value && 0 <= vlen && value + vlen <= len
    case Element(action, start, length) => action == 9 || (0 <= start && 0 <= length && start + length <= len)
  }

  ghost predicate AllInside(calls: seq<Call>, len: nat) {
    forall i :: 0 <= i < |calls| ==> Inside(calls[i], len)
  }

  lemma ActInside(g: Config, m: Machine, action: nat, p: nat, len: nat)
    requires Marked(m, p + 1) && AllInside(m.calls, len) && p < len
    ensures Marked(Act(g, m, action, p), p + 1) && AllInside(Act(g, m, action, p).calls, len)
  {
  }

  lemma {:induction false} ActAllInside(g: Config, m: Machine, acts: seq<nat>, p: nat, len: nat)
    requires Marked(m, p + 1) && AllInside(m.calls, len) && p < len
    ensures var a := ActAll(g, m, acts, p, len); Marked(a.m, p + 1) && AllInside(a.m.calls, len)
    decreases |acts|
  {
    if acts != [] && acts[0] != DONE {
      ActInside(g, m, acts[0], p, len);
      ActAllInside(g, Act(g, m, acts[0], p), acts[1..], p, len);
    }
  }

  lemma MarkedLater(m: Machine, q: nat, cs: nat)
    requires Marked(m, q)
    ensures Marked(m, q + 1) && Marked(m.(cs := cs), q + 1)
  {
  }

  /** How much of the buffer has been looked at when parsing stops: an error leaves its character unread. */
  function Seen(r: Stop): nat {
    if r.m.cs == ERROR_STATE && !r.done then r.p + 1 else r.p
  }

  lemma {:induction false} ParseInside(g: Config, m: Machine, data: seq<Char>, p: nat)
    requires g.tables.WellFormed() && Ready(g, m) && p <= |data|
    requires Marked(m, p) && AllInside(m.calls, |data|) && m.cs != ERROR_STATE
    ensures var r := Parse(g, m, data, p);
            Seen(r) <= |data| && Marked(r.m, Seen(r)) && AllInside(r.m.calls, |data|)
    decreases |data| - p
  {
    hide Parse, ActAll, AllInside, Marked, Transition, Widened, ActionList;
    ParseEnds(g, m, data, p);
    if p < |data| {
      ParseGoesOn(g, m, data, p);
      var tr := Transition(g.tables, m.cs, Widened(g.tables, m.cs, data[p], g.relaxed));
      MarkedLater(m, p, g.tables.transTargs[tr]);
      ActAllInside(g, m.(cs := g.tables.transTargs[tr]), ActionList(g.tables, tr), p, |data|);
      var a := Step(g, m, data[p], p, |data|);
      if !a.done && a.m.cs != ERROR_STATE {
        ParseInside(g, a.m, data, p + 1);
      }
    }
  }

  // ---------- the parser object ----------

  class HttpParser {
    const g: Config
    var cs: nat
    var bodyStart: nat
    var contentLen: int
    var nread: nat
    var mark: nat
    var fieldStart: nat
    var fieldLen: int
    var queryStart: nat
    var xmlSent: bool
    var jsonSent: bool
    ghost var calls: seq<Call>

    ghost function View(): Machine
      reads this
    {
      Machine(cs, bodyStart, contentLen, mark, fieldStart, fieldLen, queryStart, xmlSent, jsonSent, calls)
    }

    ghost predicate Valid()
      reads this
    {
      g.tables.WellFormed() && Ready(g, View())
    }

    /** http_parser_init; query_start keeps whatever value it had. */
    constructor (g: Config, start: nat)
      requires g.tables.WellFormed() && g.tables.IsState(start)
      ensures Valid() && this.g == g && cs == start && nread == 0 && Marked(View(), 0) && calls == []
    {
      this.g := g;
      cs := start;
      bodyStart, contentLen, mark, nread, fieldLen, fieldStart := 0, 0, 0, 0, 0, 0;
      xmlSent, jsonSent := false, false;
      calls := [];
    }

    /** The parser's fields and the state number `at` that execute keeps in a local. */
    ghost function ViewAt(at: nat): Machine
      reads this
    {
      View().(cs := at)
    }

    method DoAction(action: nat, p: nat)
      requires action != DONE
      modifies this
      ensures View() == Act(g, old(View()), action, p) && nread == old(nread)
    {
      match action {
        case 0 => mark := p;
        case 1 => fieldStart := p;
        case 2 => fieldLen := p - fieldStart;
        case 3 => mark := p;
        case 4 =>
          if 4 in g.handlers {
            calls := calls + [Field(fieldStart, fieldLen, mark, p - mark)];
          }
        case 8 => queryStart := p;
        case 9 =>
          if 9 in g.handlers {
            calls := calls + [Element(9, queryStart, p - queryStart)];
          }
        case 13 => xmlSent := true;
        case 14 => jsonSent := true;
        case _ =>
          if action in {5, 6, 7, 10, 11} && action in g.handlers {
            calls := calls + [Element(action, mark, p - mark)];
          }
      }
    }

    method EndRequest(p: nat, len: nat)
      modifies this
      ensures View() == Done(g, old(View()), p, len) && nread == old(nread)
    {
      if xmlSent || jsonSent {
        bodyStart := mark;
        contentLen := p - bodyStart + 1;
      } else {
        bodyStart := p + 1;
        if DONE in g.handlers {
          calls := calls + [Element(DONE, p + 1, len - p - 1)];
        }
      }
    }

    method DoActions(acts: seq<nat>, p: nat, len: nat) returns (done: bool)
      modifies this
      ensures Acted(View(), done) == ActAll(g, old(View()), acts, p, len) && nread == old(nread)
    {
      hide Act, Done;
      done := false;
      var i := 0;
      while i < |acts| && !done
        invariant 0 <= i <= |acts| && nread == old(nread)
        invariant ActAll(g, old(View()), acts, p, len) ==
                  if done then Acted(View(), true) else ActAll(g, View(), acts[i..], p, len)
      {
        if acts[i] == DONE {
          EndRequest(p, len);
          done := true;
        } else {
          DoAction(acts[i], p);
        }
        i := i + 1;
      }
    }

    /** Looks one character up and acts on it. */
    method Advance(at: nat, c: Char, p: nat, len: nat) returns (next: nat, done: bool)
      requires Valid() && g.tables.IsState(at)
      modifies this
      ensures Acted(ViewAt(next), done) == Step(g, old(ViewAt(at)), c, p, len)
      ensures cs == old(cs) && nread == old(nread) && g.tables.IsState(next)
    {
      hide ActAll, Transition, Widened;
      var wide := Widen(g.tables, at, c, g.relaxed);
      var tr := Lookup(g.tables, at, wide);
      ghost var m := View();
      next := g.tables.transTargs[tr];
      assert g.tables.IsState(next);
      var acts := ActionList(g.tables, tr);
      done := DoActions(acts, p, len);
      ActAllKeepsState(g, m, acts, p, len);
      ActAllState(g, m, next, acts, p, len);
    }

    /** The loop over the unread part of the buffer. */
    method Scan(data: seq<Char>, off: nat) returns (p: nat, at: nat, ghost done: bool)
      requires Valid() && off <= |data|
      modifies this
      ensures Valid() && g.tables.IsState(at) && off <= p <= |data| && cs == old(cs) && nread == old(nread)
      ensures Stop(ViewAt(at), p, done) == Parse(g, old(View()), data, off)
    {
      hide Parse, Step;
      p, at, done := off, cs, false;
      ParseEnds(g, View(), data, off);
      var stop := p == |data| || at == ERROR_STATE;
      while !stop
        invariant Valid() && g.tables.IsState(at) && off <= p <= |data| && cs == old(cs) && nread == old(nread)
        invariant !stop ==> p < |data| && at != ERROR_STATE
        invariant Parse(g, old(View()), data, off) ==
                  if stop then Stop(ViewAt(at), p, done) else Parse(g, ViewAt(at), data, p)
        decreases |data| - p, !stop
      {
        StepReady(g, ViewAt(at), data[p], p, |data|);
        ParseGoesOn(g, ViewAt(at), data, p);
        var over;
        at, over := Advance(at, data[p], p, |data|);
        done := over;
        if over {
          p, stop := p + 1, true;
        } else if at == ERROR_STATE {
          stop := true;
        } else {
          p := p + 1;
          stop := p == |data|;
          ParseEnds(g, ViewAt(at), data, p);
        }
      }
    }

    /** http_parser_execute; `off` bytes of the buffer were read before. */
    method Execute(data: seq<Char>, off: nat) returns (n: nat)
      requires Valid() && off <= |data|
      modifies this
      ensures Valid()
      ensures data == [] ==> n == 0 && View() == old(View()) && nread == old(nread)
      ensures data != [] ==>
                var r := Parse(g, old(View()), data, off);
                View() == r.m && n == nread == old(nread) + r.p - off
    {
      hide Parse;
      if |data| == 0 {
        return 0;
      }
      ErrorStays(g, View(), data, off);
      var p, at, done := Scan(data, off);
      if cs != ERROR_STATE {
        cs := at;
      }
      nread := nread + (p - off);
      n := nread;
    }
  }

  lemma ParseEnds(g: Config, m: Machine, data: seq<Char>, p: nat)
    requires g.tables.WellFormed() && Ready(g, m) && p <= |data|
    ensures p == |data| || m.cs == ERROR_STATE ==> Parse(g, m, data, p) == Stop(m, p, false)
  {
  }

  lemma ParseGoesOn(g: Config, m: Machine, data: seq<Char>, p: nat)
    requires g.tables.WellFormed() && Ready(g, m) && p < |data| && m.cs != ERROR_STATE
    ensures var a := Step(g, m, data[p], p, |data|);
            Ready(g, a.m) && Parse(g, m, data, p) ==
            if a.done then Stop(a.m, p + 1, true)
            else if a.m.cs == ERROR_STATE then Stop(a.m, p, false)
            else Parse(g, a.m, data, p + 1)
  {
    StepReady(g, m, data[p], p, |data|);
  }

  lemma ErrorStays(g: Config, m: Machine, data: seq<Char>, p: nat)
    requires g.tables.WellFormed() && Ready(g, m) && p <= |data|
    ensures m.cs == ERROR_STATE ==> Parse(g, m, data, p).m.cs == ERROR_STATE
  {
  }

  /** One call on the input up to k, from where the calls before stopped. */
  method ExecuteUpTo(parser: HttpParser, data: seq<Char>, k: nat)
    requires parser.Valid() && parser.nread <= k <= |data|
    modifies parser
    ensures parser.Valid()
    ensures var r := Parse(parser.g, old(parser.View()), data[..k], old(parser.nread));
            parser.View() == r.m && parser.nread == r.p
  {
    hide Parse, Ready;
    ParseEnds(parser.g, parser.View(), data[..k], parser.nread);
    var n := parser.Execute(data[..k], parser.nread);
  }

  /** A buffer parsed in any number of calls, each on all input so far from where the one before stopped, leaves
      the state, marks, nread and callbacks of one call, unless the request ended before the last call. */
  method ExecuteInChunks(parser: HttpParser, data: seq<Char>, cuts: seq<nat>)
    requires parser.Valid() && Cuts(cuts, parser.nread, |data|)
    requires Unfinished(parser.g, parser.View(), data, parser.nread, cuts)
    modifies parser
    ensures parser.Valid()
    ensures var r := Parse(parser.g, old(parser.View()), data, old(parser.nread));
            parser.View() == r.m && parser.nread == r.p
  {
    hide Parse, Ready, Unfinished;
    ghost var g := parser.g;
    for i := 0 to |cuts|
      invariant parser.Valid() && Cuts(cuts[i..], parser.nread, |data|)
      invariant Unfinished(g, parser.View(), data, parser.nread, cuts[i..])
      invariant Parse(g, parser.View(), data, parser.nread) == Parse(g, old(parser.View()), data, old(parser.nread))
    {
      FirstChunk(g, parser.View(), data, parser.nread, cuts[i..]);
      assert cuts[i..][1..] == cuts[i + 1..];
      ExecuteUpTo(parser, data, cuts[i]);
    }
    assert data[..|data|] == data;
    ExecuteUpTo(parser, data, |data|);
  }

  /** The actions do not depend on the state number. */
  lemma {:induction false} ActAllState(g: Config, m: Machine, cs: nat, acts: seq<nat>, p: nat, len: nat)
    ensures var a, b := ActAll(g, m, acts, p, len), ActAll(g, m.(cs := cs), acts, p, len);
            b == Acted(a.m.(cs := cs), a.done)
    decreases |acts|
  {
    if acts != [] && acts[0] != DONE {
      ActAllState(g, Act(g, m, acts[0], p), cs, acts[1..], p, len);
      assert Act(g, m.(cs := cs), acts[0], p) == Act(g, m, acts[0], p).(cs := cs);
    }
  }
}
