/** The transition tables of the request parser and the two ways to look a character up in them:
    the generated code's binary searches and a plain linear scan. */
module HttpTables {

  type Char = c: int | -128 <= c < 128

  datatype Tables = Tables(
    condOffsets: seq<nat>, condLengths: seq<nat>, condKeys: seq<int>, condSpaces: seq<nat>,
    keyOffsets: seq<nat>, singleLengths: seq<nat>, rangeLengths: seq<nat>, indexOffsets: seq<nat>,
    transKeys: seq<int>, indicies: seq<nat>, transTargs: seq<nat>, transActions: seq<nat>, actions: seq<nat>)
  {
    predicate IsState(cs: nat) { cs < |keyOffsets| }

    /** Every index the parser computes lies inside its table, and key lists are sorted and disjoint. */
    ghost predicate WellFormed() {
      && |condOffsets| == |condLengths| == |singleLengths| == |rangeLengths| == |indexOffsets| == |keyOffsets|
      && (forall cs {:trigger IsState(cs)} :: 0 <= cs && IsState(cs) ==>
            && 2 * (condOffsets[cs] + condLengths[cs]) <= |condKeys|
            && condOffsets[cs] + condLengths[cs] <= |condSpaces|
            && keyOffsets[cs] + singleLengths[cs] + 2 * rangeLengths[cs] <= |transKeys|
            && indexOffsets[cs] + singleLengths[cs] + rangeLengths[cs] < |indicies|
            && DisjointRanges(CondKeys(cs)) && Sorted(SingleKeys(cs)) && DisjointRanges(RangeKeys(cs)))
      && |transTargs| == |transActions|
      && (forall i {:trigger indicies[i]} :: 0 <= i < |indicies| ==> indicies[i] < |transTargs|)
      && (forall i {:trigger transTargs[i]} :: 0 <= i < |transTargs| ==> IsState(transTargs[i]))
      && (forall i {:trigger transActions[i]} :: 0 <= i < |transActions| && transActions[i] != 0 ==>
            transActions[i] < |actions| && transActions[i] + 1 + actions[transActions[i]] <= |actions|)
    }

    function CondKeys(cs: nat): seq<int>
      requires cs < |condOffsets| && cs < |condLengths| && 2 * (condOffsets[cs] + condLengths[cs]) <= |condKeys|
    {
      condKeys[2 * condOffsets[cs]..2 * (condOffsets[cs] + condLengths[cs])]
    }

    function SingleKeys(cs: nat): seq<int>
      requires cs < |keyOffsets| && cs < |singleLengths| && keyOffsets[cs] + singleLengths[cs] <= |transKeys|
    {
      transKeys[keyOffsets[cs]..keyOffsets[cs] + singleLengths[cs]]
    }

    function RangeKeys(cs: nat): seq<int>
      requires cs < |keyOffsets| && cs < |singleLengths| && cs < |rangeLengths|
      requires keyOffsets[cs] + singleLengths[cs] + 2 * rangeLengths[cs] <= |transKeys|
    {
      var first := keyOffsets[cs] + singleLengths[cs];
      transKeys[first..first + 2 * rangeLengths[cs]]
    }
  }

  predicate Sorted(keys: seq<int>) {
    forall i, j :: 0 <= i < j < |keys| ==> keys[i] < keys[j]
  }

  /** The bounds of the i-th range of a list of pairs. */
  function Lo(keys: seq<int>, i: int): int
    requires 0 <= i < |keys| / 2
  {
    keys[2 * i]
  }

  function Hi(keys: seq<int>, i: int): int
    requires 0 <= i < |keys| / 2
  {
    keys[2 * i + 1]
  }

  /** Pairs of bounds, in ascending order. */
  predicate DisjointRanges(keys: seq<int>) {
    && |keys| % 2 == 0
    && (forall i :: 0 <= i < |keys| / 2 ==> Lo(keys, i) <= Hi(keys, i))
    && (forall i, j :: 0 <= i < j < |keys| / 2 ==> Hi(keys, i) < Lo(keys, j))
  }

  // ---------- linear scans ----------

  /** The position of the first key equal to k, or the number of keys. */
  function ScanSingle(keys: seq<int>, k: int): nat {
    if keys == [] || keys[0] == k then 0 else 1 + ScanSingle(keys[1..], k)
  }

  /** The number of the first range that contains k, or the number of ranges. */
  function ScanRange(keys: seq<int>, k: int): nat {
    if |keys| < 2 || keys[0] <= k <= keys[1] then 0 else 1 + ScanRange(keys[2..], k)
  }

  lemma {:induction false} ScanSingleIs(keys: seq<int>, k: int, i: nat)
    requires i <= |keys| && (i < |keys| ==> keys[i] == k) && forall j :: 0 <= j < i ==> keys[j] != k
    ensures ScanSingle(keys, k) == i
  {
    if i > 0 {
      ScanSingleIs(keys[1..], k, i - 1);
    }
  }

  lemma {:induction false} ScanRangeIs(keys: seq<int>, k: int, i: nat)
    requires |keys| % 2 == 0 && i <= |keys| / 2 && (i < |keys| / 2 ==> Lo(keys, i) <= k <= Hi(keys, i))
    requires forall j :: 0 <= j < i ==> !(Lo(keys, j) <= k <= Hi(keys, j))
    ensures ScanRange(keys, k) == i
  {
    if i > 0 {
      var rest := keys[2..];
      assert !(Lo(keys, 0) <= k <= Hi(keys, 0));
      forall j | 0 <= j < |rest| / 2 ensures Lo(rest, j) == Lo(keys, j + 1) && Hi(rest, j) == Hi(keys, j + 1) {}
      ScanRangeIs(rest, k, i - 1);
    }
  }

  // ---------- binary searches ----------

  method SearchSingle(keys: seq<int>, k: int) returns (i: nat)
    requires Sorted(keys)
    ensures i == ScanSingle(keys, k)
  {
    var lower, upper := 0, |keys| - 1;
    while lower <= upper
      invariant 0 <= lower <= upper + 1 <= |keys|
      invariant forall j :: 0 <= j < lower ==> keys[j] < k
      invariant forall j :: upper < j < |keys| ==> keys[j] > k
    {
      var mid := lower + (upper - lower) / 2;
      if k < keys[mid] {
        upper := mid - 1;
      } else if k > keys[mid] {
        lower := mid + 1;
      } else {
        ScanSingleIs(keys, k, mid);
        return mid;
      }
    }
    ScanSingleIs(keys, k, |keys|);
    return |keys|;
  }

  /** `lower`, `mid` and `upper` move in steps of two; `& ~1` makes the offset even. */
  method SearchRange(keys: seq<int>, k: int) returns (i: nat)
    requires DisjointRanges(keys)
    ensures i == ScanRange(keys, k)
  {
    var lower, upper := 0, |keys| - 2;
    while lower <= upper
      invariant 0 <= lower <= upper + 2 <= |keys| && lower % 2 == 0 && upper % 2 == 0
      invariant forall j :: 0 <= j < lower / 2 ==> Hi(keys, j) < k
      invariant forall j :: upper / 2 < j < |keys| / 2 ==> Lo(keys, j) > k
    {
      var half := (upper - lower) / 2;
      var mid := lower + (half - half % 2);
      ghost var m := mid / 2;
      assert mid == 2 * m && lower <= mid <= upper;
      assert keys[mid] == Lo(keys, m) && keys[mid + 1] == Hi(keys, m);
      if k < keys[mid] {
        upper := mid - 2;
        assert upper / 2 == m - 1;
      } else if k > keys[mid + 1] {
        lower := mid + 2;
        assert lower / 2 == m + 1;
      } else {
        ScanRangeIs(keys, k, m);
        return mid / 2;
      }
    }
    ScanRangeIs(keys, k, |keys| / 2);
    return |keys| / 2;
  }

  // ---------- one transition ----------

  /** The character, or its code in the conditional alphabet if the state has a condition on it. */
  function Widened(t: Tables, cs: nat, c: Char, relaxed: bool): int
    requires t.WellFormed() && t.IsState(cs)
  {
    var r := ScanRange(t.CondKeys(cs), c);
    if r < t.condLengths[cs] && t.condSpaces[t.condOffsets[cs] + r] == 0
    then 128 + (c + 128) + (if relaxed then 256 else 0)
    else c
  }

  /** The transition a linear scan of the state's keys chooses: singles, then ranges, then the default. */
  function Transition(t: Tables, cs: nat, wide: int): (tr: nat)
    requires t.WellFormed() && t.IsState(cs)
    ensures tr < |t.transTargs|
  {
    var s, r := ScanSingle(t.SingleKeys(cs), wide), ScanRange(t.RangeKeys(cs), wide);
    ScanBounds(t.SingleKeys(cs), t.RangeKeys(cs), wide);
    t.indicies[t.indexOffsets[cs] + if s < t.singleLengths[cs] then s else t.singleLengths[cs] + r]
  }

  lemma {:induction false} ScanBounds(singles: seq<int>, ranges: seq<int>, k: int)
    ensures ScanSingle(singles, k) <= |singles| && ScanRange(ranges, k) <= |ranges| / 2
    decreases |singles| + |ranges|
  {
    if singles != [] {
      ScanBounds(singles[1..], ranges, k);
    } else if |ranges| >= 2 {
      ScanBounds(singles, ranges[2..], k);
    }
  }

  /** A character keeps its code unless a condition of the state covers it, and then it gets one that no plain
      character has, and another one when the condition holds. */
  lemma WidenedIs(t: Tables, cs: nat, c: Char, relaxed: bool, i: nat)
    requires t.WellFormed() && t.IsState(cs)
    ensures i < t.condLengths[cs] && Lo(t.CondKeys(cs), i) <= c <= Hi(t.CondKeys(cs), i) ==>
              Widened(t, cs, c, relaxed) ==
              if t.condSpaces[t.condOffsets[cs] + i] != 0 then c else if relaxed then c + 512 else c + 256
    ensures (forall j :: 0 <= j < t.condLengths[cs] ==> !(Lo(t.CondKeys(cs), j) <= c <= Hi(t.CondKeys(cs), j))) ==>
              Widened(t, cs, c, relaxed) == c
  {
    var keys := t.CondKeys(cs);
    if i < t.condLengths[cs] && Lo(keys, i) <= c <= Hi(keys, i) {
      ScanRangeIs(keys, c, i);
    }
    if forall j :: 0 <= j < t.condLengths[cs] ==> !(Lo(keys, j) <= c <= Hi(keys, j)) {
      ScanRangeIs(keys, c, t.condLengths[cs]);
    }
  }

  /** The transition is that of the single key the code equals, else of the range it lies in, else the default. */
  lemma TransitionIs(t: Tables, cs: nat, wide: int, i: nat)
    requires t.WellFormed() && t.IsState(cs)
    ensures i < t.singleLengths[cs] && t.SingleKeys(cs)[i] == wide ==>
              Transition(t, cs, wide) == t.indicies[t.indexOffsets[cs] + i]
    ensures wide !in t.SingleKeys(cs) && i < t.rangeLengths[cs]
            && Lo(t.RangeKeys(cs), i) <= wide <= Hi(t.RangeKeys(cs), i) ==>
              Transition(t, cs, wide) == t.indicies[t.indexOffsets[cs] + t.singleLengths[cs] + i]
    ensures wide !in t.SingleKeys(cs)
            && (forall j :: 0 <= j < t.rangeLengths[cs] ==>
                  !(Lo(t.RangeKeys(cs), j) <= wide <= Hi(t.RangeKeys(cs), j))) ==>
              Transition(t, cs, wide) == t.indicies[t.indexOffsets[cs] + t.singleLengths[cs] + t.rangeLengths[cs]]
  {
    var singles, ranges := t.SingleKeys(cs), t.RangeKeys(cs);
    if i < t.singleLengths[cs] && singles[i] == wide {
      ScanSingleIs(singles, wide, i);
    }
    if wide !in singles {
      ScanSingleIs(singles, wide, t.singleLengths[cs]);
      if i < t.rangeLengths[cs] && Lo(ranges, i) <= wide <= Hi(ranges, i) {
        ScanRangeIs(ranges, wide, i);
      }
      if forall j :: 0 <= j < t.rangeLengths[cs] ==> !(Lo(ranges, j) <= wide <= Hi(ranges, j)) {
        ScanRangeIs(ranges, wide, t.rangeLengths[cs]);
      }
    }
  }

  method Widen(t: Tables, cs: nat, c: Char, relaxed: bool) returns (wide: int)
    requires t.WellFormed() && t.IsState(cs)
    ensures wide == Widened(t, cs, c, relaxed)
  {
    wide := c;
    if t.condLengths[cs] > 0 {
      var r := SearchRange(t.CondKeys(cs), c);
      if r < t.condLengths[cs] {
        if t.condSpaces[t.condOffsets[cs] + r] == 0 {
          wide := 128 + (c + 128);
          if relaxed {
            wide := wide + 256;
          }
        }
      }
    }
  }

  /** The generated code's lookup chooses the same transition. */
  method Lookup(t: Tables, cs: nat, wide: int) returns (tr: nat)
    requires t.WellFormed() && t.IsState(cs)
    ensures tr == Transition(t, cs, wide)
  {
    var trans := t.indexOffsets[cs];
    var matched := false;
    ScanBounds(t.SingleKeys(cs), t.RangeKeys(cs), wide);
    if t.singleLengths[cs] > 0 {
      var s := SearchSingle(t.SingleKeys(cs), wide);
      trans := trans + s;  // klen if there is no match
      matched := s < t.singleLengths[cs];
    }
    if !matched && t.rangeLengths[cs] > 0 {
      var r := SearchRange(t.RangeKeys(cs), wide);
      trans := trans + r;
    }
    tr := t.indicies[trans];
  }
}
