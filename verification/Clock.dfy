/** The two clocks, and when time_update takes their readings for a time jump. */
module Clock {

  const MIN_TIMEJUMP := 1.0
  const TSTAMP_HUGE := 10000000000000.0

  type Four = s: seq<real> | |s| == 4 witness [0.0, 0.0, 0.0, 0.0]

  /** What get_clock and ev_time return one after the other, as often as time_update may ask. */
  datatype Readings = Readings(mono: Four, wall: Four)

  /** mn_now, ev_rt_now, now_floor and rtmn_diff. */
  datatype Times = Times(mn: real, rt: real, floor: real, diff: real)

  /** New times; whether they are a jump; and what is added to the deadlines of relative timers. */
  datatype Update = Update(times: Times, jumped: bool, shift: real)

  /** The i-th pair of readings is about as far apart as the clocks were before. */
  predicate Near(diff: real, r: Readings, i: nat)
    requires i < 4
  {
    -MIN_TIMEJUMP < diff - (r.wall[i] - r.mono[i]) < MIN_TIMEJUMP
  }

  /** The first of three pairs that is near, or 3. */
  function FirstNear(diff: real, r: Readings): (i: nat)
    ensures i <= 3
  {
    if Near(diff, r, 0) then 0 else if Near(diff, r, 1) then 1 else if Near(diff, r, 2) then 2 else 3
  }

  function Updated(monotonic: bool, t: Times, r: Readings, maxBlock: real): Update {
    if !monotonic then
      var rt := r.wall[0];
      var jumped := t.mn > rt || rt > t.mn + maxBlock + MIN_TIMEJUMP;
      Update(Times(rt, rt, t.floor, t.diff), jumped, if jumped then rt - t.mn else 0.0)
    else if r.mono[0] - t.floor < MIN_TIMEJUMP * 0.5 then
      Update(Times(r.mono[0], t.diff + r.mono[0], t.floor, t.diff), false, 0.0)
    else
      var i := FirstNear(t.diff, r);
      var seen := if i < 3 then i else 2;
      Update(Times(r.mono[i], r.wall[i], r.mono[i], r.wall[seen] - r.mono[seen]), i == 3, 0.0)
  }

  /** With a monotonic clock: a jump is three pairs in a row that are not near, and without one the recorded
      difference moves by less than MIN_TIMEJUMP. */
  lemma JumpIsFar(t: Times, r: Readings, maxBlock: real)
    ensures var u := Updated(true, t, r, maxBlock);
            && (u.jumped <==>
                  r.mono[0] - t.floor >= MIN_TIMEJUMP * 0.5 && forall i :: 0 <= i < 3 ==> !Near(t.diff, r, i))
            && (!u.jumped ==> -MIN_TIMEJUMP < u.times.diff - t.diff < MIN_TIMEJUMP)
  {
  }

  /** Without one: a jump is a clock that went back, or ahead of the longest wait; every relative timer keeps the
      time it has left. */
  lemma JumpKeepsTimeLeft(t: Times, r: Readings, maxBlock: real, at: real)
    ensures var u := Updated(false, t, r, maxBlock);
            && (u.jumped <==> !(t.mn <= u.times.mn <= t.mn + maxBlock + MIN_TIMEJUMP))
            && (u.jumped ==> (at + u.shift) - u.times.mn == at - t.mn)
            && (!u.jumped ==> u.shift == 0.0)
  {
  }

  /** The readings never go back. */
  predicate Ascending(s: Four) {
    s[0] <= s[1] <= s[2] <= s[3]
  }

  /** With a monotonic clock: mn_now is the i-th reading, the last one taken. If less than half a jump has passed
      since the clocks were last compared it is the first, and ev_rt_now is that plus the recorded difference.
      Otherwise the readings are taken in pairs until one is near, four at most: both times come from the last
      pair, and so does the difference unless that pair was read after a jump. */
  lemma UpdateReads(t: Times, r: Readings, maxBlock: real) returns (i: nat)
    ensures i < 4
    ensures var u := Updated(true, t, r, maxBlock);
            && u.times.mn == r.mono[i] && (Ascending(r.mono) ==> u.times.mn >= r.mono[0])
            && (!u.jumped ==> u.times.rt == u.times.mn + u.times.diff) && u.shift == 0.0
            && if r.mono[0] - t.floor < MIN_TIMEJUMP * 0.5
               then i == 0 && !u.jumped && u.times.floor == t.floor && u.times.diff == t.diff
               else && u.times.rt == r.wall[i] && u.times.floor == r.mono[i] && (u.jumped <==> i == 3)
                    && (forall k :: 0 <= k < i ==> !Near(t.diff, r, k)) && (i < 3 ==> Near(t.diff, r, i))
                    && (u.jumped ==> u.times.diff == r.wall[2] - r.mono[2])
  {
    i := if r.mono[0] - t.floor < MIN_TIMEJUMP * 0.5 then 0 else FirstNear(t.diff, r);
  }

  /** Without one both times are the wall clock's. */
  lemma WallClockRules(t: Times, r: Readings, maxBlock: real)
    ensures var u := Updated(false, t, r, maxBlock);
            && u.times.mn == u.times.rt == r.wall[0] && u.times.floor == t.floor && u.times.diff == t.diff
            && (u.shift == if u.jumped then r.wall[0] - t.mn else 0.0)
  {
  }

  class Clock {
    const haveMonotonic: bool
    var nowFloor: real
    var rtmnDiff: real

    constructor (haveMonotonic: bool)
      ensures this.haveMonotonic == haveMonotonic
    {
      this.haveMonotonic := haveMonotonic;
      nowFloor, rtmnDiff := 0.0, 0.0;
    }

    /** time_update's part that reads the clocks, from mn_now `mn`. */
    method Read(mn: real, r: Readings, maxBlock: real) returns (mnNow: real, rtNow: real, jumped: bool, shift: real)
      modifies this
      ensures Update(Times(mnNow, rtNow, nowFloor, rtmnDiff), jumped, shift) ==
              old(Updated(haveMonotonic, Times(mn, 0.0, nowFloor, rtmnDiff), r, maxBlock))
    {
      jumped, shift := false, 0.0;
      if !haveMonotonic {
        rtNow := r.wall[0];
        if mn > rtNow || rtNow > mn + maxBlock + MIN_TIMEJUMP {
          jumped, shift := true, rtNow - mn;
        }
        mnNow := rtNow;
      } else {
        var odiff := rtmnDiff;
        mnNow := r.mono[0];
        if mnNow - nowFloor < MIN_TIMEJUMP * 0.5 {
          rtNow := rtmnDiff + mnNow;
          return;
        }
        nowFloor := mnNow;
        rtNow := r.wall[0];
        for i := 0 to 3
          invariant mnNow == nowFloor == r.mono[i] && rtNow == r.wall[i]
          invariant forall k :: 0 <= k < i ==> !Near(odiff, r, k)
          invariant i > 0 ==> rtmnDiff == r.wall[i - 1] - r.mono[i - 1]
        {
          rtmnDiff := rtNow - mnNow;
          var diff := odiff - rtmnDiff;
          if (if diff < 0.0 then -diff else diff) < MIN_TIMEJUMP {
            assert Near(odiff, r, i);
            return;
          }
          rtNow, mnNow := r.wall[i + 1], r.mono[i + 1];
          nowFloor := mnNow;
        }
        jumped := true;
      }
    }
  }
}
