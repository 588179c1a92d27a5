/** How libev's arrays grow. */
module Growth {

  const MALLOC_ROUND: nat := 4096
  const OVERHEAD: nat := 32  // sizeof (void *) * 4

  /** `cur + 1` doubled until it reaches `cnt`, at least once. */
  function Doubled(n: nat, cnt: int): (r: nat)
    requires n > 0
    ensures r >= 2 * n && r >= cnt && (r == 2 * n || r < 2 * cnt)
    decreases cnt - n
  {
    if cnt > 2 * n then Doubled(2 * n, cnt) else 2 * n
  }

  /** The number of elements that fill the whole pages needed for n elements and the overhead. */
  function PageRounded(elem: nat, n: nat): int
    requires elem > 0
  {
    var x := n * elem + elem + (MALLOC_ROUND - 1) + OVERHEAD;
    (x - x % MALLOC_ROUND - OVERHEAD) / elem
  }

  lemma RoundUp(elem: nat, n: nat)
    requires elem > 0
    ensures n < PageRounded(elem, n)
    ensures PageRounded(elem, n) * elem < n * elem + elem + MALLOC_ROUND
  {
    var x := n * elem + elem + (MALLOC_ROUND - 1) + OVERHEAD;
    var bytes := x - x % MALLOC_ROUND - OVERHEAD;
    assert (n + 1) * elem <= bytes;
    var q := PageRounded(elem, n);
    assert q * elem <= bytes < (q + 1) * elem;
    assert q + 1 <= n + 1 ==> (q + 1) * elem <= (n + 1) * elem;
  }

  method DoubleUp(cur: nat, cnt: int) returns (ncur: nat)
    ensures ncur == Doubled(cur + 1, cnt)
  {
    ncur := (cur + 1) * 2;
    ghost var half := cur + 1;
    while cnt > ncur
      invariant ncur == 2 * half && half > cur
      invariant Doubled(cur + 1, cnt) == Doubled(half, cnt)
      decreases cnt - ncur
    {
      half := ncur;
      ncur := ncur * 2;
    }
  }

  /** A new size for an array of `cur` elements of `elem` bytes that must hold `cnt`; large arrays fill
      whole pages, less the allocator's overhead. */
  method ArrayNextsize(elem: nat, cur: nat, cnt: int) returns (ncur: nat)
    requires elem > 0
    ensures ncur >= cnt && ncur >= 2 * (cur + 1)
    ensures var d := Doubled(cur + 1, cnt);
            if d * elem <= MALLOC_ROUND - OVERHEAD then ncur == d
            else d < ncur && ncur * elem < d * elem + elem + MALLOC_ROUND
  {
    hide PageRounded, Doubled;
    ncur := DoubleUp(cur, cnt);
    if ncur * elem > MALLOC_ROUND - OVERHEAD {
      RoundUp(elem, ncur);
      ncur := PageRounded(elem, ncur);
    }
  }
}
