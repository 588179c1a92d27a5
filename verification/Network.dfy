/** Fixed-width signed integers in network byte order. */
module Network {

  type Byte = x: int | 0 <= x < 256

  function Pow256(n: nat): (p: nat)
    ensures p > 0
  {
    if n == 0 then 1 else 256 * Pow256(n - 1)
  }

  /** The n-byte integers: two's complement. */
  predicate Fits(x: int, n: nat) {
    n > 0 && -(Pow256(n) / 2) <= x < Pow256(n) / 2
  }

  function Digits(u: nat, n: nat): (s: seq<Byte>)
    ensures |s| == n
  {
    if n == 0 then [] else Digits(u / 256, n - 1) + [u % 256]
  }

  function Value(s: seq<Byte>): nat {
    if s == [] then 0 else Value(s[..|s| - 1]) * 256 + s[|s| - 1]
  }

  /** HostToNet: most significant byte first. */
  function ToNetwork(x: int, n: nat): (s: seq<Byte>)
    requires Fits(x, n)
    ensures |s| == n
  {
    Digits(if x < 0 then x + Pow256(n) else x, n)
  }

  /** NetToHost */
  function FromNetwork(s: seq<Byte>): int {
    var u := Value(s);
    if u >= Pow256(|s|) / 2 && s != [] then u - Pow256(|s|) else u
  }

  lemma {:induction false} ValueOfDigits(u: nat, n: nat)
    requires u < Pow256(n)
    ensures Value(Digits(u, n)) == u
  {
    if n > 0 {
      ValueOfDigits(u / 256, n - 1);
      assert Digits(u, n)[..n - 1] == Digits(u / 256, n - 1);
    }
  }

  lemma {:induction false} DigitsOfValue(s: seq<Byte>)
    ensures Value(s) < Pow256(|s|) && Digits(Value(s), |s|) == s
  {
    if s != [] {
      var init, last := s[..|s| - 1], s[|s| - 1];
      DigitsOfValue(init);
      assert Value(s) / 256 == Value(init) && Value(s) % 256 == last;
      assert s == init + [last];
    }
  }

  lemma {:induction false} Pow256Even(n: nat)
    requires n > 0
    ensures Pow256(n) / 2 * 2 == Pow256(n)
  {
    assert Pow256(n) == 2 * (128 * Pow256(n - 1));
  }

  /** u shifted right by a number of bytes. */
  function ShiftRight(u: nat, bytes: nat): nat {
    if bytes == 0 then u else ShiftRight(u / 256, bytes - 1)
  }

  lemma {:induction false} DigitsAt(u: nat, n: nat, i: nat)
    requires i < n
    ensures Digits(u, n)[i] == ShiftRight(u, n - 1 - i) % 256
  {
    if i < n - 1 {
      DigitsAt(u / 256, n - 1, i);
    }
  }

  /** The most significant byte comes first. */
  lemma NetworkOrder(x: int, n: nat, i: nat)
    requires Fits(x, n) && i < n
    ensures ToNetwork(x, n)[i] == ShiftRight(if x < 0 then x + Pow256(n) else x, n - 1 - i) % 256
  {
    DigitsAt(if x < 0 then x + Pow256(n) else x, n, i);
  }

  /** Every integer that fits reads back as itself, */
  lemma RoundTrip(x: int, n: nat)
    requires Fits(x, n)
    ensures FromNetwork(ToNetwork(x, n)) == x
  {
    Pow256Even(n);
    ValueOfDigits(if x < 0 then x + Pow256(n) else x, n);
  }

  /** ... and every byte string is the encoding of what it reads as. */
  lemma RoundTripBack(s: seq<Byte>)
    requires s != []
    ensures Fits(FromNetwork(s), |s|) && ToNetwork(FromNetwork(s), |s|) == s
  {
    Pow256Even(|s|);
    DigitsOfValue(s);
  }
}
