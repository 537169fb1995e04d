/** The bonus-jump hash of `game/src/systems/player.rs`: the four inputs are
    xor-folded into one 32-bit word and scrambled with Marsaglia's xorshift32
    (shift triple 13/17/5, "Xorshift RNGs", 2003). */
module Xorshift {

  /** One round of xorshift32: `h ^= h << 13; h ^= h >> 17; h ^= h << 5`. */
  function Xorshift32(h: bv32): (r: bv32)
    ensures Unxorshift32(r) == h
  {
    Undo5Inverts(Step17(Step13(h)));
    Undo17Inverts(Step13(h));
    Undo13Inverts(h);
    Step5(Step17(Step13(h)))
  }

  /** The seed: position bits, elapsed-time bits and the jump count, xor-ed. */
  function BonusSeed(xb: bv32, yb: bv32, tbits: bv32, jumpsUsed: nat): bv32
    requires jumpsUsed < 256
  {
    xb ^ yb ^ tbits ^ (jumpsUsed as bv32)
  }

  /** The draw the bonus decision is made from. */
  function BonusHash(xb: bv32, yb: bv32, tbits: bv32, jumpsUsed: nat): (h: bv32)
    requires jumpsUsed < 256
    ensures Unxorshift32(h) == BonusSeed(xb, yb, tbits, jumpsUsed)
    ensures h == 0 <==> BonusSeed(xb, yb, tbits, jumpsUsed) == 0
  {
    XorshiftZero(BonusSeed(xb, yb, tbits, jumpsUsed));
    Xorshift32(BonusSeed(xb, yb, tbits, jumpsUsed))
  }

  function Step13(x: bv32): bv32 { x ^ (x << 13) }

  function Step17(x: bv32): bv32 { x ^ (x >> 17) }

  function Step5(x: bv32): bv32 { x ^ (x << 5) }

  function Undo13(y: bv32): bv32 { y ^ (y << 13) ^ (y << 26) }

  function Undo17(y: bv32): bv32 { y ^ (y >> 17) }

  function Undo5(y: bv32): bv32 {
    var y2 := y ^ (y << 5);
    var y4 := y2 ^ (y2 << 10);
    y4 ^ (y4 << 20)
  }

  /** The inverse permutation of `Xorshift32`. */
  function Unxorshift32(r: bv32): bv32 {
    Undo13(Undo17(Undo5(r)))
  }

  // Each inversion is first proved on the raw shift expressions, which the
  // solver decides by bit-blasting, and then carried over to the functions.

  lemma Raw13(x: bv32)
    ensures (x ^ (x << 13)) ^ ((x ^ (x << 13)) << 13) ^ ((x ^ (x << 13)) << 26) == x
  {
  }

  lemma Raw17(x: bv32)
    ensures (x ^ (x >> 17)) ^ ((x ^ (x >> 17)) >> 17) == x
  {
  }

  lemma Raw5(x: bv32)
    ensures var y := x ^ (x << 5);
            var y2 := y ^ (y << 5);
            var y4 := y2 ^ (y2 << 10);
            y4 ^ (y4 << 20) == x
  {
  }

  lemma Undo13Inverts(x: bv32)
    ensures Undo13(Step13(x)) == x
  {
    Undo13OfRaw(x);
  }

  lemma Undo13OfRaw(x: bv32)
    ensures Undo13(x ^ (x << 13)) == x
  {
    Raw13(x);
  }

  lemma Undo17Inverts(x: bv32)
    ensures Undo17(Step17(x)) == x
  {
    Undo17OfRaw(x);
  }

  lemma Undo17OfRaw(x: bv32)
    ensures Undo17(x ^ (x >> 17)) == x
  {
    Raw17(x);
  }

  lemma Undo5Inverts(x: bv32)
    ensures Undo5(Step5(x)) == x
  {
    Undo5OfRaw(x);
  }

  lemma Undo5OfRaw(x: bv32)
    ensures Undo5(x ^ (x << 5)) == x
  {
    Raw5(x);
  }

  /** Undoing the three steps in reverse order recovers the seed: xorshift32
      is a permutation of the 32-bit words, so two different seeds never
      share a draw. */
  lemma XorshiftRoundTrip(h: bv32)
    ensures Unxorshift32(Xorshift32(h)) == h
  {
    Undo5Inverts(Step17(Step13(h)));
    Undo17Inverts(Step13(h));
    Undo13Inverts(h);
  }

  lemma XorshiftInjective(a: bv32, b: bv32)
    ensures Xorshift32(a) == Xorshift32(b) <==> a == b
  {
    if Xorshift32(a) == Xorshift32(b) {
      XorshiftRoundTrip(a);
      XorshiftRoundTrip(b);
    }
  }

  /** Zero is a fixed point and the only seed that draws zero. */
  lemma XorshiftZero(h: bv32)
    ensures Xorshift32(h) == 0 <==> h == 0
  {
    assert Xorshift32(0) == 0;
    XorshiftInjective(h, 0);
  }
}
