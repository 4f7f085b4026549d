/** The seeded xoroshiro128+ generator (generator/src/rng.rs). */
module Rng {

  /** The two 64-bit words of generator state. */
  datatype RngState = RngState(s0: bv64, s1: bv64)

  /** The value `next` returns from a state: the wrapping sum of both words. */
  function Output(st: RngState): bv64 {
    st.s0 + st.s1
  }

  /** The state `next` leaves behind, with the rotations 55 and 36 and the shift 14. */
  function Advance(st: RngState): RngState {
    var t := st.s0 ^ st.s1;
    RngState(st.s0.RotateLeft(55) ^ t ^ (t << 14), t.RotateLeft(36))
  }

  /** The state after k calls of `next`. */
  function AdvanceN(st: RngState, k: nat): RngState
    decreases k
  {
    if k == 0 then st else AdvanceN(Advance(st), k - 1)
  }

  /** The first k values drawn from a state. */
  function Stream(st: RngState, k: nat): (r: seq<bv64>)
    decreases k
    ensures |r| == k
  {
    if k == 0 then [] else [Output(st)] + Stream(Advance(st), k - 1)
  }

  const TWO_64: nat := 0x1_0000_0000_0000_0000

  /** The numerator of `next_f32` over 2^24: the top 24 bits of a draw (`draw >> 40`), plus one. */
  function F32Numerator(draw: nat): (n: nat)
    requires draw < TWO_64
    ensures 1 <= n <= 0x100_0000
  {
    draw / 0x100_0000_0000 + 1
  }

  /** The all-zero state is a fixed point that emits zero forever. */
  lemma {:induction false} ZeroSeedIsStuck(k: nat)
    ensures AdvanceN(RngState(0, 0), k) == RngState(0, 0)
    ensures Stream(RngState(0, 0), k) == seq(k, _ => 0 as bv64)
  {
    if k > 0 {
      ZeroSeedIsStuck(k - 1);
    }
  }

  /** Only the all-zero state advances to the all-zero state. */
  lemma AdvanceZeroIff(st: RngState)
    ensures Advance(st) == RngState(0, 0) <==> st == RngState(0, 0)
  {
  }

  /** Any other state never reaches the all-zero state. */
  lemma {:induction false} NonZeroStaysNonZero(st: RngState, k: nat)
    requires st != RngState(0, 0)
    ensures AdvanceN(st, k) != RngState(0, 0)
    decreases k
  {
    if k > 0 {
      AdvanceZeroIff(st);
      NonZeroStaysNonZero(Advance(st), k - 1);
    }
  }

  /** One more draw extends the state count by one. */
  lemma {:induction false} AdvanceNSucc(st: RngState, k: nat)
    ensures AdvanceN(st, k + 1) == Advance(AdvanceN(st, k))
    decreases k
  {
    if k > 0 {
      AdvanceNSucc(Advance(st), k - 1);
    }
  }

  class Rng {
    var s0: bv64
    var s1: bv64

    function State(): RngState
      reads this
    {
      RngState(s0, s1)
    }

    /** `RNG::new`: the seed pair is stored as it is. */
    constructor New(seed0: bv64, seed1: bv64)
      ensures State() == RngState(seed0, seed1)
    {
      s0, s1 := seed0, seed1;
    }

    /** `RNG::new_u64`: the seed becomes the first word, the second is zero. */
    constructor NewU64(seed: bv64)
      ensures State() == RngState(seed, 0)
    {
      s0, s1 := seed, 0;
    }

    /** `next`: returns the wrapping sum of the old words and advances the state in place. */
    method Next() returns (r: bv64)
      modifies this
      ensures r == Output(old(State()))
      ensures State() == Advance(old(State()))
    {
      var st := State();
      r := Output(st);
      st := Advance(st);
      s0, s1 := st.s0, st.s1;
    }

    /** `next_f32`, as the integer numerator n of the value n / 2^24; one `next` is consumed. */
    method NextF32() returns (n: nat)
      modifies this
      ensures 1 <= n <= 0x100_0000
      ensures n == F32Numerator(Output(old(State())) as nat)
      ensures State() == Advance(old(State()))
    {
      var value := Next();
      n := F32Numerator(value as nat);
    }
  }
}
