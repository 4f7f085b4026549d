/** The chord-density table and the per-step note count (generator/src/chord.rs). */
module Chord {
  import opened Seqs
  import opened Rng

  /** One list of percentage-scaled frequencies per step of the repeating pattern. */
  datatype ChordDensity = ChordDensity(densitySeq: seq<seq<nat>>)

  /** The low k bits of i are all zero: the filter `((1 << k) - 1) & i == 0`. */
  predicate LowBitsZero(i: nat, k: nat) {
    k == 0 || (i % 2 == 0 && LowBitsZero(i / 2, k - 1))
  }

  /** The values of `rev` from position j on whose position k passes the filter
      `LowBitsZero(i, k)`. */
  function Aligned(rev: seq<nat>, i: nat, j: nat): seq<nat>
    decreases |rev| - j
  {
    if j >= |rev| then []
    else (if LowBitsZero(i, j) then [rev[j]] else []) + Aligned(rev, i, j + 1)
  }

  /** `1 << k` on an i32, for shift amounts the type admits: bit 31 is the sign
      bit, so a shift by 31 gives i32::MIN. */
  function ShlI32(k: nat): int
    requires k < 32
  {
    if Pow2(k) < 0x8000_0000 then Pow2(k) else Pow2(k) - 0x1_0000_0000
  }

  /** The number of steps of `from_power_of_two` for n values: the length of
      the range `0..1 << (n - 1)`, which is empty when the bound is negative. */
  function StepCount(n: nat): (r: nat)
    requires 0 < n <= 32
    ensures r == if n <= 31 then Pow2(n - 1) else 0
  {
    Pow2Below(n - 1);
    var bound := ShlI32(n - 1);
    if bound > 0 then bound else 0
  }

  /** Below 31 a power of two fits an i32; 2^31 is the first that does not. */
  lemma Pow2Below(k: nat)
    ensures k < 31 ==> Pow2(k) < 0x8000_0000
    ensures k == 31 ==> Pow2(k) == 0x8000_0000
  {
    calc {
      Pow2(31);
      { Pow2Sum(16, 15); }
      Pow2(16) * Pow2(15);
      { Pow2Sum(8, 8); Pow2Sum(8, 7); }
      Pow2(8) * Pow2(8) * (Pow2(8) * Pow2(7));
      0x8000_0000;
    }
    if k < 31 {
      Pow2Grows(k, 31);
    }
  }

  /** Exponents add when powers of two multiply. */
  lemma {:induction false} Pow2Sum(a: nat, b: nat)
    ensures Pow2(a + b) == Pow2(a) * Pow2(b)
  {
    if b > 0 {
      Pow2Sum(a, b - 1);
    }
  }

  /** Powers of two grow strictly with the exponent. */
  lemma {:induction false} Pow2Grows(j: nat, k: nat)
    requires j < k
    ensures Pow2(j) < Pow2(k)
    decreases k
  {
    if j < k - 1 {
      Pow2Grows(j, k - 1);
    }
  }

  /** `ChordDensity::from_power_of_two`: a table of 2^(n-1) steps built from the
      coarsest-to-finest list `freq`; step i lists, finest first, the values
      whose subdivision falls on i. Thirty-two values give an empty table. */
  function FromPowerOfTwo(freq: seq<nat>): (r: ChordDensity)
    requires 0 < |freq| <= 32
    ensures |r.densitySeq| == if |freq| <= 31 then Pow2(|freq| - 1) else 0
  {
    var rev := Reverse(freq);
    ChordDensity(seq(StepCount(|freq|), (i: int) requires 0 <= i => Aligned(rev, i, 0)))
  }

  /** The number of times 2 divides a positive step index. */
  function TrailingZeros(i: nat): nat
    requires i > 0
  {
    if i % 2 == 1 then 0 else 1 + TrailingZeros(i / 2)
  }

  /** How many of the n finest values apply at step i. */
  function Depth(i: nat, n: nat): (d: nat)
    ensures d <= n
  {
    if i == 0 then n
    else if TrailingZeros(i) + 1 < n then TrailingZeros(i) + 1 else n
  }

  /** The low k bits of a positive i are zero exactly when k is at most its number of trailing zeros. */
  lemma {:induction false} LowBitsZeroIff(i: nat, k: nat)
    requires i > 0
    ensures LowBitsZero(i, k) <==> k <= TrailingZeros(i)
  {
    if k > 0 && i % 2 == 0 {
      LowBitsZeroIff(i / 2, k - 1);
    }
  }

  lemma {:induction false} AlignedIsSlice(rev: seq<nat>, i: nat, j: nat, d: nat)
    requires j <= d <= |rev|
    requires forall k :: j <= k < |rev| ==> (LowBitsZero(i, k) <==> k < d)
    ensures Aligned(rev, i, j) == rev[j..d]
    decreases |rev| - j
  {
    if j < |rev| {
      AlignedIsSlice(rev, i, j + 1, if j < d then d else j + 1);
      if j == d {
        assert forall k :: j < k < |rev| ==> !LowBitsZero(i, k);
        AlignedEmpty(rev, i, j + 1);
      }
    }
  }

  lemma {:induction false} AlignedEmpty(rev: seq<nat>, i: nat, j: nat)
    requires forall k :: j <= k < |rev| ==> !LowBitsZero(i, k)
    ensures Aligned(rev, i, j) == []
    decreases |rev| - j
  {
    if j < |rev| {
      AlignedEmpty(rev, i, j + 1);
    }
  }

  lemma {:induction false} LowBitsOfZero(k: nat)
    ensures LowBitsZero(0, k)
  {
    if k > 0 {
      LowBitsOfZero(k - 1);
    }
  }

  /** Step i of the table is the first Depth(i, n) values of the reversed input:
      a value applies exactly when the low (its position) bits of i are zero. */
  lemma EntryIsPrefix(freq: seq<nat>, i: nat)
    requires 0 < |freq| <= 31 && i < Pow2(|freq| - 1)
    ensures FromPowerOfTwo(freq).densitySeq[i] == Reverse(freq)[..Depth(i, |freq|)]
  {
    var rev, n := Reverse(freq), |freq|;
    DepthFilter(i, n);
    AlignedIsSlice(rev, i, 0, Depth(i, n));
    assert FromPowerOfTwo(freq).densitySeq[i] == Aligned(rev, i, 0);
  }

  /** The filter keeps exactly the first Depth(i, n) of n positions. */
  lemma DepthFilter(i: nat, n: nat)
    ensures forall k :: 0 <= k < n ==> (LowBitsZero(i, k) <==> k < Depth(i, n))
  {
    forall k | 0 <= k < n
      ensures LowBitsZero(i, k) <==> k < Depth(i, n)
    {
      if i > 0 {
        LowBitsZeroIff(i, k);
      } else {
        LowBitsOfZero(k);
      }
    }
  }

  /** Step 0 holds the whole list, finest first. */
  lemma FirstEntryIsReversed(freq: seq<nat>)
    requires 0 < |freq| <= 31
    ensures FromPowerOfTwo(freq).densitySeq[0] == Reverse(freq)
  {
    EntryIsPrefix(freq, 0);
  }

  /** Every odd step holds only the finest value. */
  lemma OddEntryIsFinest(freq: seq<nat>, i: nat)
    requires 0 < |freq| <= 31 && i < Pow2(|freq| - 1) && i % 2 == 1
    ensures FromPowerOfTwo(freq).densitySeq[i] == [freq[|freq| - 1]]
  {
    var rev := Reverse(freq);
    EntryIsPrefix(freq, i);
    OddDepth(i, |freq|);
    assert rev[..1] == [freq[|freq| - 1]];
  }

  /** At an odd step only the finest value applies. */
  lemma OddDepth(i: nat, n: nat)
    requires i % 2 == 1 && n > 0
    ensures Depth(i, n) == 1
  {
    assert TrailingZeros(i) == 0;
  }

  /** The expansion of [1, 2, 4, 8, 16] stated in the source's unit test. */
  const EXAMPLE_TABLE: seq<seq<nat>> :=
      [[16, 8, 4, 2, 1], [16], [16, 8], [16], [16, 8, 4], [16], [16, 8], [16],
       [16, 8, 4, 2], [16], [16, 8], [16], [16, 8, 4], [16], [16, 8], [16]]

  /** How many values apply at each of the 16 steps of a five-level list. */
  const EXAMPLE_DEPTHS: seq<nat> := [5, 1, 2, 1, 3, 1, 2, 1, 4, 1, 2, 1, 3, 1, 2, 1]

  lemma ExampleDepth(k: nat)
    requires k < 16
    ensures Depth(k, 5) == EXAMPLE_DEPTHS[k]
  {
    match k
    case 0 => assert Depth(0, 5) == 5;
    case 1 => assert Depth(1, 5) == 1;
    case 2 => assert Depth(2, 5) == 2;
    case 3 => assert Depth(3, 5) == 1;
    case 4 => assert Depth(4, 5) == 3;
    case 5 => assert Depth(5, 5) == 1;
    case 6 => assert Depth(6, 5) == 2;
    case 7 => assert Depth(7, 5) == 1;
    case 8 => assert Depth(8, 5) == 4;
    case 9 => assert Depth(9, 5) == 1;
    case 10 => assert Depth(10, 5) == 2;
    case 11 => assert Depth(11, 5) == 1;
    case 12 => assert Depth(12, 5) == 3;
    case 13 => assert Depth(13, 5) == 1;
    case 14 => assert Depth(14, 5) == 2;
    case 15 => assert Depth(15, 5) == 1;
  }

  lemma ExampleSlice(k: nat)
    requires k < 16
    ensures [16, 8, 4, 2, 1][..EXAMPLE_DEPTHS[k]] == EXAMPLE_TABLE[k]
  {
    match k
    case 0 => {}
    case 1 => {}
    case 2 => {}
    case 3 => {}
    case 4 => {}
    case 5 => {}
    case 6 => {}
    case 7 => {}
    case 8 => {}
    case 9 => {}
    case 10 => {}
    case 11 => {}
    case 12 => {}
    case 13 => {}
    case 14 => {}
    case 15 => {}
  }

  lemma PowerOfTwoExample()
    ensures FromPowerOfTwo([1, 2, 4, 8, 16]).densitySeq == EXAMPLE_TABLE
  {
    var freq: seq<nat> := [1, 2, 4, 8, 16];
    var t := FromPowerOfTwo(freq).densitySeq;
    assert Reverse(freq) == [16, 8, 4, 2, 1];
    assert |t| == 16 by { assert Pow2(4) == 16; }
    forall k | 0 <= k < 16
      ensures t[k] == EXAMPLE_TABLE[k]
    {
      EntryIsPrefix(freq, k);
      ExampleDepth(k);
      ExampleSlice(k);
    }
  }

  /** What one frequency d adds for a draw: d/100 notes, plus one more when the
      remainder of d beats the draw's remainder modulo 100. */
  function Contribution(d: nat, draw: nat): (r: nat)
    ensures d / 100 <= r <= d / 100 + 1
    ensures d % 100 == 0 ==> r == d / 100
  {
    if d % 100 > draw % 100 then d / 100 + 1 else d / 100
  }

  /** The count for the values ds and the generator state after their draws:
      one `next()` per value, in order. */
  function CountFrom(ds: seq<nat>, st: RngState): (nat, RngState)
    decreases |ds|
  {
    if ds == [] then (0, st)
    else
      var rest := CountFrom(ds[1..], Advance(st));
      (Contribution(ds[0], Output(st) as nat) + rest.0, rest.1)
  }

  /** Pairs the i-th value with the i-th draw and adds up the contributions. */
  function SumContributions(ds: seq<nat>, draws: seq<bv64>): nat
    requires |draws| == |ds|
  {
    if ds == [] then 0 else Contribution(ds[0], draws[0] as nat) + SumContributions(ds[1..], draws[1..])
  }

  /** The guaranteed part of the count: the sum of d/100. */
  function WholeNotes(ds: seq<nat>): nat {
    if ds == [] then 0 else ds[0] / 100 + WholeNotes(ds[1..])
  }

  /** How many values can add one extra note: those with a non-zero remainder. */
  function FractionalValues(ds: seq<nat>): nat {
    if ds == [] then 0 else (if ds[0] % 100 != 0 then 1 else 0) + FractionalValues(ds[1..])
  }

  /** The largest count a step of the table can produce. */
  function MaxCount(ds: seq<nat>): nat {
    WholeNotes(ds) + FractionalValues(ds)
  }

  /** The query consumes exactly one draw per value, pairing values and draws in order. */
  lemma {:induction false} CountDrawsInOrder(ds: seq<nat>, st: RngState)
    ensures CountFrom(ds, st).0 == SumContributions(ds, Stream(st, |ds|))
    ensures CountFrom(ds, st).1 == AdvanceN(st, |ds|)
    decreases |ds|
  {
    if ds != [] {
      CountDrawsInOrder(ds[1..], Advance(st));
    }
  }

  /** The count lies between the guaranteed notes and the guaranteed notes plus
      one per value with a remainder. */
  lemma {:induction false} CountBounds(ds: seq<nat>, st: RngState)
    ensures WholeNotes(ds) <= CountFrom(ds, st).0 <= MaxCount(ds)
    decreases |ds|
  {
    if ds != [] {
      CountBounds(ds[1..], Advance(st));
    }
  }

  /** When every value is a multiple of 100 the count does not depend on the generator. */
  lemma {:induction false} WholeValuesIgnoreRng(ds: seq<nat>, st: RngState)
    requires forall k :: 0 <= k < |ds| ==> ds[k] % 100 == 0
    ensures CountFrom(ds, st).0 == WholeNotes(ds)
    decreases |ds|
  {
    if ds != [] {
      WholeValuesIgnoreRng(ds[1..], Advance(st));
    }
  }

  /** `generate_chord_density`: reads step `index` modulo the table length and
      sums one contribution per value, drawing from `rng` once per value. */
  method GenerateChordDensity(cd: ChordDensity, index: nat, rng: Rng) returns (count: nat)
    requires |cd.densitySeq| > 0
    modifies rng
    ensures (count, rng.State()) == CountFrom(cd.densitySeq[index % |cd.densitySeq|], old(rng.State()))
  {
    var densities := cd.densitySeq[index % |cd.densitySeq|];
    count := 0;
    var k := 0;
    while k < |densities|
      invariant 0 <= k <= |densities|
      invariant count + CountFrom(densities[k..], rng.State()).0 == CountFrom(densities, old(rng.State())).0
      invariant CountFrom(densities[k..], rng.State()).1 == CountFrom(densities, old(rng.State())).1
    {
      var d := densities[k];
      var draw := rng.Next();
      count := count + Contribution(d, draw as nat);
      assert densities[k..][1..] == densities[k + 1..];
      k := k + 1;
    }
  }

  /** The unit test's table [100, 100, 100, 100]: the counts of steps 0..7 are
      4, 1, 2, 1, 3, 1, 2, 1 whatever the generator state. */
  lemma HundredsExample(i: nat, st: RngState)
    requires i < 8
    ensures |FromPowerOfTwo([100, 100, 100, 100]).densitySeq| == 8
    ensures CountFrom(FromPowerOfTwo([100, 100, 100, 100]).densitySeq[i], st).0 == [4, 1, 2, 1, 3, 1, 2, 1][i]
  {
    var freq: seq<nat> := [100, 100, 100, 100];
    assert Pow2(3) == 8;
    EntryIsPrefix(freq, i);
    var e := FromPowerOfTwo(freq).densitySeq[i];
    assert forall k :: 0 <= k < |e| ==> e[k] == 100;
    WholeValuesIgnoreRng(e, st);
    AllHundreds(e);
    HundredsDepth(i);
  }

  lemma HundredsDepth(i: nat)
    requires i < 8
    ensures Depth(i, 4) == [4, 1, 2, 1, 3, 1, 2, 1][i]
  {
    match i
    case 0 => assert Depth(0, 4) == 4;
    case 1 => assert Depth(1, 4) == 1;
    case 2 => assert Depth(2, 4) == 2;
    case 3 => assert Depth(3, 4) == 1;
    case 4 => assert Depth(4, 4) == 3;
    case 5 => assert Depth(5, 4) == 1;
    case 6 => assert Depth(6, 4) == 2;
    case 7 => assert Depth(7, 4) == 1;
  }

  lemma {:induction false} AllHundreds(e: seq<nat>)
    requires forall k :: 0 <= k < |e| ==> e[k] == 100
    ensures WholeNotes(e) == |e|
  {
    if e != [] {
      AllHundreds(e[1..]);
    }
  }

  /** The unit test's table [[200, 150]]: every count is 3 or 4. */
  lemma TwoHundredFiftyExample(st: RngState)
    ensures 3 <= CountFrom([200, 150], st).0 <= 4
  {
    CountBounds([200, 150], st);
    assert [200, 150][1..] == [150] && [150][1..] == [];
    assert WholeNotes([200, 150]) == 3 && FractionalValues([200, 150]) == 1;
  }
}
