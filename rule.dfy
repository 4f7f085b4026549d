/** The rule table and chord count (generator/src/rule.rs): the same algorithm as
    generator/src/chord.rs under other names, proved here to agree with it. */
module Rule {
  import opened Seqs
  import opened Rng
  import Chord

  /** One list of percentage-scaled frequencies per step of the repeating pattern. */
  datatype Rule = Rule(freqSeq: seq<seq<nat>>)

  /** The values of `rev` from position j on whose low-bit mask `(1 << k) - 1`
      has nothing in common with the step index i. */
  function Kept(rev: seq<nat>, i: nat, j: nat): seq<nat>
    decreases |rev| - j
  {
    if j >= |rev| then []
    else if Chord.LowBitsZero(i, j) then [rev[j]] + Kept(rev, i, j + 1)
    else Kept(rev, i, j + 1)
  }

  /** `Rule::from_power_of_two`. */
  function FromPowerOfTwo(freq: seq<nat>): (r: Rule)
    requires 0 < |freq| <= 32
    ensures |r.freqSeq| == if |freq| <= 31 then Pow2(|freq| - 1) else 0
  {
    var rev := Reverse(freq);
    Rule(seq(Chord.StepCount(|freq|), (i: int) requires 0 <= i => Kept(rev, i, 0)))
  }

  /** The count for the values `freqs` and the generator state after their draws. */
  function NextCount(freqs: seq<nat>, st: RngState): (nat, RngState)
    decreases |freqs|
  {
    if freqs == [] then (0, st)
    else
      var freq, draw := freqs[0], Output(st) as nat;
      var here := if freq % 100 > draw % 100 then freq / 100 + 1 else freq / 100;
      var rest := NextCount(freqs[1..], Advance(st));
      (here + rest.0, rest.1)
  }

  /** `next_chord_count`: reads step `index` modulo the table length, one draw per value. */
  method NextChordCount(rule: Rule, index: nat, rng: Rng) returns (count: nat)
    requires |rule.freqSeq| > 0
    modifies rng
    ensures (count, rng.State()) == NextCount(rule.freqSeq[index % |rule.freqSeq|], old(rng.State()))
  {
    var freqs := rule.freqSeq[index % |rule.freqSeq|];
    count := 0;
    var k := 0;
    while k < |freqs|
      invariant 0 <= k <= |freqs|
      invariant count + NextCount(freqs[k..], rng.State()).0 == NextCount(freqs, old(rng.State())).0
      invariant NextCount(freqs[k..], rng.State()).1 == NextCount(freqs, old(rng.State())).1
    {
      var freq := freqs[k];
      var draw := rng.Next();
      var d := draw as nat;
      count := count + if freq % 100 > d % 100 then freq / 100 + 1 else freq / 100;
      assert freqs[k..][1..] == freqs[k + 1..];
      k := k + 1;
    }
  }

  lemma {:induction false} KeptAgrees(rev: seq<nat>, i: nat, j: nat)
    ensures Kept(rev, i, j) == Chord.Aligned(rev, i, j)
    decreases |rev| - j
  {
    if j < |rev| {
      KeptAgrees(rev, i, j + 1);
    }
  }

  /** Both files build the same table from the same list. */
  lemma TablesAgree(freq: seq<nat>)
    requires 0 < |freq| <= 32
    ensures FromPowerOfTwo(freq).freqSeq == Chord.FromPowerOfTwo(freq).densitySeq
  {
    var a, b := FromPowerOfTwo(freq).freqSeq, Chord.FromPowerOfTwo(freq).densitySeq;
    forall i | 0 <= i < |a|
      ensures a[i] == b[i]
    {
      KeptAgrees(Reverse(freq), i, 0);
    }
  }

  /** Both files compute the same count and leave the generator in the same state. */
  lemma {:induction false} CountsAgree(freqs: seq<nat>, st: RngState)
    ensures NextCount(freqs, st) == Chord.CountFrom(freqs, st)
    decreases |freqs|
  {
    if freqs != [] {
      CountsAgree(freqs[1..], Advance(st));
    }
  }

  /** The unit test's expansion of [1, 2, 4, 8, 16]. */
  lemma PowerOfTwoExample()
    ensures FromPowerOfTwo([1, 2, 4, 8, 16]).freqSeq == Chord.EXAMPLE_TABLE
  {
    TablesAgree([1, 2, 4, 8, 16]);
    Chord.PowerOfTwoExample();
  }

  /** The unit test's table [[200, 150]]: every count is 3 or 4. */
  lemma TwoHundredFiftyExample(st: RngState)
    ensures 3 <= NextCount([200, 150], st).0 <= 4
  {
    CountsAgree([200, 150], st);
    Chord.TwoHundredFiftyExample(st);
  }
}
