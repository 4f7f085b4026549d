/** Anti-jack note selection and chart assembly (generator/src/generate.rs). */
module Generate {
  import opened Seqs
  import opened Rng
  import Density = Chord

  const CHORDS_PER_BAR: nat := 16
  const LANES: nat := 7

  /** The lanes struck together at one step (`Vec<u8>`). */
  type Chord = seq<nat>

  /** The jack tolerance t in the two integer forms that `from_context` derives
      from it: `maxJacks` is ceil(t) (saturated at 0, as `as usize` does), and
      `rerollThreshold` is ceil(c * 2^24) for the reroll chance
      c = (1 - fract(t)) % 1. Because `next_f32` returns exactly n / 2^24 for an
      integer n, `c > next_f32()` holds exactly when n < rerollThreshold
      (lemma RerollThresholdExact). */
  datatype JackTolerance = JackTolerance(maxJacks: nat, rerollThreshold: nat)

  const F32_SCALE: real := 16777216.0

  /** The least integer not below x (`f32::ceil`). */
  function Ceil(x: real): (r: int)
    ensures (r - 1) as real < x <= r as real
  {
    -((-x).Floor)
  }

  /** Rounding toward zero (`f32::trunc`, the integral part that `fract` removes). */
  function Trunc(x: real): (r: int)
    ensures x >= 0.0 ==> r as real <= x < r as real + 1.0
    ensures x < 0.0 ==> r as real - 1.0 < x <= r as real
  {
    if x >= 0.0 then x.Floor else Ceil(x)
  }

  /** The reroll chance (1 - fract(t)) % 1, with `%` the truncating float remainder. */
  function RerollChance(t: real): (c: real)
    ensures 0.0 <= c < 1.0
    ensures t == Trunc(t) as real ==> c == 0.0
    ensures t > 0.0 && t != Trunc(t) as real ==> c == Ceil(t) as real - t
  {
    var fract := t - Trunc(t) as real;
    var x := 1.0 - fract;
    if fract == 0.0 then
      assert x.Floor == 1;
      0.0
    else if fract > 0.0 then
      assert x.Floor == 0;
      assert t > 0.0 ==> Ceil(t) == Trunc(t) + 1;
      x
    else
      assert x.Floor == 1;
      x - 1.0
  }

  /** `from_context`'s reading of a jack tolerance. */
  function ToleranceOf(t: real): (jt: JackTolerance)
    ensures jt.maxJacks as real >= t
    ensures t > 0.0 ==> (jt.maxJacks - 1) as real < t
    ensures jt.rerollThreshold <= 16777216
    ensures t == Trunc(t) as real ==> jt.rerollThreshold == 0
  {
    var c := Ceil(t);
    JackTolerance(if c < 0 then 0 else c, Ceil(RerollChance(t) * F32_SCALE))
  }

  datatype ChartParams = ChartParams(
    chordDensity: Density.ChordDensity,
    bpm: real,
    bars: nat,
    jackTolerance: real,
    seed: bv64)

  datatype Chart = Chart(bpm: real, bars: seq<seq<Chord>>)

  /** A chord as `generate` returns it: ascending, hence distinct, lanes below LANES. */
  predicate WellFormedChord(c: Chord) {
    StrictlyIncreasing(c) && forall l :: l in c ==> l < LANES
  }

  /** Every lane of lower priority than a selected lane is selected too. */
  ghost predicate TierClosed(notes: seq<nat>, priority: seq<nat>) {
    forall l, l' :: l in notes && 0 <= l' < |priority| && l < |priority| && priority[l'] < priority[l] ==> l' in notes
  }

  /** A selection of lanes that is closed under lower priority. */
  ghost predicate SelectionClosed(selected: seq<nat>, prio: seq<nat>)
    requires |prio| == LANES
  {
    forall l, l' :: l in selected && 0 <= l' < LANES && l < LANES && prio[l'] < prio[l] ==> l' in selected
  }

  /** The lanes of priority 0. */
  function TopTier(priority: seq<nat>): set<nat> {
    set l | 0 <= l < |priority| && priority[l] == 0
  }

  /** `from_context`'s priorities: the ongoing jacks above the allowance (saturating subtraction). */
  function Priorities(jacks: seq<nat>, maxJacks: nat): (p: seq<nat>)
    ensures |p| == |jacks|
    ensures forall i :: 0 <= i < |jacks| ==> (p[i] == 0 <==> jacks[i] <= maxJacks)
    ensures forall i :: 0 <= i < |jacks| && jacks[i] > maxJacks ==> p[i] + maxJacks == jacks[i]
  {
    seq(|jacks|, i requires 0 <= i < |jacks| => if jacks[i] >= maxJacks then jacks[i] - maxJacks else 0)
  }

  /** `from_context`'s reroll chances: only lanes exactly at the allowance get one. */
  function RerollChances(jacks: seq<nat>, maxJacks: nat, threshold: nat): (r: seq<nat>)
    ensures |r| == |jacks|
    ensures forall i :: 0 <= i < |jacks| && r[i] != 0 ==> jacks[i] == maxJacks && r[i] == threshold
  {
    seq(|jacks|, i requires 0 <= i < |jacks| => if jacks[i] == maxJacks then threshold else 0)
  }

  /** The lanes below n of priority k, in ascending order: tier k as `generate` builds it. */
  function LanesAt(priority: seq<nat>, k: nat, n: nat): (r: seq<nat>)
    requires n <= |priority|
    ensures forall l: nat :: l in r <==> l < n && priority[l] == k
    ensures forall l :: l in r ==> l < n
    ensures NoDup(r)
  {
    if n == 0 then []
    else LanesAt(priority, k, n - 1) + (if priority[n - 1] == k then [n - 1] else [])
  }

  lemma {:induction false} LanesAtEmpty(priority: seq<nat>, k: nat, n: nat)
    requires n <= |priority|
    requires forall l :: 0 <= l < n ==> priority[l] != k
    ensures LanesAt(priority, k, n) == []
  {
    if n > 0 {
      LanesAtEmpty(priority, k, n - 1);
    }
  }

  /** `Vec::swap_remove`: the last element takes the place of the removed one. */
  function SwapRemove(s: seq<nat>, idx: nat): (r: seq<nat>)
    requires idx < |s|
    ensures |r| == |s| - 1
    ensures NoDup(s) ==> NoDup(r) && forall x :: x in r <==> x in s && x != s[idx]
  {
    var r := s[idx := s[|s| - 1]][..|s| - 1];
    assert forall x :: x in r ==> x in s;
    assert NoDup(s) ==> forall x :: x in s && x != s[idx] ==> x in r by {
      if NoDup(s) {
        forall x | x in s && x != s[idx]
          ensures x in r
        {
          var i :| 0 <= i < |s| && s[i] == x;
          if i == |s| - 1 {
            assert r[idx] == x;
          } else {
            assert r[i] == x;
          }
        }
      }
    }
    r
  }

  /** The lanes of s in ascending order: what `sort_unstable` makes of a list of distinct lanes. */
  function Ascending(s: seq<nat>, n: nat): (r: seq<nat>)
    ensures StrictlyIncreasing(r)
    ensures forall l :: l in r <==> l in s && l < n
    ensures forall i :: 0 <= i < |r| ==> r[i] < n
  {
    if n == 0 then []
    else
      Ascending(s, n - 1) + (if n - 1 in s then [n - 1] else [])
  }

  lemma NoDupAppend<T>(a: seq<T>, b: seq<T>)
    requires NoDup(a) && NoDup(b) && forall x :: x in a ==> x !in b
    ensures NoDup(a + b)
  {
    forall i, j | 0 <= i < j < |a + b|
      ensures (a + b)[i] != (a + b)[j]
    {
      if j >= |a| && i < |a| {
        assert a[i] in a && b[j - |a|] in b;
      }
    }
  }

  lemma IncreasingNoDup(s: seq<nat>)
    requires StrictlyIncreasing(s)
    ensures NoDup(s)
  {
  }

  /** Two duplicate-free sequences with the same elements have the same length. */
  lemma SameElementsSameLength<T>(a: seq<T>, b: seq<T>)
    requires NoDup(a) && NoDup(b)
    requires forall x :: x in a <==> x in b
    ensures |a| == |b|
  {
    NoDupCard(a);
    NoDupCard(b);
    assert (set x | x in a) == (set x | x in b);
  }

  class NoteRandomizer {
    var priority: seq<nat>
    var rerollChance: seq<nat>

    ghost predicate Valid()
      reads this
    {
      |priority| == LANES && |rerollChance| == LANES
    }

    /** `NoteRandomizer::new`: both vectors must have one entry per lane. */
    constructor (priority: seq<nat>, rerollChance: seq<nat>)
      requires |priority| == LANES && |rerollChance| == LANES
      ensures Valid()
      ensures this.priority == priority && this.rerollChance == rerollChance
    {
      this.priority := priority;
      this.rerollChance := rerollChance;
    }

    /** `NoteRandomizer::from_context`. */
    constructor FromContext(context: GenerateContext, jackTolerance: real)
      requires context.Valid()
      ensures Valid()
      ensures priority == Priorities(context.ongoingJacks, ToleranceOf(jackTolerance).maxJacks)
      ensures rerollChance == RerollChances(context.ongoingJacks, ToleranceOf(jackTolerance).maxJacks,
                                            ToleranceOf(jackTolerance).rerollThreshold)
    {
      var jt := ToleranceOf(jackTolerance);
      priority := Priorities(context.ongoingJacks, jt.maxJacks);
      rerollChance := RerollChances(context.ongoingJacks, jt.maxJacks, jt.rerollThreshold);
    }

    /** The tiers of `generate`: tiers[k] lists the lanes of priority k in
        ascending order, and there is one tier per priority up to the highest. */
    static method LanesByPriority(prio: seq<nat>) returns (tiers: seq<seq<nat>>)
      requires |prio| == LANES
      ensures forall k :: 0 <= k < |tiers| ==> tiers[k] == LanesAt(prio, k, LANES)
      ensures forall l :: 0 <= l < LANES ==> prio[l] < |tiers|
      ensures |tiers| > 0 && exists l :: 0 <= l < LANES && prio[l] == |tiers| - 1
    {
      tiers := [];
      ghost var top: nat := 0;
      var i := 0;
      while i < LANES
        invariant 0 <= i <= LANES
        invariant forall k :: 0 <= k < |tiers| ==> tiers[k] == LanesAt(prio, k, i)
        invariant forall l :: 0 <= l < i ==> prio[l] < |tiers|
        invariant if i == 0 then tiers == [] else top < i && prio[top] == |tiers| - 1
      {
        if |tiers| <= prio[i] {
          top := i;
        }
        tiers := AddLane(prio, tiers, i);
        i := i + 1;
      }
    }

    /** One step of `LanesByPriority`: the tiers up to lane i's priority exist
        (new ones empty), and lane i joins the end of its tier. */
    static method AddLane(prio: seq<nat>, tiers0: seq<seq<nat>>, i: nat) returns (tiers: seq<seq<nat>>)
      requires i < |prio|
      requires forall k :: 0 <= k < |tiers0| ==> tiers0[k] == LanesAt(prio, k, i)
      requires forall l :: 0 <= l < i ==> prio[l] < |tiers0|
      ensures |tiers| == if |tiers0| <= prio[i] then prio[i] + 1 else |tiers0|
      ensures forall k :: 0 <= k < |tiers| ==> tiers[k] == LanesAt(prio, k, i + 1)
    {
      var p := prio[i];
      tiers := tiers0;
      if |tiers| <= p {
        forall k | |tiers| <= k <= p
          ensures LanesAt(prio, k, i) == []
        {
          LanesAtEmpty(prio, k, i);
        }
        tiers := tiers + seq(p + 1 - |tiers|, _ => []);
      }
      tiers := tiers[p := tiers[p] + [i]];
    }

    /** One pick of `generate`: the candidate at the draw modulo the candidate
        count (swap-removed), the lane's reroll chance cleared, and a `next_f32` draw
        that rerolls the lane when it falls below the chance it had. */
    method Pick(lanes: seq<nat>, rng: Rng) returns (lane: nat, rest: seq<nat>, rerolled: bool)
      requires Valid() && |lanes| > 0 && NoDup(lanes)
      requires forall l :: l in lanes ==> l < LANES
      modifies this, rng
      ensures Valid() && priority == old(priority)
      ensures lane in lanes && |rest| == |lanes| - 1
      ensures NoDup(rest) && forall x :: x in rest <==> x in lanes && x != lane
      ensures rerollChance == old(rerollChance)[lane := 0]
      ensures rerolled ==> old(rerollChance[lane]) != 0
      ensures lane == lanes[(Output(old(rng.State())) as nat) % |lanes|]
      ensures rest == SwapRemove(lanes, (Output(old(rng.State())) as nat) % |lanes|)
      ensures rerolled <==> F32Numerator(Output(Advance(old(rng.State()))) as nat) < old(rerollChance[lane])
      ensures rng.State() == AdvanceN(old(rng.State()), 2)
    {
      var r := rng.Next();
      var idx := (r as nat) % |lanes|;
      lane := lanes[idx];
      assert lane in lanes;
      rest := SwapRemove(lanes, idx);

      var chance := rerollChance[lane];
      rerollChance := rerollChance[lane := 0];

      var f := rng.NextF32();
      rerolled := f < chance;
    }

    /** The inner loop of `generate` over one tier's candidates: picks until the
        candidates run out or no note is left to place. Every pick (the ghost set
        `drawn`) is either selected or returned as a deferred lane of the next
        tier, and loses its reroll chance; no other lane's chance changes. */
    method DrawTier(lanes0: seq<nat>, rng: Rng, selected0: seq<nat>, left0: nat, ghost t: nat, ghost zero: bool)
      returns (selected: seq<nat>, deferred: seq<nat>, left: nat, ghost drawn: set<nat>)
      requires Valid() && NoDup(lanes0) && NoDup(selected0)
      requires forall l :: l in lanes0 ==> l < LANES && priority[l] <= t && l !in selected0
      requires forall l :: l in selected0 ==> l < LANES && priority[l] <= t && rerollChance[l] == 0
      requires zero ==> forall l :: 0 <= l < LANES ==> rerollChance[l] == 0
      requires zero ==> forall l :: l in lanes0 ==> priority[l] == t
      requires zero ==> forall l :: 0 <= l < LANES && priority[l] < t ==> l in selected0
      requires zero ==> forall l :: 0 <= l < LANES && priority[l] == t ==> l in selected0 || l in lanes0
      modifies this, rng
      ensures Valid() && priority == old(priority)
      ensures NoDup(selected) && NoDup(deferred)
      ensures forall l :: l in selected ==> l < LANES && priority[l] <= t && l !in deferred && rerollChance[l] == 0
      ensures forall l :: l in deferred ==> l < LANES && priority[l] <= t
      ensures |selected| + left == |selected0| + left0
      ensures forall l :: l in drawn ==> l in lanes0
      ensures forall l :: l in drawn <==> (l in selected && l !in selected0) || l in deferred
      ensures forall l :: l in selected0 ==> l in selected
      ensures forall l :: 0 <= l < LANES ==> rerollChance[l] == if l in drawn then 0 else old(rerollChance[l])
      ensures left != 0 ==> forall l :: l in lanes0 ==> l in drawn
      ensures zero ==> deferred == [] && forall l :: 0 <= l < LANES && priority[l] < t ==> l in selected
      ensures zero && left != 0 ==> forall l :: 0 <= l < LANES && priority[l] <= t ==> l in selected
    {
      var lanes: seq<nat> := lanes0;
      selected, deferred, left, drawn := selected0, [], left0, {};
      while |lanes| > 0
        invariant Valid() && priority == old(priority)
        invariant NoDup(lanes) && NoDup(selected) && NoDup(deferred)
        invariant forall l :: l in lanes ==> l < LANES && priority[l] <= t && l !in selected && l !in deferred
        invariant forall l :: l in selected ==> l < LANES && priority[l] <= t && l !in deferred && rerollChance[l] == 0
        invariant forall l :: l in deferred ==> l < LANES && priority[l] <= t
        invariant |selected| + left == |selected0| + left0
        invariant forall l :: l in drawn ==> l in lanes0 && l !in lanes
        invariant forall l :: l in lanes0 ==> l in lanes || l in drawn
        invariant forall l :: l in lanes ==> l in lanes0
        invariant forall l :: l in drawn <==> (l in selected && l !in selected0) || l in deferred
        invariant forall l :: l in selected0 ==> l in selected
        invariant forall l :: 0 <= l < LANES ==> rerollChance[l] == if l in drawn then 0 else old(rerollChance[l])
        invariant zero ==> deferred == [] && forall l :: l in lanes ==> priority[l] == t
        invariant zero ==> forall l :: 0 <= l < LANES && priority[l] < t ==> l in selected
        invariant zero ==> forall l :: 0 <= l < LANES && priority[l] == t ==> l in selected || l in lanes
        decreases |lanes|
      {
        if left == 0 {
          break;
        }
        var lane, rerolled;
        lane, lanes, rerolled := Pick(lanes, rng);
        drawn := drawn + {lane};
        if rerolled {
          deferred := deferred + [lane];
          continue;
        }
        left := left - 1;
        selected := selected + [lane];
      }
    }

    /** The tier loop of `generate`, lowest priority first: each tier's lanes and
        the lanes deferred from the tier before are drawn from until nothing is
        left to place. Leaving the loop then stands for the source's
        `break 'outer`: the remaining tiers would draw nothing. Lanes deferred
        from the last tier are dropped. */
    method DrawTiers(tiers: seq<seq<nat>>, count: nat, rng: Rng, ghost zero: bool)
      returns (selected: seq<nat>, left: nat, ghost drawn: set<nat>)
      requires Valid()
      requires forall k :: 0 <= k < |tiers| ==> tiers[k] == LanesAt(priority, k, LANES)
      requires forall l :: 0 <= l < LANES ==> priority[l] < |tiers|
      requires zero ==> forall l :: 0 <= l < LANES ==> rerollChance[l] == 0
      modifies this, rng
      ensures Valid() && priority == old(priority)
      ensures NoDup(selected) && forall l :: l in selected ==> l < LANES && l in drawn
      ensures |selected| + left == count
      ensures forall l :: l in drawn ==> l < LANES
      ensures forall l :: 0 <= l < LANES ==> rerollChance[l] == if l in drawn then 0 else old(rerollChance[l])
      ensures zero ==> SelectionClosed(selected, priority)
      ensures zero && left != 0 ==> forall l :: 0 <= l < LANES ==> l in selected
    {
      var prio := priority;
      selected, left, drawn := [], count, {};
      var deferred: seq<nat> := [];
      var t := 0;
      while t < |tiers|
        invariant 0 <= t <= |tiers|
        invariant Valid() && priority == prio
        invariant forall l :: l in drawn ==> l < LANES
        invariant forall l :: l in selected || l in deferred ==> l in drawn
        invariant forall l :: 0 <= l < LANES ==> rerollChance[l] == if l in drawn then 0 else old(rerollChance[l])
        invariant NoDup(selected) && NoDup(deferred)
        invariant forall l :: l in selected ==> l < LANES && prio[l] < t && l !in deferred && rerollChance[l] == 0
        invariant forall l :: l in deferred ==> l < LANES && prio[l] < t
        invariant |selected| + left == count
        invariant zero ==> deferred == [] && SelectionClosed(selected, prio)
        invariant zero ==> forall l :: 0 <= l < LANES && prio[l] < t ==> l in selected
      {
        NoDupAppend(tiers[t], deferred);
        var lanes: seq<nat> := tiers[t] + deferred;
        ghost var picked;
        selected, deferred, left, picked := DrawTier(lanes, rng, selected, left, t, zero);
        drawn := drawn + picked;
        if left == 0 {
          break;
        }
        t := t + 1;
      }
    }

    /** `generate`: picks up to `count` distinct lanes tier by tier, lowest
        priority first, each pick one draw for the index and one `next_f32` for
        the reroll; a lane that rerolls moves to the next tier, and one that
        rerolls out of the last tier is dropped. Every lane drawn loses its reroll
        chance. The result is sorted. The ghost set `drawn` holds every lane
        picked, including those that rerolled and those dropped after the last
        tier. */
    method Generate(count: nat, rng: Rng) returns (notes: seq<nat>, ghost drawn: set<nat>)
      requires Valid()
      modifies this, rng
      ensures Valid() && priority == old(priority)
      ensures forall l :: l in drawn ==> l < LANES
      ensures forall l :: 0 <= l < LANES ==> rerollChance[l] == if l in drawn then 0 else old(rerollChance[l])
      ensures forall l :: l in notes ==> l in drawn
      ensures WellFormedChord(notes) && |notes| <= count
      ensures forall l :: l in notes ==> rerollChance[l] == 0
      ensures (forall l :: 0 <= l < LANES ==> old(rerollChance[l]) == 0) ==>
        |notes| == (if count < LANES then count else LANES) && TierClosed(notes, priority)
    {
      ghost var zero := forall l :: 0 <= l < LANES ==> rerollChance[l] == 0;
      var tiers := LanesByPriority(priority);
      var selected, left;
      selected, left, drawn := DrawTiers(tiers, count, rng, zero);

      notes := Ascending(selected, LANES);
      AscendingSelection(selected);
      NoDupBounded(selected, LANES);
      if zero && left != 0 {
        CompleteSelection(selected);
      }
    }
  }

  /** Sorting a duplicate-free selection keeps its lanes and its length. */
  lemma AscendingSelection(selected: seq<nat>)
    requires NoDup(selected) && forall l :: l in selected ==> l < LANES
    ensures WellFormedChord(Ascending(selected, LANES))
    ensures |Ascending(selected, LANES)| == |selected|
    ensures forall l :: l in Ascending(selected, LANES) <==> l in selected
  {
    var notes := Ascending(selected, LANES);
    IncreasingNoDup(notes);
    SameElementsSameLength(notes, selected);
  }

  /** A duplicate-free selection that contains every lane has one entry per lane. */
  lemma CompleteSelection(selected: seq<nat>)
    requires NoDup(selected) && forall l :: l in selected ==> l < LANES
    requires forall l :: 0 <= l < LANES ==> l in selected
    ensures |selected| == LANES
  {
    var elems := set x | x in selected;
    assert Range(LANES) <= elems;
    SubsetCard(Range(LANES), elems);
    NoDupCard(selected);
    NoDupBounded(selected, LANES);
  }

  /** The number of most recent consecutive chords that contain lane l. */
  function Streak(h: seq<Chord>, l: nat): nat {
    if h == [] then 0
    else if l in h[|h| - 1] then Streak(h[..|h| - 1], l) + 1
    else 0
  }

  class GenerateContext {
    var generatedChords: seq<Chord>
    var rng: Rng
    var ongoingJacks: seq<nat>

    /** Each lane's ongoing-jack counter is its streak in the history. */
    ghost predicate Valid()
      reads this
    {
      |ongoingJacks| == LANES &&
      forall l :: 0 <= l < LANES ==> ongoingJacks[l] == Streak(generatedChords, l)
    }

    /** `GenerateContext::new`: empty history, zero counters, generator seeded by `new_u64`. */
    constructor (seed: bv64)
      ensures Valid() && fresh(rng)
      ensures generatedChords == [] && ongoingJacks == seq(LANES, _ => 0)
      ensures rng.State() == RngState(seed, 0)
    {
      generatedChords := [];
      rng := new Rng.NewU64(seed);
      ongoingJacks := seq(LANES, _ => 0);
    }

    /** `push_chord`: a lane in the chord extends its counter, any other lane resets
        it, and the chord is appended to the history. */
    method PushChord(chord: Chord)
      requires Valid()
      modifies this
      ensures Valid() && rng == old(rng)
      ensures generatedChords == old(generatedChords) + [chord]
      ensures forall l :: 0 <= l < LANES ==>
        ongoingJacks[l] == if l in chord then old(ongoingJacks[l]) + 1 else 0
    {
      var i := 0;
      while i < LANES
        invariant 0 <= i <= LANES && |ongoingJacks| == LANES
        invariant rng == old(rng) && generatedChords == old(generatedChords)
        invariant forall l :: 0 <= l < i ==>
          ongoingJacks[l] == if l in chord then old(ongoingJacks[l]) + 1 else 0
        invariant forall l :: i <= l < LANES ==> ongoingJacks[l] == old(ongoingJacks[l])
      {
        if i in chord {
          ongoingJacks := ongoingJacks[i := ongoingJacks[i] + 1];
        } else {
          ongoingJacks := ongoingJacks[i := 0];
        }
        i := i + 1;
      }
      generatedChords := generatedChords + [chord];
      assert generatedChords[..|generatedChords| - 1] == old(generatedChords);
    }
  }

  /** The chords of all bars in order (`bars.into_iter().flatten()`). */
  function Flatten(bars: seq<seq<Chord>>): (h: seq<Chord>)
    ensures |h| == if bars == [] then 0 else |Flatten(bars[..|bars| - 1])| + |bars[|bars| - 1]|
  {
    if bars == [] then [] else Flatten(bars[..|bars| - 1]) + bars[|bars| - 1]
  }

  /** At no point of the history has any lane been struck in more than k consecutive chords. */
  ghost predicate StreaksBounded(h: seq<Chord>, k: nat) {
    forall p, l :: 0 <= p <= |h| ==> Streak(h[..p], l) <= k
  }

  /** Every chord is well formed and has at most three notes. */
  ghost predicate SmallChords(h: seq<Chord>) {
    forall i :: 0 <= i < |h| ==> WellFormedChord(h[i]) && |h[i]| <= 3
  }

  /** Lane l is in each of the k + 1 chords from position i on. */
  ghost predicate LongRun(h: seq<Chord>, i: nat, k: nat, l: nat) {
    i + k + 1 <= |h| && forall j :: i <= j <= i + k ==> l in h[j]
  }

  /** No lane is struck in k + 1 consecutive chords: every window of k + 1 chords
      misses every lane at least once. */
  ghost predicate NoRunLongerThan(h: seq<Chord>, k: nat) {
    forall i: nat, l: nat :: !LongRun(h, i, k, l)
  }

  /** The chords at positions i and i + 1 have no lane in common. */
  ghost predicate SharesNoLane(h: seq<Chord>, i: nat)
    requires i + 1 < |h|
  {
    forall x :: x in h[i] ==> x !in h[i + 1]
  }

  /** The setting under which the jack allowance is guaranteed: reroll chance 0
      (an integral tolerance) and at most three notes per chord. */
  predicate AntiJackApplies(cd: Density.ChordDensity, t: real) {
    ToleranceOf(t).rerollThreshold == 0 &&
    forall i :: 0 <= i < |cd.densitySeq| ==> Density.MaxCount(cd.densitySeq[i]) <= 3
  }

  lemma {:induction false} StreakOfRun(h: seq<Chord>, p: nat, n: nat, l: nat)
    requires n <= p <= |h|
    requires forall k :: p - n <= k < p ==> l in h[k]
    ensures Streak(h[..p], l) >= n
  {
    if n > 0 {
      assert h[..p][..p - 1] == h[..p - 1];
      assert h[..p][p - 1] == h[p - 1];
      StreakOfRun(h, p - 1, n - 1, l);
    }
  }

  /** Bounded streaks rule out long runs. */
  lemma BoundedStreaksNoRun(h: seq<Chord>, k: nat)
    requires StreaksBounded(h, k)
    ensures NoRunLongerThan(h, k)
  {
    forall i: nat, l: nat
      ensures !LongRun(h, i, k, l)
    {
      if LongRun(h, i, k, l) {
        StreakOfRun(h, i + k + 1, k + 1, l);
        assert false;
      }
    }
  }

  /** For a tolerance of 0 the run bound reads: consecutive chords share no lane. */
  lemma NoRunOfTwo(h: seq<Chord>)
    requires NoRunLongerThan(h, 1)
    ensures forall i: nat :: i + 1 < |h| ==> SharesNoLane(h, i)
  {
    forall i: nat | i + 1 < |h|
      ensures SharesNoLane(h, i)
    {
      forall x | x in h[i]
        ensures x !in h[i + 1]
      {
        assert !LongRun(h, i, 1, x);
      }
    }
  }

  /** A tier-closed selection no larger than the top tier stays inside it. */
  lemma TopTierSelection(priority: seq<nat>, notes: seq<nat>)
    requires |priority| == LANES && WellFormedChord(notes)
    requires TierClosed(notes, priority) && |notes| <= |TopTier(priority)|
    ensures forall l :: l in notes ==> priority[l] == 0
  {
    if l :| l in notes && priority[l] != 0 {
      var elems := set x | x in notes;
      assert TopTier(priority) + {l} <= elems;
      SubsetCard(TopTier(priority) + {l}, elems);
      IncreasingNoDup(notes);
      NoDupCard(notes);
      assert false;
    }
  }

  /** Lanes over the allowance all lie in the last chord, so with at most three
      notes in it at least four lanes have priority 0. */
  lemma TopTierLarge(jacks: seq<nat>, m: nat, last: seq<nat>)
    requires |jacks| == LANES && WellFormedChord(last) && |last| <= 3
    requires forall l :: 0 <= l < LANES && jacks[l] > m ==> l in last
    ensures |TopTier(Priorities(jacks, m))| >= 4
  {
    var top := TopTier(Priorities(jacks, m));
    var rest := set x | x in last;
    assert Range(LANES) <= top + rest;
    SubsetCard(Range(LANES), top + rest);
    IncreasingNoDup(last);
    NoDupCard(last);
  }

  /** One chord chosen with reroll chance 0 and at most three notes keeps every
      streak within the allowance plus one. */
  lemma AntiJackStep(jacks: seq<nat>, h: seq<Chord>, m: nat, notes: seq<nat>)
    requires |jacks| == LANES && forall l :: 0 <= l < LANES ==> jacks[l] == Streak(h, l)
    requires StreaksBounded(h, m + 1) && SmallChords(h)
    requires WellFormedChord(notes) && |notes| <= 3
    requires TierClosed(notes, Priorities(jacks, m))
    ensures StreaksBounded(h + [notes], m + 1) && SmallChords(h + [notes])
  {
    var last: seq<nat> := if h == [] then [] else h[|h| - 1];
    TopTierLarge(jacks, m, last);
    TopTierSelection(Priorities(jacks, m), notes);
    var h' := h + [notes];
    assert h'[..|h|] == h;
    forall p, l | 0 <= p <= |h'|
      ensures Streak(h'[..p], l) <= m + 1
    {
      if p <= |h| {
        assert h'[..p] == h[..p];
      } else {
        assert h'[..p] == h';
        assert h[..|h|] == h;
      }
    }
  }

  /** One step of `generate_bar`: a count drawn for position i, notes chosen by a
      randomizer built from the context, and the chord pushed onto the history. */
  method GenerateStep(cd: Density.ChordDensity, i: nat, context: GenerateContext, params: ChartParams)
    returns (notes: Chord)
    requires context.Valid() && |cd.densitySeq| > 0
    modifies context, context.rng
    ensures context.Valid() && context.rng == old(context.rng)
    ensures context.generatedChords == old(context.generatedChords) + [notes]
    ensures WellFormedChord(notes) && |notes| <= Density.MaxCount(cd.densitySeq[i % |cd.densitySeq|])
    ensures (AntiJackApplies(cd, params.jackTolerance) &&
             StreaksBounded(old(context.generatedChords), ToleranceOf(params.jackTolerance).maxJacks + 1) &&
             SmallChords(old(context.generatedChords))) ==>
      StreaksBounded(context.generatedChords, ToleranceOf(params.jackTolerance).maxJacks + 1) &&
      SmallChords(context.generatedChords)
  {
    ghost var applies := AntiJackApplies(cd, params.jackTolerance);
    ghost var m := ToleranceOf(params.jackTolerance).maxJacks;
    ghost var st := context.rng.State();
    var count := Density.GenerateChordDensity(cd, i, context.rng);
    Density.CountBounds(cd.densitySeq[i % |cd.densitySeq|], st);
    var randomizer := new NoteRandomizer.FromContext(context, params.jackTolerance);
    assert applies ==> forall l :: 0 <= l < LANES ==> randomizer.rerollChance[l] == 0;
    ghost var drawn;
    notes, drawn := randomizer.Generate(count, context.rng);
    if applies && StreaksBounded(context.generatedChords, m + 1) && SmallChords(context.generatedChords) {
      AntiJackStep(context.ongoingJacks, context.generatedChords, m, notes);
    }
    context.PushChord(notes);
  }

  /** `generate_bar`: sixteen chords, each a count drawn from the density table
      for its position, then notes chosen against the context and pushed onto it. */
  method GenerateBar(cd: Density.ChordDensity, context: GenerateContext, params: ChartParams)
    returns (bar: seq<Chord>)
    requires context.Valid() && |cd.densitySeq| > 0
    modifies context, context.rng
    ensures context.Valid() && context.rng == old(context.rng)
    ensures context.generatedChords == old(context.generatedChords) + bar
    ensures |bar| == CHORDS_PER_BAR
    ensures forall i :: 0 <= i < |bar| ==>
      WellFormedChord(bar[i]) && |bar[i]| <= Density.MaxCount(cd.densitySeq[i % |cd.densitySeq|])
    ensures (AntiJackApplies(cd, params.jackTolerance) &&
             StreaksBounded(old(context.generatedChords), ToleranceOf(params.jackTolerance).maxJacks + 1) &&
             SmallChords(old(context.generatedChords))) ==>
      StreaksBounded(context.generatedChords, ToleranceOf(params.jackTolerance).maxJacks + 1) &&
      SmallChords(context.generatedChords)
  {
    ghost var applies := AntiJackApplies(cd, params.jackTolerance);
    ghost var m := ToleranceOf(params.jackTolerance).maxJacks;
    bar := [];
    var i := 0;
    while i < CHORDS_PER_BAR
      invariant 0 <= i <= CHORDS_PER_BAR && |bar| == i
      invariant context.Valid() && context.rng == old(context.rng)
      invariant context.generatedChords == old(context.generatedChords) + bar
      invariant forall k :: 0 <= k < i ==>
        WellFormedChord(bar[k]) && |bar[k]| <= Density.MaxCount(cd.densitySeq[k % |cd.densitySeq|])
      invariant applies && StreaksBounded(old(context.generatedChords), m + 1) && SmallChords(old(context.generatedChords)) ==>
        StreaksBounded(context.generatedChords, m + 1) && SmallChords(context.generatedChords)
    {
      var notes := GenerateStep(cd, i, context, params);
      bar := bar + [notes];
      i := i + 1;
    }
  }

  /** `generate_chart`: a fresh context seeded from the parameters, then one bar
      after another. The chart keeps the tempo, every bar has sixteen chords, and
      under an integral tolerance with at most three notes per chord no lane is
      struck in more than ceil(t) + 1 consecutive chords. */
  method GenerateChart(params: ChartParams) returns (chart: Chart)
    requires params.bars == 0 || |params.chordDensity.densitySeq| > 0
    ensures chart.bpm == params.bpm && |chart.bars| == params.bars
    ensures forall b :: 0 <= b < |chart.bars| ==> |chart.bars[b]| == CHORDS_PER_BAR
    ensures forall c :: c in Flatten(chart.bars) ==> WellFormedChord(c)
    ensures AntiJackApplies(params.chordDensity, params.jackTolerance) ==>
      NoRunLongerThan(Flatten(chart.bars), ToleranceOf(params.jackTolerance).maxJacks + 1)
  {
    ghost var applies := AntiJackApplies(params.chordDensity, params.jackTolerance);
    ghost var k := ToleranceOf(params.jackTolerance).maxJacks + 1;
    var context := new GenerateContext(params.seed);
    chart := Chart(params.bpm, []);
    var b := 0;
    while b < params.bars
      invariant 0 <= b <= params.bars && |chart.bars| == b && chart.bpm == params.bpm
      invariant fresh(context) && fresh(context.rng) && context.Valid()
      invariant context.generatedChords == Flatten(chart.bars)
      invariant forall j :: 0 <= j < b ==> |chart.bars[j]| == CHORDS_PER_BAR
      invariant forall c :: c in context.generatedChords ==> WellFormedChord(c)
      invariant applies ==> StreaksBounded(context.generatedChords, k) && SmallChords(context.generatedChords)
    {
      var bar := GenerateBar(params.chordDensity, context, params);
      ghost var before := chart.bars;
      chart := chart.(bars := chart.bars + [bar]);
      assert chart.bars[..|chart.bars| - 1] == before;
      assert Flatten(chart.bars) == Flatten(before) + bar;
      b := b + 1;
    }
    if applies {
      BoundedStreaksNoRun(Flatten(chart.bars), k);
    }
  }

  /** The integer threshold decides a reroll exactly as the float comparison
      `chance > n / 2^24` does, for every `next_f32` numerator n. */
  lemma RerollThresholdExact(t: real, n: nat)
    ensures RerollChance(t) > n as real / F32_SCALE <==> n < ToleranceOf(t).rerollThreshold
  {
    var x := RerollChance(t) * F32_SCALE;
    assert RerollChance(t) > n as real / F32_SCALE <==> x > n as real;
  }

  /** The tolerances of the generator's own chart checks: 0 allows single notes
      only, 1 allows a two-chord jack; neither ever rerolls; one half allows a
      two-chord jack half of the time. */
  lemma ToleranceExamples()
    ensures ToleranceOf(0.0) == JackTolerance(0, 0)
    ensures ToleranceOf(1.0) == JackTolerance(1, 0)
    ensures ToleranceOf(0.5) == JackTolerance(1, 8388608)
  {
    assert Trunc(0.5) == 0;
  }

  /** After pushing [0, 2, 4, 6] onto a fresh context, tolerance 0 gives the
      even lanes priority 1 and no lane a reroll chance. */
  lemma NoteRandomizerExample(jacks: seq<nat>)
    requires |jacks| == LANES
    requires forall l :: 0 <= l < LANES ==> jacks[l] == if l in [0, 2, 4, 6] then 1 else 0
    ensures Priorities(jacks, ToleranceOf(0.0).maxJacks) == [1, 0, 1, 0, 1, 0, 1]
    ensures RerollChances(jacks, ToleranceOf(0.0).maxJacks, ToleranceOf(0.0).rerollThreshold) == seq(LANES, _ => 0)
  {
    ToleranceExamples();
  }

  /** With those priorities, any three-note choice that `generate` can make is [1, 3, 5]. */
  lemma ThreeNotesExample(notes: seq<nat>)
    requires WellFormedChord(notes) && |notes| == 3
    requires TierClosed(notes, [1, 0, 1, 0, 1, 0, 1])
    ensures notes == [1, 3, 5]
  {
    var priority := [1, 0, 1, 0, 1, 0, 1];
    assert TopTier(priority) == {1, 3, 5};
    TopTierSelection(priority, notes);
    assert notes[0] < notes[1] < notes[2];
    assert notes[0] in notes && notes[1] in notes && notes[2] in notes;
  }

  /** Any seven-note choice is every lane in order. */
  lemma SevenNotesExample(notes: seq<nat>)
    requires WellFormedChord(notes) && |notes| == 7
    ensures notes == [0, 1, 2, 3, 4, 5, 6]
  {
    assert notes[0] < notes[1] < notes[2] < notes[3] < notes[4] < notes[5] < notes[6];
    assert notes[6] in notes;
  }

  /** The density of the chart checks, one entry of 300, allows the jack bound at tolerances 0 and 1. */
  lemma ChartExampleApplies()
    ensures AntiJackApplies(Density.ChordDensity([[300]]), 0.0)
    ensures AntiJackApplies(Density.ChordDensity([[300]]), 1.0)
  {
    ToleranceExamples();
    assert Density.MaxCount([300]) == 3;
  }
}
