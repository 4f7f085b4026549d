/** Chord roots and chord types used to pick keysound pitches: a root names a
    pitch class, a chord type lists the semitone offsets of its tones over two
    octaves. */
module KeySound {
  import opened Seqs

  /** The twelve pitch classes, C to B. */
  datatype ChordRoot = C | Cs | D | Ds | E | F | Fs | G | Gs | A | As | B

  /** The roots in declaration order. */
  const ROOTS: seq<ChordRoot> := [C, Cs, D, Ds, E, F, Fs, G, Gs, A, As, B]

  /** `to_index`: the semitone of the root above C. */
  function ToIndex(root: ChordRoot): (i: nat)
    ensures i < 12
  {
    match root
    case C => 0
    case Cs => 1
    case D => 2
    case Ds => 3
    case E => 4
    case F => 5
    case Fs => 6
    case G => 7
    case Gs => 8
    case A => 9
    case As => 10
    case B => 11
  }

  /** `to_index` numbers the roots 0..11 in declaration order, so it is a
      bijection onto 0..11. */
  lemma ToIndexBijective()
    ensures |ROOTS| == 12
    ensures forall i :: 0 <= i < 12 ==> ToIndex(ROOTS[i]) == i
    ensures forall r :: ROOTS[ToIndex(r)] == r
    ensures forall r, s :: ToIndex(r) == ToIndex(s) ==> r == s
  {
    forall r, s | ToIndex(r) == ToIndex(s)
      ensures r == s
    {
      assert ROOTS[ToIndex(r)] == r && ROOTS[ToIndex(s)] == s;
    }
  }

  datatype ChordType = Major | Minor | Major7 | Minor7 | MajorMajor7 | MinorMajor7

  /** The offsets of a chord type over C, from the root to two octaves above it. */
  function Offsets(t: ChordType): seq<nat> {
    match t
    case Major => [0, 4, 7, 12, 16, 19, 24]
    case Minor => [0, 3, 7, 12, 15, 19, 24]
    case Major7 => [0, 4, 7, 10, 12, 16, 19, 22, 24]
    case Minor7 => [0, 3, 7, 10, 12, 15, 19, 22, 24]
    case MajorMajor7 => [0, 4, 7, 11, 12, 16, 19, 23, 24]
    case MinorMajor7 => [0, 3, 7, 11, 12, 15, 19, 23, 24]
  }

  /** `to_indices`: the offsets of the chord type shifted up by the root. */
  function ToIndices(t: ChordType, root: ChordRoot): (r: seq<nat>)
    ensures |r| == |Offsets(t)|
    ensures forall i :: 0 <= i < |r| ==> r[i] == Offsets(t)[i] + ToIndex(root)
  {
    var offsets, k := Offsets(t), ToIndex(root);
    seq(|offsets|, i requires 0 <= i < |offsets| => (offsets[i] + k) as nat)
  }

  /** The chord's pitch classes over C, written independently of the offset table. */
  function PitchClasses(t: ChordType): set<nat> {
    match t
    case Major => {0, 4, 7}
    case Minor => {0, 3, 7}
    case Major7 => {0, 4, 7, 10}
    case Minor7 => {0, 3, 7, 10}
    case MajorMajor7 => {0, 4, 7, 11}
    case MinorMajor7 => {0, 3, 7, 11}
  }

  predicate IsSeventh(t: ChordType) {
    t in {Major7, Minor7, MajorMajor7, MinorMajor7}
  }

  lemma OffsetsShape(t: ChordType)
    ensures |Offsets(t)| == if IsSeventh(t) then 9 else 7
    ensures Offsets(t)[0] == 0 && Offsets(t)[|Offsets(t)| - 1] == 24
    ensures StrictlyIncreasing(Offsets(t))
    ensures forall i :: 0 <= i < |Offsets(t)| ==> Offsets(t)[i] % 12 in PitchClasses(t)
  {
  }

  /** A triad has seven tones and a seventh chord nine; the first is the root and
      the last lies two octaves above it; the tones rise strictly. */
  lemma ToIndicesShape(t: ChordType, root: ChordRoot)
    ensures |ToIndices(t, root)| == if IsSeventh(t) then 9 else 7
    ensures ToIndices(t, root)[0] == ToIndex(root)
    ensures ToIndices(t, root)[|ToIndices(t, root)| - 1] == ToIndex(root) + 24
    ensures StrictlyIncreasing(ToIndices(t, root))
  {
    OffsetsShape(t);
  }

  /** Every tone belongs to the chord: its pitch class is one of the chord type's
      pitch classes shifted by the root. */
  lemma ToIndicesInChord(t: ChordType, root: ChordRoot)
    ensures forall i :: 0 <= i < |ToIndices(t, root)| ==>
      exists pc :: pc in PitchClasses(t) && ToIndices(t, root)[i] % 12 == (pc + ToIndex(root)) % 12
  {
    OffsetsShape(t);
    forall i | 0 <= i < |ToIndices(t, root)|
      ensures exists pc :: pc in PitchClasses(t) && ToIndices(t, root)[i] % 12 == (pc + ToIndex(root)) % 12
    {
      var o := Offsets(t)[i];
      var pc := o % 12;
      assert pc in PitchClasses(t);
      ModShift(o, ToIndex(root));
      assert ToIndices(t, root)[i] % 12 == (pc + ToIndex(root)) % 12;
    }
  }

  lemma ModShift(o: nat, k: nat)
    ensures (o + k) % 12 == (o % 12 + k) % 12
  {
    assert o + k == (o / 12) * 12 + (o % 12 + k);
  }

  /** The tones of a chord lie in any set that holds its shifted pitch classes. */
  lemma TonesWithin(t: ChordType, root: ChordRoot, classes: set<nat>)
    requires forall pc :: pc in PitchClasses(t) ==> (pc + ToIndex(root)) % 12 in classes
    ensures forall x :: x in ToIndices(t, root) ==> x % 12 in classes
  {
    ToIndicesInChord(t, root);
    forall x | x in ToIndices(t, root)
      ensures x % 12 in classes
    {
      var i :| 0 <= i < |ToIndices(t, root)| && ToIndices(t, root)[i] == x;
      var pc :| pc in PitchClasses(t) && x % 12 == (pc + ToIndex(root)) % 12;
    }
  }

  /** The pitch classes checked for one chord of each type. */
  lemma MajorExample()
    ensures forall x :: x in ToIndices(Major, C) ==> x % 12 in {0, 4, 7}
  {
    TonesWithin(Major, C, {0, 4, 7});
  }

  lemma MinorExample()
    ensures forall x :: x in ToIndices(Minor, D) ==> x % 12 in {2, 5, 9}
  {
    TonesWithin(Minor, D, {2, 5, 9});
  }

  lemma Major7Example()
    ensures forall x :: x in ToIndices(Major7, E) ==> x % 12 in {4, 8, 11, 2}
  {
    TonesWithin(Major7, E, {4, 8, 11, 2});
  }

  lemma Minor7Example()
    ensures forall x :: x in ToIndices(Minor7, F) ==> x % 12 in {5, 8, 0, 3}
  {
    TonesWithin(Minor7, F, {5, 8, 0, 3});
  }

  lemma MajorMajor7Example()
    ensures forall x :: x in ToIndices(MajorMajor7, G) ==> x % 12 in {7, 11, 2, 6}
  {
    TonesWithin(MajorMajor7, G, {7, 11, 2, 6});
  }

  lemma MinorMajor7Example()
    ensures forall x :: x in ToIndices(MinorMajor7, A) ==> x % 12 in {9, 0, 4, 8}
  {
    TonesWithin(MinorMajor7, A, {9, 0, 4, 8});
  }
}
