/** The keysound name lists of the keysound generator (keysound-gen/src/lib.rs):
    four octaves of note names, C3 to B6, and three drum names. */
module KeysoundGen {
  import Decimal

  /** The twelve pitch names in one octave, C first. */
  const NAMES: seq<string> := ["C", "Cs", "D", "Ds", "E", "F", "Fs", "G", "Gs", "A", "As", "B"]

  const LOWEST_OCTAVE: nat := 3
  const HIGHEST_OCTAVE: nat := 6

  /** The `format!("{name}{octave}")` of pitch n in an octave. */
  function NoteName(octave: nat, n: nat): string
    requires n < |NAMES|
  {
    NAMES[n] + Decimal.Text(octave)
  }

  /** One octave's names: each pitch name followed by the octave number. */
  function OctaveNames(octave: nat): (r: seq<string>)
    ensures |r| == |NAMES|
    ensures forall n :: 0 <= n < |r| ==> r[n] == NoteName(octave, n)
  {
    seq(|NAMES|, n requires 0 <= n < |NAMES| => NoteName(octave, n))
  }

  /** The `flat_map` over the octaves from `lo` to `hi`, inclusive. */
  function OctavesFrom(lo: nat, hi: nat): (r: seq<string>)
    decreases hi + 1 - lo
  {
    if lo > hi then [] else OctaveNames(lo) + OctavesFrom(lo + 1, hi)
  }

  /** `note_names`. */
  function NoteNames(): seq<string> {
    OctavesFrom(LOWEST_OCTAVE, HIGHEST_OCTAVE)
  }

  /** Entry i of the octaves from `lo` is pitch i mod 12 of octave lo + i / 12. */
  lemma {:induction false} OctavesFromLength(lo: nat, hi: nat)
    requires lo <= hi + 1
    ensures |OctavesFrom(lo, hi)| == 12 * (hi + 1 - lo)
    decreases hi + 1 - lo
  {
    if lo <= hi {
      OctavesFromLength(lo + 1, hi);
    }
  }

  lemma {:induction false} OctavesFromAt(lo: nat, hi: nat)
    ensures forall i :: 0 <= i < |OctavesFrom(lo, hi)| ==> OctavesFrom(lo, hi)[i] == NoteName(lo + i / 12, i % 12)
    decreases hi + 1 - lo
  {
    if lo <= hi {
      OctavesFromAt(lo + 1, hi);
      var r, first, rest := OctavesFrom(lo, hi), OctaveNames(lo), OctavesFrom(lo + 1, hi);
      forall i | 0 <= i < |r|
        ensures r[i] == NoteName(lo + i / 12, i % 12)
      {
        Div12(i);
        if i < 12 {
          assert r[i] == first[i];
        } else {
          assert r[i] == rest[i - 12];
        }
      }
    }
  }

  lemma Div12(i: nat)
    ensures i < 12 ==> i % 12 == i && i / 12 == 0
    ensures i >= 12 ==> (i - 12) % 12 == i % 12 && (i - 12) / 12 == i / 12 - 1
  {
  }

  /** `note_names` has 48 entries; entry i is pitch name i mod 12 followed by the
      decimal octave 3 + i / 12. */
  lemma NoteNamesLayout()
    ensures |NoteNames()| == 48
    ensures forall i :: 0 <= i < 48 ==> NoteNames()[i] == NAMES[i % 12] + Decimal.Text(3 + i / 12)
  {
    OctavesFromLength(LOWEST_OCTAVE, HIGHEST_OCTAVE);
    OctavesFromAt(LOWEST_OCTAVE, HIGHEST_OCTAVE);
  }

  /** The first name is "C3" and the last "B6". */
  lemma NoteNamesEnds()
    ensures |NoteNames()| == 48 && NoteNames()[0] == "C3" && NoteNames()[47] == "B6"
  {
    NoteNamesLayout();
  }

  /** Two pitch names followed by one digit each are equal only when both parts are. */
  lemma NameWithDigit(n1: nat, n2: nat, d1: nat, d2: nat)
    requires n1 < 12 && n2 < 12 && d1 < 10 && d2 < 10
    requires NAMES[n1] + Decimal.Text(d1) == NAMES[n2] + Decimal.Text(d2)
    ensures n1 == n2 && d1 == d2
  {
    var s := NAMES[n1] + Decimal.Text(d1);
    assert s[..|s| - 1] == NAMES[n1];
    assert (NAMES[n2] + Decimal.Text(d2))[..|s| - 1] == NAMES[n2];
    assert s[|s| - 1] == Decimal.DigitChar(d1);
    assert (NAMES[n2] + Decimal.Text(d2))[|s| - 1] == Decimal.DigitChar(d2);
  }

  /** Every note name is a pitch name followed by one digit. */
  lemma NoteNameAt(i: nat)
    requires i < 48
    ensures var s := NoteNames()[i];
      |s| >= 2 && s == NAMES[i % 12] + Decimal.Text(3 + i / 12) && 3 + i / 12 < 10 && Decimal.IsDigit(s[|s| - 1])
  {
    NoteNamesLayout();
  }

  /** The 48 note names are pairwise distinct. */
  lemma NoteNamesDistinct()
    ensures forall i, j :: 0 <= i < j < |NoteNames()| ==> NoteNames()[i] != NoteNames()[j]
  {
    NoteNamesLayout();
    var r := NoteNames();
    forall i, j | 0 <= i < j < |r|
      ensures r[i] != r[j]
    {
      NoteNameAt(i);
      NoteNameAt(j);
      if r[i] == r[j] {
        NameWithDigit(i % 12, j % 12, 3 + i / 12, 3 + j / 12);
      }
    }
  }

  /** `drum_names`. */
  function DrumNames(): (r: seq<string>)
    ensures |r| == 3
  {
    ["kick", "snare", "hihat"]
  }

  /** The drum names are distinct and none of them is a note name. */
  lemma DrumNamesApart()
    ensures forall i, j :: 0 <= i < j < |DrumNames()| ==> DrumNames()[i] != DrumNames()[j]
    ensures forall d, m :: 0 <= d < |DrumNames()| && 0 <= m < |NoteNames()| ==> DrumNames()[d] != NoteNames()[m]
  {
    NoteNamesLayout();
    var r := NoteNames();
    forall d, m | 0 <= d < |DrumNames()| && 0 <= m < |r|
      ensures DrumNames()[d] != r[m]
    {
      NoteNameAt(m);
      var drum := DrumNames()[d];
      assert !Decimal.IsDigit(drum[|drum| - 1]);
    }
  }

  /** A keysound: the note number handed to `note_to_freq` (semitones from A4) and its name. */
  datatype Keysound = Keysound(note: int, name: string)

  /** `keysounds`: entry i is note i + 3 - 24 with the i-th note name. */
  function Keysounds(): seq<Keysound> {
    var names := NoteNames();
    seq(|names|, i requires 0 <= i < |names| => Keysound(i + 3 - 24, names[i]))
  }

  /** The name column of `keysounds` is `note_names` in order; the notes rise by one
      semitone from C3, 21 semitones below A4, to B6, 26 above it. */
  lemma KeysoundsColumns()
    ensures |Keysounds()| == |NoteNames()| == 48
    ensures forall i :: 0 <= i < 48 ==> Keysounds()[i].name == NoteNames()[i] && Keysounds()[i].note == i - 21
    ensures Keysounds()[0] == Keysound(-21, "C3") && Keysounds()[47] == Keysound(26, "B6")
  {
    NoteNamesEnds();
  }
}
