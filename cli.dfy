/** The command line's density option (cli/src/main.rs): a comma-separated list of
    five unsigned integers, coarsest subdivision first, turned into a density table. */
module Cli {
  import opened Seqs
  import Decimal
  import Chord

  const U64_LIMIT: nat := 0x1_0000_0000_0000_0000
  const SEPARATOR: char := ','

  /** `str::split` on one character: the pieces between separators, so one more
      piece than there are separators, empty pieces included. */
  function Split(s: string, sep: char): (r: seq<string>)
    ensures |r| >= 1
  {
    if s == [] then [[]]
    else if s[0] == sep then [[]] + Split(s[1..], sep)
    else var rest := Split(s[1..], sep); [[s[0]] + rest[0]] + rest[1..]
  }

  /** The pieces glued back with the separator between them. */
  function Join(parts: seq<string>, sep: char): string
    requires |parts| >= 1
  {
    if |parts| == 1 then parts[0] else parts[0] + [sep] + Join(parts[1..], sep)
  }

  /** No piece holds the separator. */
  lemma {:induction false} SplitPiecesFree(s: string, sep: char)
    ensures forall i :: 0 <= i < |Split(s, sep)| ==> sep !in Split(s, sep)[i]
  {
    if s != [] {
      SplitPiecesFree(s[1..], sep);
    }
  }

  /** Joining the pieces gives back the text. */
  lemma {:induction false} JoinSplit(s: string, sep: char)
    ensures Join(Split(s, sep), sep) == s
  {
    if s != [] {
      var rest := Split(s[1..], sep);
      JoinSplit(s[1..], sep);
      if s[0] != sep {
        if |rest| > 1 {
          assert Join(rest, sep) == rest[0] + [sep] + Join(rest[1..], sep);
          assert ([s[0]] + rest[0]) + [sep] + Join(rest[1..], sep) == [s[0]] + Join(rest, sep);
        }
        assert s == [s[0]] + s[1..];
      }
    }
  }

  /** A separator-free piece followed by a separator splits off as one piece. */
  lemma {:induction false} SplitAfterPiece(p: string, rest: string, sep: char)
    requires sep !in p
    ensures Split(p + [sep] + rest, sep) == [p] + Split(rest, sep)
  {
    var s := p + [sep] + rest;
    if p == [] {
      assert s[0] == sep && s[1..] == rest;
    } else {
      SplitAfterPiece(p[1..], rest, sep);
      assert s[0] == p[0] && s[1..] == p[1..] + [sep] + rest;
      assert [p[0]] + p[1..] == p;
    }
  }

  /** A separator-free text is a single piece. */
  lemma {:induction false} SplitPiece(p: string, sep: char)
    requires sep !in p
    ensures Split(p, sep) == [p]
  {
    if p != [] {
      SplitPiece(p[1..], sep);
      assert p == [p[0]] + p[1..];
    }
  }

  /** Splitting a join of separator-free pieces gives back the pieces. */
  lemma {:induction false} SplitJoin(parts: seq<string>, sep: char)
    requires |parts| >= 1 && forall i :: 0 <= i < |parts| ==> sep !in parts[i]
    ensures Split(Join(parts, sep), sep) == parts
  {
    if |parts| == 1 {
      SplitPiece(parts[0], sep);
    } else {
      SplitJoin(parts[1..], sep);
      SplitAfterPiece(parts[0], Join(parts[1..], sep), sep);
    }
  }

  /** The digits after the optional '+'; empty when there are none. */
  function Unsigned(s: string): string {
    if |s| > 1 && s[0] == '+' then s[1..] else s
  }

  /** `<u64 as FromStr>::from_str`: an optional '+' then at least one decimal digit,
      nothing else, and a value below 2^64. */
  function ParseU64(s: string): (r: Option<nat>)
    ensures r.Some? ==> r.value < U64_LIMIT
  {
    var digits := Unsigned(s);
    if digits == [] || !Decimal.AllDigits(digits) then None
    else var v := Decimal.Value(digits); if v < U64_LIMIT then Some(v) else None
  }

  /** The decimal text of every u64, with or without a '+', parses back to it. */
  lemma ParseText(n: nat)
    requires n < U64_LIMIT
    ensures ParseU64(Decimal.Text(n)) == Some(n)
    ensures ParseU64("+" + Decimal.Text(n)) == Some(n)
  {
    Decimal.ValueOfText(n);
    var t := Decimal.Text(n);
    assert Unsigned(t) == t;
    assert ("+" + t)[1..] == t;
  }

  /** The texts `from_str` refuses: the empty text, a lone '+', and a '-' in front. */
  lemma ParseRefuses(s: string)
    ensures ParseU64("") == None && ParseU64("+") == None
    ensures |s| >= 1 && s[0] == '-' ==> ParseU64(s) == None
  {
  }

  /** `collect::<Option<Vec<u64>>>()`: every piece parsed, or None at the first that fails. */
  function ParseAll(pieces: seq<string>): (r: Option<seq<nat>>)
    ensures r.Some? <==> forall i :: 0 <= i < |pieces| ==> ParseU64(pieces[i]).Some?
    ensures r.Some? ==> |r.value| == |pieces|
    ensures r.Some? ==> forall i :: 0 <= i < |pieces| ==> r.value[i] == ParseU64(pieces[i]).value
  {
    if pieces == [] then Some([])
    else match ParseU64(pieces[0]) {
      case None => None
      case Some(v) =>
        match ParseAll(pieces[1..]) {
          case None => None
          case Some(vs) => Some([v] + vs)
        }
    }
  }

  /** `parse_density`: five u64 fields separated by commas, or None. */
  function ParseDensity(input: string): (r: Option<Chord.ChordDensity>)
  {
    match ParseAll(Split(input, SEPARATOR)) {
      case None => None
      case Some(values) => if |values| != 5 then None else Some(Chord.FromPowerOfTwo(values))
    }
  }

  /** `parse_density` succeeds exactly when the input has five comma-separated fields
      that all parse as u64; the table then has 16 steps and is built from those values. */
  lemma ParseDensitySpec(input: string)
    ensures var pieces := Split(input, SEPARATOR);
      ParseDensity(input).Some? <==> |pieces| == 5 && forall i :: 0 <= i < 5 ==> ParseU64(pieces[i]).Some?
    ensures var pieces := Split(input, SEPARATOR);
      ParseDensity(input).Some? ==>
        |ParseDensity(input).value.densitySeq| == 16 &&
        ParseDensity(input).value == Chord.FromPowerOfTwo(seq(5, i requires 0 <= i < 5 => ParseU64(pieces[i]).value))
  {
    var pieces := Split(input, SEPARATOR);
    match ParseAll(pieces) {
      case None =>
      case Some(values) =>
        if |values| == 5 {
          assert values == seq(5, i requires 0 <= i < 5 => ParseU64(pieces[i]).value);
          assert Pow2(4) == 16;
        }
    }
  }

  /** The empty text has one empty field, which does not parse. */
  lemma EmptyDensity()
    ensures ParseDensity("") == None
  {
    assert Split("", SEPARATOR) == [""];
  }

  /** Fewer or more than five fields are refused, even when every field parses. */
  lemma WrongFieldCount(input: string)
    requires |Split(input, SEPARATOR)| != 5
    ensures ParseDensity(input) == None
  {
  }

  /** Five u64 values written in decimal and joined by commas parse back to their table. */
  lemma DensityRoundTrip(values: seq<nat>)
    requires |values| == 5 && forall i :: 0 <= i < 5 ==> values[i] < U64_LIMIT
    ensures ParseDensity(Join(seq(5, i requires 0 <= i < 5 => Decimal.Text(values[i])), SEPARATOR)) ==
      Some(Chord.FromPowerOfTwo(values))
  {
    var texts := seq(5, i requires 0 <= i < 5 => Decimal.Text(values[i]));
    forall i | 0 <= i < 5
      ensures SEPARATOR !in texts[i] && ParseU64(texts[i]) == Some(values[i])
    {
      ParseText(values[i]);
      assert Decimal.AllDigits(texts[i]);
    }
    SplitJoin(texts, SEPARATOR);
    var parsed := ParseAll(texts);
    assert parsed.value == values;
  }
}
