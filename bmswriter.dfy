/** The BMS text writer (bms-writer/src/lib.rs): keysound indices in two base-36
    digits, channel lines `#BBBCC:` followed by two characters per step, and the
    file layout of header, `#WAV` table and channel lines. */
module BmsWriter {
  import opened Seqs
  import Decimal

  const KEYBOARD_CHANNELS: seq<nat> := [11, 12, 13, 14, 15, 18, 19]
  const SCRATCH_CHANNEL: nat := 16
  const BGM_CHANNEL: nat := 1

  /** The digit table of `to_bms_index`. */
  const BASE36: string := "0123456789ABCDEFGHIJKLMNOPQRSTUVWXYZ"

  /** `to_bms_index` indexes the table with (idx + 1) / 36, so idx + 1 must stay below 36 * 36. */
  const INDEX_LIMIT: nat := 1296

  /** One row of a bar: per step, a keysound index or nothing. */
  type Row = seq<Option<nat>>
  type Bar = seq<Row>

  function Digit(d: nat): char
    requires d < 36
  {
    if d < 10 then ('0' as int + d) as char else ('A' as int + d - 10) as char
  }

  /** The value of a base-36 digit character. */
  function DigitValue(c: char): int {
    if '0' <= c <= '9' then c as int - '0' as int else c as int - 'A' as int + 10
  }

  lemma Base36Table()
    ensures forall d :: 0 <= d < 36 ==> BASE36[d] == Digit(d) && DigitValue(Digit(d)) == d
  {
    assert BASE36 == seq(36, d requires 0 <= d < 36 => Digit(d));
  }

  /** Reads two base-36 digits back as a keysound index. */
  function FromBmsIndex(s: string): int
    requires |s| == 2
  {
    DigitValue(s[0]) * 36 + DigitValue(s[1]) - 1
  }

  /** `to_bms_index`: idx + 1 as two base-36 digits. It decodes back to idx, so it
      is injective, and it is never "00", which marks an empty step. */
  function ToBmsIndex(idx: nat): (s: string)
    requires idx + 1 < INDEX_LIMIT
    ensures |s| == 2 && FromBmsIndex(s) == idx
    ensures s[0] in BASE36 && s[1] in BASE36
    ensures s != "00"
  {
    Base36Table();
    [BASE36[(idx + 1) / 36], BASE36[(idx + 1) % 36]]
  }

  lemma ToBmsIndexExamples()
    ensures ToBmsIndex(0) == "01"
    ensures ToBmsIndex(34) == "0Z"
    ensures ToBmsIndex(35) == "10"
    ensures ToBmsIndex(1294) == "ZZ"
  {
    Base36Table();
    assert ToBmsIndex(0) == [Digit(0), Digit(1)];
    assert ToBmsIndex(34) == [Digit(0), Digit(35)];
    assert ToBmsIndex(35) == [Digit(1), Digit(0)];
    assert ToBmsIndex(1294) == [Digit(35), Digit(35)];
  }

  /** Digits left-padded with zeros to at least `width` characters. */
  function ZeroPad(d: string, width: nat): (s: string)
    ensures |s| == if |d| < width then width else |d|
  {
    if |d| < width then seq(width - |d|, _ => '0') + d else d
  }

  /** n in decimal, zero-padded to at least `width` characters (`{:0width}`). */
  function Padded(n: nat, width: nat): (s: string)
    ensures |s| == if |Decimal.Text(n)| < width then width else |Decimal.Text(n)|
  {
    ZeroPad(Decimal.Text(n), width)
  }

  function Pow10(k: nat): (r: nat)
    ensures r >= 1
  {
    if k == 0 then 1 else 10 * Pow10(k - 1)
  }

  lemma {:induction false} LeadingZerosValue(k: nat, s: string)
    requires Decimal.AllDigits(s)
    ensures Decimal.AllDigits(seq(k, _ => '0') + s)
    ensures Decimal.Value(seq(k, _ => '0') + s) == Decimal.Value(s)
    decreases |s|, k
  {
    var z := seq(k, _ => '0');
    if s == [] {
      assert z + s == z;
      if k > 0 {
        assert z[..k - 1] == seq(k - 1, _ => '0');
        LeadingZerosValue(k - 1, []);
        assert seq(k - 1, _ => '0') + [] == seq(k - 1, _ => '0');
      }
    } else {
      assert (z + s)[..|z + s| - 1] == z + s[..|s| - 1];
      LeadingZerosValue(k, s[..|s| - 1]);
    }
  }

  /** Zero padding keeps a digit string's value. */
  lemma ZeroPadValue(d: string, width: nat)
    requires Decimal.AllDigits(d)
    ensures Decimal.AllDigits(ZeroPad(d, width)) && Decimal.Value(ZeroPad(d, width)) == Decimal.Value(d)
  {
    if |d| < width {
      LeadingZerosValue(width - |d|, d);
    }
  }

  /** Zero padding does not change the value written. */
  lemma PaddedRoundTrip(n: nat, width: nat)
    ensures Decimal.AllDigits(Padded(n, width)) && Decimal.Value(Padded(n, width)) == n
  {
    Decimal.ValueOfText(n);
    ZeroPadValue(Decimal.Text(n), width);
  }

  /** A value below 10^width fills exactly `width` padded characters. */
  lemma PaddedWidth(n: nat, width: nat)
    requires 1 <= width <= 3 && n < [1, 10, 100, 1000][width]
    ensures |Padded(n, width)| == width
  {
    assert Pow10(width) == [1, 10, 100, 1000][width];
    TextLength(n, width);
  }

  /** A value below 10^width has at most `width` digits. */
  lemma {:induction false} TextLength(n: nat, width: nat)
    requires width >= 1 && n < Pow10(width)
    ensures |Decimal.Text(n)| <= width
  {
    if n >= 10 {
      TextLength(n / 10, width - 1);
    }
  }

  /** The two characters of one step: the keysound index, or "00" for none. */
  function Code(x: Option<nat>): (s: string)
    requires x.Some? ==> x.value + 1 < INDEX_LIMIT
    ensures |s| == 2
    ensures s == "00" <==> x.None?
    ensures x.Some? ==> FromBmsIndex(s) == x.value
  {
    match x
    case None => "00"
    case Some(i) => ToBmsIndex(i)
  }

  /** Every index in the row can be written by `to_bms_index`. */
  predicate Encodable(row: Row) {
    forall k :: 0 <= k < |row| && row[k].Some? ==> row[k].value + 1 < INDEX_LIMIT
  }

  /** The step codes of a row, two characters per step. */
  function RowCodes(row: Row): (s: string)
    requires Encodable(row)
    ensures |s| == 2 * |row|
  {
    if row == [] then [] else RowCodes(row[..|row| - 1]) + Code(row[|row| - 1])
  }

  lemma {:induction false} RowCodesAt(row: Row, k: nat)
    requires Encodable(row) && k < |row|
    ensures RowCodes(row)[2 * k..2 * k + 2] == Code(row[k])
    decreases |row|
  {
    var n := |row| - 1;
    RowCodesSnoc(row);
    var front, last := RowCodes(row[..n]), Code(row[n]);
    assert RowCodes(row) == front + last;
    if k < n {
      calc {
        RowCodes(row)[2 * k..2 * k + 2];
        (front + last)[2 * k..2 * k + 2];
        { PrefixSlice(front, last, 2 * k, 2 * k + 2); }
        front[2 * k..2 * k + 2];
        { RowCodesAt(row[..n], k); }
        Code(row[..n][k]);
        { assert row[..n][k] == row[k]; }
        Code(row[k]);
      }
    } else {
      assert k == n && |front| == 2 * k;
      RowCodesAtLast(front, last, k);
    }
  }

  /** The last two characters of front + last are last. */
  lemma RowCodesAtLast(front: string, last: string, k: nat)
    requires |last| == 2 && |front| == 2 * k
    ensures (front + last)[2 * k..2 * k + 2] == last
  {
    SuffixSlice(front, last, 0, 2);
    assert last[0..2] == last;
  }

  /** The codes of a row are those of all but its last step, then the last step's. */
  lemma RowCodesSnoc(row: Row)
    requires Encodable(row) && |row| > 0
    ensures Encodable(row[..|row| - 1])
    ensures RowCodes(row) == RowCodes(row[..|row| - 1]) + Code(row[|row| - 1])
  {
  }

  /** One channel line: `#`, the bar number from 1 in three digits, the channel in two, `:`, the steps. */
  function RowLine(barIdx: nat, channel: nat, row: Row): string
    requires Encodable(row)
  {
    "#" + Padded(barIdx + 1, 3) + Padded(channel, 2) + ":" + RowCodes(row)
  }

  /** Within the field widths a channel line has the fixed layout of the BMS
      format and reads back as bar, channel and steps. */
  lemma RowLineLayout(barIdx: nat, channel: nat, row: Row)
    requires Encodable(row) && barIdx + 1 <= 999 && channel <= 99
    ensures |RowLine(barIdx, channel, row)| == 7 + 2 * |row|
    ensures RowLine(barIdx, channel, row)[0] == '#' && RowLine(barIdx, channel, row)[6] == ':'
    ensures Decimal.AllDigits(RowLine(barIdx, channel, row)[1..4]) &&
            Decimal.Value(RowLine(barIdx, channel, row)[1..4]) == barIdx + 1
    ensures Decimal.AllDigits(RowLine(barIdx, channel, row)[4..6]) &&
            Decimal.Value(RowLine(barIdx, channel, row)[4..6]) == channel
    ensures RowLine(barIdx, channel, row)[7..] == RowCodes(row)
  {
    PaddedWidth(barIdx + 1, 3);
    PaddedWidth(channel, 2);
    PaddedRoundTrip(barIdx + 1, 3);
    PaddedRoundTrip(channel, 2);
    var line := RowLine(barIdx, channel, row);
    assert line[1..4] == Padded(barIdx + 1, 3);
    assert line[4..6] == Padded(channel, 2);
  }

  lemma RowLineSuffix(barIdx: nat, channel: nat, row: Row)
    requires Encodable(row) && barIdx + 1 <= 999 && channel <= 99
    ensures 7 <= |RowLine(barIdx, channel, row)| && RowLine(barIdx, channel, row)[7..] == RowCodes(row)
  {
    PaddedWidth(barIdx + 1, 3);
    PaddedWidth(channel, 2);
    var prefix := "#" + Padded(barIdx + 1, 3) + Padded(channel, 2) + ":";
    assert RowLine(barIdx, channel, row) == prefix + RowCodes(row);
  }

  /** Step k of a channel line is the two characters at 7 + 2k. */
  lemma RowLineStep(barIdx: nat, channel: nat, row: Row, k: nat)
    requires Encodable(row) && barIdx + 1 <= 999 && channel <= 99 && k < |row|
    ensures 9 + 2 * k <= |RowLine(barIdx, channel, row)|
    ensures RowLine(barIdx, channel, row)[7 + 2 * k..9 + 2 * k] == Code(row[k])
  {
    RowLineSuffix(barIdx, channel, row);
    RowCodesAt(row, k);
    StepInLine(RowLine(barIdx, channel, row), RowCodes(row), k);
  }

  /** A step's two characters inside the codes are at 7 + 2k of a line ending in those codes. */
  lemma StepInLine(line: string, codes: string, k: nat)
    requires 7 <= |line| && line[7..] == codes && 2 * k + 2 <= |codes|
    ensures 9 + 2 * k <= |line| && line[7 + 2 * k..9 + 2 * k] == codes[2 * k..2 * k + 2]
  {
    SliceOfSuffix(line, 7, codes, 2 * k, 2 * k + 2);
  }

  lemma SliceOfSuffix<T>(s: seq<T>, a: nat, t: seq<T>, i: nat, j: nat)
    requires a <= |s| && s[a..] == t && i <= j <= |t|
    ensures a + j <= |s| && s[a + i..a + j] == t[i..j]
  {
    forall k | 0 <= k < j - i
      ensures s[a + i..a + j][k] == t[i..j][k]
    {
      assert s[a..][i + k] == s[a + i + k];
    }
  }

  /** The rows pushed to one channel, grouped by bar. */
  datatype Channel = Channel(bars: seq<Bar>)

  /** `push_to_bar`: pads the bars with empty ones through `barIdx` and appends the
      row to that bar only. */
  function PushToBar(ch: Channel, barIdx: nat, row: Row): (r: Channel)
    ensures |r.bars| == if |ch.bars| < barIdx + 1 then barIdx + 1 else |ch.bars|
    ensures r.bars[barIdx] == (if barIdx < |ch.bars| then ch.bars[barIdx] else []) + [row]
    ensures forall b :: 0 <= b < |r.bars| && b != barIdx ==>
      r.bars[b] == if b < |ch.bars| then ch.bars[b] else []
  {
    var padded := if |ch.bars| < barIdx + 1 then ch.bars + seq(barIdx + 1 - |ch.bars|, _ => []) else ch.bars;
    Channel(padded[barIdx := padded[barIdx] + [row]])
  }

  predicate ChannelEncodable(ch: Channel) {
    forall b, k :: 0 <= b < |ch.bars| && 0 <= k < |ch.bars[b]| ==> Encodable(ch.bars[b][k])
  }

  /** The number of rows in the first n bars. */
  function RowsBefore(ch: Channel, n: nat): nat
    requires n <= |ch.bars|
  {
    if n == 0 then 0 else RowsBefore(ch, n - 1) + |ch.bars[n - 1]|
  }

  /** The lines of the first n bars of a channel, bar by bar and row by row. */
  function ChannelLines(ch: Channel, channel: nat, n: nat): (lines: seq<Line>)
    requires n <= |ch.bars|
    ensures |lines| == RowsBefore(ch, n)
  {
    if n == 0 then []
    else
      ChannelLines(ch, channel, n - 1) +
      seq(|ch.bars[n - 1]|, k requires 0 <= k < |ch.bars[n - 1]| => ChannelRow(n - 1, channel, ch.bars[n - 1][k]))
  }

  /** Channel lines come in bar order and, within a bar, in push order: row k of
      bar b is line RowsBefore(b) + k. */
  lemma {:induction false} ChannelLineAt(ch: Channel, channel: nat, n: nat, b: nat, k: nat)
    requires n <= |ch.bars| && b < n && k < |ch.bars[b]|
    ensures RowsBefore(ch, b) + k < RowsBefore(ch, n)
    ensures ChannelLines(ch, channel, n)[RowsBefore(ch, b) + k] == ChannelRow(b, channel, ch.bars[b][k])
  {
    if b < n - 1 {
      ChannelLineAt(ch, channel, n - 1, b, k);
    }
  }

  /** `Channel::write`: one line per pushed row. */
  method WriteChannel(ch: Channel, channel: nat) returns (lines: seq<Line>)
    ensures lines == ChannelLines(ch, channel, |ch.bars|)
  {
    lines := [];
    var b := 0;
    while b < |ch.bars|
      invariant 0 <= b <= |ch.bars|
      invariant lines == ChannelLines(ch, channel, b)
    {
      var bar := ch.bars[b];
      var k := 0;
      while k < |bar|
        invariant 0 <= k <= |bar|
        invariant lines == ChannelLines(ch, channel, b) +
          seq(k, j requires 0 <= j < k => ChannelRow(b, channel, bar[j]))
      {
        lines := lines + [ChannelRow(b, channel, bar[k])];
        k := k + 1;
      }
      b := b + 1;
    }
  }

  /** One output line, each ended by a newline. `Text(s)` is s as written;
      `ShiftJis(s)` is the Shift-JIS encoding of s; `Total(x)` is `#TOTAL` with x
      rounded to an integer and `Bpm(x)` is `#BPM` with x to two decimals;
      `Wav(i, name)` is `WavText(i, name)`; `ChannelRow(b, c, row)` is
      `RowLine(b, c, row)`. */
  datatype Line =
    | Text(text: string)
    | ShiftJis(text: string)
    | Total(total: real)
    | Bpm(bpm: real)
    | Wav(idx: nat, name: string)
    | ChannelRow(barIdx: nat, channel: nat, row: Row)

  /** The characters of a line, for the kinds whose text the model spells out:
      `Wav` lines through `WavText` and channel lines through `RowLine`. The
      Shift-JIS, `#TOTAL` and `#BPM` lines are kept symbolic and have none. */
  function LineText(line: Line): (r: Option<string>)
    requires line.Wav? ==> line.idx + 1 < INDEX_LIMIT
    requires line.ChannelRow? ==> Encodable(line.row)
    ensures r.Some? <==> line.Text? || line.Wav? || line.ChannelRow?
    ensures line.Wav? ==> |r.value| >= 6 && r.value[..4] == "#WAV" && r.value[4..6] == ToBmsIndex(line.idx)
    ensures line.ChannelRow? ==> |r.value| > 0 && r.value[0] == '#'
  {
    match line
    case Text(text) => Some(text)
    case Wav(idx, name) => Some(WavText(idx, name))
    case ChannelRow(barIdx, channel, row) => Some(RowLine(barIdx, channel, row))
    case _ => None
  }

  /** Every listed index has a name and fits in two base-36 digits. */
  predicate Listed(keysounds: map<nat, string>, keys: seq<nat>) {
    forall j :: 0 <= j < |keys| ==> keys[j] in keysounds && keys[j] + 1 < INDEX_LIMIT
  }

  /** `#WAV<index> <name>.wav`: the text of a `Wav` line; the index sits at characters 4 and 5. */
  function WavText(idx: nat, name: string): (s: string)
    requires idx + 1 < INDEX_LIMIT
    ensures |s| == 11 + |name| && s[..4] == "#WAV" && s[4..6] == ToBmsIndex(idx)
  {
    var s := "#WAV" + ToBmsIndex(idx) + (" " + name + ".wav");
    MiddleSlice("#WAV", ToBmsIndex(idx), " " + name + ".wav");
    s
  }

  lemma MiddleSlice<T>(a: seq<T>, b: seq<T>, c: seq<T>)
    ensures (a + b + c)[..|a|] == a && (a + b + c)[|a|..|a| + |b|] == b
  {
  }

  /** The `#WAV` lines for the first n of the given indices, in the given order. */
  function WavLines(keysounds: map<nat, string>, keys: seq<nat>, n: nat): (lines: seq<Line>)
    requires Listed(keysounds, keys) && n <= |keys|
    ensures |lines| == n
  {
    if n == 0 then [] else WavLines(keysounds, keys, n - 1) + [Wav(keys[n - 1], keysounds[keys[n - 1]])]
  }

  lemma {:induction false} WavLineAt(keysounds: map<nat, string>, keys: seq<nat>, n: nat, a: nat)
    requires Listed(keysounds, keys) && a < n <= |keys|
    ensures WavLines(keysounds, keys, n)[a] == Wav(keys[a], keysounds[keys[a]])
  {
    if a < n - 1 {
      WavLineAt(keysounds, keys, n - 1, a);
    }
  }

  /** The lines of the first n of the given channels, one channel after another. */
  function ChannelsLines(channels: map<nat, Channel>, ids: seq<nat>, n: nat): seq<Line>
    requires (forall j :: 0 <= j < |ids| ==> ids[j] in channels) && n <= |ids|
  {
    if n == 0 then []
    else ChannelsLines(channels, ids, n - 1) + ChannelLines(channels[ids[n - 1]], ids[n - 1], |channels[ids[n - 1]].bars|)
  }

  class BmsWriter {
    var channels: map<nat, Channel>
    var keysounds: map<nat, string>
    var bpm: real
    var total: real
    var title: string
    var genre: string
    var artist: string

    /** `BmsWriter::new`: empty tables and texts, tempo 120, total 300. */
    constructor ()
      ensures channels == map[] && keysounds == map[]
      ensures bpm == 120.0 && total == 300.0
      ensures title == "" && genre == "" && artist == ""
    {
      channels := map[];
      keysounds := map[];
      bpm := 120.0;
      total := 300.0;
      title := "";
      genre := "";
      artist := "";
    }

    method SetArtist(artist: string)
      modifies this
      ensures this.artist == artist
      ensures channels == old(channels) && keysounds == old(keysounds) && bpm == old(bpm)
      ensures total == old(total) && title == old(title) && genre == old(genre)
    {
      this.artist := artist;
    }

    method SetTitle(title: string)
      modifies this
      ensures this.title == title
      ensures channels == old(channels) && keysounds == old(keysounds) && bpm == old(bpm)
      ensures total == old(total) && genre == old(genre) && artist == old(artist)
    {
      this.title := title;
    }

    method SetGenre(genre: string)
      modifies this
      ensures this.genre == genre
      ensures channels == old(channels) && keysounds == old(keysounds) && bpm == old(bpm)
      ensures total == old(total) && title == old(title) && artist == old(artist)
    {
      this.genre := genre;
    }

    method SetBpm(bpm: real)
      modifies this
      ensures this.bpm == bpm
      ensures channels == old(channels) && keysounds == old(keysounds) && total == old(total)
      ensures title == old(title) && genre == old(genre) && artist == old(artist)
    {
      this.bpm := bpm;
    }

    method SetTotal(total: real)
      modifies this
      ensures this.total == total
      ensures channels == old(channels) && keysounds == old(keysounds) && bpm == old(bpm)
      ensures title == old(title) && genre == old(genre) && artist == old(artist)
    {
      this.total := total;
    }

    /** `push_channel`: the channel is created empty on first use, then the row is
        pushed to the bar. */
    method PushChannel(barIdx: nat, channelId: nat, row: Row)
      modifies this
      ensures channels == old(channels)[channelId :=
        PushToBar(if channelId in old(channels) then old(channels)[channelId] else Channel([]), barIdx, row)]
      ensures keysounds == old(keysounds) && bpm == old(bpm) && total == old(total)
      ensures title == old(title) && genre == old(genre) && artist == old(artist)
    {
      var channel := if channelId in channels then channels[channelId] else Channel([]);
      channels := channels[channelId := PushToBar(channel, barIdx, row)];
    }

    /** `set_keysound`: inserts or replaces the name of one index. */
    method SetKeysound(idx: nat, name: string)
      modifies this
      ensures keysounds == old(keysounds)[idx := name]
      ensures channels == old(channels) && bpm == old(bpm) && total == old(total)
      ensures title == old(title) && genre == old(genre) && artist == old(artist)
    {
      keysounds := keysounds[idx := name];
    }

    /** Every index that `write` formats fits in two base-36 digits. */
    predicate Writable()
      reads this
    {
      (forall i :: i in keysounds ==> i + 1 < INDEX_LIMIT) &&
      (forall c :: c in channels ==> ChannelEncodable(channels[c]))
    }

    /** The eight header lines, in the order `write` emits them. */
    function Header(): (h: seq<Line>)
      reads this
      ensures |h| == 8
    {
      [Text("#PLAYER 1"),
       ShiftJis("#TITLE " + title),
       ShiftJis("#GENRE " + genre),
       ShiftJis("#ARTIST " + artist),
       Total(total),
       Bpm(bpm),
       Text("#PLAYLEVEL 1"),
       Text("#RANK 3")]
    }

    /** `write`: the header, then the `#WAV` table and the channels, both in
        ascending order of their keys. */
    method Write() returns (lines: seq<Line>)
      requires Writable()
      ensures Listed(keysounds, SortedKeys(keysounds.Keys))
      ensures forall j :: 0 <= j < |SortedKeys(channels.Keys)| ==> SortedKeys(channels.Keys)[j] in channels
      ensures lines == Header() + WavLines(keysounds, SortedKeys(keysounds.Keys), |keysounds|) +
        ChannelsLines(channels, SortedKeys(channels.Keys), |channels|)
    {
      var wavs := WriteWavs(keysounds);
      var ids := SortedKeys(channels.Keys);
      SortedKeysIn(channels.Keys);
      assert |ids| == |channels|;
      var rows := WriteChannels(channels, ids);
      lines := Header() + wavs + rows;
    }
  }

  lemma SortedKeysIn(keys: set<nat>)
    ensures forall j :: 0 <= j < |SortedKeys(keys)| ==> SortedKeys(keys)[j] in keys
  {
    var r := SortedKeys(keys);
    forall j | 0 <= j < |r|
      ensures r[j] in keys
    {
      assert r[j] in r;
    }
  }

  lemma KeysListed(keysounds: map<nat, string>)
    requires forall i :: i in keysounds ==> i + 1 < INDEX_LIMIT
    ensures Listed(keysounds, SortedKeys(keysounds.Keys))
  {
    SortedKeysIn(keysounds.Keys);
  }

  /** The `#WAV` loop of `write`, in ascending index order. */
  method WriteWavs(keysounds: map<nat, string>) returns (lines: seq<Line>)
    requires forall i :: i in keysounds ==> i + 1 < INDEX_LIMIT
    ensures Listed(keysounds, SortedKeys(keysounds.Keys))
    ensures lines == WavLines(keysounds, SortedKeys(keysounds.Keys), |keysounds|)
  {
    lines := [];
    var keys := SortedKeys(keysounds.Keys);
    KeysListed(keysounds);
    var i := 0;
    while i < |keys|
      invariant 0 <= i <= |keys|
      invariant lines == WavLines(keysounds, keys, i)
    {
      var k := keys[i];
      lines := lines + [Wav(k, keysounds[k])];
      i := i + 1;
    }
  }

  /** The channel loop of `write`, over the channel numbers in the order given. */
  method WriteChannels(channels: map<nat, Channel>, ids: seq<nat>) returns (lines: seq<Line>)
    requires forall j :: 0 <= j < |ids| ==> ids[j] in channels
    ensures lines == ChannelsLines(channels, ids, |ids|)
  {
    lines := [];
    var j := 0;
    while j < |ids|
      invariant 0 <= j <= |ids|
      invariant lines == ChannelsLines(channels, ids, j)
    {
      var c := ids[j];
      var text := WriteChannel(channels[c], c);
      assert ChannelsLines(channels, ids, j + 1) == lines + text;
      lines := lines + text;
      j := j + 1;
    }
  }

  /** The `#WAV` table lists the keysound indices in strictly ascending order. */
  lemma WavLinesAscending(keysounds: map<nat, string>, a: nat, b: nat)
    requires forall i :: i in keysounds ==> i + 1 < INDEX_LIMIT
    requires a < b < |keysounds|
    ensures Listed(keysounds, SortedKeys(keysounds.Keys))
    ensures WavLines(keysounds, SortedKeys(keysounds.Keys), |keysounds|)[a].Wav?
    ensures WavLines(keysounds, SortedKeys(keysounds.Keys), |keysounds|)[b].Wav?
    ensures WavLines(keysounds, SortedKeys(keysounds.Keys), |keysounds|)[a].idx <
            WavLines(keysounds, SortedKeys(keysounds.Keys), |keysounds|)[b].idx
  {
    var keys := SortedKeys(keysounds.Keys);
    KeysListed(keysounds);
    WavLineAt(keysounds, keys, |keysounds|, a);
    WavLineAt(keysounds, keys, |keysounds|, b);
  }
}
