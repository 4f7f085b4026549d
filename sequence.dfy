/** The keysound table built from a note sequence (generator/src/keysound/sequence.rs):
    every distinct note gets one keysound, index 0 is silence, each bar step reads
    the tones of one chord of the sequence, and the tones that no lane plays
    become background channels. */
module Sequence {
  import opened Seqs
  import BmsWriter

  const CHORDS_PER_BAR: nat := 16

  /** Index 0 of the keysound table is the silent keysound. */
  const SILENCE: nat := 0

  datatype Oscillator = Sine | Triangle | Square | Saw

  /** A note of the sequence; only its equality matters to the index assignment. */
  datatype Note = Note(osc: Oscillator, note: int, length: nat, volume: real)

  /** A keysound: its file name and the note it sounds (None for silence). */
  datatype KeySoundSource = KeySoundSource(name: string, note: Option<Note>)

  const SILENCE_SOURCE: KeySoundSource := KeySoundSource("key_silence", None)

  /** `format!("key_{idx:03}")`. */
  function KeyName(idx: nat): (r: string)
    ensures |r| >= 7 && r[..4] == "key_"
  {
    "key_" + BmsWriter.Padded(idx, 3)
  }

  /** d with x appended unless it is already there. */
  function Add(d: seq<Note>, x: Note): seq<Note> {
    if x in d then d else d + [x]
  }

  /** The notes of d and then those of chord, each kept at its first occurrence. */
  function AddAll(d: seq<Note>, chord: seq<Note>): seq<Note> {
    if chord == [] then d else Add(AddAll(d, chord[..|chord| - 1]), chord[|chord| - 1])
  }

  /** The distinct notes of the sequence in order of first occurrence. */
  function Distinct(notes: seq<seq<Note>>): seq<Note> {
    if notes == [] then [] else AddAll(Distinct(notes[..|notes| - 1]), notes[|notes| - 1])
  }

  /** The position of x in d. */
  function IndexOf(d: seq<Note>, x: Note): (k: nat)
    requires x in d
    ensures k < |d| && d[k] == x
    ensures forall m :: 0 <= m < k ==> d[m] != x
  {
    if d[0] == x then 0 else 1 + IndexOf(d[1..], x)
  }

  /** The keysound table: silence, then one keysound per distinct note. */
  function Sources(d: seq<Note>): (r: seq<KeySoundSource>)
    ensures |r| == |d| + 1
  {
    [SILENCE_SOURCE] + seq(|d|, k requires 0 <= k < |d| => KeySoundSource(KeyName(k + 1), Some(d[k])))
  }

  /** The keysound index of every note: one more than its place among the distinct notes. */
  function IndexTable(notes: seq<seq<Note>>): (t: seq<seq<nat>>)
    ensures |t| == |notes|
    ensures forall a :: 0 <= a < |t| ==> |t[a]| == |notes[a]|
  {
    var d := Distinct(notes);
    DistinctContents(notes);
    seq(|notes|, a requires 0 <= a < |notes| =>
      seq(|notes[a]|, b requires 0 <= b < |notes[a]| => 1 + IndexOf(d, notes[a][b])))
  }

  lemma {:induction false} AddAllContents(d: seq<Note>, chord: seq<Note>)
    ensures forall x :: x in AddAll(d, chord) <==> x in d || x in chord
    ensures NoDup(d) ==> NoDup(AddAll(d, chord))
    ensures |d| <= |AddAll(d, chord)| && AddAll(d, chord)[..|d|] == d
  {
    if chord != [] {
      var init := chord[..|chord| - 1];
      AddAllContents(d, init);
      assert chord == init + [chord[|chord| - 1]];
      var e := AddAll(d, init);
      assert AddAll(d, chord) == Add(e, chord[|chord| - 1]);
      assert Add(e, chord[|chord| - 1])[..|e|] == e;
    }
  }

  /** The distinct notes hold every note of the sequence and nothing else, each once. */
  lemma {:induction false} DistinctContents(notes: seq<seq<Note>>)
    ensures NoDup(Distinct(notes))
    ensures forall x :: x in Distinct(notes) <==> exists a :: 0 <= a < |notes| && x in notes[a]
  {
    if notes != [] {
      var init := notes[..|notes| - 1];
      DistinctContents(init);
      AddAllContents(Distinct(init), notes[|notes| - 1]);
      forall x | x in Distinct(notes)
        ensures exists a :: 0 <= a < |notes| && x in notes[a]
      {
        if x !in notes[|notes| - 1] {
          var a :| 0 <= a < |init| && x in init[a];
          assert notes[a] == init[a];
        }
      }
      forall x, a | 0 <= a < |notes| && x in notes[a]
        ensures x in Distinct(notes)
      {
        if a < |notes| - 1 {
          assert init[a] == notes[a];
        }
      }
    }
  }

  /** The distinct notes seen so far are a prefix of those of a longer sequence. */
  lemma {:induction false} DistinctPrefix(notes: seq<seq<Note>>, i: nat)
    requires i <= |notes|
    ensures |Distinct(notes[..i])| <= |Distinct(notes)|
    ensures Distinct(notes)[..|Distinct(notes[..i])|] == Distinct(notes[..i])
    decreases |notes| - i
  {
    if i < |notes| {
      var next := notes[..i + 1];
      assert next[..i] == notes[..i];
      AddAllContents(Distinct(notes[..i]), notes[i]);
      DistinctPrefix(notes, i + 1);
    } else {
      assert notes[..i] == notes;
    }
  }

  /** Equal notes share an index and different notes get different ones; every
      index names a keysound other than silence that sounds exactly that note. */
  lemma IndexTableFaithful(notes: seq<seq<Note>>, a: nat, b: nat, c: nat, e: nat)
    requires a < |notes| && b < |notes[a]| && c < |notes| && e < |notes[c]|
    ensures 1 <= IndexTable(notes)[a][b] < |Sources(Distinct(notes))|
    ensures Sources(Distinct(notes))[IndexTable(notes)[a][b]].note == Some(notes[a][b])
    ensures IndexTable(notes)[a][b] == IndexTable(notes)[c][e] <==> notes[a][b] == notes[c][e]
  {
    var d := Distinct(notes);
    var k1 := IndexTableAt(notes, a, b);
    var k2 := IndexTableAt(notes, c, e);
    SourceAt(d, k1);
    if k1 == k2 {
      assert d[k1] == d[k2];
    }
  }

  /** The index of a note is one more than its place among the distinct notes. */
  lemma IndexTableAt(notes: seq<seq<Note>>, a: nat, b: nat) returns (k: nat)
    requires a < |notes| && b < |notes[a]|
    ensures k < |Distinct(notes)| && Distinct(notes)[k] == notes[a][b]
    ensures IndexTable(notes)[a][b] == k + 1
  {
    DistinctContents(notes);
    assert notes[a][b] in notes[a];
    k := IndexOf(Distinct(notes), notes[a][b]);
  }

  /** Entry k + 1 of the keysound table sounds the note at place k. */
  lemma SourceAt(d: seq<Note>, k: nat)
    requires k < |d|
    ensures Sources(d)[k + 1].note == Some(d[k])
  {
  }

  /** Each entry of row is one more than the position in d of the matching note of chord. */
  ghost predicate Indexes(d: seq<Note>, chord: seq<Note>, row: seq<nat>) {
    |row| == |chord| &&
    forall k :: 0 <= k < |row| ==> 1 <= row[k] <= |d| && d[row[k] - 1] == chord[k]
  }

  /** Positions in d stay valid when d grows at the end. */
  lemma IndexesGrow(d: seq<Note>, e: seq<Note>, chord: seq<Note>, row: seq<nat>)
    requires Indexes(d, chord, row) && |d| <= |e| && e[..|d|] == d
    ensures Indexes(e, chord, row)
  {
    forall k | 0 <= k < |row|
      ensures e[row[k] - 1] == chord[k]
    {
      assert e[row[k] - 1] == e[..|d|][row[k] - 1];
    }
  }

  lemma IndexesAppend(d: seq<Note>, chord: seq<Note>, row: seq<nat>, x: Note, idx: nat)
    requires Indexes(d, chord, row) && 1 <= idx <= |d| && d[idx - 1] == x
    ensures Indexes(d, chord + [x], row + [idx])
  {
  }

  /** In a sequence without duplicates the position of an element is unique. */
  lemma PositionIsIndexOf(d: seq<Note>, k: nat)
    requires NoDup(d) && k < |d|
    ensures IndexOf(d, d[k]) == k
  {
  }

  lemma SourcesAppend(d: seq<Note>, x: Note)
    ensures Sources(d + [x]) == Sources(d) + [KeySoundSource(KeyName(|d| + 1), Some(x))]
  {
  }

  /** The map of `new` from each note seen to its keysound index: exactly the
      notes of d, each mapped to its position in d plus one. */
  ghost predicate IndexMapOf(idxMap: map<Note, nat>, d: seq<Note>) {
    (forall x :: x in idxMap <==> x in d) &&
    forall x :: x in idxMap ==> 1 <= idxMap[x] <= |d| && d[idxMap[x] - 1] == x
  }

  /** One note of `new`: its index, registering it first if it is unseen. */
  method AssignNote(note: Note, idxMap0: map<Note, nat>, sources0: seq<KeySoundSource>, ghost d: seq<Note>)
    returns (idx: nat, idxMap: map<Note, nat>, sources: seq<KeySoundSource>)
    requires NoDup(d) && sources0 == Sources(d)
    requires IndexMapOf(idxMap0, d)
    ensures NoDup(Add(d, note)) && sources == Sources(Add(d, note))
    ensures |d| <= |Add(d, note)| && Add(d, note)[..|d|] == d
    ensures IndexMapOf(idxMap, Add(d, note))
    ensures 1 <= idx <= |Add(d, note)| && Add(d, note)[idx - 1] == note
  {
    if note in idxMap0 {
      assert Add(d, note) == d;
      idx, idxMap, sources := idxMap0[note], idxMap0, sources0;
    } else {
      ghost var d' := d + [note];
      assert Add(d, note) == d' && d'[..|d|] == d;
      NoDupSnoc(d, note);
      idx := |sources0|;
      SourcesAppend(d, note);
      sources := sources0 + [KeySoundSource(KeyName(idx), Some(note))];
      idxMap := idxMap0[note := idx];
      IndexMapSnoc(idxMap0, d, note);
    }
  }

  /** Registering an unseen note at the end gives it the next index. */
  lemma IndexMapSnoc(idxMap: map<Note, nat>, d: seq<Note>, note: Note)
    requires IndexMapOf(idxMap, d) && note !in d
    ensures IndexMapOf(idxMap[note := |d| + 1], d + [note])
  {
    var m, e := idxMap[note := |d| + 1], d + [note];
    forall x | x in m
      ensures 1 <= m[x] <= |e| && e[m[x] - 1] == x
    {
      if x != note {
        assert e[idxMap[x] - 1] == d[idxMap[x] - 1];
      }
    }
  }

  /** Appending an element not yet present keeps the elements distinct. */
  lemma NoDupSnoc(d: seq<Note>, x: Note)
    requires NoDup(d) && x !in d
    ensures NoDup(d + [x])
  {
  }

  /** One chord of `new`: the index of each note, registering unseen notes. */
  method AssignChord(chord: seq<Note>, idxMap0: map<Note, nat>, sources0: seq<KeySoundSource>,
                     ghost d0: seq<Note>)
    returns (row: seq<nat>, idxMap: map<Note, nat>, sources: seq<KeySoundSource>)
    requires NoDup(d0) && sources0 == Sources(d0)
    requires IndexMapOf(idxMap0, d0)
    ensures NoDup(AddAll(d0, chord)) && sources == Sources(AddAll(d0, chord))
    ensures IndexMapOf(idxMap, AddAll(d0, chord))
    ensures Indexes(AddAll(d0, chord), chord, row)
  {
    row, idxMap, sources := [], idxMap0, sources0;
    ghost var d := d0;
    var j := 0;
    while j < |chord|
      invariant 0 <= j <= |chord|
      invariant d == AddAll(d0, chord[..j]) && NoDup(d)
      invariant sources == Sources(d)
      invariant IndexMapOf(idxMap, d)
      invariant Indexes(d, chord[..j], row)
    {
      var note := chord[j];
      var idx;
      ghost var before := d;
      idx, idxMap, sources := AssignNote(note, idxMap, sources, d);
      d := Add(d, note);
      IndexesGrow(before, d, chord[..j], row);
      IndexesAppend(d, chord[..j], row, note, idx);
      assert chord[..j + 1] == chord[..j] + [note];
      row := row + [idx];
      j := j + 1;
    }
    assert chord[..j] == chord;
  }

  /** The loops of `new`: the index table and the keysound table. */
  method AssignIndices(notes: seq<seq<Note>>) returns (indices: seq<seq<nat>>, sources: seq<KeySoundSource>)
    ensures indices == IndexTable(notes)
    ensures sources == Sources(Distinct(notes))
  {
    var idxMap: map<Note, nat> := map[];
    sources := [SILENCE_SOURCE];
    indices := [];
    ghost var d: seq<Note> := [];
    var i := 0;
    while i < |notes|
      invariant 0 <= i <= |notes|
      invariant d == Distinct(notes[..i]) && NoDup(d)
      invariant sources == Sources(d)
      invariant IndexMapOf(idxMap, d)
      invariant |indices| == i
      invariant forall a :: 0 <= a < i ==> Indexes(d, notes[a], indices[a])
    {
      var row;
      ghost var before := d;
      row, idxMap, sources := AssignChord(notes[i], idxMap, sources, d);
      d := AddAll(d, notes[i]);
      assert notes[..i + 1][..i] == notes[..i];
      AddAllContents(before, notes[i]);
      AllIndexesGrow(before, d, notes, indices, row);
      indices := indices + [row];
      i := i + 1;
    }
    assert notes[..i] == notes;
    TableFromIndexes(notes, d, indices);
  }

  lemma AllIndexesGrow(d: seq<Note>, e: seq<Note>, notes: seq<seq<Note>>, indices: seq<seq<nat>>, row: seq<nat>)
    requires |indices| < |notes| && |d| <= |e| && e[..|d|] == d
    requires forall a :: 0 <= a < |indices| ==> Indexes(d, notes[a], indices[a])
    requires Indexes(e, notes[|indices|], row)
    ensures forall a :: 0 <= a < |indices| + 1 ==> Indexes(e, notes[a], (indices + [row])[a])
  {
    forall a | 0 <= a < |indices|
      ensures Indexes(e, notes[a], indices[a])
    {
      IndexesGrow(d, e, notes[a], indices[a]);
    }
  }

  lemma TableFromIndexes(notes: seq<seq<Note>>, d: seq<Note>, indices: seq<seq<nat>>)
    requires d == Distinct(notes) && NoDup(d) && |indices| == |notes|
    requires forall a :: 0 <= a < |notes| ==> Indexes(d, notes[a], indices[a])
    ensures indices == IndexTable(notes)
  {
    var t := IndexTable(notes);
    forall a | 0 <= a < |notes|
      ensures indices[a] == t[a]
    {
      forall k | 0 <= k < |notes[a]|
        ensures indices[a][k] == t[a][k]
      {
        PositionIsIndexOf(d, indices[a][k] - 1);
      }
    }
  }

  /** The usage table with rows of zeros added through bar b and step p of bar b counted once more. */
  function Use(used: seq<seq<nat>>, b: nat, p: nat): (r: seq<seq<nat>>)
    requires forall k :: 0 <= k < |used| ==> |used[k]| == CHORDS_PER_BAR
    requires p < CHORDS_PER_BAR
    ensures |r| == if |used| < b + 1 then b + 1 else |used|
    ensures forall k :: 0 <= k < |r| ==> |r[k]| == CHORDS_PER_BAR
    ensures r[b][p] == (if b < |used| then used[b][p] else 0) + 1
    ensures forall k, q :: 0 <= k < |r| && 0 <= q < CHORDS_PER_BAR && (k, q) != (b, p) ==>
      r[k][q] == if k < |used| then used[k][q] else 0
  {
    var grown := if |used| < b + 1 then used + seq(b + 1 - |used|, _ => seq(CHORDS_PER_BAR, _ => 0)) else used;
    grown[b := grown[b][p := grown[b][p] + 1]]
  }

  /** The keysound `key_sound_idx` reads: tone t of the chord at step p of bar b,
      the sequence read cyclically, or the index one past the table when the
      chord has fewer tones. */
  function IndexAt(indices: seq<seq<nat>>, count: nat, b: nat, p: nat, t: nat): nat
    requires |indices| > 0
  {
    var chord := indices[(b * CHORDS_PER_BAR + p) % |indices|];
    if t < |chord| then chord[t] else count
  }

  /** `key_sound_idx` plays the t-th tone of the chord at that step, and the index
      one past the table, which no `#WAV` line names, exactly when there is none. */
  lemma IndexAtPlays(notes: seq<seq<Note>>, b: nat, p: nat, t: nat)
    requires |notes| > 0
    ensures var k := IndexAt(IndexTable(notes), |Sources(Distinct(notes))|, b, p, t);
      var chord := notes[(b * CHORDS_PER_BAR + p) % |notes|];
      (k == |Sources(Distinct(notes))| <==> t >= |chord|) &&
      (t < |chord| ==> 1 <= k < |Sources(Distinct(notes))| && Sources(Distinct(notes))[k].note == Some(chord[t]))
  {
    var a := (b * CHORDS_PER_BAR + p) % |notes|;
    if t < |notes[a]| {
      IndexTableFaithful(notes, a, t, a, t);
    }
  }

  function Min(x: nat, y: nat): nat {
    if x < y then x else y
  }

  /** The longest of a non-empty list of rows. */
  function MaxLen(rows: seq<seq<nat>>): (m: nat)
    requires |rows| > 0
    ensures forall j :: 0 <= j < |rows| ==> |rows[j]| <= m
  {
    if |rows| == 1 then |rows[0]|
    else
      var m := MaxLen(rows[1..]);
      assert forall j :: 1 <= j < |rows| ==> rows[j] == rows[1..][j - 1];
      if |rows[0]| < m then m else |rows[0]|
  }

  /** Some row is as long as the maximum. */
  lemma {:induction false} MaxLenAttained(rows: seq<seq<nat>>)
    requires |rows| > 0
    ensures exists j :: 0 <= j < |rows| && |rows[j]| == MaxLen(rows)
  {
    if |rows| > 1 {
      MaxLenAttained(rows[1..]);
      var j :| 0 <= j < |rows[1..]| && |rows[1..][j]| == MaxLen(rows[1..]);
      assert rows[1..][j] == rows[j + 1];
      if |rows[0]| < MaxLen(rows[1..]) {
        assert |rows[j + 1]| == MaxLen(rows);
      } else {
        assert |rows[0]| == MaxLen(rows);
      }
    } else {
      assert |rows[0]| == MaxLen(rows);
    }
  }

  /** The background channels for the leftover tones of each step of a bar. */
  function BgmChannels(unused: seq<seq<nat>>): (rows: seq<BmsWriter.Row>)
    requires |unused| > 0 && (MaxLen(unused) == 0 || |unused| == CHORDS_PER_BAR)
    ensures |rows| == MaxLen(unused)
    ensures forall i :: 0 <= i < |rows| ==> |rows[i]| == CHORDS_PER_BAR
  {
    var m := MaxLen(unused);
    seq(m, i requires 0 <= i < m =>
      seq(CHORDS_PER_BAR, j requires 0 <= j < CHORDS_PER_BAR =>
        if i < |unused[j]| then Some(unused[j][i]) else None))
  }

  /** The values of the occupied steps of a column, top to bottom. */
  function Somes(col: seq<Option<nat>>): seq<nat> {
    if col == [] then []
    else if col[0].Some? then [col[0].value] + Somes(col[1..])
    else Somes(col[1..])
  }

  lemma {:induction false} SomesOfPadded(u: seq<nat>, col: seq<Option<nat>>)
    requires |u| <= |col|
    requires forall i :: 0 <= i < |col| ==> col[i] == if i < |u| then Some(u[i]) else None
    ensures Somes(col) == u
  {
    if col != [] {
      if u == [] {
        assert col[0] == None;
        SomesOfPadded(u, col[1..]);
      } else {
        SomesOfPadded(u[1..], col[1..]);
      }
    }
  }

  /** Step j of every row. */
  function Column(rows: seq<BmsWriter.Row>, j: nat): (col: seq<Option<nat>>)
    requires forall i :: 0 <= i < |rows| ==> j < |rows[i]|
    ensures |col| == |rows|
  {
    seq(|rows|, i requires 0 <= i < |rows| => rows[i][j])
  }

  lemma BgmChannelsCover(unused: seq<seq<nat>>)
    requires |unused| > 0 && (MaxLen(unused) == 0 || |unused| == CHORDS_PER_BAR)
    ensures forall j :: 0 <= j < |unused| ==> Somes(Column(BgmChannels(unused), j)) == unused[j]
  {
    var rows := BgmChannels(unused);
    forall j | 0 <= j < |unused|
      ensures Somes(Column(rows, j)) == unused[j]
    {
      if |rows| > 0 {
        assert |unused| == CHORDS_PER_BAR;
      }
      SomesOfPadded(unused[j], Column(rows, j));
    }
  }

  /** Every usage row has one counter per step of a bar. */
  predicate UsageRows(used: seq<seq<nat>>) {
    forall k :: 0 <= k < |used| ==> |used[k]| == CHORDS_PER_BAR
  }

  /** The chords of bar b that `bgm_sound_indices` reads: at most sixteen, from
      step 16b (mod the sequence length) to the end of the sequence, without wrapping. */
  function BarChords(indices: seq<seq<nat>>, b: nat): (chords: seq<seq<nat>>)
    requires |indices| > 0
    ensures 1 <= |chords| <= CHORDS_PER_BAR
  {
    var start := (b * CHORDS_PER_BAR) % |indices|;
    indices[start..start + Min(CHORDS_PER_BAR, |indices| - start)]
  }

  /** Where it does not run past the end, the bar's slice holds the chords that
      `key_sound_idx` reads at the same steps. */
  lemma BarChordsAt(indices: seq<seq<nat>>, b: nat, j: nat)
    requires |indices| > 0 && j < |BarChords(indices, b)|
    ensures BarChords(indices, b)[j] == indices[(b * CHORDS_PER_BAR + j) % |indices|]
  {
    var start := (b * CHORDS_PER_BAR) % |indices|;
    assert BarChords(indices, b)[j] == indices[start + j];
    ShiftMod(b * CHORDS_PER_BAR, j, |indices|);
  }

  /** For each step of bar b, the tones of its chord that `key_sound_idx` has not handed out. */
  function Unused(indices: seq<seq<nat>>, used: seq<seq<nat>>, b: nat): (u: seq<seq<nat>>)
    requires UsageRows(used) && |indices| > 0 && b < |used|
    ensures |u| == |BarChords(indices, b)|
    ensures forall j :: 0 <= j < |u| ==>
      u[j] == BarChords(indices, b)[j][Min(used[b][j], |BarChords(indices, b)[j]|)..]
  {
    var chords, row := BarChords(indices, b), used[b];
    seq(|chords|, j requires 0 <= j < |chords| => chords[j][Min(row[j], |chords[j]|)..])
  }

  /** `bgm_sound_indices` does not panic: the usage row of the bar exists, and the
      sixteen steps it reads all exist unless no tone is left over. */
  predicate BgmDefined(indices: seq<seq<nat>>, used: seq<seq<nat>>, b: nat) {
    UsageRows(used) && |indices| > 0 && b < |used| &&
    (MaxLen(Unused(indices, used, b)) == 0 || |BarChords(indices, b)| == CHORDS_PER_BAR)
  }

  /** `bgm_sound_indices`: background channel i plays, at step j, the i-th tone left
      over at that step; bar 0 has one more channel, which starts the silent keysound. */
  function Bgm(indices: seq<seq<nat>>, used: seq<seq<nat>>, b: nat): (channels: seq<BmsWriter.Row>)
    requires BgmDefined(indices, used, b)
  {
    var rows := BgmChannels(Unused(indices, used, b));
    if b == 0 then rows + [[Some(SILENCE)]] else rows
  }

  /** There are as many background channels as the most tones left over at one
      step, and one more in bar 0; reading the channels top to bottom at a step
      gives exactly the tones left over there, in chord order. */
  lemma BgmCoversUnused(indices: seq<seq<nat>>, used: seq<seq<nat>>, b: nat)
    requires BgmDefined(indices, used, b)
    ensures |Bgm(indices, used, b)| == MaxLen(Unused(indices, used, b)) + (if b == 0 then 1 else 0)
    ensures b == 0 ==> Bgm(indices, used, b)[MaxLen(Unused(indices, used, b))] == [Some(SILENCE)]
    ensures forall i :: 0 <= i < MaxLen(Unused(indices, used, b)) ==> |Bgm(indices, used, b)[i]| == CHORDS_PER_BAR
    ensures forall j :: 0 <= j < |Unused(indices, used, b)| ==>
      Somes(Column(Bgm(indices, used, b)[..MaxLen(Unused(indices, used, b))], j)) == Unused(indices, used, b)[j]
  {
    var unused := Unused(indices, used, b);
    BgmChannelsCover(unused);
    assert Bgm(indices, used, b)[..MaxLen(unused)] == BgmChannels(unused);
  }

  /** Background channel i at step j plays the (used + i)-th tone of that step's
      chord, where `used` counts the tones the lanes took, or nothing past the chord's end. */
  lemma BgmCell(indices: seq<seq<nat>>, used: seq<seq<nat>>, b: nat, i: nat, j: nat)
    requires BgmDefined(indices, used, b) && i < MaxLen(Unused(indices, used, b)) && j < CHORDS_PER_BAR
    ensures j < |BarChords(indices, b)|
    ensures var chord, u := BarChords(indices, b)[j], used[b][j];
      Bgm(indices, used, b)[i][j] == if u + i < |chord| then Some(chord[u + i]) else None
  {
    var unused := Unused(indices, used, b);
    var chord, u := BarChords(indices, b)[j], used[b][j];
    assert unused[j] == chord[Min(u, |chord|)..];
    assert Bgm(indices, used, b)[i] == BgmChannels(unused)[i];
  }

  /** Every index of the table names a keysound. */
  ghost predicate InTable(indices: seq<seq<nat>>, count: nat) {
    forall a, k :: 0 <= a < |indices| && 0 <= k < |indices[a]| ==> indices[a][k] < count
  }

  class SequenceKeySound {
    var keysoundIndices: seq<seq<nat>>
    var keysounds: seq<KeySoundSource>
    var usedKeysounds: seq<seq<nat>>

    ghost predicate Valid()
      reads this
    {
      UsageRows(usedKeysounds) && InTable(keysoundIndices, |keysounds|)
    }

    /** `SequenceKeySound::new`: indices and keysounds of the notes, nothing used yet. */
    constructor (notes: seq<seq<Note>>)
      ensures Valid()
      ensures keysoundIndices == IndexTable(notes)
      ensures keysounds == Sources(Distinct(notes))
      ensures usedKeysounds == []
    {
      var indices, sources := AssignIndices(notes);
      forall a, k | 0 <= a < |indices| && 0 <= k < |indices[a]|
        ensures indices[a][k] < |sources|
      {
        IndexTableFaithful(notes, a, k, a, k);
      }
      keysoundIndices := indices;
      keysounds := sources;
      usedKeysounds := [];
    }

    /** `key_sound_idx`: counts one use of step p of bar b and returns tone t of that step. */
    method KeySoundIdx(b: nat, p: nat, t: nat) returns (idx: nat)
      requires Valid() && |keysoundIndices| > 0 && p < CHORDS_PER_BAR
      modifies this
      ensures Valid()
      ensures keysoundIndices == old(keysoundIndices) && keysounds == old(keysounds)
      ensures usedKeysounds == Use(old(usedKeysounds), b, p)
      ensures idx == IndexAt(keysoundIndices, |keysounds|, b, p, t)
    {
      if |usedKeysounds| < b + 1 {
        usedKeysounds := usedKeysounds + seq(b + 1 - |usedKeysounds|, _ => seq(CHORDS_PER_BAR, _ => 0));
      }
      usedKeysounds := usedKeysounds[b := usedKeysounds[b][p := usedKeysounds[b][p] + 1]];
      var chord := keysoundIndices[(b * CHORDS_PER_BAR + p) % |keysoundIndices|];
      idx := if t < |chord| then chord[t] else |keysounds|;
    }

    /** `scratch_sound_idx`: the index one past the keysound table, which names no keysound. */
    function ScratchSoundIdx(b: nat, p: nat): (idx: nat)
      reads this
      ensures idx == |keysounds|
    {
      |keysounds|
    }

    /** `bgm_sound_indices` on the current usage counts. */
    function BgmSoundIndices(b: nat): seq<BmsWriter.Row>
      reads this
      requires BgmDefined(keysoundIndices, usedKeysounds, b)
    {
      Bgm(keysoundIndices, usedKeysounds, b)
    }
  }
}
