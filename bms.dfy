/** From a chart to a BMS file (generator/src/bms.rs): per bar, one row for each of
    the seven lanes and one for the scratch, holding the keysound of every note,
    then the background rows of the keysound table. */
module Bms {
  import opened Seqs
  import opened BmsWriter
  import opened Sequence

  const LANES: nat := 7

  /** The channel of each lane, then of the scratch. */
  const LANE_MAPPING: seq<nat> := [11, 12, 13, 14, 15, 18, 19, 16]

  /** Only the first 999 bars are written: a bar number has three digits. */
  const MAX_BARS: nat := 999

  /** A chord as `chart_to_bms` reads it: the lanes played and whether the scratch is. */
  datatype BmsChord = BmsChord(lanes: seq<nat>, scratch: bool)
  datatype BmsChart = BmsChart(bpm: real, bars: seq<seq<BmsChord>>)

  /** The number of bars written. */
  function Emitted(chart: BmsChart): (n: nat)
    ensures n <= MAX_BARS && n <= |chart.bars|
    ensures n == MAX_BARS || n == |chart.bars|
  {
    if |chart.bars| < MAX_BARS then |chart.bars| else MAX_BARS
  }

  /** The lane channels are distinct from each other, from the scratch channel and
      from the background channel. */
  lemma ChannelMappingInjective()
    ensures forall l, m :: 0 <= l < m < |LANE_MAPPING| ==> LANE_MAPPING[l] != LANE_MAPPING[m]
    ensures forall l :: 0 <= l < |LANE_MAPPING| ==> LANE_MAPPING[l] != BGM_CHANNEL
    ensures LANE_MAPPING[..LANES] == KEYBOARD_CHANNELS && LANE_MAPPING[LANES] == SCRATCH_CHANNEL
  {
  }

  /** The keysound in lane l at step i: the one handed out for the last position of
      the chord holding l, or none when the chord does not hold l. */
  function LaneCell(indices: seq<seq<nat>>, count: nat, b: nat, i: nat, lanes: seq<nat>, l: nat): (r: Option<nat>)
    requires |indices| > 0
    ensures r.Some? <==> l in lanes
  {
    if lanes == [] then None
    else if lanes[|lanes| - 1] == l then Some(IndexAt(indices, count, b, i, |lanes| - 1))
    else LaneCell(indices, count, b, i, lanes[..|lanes| - 1], l)
  }

  /** A lane row has a keysound exactly where the chord holds the lane; in a chord
      without repeated lanes it is the keysound of the lane's position. */
  lemma {:induction false} LaneCellMeaning(indices: seq<seq<nat>>, count: nat, b: nat, i: nat, lanes: seq<nat>, l: nat)
    requires |indices| > 0
    ensures LaneCell(indices, count, b, i, lanes, l).Some? <==> l in lanes
    ensures forall j :: 0 <= j < |lanes| && lanes[j] == l && NoDup(lanes) ==>
      LaneCell(indices, count, b, i, lanes, l) == Some(IndexAt(indices, count, b, i, j))
  {
    if lanes != [] {
      var init := lanes[..|lanes| - 1];
      LaneCellMeaning(indices, count, b, i, init, l);
      assert lanes == init + [lanes[|lanes| - 1]];
      forall j | 0 <= j < |lanes| && lanes[j] == l && NoDup(lanes)
        ensures LaneCell(indices, count, b, i, lanes, l) == Some(IndexAt(indices, count, b, i, j))
      {
        if j < |lanes| - 1 {
          assert init[j] == l;
          assert NoDup(init);
        }
      }
    }
  }

  /** The seven lane rows of a bar. */
  function Grid(indices: seq<seq<nat>>, count: nat, b: nat, bar: seq<BmsChord>): (grid: seq<Row>)
    requires |indices| > 0
    ensures |grid| == LANES
    ensures forall l :: 0 <= l < LANES ==> |grid[l]| == |bar|
  {
    seq(LANES, l requires 0 <= l =>
      seq(|bar|, i requires 0 <= i < |bar| => LaneCell(indices, count, b, i, bar[i].lanes, l)))
  }

  /** The scratch row of a bar: the scratch keysound wherever the chord plays the scratch. */
  function ScratchRow(count: nat, bar: seq<BmsChord>): (row: Row)
    ensures |row| == |bar|
    ensures forall i :: 0 <= i < |bar| ==> (row[i].Some? <==> bar[i].scratch)
  {
    seq(|bar|, i requires 0 <= i < |bar| => if bar[i].scratch then Some(count) else None)
  }

  /** `key_sound_idx` is only called for steps 0..15 of a bar and lanes below `LANES`. */
  predicate BarPlayable(bar: seq<BmsChord>) {
    forall i :: 0 <= i < |bar| ==>
      (|bar[i].lanes| > 0 ==> i < CHORDS_PER_BAR) &&
      (forall j :: 0 <= j < |bar[i].lanes| ==> bar[i].lanes[j] < LANES)
  }

  /** The usage counts after k uses of step p of bar b. */
  function UseTimes(used: seq<seq<nat>>, b: nat, p: nat, k: nat): (r: seq<seq<nat>>)
    requires UsageRows(used) && (k > 0 ==> p < CHORDS_PER_BAR)
    ensures UsageRows(r)
  {
    if k == 0 then used else Use(UseTimes(used, b, p, k - 1), b, p)
  }

  /** The usage counts after the lanes of the first n chords of bar b. */
  function UseBar(used: seq<seq<nat>>, b: nat, bar: seq<BmsChord>, n: nat): (r: seq<seq<nat>>)
    requires UsageRows(used) && BarPlayable(bar) && n <= |bar|
    ensures UsageRows(r)
  {
    if n == 0 then used else UseTimes(UseBar(used, b, bar, n - 1), b, n - 1, |bar[n - 1].lanes|)
  }

  /** The usage count of step p of bar b, zero before its row exists. */
  function Count(used: seq<seq<nat>>, b: nat, p: nat): nat
    requires UsageRows(used) && p < CHORDS_PER_BAR
  {
    if b < |used| then used[b][p] else 0
  }

  lemma {:induction false} UseTimesCount(used: seq<seq<nat>>, b: nat, p: nat, k: nat)
    requires UsageRows(used) && p < CHORDS_PER_BAR
    ensures forall e: nat, q: nat :: q < CHORDS_PER_BAR ==>
      Count(UseTimes(used, b, p, k), e, q) == Count(used, e, q) + (if (e, q) == (b, p) then k else 0)
  {
    if k > 0 {
      UseTimesCount(used, b, p, k - 1);
    }
  }

  /** Filling bar b counts, at each step, one use per lane of its chord and
      changes no other counter. */
  lemma {:induction false} UseBarCount(used: seq<seq<nat>>, b: nat, bar: seq<BmsChord>, n: nat)
    requires UsageRows(used) && BarPlayable(bar) && n <= |bar|
    ensures forall e: nat, q: nat :: q < CHORDS_PER_BAR ==>
      Count(UseBar(used, b, bar, n), e, q) == Count(used, e, q) + (if e == b && q < n then |bar[q].lanes| else 0)
  {
    if n > 0 {
      UseBarCount(used, b, bar, n - 1);
      var prev := UseBar(used, b, bar, n - 1);
      if |bar[n - 1].lanes| > 0 {
        UseTimesCount(prev, b, n - 1, |bar[n - 1].lanes|);
      }
    }
  }

  /** In a bar whose counters start at zero, background channel i at step j plays
      tone k + i of the chord that `key_sound_idx` reads at that step, k being the
      number of lanes the step played: the lanes take the first tones of the chord
      and the background channels the rest, each tone once. */
  lemma BackgroundAfterLanes(indices: seq<seq<nat>>, used: seq<seq<nat>>, b: nat, bar: seq<BmsChord>, i: nat, j: nat)
    requires UsageRows(used) && BarPlayable(bar)
    requires forall q :: 0 <= q < CHORDS_PER_BAR ==> Count(used, b, q) == 0
    requires BgmDefined(indices, UseBar(used, b, bar, |bar|), b)
    requires i < MaxLen(Unused(indices, UseBar(used, b, bar, |bar|), b)) && j < CHORDS_PER_BAR
    ensures var chord, k := indices[(b * CHORDS_PER_BAR + j) % |indices|], if j < |bar| then |bar[j].lanes| else 0;
      Bgm(indices, UseBar(used, b, bar, |bar|), b)[i][j] == if k + i < |chord| then Some(chord[k + i]) else None
  {
    var after := UseBar(used, b, bar, |bar|);
    BgmCell(indices, after, b, i, j);
    UseBarCount(used, b, bar, |bar|);
    assert after[b][j] == Count(after, b, j);
    BarChordsAt(indices, b, j);
  }

  /** The usage counts after the lanes of the first n bars. */
  function UseBars(used: seq<seq<nat>>, bars: seq<seq<BmsChord>>, n: nat): (r: seq<seq<nat>>)
    requires UsageRows(used) && n <= |bars|
    requires forall b :: 0 <= b < n ==> BarPlayable(bars[b])
    ensures UsageRows(r)
  {
    if n == 0 then used else UseBar(UseBars(used, bars, n - 1), n - 1, bars[n - 1], |bars[n - 1]|)
  }

  /** The channel as pushed so far, or an empty one. */
  function ChannelOf(channels: map<nat, Channel>, c: nat): Channel {
    if c in channels then channels[c] else Channel([])
  }

  /** `push_channel` on the channel table. */
  function PushRow(channels: map<nat, Channel>, b: nat, c: nat, row: Row): map<nat, Channel> {
    channels[c := PushToBar(ChannelOf(channels, c), b, row)]
  }

  /** The first n lane rows pushed, lane l to channel `LANE_MAPPING[l]`. */
  function PushLanes(channels: map<nat, Channel>, b: nat, grid: seq<Row>, n: nat): map<nat, Channel>
    requires n <= |grid| && n <= LANES
  {
    if n == 0 then channels else PushRow(PushLanes(channels, b, grid, n - 1), b, LANE_MAPPING[n - 1], grid[n - 1])
  }

  /** The first n rows pushed to channel c in order. */
  function PushRows(channels: map<nat, Channel>, b: nat, c: nat, rows: seq<Row>, n: nat): map<nat, Channel>
    requires n <= |rows|
  {
    if n == 0 then channels else PushRow(PushRows(channels, b, c, rows, n - 1), b, c, rows[n - 1])
  }

  /** Everything one bar pushes: the lane rows, the scratch row, the background rows. */
  function BarPush(channels: map<nat, Channel>, b: nat, grid: seq<Row>, scratch: Row, bgm: seq<Row>): map<nat, Channel>
    requires |grid| == LANES
  {
    PushRows(PushRow(PushLanes(channels, b, grid, LANES), b, LANE_MAPPING[LANES], scratch), b, BGM_CHANNEL, bgm, |bgm|)
  }

  /** The chart can be handed to the keysound table: lanes and steps in range, and a
      non-empty sequence whenever a bar is written. */
  predicate Playable(chart: BmsChart, indices: seq<seq<nat>>) {
    (forall b :: 0 <= b < Emitted(chart) ==> BarPlayable(chart.bars[b])) &&
    (Emitted(chart) > 0 ==> |indices| > 0)
  }

  /** `bgm_sound_indices` does not panic in bar b, called after the lanes of bars 0..b. */
  predicate BgmAt(chart: BmsChart, indices: seq<seq<nat>>, used: seq<seq<nat>>, b: nat)
    requires Playable(chart, indices) && UsageRows(used) && b < Emitted(chart)
  {
    BgmDefined(indices, UseBars(used, chart.bars, b + 1), b)
  }

  /** `bgm_sound_indices` does not panic in any of the first n bars. */
  predicate BgmThrough(chart: BmsChart, indices: seq<seq<nat>>, used: seq<seq<nat>>, n: nat)
    requires Playable(chart, indices) && UsageRows(used) && n <= Emitted(chart)
  {
    forall b :: 0 <= b < n ==> BgmAt(chart, indices, used, b)
  }

  /** The channel table after the first n bars, bar b adding the background rows bgms[b]. */
  function ChannelsAfter(chart: BmsChart, indices: seq<seq<nat>>, count: nat, bgms: seq<seq<Row>>, n: nat): map<nat, Channel>
    requires n <= |chart.bars| && n <= |bgms| && (n > 0 ==> |indices| > 0)
  {
    if n == 0 then map[]
    else
      var b := n - 1;
      BarPush(ChannelsAfter(chart, indices, count, bgms, b), b,
        Grid(indices, count, b, chart.bars[b]), ScratchRow(count, chart.bars[b]), bgms[b])
  }

  /** The rows of bar b of a channel. */
  function BarRows(ch: Channel, b: nat): Bar {
    if b < |ch.bars| then ch.bars[b] else []
  }

  /** Pushing to the bar just past the end of a channel adds that bar. */
  lemma PushToBarEnd(ch: Channel, b: nat, row: Row)
    requires |ch.bars| == b
    ensures PushToBar(ch, b, row).bars == ch.bars + [[row]]
  {
    var r := PushToBar(ch, b, row);
    assert forall e :: 0 <= e < b ==> r.bars[e] == ch.bars[e];
    assert r.bars[b] == [row];
  }

  lemma PushLanesOther(channels: map<nat, Channel>, b: nat, grid: seq<Row>, n: nat, c: nat)
    requires n <= |grid| && n <= LANES
    requires forall l :: 0 <= l < n ==> LANE_MAPPING[l] != c
    ensures ChannelOf(PushLanes(channels, b, grid, n), c) == ChannelOf(channels, c)
  {
    if n > 0 {
      PushLanesOther(channels, b, grid, n - 1, c);
    }
  }

  lemma {:induction false} PushLanesAt(channels: map<nat, Channel>, b: nat, grid: seq<Row>, n: nat, l: nat)
    requires n <= |grid| && n <= LANES && l < n
    ensures ChannelOf(PushLanes(channels, b, grid, n), LANE_MAPPING[l]) ==
      PushToBar(ChannelOf(channels, LANE_MAPPING[l]), b, grid[l])
  {
    ChannelMappingInjective();
    if l < n - 1 {
      PushLanesAt(channels, b, grid, n - 1, l);
    } else {
      PushLanesOther(channels, b, grid, n - 1, LANE_MAPPING[l]);
    }
  }

  lemma PushRowsOther(channels: map<nat, Channel>, b: nat, c: nat, rows: seq<Row>, n: nat, d: nat)
    requires n <= |rows| && d != c
    ensures ChannelOf(PushRows(channels, b, c, rows, n), d) == ChannelOf(channels, d)
  {
    if n > 0 {
      PushRowsOther(channels, b, c, rows, n - 1, d);
    }
  }

  /** Pushing rows to a bar past the end of a channel makes them that bar's rows. */
  lemma {:induction false} PushRowsAt(channels: map<nat, Channel>, b: nat, c: nat, rows: seq<Row>, n: nat)
    requires n <= |rows| && |ChannelOf(channels, c).bars| <= b
    ensures BarRows(ChannelOf(PushRows(channels, b, c, rows, n), c), b) == rows[..n]
    ensures forall e :: 0 <= e < b ==>
      BarRows(ChannelOf(PushRows(channels, b, c, rows, n), c), e) == BarRows(ChannelOf(channels, c), e)
    ensures |ChannelOf(PushRows(channels, b, c, rows, n), c).bars| <= b + 1
  {
    if n > 0 {
      PushRowsAt(channels, b, c, rows, n - 1);
      assert rows[..n] == rows[..n - 1] + [rows[n - 1]];
    }
  }

  /** The channel table holds only lane, scratch and background channels. */
  lemma {:induction false} ChannelsAfterKeys(chart: BmsChart, indices: seq<seq<nat>>, count: nat, bgms: seq<seq<Row>>, n: nat)
    requires n <= |chart.bars| && n <= |bgms| && (n > 0 ==> |indices| > 0)
    ensures forall c :: c in ChannelsAfter(chart, indices, count, bgms, n) ==> c in LANE_MAPPING || c == BGM_CHANNEL
  {
    if n > 0 {
      var b := n - 1;
      ChannelsAfterKeys(chart, indices, count, bgms, b);
      BarPushKeys(ChannelsAfter(chart, indices, count, bgms, b), b,
        Grid(indices, count, b, chart.bars[b]), ScratchRow(count, chart.bars[b]), bgms[b]);
    }
  }

  lemma BarPushKeys(prev: map<nat, Channel>, b: nat, grid: seq<Row>, scratch: Row, bgm: seq<Row>)
    requires |grid| == LANES
    ensures forall c :: c in BarPush(prev, b, grid, scratch, bgm) ==> c in prev || c in LANE_MAPPING || c == BGM_CHANNEL
  {
    PushLanesKeys(prev, b, grid, LANES);
    PushRowsKeys(PushRow(PushLanes(prev, b, grid, LANES), b, LANE_MAPPING[LANES], scratch), b, BGM_CHANNEL, bgm, |bgm|);
  }

  lemma PushLanesKeys(channels: map<nat, Channel>, b: nat, grid: seq<Row>, n: nat)
    requires n <= |grid| && n <= LANES
    ensures forall c :: c in PushLanes(channels, b, grid, n) ==> c in channels || c in LANE_MAPPING[..n]
  {
    if n > 0 {
      PushLanesKeys(channels, b, grid, n - 1);
    }
  }

  lemma PushRowsKeys(channels: map<nat, Channel>, b: nat, c: nat, rows: seq<Row>, n: nat)
    requires n <= |rows|
    ensures forall d :: d in PushRows(channels, b, c, rows, n) ==> d in channels || d == c
  {
    if n > 0 {
      PushRowsKeys(channels, b, c, rows, n - 1);
    }
  }

  /** What one bar does to a lane channel, to the scratch channel and to the background channel. */
  lemma BarPushLane(prev: map<nat, Channel>, b: nat, grid: seq<Row>, scratch: Row, bgm: seq<Row>, l: nat)
    requires |grid| == LANES && l < LANES
    ensures ChannelOf(BarPush(prev, b, grid, scratch, bgm), LANE_MAPPING[l]) ==
      PushToBar(ChannelOf(prev, LANE_MAPPING[l]), b, grid[l])
  {
    var c := LANE_MAPPING[l];
    var withScratch := PushRow(PushLanes(prev, b, grid, LANES), b, SCRATCH_CHANNEL, scratch);
    PushLanesAt(prev, b, grid, LANES, l);
    PushRowsOther(withScratch, b, BGM_CHANNEL, bgm, |bgm|, c);
  }

  lemma BarPushScratch(prev: map<nat, Channel>, b: nat, grid: seq<Row>, scratch: Row, bgm: seq<Row>)
    requires |grid| == LANES
    ensures ChannelOf(BarPush(prev, b, grid, scratch, bgm), SCRATCH_CHANNEL) ==
      PushToBar(ChannelOf(prev, SCRATCH_CHANNEL), b, scratch)
  {
    var withScratch := PushRow(PushLanes(prev, b, grid, LANES), b, SCRATCH_CHANNEL, scratch);
    PushLanesOther(prev, b, grid, LANES, SCRATCH_CHANNEL);
    PushRowsOther(withScratch, b, BGM_CHANNEL, bgm, |bgm|, SCRATCH_CHANNEL);
  }

  lemma BarPushBgm(prev: map<nat, Channel>, b: nat, grid: seq<Row>, scratch: Row, bgm: seq<Row>)
    requires |grid| == LANES && |ChannelOf(prev, BGM_CHANNEL).bars| <= b
    ensures BarRows(ChannelOf(BarPush(prev, b, grid, scratch, bgm), BGM_CHANNEL), b) == bgm
    ensures forall e :: 0 <= e < b ==>
      BarRows(ChannelOf(BarPush(prev, b, grid, scratch, bgm), BGM_CHANNEL), e) == BarRows(ChannelOf(prev, BGM_CHANNEL), e)
    ensures |ChannelOf(BarPush(prev, b, grid, scratch, bgm), BGM_CHANNEL).bars| <= b + 1
  {
    var withScratch := PushRow(PushLanes(prev, b, grid, LANES), b, SCRATCH_CHANNEL, scratch);
    PushLanesOther(prev, b, grid, LANES, BGM_CHANNEL);
    assert ChannelOf(withScratch, BGM_CHANNEL) == ChannelOf(prev, BGM_CHANNEL);
    PushRowsAt(withScratch, b, BGM_CHANNEL, bgm, |bgm|);
    assert bgm[..|bgm|] == bgm;
  }

  lemma LaneStep(prev: map<nat, Channel>, chart: BmsChart, indices: seq<seq<nat>>, count: nat, b: nat, bgm: seq<Row>, l: nat)
    requires b < |chart.bars| && |indices| > 0 && l < LANES
    requires |ChannelOf(prev, LANE_MAPPING[l]).bars| == b
    requires forall e :: 0 <= e < b ==> ChannelOf(prev, LANE_MAPPING[l]).bars[e] == [Grid(indices, count, e, chart.bars[e])[l]]
    ensures var next := BarPush(prev, b, Grid(indices, count, b, chart.bars[b]), ScratchRow(count, chart.bars[b]), bgm);
      |ChannelOf(next, LANE_MAPPING[l]).bars| == b + 1 &&
      forall e :: 0 <= e < b + 1 ==> ChannelOf(next, LANE_MAPPING[l]).bars[e] == [Grid(indices, count, e, chart.bars[e])[l]]
  {
    var grid := Grid(indices, count, b, chart.bars[b]);
    BarPushLane(prev, b, grid, ScratchRow(count, chart.bars[b]), bgm, l);
    PushToBarEnd(ChannelOf(prev, LANE_MAPPING[l]), b, grid[l]);
  }

  lemma ScratchStep(prev: map<nat, Channel>, chart: BmsChart, indices: seq<seq<nat>>, count: nat, b: nat, bgm: seq<Row>)
    requires b < |chart.bars| && |indices| > 0
    requires |ChannelOf(prev, SCRATCH_CHANNEL).bars| == b
    requires forall e :: 0 <= e < b ==> ChannelOf(prev, SCRATCH_CHANNEL).bars[e] == [ScratchRow(count, chart.bars[e])]
    ensures var next := BarPush(prev, b, Grid(indices, count, b, chart.bars[b]), ScratchRow(count, chart.bars[b]), bgm);
      |ChannelOf(next, SCRATCH_CHANNEL).bars| == b + 1 &&
      forall e :: 0 <= e < b + 1 ==> ChannelOf(next, SCRATCH_CHANNEL).bars[e] == [ScratchRow(count, chart.bars[e])]
  {
    var scratch := ScratchRow(count, chart.bars[b]);
    BarPushScratch(prev, b, Grid(indices, count, b, chart.bars[b]), scratch, bgm);
    PushToBarEnd(ChannelOf(prev, SCRATCH_CHANNEL), b, scratch);
  }

  /** After n bars, lane l's channel has exactly one row per bar, the lane row of that bar. */
  lemma {:induction false} LaneChannelsAfter(chart: BmsChart, indices: seq<seq<nat>>, count: nat, bgms: seq<seq<Row>>, n: nat, l: nat)
    requires n <= |chart.bars| && n <= |bgms| && (n > 0 ==> |indices| > 0) && l < LANES
    ensures |ChannelOf(ChannelsAfter(chart, indices, count, bgms, n), LANE_MAPPING[l]).bars| == n
    ensures forall b :: 0 <= b < n ==>
      ChannelOf(ChannelsAfter(chart, indices, count, bgms, n), LANE_MAPPING[l]).bars[b] ==
        [Grid(indices, count, b, chart.bars[b])[l]]
  {
    if n > 0 {
      var b := n - 1;
      LaneChannelsAfter(chart, indices, count, bgms, b, l);
      LaneStep(ChannelsAfter(chart, indices, count, bgms, b), chart, indices, count, b, bgms[b], l);
    }
  }

  /** After n bars, the scratch channel has exactly one row per bar, the scratch row of that bar. */
  lemma {:induction false} ScratchChannelAfter(chart: BmsChart, indices: seq<seq<nat>>, count: nat, bgms: seq<seq<Row>>, n: nat)
    requires n <= |chart.bars| && n <= |bgms| && (n > 0 ==> |indices| > 0)
    ensures |ChannelOf(ChannelsAfter(chart, indices, count, bgms, n), SCRATCH_CHANNEL).bars| == n
    ensures forall b :: 0 <= b < n ==>
      ChannelOf(ChannelsAfter(chart, indices, count, bgms, n), SCRATCH_CHANNEL).bars[b] ==
        [ScratchRow(count, chart.bars[b])]
  {
    if n > 0 {
      var b := n - 1;
      ScratchChannelAfter(chart, indices, count, bgms, b);
      ScratchStep(ChannelsAfter(chart, indices, count, bgms, b), chart, indices, count, b, bgms[b]);
    }
  }

  lemma BgmStep(prev: map<nat, Channel>, b: nat, grid: seq<Row>, scratch: Row, bgms: seq<seq<Row>>)
    requires |grid| == LANES && b < |bgms| && |ChannelOf(prev, BGM_CHANNEL).bars| <= b
    requires forall e :: 0 <= e < b ==> BarRows(ChannelOf(prev, BGM_CHANNEL), e) == bgms[e]
    ensures |ChannelOf(BarPush(prev, b, grid, scratch, bgms[b]), BGM_CHANNEL).bars| <= b + 1
    ensures forall e :: 0 <= e < b + 1 ==> BarRows(ChannelOf(BarPush(prev, b, grid, scratch, bgms[b]), BGM_CHANNEL), e) == bgms[e]
  {
    BarPushBgm(prev, b, grid, scratch, bgms[b]);
  }

  /** After n bars, the background channel holds at each bar the background rows of
      that bar, in order. */
  lemma {:induction false} BgmChannelAfter(chart: BmsChart, indices: seq<seq<nat>>, count: nat, bgms: seq<seq<Row>>, n: nat)
    requires n <= |chart.bars| && n <= |bgms| && (n > 0 ==> |indices| > 0)
    ensures |ChannelOf(ChannelsAfter(chart, indices, count, bgms, n), BGM_CHANNEL).bars| <= n
    ensures forall b :: 0 <= b < n ==>
      BarRows(ChannelOf(ChannelsAfter(chart, indices, count, bgms, n), BGM_CHANNEL), b) == bgms[b]
  {
    if n > 0 {
      var b := n - 1;
      BgmChannelAfter(chart, indices, count, bgms, b);
      BgmStep(ChannelsAfter(chart, indices, count, bgms, b), b, Grid(indices, count, b, chart.bars[b]),
        ScratchRow(count, chart.bars[b]), bgms);
    }
  }

  /** The lane rows while the grid is filled: the chords before step i done, and
      the first j lanes of the chord at step i. */
  ghost function PartialGrid(indices: seq<seq<nat>>, count: nat, b: nat, bar: seq<BmsChord>, i: nat, j: nat): (grid: seq<Row>)
    requires |indices| > 0 && i <= |bar| && (i < |bar| ==> j <= |bar[i].lanes|)
  {
    seq(LANES, l requires 0 <= l => seq(|bar|, p requires 0 <= p < |bar| =>
      if p < i then LaneCell(indices, count, b, p, bar[p].lanes, l)
      else if p == i then LaneCell(indices, count, b, p, bar[p].lanes[..j], l)
      else None))
  }

  /** `vec![vec![None; n]; LANES]`. */
  function EmptyGrid(n: nat): (grid: seq<Row>)
    ensures |grid| == LANES
    ensures forall l :: 0 <= l < LANES ==> grid[l] == seq(n, _ => None)
  {
    seq(LANES, _ => seq(n, _ => None))
  }

  lemma SameGrid(g: seq<Row>, h: seq<Row>)
    requires |g| == |h|
    requires forall l :: 0 <= l < |g| ==> |g[l]| == |h[l]|
    requires forall l, p :: 0 <= l < |g| && 0 <= p < |g[l]| ==> g[l][p] == h[l][p]
    ensures g == h
  {
    forall l | 0 <= l < |g|
      ensures g[l] == h[l]
    {
      assert forall p :: 0 <= p < |g[l]| ==> g[l][p] == h[l][p];
    }
  }

  lemma FillStart(indices: seq<seq<nat>>, count: nat, b: nat, bar: seq<BmsChord>)
    requires |indices| > 0
    ensures PartialGrid(indices, count, b, bar, 0, 0) == EmptyGrid(|bar|)
  {
    if |bar| > 0 {
      assert bar[0].lanes[..0] == [];
    }
    SameGrid(PartialGrid(indices, count, b, bar, 0, 0), EmptyGrid(|bar|));
  }

  lemma FillStep(indices: seq<seq<nat>>, count: nat, b: nat, bar: seq<BmsChord>, i: nat, j: nat)
    requires |indices| > 0 && i < |bar| && j < |bar[i].lanes| && bar[i].lanes[j] < LANES
    ensures var grid, lane := PartialGrid(indices, count, b, bar, i, j), bar[i].lanes[j];
      grid[lane := grid[lane][i := Some(IndexAt(indices, count, b, i, j))]] ==
        PartialGrid(indices, count, b, bar, i, j + 1)
  {
    var lanes := bar[i].lanes;
    assert lanes[..j + 1] == lanes[..j] + [lanes[j]];
    assert lanes[..j + 1][..j] == lanes[..j];
    var grid, lane := PartialGrid(indices, count, b, bar, i, j), lanes[j];
    SameGrid(grid[lane := grid[lane][i := Some(IndexAt(indices, count, b, i, j))]],
      PartialGrid(indices, count, b, bar, i, j + 1));
  }

  lemma FillNext(indices: seq<seq<nat>>, count: nat, b: nat, bar: seq<BmsChord>, i: nat)
    requires |indices| > 0 && i < |bar|
    ensures PartialGrid(indices, count, b, bar, i, |bar[i].lanes|) == PartialGrid(indices, count, b, bar, i + 1, 0)
  {
    assert bar[i].lanes[..|bar[i].lanes|] == bar[i].lanes;
    if i + 1 < |bar| {
      assert bar[i + 1].lanes[..0] == [];
    }
    SameGrid(PartialGrid(indices, count, b, bar, i, |bar[i].lanes|), PartialGrid(indices, count, b, bar, i + 1, 0));
  }

  lemma FillDone(indices: seq<seq<nat>>, count: nat, b: nat, bar: seq<BmsChord>)
    requires |indices| > 0
    ensures PartialGrid(indices, count, b, bar, |bar|, 0) == Grid(indices, count, b, bar)
  {
    SameGrid(PartialGrid(indices, count, b, bar, |bar|, 0), Grid(indices, count, b, bar));
  }

  /** The grid loop of `chart_to_bms` for one bar: for every chord and every lane it
      holds, `key_sound_idx` of that step and position is stored in the lane row. */
  method FillLanes(ks: SequenceKeySound, b: nat, bar: seq<BmsChord>) returns (grid: seq<Row>)
    requires ks.Valid() && |ks.keysoundIndices| > 0 && BarPlayable(bar)
    modifies ks
    ensures ks.Valid() && ks.keysoundIndices == old(ks.keysoundIndices) && ks.keysounds == old(ks.keysounds)
    ensures ks.usedKeysounds == UseBar(old(ks.usedKeysounds), b, bar, |bar|)
    ensures grid == Grid(ks.keysoundIndices, |ks.keysounds|, b, bar)
  {
    ghost var indices, count, used0 := ks.keysoundIndices, |ks.keysounds|, ks.usedKeysounds;
    grid := EmptyGrid(|bar|);
    FillStart(indices, count, b, bar);
    var i := 0;
    while i < |bar|
      invariant i <= |bar|
      invariant ks.Valid() && ks.keysoundIndices == indices && ks.keysounds == old(ks.keysounds)
      invariant ks.usedKeysounds == UseBar(used0, b, bar, i)
      invariant grid == PartialGrid(indices, count, b, bar, i, 0)
    {
      var lanes := bar[i].lanes;
      var j := 0;
      while j < |lanes|
        invariant j <= |lanes|
        invariant ks.Valid() && ks.keysoundIndices == indices && ks.keysounds == old(ks.keysounds)
        invariant ks.usedKeysounds == UseTimes(UseBar(used0, b, bar, i), b, i, j)
        invariant grid == PartialGrid(indices, count, b, bar, i, j)
      {
        var lane := lanes[j];
        var idx := ks.KeySoundIdx(b, i, j);
        FillStep(indices, count, b, bar, i, j);
        grid := grid[lane := grid[lane][i := Some(idx)]];
        j := j + 1;
      }
      FillNext(indices, count, b, bar, i);
      i := i + 1;
    }
    FillDone(indices, count, b, bar);
  }

  /** The lane rows of a bar, lane l to channel `LANE_MAPPING[l]`. */
  method PushLaneRows(bms: BmsWriter, b: nat, grid: seq<Row>)
    requires |grid| == LANES
    modifies bms
    ensures bms.channels == PushLanes(old(bms.channels), b, grid, LANES)
    ensures bms.keysounds == old(bms.keysounds) && bms.bpm == old(bms.bpm) && bms.total == old(bms.total)
    ensures bms.title == old(bms.title) && bms.genre == old(bms.genre) && bms.artist == old(bms.artist)
  {
    var l := 0;
    while l < LANES
      invariant l <= LANES
      invariant bms.channels == PushLanes(old(bms.channels), b, grid, l)
      invariant bms.keysounds == old(bms.keysounds) && bms.bpm == old(bms.bpm) && bms.total == old(bms.total)
      invariant bms.title == old(bms.title) && bms.genre == old(bms.genre) && bms.artist == old(bms.artist)
    {
      bms.PushChannel(b, LANE_MAPPING[l], grid[l]);
      l := l + 1;
    }
  }

  /** The background rows of a bar, in order, to the background channel. */
  method PushBgmRows(bms: BmsWriter, b: nat, rows: seq<Row>)
    modifies bms
    ensures bms.channels == PushRows(old(bms.channels), b, BGM_CHANNEL, rows, |rows|)
    ensures bms.keysounds == old(bms.keysounds) && bms.bpm == old(bms.bpm) && bms.total == old(bms.total)
    ensures bms.title == old(bms.title) && bms.genre == old(bms.genre) && bms.artist == old(bms.artist)
  {
    var k := 0;
    while k < |rows|
      invariant k <= |rows|
      invariant bms.channels == PushRows(old(bms.channels), b, BGM_CHANNEL, rows, k)
      invariant bms.keysounds == old(bms.keysounds) && bms.bpm == old(bms.bpm) && bms.total == old(bms.total)
      invariant bms.title == old(bms.title) && bms.genre == old(bms.genre) && bms.artist == old(bms.artist)
    {
      bms.PushChannel(b, BGM_CHANNEL, rows[k]);
      k := k + 1;
    }
  }

  /** Everything `chart_to_bms` does for bar b: the lane rows, the scratch row, then
      the background rows, pushed in that order. `ok` is false exactly when
      `bgm_sound_indices` panics for the bar; the writer is then left as it is. */
  method EmitBar(bms: BmsWriter, ks: SequenceKeySound, b: nat, bar: seq<BmsChord>) returns (ok: bool)
    requires ks.Valid() && |ks.keysoundIndices| > 0 && BarPlayable(bar)
    modifies bms, ks
    ensures ks.Valid() && ks.keysoundIndices == old(ks.keysoundIndices) && ks.keysounds == old(ks.keysounds)
    ensures ks.usedKeysounds == UseBar(old(ks.usedKeysounds), b, bar, |bar|)
    ensures ok == BgmDefined(ks.keysoundIndices, ks.usedKeysounds, b)
    ensures ok ==> bms.channels == BarPush(old(bms.channels), b, Grid(ks.keysoundIndices, |ks.keysounds|, b, bar),
      ScratchRow(|ks.keysounds|, bar), Bgm(ks.keysoundIndices, ks.usedKeysounds, b))
    ensures bms.keysounds == old(bms.keysounds) && bms.bpm == old(bms.bpm) && bms.total == old(bms.total)
    ensures bms.title == old(bms.title) && bms.genre == old(bms.genre) && bms.artist == old(bms.artist)
  {
    var grid := FillLanes(ks, b, bar);
    PushLaneRows(bms, b, grid);
    var scratch: Row := [];
    var i := 0;
    while i < |bar|
      invariant i <= |bar|
      modifies {}
      invariant scratch == ScratchRow(|ks.keysounds|, bar)[..i]
    {
      scratch := scratch + [if bar[i].scratch then Some(ks.ScratchSoundIdx(b, i)) else None];
      i := i + 1;
    }
    assert scratch == ScratchRow(|ks.keysounds|, bar);
    bms.PushChannel(b, LANE_MAPPING[LANES], scratch);
    ok := BgmDefined(ks.keysoundIndices, ks.usedKeysounds, b);
    if !ok {
      return;
    }
    var rows := ks.BgmSoundIndices(b);
    PushBgmRows(bms, b, rows);
  }

  /** The background rows of each of the first n bars, each computed on the usage
      counts after the lanes of that bar. */
  function Bgms(chart: BmsChart, indices: seq<seq<nat>>, used: seq<seq<nat>>, n: nat): (bgms: seq<seq<Row>>)
    requires Playable(chart, indices) && UsageRows(used) && n <= Emitted(chart)
    requires BgmThrough(chart, indices, used, n)
    ensures |bgms| == n
  {
    seq(n, b requires 0 <= b < n && BgmAt(chart, indices, used, b) => Bgm(indices, UseBars(used, chart.bars, b + 1), b))
  }

  lemma BgmsNext(chart: BmsChart, indices: seq<seq<nat>>, used: seq<seq<nat>>, n: nat)
    requires Playable(chart, indices) && UsageRows(used) && n < Emitted(chart)
    requires BgmThrough(chart, indices, used, n + 1) && BgmAt(chart, indices, used, n)
    ensures Bgms(chart, indices, used, n + 1) ==
      Bgms(chart, indices, used, n) + [Bgm(indices, UseBars(used, chart.bars, n + 1), n)]
  {
    assert Bgms(chart, indices, used, n + 1)[..n] == Bgms(chart, indices, used, n);
  }

  /** The channel table after n bars reads only the first n background entries. */
  lemma {:induction false} ChannelsAfterPrefix(chart: BmsChart, indices: seq<seq<nat>>, count: nat, bgms: seq<seq<Row>>, more: seq<seq<Row>>, n: nat)
    requires n <= |chart.bars| && n <= |bgms| && (n > 0 ==> |indices| > 0)
    ensures ChannelsAfter(chart, indices, count, bgms + more, n) == ChannelsAfter(chart, indices, count, bgms, n)
  {
    if n > 0 {
      var b := n - 1;
      ChannelsAfterPrefix(chart, indices, count, bgms, more, b);
      assert (bgms + more)[b] == bgms[b];
    }
  }

  /** Emitting bar b after bars 0..b-1 gives the state after bars 0..b. */
  lemma EmitStep(chart: BmsChart, indices: seq<seq<nat>>, count: nat, used: seq<seq<nat>>, b: nat)
    requires Playable(chart, indices) && UsageRows(used) && b < Emitted(chart)
    requires BgmThrough(chart, indices, used, b)
    requires BgmDefined(indices, UseBar(UseBars(used, chart.bars, b), b, chart.bars[b], |chart.bars[b]|), b)
    ensures UseBars(used, chart.bars, b + 1) == UseBar(UseBars(used, chart.bars, b), b, chart.bars[b], |chart.bars[b]|)
    ensures BgmThrough(chart, indices, used, b + 1)
    ensures ChannelsAfter(chart, indices, count, Bgms(chart, indices, used, b + 1), b + 1) ==
      BarPush(ChannelsAfter(chart, indices, count, Bgms(chart, indices, used, b), b), b,
        Grid(indices, count, b, chart.bars[b]), ScratchRow(count, chart.bars[b]),
        Bgm(indices, UseBars(used, chart.bars, b + 1), b))
  {
    assert BgmAt(chart, indices, used, b);
    BgmsNext(chart, indices, used, b);
    var bgm := Bgm(indices, UseBars(used, chart.bars, b + 1), b);
    ChannelsAfterPrefix(chart, indices, count, Bgms(chart, indices, used, b), [bgm], b);
  }

  /** Bar b's usage follows the usage after bars 0..b-1, and `bgm_sound_indices`
      is defined in bar b exactly when it is defined on that usage. */
  lemma UseBarsNext(chart: BmsChart, indices: seq<seq<nat>>, used: seq<seq<nat>>, b: nat)
    requires Playable(chart, indices) && UsageRows(used) && b < Emitted(chart)
    ensures UseBars(used, chart.bars, b + 1) == UseBar(UseBars(used, chart.bars, b), b, chart.bars[b], |chart.bars[b]|)
    ensures BgmAt(chart, indices, used, b) <==>
      BgmDefined(indices, UseBar(UseBars(used, chart.bars, b), b, chart.bars[b], |chart.bars[b]|), b)
  {
  }

  /** The first of bars b, b+1, ... among the emitted ones whose `bgm_sound_indices` panics, if any. */
  function FirstPanicFrom(chart: BmsChart, indices: seq<seq<nat>>, used: seq<seq<nat>>, b: nat): (r: Option<nat>)
    requires Playable(chart, indices) && UsageRows(used) && b <= Emitted(chart)
    ensures r.Some? ==> b <= r.value < Emitted(chart)
    decreases Emitted(chart) - b
  {
    if b == Emitted(chart) then None
    else if !BgmAt(chart, indices, used, b) then Some(b)
    else FirstPanicFrom(chart, indices, used, b + 1)
  }

  /** Searching from a bar before which nothing panicked: no bar is found exactly
      when no emitted bar panics, and a bar found is the first that panics. */
  lemma {:induction false} FirstPanicSpec(chart: BmsChart, indices: seq<seq<nat>>, used: seq<seq<nat>>, b: nat)
    requires Playable(chart, indices) && UsageRows(used) && b <= Emitted(chart)
    requires BgmThrough(chart, indices, used, b)
    ensures var r := FirstPanicFrom(chart, indices, used, b);
      (r.None? <==> BgmThrough(chart, indices, used, Emitted(chart))) &&
      (r.Some? ==>
         b <= r.value < Emitted(chart) &&
         BgmThrough(chart, indices, used, r.value) && !BgmAt(chart, indices, used, r.value))
    decreases Emitted(chart) - b
  {
    if b < Emitted(chart) && BgmAt(chart, indices, used, b) {
      assert BgmThrough(chart, indices, used, b + 1);
      FirstPanicSpec(chart, indices, used, b + 1);
    }
  }

  /** One pass of the bar loop: bar b is emitted on top of bars 0..b-1, and it goes
      through exactly when `bgm_sound_indices` is defined in bar b. */
  method EmitNext(bms: BmsWriter, ks: SequenceKeySound, chart: BmsChart, b: nat,
                  ghost count: nat, ghost used0: seq<seq<nat>>) returns (ok: bool)
    requires ks.Valid() && Playable(chart, ks.keysoundIndices) && UsageRows(used0)
    requires b < Emitted(chart) && count == |ks.keysounds|
    requires ks.usedKeysounds == UseBars(used0, chart.bars, b) && BgmThrough(chart, ks.keysoundIndices, used0, b)
    requires bms.channels == ChannelsAfter(chart, ks.keysoundIndices, count, Bgms(chart, ks.keysoundIndices, used0, b), b)
    modifies bms, ks
    ensures ks.Valid() && ks.keysoundIndices == old(ks.keysoundIndices) && ks.keysounds == old(ks.keysounds)
    ensures ok <==> BgmAt(chart, ks.keysoundIndices, used0, b)
    ensures FirstPanicFrom(chart, ks.keysoundIndices, used0, b) ==
      if ok then FirstPanicFrom(chart, ks.keysoundIndices, used0, b + 1) else Some(b)
    ensures ok ==> ks.usedKeysounds == UseBars(used0, chart.bars, b + 1) && BgmThrough(chart, ks.keysoundIndices, used0, b + 1)
    ensures ok ==> bms.channels == ChannelsAfter(chart, ks.keysoundIndices, count, Bgms(chart, ks.keysoundIndices, used0, b + 1), b + 1)
    ensures bms.keysounds == old(bms.keysounds) && bms.bpm == old(bms.bpm) && bms.total == old(bms.total)
    ensures bms.title == old(bms.title) && bms.genre == old(bms.genre) && bms.artist == old(bms.artist)
  {
    FirstPanicStep(chart, ks.keysoundIndices, used0, b);
    ok := EmitBar(bms, ks, b, chart.bars[b]);
    UseBarsNext(chart, ks.keysoundIndices, used0, b);
    if ok {
      EmitStep(chart, ks.keysoundIndices, count, used0, b);
    }
  }

  /** The search for the first panic either stops at bar b or moves past it. */
  lemma FirstPanicStep(chart: BmsChart, indices: seq<seq<nat>>, used: seq<seq<nat>>, b: nat)
    requires Playable(chart, indices) && UsageRows(used) && b < Emitted(chart)
    ensures FirstPanicFrom(chart, indices, used, b) ==
      if BgmAt(chart, indices, used, b) then FirstPanicFrom(chart, indices, used, b + 1) else Some(b)
  {
  }

  /** The bar loop of `chart_to_bms`: the first 999 bars are emitted in order,
      stopping at the first bar whose `bgm_sound_indices` panics. */
  method EmitBars(bms: BmsWriter, ks: SequenceKeySound, chart: BmsChart) returns (panicAt: Option<nat>)
    requires ks.Valid() && Playable(chart, ks.keysoundIndices) && bms.channels == map[]
    modifies bms, ks
    ensures ks.Valid() && ks.keysoundIndices == old(ks.keysoundIndices) && ks.keysounds == old(ks.keysounds)
    ensures panicAt == FirstPanicFrom(chart, ks.keysoundIndices, old(ks.usedKeysounds), 0)
    ensures panicAt.None? ==> BgmThrough(chart, ks.keysoundIndices, old(ks.usedKeysounds), Emitted(chart))
    ensures panicAt.None? ==> ks.usedKeysounds == UseBars(old(ks.usedKeysounds), chart.bars, Emitted(chart))
    ensures panicAt.None? ==> bms.channels == ChannelsAfter(chart, ks.keysoundIndices, |ks.keysounds|,
      Bgms(chart, ks.keysoundIndices, old(ks.usedKeysounds), Emitted(chart)), Emitted(chart))
    ensures bms.keysounds == old(bms.keysounds) && bms.bpm == old(bms.bpm) && bms.total == old(bms.total)
    ensures bms.title == old(bms.title) && bms.genre == old(bms.genre) && bms.artist == old(bms.artist)
  {
    ghost var indices, count, used0 := ks.keysoundIndices, |ks.keysounds|, ks.usedKeysounds;
    var n := if |chart.bars| < MAX_BARS then |chart.bars| else MAX_BARS;
    var b := 0;
    while b < n
      invariant b <= n == Emitted(chart)
      invariant ks.Valid() && ks.keysoundIndices == indices && ks.keysounds == old(ks.keysounds)
      invariant ks.usedKeysounds == UseBars(used0, chart.bars, b)
      invariant BgmThrough(chart, indices, used0, b)
      invariant FirstPanicFrom(chart, indices, used0, b) == FirstPanicFrom(chart, indices, used0, 0)
      invariant bms.channels == ChannelsAfter(chart, indices, count, Bgms(chart, indices, used0, b), b)
      invariant bms.keysounds == old(bms.keysounds) && bms.bpm == old(bms.bpm) && bms.total == old(bms.total)
      invariant bms.title == old(bms.title) && bms.genre == old(bms.genre) && bms.artist == old(bms.artist)
    {
      var ok := EmitNext(bms, ks, chart, b, count, used0);
      if !ok {
        panicAt := Some(b);
        return;
      }
      b := b + 1;
    }
    panicAt := None;
  }

  /** Every keysound in the row is at most m. */
  predicate RowWithin(row: Row, m: nat) {
    forall k :: 0 <= k < |row| && row[k].Some? ==> row[k].value <= m
  }

  /** Every keysound in every channel of the table is at most m. */
  predicate TableWithin(channels: map<nat, Channel>, m: nat) {
    forall c, b, k :: c in channels && 0 <= b < |channels[c].bars| && 0 <= k < |channels[c].bars[b]| ==>
      RowWithin(channels[c].bars[b][k], m)
  }

  lemma PushRowWithin(channels: map<nat, Channel>, b: nat, c: nat, row: Row, m: nat)
    requires TableWithin(channels, m) && RowWithin(row, m)
    ensures TableWithin(PushRow(channels, b, c, row), m)
  {
    var old_ := ChannelOf(channels, c);
    var r := PushToBar(old_, b, row);
    forall e, k | 0 <= e < |r.bars| && 0 <= k < |r.bars[e]|
      ensures RowWithin(r.bars[e][k], m)
    {
      if e == b {
        if k < |r.bars[e]| - 1 {
          assert r.bars[e][k] == old_.bars[e][k];
        }
      } else {
        assert r.bars[e] == if e < |old_.bars| then old_.bars[e] else [];
      }
    }
  }

  lemma {:induction false} PushLanesWithin(channels: map<nat, Channel>, b: nat, grid: seq<Row>, n: nat, m: nat)
    requires n <= |grid| && n <= LANES && TableWithin(channels, m)
    requires forall l :: 0 <= l < n ==> RowWithin(grid[l], m)
    ensures TableWithin(PushLanes(channels, b, grid, n), m)
  {
    if n > 0 {
      PushLanesWithin(channels, b, grid, n - 1, m);
      PushRowWithin(PushLanes(channels, b, grid, n - 1), b, LANE_MAPPING[n - 1], grid[n - 1], m);
    }
  }

  lemma {:induction false} PushRowsWithin(channels: map<nat, Channel>, b: nat, c: nat, rows: seq<Row>, n: nat, m: nat)
    requires n <= |rows| && TableWithin(channels, m)
    requires forall i :: 0 <= i < n ==> RowWithin(rows[i], m)
    ensures TableWithin(PushRows(channels, b, c, rows, n), m)
  {
    if n > 0 {
      PushRowsWithin(channels, b, c, rows, n - 1, m);
      PushRowWithin(PushRows(channels, b, c, rows, n - 1), b, c, rows[n - 1], m);
    }
  }

  lemma {:induction false} LaneCellWithin(indices: seq<seq<nat>>, count: nat, b: nat, i: nat, lanes: seq<nat>, l: nat)
    requires |indices| > 0 && InTable(indices, count)
    ensures LaneCell(indices, count, b, i, lanes, l).Some? ==> LaneCell(indices, count, b, i, lanes, l).value <= count
  {
    if lanes != [] && lanes[|lanes| - 1] != l {
      LaneCellWithin(indices, count, b, i, lanes[..|lanes| - 1], l);
    }
  }

  lemma GridWithin(indices: seq<seq<nat>>, count: nat, b: nat, bar: seq<BmsChord>)
    requires |indices| > 0 && InTable(indices, count)
    ensures forall l :: 0 <= l < LANES ==> RowWithin(Grid(indices, count, b, bar)[l], count)
  {
    forall l, i | 0 <= l < LANES && 0 <= i < |bar|
      ensures var cell := Grid(indices, count, b, bar)[l][i]; cell.Some? ==> cell.value <= count
    {
      LaneCellWithin(indices, count, b, i, bar[i].lanes, l);
    }
  }

  /** The background rows only hold indices of the table and the silent keysound. */
  lemma BgmWithin(indices: seq<seq<nat>>, used: seq<seq<nat>>, b: nat, count: nat)
    requires BgmDefined(indices, used, b) && InTable(indices, count)
    ensures forall i :: 0 <= i < |Bgm(indices, used, b)| ==> RowWithin(Bgm(indices, used, b)[i], count)
  {
    var unused := Unused(indices, used, b);
    var chords := BarChords(indices, b);
    var start := (b * CHORDS_PER_BAR) % |indices|;
    assert forall j :: 0 <= j < |chords| ==> chords[j] == indices[start + j];
    var rows: seq<Row> := BgmChannels(unused);
    forall i: nat, j: nat | i < |rows| && j < |rows[i]| && rows[i][j].Some?
      ensures rows[i][j].value <= count
    {
      assert rows[i][j].value == unused[j][i];
      assert unused[j][i] in chords[j];
    }
  }

  /** The whole channel table only holds keysounds of the table, the silent one and
      the index one past the table. */
  lemma {:induction false} ChannelsWithin(chart: BmsChart, indices: seq<seq<nat>>, count: nat, used: seq<seq<nat>>, n: nat)
    requires Playable(chart, indices) && UsageRows(used) && n <= Emitted(chart)
    requires BgmThrough(chart, indices, used, n) && InTable(indices, count)
    ensures TableWithin(ChannelsAfter(chart, indices, count, Bgms(chart, indices, used, n), n), count)
  {
    if n > 0 {
      var b := n - 1;
      assert BgmThrough(chart, indices, used, b);
      ChannelsWithin(chart, indices, count, used, b);
      assert BgmAt(chart, indices, used, b);
      EmitStep(chart, indices, count, used, b);
      var bgm := Bgm(indices, UseBars(used, chart.bars, n), b);
      GridWithin(indices, count, b, chart.bars[b]);
      BgmWithin(indices, UseBars(used, chart.bars, n), b, count);
      BarPushWithin(ChannelsAfter(chart, indices, count, Bgms(chart, indices, used, b), b), b,
        Grid(indices, count, b, chart.bars[b]), ScratchRow(count, chart.bars[b]), bgm, count);
    }
  }

  lemma BarPushWithin(prev: map<nat, Channel>, b: nat, grid: seq<Row>, scratch: Row, bgm: seq<Row>, m: nat)
    requires |grid| == LANES && TableWithin(prev, m)
    requires forall l :: 0 <= l < LANES ==> RowWithin(grid[l], m)
    requires RowWithin(scratch, m)
    requires forall i :: 0 <= i < |bgm| ==> RowWithin(bgm[i], m)
    ensures TableWithin(BarPush(prev, b, grid, scratch, bgm), m)
  {
    PushLanesWithin(prev, b, grid, LANES, m);
    var lanes := PushLanes(prev, b, grid, LANES);
    PushRowWithin(lanes, b, LANE_MAPPING[LANES], scratch, m);
    PushRowsWithin(PushRow(lanes, b, LANE_MAPPING[LANES], scratch), b, BGM_CHANNEL, bgm, |bgm|, m);
  }

  /** With at most 1294 keysounds, every index `write` formats fits in two base-36
      digits: the table's own, and the one past it that scratch and missing tones use. */
  lemma SmallTableEncodable(chart: BmsChart, indices: seq<seq<nat>>, used: seq<seq<nat>>, sources: seq<KeySoundSource>)
    requires Playable(chart, indices) && UsageRows(used) && InTable(indices, |sources|)
    requires BgmThrough(chart, indices, used, Emitted(chart))
    requires |sources| + 1 < INDEX_LIMIT
    ensures forall i :: i in Names(sources) ==> i + 1 < INDEX_LIMIT
    ensures var channels := ChannelsAfter(chart, indices, |sources|, Bgms(chart, indices, used, Emitted(chart)), Emitted(chart));
      forall c :: c in channels ==> ChannelEncodable(channels[c])
  {
    ChannelsWithin(chart, indices, |sources|, used, Emitted(chart));
  }

  /** The keysound names by index, as the `set_keysound` loop records them. */
  function Names(sources: seq<KeySoundSource>): (r: map<nat, string>)
    ensures forall i: nat :: i in r <==> i < |sources|
  {
    map i: nat | i < |sources| :: sources[i].name
  }

  lemma NamesNext(sources: seq<KeySoundSource>, i: nat)
    requires i < |sources|
    ensures Names(sources[..i + 1]) == Names(sources[..i])[i := sources[i].name]
  {
    var prefix := sources[..i + 1];
    assert forall k :: 0 <= k < i ==> prefix[k] == sources[..i][k];
    assert Names(prefix).Keys == Names(sources[..i])[i := sources[i].name].Keys;
  }

  /** The start of `chart_to_bms`: a new writer, its header fields, and one
      `set_keysound` per keysound of the table. */
  method NewWriter(bpm: real, title: string, genre: string, artist: string, total: real, sources: seq<KeySoundSource>)
    returns (bms: BmsWriter)
    ensures fresh(bms)
    ensures bms.title == title && bms.genre == genre && bms.artist == artist
    ensures bms.bpm == bpm && bms.total == total
    ensures bms.keysounds == Names(sources) && bms.channels == map[]
  {
    bms := new BmsWriter();
    bms.SetTitle(title);
    bms.SetGenre(genre);
    bms.SetArtist(artist);
    bms.SetBpm(bpm);
    bms.SetTotal(total);
    var i := 0;
    while i < |sources|
      invariant i <= |sources|
      invariant bms.keysounds == Names(sources[..i]) && bms.channels == map[]
      invariant bms.title == title && bms.genre == genre && bms.artist == artist
      invariant bms.bpm == bpm && bms.total == total
    {
      NamesNext(sources, i);
      bms.SetKeysound(i, sources[i].name);
      i := i + 1;
    }
    assert sources[..|sources|] == sources;
  }

  /** How a call of `chart_to_bms` ends: the written lines, a panic in
      `bgm_sound_indices` at some bar, or a panic in `to_bms_index` while writing. */
  datatype Outcome = Written(lines: seq<Line>) | BgmPanic(bar: nat) | IndexPanic

  /** `chart_to_bms`: a writer with the given header fields and the keysound names,
      then the first 999 bars, then `write`. The writer is returned so that the
      contract can name its final state. */
  method ChartToBms(chart: BmsChart, title: string, genre: string, artist: string, total: real, ks: SequenceKeySound)
    returns (bms: BmsWriter, out: Outcome)
    requires ks.Valid() && Playable(chart, ks.keysoundIndices)
    modifies ks
    ensures fresh(bms)
    ensures ks.Valid() && ks.keysoundIndices == old(ks.keysoundIndices) && ks.keysounds == old(ks.keysounds)
    ensures bms.title == title && bms.genre == genre && bms.artist == artist
    ensures bms.bpm == chart.bpm && bms.total == total
    ensures bms.keysounds == Names(ks.keysounds)
    ensures out.BgmPanic? <==> !BgmThrough(chart, ks.keysoundIndices, old(ks.usedKeysounds), Emitted(chart))
    ensures out.BgmPanic? ==>
      out.bar < Emitted(chart) &&
      BgmThrough(chart, ks.keysoundIndices, old(ks.usedKeysounds), out.bar) &&
      !BgmAt(chart, ks.keysoundIndices, old(ks.usedKeysounds), out.bar)
    ensures !out.BgmPanic? ==> ks.usedKeysounds == UseBars(old(ks.usedKeysounds), chart.bars, Emitted(chart))
    ensures !out.BgmPanic? ==> bms.channels == ChannelsAfter(chart, ks.keysoundIndices, |ks.keysounds|,
      Bgms(chart, ks.keysoundIndices, old(ks.usedKeysounds), Emitted(chart)), Emitted(chart))
    ensures out.Written? <==> !out.BgmPanic? && bms.Writable()
    ensures |ks.keysounds| + 1 < INDEX_LIMIT ==> !out.IndexPanic?
    ensures out.Written? ==>
      Listed(bms.keysounds, SortedKeys(bms.keysounds.Keys)) &&
      (forall j :: 0 <= j < |SortedKeys(bms.channels.Keys)| ==> SortedKeys(bms.channels.Keys)[j] in bms.channels) &&
      out.lines == bms.Header() + WavLines(bms.keysounds, SortedKeys(bms.keysounds.Keys), |bms.keysounds|) +
        ChannelsLines(bms.channels, SortedKeys(bms.channels.Keys), |bms.channels|)
  {
    bms := NewWriter(chart.bpm, title, genre, artist, total, ks.keysounds);
    var panicAt := EmitBars(bms, ks, chart);
    FirstPanicSpec(chart, ks.keysoundIndices, old(ks.usedKeysounds), 0);
    if panicAt.Some? {
      return bms, BgmPanic(panicAt.value);
    }
    if |ks.keysounds| + 1 < INDEX_LIMIT {
      SmallTableEncodable(chart, ks.keysoundIndices, old(ks.usedKeysounds), ks.keysounds);
    }
    if !bms.Writable() {
      return bms, IndexPanic;
    }
    var lines := bms.Write();
    out := Written(lines);
  }
}
