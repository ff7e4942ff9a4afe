/**
 * sed/loader/fel/dataframe.py: `DataFrameCreator` turns the channels of one
 * FEL h5 file into frames indexed by (trainId, pulseId, electronId). Modelled
 * here: how a channel's h5 keys are derived from its config and checked against
 * the file, how the per-electron index shifts pulse ids and numbers the
 * electrons of each pulse, which electron rows are kept, and the per-train index.
 */
module FelDataFrame {
  import opened Wrappers
  import opened Frames
  import Hextof
  import Histogram

  /** The entries of `config["channels"][name]` that name its h5 datasets; `None` is a missing key. */
  datatype ChannelConfig = ChannelConfig(groupName: Option<string>, indexKey: Option<string>, datasetKey: Option<string>)

  /** `config["channels"]`: channel names with their configs, in dict order. */
  type Channels = seq<(string, ChannelConfig)>

  /** `config["channels"][name]`, or None when the channel is missing. */
  function Lookup(channels: Channels, name: string): (r: Option<ChannelConfig>)
    ensures r.Some? <==> exists i :: 0 <= i < |channels| && channels[i].0 == name
    ensures r.Some? ==> exists i :: 0 <= i < |channels| && channels[i] == (name, r.value)
  {
    if |channels| == 0 then None
    else if channels[0].0 == name then Some(channels[0].1)
    else
      var r := Lookup(channels[1..], name);
      assert forall i :: 1 <= i < |channels| ==> channels[i] == channels[1..][i - 1];
      r
  }

  /**
   * `get_index_dataset_key`: a missing channel raises KeyError; a group name
   * wins and yields "<group>index" and "<group>time" for "timeStamp" or
   * "<group>value" otherwise; else both explicit keys are returned as they are;
   * else ValueError.
   */
  function IndexDatasetKey(channels: Channels, channel: string): (r: Result<(string, string)>)
    ensures Lookup(channels, channel).None? ==> r == Err(KeyError)
    ensures Lookup(channels, channel).Some? ==>
              var c := Lookup(channels, channel).value;
              && (c.groupName.Some? ==>
                    r == Ok((c.groupName.value + "index",
                             c.groupName.value + (if channel == "timeStamp" then "time" else "value"))))
              && (c.groupName.None? && c.indexKey.Some? && c.datasetKey.Some? ==>
                    r == Ok((c.indexKey.value, c.datasetKey.value)))
              && (c.groupName.None? && (c.indexKey.None? || c.datasetKey.None?) ==> r == Err(ValueError))
  {
    match Lookup(channels, channel)
    case None => Err(KeyError)
    case Some(c) =>
      if c.groupName.Some? then
        var g := c.groupName.value;
        Ok((g + "index", if channel == "timeStamp" then g + "time" else g + "value"))
      else if c.indexKey.Some? && c.datasetKey.Some? then Ok((c.indexKey.value, c.datasetKey.value))
      else Err(ValueError)
  }

  /** The outcome for one channel: its keys must resolve, and each must name a dataset in the file. */
  function CheckChannel(channels: Channels, channel: string, file: set<string>): Outcome
  {
    match IndexDatasetKey(channels, channel)
    case Err(e) => Fail(e)
    case Ok(keys) =>
      if keys.0 !in file then Fail(KeyError)
      else if keys.1 !in file then Fail(KeyError)
      else Pass
  }

  /** The outcome of checking channels `i..` in order: the first failure, if any. */
  function ValidationFrom(channels: Channels, file: set<string>, i: nat): Outcome
    requires i <= |channels|
    decreases |channels| - i
  {
    if i == |channels| then Pass
    else
      match CheckChannel(channels, channels[i].0, file)
      case Fail(e) => Fail(e)
      case Pass => ValidationFrom(channels, file, i + 1)
  }

  /** `validate_channel_keys`: raises at the first channel whose keys cannot be derived or are not in the file. */
  method ValidateChannelKeys(channels: Channels, file: set<string>) returns (o: Outcome)
    ensures o == ValidationFrom(channels, file, 0)
  {
    var i := 0;
    while i < |channels|
      invariant 0 <= i <= |channels|
      invariant ValidationFrom(channels, file, i) == ValidationFrom(channels, file, 0)
    {
      var keys := IndexDatasetKey(channels, channels[i].0);
      if keys.Err? {
        return Fail(keys.error);
      }
      var (indexKey, datasetKey) := keys.value;
      if indexKey !in file {
        return Fail(KeyError);
      }
      if datasetKey !in file {
        return Fail(KeyError);
      }
      i := i + 1;
    }
    return Pass;
  }

  /** Every channel's keys resolve and both are datasets of the file. */
  predicate AllKeysPresent(channels: Channels, file: set<string>)
  {
    forall i :: 0 <= i < |channels| ==>
      IndexDatasetKey(channels, channels[i].0).Ok? &&
      IndexDatasetKey(channels, channels[i].0).value.0 in file &&
      IndexDatasetKey(channels, channels[i].0).value.1 in file
  }

  /**
   * Validation passes exactly when every channel's keys resolve and are in
   * the file; a failure is the ValueError of an unresolvable channel or a
   * KeyError.
   */
  lemma {:induction false} ValidationIff(channels: Channels, file: set<string>, i: nat)
    requires i <= |channels|
    ensures ValidationFrom(channels, file, i) == Pass <==>
              (forall j :: i <= j < |channels| ==> CheckChannel(channels, channels[j].0, file) == Pass)
    ensures ValidationFrom(channels, file, i).Fail? ==>
              ValidationFrom(channels, file, i).error in {ValueError, KeyError}
    decreases |channels| - i
  {
    if i < |channels| {
      ValidationIff(channels, file, i + 1);
    }
  }

  /** Passing validation means every channel's keys resolve to datasets of the file. */
  lemma {:induction false} ValidatedKeysExist(channels: Channels, file: set<string>)
    requires ValidationFrom(channels, file, 0) == Pass
    ensures AllKeysPresent(channels, file)
  {
    ValidationIff(channels, file, 0);
    forall i | 0 <= i < |channels|
      ensures IndexDatasetKey(channels, channels[i].0).Ok? &&
              IndexDatasetKey(channels, channels[i].0).value.0 in file &&
              IndexDatasetKey(channels, channels[i].0).value.1 in file
    {
      assert CheckChannel(channels, channels[i].0, file) == Pass;
    }
  }

  /** A (trainId, pulseId) pair of the per-electron index before numbering. */
  type Bunch = (int, int)

  /** The lexicographic order of a sorted MultiIndex. */
  predicate Le(a: Bunch, b: Bunch)
  {
    a.0 < b.0 || (a.0 == b.0 && a.1 <= b.1)
  }

  /** `is_monotonic_increasing` on the pairs. */
  predicate Sorted(s: seq<Bunch>)
  {
    forall i, j :: 0 <= i < j < |s| ==> Le(s[i], s[j])
  }

  /**
   * The index pairs of `pulse_index`: train `i` repeated once per pulse slot
   * (`np.repeat`), beside the pulse ids of the raveled 2-D pulse dataset
   * (`astype(int)`, then shifted down by `offset`).
   */
  function Microbunches(trains: seq<int>, pulses: seq<seq<real>>, width: nat, offset: int): (mb: seq<Bunch>)
    requires |trains| == |pulses| && forall i :: 0 <= i < |pulses| ==> |pulses[i]| == width
    ensures |mb| == |trains| * width
  {
    seq(|trains| * width, k requires 0 <= k < |trains| * width =>
      RowOf(k, |trains|, width);
      (trains[k / width], Hextof.Trunc(pulses[k / width][k % width]) - offset))
  }

  lemma {:induction false} RowOf(k: nat, rows: nat, width: nat)
    requires k < rows * width
    ensures width > 0 && k / width < rows && k % width < width
  {
    if width > 0 && k / width >= rows {
      Histogram.MulMono(rows - 1, k / width, width);
    }
  }

  /** Floor division recovers the row and the slot of a row-major position. */
  lemma {:induction false} RowMajor(i: nat, j: nat, width: nat)
    requires j < width
    ensures (i * width + j) / width == i && (i * width + j) % width == j
  {
    var k := i * width + j;
    var q, r := k / width, k % width;
    assert k == q * width + r;
    if q < i {
      Histogram.MulMono(q, i, width);
    } else if q > i {
      Histogram.MulMono(i, q, width);
    }
  }

  /** Slot `j` of train `i` pairs that train with its pulse id minus the offset. */
  lemma {:induction false} MicrobunchAt(trains: seq<int>, pulses: seq<seq<real>>, width: nat, offset: int, i: nat, j: nat)
    requires |trains| == |pulses| && forall i :: 0 <= i < |pulses| ==> |pulses[i]| == width
    requires i < |trains| && j < width
    ensures i * width + j < |trains| * width
    ensures Microbunches(trains, pulses, width, offset)[i * width + j] ==
              (trains[i], Hextof.Trunc(pulses[i][j]) - offset)
  {
    RowMajor(i, j, width);
    Histogram.MulMono(i, |trains|, width);
  }

  /** The position of entry `k` within its run of equal consecutive entries. */
  function Position(s: seq<Bunch>, k: nat): nat
    requires k < |s|
  {
    if k == 0 || s[k] != s[k - 1] then 0 else Position(s, k - 1) + 1
  }

  /** `value_counts(sort=False)` on a sorted index: the lengths of the runs of equal entries, in order. */
  function RunLengths(s: seq<Bunch>): (counts: seq<nat>)
    ensures |s| > 0 <==> |counts| > 0
    ensures |s| > 0 ==> counts[|counts| - 1] == Position(s, |s| - 1) + 1
    decreases |s|
  {
    if |s| == 0 then []
    else
      var p := s[..|s| - 1];
      var cs := RunLengths(p);
      PositionTrunc(s, |p|, |p| - 1);
      if |p| > 0 && p[|p| - 1] == s[|s| - 1] then cs[..|cs| - 1] + [cs[|cs| - 1] + 1]
      else cs + [1]
  }

  /** A run's position does not depend on what follows it: cutting after entry `k` leaves it unchanged. */
  lemma {:induction false} PositionTrunc(s: seq<Bunch>, n: nat, k: int)
    requires k < n <= |s|
    ensures k >= 0 ==> Position(s[..n], k) == Position(s, k)
    decreases k
  {
    if k > 0 {
      PositionTrunc(s, n, k - 1);
    }
  }

  function Range(c: nat): (r: seq<nat>)
    ensures |r| == c && forall i :: 0 <= i < c ==> r[i] == i
  {
    seq(c, i requires 0 <= i < c => i)
  }

  /** `np.concatenate([np.arange(count) for count in counts])`. */
  function Aranges(counts: seq<nat>): seq<nat>
    decreases |counts|
  {
    if |counts| == 0 then [] else Aranges(counts[..|counts| - 1]) + Range(counts[|counts| - 1])
  }

  function Positions(s: seq<Bunch>): (r: seq<nat>)
    ensures |r| == |s| && forall k :: 0 <= k < |s| ==> r[k] == Position(s, k)
  {
    seq(|s|, k requires 0 <= k < |s| => Position(s, k))
  }

  lemma {:induction false} ArangesSnoc(cs: seq<nat>, c: nat)
    ensures Aranges(cs + [c]) == Aranges(cs) + Range(c)
  {
    assert (cs + [c])[..|cs|] == cs;
  }

  lemma {:induction false} RangeSnoc(c: nat)
    ensures Range(c + 1) == Range(c) + [c]
  {
  }

  lemma {:induction false} PositionsLast(s: seq<Bunch>)
    requires |s| > 0
    ensures Positions(s) == Positions(s[..|s| - 1]) + [Position(s, |s| - 1)]
  {
    forall k | 0 <= k < |s| - 1 ensures Positions(s)[k] == Positions(s[..|s| - 1])[k] {
      PositionTrunc(s, |s| - 1, k);
    }
  }

  /** Concatenating one `arange` per run numbers each entry by its place in its run. */
  lemma {:induction false} ArangesArePositions(s: seq<Bunch>)
    ensures Aranges(RunLengths(s)) == Positions(s)
    decreases |s|
  {
    if |s| > 0 {
      ArangesArePositions(s[..|s| - 1]);
      ArangesLast(s);
      PositionsLast(s);
    }
  }

  /** One more entry appends its position within its run to the concatenated aranges. */
  lemma {:induction false} ArangesLast(s: seq<Bunch>)
    requires |s| > 0
    ensures Aranges(RunLengths(s)) == Aranges(RunLengths(s[..|s| - 1])) + [Position(s, |s| - 1)]
  {
    var cs := RunLengths(s[..|s| - 1]);
    PositionTrunc(s, |s| - 1, |s| - 2);
    if |s| > 1 && s[|s| - 2] == s[|s| - 1] {
      ExtendRun(cs, Aranges(cs));
    } else {
      ArangesSnoc(cs, 1);
      assert Range(1) == [0];
    }
  }

  /** Lengthening the last run by one appends its old length to the numbering. */
  lemma {:induction false} ExtendRun(cs: seq<nat>, ps: seq<nat>)
    requires |cs| > 0 && Aranges(cs) == ps
    ensures Aranges(cs[..|cs| - 1] + [cs[|cs| - 1] + 1]) == ps + [cs[|cs| - 1]]
  {
    var init, c := cs[..|cs| - 1], cs[|cs| - 1];
    assert cs == init + [c];
    ArangesSnoc(init, c);
    ArangesSnoc(init, c + 1);
    RangeSnoc(c);
  }

  /** How many entries of `xs` equal `x`. */
  function CountOf(xs: seq<Bunch>, x: Bunch): nat
    decreases |xs|
  {
    if |xs| == 0 then 0 else CountOf(xs[..|xs| - 1], x) + (if xs[|xs| - 1] == x then 1 else 0)
  }

  lemma {:induction false} CountOfNone(xs: seq<Bunch>, x: Bunch)
    requires forall j :: 0 <= j < |xs| ==> xs[j] != x
    ensures CountOf(xs, x) == 0
    decreases |xs|
  {
    if |xs| > 0 {
      CountOfNone(xs[..|xs| - 1], x);
    }
  }

  /**
   * In a sorted index, an entry's place in its run is the number of earlier
   * entries with the same (trainId, pulseId): the electrons of each pulse are
   * numbered 0, 1, ... in order.
   */
  lemma {:induction false} PositionCountsEqual(s: seq<Bunch>, k: nat)
    requires Sorted(s) && k < |s|
    ensures Position(s, k) == CountOf(s[..k], s[k])
    decreases k
  {
    if k > 0 {
      assert s[..k][..k - 1] == s[..k - 1];
      if s[k] == s[k - 1] {
        PositionCountsEqual(s, k - 1);
      } else {
        forall j | 0 <= j < k - 1 ensures s[j] != s[k] {
          assert Le(s[j], s[k - 1]) && Le(s[k - 1], s[k]);
        }
        CountOfNone(s[..k - 1], s[k]);
      }
    }
  }

  /** A sorting indexer for `mb`: a permutation of its positions under which it reads in order. */
  predicate SortingIndexer(mb: seq<Bunch>, perm: seq<nat>)
  {
    && |perm| == |mb|
    && (forall k :: 0 <= k < |perm| ==> perm[k] < |mb|)
    && (forall k, l :: 0 <= k < l < |perm| ==> perm[k] != perm[l])
    && Sorted(Reorder(mb, perm))
  }

  /** `xs[indexer]` for an integer-array indexer. */
  function Reorder<T>(xs: seq<T>, perm: seq<nat>): (r: seq<T>)
    requires forall k :: 0 <= k < |perm| ==> perm[k] < |xs|
    ensures |r| == |perm| && forall k :: 0 <= k < |perm| ==> r[k] == xs[perm[k]]
  {
    seq(|perm|, k requires 0 <= k < |perm| => xs[perm[k]])
  }

  function Identity(n: nat): (r: seq<nat>)
    ensures |r| == n && forall k :: 0 <= k < n ==> r[k] == k
  {
    seq(n, k requires 0 <= k < n => k)
  }

  /** An entry of the per-electron MultiIndex: (trainId, pulseId, electronId). */
  type Triple = (int, int, nat)

  /**
   * `pulse_index`: the pairs are sorted only when they are not already in
   * order (`slice(None)` then indexes nothing away); an empty index raises
   * ValueError in `np.concatenate`. The train level is the unsorted repeated
   * train ids, the pulse level the sorted pulse ids, and the electron level
   * one `arange` per run. `sortIndexer` stands for the indexer pandas returns.
   */
  function PulseIndex(trains: seq<int>, pulses: seq<seq<real>>, width: nat, offset: int, sortIndexer: seq<nat>)
    : (r: Result<(seq<Triple>, seq<nat>)>)
    requires |trains| == |pulses| && forall i :: 0 <= i < |pulses| ==> |pulses[i]| == width
    requires var mb := Microbunches(trains, pulses, width, offset); Sorted(mb) || SortingIndexer(mb, sortIndexer)
    ensures r.Err? <==> |trains| * width == 0
    ensures r.Err? ==> r.error == ValueError
    ensures r.Ok? ==> |r.value.0| == |r.value.1| == |trains| * width
  {
    var mb := Microbunches(trains, pulses, width, offset);
    var indexer := if Sorted(mb) then Identity(|mb|) else sortIndexer;
    var sorted := Reorder(mb, indexer);
    var electrons := Aranges(RunLengths(sorted));
    if |RunLengths(sorted)| == 0 then Err(ValueError)
    else
      ArangesArePositions(sorted);
      Ok((seq(|mb|, k requires 0 <= k < |mb| => (mb[k].0, sorted[k].1, electrons[k])), indexer))
  }

  /**
   * The per-electron index: its pulse level is the pulse ids shifted down by
   * the offset, read in sorted order, and each electron id counts the earlier
   * electrons of the same (trainId, pulseId) in that order. An index that is
   * already sorted is kept in place.
   */
  lemma {:induction false} ElectronNumbering(trains: seq<int>, pulses: seq<seq<real>>, width: nat, offset: int,
                          sortIndexer: seq<nat>, k: nat)
    requires |trains| == |pulses| && forall i :: 0 <= i < |pulses| ==> |pulses[i]| == width
    requires var mb := Microbunches(trains, pulses, width, offset); Sorted(mb) || SortingIndexer(mb, sortIndexer)
    requires k < |trains| * width
    ensures var mb := Microbunches(trains, pulses, width, offset);
            var r := PulseIndex(trains, pulses, width, offset, sortIndexer).value;
            var sorted := Reorder(mb, r.1);
            && Sorted(sorted)
            && r.0[k].0 == mb[k].0
            && r.0[k].1 == sorted[k].1
            && r.0[k].2 == CountOf(sorted[..k], sorted[k])
            && (Sorted(mb) ==> r.1 == Identity(|mb|) && sorted == mb)
  {
    var mb := Microbunches(trains, pulses, width, offset);
    var r := PulseIndex(trains, pulses, width, offset, sortIndexer).value;
    var sorted := Reorder(mb, r.1);
    if Sorted(mb) {
      assert sorted == mb;
    }
    ArangesArePositions(sorted);
    PositionCountsEqual(sorted, k);
  }

  /** No value of the row is NaN. */
  predicate AllPresent(row: seq<Option<real>>)
  {
    forall c :: 0 <= c < |row| ==> row[c].Some?
  }

  /** `dropna()` then `drop(index=arange(-offset, 0), level="pulseId")`: the rows kept. */
  function ElectronMask(index: seq<Triple>, rows: seq<seq<Option<real>>>, offset: int): (keep: seq<bool>)
    requires |rows| == |index|
    ensures |keep| == |index|
    ensures forall k :: 0 <= k < |index| ==> keep[k] == (AllPresent(rows[k]) && !(-offset <= index[k].1 < 0))
  {
    seq(|index|, k requires 0 <= k < |index| => AllPresent(rows[k]) && !(-offset <= index[k].1 < 0))
  }

  /**
   * `df_electron`: the channel rows are put in index order by the indexer,
   * then rows holding a NaN and rows whose pulse id lies in [-offset, 0) are
   * dropped, keeping order.
   */
  function ElectronFrame(index: seq<Triple>, indexer: seq<nat>, rows: seq<seq<Option<real>>>, offset: int)
    : (r: (seq<Triple>, seq<seq<Option<real>>>))
    requires |indexer| == |index| && forall k :: 0 <= k < |indexer| ==> indexer[k] < |rows|
    ensures |r.0| == |r.1| <= |index|
  {
    var ordered := Reorder(rows, indexer);
    var keep := ElectronMask(index, ordered, offset);
    (Select(index, keep), Select(ordered, keep))
  }

  /**
   * Every kept electron row holds no NaN and has a pulse id outside
   * [-offset, 0), which means its raw pulse id lies outside [0, offset); and
   * every row meeting both conditions is kept, in order.
   */
  lemma {:induction false} ElectronRowsKept(index: seq<Triple>, indexer: seq<nat>, rows: seq<seq<Option<real>>>, offset: int, j: nat)
    requires |indexer| == |index| && forall k :: 0 <= k < |indexer| ==> indexer[k] < |rows|
    ensures var (idx, data) := ElectronFrame(index, indexer, rows, offset);
            j < |idx| ==> AllPresent(data[j]) && !(0 <= idx[j].1 + offset < offset)
    ensures var (idx, data) := ElectronFrame(index, indexer, rows, offset);
            var ordered := Reorder(rows, indexer);
            var keep := ElectronMask(index, ordered, offset);
            j < |index| && AllPresent(ordered[j]) && !(-offset <= index[j].1 < 0) ==>
              Count(keep[..j]) < |idx| && idx[Count(keep[..j])] == index[j] && data[Count(keep[..j])] == ordered[j]
  {
    var ordered := Reorder(rows, indexer);
    var keep := ElectronMask(index, ordered, offset);
    if j < Count(keep) {
      SelectOnlyKept(index, keep, j);
      SelectOnlyKept(ordered, keep, j);
      var i :| 0 <= i < |index| && keep[i] && Count(keep[..i]) == j && Select(index, keep)[j] == index[i];
      var i' :| 0 <= i' < |ordered| && keep[i'] && Count(keep[..i']) == j && Select(ordered, keep)[j] == ordered[i'];
      CountDistinct(keep, i, i');
    }
    if j < |index| && keep[j] {
      SelectAt(index, keep, j);
      SelectAt(ordered, keep, j);
    }
  }

  /** Two kept positions with the same number of kept positions before them are the same position. */
  lemma {:induction false} CountDistinct(keep: seq<bool>, i: nat, i': nat)
    requires i < |keep| && i' < |keep| && keep[i] && keep[i'] && Count(keep[..i]) == Count(keep[..i'])
    ensures i == i'
  {
    if i < i' {
      CountGrows(keep, i, i');
    } else if i' < i {
      CountGrows(keep, i', i);
    }
  }

  lemma {:induction false} CountGrows(keep: seq<bool>, i: nat, l: nat)
    requires i < l <= |keep| && keep[i]
    ensures Count(keep[..i]) < Count(keep[..l])
    decreases l - i
  {
    if l == i + 1 {
      SelectAt(keep[..l], keep[..l], i);
      assert keep[..l][..i] == keep[..i];
    } else {
      CountGrows(keep, i, l - 1);
      CountMono(keep, l - 1);
    }
  }

  lemma {:induction false} CountMono(keep: seq<bool>, l: nat)
    requires l < |keep|
    ensures Count(keep[..l]) <= Count(keep[..l + 1])
  {
    assert keep[..l + 1][..l] == keep[..l];
  }

  /** The per-train index of `df_train`: each train id with pulse id 0 and electron id 0. */
  function TrainIndex(keys: seq<int>): (r: seq<Triple>)
    ensures |r| == |keys|
    ensures forall i :: 0 <= i < |keys| ==> r[i] == (keys[i], 0, 0)
  {
    seq(|keys|, i requires 0 <= i < |keys| => (keys[i], 0, 0))
  }

  /** One per-train series: its column name and its index. */
  datatype Series = Series(name: string, index: seq<Triple>)

  /** The series `df_train` concatenates for channels `i..`: "dldAux" yields one per auxiliary channel. */
  function TrainSeriesFrom(channels: seq<string>, keys: seq<seq<int>>, auxNames: seq<string>, i: nat): seq<Series>
    requires |keys| == |channels| && i <= |channels|
    decreases |channels| - i
  {
    if i == |channels| then []
    else
      var index := TrainIndex(keys[i]);
      var here := if channels[i] == "dldAux"
                  then seq(|auxNames|, a requires 0 <= a < |auxNames| => Series(auxNames[a], index))
                  else [Series(channels[i], index)];
      here + TrainSeriesFrom(channels, keys, auxNames, i + 1)
  }

  /**
   * The series loop of `df_train`: `keys[i]` is the train index read for
   * channel `i`, `auxNames` the names of `dldAuxChannels`.
   */
  method TrainSeries(channels: seq<string>, keys: seq<seq<int>>, auxNames: seq<string>) returns (series: seq<Series>)
    requires |keys| == |channels|
    ensures series == TrainSeriesFrom(channels, keys, auxNames, 0)
  {
    series := [];
    var i := 0;
    while i < |channels|
      invariant 0 <= i <= |channels|
      invariant series + TrainSeriesFrom(channels, keys, auxNames, i) == TrainSeriesFrom(channels, keys, auxNames, 0)
    {
      var index := TrainIndex(keys[i]);
      ghost var before := series;
      if channels[i] == "dldAux" {
        for a := 0 to |auxNames|
          invariant series == before + seq(a, b requires 0 <= b < a => Series(auxNames[b], index))
        {
          series := series + [Series(auxNames[a], index)];
        }
      } else {
        series := series + [Series(channels[i], index)];
      }
      i := i + 1;
    }
  }

  /**
   * Every per-train series is indexed by one of the channels' train indexes,
   * with pulse id and electron id 0 throughout.
   */
  lemma {:induction false} TrainSeriesShape(channels: seq<string>, keys: seq<seq<int>>, auxNames: seq<string>,
                                            i: nat, s: nat, e: nat)
    requires |keys| == |channels| && i <= |channels|
    requires s < |TrainSeriesFrom(channels, keys, auxNames, i)|
    requires e < |TrainSeriesFrom(channels, keys, auxNames, i)[s].index|
    ensures var t := TrainSeriesFrom(channels, keys, auxNames, i)[s].index[e];
            t.1 == 0 && t.2 == 0 &&
            exists c :: i <= c < |channels| && |keys[c]| == |TrainSeriesFrom(channels, keys, auxNames, i)[s].index|
                                            && t.0 == keys[c][e]
    decreases |channels| - i
  {
    var here := if channels[i] == "dldAux"
                then seq(|auxNames|, a requires 0 <= a < |auxNames| => Series(auxNames[a], TrainIndex(keys[i])))
                else [Series(channels[i], TrainIndex(keys[i]))];
    var all := TrainSeriesFrom(channels, keys, auxNames, i);
    assert all == here + TrainSeriesFrom(channels, keys, auxNames, i + 1);
    if s < |here| {
      assert all[s] == here[s];
      assert here[s].index == TrainIndex(keys[i]);
    } else {
      assert all[s] == TrainSeriesFrom(channels, keys, auxNames, i + 1)[s - |here|];
      TrainSeriesShape(channels, keys, auxNames, i + 1, s - |here|, e);
    }
  }
}
