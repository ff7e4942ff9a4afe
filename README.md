# sed binning engine, configuration and FEL loader helpers in Dafny

This project models the core of `sed`, a Python package for processing
single-event (photoemission) data. Events live in a partitioned data frame.
`sed` turns them into N-dimensional histograms, configures itself from layered
dictionaries, and prepares detector columns before binning.

The model covers these parts:

- **Binning-argument normaliser** (`sed/binning/utils.py`). It turns an int,
  a list of ints, 3-tuples, edge arrays or a dict into one edge array per axis
  plus the axis names. The module also holds the edge↔centre converters and
  `_arraysum`.
- **Partition binning** (`bin_partition`). This covers the jitter plan (a
  list or a dict, with defaults), the jitter step per axis, jitter applied to
  a copy of the binned columns, and the choice of histogram kernel. The kernel
  itself is given as a specification: counts per cell, the last edge
  inclusive, out-of-range values dropped.
- **Whole-frame binning** (`bin_dataframe`). Partitions are processed in
  batches of `n_cores`. Their histograms are combined in the modes "fast"
  (slabs along the first axis), "lean" and "legacy", or stacked along a
  `df_part` axis.
- **Configuration**: `complete_dictionary`, `load_config`'s suffix dispatch
  and the precedence chain of `parse_config` (`sed/core/config.py`); the
  lenient `insert_default_config` and its `parse_config` (`sed/settings.py`).
- **`MetaHandler`** (`sed/core/metadata.py`), a class whose store `add`
  updates under the duplicate policies overwrite/raise/append/merge, and
  `add_processing`.
- **Data-frame operations** (`sed/core/dfops.py`): `apply_filter`,
  `drop_column`, `apply_jitter` and `map_columns_2d`.
- **8-sector detector decoding** (`sed/calibrator/hextof.py`): unravel the
  sector id and time step, align the sectors by their delays, and convert
  steps to nanoseconds.
- **`ParquetHandler`** path validation and naming (`sed/loader/fel/parquet.py`).
- **FEL data-frame creator** (`sed/loader/fel/dataframe.py`): derivation and
  validation of channel keys, per-pulse electron numbering, the dropping of
  electron rows, and the per-train index.

A data frame is a `Table`: a map from column names to equal-length
sequences of reals. Where the source changes a frame in place, the model uses
a `DataFrame` class holding a table. Dicts are sequences of key/value entries
in insertion order. Exceptions are `Result`/`Outcome` values naming the Python
exception class. Noise, the sort order pandas computes, file contents and
"is a file" tests are parameters.

## Model

| member | source | states |
|---|---|---|
| BinningUtils.SimplifyBinningArguments | sed/binning/utils.py:18-146 | The loop-based normaliser returns exactly `Simplify`, the specification the lemmas below characterise. |
| BinningUtils.UnzipDict | sed/binning/utils.py:74-80 | The keys and values of the bins dict, in iteration order. |
| BinningUtils.SplitTupleBins | sed/binning/utils.py:103-114 | The tuple loop splits each 3-tuple into a range and a count; a first tuple not of length 3 is an error. |
| BinningUtils.ExplodeCounts | sed/binning/utils.py:117-133 | The count loop turns counts into `linspace` edge arrays over the ranges; no ranges raises AttributeError. |
| BinningUtils.LinspaceShape | sed/binning/utils.py:126-131 | `linspace(lo, hi, n)` starts at `lo`, ends at `hi` and is evenly spaced. |
| BinningUtils.StrAxesIsList | sed/binning/utils.py:70-71 | A string `axes` behaves exactly as the one-element list holding it. |
| BinningUtils.DictGivesAxes | sed/binning/utils.py:74-80 | Dict bins give the dict keys as axes and the values as bins, in order, whatever `axes` was passed. |
| BinningUtils.IntRepeated | sed/binning/utils.py:83-84 | A single int count is repeated once per axis; without a list of axes the call raises TypeError. |
| BinningUtils.AxesErrors | sed/binning/utils.py:91-100 | Missing axes raise AttributeError; a non-string axis raises TypeError. |
| BinningUtils.OtherBinsRejected | sed/binning/utils.py:87-88 | Bins of any other type raise TypeError. |
| BinningUtils.TuplesGiveRanges | sed/binning/utils.py:103-114 | All-tuple bins become edge arrays over `(t[0], t[1])` with `t[2]` bins, overriding the `ranges` argument. |
| BinningUtils.CountsBecomeEdges | sed/binning/utils.py:117-133 | All-int bins without ranges raise AttributeError; with ranges, count n becomes n+1 evenly spaced edges from low to high. |
| BinningUtils.ShapeErrors | sed/binning/utils.py:136-144 | A non-array entry left after conversion raises TypeError; an axes/bins length mismatch raises AttributeError. |
| BinningUtils.SimplifyShape | sed/binning/utils.py:136-146 | On success there is one edge array per axis name and at least one axis. |
| BinningUtils.SimplifyIdempotent | sed/binning/utils.py:136-146 | Normalised output fed back in is returned unchanged, whatever ranges are passed. |
| BinningUtils.BinEdgesToBinCenters | sed/binning/utils.py:149-161 | n edges give n-1 centres. |
| BinningUtils.CenterInBin | sed/binning/utils.py:159 | Each centre is the midpoint of its bin and lies inside it. |
| BinningUtils.BinCentersToBinEdges | sed/binning/utils.py:164-190 | n >= 2 centres give n+1 edges; fewer raise IndexError. |
| BinningUtils.CentersRoundTrip | sed/binning/utils.py:173-188 | Centres→edges→centres keeps the first and last centre, and returns the centres exactly iff they are evenly spaced. |
| BinningUtils.EvenCentersReturn | sed/binning/utils.py:173-188 | Evenly spaced centres survive the round trip. |
| BinningUtils.CenterOfEdges | sed/binning/utils.py:159 | After centres→edges→centres the outer centres come back exactly, and an interior centre i becomes (c[i-1] + 2c[i] + c[i+1]) / 4. |
| BinningUtils.EdgesRoundTrip | sed/binning/utils.py:159 | Evenly spaced edges (at least three) go to centres and back unchanged. |
| BinningUtils.EdgeOfCenters | sed/binning/utils.py:173-188 | The same round trip pointwise: edge i comes back as itself. |
| Histogram.BinIndex | sed/binning/binning.py:136-147 | The kernel's bin search: no bin iff the value is outside [e0, e_last]; otherwise `e[i] <= v <= e[i+1]`, with `v < e[i+1]` unless i is the last bin. |
| Histogram.RightEdgeInLastBin | sed/binning/binning.py:136-147 | The rightmost edge is counted in the last bin. |
| Histogram.BinIndexUnique | sed/binning/binning.py:136-147 | A value inside the half-open bin i is placed in bin i. |
| Histogram.CellOf | sed/binning/binning.py:136-147 | A row that falls in a cell gets a flat index below the grid size. |
| Histogram.HistCounts | sed/binning/binning.py:136-147 | Each cell of the histogram counts exactly the rows that fall into it. |
| Histogram.HistAppend | sed/binning/binning.py:136-147 | The histogram of two runs of events is the sum of their histograms. |
| Histogram.Kernel | sed/binning/binning.py:136-147 | The kernel raises ValueError when some edge array is not increasing, otherwise IndexError when some edge array is empty, and no error else; on success it returns the histogram `Hist`, one count per cell, whose cells `HistCounts` characterises. |
| Binning.FromKeys | sed/binning/binning.py:113-114 | `{k: None for k in jitter}` holds each listed column once, with default settings. |
| Binning.JitterStep | sed/binning/binning.py:115-131 | Unbinned columns are skipped. For a binned column the step is the amplitude (0.5 by default) × the first-bin width `abs(e[0]-e[1])`, which must equal `abs(e[-3]-e[-2])` (else AssertionError). Fewer than 3 edges raise IndexError. |
| Binning.Jittered | sed/binning/binning.py:393-419 | Jittering one column changes only that column and keeps the row count. |
| Binning.ApplyJitterOnColumn | sed/binning/binning.py:393-419 | An in-place update of the column; a missing column gives KeyError and leaves the frame as it was. |
| Binning.JitterBound | sed/binning/binning.py:414 | Uniform jitter moves each value by at most the absolute jitter step (noise bounded by 1). |
| Binning.Selection | sed/binning/binning.py:111 | `part[axes].copy()` has exactly the binned columns, with the partition's values. |
| Binning.RowsOf | sed/binning/binning.py:133-135 | The kernel's input has one row per event and, in axis order, one value per axis. |
| Binning.UnbinnedJitterIgnored | sed/binning/binning.py:115-132 | Jitter entries naming no binned column change nothing. |
| Binning.JitterKeepsOtherColumns | sed/binning/binning.py:115-132 | The jitter loop never touches a column outside its entries. |
| Binning.HistogramBy | sed/binning/binning.py:136-152 | "numba" computes the kernel's counts; "numpy" first raises ValueError when `ranges` is given with another number of entries than axes, and otherwise computes the same counts; both pass on the kernel's errors (ValueError for decreasing edges, IndexError for an empty edge array); any other mode raises ValueError. |
| Binning.NegativeCountRaises | sed/binning/utils.py:123-131 | A bin count of -1 with a range normalises to an empty edge array, and both kernels then raise IndexError. |
| Binning.NumpyRangesChecked | sed/binning/binning.py:142-147 | With a `ranges` of the wrong length, a partition binned with "numpy" raises ValueError, while "numba" bins it as usual. |
| Binning.PartitionHistogram | sed/binning/binning.py:100-157 | A missing binned column raises KeyError; a histogram has one value per cell. |
| Binning.PartitionCounts | sed/binning/binning.py:133-147 | Without jitter, each cell counts the partition's own events in it. |
| Binning.ListIsDefaultDict | sed/binning/binning.py:113-114 | A jitter list is the same as a dict mapping those columns to default settings. |
| Binning.JitterSelection | sed/binning/binning.py:110-133 | The jitter loop over the copy ends in the specified table or the first error. |
| Binning.BinPartition | sed/binning/binning.py:27-157 | `bin_partition` with `skip_test=True` returns exactly the specified histogram or error, and never modifies the partition. |
| Binning.BinPartitionAsWritten | sed/binning/binning.py:101 | The call as written: the normaliser's error, or ValueError from unpacking two values into three names. |
| Binning.AsWrittenNeverBins | sed/binning/binning.py:101 | The as-written `bin_partition` never produces a histogram. |
| Binning.BinPartitionChecked | sed/binning/binning.py:100-157 | With the two results unpacked correctly, a normaliser error passes through, and a histogram fits the normalised edges. |
| Reduction.ArraySum | sed/binning/utils.py:13-15 | `_arraysum` is the elementwise sum. |
| Reduction.ReduceIsSum | sed/binning/binning.py:322 | `reduce(_arraysum, results)` adds up every result cell by cell. |
| Reduction.AccumulateLegacy | sed/binning/binning.py:311-317 | The legacy accumulation loop yields the cell-wise sum of all results. |
| Reduction.CombineLean | sed/binning/binning.py:320-325 | Lean mode adds the batch's cell-wise sum to the running total. |
| Reduction.SlabBounds | sed/binning/binning.py:336-338 | The slab starts `int(j*N/n_cores)` begin at 0, end at N and never decrease. |
| Reduction.SlabOf | sed/binning/binning.py:351-354 | Every row of the first axis lies in exactly one core's slab, including when n_cores > N. |
| Reduction.SliceEach | sed/binning/binning.py:340-344 | The slice loop takes the same slab of every result. |
| Reduction.CombineSlab | sed/binning/binning.py:328-345 | A core's combined slab is the cell-wise sum of the results over that slab. |
| Reduction.CombineSlabs | sed/binning/binning.py:328-347 | One combined slab per core, each for its own rows. |
| Reduction.AddSlab | sed/binning/binning.py:350-356 | Writing a core's slab back adds exactly that slab's sums to the same positions. |
| Reduction.CombineFast | sed/binning/binning.py:327-356 | Fast mode adds the batch's cell-wise sum to the running total, the same as lean mode. |
| Reduction.Stack | sed/binning/binning.py:366-374 | `np.stack(axis=-1)` puts cell k of partition p at `[k][p]`; stacking nothing raises ValueError. |
| Reduction.StackSum | sed/binning/binning.py:366-374 | Summing the stacked array along `df_part` gives the combined histogram. |
| Reduction.SumAtAppend | sed/binning/binning.py:303-325 | Summing two runs of results in turn is adding their sums. |
| BinDataframe.Collect | sed/binning/binning.py:278-304 | The collected results of the first k tasks, one per task. |
| BinDataframe.CollectFirstError | sed/binning/binning.py:278-304 | Collection succeeds iff every task does, then returns their results in order; otherwise it gives the first failing task's error. |
| BinDataframe.FirstErrorSticks | sed/binning/binning.py:278-304 | Once a task fails, every later batch ends in its error. |
| BinDataframe.PartResults | sed/binning/binning.py:287-301 | One result per partition, and every histogram has the grid's size. |
| BinDataframe.BinOne | sed/binning/binning.py:287-301 | One task runs `bin_partition` on exactly its own partition. |
| BinDataframe.ComputeBatch | sed/binning/binning.py:278-304 | A batch bins partitions i..min(i+n_cores, N)-1 in order and extends the finished prefix by them, or ends in the first failure. |
| BinDataframe.BatchTask | sed/binning/binning.py:287-301 | One task bins its partition: on success the finished prefix grows by that histogram, of the grid's size; on failure every longer prefix ends in that error. |
| BinDataframe.Arange | sed/binning/binning.py:367 | The `df_part` coordinate is 0..N-1. |
| BinDataframe.Centers | sed/binning/binning.py:251-252 | The corrected coordinates (third Findings row): each axis has one value per bin, where the edge arrays the source uses have one too many. |
| BinDataframe.NewDataArray | sed/binning/binning.py:383-387 | `xr.DataArray` raises ValueError iff some coordinate array's length differs from the size of its dimension, and otherwise holds what it was given. |
| BinDataframe.Package | sed/binning/binning.py:366-387 | The packaging with bin-centre coordinates fails only when there is nothing to stack or no legacy batch sum, and every array it returns has one coordinate per cell along each axis. |
| BinDataframe.PackageAsWritten | sed/binning/binning.py:251-252 | The packaging with the edge arrays as coordinates, as written; any array xarray accepts from it has fitting coordinates. |
| BinDataframe.EdgeCoordsRejected | sed/binning/binning.py:251-252 | With any non-empty edge array the as-written packaging fails, with ValueError wherever the corrected packaging succeeds. |
| BinDataframe.CoordsExample | sed/binning/binning.py:251-252 | Edges [0, 1, 2] in the legacy mode: ValueError as written, and centres [0.5, 1.5] once corrected. |
| BinDataframe.BinWithEdges | sed/binning/binning.py:264-387 | The batch loop and packaging return exactly the specified result, with the array sized by bin counts and bin-centre coordinates (second and third Findings rows). |
| BinDataframe.CombineBatch | sed/binning/binning.py:306-362 | Per mode, a batch is kept per partition, summed into one legacy result, or added into the full array; either way the running total equals the sum over all finished partitions, and the full array is untouched when it is not the accumulator. |
| BinDataframe.Finish | sed/binning/binning.py:366-387 | Packaging the accumulated results gives exactly the specified data array: partitions stacked along `df_part`, or the summed histogram (legacy with no partitions raises IndexError), with bin-centre coordinates (third Findings row). |
| BinDataframe.BinDataframe | sed/binning/binning.py:160-390 | `bin_dataframe`, normaliser included, returns exactly the specified result, with the three corrections listed under Findings; the caller's `ranges` reach every partition's histogram call. |
| BinDataframe.PartitionsAddUp | sed/binning/binning.py:303-387 | Without jitter, the partition histograms add up to the histogram of all events, in partition order. |
| BinDataframe.CombinedIsHistogramOfAll | sed/binning/binning.py:303-387 | Every mode and every batch size yields, cell by cell, the count of all events of the frame. |
| BinDataframe.PartitionsSumToCombined | sed/binning/binning.py:366-387 | Summing the per-partition results over `df_part` equals the combined result. |
| BinDataframe.FullShapeAsWritten | sed/binning/binning.py:264-269 | The allocated shape is the number of edges per axis. |
| BinDataframe.FullShapeTooLarge | sed/binning/binning.py:264-269 | That shape has more cells than any histogram over those edges. |
| BinDataframe.FullShapeExample | sed/binning/binning.py:264-269 | With three edges the array has 3 cells and the histogram has 2. |
| BinDataframe.BinDataframeAsWritten | sed/binning/binning.py:248 | The as-written `bin_dataframe` always ends in an error, ValueError whenever normalising succeeds. |
| Config.LoadConfig | sed/core/config.py:123-136 | Not a file raises FileNotFoundError; ".json"/".yaml" give the parsed dict; any other suffix raises TypeError. |
| Config.Suffix | sed/core/config.py:129 | pathlib's suffix is a dot plus at least one character, taken from the end of the final path component. |
| Config.CompleteDictionary | sed/core/config.py:141-166 | The completion loop returns exactly the strict `Fill`. |
| Config.CompleteEntry | sed/core/config.py:153-164 | One key of the loop: a base dict meeting a non-dict raises ValueError, dicts merge recursively, a missing key takes the base value and an existing leaf stays. |
| Config.ParseConfig | sed/core/config.py:14-107 | The first load error, or the explicit config completed from folder, user and default in turn. |
| Config.CompleteFromLayers | sed/core/config.py:87-100 | Completing from the folder dict, then the user dict (each only when loaded), then the default gives exactly the chained completion. |
| Config.ChainPrecedence | sed/core/config.py:87-100 | The result holds the union of all sources' keys, and a non-dict value comes from the first source that holds it. |
| Completion.FillGet | sed/core/config.py:152-164 | Each key of the completed dict holds what the per-key rule expects. |
| Completion.FillKeys | sed/core/config.py:152-155 | The completed dict's keys are the union of both dicts' keys. |
| Completion.FillKeepsLeaf | sed/core/config.py:162-164 | An existing non-dict value is never overwritten. |
| Completion.FillTakesMissing | sed/core/config.py:152-155 | A missing key takes the base value. |
| Completion.FillOrder | sed/core/config.py:152-166 | Existing keys keep their order, and new keys follow in base order. |
| Completion.FillErrIff | sed/core/config.py:157-160 | Completion fails iff somewhere a base dict meets a non-dict. |
| Completion.MismatchFails | sed/core/config.py:157-160 | A base dict facing a non-dict raises. |
| Completion.FillWellFormed | sed/core/config.py:141-166 | The completed dict has distinct keys at every level and covers the base. |
| Completion.FillIdempotent | sed/settings.py:92-102 | Completing twice from the same base equals completing once. |
| Settings.InsertDefaultConfig | sed/settings.py:81-102 | The completion loop returns exactly the lenient `Fill`: missing keys inserted, non-dict values kept, dicts merged recursively. |
| Settings.InsertEntry | sed/settings.py:93-100 | One key of the loop: a non-empty base dict meeting a non-dict raises AttributeError, an empty one leaves it, dicts merge recursively, a missing key takes the default. |
| Settings.ParseConfig | sed/settings.py:35-47 | The config completed from the default, or the first load error. |
| Settings.StrictRefinesLenient | sed/settings.py:93-100 | Where the strict completion succeeds, the lenient one gives the same value. |
| Settings.StrictRefinesLenientFrom | sed/settings.py:92-101 | The same over a whole dict. |
| Metadata.NatToStringInjective | sed/core/metadata.py:53 | Distinct counters render as distinct decimal strings. |
| Metadata.SuffixedInjective | sed/core/metadata.py:53 | `f"{name}_{i}"` differs for different i. |
| Metadata.FirstFreeSuffix | sed/core/metadata.py:50-57 | The search ends at the least i >= 1 whose `name_i` is not a key. |
| Metadata.MetaHandler.constructor | sed/core/metadata.py:13-14 | The store is the given dict, or empty. |
| Metadata.MetaHandler.GetItem | sed/core/metadata.py:16-17 | A stored key gives its section; any other key raises KeyError. |
| Metadata.MetaHandler.Add | sed/core/metadata.py:23-66 | Absent name or overwrite stores the entry; raise fails and leaves the store unchanged; append stores under the first free `name_i`; merge completes the section; any other policy raises ValueError. |
| Metadata.MetaHandler.AddProcessing | sed/core/metadata.py:68-77 | Stores the keywords under the method inside "processing"; a missing section raises KeyError. |
| Metadata.MergeKeepsAndGains | sed/core/metadata.py:59-60 | A merged section keeps its keys and non-dict values, and gains exactly the keys it lacked. |
| DfOps.ApplyFilter | sed/core/dfops.py:90-111 | A missing column raises KeyError; kept rows satisfy `lower < v < upper` and every column survives. |
| DfOps.FilterKeepsPassing | sed/core/dfops.py:109 | Every passing row is kept, in order, at the position given by the passing rows before it. |
| DfOps.FilterTwice | sed/core/dfops.py:96-109 | Two consecutive filters equal one filter on the conjunction of their conditions. |
| DfOps.FilterCommutes | sed/core/dfops.py:96-109 | The order of two filters does not matter. |
| DfOps.MaskSelect | sed/core/dfops.py:109 | Filtering then testing equals testing then filtering. |
| DfOps.DropColumn | sed/core/dfops.py:72-87 | KeyError iff a named column is missing; otherwise exactly the other columns, unchanged. |
| DfOps.JitterPlan | sed/core/dfops.py:41-54 | Missing `cols` or an unknown type raise AssertionError; strings are wrapped; names default to `col + "_jittered"`; a scalar amplitude is broadcast. |
| DfOps.AddScaledBound | sed/core/dfops.py:60-67 | With noise in [-1, 1], each value moves by at most the amplitude. |
| DfOps.ApplyJitter | sed/core/dfops.py:15-69 | The in-place column loop gives exactly the planned columns, or AssertionError with the frame unchanged. |
| DfOps.JitterKeys | sed/core/dfops.py:66-67 | No column is lost, and every output name is added. |
| DfOps.JitterUnchanged | sed/core/dfops.py:66-67 | Source columns that are not outputs stay as they were. |
| DfOps.JitterValues | sed/core/dfops.py:60-67 | Each output column is its source plus the shared noise scaled by its amplitude. |
| DfOps.JitterPasses | sed/core/dfops.py:66-67 | With every source column present, the loop succeeds. |
| DfOps.MapColumns2D | sed/core/dfops.py:114-142 | A missing input column raises KeyError. Otherwise the columns gain the output names (the inputs' by default); the y output holds the mapping's second value, the x output its first unless both outputs share a name; every other column and the row count are kept. |
| DfOps.MapDefaultsOverwrite | sed/core/dfops.py:133-136 | Without output names, the inputs are overwritten by the mapped values and the other columns are unchanged. |
| DfOps.MapColumns2DInPlace | sed/core/dfops.py:114-142 | The in-place update equals `MapColumns2D`, or KeyError with the frame unchanged. |
| Hextof.Resolve | sed/calibrator/hextof.py:36-43 | A given argument wins; without one, no config raises ValueError and a config missing the key raises KeyError. |
| Hextof.Step | sed/calibrator/hextof.py:46 | `v // 8` is the integer s with 8s <= v < 8s + 8. |
| Hextof.Sector | sed/calibrator/hextof.py:45 | `v % 8` lies in 0..7. |
| Hextof.Reconstruct | sed/calibrator/hextof.py:20-23 | For an integral value, step × 8 + sector gives the value back. |
| Hextof.Unpack | sed/calibrator/hextof.py:45-46 | Packing a step and a sector in 0..7 and decoding gives them back. |
| Hextof.Assign | sed/calibrator/hextof.py:45-46 | Assigning a column sets it and leaves every other column alone. |
| Hextof.Unravel8s | sed/calibrator/hextof.py:13-47 | The in-place decode equals the specified frame, or the specified error. |
| Hextof.UnravelDecodes | sed/calibrator/hextof.py:29-46 | Rows missing the value are dropped. Each kept row's sector lies in 0..7, and step × 8 + sector is the original value. |
| Hextof.PyIndex | sed/calibrator/hextof.py:72 | Python indexing: negative indices count from the end, and anything outside raises. |
| Hextof.AlignedSteps | sed/calibrator/hextof.py:71-75 | Each step minus `sector_delays[sector]`; a sector out of range raises IndexError. |
| Hextof.Aligned | sed/calibrator/hextof.py:50-81 | Delays come from the argument or the config. The row count is kept, and the metadata records `applied` and the delays. |
| Hextof.Align8s | sed/calibrator/hextof.py:50-81 | The in-place alignment equals the specified frame and metadata, or the error with the frame unchanged. |
| Hextof.AlignAfterUnravel | sed/calibrator/hextof.py:45-46 | After decoding, aligning with 8 delays succeeds, subtracts the delay of each row's own sector, and keeps other columns. |
| Hextof.Scaled | sed/calibrator/hextof.py:114-115 | Time = steps × step size, row by row. |
| Hextof.Converted | sed/calibrator/hextof.py:84-123 | The step size and column names come from the arguments or the config; the row count is kept. |
| Hextof.Convert8s | sed/calibrator/hextof.py:84-123 | The in-place conversion equals the specified frame and metadata, or the error with the frame unchanged. |
| Hextof.ConvertInverts | sed/calibrator/hextof.py:114-121 | With a non-zero step size, dividing the time by it gives the steps back. |
| Hextof.ConvertNeedsSize | sed/calibrator/hextof.py:101-112 | ValueError iff some argument is missing and no config is given. |
| Parquet.WrapNames | sed/loader/fel/parquet.py:45-46 | A lone name becomes a one-element list; other inputs are unchanged. |
| Parquet.FileName | sed/loader/fel/parquet.py:77 | The name starts with the prefix and the base name, and ends with "." plus the extension, even an empty one. |
| Parquet.Join | sed/loader/fel/parquet.py:73 | An absolute part replaces the directory; an empty part leaves it; otherwise the path ends with the part. |
| Parquet.NamedPaths | sed/loader/fel/parquet.py:76-79 | One path per name, in name order. |
| Parquet.ParquetHandler.constructor | sed/loader/fel/parquet.py:43 | A new handler has no paths. |
| Parquet.ParquetHandler.InitializePaths | sed/loader/fel/parquet.py:60-79 | A missing subfolder raises TypeError; otherwise the paths are the named files under folder/subfolder. |
| Parquet.NewParquetHandler | sed/loader/fel/parquet.py:32-58 | The constructor raises what the validation raises; otherwise the handler holds the specified paths. |
| Parquet.ValueErrorCases | sed/loader/fel/parquet.py:48-51 | ValueError iff neither folder nor paths are given, or a folder is given without names. |
| Parquet.GivenPathsVerbatim | sed/loader/fel/parquet.py:53-56 | Given paths win, verbatim, and a lone path is wrapped in a list. |
| Parquet.NamedPathsShape | sed/loader/fel/parquet.py:76-79 | Each built path is folder/subfolder joined with `{prefix}{name}{suffix}.{extension}`, in order. |
| FelDataFrame.Lookup | sed/loader/fel/dataframe.py:62 | A channel's configuration is found iff the channel is configured. |
| FelDataFrame.IndexDatasetKey | sed/loader/fel/dataframe.py:49-79 | An unknown channel raises KeyError. `group_name` wins and gives "index" with "time" for timeStamp or "value" otherwise. Explicit keys are returned verbatim, and neither gives ValueError. |
| FelDataFrame.ValidateChannelKeys | sed/loader/fel/dataframe.py:225-237 | The channel loop ends in the specified outcome. |
| FelDataFrame.ValidationIff | sed/loader/fel/dataframe.py:232-237 | Validation passes iff every channel's keys resolve and exist in the file; it fails with ValueError or KeyError. |
| FelDataFrame.ValidatedKeysExist | sed/loader/fel/dataframe.py:232-237 | After validation passes, every channel's index and dataset keys are in the file. |
| FelDataFrame.Microbunches | sed/loader/fel/dataframe.py:125-128 | One (train, pulse) pair per train and pulse slot. |
| FelDataFrame.MicrobunchAt | sed/loader/fel/dataframe.py:126-127 | Slot j of train i holds that train id and the pulse id shifted down by the offset. |
| FelDataFrame.RunLengths | sed/loader/fel/dataframe.py:133 | There is one count per run of equal pairs, and the last count is the last pair's position in its run plus one. |
| FelDataFrame.ArangesArePositions | sed/loader/fel/dataframe.py:133-134 | Concatenating `arange(count)` over the run lengths numbers each pair by its position within its run. |
| FelDataFrame.PositionCountsEqual | sed/loader/fel/dataframe.py:129-134 | On a sorted index, that position is the number of earlier equal pairs. |
| FelDataFrame.PulseIndex | sed/loader/fel/dataframe.py:114-141 | No slots raise ValueError (an empty concatenation). Otherwise the three levels have one entry per slot, and the train level is not reordered by the indexer. |
| FelDataFrame.ElectronNumbering | sed/loader/fel/dataframe.py:126-134 | Each electron id is the number of earlier electrons of the same (train, pulse), so ids run 0..count-1. |
| FelDataFrame.ElectronMask | sed/loader/fel/dataframe.py:174-175 | A row is kept iff all its values are present and its pulse id is outside [-offset, 0). |
| FelDataFrame.ElectronFrame | sed/loader/fel/dataframe.py:168-175 | The kept rows are at most the index's rows, with one index entry per data row. |
| FelDataFrame.ElectronRowsKept | sed/loader/fel/dataframe.py:168-175 | Every kept row qualifies, and every qualifying row is kept in order. |
| FelDataFrame.TrainIndex | sed/loader/fel/dataframe.py:212-215 | Per-train rows are indexed (train, 0, 0). |
| FelDataFrame.TrainSeries | sed/loader/fel/dataframe.py:206-221 | The series loop builds exactly the specified series. |
| FelDataFrame.TrainSeriesShape | sed/loader/fel/dataframe.py:210-221 | There is one series per channel, or one per aux name for dldAux, and each index entry has pulse id 0 and electron id 0. |

## Left out

- Parallelism and resource control (`dask.delayed`/`dask.compute`, `threadpool_limits`, `tqdm`, `gc.collect`) are left out. Partition tasks are evaluated in partition order, because scheduling does not change the sums. Errors that dask raises lazily are raised where the deferred call is built.
- Random numbers are not drawn. The noise of `np.random.uniform`/`normal` is a parameter, bounded in [-1, 1] where a bound is stated.
- float32 casting, floating-point rounding and `np.allclose` are not modelled, because values are exact reals.
- Binning.JitterStep: the uniformity assertion compares exactly instead of with `np.allclose`'s tolerance.
- NaN is represented only as a "missing" mask (hextof `dropna`, FEL `dropna`). `nan_to_num` in the legacy mode is the identity on NaN-free counts.
- The `int8`/`int32` casts of the sector and step columns are not modelled. Values are assumed to fit.
- Hextof.Unravel8s: the `time_sector_column is None` fallback to the config is left out, because it runs after `dropna` on that column and cannot change the result.
- The xarray packaging is reduced to data, dims and coordinates; attributes are left out.
- File I/O is left out. This covers reading json/yaml in `load_config`, `Path.exists`, the h5py file handle, `mkdir`, and the parquet save/read/delete methods. File contents and "is a file" are parameters.
- Parquet.Join: pathlib normalisation (`..`, repeated separators, `resolve`) is left out; only slash-separated strings are handled.
- FelDataFrame.PulseIndex: `sort_values` is not computed. The sort indexer is an input, required to sort the microbunches when they are not already sorted. `value_counts(sort=False)` is modelled as the run lengths of the sorted index, which it equals there.
- FelDataFrame.PulseIndex: the `dropna` of the microbunch index is left out, because pulse ids are numbers in the model.
- `get_dataset_array` (h5 slicing and NaN fill), `df_pulse`, the combined `df` property and the choice between the `all_keys_same` and `concat` data paths in `df_electron` are left out. The electron data rows are an input.
- Configuration values are dicts or opaque atoms. Their types (numbers, lists) are not distinguished.
- Binning.JitterStep: only edge arrays are modelled for the bin size, because `bin_dataframe` always passes edges. The `|hi-lo|/n` branch for int bins is not reachable from it.
- Reduction.ArraySum: numpy broadcasting is not modelled; both arrays have the same shape.
- DfOps.MapColumns2D: the mapping is applied row by row as a pure function of two reals.
- Metadata is stored as plain entries. The `sed.config.settings` import path of `insert_default_config` is taken to be the function in `sed/settings.py`.
- Reduction.SlabBounds: `int(j * N / n_cores)` is taken as exact integer division; the float rounding of very large N is left out.
- Config.CompleteDictionary: dicts are values. The caller's dict is not updated in place and is not returned as the same object; a sub-dict taken from the base is a copy, not shared with the base, so a later layer's merge into it reaches neither the base nor other keys holding the same object; and a ValueError leaves no partial update behind.
- Settings.ParseConfig: the shared mutable default `config={}` of sed/settings.py:14 is not modelled. Every call without `config` starts from an empty dict, whereas in the source that one dict keeps what earlier calls inserted into it (and shares their default sub-dicts), so a later call with another `default_config` keeps the earlier defaults' leaves. By Completion.FillIdempotent this makes no difference while `default_config` stays the same.
- Config.ParseConfig: under the same value semantics, a sub-dict shared by several keys of one layer (a YAML anchor, say) is completed separately under each key.
- Settings.InsertDefaultConfig: the same value semantics. The caller's `config` is not updated in place, an inserted sub-dict of the defaults is not shared, and an AttributeError leaves no partial update behind.
- Metadata.MetaHandler.Add: a failed merge leaves the store unchanged, while the source keeps the keys inserted into the stored section before the AttributeError. The store is not shared with the dict passed to the constructor.
- Histogram.Kernel: the numba kernel lives in `sed/binning/numba_bin.py`, which is not part of this model. It is taken to count as numpy does and to make no check of its own on `ranges`.
- `energy.py`, `wf_steps.py`, `config_model.py`, the flash metadata client, logging, plotting and documentation tooling are not part of this model.

## Findings

| source | as written | input that shows it | evidently intended | confidence | as-written member | corrected member |
|---|---|---|---|---|---|---|
| sed/binning/binning.py:101 | `bins, axes, range = _simplify_binning_arguments(...)` (also at sed/binning/binning.py:248) unpacks three names, but the normaliser returns two values (sed/binning/utils.py:146) | `bins=[10], axes=["x"], ranges=[(0, 1)]`: normalising succeeds and the unpacking raises ValueError | unpack the two returned values `bins, axes` | not executed | Binning.BinPartitionAsWritten, Binning.AsWrittenNeverBins, BinDataframe.BinDataframeAsWritten | Binning.BinPartitionChecked, BinDataframe.BinDataframe |
| sed/binning/binning.py:264-269 | `full_shape` takes `x.size` of each edge array, that is n+1 for n bins | one axis with edges `[0, 1, 2]`: the array has 3 cells and each partition histogram has 2. In "lean" mode `full_result += ...` raises ValueError; in "fast" mode with two cores the last slab is `full_result[1:3] += h[1:2]`, silently broadcast, giving `[h0, h1, h1]`. Adding raises ValueError unless the added part has extent 1 where the shapes differ; "legacy" mode and `return_partitions` never use this array | size the array by bin counts, `x.size - 1` per axis | not executed | BinDataframe.FullShapeAsWritten, BinDataframe.FullShapeTooLarge, BinDataframe.FullShapeExample | BinDataframe.BinWithEdges, BinDataframe.CombinedIsHistogramOfAll |
| sed/binning/binning.py:251-252 | `coords = dict(zip(axes, bins))` takes the edge arrays, n+1 values per axis, as coordinates of n cells; the linspace branch below it cannot be reached, because the normaliser always returns edge arrays | one axis with edges `[0, 1, 2]` in "legacy" mode (or with `return_partitions`, or with the array sized correctly in any mode): `xr.DataArray` gets 2 cells and 3 coordinates and raises ValueError | one coordinate per bin, the bin centres the normaliser's docstring (sed/binning/utils.py:66-67) promises | not executed | BinDataframe.PackageAsWritten, BinDataframe.EdgeCoordsRejected, BinDataframe.CoordsExample | BinDataframe.Centers, BinDataframe.Package |

The normaliser's docstring (sed/binning/utils.py:66-67) calls its results "bin centers". The arrays it returns are edges, `linspace(lo, hi, n + 1)`, and the model bins over them as edges. Only the coordinates of the returned array are bin centres, the correction of the third row above.
