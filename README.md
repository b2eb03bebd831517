# PiScope core, modelled in Dafny

PiScope shows MDSplus shot data in a grid of matplotlib subplots. A
configuration file names, for each subplot position "ij", the signals to
fetch (`x`, `y` and `color` expressions) and some options (labels, limits,
legend, `noresample`). The 'setup' section holds the column layout, the tree,
the server and the event name. This project models:

- **The interactive downsampler** (`Resample`, app/plotting/resample.py).
  - For a view window it keeps the samples strictly inside the window, plus
    the sample right after each of them (the one-sided dilation of
    `np.convolve([1, 1], mask, 'same')`).
  - It thins those to every `max(kept // max_points, 1)`-th sample.
  - numpy raises on a signal of fewer than two samples: `ValueError` from
    the convolution for none, `IndexError` from the two-entry mask for one.
  - On an x-limit change of more than 1e-8 it redraws every registered line
    and moves the axes that share x.
- **The axis binder** (`DataPlotter`, source/plotting/data_plotter.py):
  - `plot` and `plot_all_data`, on abstract axes and lines;
  - the span arithmetic of `create_figure`.
- **The time-series records**: `SourceData` (source/data/data.py, a value,
  since its constructor copies) and `AppData` (app/data/data.py, a class
  that stores what it is given).
- **The least-common-multiple helpers** (`GuiHelpers`, app/gui/helpers.py).
- **The configuration reader** (`ConfigParser`, source/config/parser.py):
  - grid keys;
  - round-robin default colours;
  - the subplot locations;
  - the 'setup' defaults.
- **The float recogniser, validator and fix-up** of the scientific spin box
  (`ScientificSpin`, source/gui/scientificspin.py).
- **The MDSplus helpers that need no server** (`SourceMdsplus`,
  `AppMdsplus`):
  - request preparation;
  - expression normalisation;
  - the outcome of one retrieval;
  - the "anything came back" checks.
- **The data shaping of app/data/fetch.py** (`Fetch`): Mach-number cleanup
  and the ring-anode merge.
- **The node paths of app/data/node_names.py** (`NodeNames`).

Shared modules:

- `Wrappers`: `Option`, `Result` and the Python exceptions that can escape.
- `Text`: decimal formatting and parsing, `join`, `splitlines`, `lower` and
  string sorting.
- `Config`: ConfigObj value shapes, as ordered sections.

The MDSplus server is a parameter: `get` stands for `connection.get`, and
returns data, `None` or an MDSplus exception. So is Python's `float()` on
option text (`toFloat`).

Two behaviours of the code worth knowing:

- A window whose ends are exactly the first and last sample times keeps no
  sample, because the mask is strict and the dilation only adds successors
  (`Resample.ClosedEndsMarkNothing`).
- `plot_all_data` keeps the `None` results of `plot` in its list
  (`DataPlotter.PlotAll`).

## Model

| member | source | states |
|---|---|---|
| Config.Section.Put | source/config/parser.py:25 | assigning a key keeps a section's key order valid: an existing key keeps its place, a new one is appended |
| Config.Layout.Put | source/config/parser.py:56-57 | the same for the top-level dictionary |
| Config.Elements | source/config/parser.py:17 | iterating a value yields a list's items, or a string's characters one by one |
| Text.NatToStringLength | source/config/parser.py:55 | `"{0:d}"` writes one digit below 10, two below 100, three below 1000 |
| Text.DecimalRoundTrip | source/config/parser.py:55 | reading back the digits `"{0:d}"` writes gives the number |
| Text.NatToStringInjective | source/config/parser.py:55 | distinct numbers are written differently |
| Text.ZeroPad2 | app/data/node_names.py:4 | `"{0:02d}"` writes at least two digits whose value is the number, with a leading zero only below 10 |
| Text.ParseFormatted | source/config/parser.py:17 | `int()` reads back what `"{0:d}"` writes |
| Text.SplitLinesUnbroken | source/data/mdsplus_helpers.py:131 | no line returned by `splitlines` holds a line boundary |
| Text.JoinedLinesAreBlanked | source/data/mdsplus_helpers.py:130-132 | for text broken only by '\n', joining its lines with blanks drops one final '\n' and blanks every other one |
| Text.SortSorted | source/config/parser.py:62-63 | `keys.sort()` gives a sorted permutation of the keys |
| Text.SortDistinct | source/config/parser.py:62-63 | sorting distinct keys keeps them distinct |
| Resample.DilateMarks | app/plotting/resample.py:24 | after the dilation a sample is marked iff it or its predecessor was, so only the successor of a run is added |
| Resample.DilatedSelection | app/plotting/resample.py:20-24 | sample k is kept iff `xstart < t[k] < xend`, or k > 0 and `xstart < t[k-1] < xend` |
| Resample.NothingInWindow | app/plotting/resample.py:20-26 | with no sample strictly inside the window nothing is marked |
| Resample.ClosedEndsMarkNothing | app/plotting/resample.py:20-24 | the window (0, 10) over times [0, 10] marks no sample |
| Resample.Ratio | app/plotting/resample.py:26 | the stride is at least 1 |
| Resample.ConvolvePairSameChecked | app/plotting/resample.py:24 | numpy's 'same' convolution with `[1, 1]`: `ValueError` for an empty mask, otherwise the first max(2, n) entries of the full convolution, so a one-sample mask grows to two entries |
| Resample.MaskIndex | app/plotting/resample.py:31-32 | boolean indexing raises `IndexError` unless the mask is as long as the array, otherwise gives one entry per marked position |
| Resample.PositionsExact | app/plotting/resample.py:26-32 | the marked positions are listed once each, increasing, and there are `np.sum(mask)` of them |
| Resample.CompressAtPositions | app/plotting/resample.py:31-32 | `s[mask]` is `s` read at the marked positions, in order |
| Resample.StridedLength | app/plotting/resample.py:35-36 | `s[::step]` has ceil(len / step) entries |
| Resample.StridedAt | app/plotting/resample.py:35-36 | entry i of `s[::step]` is `s[i * step]` |
| Resample.StridedSameLength | app/plotting/resample.py:35-36 | thinning equal-length arrays gives equal lengths |
| Resample.SelectionAt | app/plotting/resample.py:26-36 | the thinned selection has ceil(kept / stride) entries, entry i being the sample at the (i * stride)-th marked position |
| Resample.CeilBetween | app/plotting/resample.py:35-36 | a thinned non-empty selection is non-empty and no longer than the kept samples |
| Resample.Line.SetData | app/plotting/resample.py:49 | `set_data` replaces a line's arrays in place |
| Resample.Axis.Plot | source/plotting/data_plotter.py:50 | `ax.plot` appends one new line carrying the arrays, label and colour |
| Resample.Axis.SetXLim | app/plotting/resample.py:53 | `set_xlim(..., auto=False)` sets the x interval and stops x autoscaling |
| Resample.Axis.SetYLim | source/plotting/data_plotter.py:78 | `set_ylim` sets the y interval and stops y autoscaling |
| Resample.Axis.SetXLabel | source/plotting/data_plotter.py:62 | the x label is set |
| Resample.Axis.SetYLabel | source/plotting/data_plotter.py:65 | the y label is set |
| Resample.Axis.ShowLegend | source/plotting/data_plotter.py:59 | a legend is shown |
| Resample.Axis.DisableAutoscale | source/plotting/data_plotter.py:81 | autoscaling is off in both directions |
| Resample.Axis.Connect | source/plotting/data_plotter.py:82 | the downsampler is added to the axis's 'xlim_changed' subscribers |
| Resample.Downsampler.constructor | app/plotting/resample.py:6-15 | a budget below 1 becomes 1000, otherwise it is kept; delta, data and axis are stored; no line is registered |
| Resample.Downsampler.DownsampleCheckedIs | app/plotting/resample.py:17-41 | `downsample` raises exactly for fewer than two samples, `ValueError` for none and `IndexError` for one, and otherwise returns what `DownsampleSelects` describes |
| Resample.Downsampler.DownsampleSelects | app/plotting/resample.py:17-41 | for a signal of at least two samples, x and y have equal length, at most the kept count and ceil(kept / stride) of it; each (x, y) is the original pair at the (i * stride)-th kept position; nothing is returned when no sample is inside the window |
| Resample.Downsampler.Update | app/plotting/resample.py:43-53 | a width change of at most 1e-8 changes nothing; otherwise delta becomes the width, line i shows `downsample(data[i])` for the new interval, and every other x-sharing axis gets the interval |
| Resample.Downsampler.RedrawLines | app/plotting/resample.py:48-49 | every registered line shows its signal downsampled to the interval |
| Resample.Downsampler.ShareXLim | app/plotting/resample.py:51-53 | every sibling but the own axis gets the interval with autoscale off; the own axis keeps its interval and autoscale flag in the model (matplotlib's shared-axis echo is admitted under Left out) |
| DataPlotter.Kept | source/plotting/data_plotter.py:27-30 | the kept signals are present records with more than one sample |
| DataPlotter.KeptUpTo | source/plotting/data_plotter.py:27-30 | the same for the entries seen so far |
| DataPlotter.ExtentIsHull | source/plotting/data_plotter.py:25-37 | no extent iff nothing is kept; otherwise xstart is the least first time and xend the greatest last time of the kept signals |
| DataPlotter.KeepStep | source/plotting/data_plotter.py:29-37 | a truthy record is appended to the kept list and widens the extent |
| DataPlotter.KeepEntry | source/plotting/data_plotter.py:29-37 | one turn of the filter raises `ValueError` exactly on a present record with mismatched arrays, else keeps the entry iff it is truthy |
| DataPlotter.KeepSignals | source/plotting/data_plotter.py:24-37 | the filter succeeds iff no present record is malformed, and then yields exactly the truthy entries in order with their hull extent |
| DataPlotter.WellFormedUpToAll | source/plotting/data_plotter.py:29 | the filter's running well-formedness is that of every entry seen |
| DataPlotter.StrToBool | source/plotting/data_plotter.py:58 | `strtobool` accepts exactly the case-insensitive yes/no words and is true for the yes words; anything else is `ValueError` |
| DataPlotter.StrToBoolIgnoresCase | source/plotting/data_plotter.py:58 | `strtobool` gives the same answer for a lower-cased word |
| DataPlotter.LowerIdempotent | source/plotting/data_plotter.py:58 | lower-casing twice is lower-casing once |
| DataPlotter.LegendFlag | source/plotting/data_plotter.py:58 | no legend without the key; a string is read by `strtobool`; a list or sub-section raises `AttributeError` |
| DataPlotter.Floats | source/plotting/data_plotter.py:72 | the conversion succeeds iff every element converts, and keeps them in order; otherwise `ValueError` |
| DataPlotter.Limits | source/plotting/data_plotter.py:70-78 | an absent limit is nothing; a present one succeeds iff it is two convertible elements, giving that pair |
| DataPlotter.DrawSignal | source/plotting/data_plotter.py:46-55 | one new line shows the signal (downsampled unless `noresample`) and is registered with the downsampler only when resampling |
| DataPlotter.DrawSignals | source/plotting/data_plotter.py:46-55 | the axis keeps its lines and gains one per kept signal, in order, each showing its signal; the downsampler registers exactly these, or none under `noresample` |
| DataPlotter.DecorateLabels | source/plotting/data_plotter.py:57-68 | a bad legend option raises before anything changes; otherwise the legend is shown iff it reads true and each present label is set |
| DataPlotter.DecorateLimits | source/plotting/data_plotter.py:70-78 | the first bad limit raises; otherwise each present limit is set as its float pair and stops autoscaling in that direction |
| DataPlotter.Subscribe | source/plotting/data_plotter.py:80-82 | autoscale is turned off and the downsampler subscribed exactly when it has lines |
| DataPlotter.Decorate | source/plotting/data_plotter.py:57-82 | fails with the first option error in reading order; otherwise labels, limits and subscription are as the options say |
| DataPlotter.DecorateDrawn | source/plotting/data_plotter.py:57-82 | the same, leaving the drawing as it was |
| DataPlotter.DrawAndDecorate | source/plotting/data_plotter.py:39-82 | a fresh downsampler with delta the extent width holds the kept signals, which are drawn, and the options are applied |
| DataPlotter.Plot | source/plotting/data_plotter.py:19-84 | `None` data returns `None` and changes nothing; a malformed record raises `ValueError` before drawing; otherwise it fails exactly on a bad option, and on success the axis is plotted as above |
| DataPlotter.Target | source/plotting/data_plotter.py:13-14 | a key selects `axs[j][i]` from its two digits; a key that is not two digits is the `ValueError` of unpacking |
| DataPlotter.PlotAt | source/plotting/data_plotter.py:13-14 | one position succeeds iff its axis and data exist and `plot` succeeds there; its error is the key's `ValueError`/`IndexError`/`KeyError`, else `ValueError` for a malformed record (axis unchanged), else the first bad option's; on success the selected axis is as `plot` leaves it (`Plotted` from its prior state), or unchanged for `None` |
| DataPlotter.PlotAll | source/plotting/data_plotter.py:9-16 | succeeds iff every position succeeds; a failure is the exception of the first failing key, every earlier key having succeeded; the list has one result per key, `None` included; on a figure of distinct axes each selected axis ends as its own `plot` left it from its initial state |
| DataPlotter.PlotKeys | source/plotting/data_plotter.py:12-16 | the loop over the position keys: succeeds iff every key selects an axis and its `plot` succeeds, else fails with the first failing key's exception; one result per key placed on its axis; on a figure of distinct axes every selected axis is as its own `plot` left it, from its state at entry |
| DataPlotter.TargetsDistinct | source/plotting/data_plotter.py:13-14 | distinct position keys select distinct axes of a figure of distinct axes |
| DataPlotter.PositiveColumns | source/plotting/data_plotter.py:91 | only positive counts are kept, each positive count as many times as it occurs in the input |
| DataPlotter.PositiveColumnsAppend | source/plotting/data_plotter.py:91 | the comprehension keeps input order: the filter of a concatenation is the concatenation of the filters |
| DataPlotter.GridCells | source/plotting/data_plotter.py:96-104 | row j of the idx-th positive column with n rows spans `[f*j, f*(j+1))` with `f = L div n` |
| DataPlotter.SpansTile | source/plotting/data_plotter.py:97-102 | when n divides L, each grid row lies in exactly one of the n spans |
| DataPlotter.RowInOneSpan | source/plotting/data_plotter.py:102 | a row below n spans of height f lies in span `g / f` and no other |
| DataPlotter.SpanHeight | source/plotting/data_plotter.py:97 | the span height is positive and n spans make up the grid |
| DataPlotter.SpansInsideGrid | source/plotting/data_plotter.py:97-102 | every span lies inside the grid |
| DataPlotter.GlobalLcmTiles | source/plotting/data_plotter.py:91-102 | with `global_lcm` as grid height, every grid row lies in a span of every positive column |
| SourceData.Data.SetTime | source/data/data.py:50-52 | the setter replaces the time array only |
| SourceData.Data.SetValues | source/data/data.py:59-61 | the setter replaces the value array only |
| SourceData.Data.Len | source/data/data.py:80-87 | `len` is the common length, and `ValueError` iff the lengths differ |
| SourceData.Data.Truthy | source/data/data.py:73-78 | truthy iff more than one sample; a length mismatch propagates as `ValueError` |
| SourceData.Data.Equals | source/data/data.py:89-108 | equal iff the other is a record, both are well formed, and times and values are equal |
| SourceData.EqualsIgnoresNameAndColor | source/data/data.py:102-108 | records with the same arrays are equal whatever their names and colours |
| SourceData.MalformedEqualsNothing | source/data/data.py:93-97 | a record with mismatched arrays equals nothing, itself included |
| SourceData.DocExample | source/data/data.py:16-24 | 100 samples give length 100 and truth |
| GuiHelpers.GcdDividesBoth | app/gui/helpers.py:11-16 | the gcd is positive and divides both numbers |
| GuiHelpers.Bezout | app/gui/helpers.py:11-16 | the gcd is an integer combination of the two numbers |
| GuiHelpers.GcdSymmetric | app/gui/helpers.py:5-10 | the gcd does not depend on argument order |
| GuiHelpers.LcmIsCommonMultiple | app/gui/helpers.py:17 | product over gcd is a positive common multiple |
| GuiHelpers.LcmDividesCommonMultiples | app/gui/helpers.py:17 | it divides every common multiple |
| GuiHelpers.LcmSymmetric | app/gui/helpers.py:4-18 | `find_lcm` is symmetric |
| GuiHelpers.FindLcm | app/gui/helpers.py:4-18 | the loop's result is the least common multiple, for positive arguments |
| GuiHelpers.LcmAllIsLeast | app/gui/helpers.py:27-32 | the left fold is a multiple of every entry and divides every common multiple |
| GuiHelpers.GlobalLcm | app/gui/helpers.py:21-35 | `None` iff fewer than two numbers; otherwise the fold of `find_lcm` |
| ConfigParser.GridKeyCollision | source/config/parser.py:55 | (1, 11) and (11, 1) both give the key "111" |
| ConfigParser.GridKeyInjective | source/config/parser.py:55 | below 10 rows and columns, distinct positions give distinct keys |
| ConfigParser.RowKeysAre | source/config/parser.py:54-55 | a column visits exactly the keys of its rows |
| ConfigParser.GridKeysAre | source/config/parser.py:53-55 | `add_grid_keys` visits exactly the keys of (row, col) with row below that column's count |
| ConfigParser.WithGridKeys | source/config/parser.py:52-57 | the dictionary stays ordered and unique |
| ConfigParser.AddKeyExtends | source/config/parser.py:56-57 | one assignment adds at most that key, as an empty section |
| ConfigParser.AddKeysExtends | source/config/parser.py:56-57 | adding keys adds exactly those, maps new ones to empty sections and keeps every existing section and its place |
| ConfigParser.AddKeysPresent | source/config/parser.py:56 | present keys are never overwritten |
| ConfigParser.GridKeysIdempotent | source/config/parser.py:52-57 | `add_grid_keys` is idempotent |
| ConfigParser.ColorSignalEffect | source/config/parser.py:71-77 | a signal keeps its colour or gets the j-th default (the counter then moves on), a list 'y' is ','-joined, other fields are kept |
| ConfigParser.ColorSettled | source/config/parser.py:71-77 | a coloured signal with a string 'y' is left as it is |
| ConfigParser.ColorEntries | source/config/parser.py:67-77 | the loop keeps the section's keys and never moves the counter back |
| ConfigParser.ColorEntriesUntouched | source/config/parser.py:67-68 | options and unvisited entries are left as they are |
| ConfigParser.ColorEntriesKeepsSettled | source/config/parser.py:71 | a settled signal stays as it is |
| ConfigParser.ColorEntriesFails | source/config/parser.py:71 | the loop raises `AttributeError` exactly when it reaches a scalar that is not an option |
| ConfigParser.ColorEntriesSettles | source/config/parser.py:67-77 | every signal reached ends settled |
| ConfigParser.ColorEntriesOfSettled | source/config/parser.py:67-77 | with every signal settled, the loop changes nothing |
| ConfigParser.ColorEntriesFirst | source/config/parser.py:71-73 | the first signal reached gets the counter's colour |
| ConfigParser.ColorEntriesRoundRobin | source/config/parser.py:65-73 | over distinct keys, a signal is coloured with the counter plus the number of earlier signals that lacked a colour |
| ConfigParser.ColorEntriesRoundRobinStep | source/config/parser.py:67-73 | the same, one step past an earlier signal |
| ConfigParser.SortedKeys | source/config/parser.py:62-63 | the sorted keys are the section's keys, as many of them |
| ConfigParser.SortedKeysAre | source/config/parser.py:62-63 | they are sorted, distinct, and exactly the section's entries |
| ConfigParser.RecolorEffect | source/config/parser.py:60-77 | a recoloured section keeps its keys and order, its options untouched, and every other entry is a settled signal |
| ConfigParser.RecolorFails | source/config/parser.py:71 | `parse_data_colors` raises `AttributeError` exactly for a scalar entry that is not an option |
| ConfigParser.RecolorRoundRobin | source/config/parser.py:60-73 | the n-th signal in sorted order gets the default numbered by the earlier signals that lacked a colour |
| ConfigParser.RecolorIdempotent | source/config/parser.py:60-77 | `parse_data_colors` is idempotent |
| ConfigParser.RecolorEmpty | source/config/parser.py:57 | an empty grid section is coloured as it is |
| ConfigParser.SetupIsSetup | source/config/parser.py:45 | 'setup' itself is passed over |
| ConfigParser.RecolorAt | source/config/parser.py:48 | recolouring one section keeps the file well formed and its keys |
| ConfigParser.RecolorAtIs | source/config/parser.py:48 | it replaces that one section by its recolouring, and fails iff the recolouring does |
| ConfigParser.ColorUpTo | source/config/parser.py:44-48 | the loop so far keeps the file well formed and its keys |
| ConfigParser.ColorUpToStops | source/config/parser.py:44-48 | once a section raises, the loop has stopped with that exception |
| ConfigParser.ColorUpToAt | source/config/parser.py:44-48 | a passed section (not the setup) is its own recolouring; others are as they were |
| ConfigParser.ColorUpToErr | source/config/parser.py:44-48 | the loop fails only at a non-setup section that raises on its own |
| ConfigParser.ColorSectionsAre | source/config/parser.py:42-49 | `get_data_locs` gets through iff no non-setup section raises; then each is its own recolouring, and the keys and setup-like sections are kept |
| ConfigParser.ColorSectionsAt | source/config/parser.py:42-49 | after it, a non-setup section is its own recolouring |
| ConfigParser.LocsUpToAre | source/config/parser.py:43-46 | the locations so far are the non-setup keys seen, each with its section |
| ConfigParser.LocsAre | source/config/parser.py:42-49 | `get_data_locs` returns exactly the sections whose lower-cased key is not 'setup' |
| ConfigParser.ParseColumns | source/config/parser.py:17 | one integer per element |
| ConfigParser.ParseColumnsAre | source/config/parser.py:17 | the conversion succeeds iff every element is an integer, keeping their values in order; otherwise it raises the first element's error |
| ConfigParser.SetupDefault | source/config/parser.py:22-36 | a present value is returned and nothing changes; a missing one is written into the setup as the default |
| ConfigParser.GridKeysKeepSetup | source/config/parser.py:20 | adding grid keys keeps the setup section |
| ConfigParser.SetupDefaults | source/config/parser.py:22-36 | the three defaults keep the file well formed with a setup |
| ConfigParser.SetupDefaultsSections | source/config/parser.py:22-36 | the defaults touch only the setup |
| ConfigParser.SetupDefaultItems | source/config/parser.py:22-26 | one default: found iff given; the setup gains the name, as given or as the default, and keeps its entries |
| ConfigParser.SetupDefaultsSetup | source/config/parser.py:22-36 | tree, event and server end in the setup, as given or as 'wipal', 'raw_data_ready' and 'skywalker.physics.wisc.edu' |
| ConfigParser.WithDefaults | source/config/parser.py:20-36 | grid keys and defaults keep the file well formed with a setup |
| ConfigParser.WithDefaultsSections | source/config/parser.py:20-36 | the file's keys are followed by the new grid keys, which map to empty sections; other sections are the file's |
| ConfigParser.WithDefaultsSetup | source/config/parser.py:20-36 | the setup after grid keys and defaults, entry by entry |
| ConfigParser.ParseConfigIntendedOk | source/config/parser.py:10-39 | the intended reading succeeds iff the setup and 'col' exist, every column count is an integer and every subplot section can be coloured |
| ConfigParser.ParseConfigIntendedSetup | source/config/parser.py:16-39 | tree, event and server are returned as given or as their defaults and are written into the setup; the column setup is the integers of 'col' |
| ConfigParser.ParseConfigIntendedParts | source/config/parser.py:10-39 | the returned file is the coloured one after grid keys and defaults, and the locations are taken from it |
| ConfigParser.ParseConfigIntendedKeys | source/config/parser.py:20-39 | the returned keys are the file's, then the new grid keys |
| ConfigParser.ParseConfigIntendedColoured | source/config/parser.py:38-39 | every subplot section is returned recoloured |
| ConfigParser.ParseConfigIntendedSetupLike | source/config/parser.py:45 | a key that lower-cases to 'setup' is returned as given |
| ConfigParser.ParseConfigIntendedNewKeys | source/config/parser.py:56-57 | every grid key the file lacked is returned empty |
| ConfigParser.ParseConfigIntendedLocs | source/config/parser.py:38-49 | the locations are exactly the returned sections whose key is not the setup |
| ConfigParser.ParseConfigAsWritten | source/config/parser.py:28-39 | as written, a successful intended reading raises `UnboundLocalError` for a missing server, else for a missing event; otherwise the two readings agree |
| ConfigParser.OnlyColumnsFileParses | source/config/parser.py:10-39 | the intended reading of a setup holding only col = "1" succeeds |
| ConfigParser.MissingServerRaises | source/config/parser.py:28-39 | on that file the code as written raises for the unbound `server` |
| ConfigParser.ConfigFile.constructor | source/config/parser.py:12-13 | the configuration dictionary is the parsed file |
| ConfigParser.ConfigFile.ParseDataColors | source/config/parser.py:60-77 | `parse_data_colors(config, key)` recolours that section in place, or raises its error |
| ConfigParser.ConfigFile.RecolorSection | source/config/parser.py:61-77 | the loop over the sorted keys of a present section |
| ConfigParser.ConfigFile.SetDefault | source/config/parser.py:22-36 | one try/except default on the dictionary |
| ConfigParser.ConfigFile.GetDataLocs | source/config/parser.py:42-49 | `get_data_locs` recolours every non-setup section in place and returns the locations, or the first error |
| ConfigParser.ConfigFile.LocateKey | source/config/parser.py:45-48 | one turn of that loop |
| ConfigParser.ConfigFile.AddGridKeys | source/config/parser.py:52-57 | `add_grid_keys` in place |
| ConfigParser.ConfigFile.AddRowKeys | source/config/parser.py:54-57 | its inner loop over the rows of a column |
| ConfigParser.ParseConfigFile | source/config/parser.py:10-39 | `config_parser` runs the steps in order; a success is the intended reading, and it fails where that does or where server or event is missing |
| ScientificSpin.DigitsEnd | source/gui/scientificspin.py:8 | `\d+` is greedy: the run of digits ends at the first non-digit |
| ScientificSpin.Search | source/gui/scientificspin.py:20 | a match found starts at or after `from` and is the pattern's match there |
| ScientificSpin.SearchIsLeftmost | source/gui/scientificspin.py:20 | it is the leftmost match, and nothing is found only when nothing matches anywhere |
| ScientificSpin.NoMatchAtEnd | source/gui/scientificspin.py:8 | the pattern never matches the empty text |
| ScientificSpin.ValidIsWholeMatch | source/gui/scientificspin.py:20-21 | a string is valid iff the pattern matched at its start takes all of it |
| ScientificSpin.ValidIsFloat | source/gui/scientificspin.py:8-21 | `valid_float_string` accepts exactly the pattern's language: sign, digits with optional point and digits or point and digits, optional exponent |
| ScientificSpin.DeadStays | source/gui/scientificspin.py:8 | once the recogniser rejects a prefix, no extension is accepted |
| ScientificSpin.RejectedExamples | source/gui/scientificspin.py:8-21 | "-.5", "1e", "." and "" are rejected |
| ScientificSpin.AcceptedExamples | source/gui/scientificspin.py:8-21 | "1.", "+2" and "1.e5" are accepted |
| ScientificSpin.PyIndex | source/gui/scientificspin.py:41 | Python indexing: a negative index counts from the end, outside the text is `IndexError` |
| ScientificSpin.ValidateStates | source/gui/scientificspin.py:29-45 | Acceptable iff a float; otherwise Intermediate iff empty or the character before the cursor is one of 'e.-+'; otherwise Invalid; text and cursor come back unchanged |
| ScientificSpin.ValidateExponentMarks | source/gui/scientificspin.py:41-44 | "1E" is Invalid while "1e" is Intermediate, and cursor 0 wraps to the last character |
| ScientificSpin.FixupIsFloat | source/gui/scientificspin.py:47-57 | `fixup` is "" exactly when no float occurs, and otherwise a float |
| ScientificSpin.FixupIdempotent | source/gui/scientificspin.py:47-57 | a valid float is returned unchanged, and fixing up twice is fixing up once |
| SourceMdsplus.PrepareRequests | source/data/mdsplus_helpers.py:19-23 | every subplot maps to an empty list, and the request list is that of the configuration |
| SourceMdsplus.AddSubplotRequests | source/data/mdsplus_helpers.py:21-23 | the inner loop appends one subplot's requests |
| SourceMdsplus.SubplotRequestsAre | source/data/mdsplus_helpers.py:21-23 | a subplot requests exactly its keys that are not in `ignore_items` |
| SourceMdsplus.RequestsUpTo | source/data/mdsplus_helpers.py:19-23 | the requests of the first subplots are their non-option keys |
| SourceMdsplus.RequestsAre | source/data/mdsplus_helpers.py:11-23 | (x, y) is requested iff x is a subplot, y one of its entries and y not an option |
| SourceMdsplus.Normalise | source/data/mdsplus_helpers.py:130-140 | the expression has no '\n' afterwards, and one without '\n' is used verbatim |
| SourceMdsplus.NormaliseBlanks | source/data/mdsplus_helpers.py:130-140 | for '\n'-broken text, inner breaks become blanks and a final one is dropped |
| SourceMdsplus.NormaliseIdempotent | source/data/mdsplus_helpers.py:130-140 | normalising twice changes nothing more |
| SourceMdsplus.RetrieveData | source/data/mdsplus_helpers.py:95-165 | a record iff both normalised fetches return data, holding the x data as time and the y data as values; `None` otherwise |
| SourceMdsplus.RetrieveSignal | source/data/mdsplus_helpers.py:82-91 | `KeyError` for a missing 'x', 'y', 'color' in that order; a list 'x' or 'color' raises; otherwise the retrieval of the expressions |
| SourceMdsplus.ListYIsJoined | source/data/mdsplus_helpers.py:86-87 | a list 'y' is fetched as its ','-joined text |
| SourceMdsplus.ScanListIs | source/data/mdsplus_helpers.py:63-65 | one list: false iff every item is falsy; true only with a plottable item; raises only on a malformed record |
| SourceMdsplus.CheckDataDictionaryIs | source/data/mdsplus_helpers.py:60-67 | false iff every slot is `None` or has at most one sample (so an empty dictionary gives false); true only with a record of two or more samples; raises only on a malformed record; without one, true iff some record is plottable |
| AppMdsplus.AnyPresentIs | app/data/mdsplus_helpers.py:23-25 | the inner loop is true iff some item is not `None` |
| AppMdsplus.CheckDataDictionaryIs | app/data/mdsplus_helpers.py:20-27 | true iff some slot of some list is not `None`; an empty dictionary gives false |
| AppMdsplus.ChecksDisagree | app/data/mdsplus_helpers.py:24 | one one-sample record satisfies this check but not the one of source/data |
| AppMdsplus.NormaliseValue | app/data/mdsplus_helpers.py:56-66 | a string is normalised as in source/data; a list passes unless "\n" is an item, which raises `AttributeError` |
| AppMdsplus.Retrieve | app/data/mdsplus_helpers.py:47-84 | a missing 'y' gives `None`; it raises exactly when 'y', or a present 'x', fails to normalise (`AttributeError`) or a fetch raises an uncaught MDSplus class (TreeNODATA or TreeNNF; 'x' only when the 'y' fetch did not raise); a record iff all keys are present, both expressions normalise and both fetches return data |
| AppMdsplus.MissingGivesNone | app/data/mdsplus_helpers.py:72-84 | with nothing escaping, a missing 'x' or 'color' (`KeyError`) or a fetch returning `None` gives `None`, not an error |
| AppMdsplus.AgreesWithSource | app/data/mdsplus_helpers.py:54-84 | on string options without escaping exceptions, it yields a record exactly when the source/data retrieval does, with the same arrays |
| AppMdsplus.RetrieveData | app/data/mdsplus_helpers.py:78 | builds a fresh, truthy legacy record named by the signal from the retrieved arrays and colour |
| AppData.Data.constructor | app/data/data.py:5-9 | stores name, time, data and colour as given |
| AppData.Data.SetTime | app/data/data.py:15-17 | replaces the time only; truthy afterwards iff both are present |
| AppData.Data.SetValues | app/data/data.py:23-25 | replaces the data only; truthy afterwards iff both are present |
| AppData.TruthinessDiffers | app/data/data.py:37-41 | a legacy record with both arrays is truthy whatever their lengths, while the record of source/data/data.py on the same arrays raises `ValueError` on different lengths and is false with at most one sample; they agree iff the lengths are equal and above one |
| Fetch.CleanedIs | app/data/fetch.py:98-100 | cleanup keeps the length, zeroes exactly where both currents are below the threshold, keeps the rest, and is idempotent |
| Fetch.CleanMachData | app/data/fetch.py:98-100 | the array becomes its cleanup in place; the current arrays are not written |
| Fetch.RingLabels | app/data/fetch.py:27 | the ring labels are "ring 1" and "ring 2" |
| Fetch.MergeRings | app/data/fetch.py:33-34 | the merged dictionary has the anode and ring keys, each ring label maps to its ring value, and other anode entries are unchanged |
| NodeNames.NoLeadingZero | app/data/node_names.py:4 | a positive number has no leading zero |
| NodeNames.NumberedPath | app/data/node_names.py:4 | prefix, zero-padded number and suffix form a path numbered by that number |
| NodeNames.NodePaths | app/data/node_names.py:3-12 | exactly n paths, path k being numbered k + 1 |
| NodeNames.NodePathsDistinct | app/data/node_names.py:4 | the paths are pairwise distinct |
| NodeNames.CathodeCurrentPaths | app/data/node_names.py:3-4 | n cathode current paths, numbered 1 to n |
| NodeNames.CathodeVoltagePaths | app/data/node_names.py:7-8 | n cathode voltage paths, numbered 1 to n |
| NodeNames.AnodeCurrentPaths | app/data/node_names.py:11-12 | n anode current paths, numbered 1 to n |
| NodeNames.CathodeExamples | app/data/node_names.py:3-8 | the first and twelfth cathode paths, written out |
| NodeNames.AnodeExamples | app/data/node_names.py:11-12 | no anodes give no paths; the hundredth anode takes three digits |

## Left out

- Reading the configuration file (ConfigObj) is not modelled. The parsed
  file is the input, as ordered sections. A top-level scalar entry of the
  file therefore cannot be represented, so the `AttributeError` that
  `get_data_locs` raises for one (`.keys()` on a string in
  `parse_data_colors`) is not modelled.
- The 'col' entry of the setup is required to be a value, not a
  sub-section (`ColumnsAreValue`). Likewise 'xlim' and 'ylim' are required
  to be values (`LimitsAreScalars`).
- Partial state left behind by an exception is not stated by the
  contracts past the exception. For example, `ConfigFile.RecolorSection`
  does write back the signals coloured before `parse_data_colors` raises,
  but its contract is silent about them. Likewise an option error in `plot`
  leaves the lines drawn, which `Plot` does not state.
- Aliasing of records is not modelled:
  - app/data/data.py stores the caller's arrays without copying, but its
    arrays are values here;
  - for source/data/data.py, the model does not capture numpy arrays
    returned by the getters being changed in place afterwards.
- MDSplus I/O is not modelled: connections, `openTree`, `getNode` and
  `.data()`. `get` is a parameter returning data, `None` or one of five
  MDSplus exceptions. Other exception classes are not modelled.
- Concurrency is not modelled:
  - the `lru_cache` memoisation;
  - the `ThreadPoolExecutor` fan-out of `retrieve_all_data`, and so the
    completion order in which results are appended to `data[subplot]`;
  - the progress signal;
  - logging and printing to standard output (`print` in
    source/config/parser.py, app/gui/helpers.py and
    source/data/mdsplus_helpers.py).
- SourceMdsplus.RetrieveSignal: a list-valued 'x' or 'color' is modelled
  as an error (`TypeError`), the error the cache raises when it hashes the
  arguments. The MDSplus behaviour past that point is not modelled.
- Text.ParseInt: reads an optional sign and ASCII digits only. Python's
  `int()` also strips surrounding whitespace, accepts single underscores
  between digits and reads every Unicode decimal digit; those texts are
  `ValueError` here.
- ParseColumnsAre: "an integer" means `Text.ParseInt`'s reading, so a
  'col' element such as " 2", "1_0" or a non-ASCII digit, which `int()`
  accepts, is an error in the model.
- ValidIsFloat: `\d` is an ASCII digit here. In the `str` pattern of
  source/gui/scientificspin.py `\d` matches every Unicode decimal digit, so
  text with such digits that `valid_float_string` accepts is rejected by
  the model (likewise for `ScientificSpin.FixupIsFloat`).
- DataPlotter.Target: a position key's characters are read as ASCII
  digits; `int()` of a non-ASCII decimal digit, which Python accepts, is a
  `ValueError` here.
- DataPlotter.PlotAll: the final axis states are stated only for a figure
  whose axes are distinct objects, as `create_figure` makes them.
- Fetch.CleanMachData: requires arrays of equal length, and a Mach array
  distinct from the current arrays. numpy broadcasting of other shapes is
  not modelled.
- Fetch.MergeRings: the key order of the merged dictionary is not stated.
- The MDSplus readers of app/data/fetch.py are not part of this model:
  `_retrieve_data`, the `retrieve_*` functions and their NaN cleanup.
- `ring_anode_node_locations` is not part of this model.
- Floating point is not modelled:
  - times and values are exact reals;
  - the 1e-8 tolerance is a real constant;
  - NaN, which is unequal to itself, is not modelled, including in
    `Data.__eq__`;
  - the true division in `find_lcm` is exact integer division;
  - `{:g}` formatting and `stepBy` of the spin box are not modelled;
  - Python's `float()` on option text is the parameter `toFloat`.
- The ±inf extent of `plot` when nothing is kept is an explicit
  `NoExtent`, whose width is `MinusInfinity`. The downsampler is then bound
  to the interval [0, 0], but it registers no line.
- Resample.Downsampler.ShareXLim: `set_xlim(..., emit=True)` notifies the
  siblings' own subscribers, and those follow-on callbacks are not
  modelled. Matplotlib also passes the interval on, with `emit=False` and
  `auto=False`, to every axis sharing x, the downsampler's own axis
  included; the model leaves the own axis unchanged. The program cannot
  tell the difference: `update` runs only from the own axis's callback,
  with that axis already at the interval, and `plot` turns its autoscale
  off before connecting the callback.
- Resample.Downsampler.DownsampleSelects: stated for signals of at least
  two samples (`Drawable`), the only ones `plot` keeps and registers. On
  shorter signals the source's `downsample` raises; that error path is
  `DownsampleChecked`, related to the selection by `DownsampleCheckedIs`.
- NodeNames.CathodeCurrentPaths, NodeNames.CathodeVoltagePaths and
  NodeNames.AnodeCurrentPaths: the count is a `nat`, so the empty list that
  `range(n)` gives for a negative count is not modelled (no caller passes
  one), and the default counts `n_cathodes=12` and `n_anodes=20` are not
  modelled; callers always give the count.
- The `__repr__` text of both `Data` records is not modelled. It is
  display text built from numpy's array printing.
- Matplotlib rendering is not modelled: axes, lines, the legend and the
  grid are plain records. `create_figure` is modelled as its span
  arithmetic only; the figure and GridSpec objects are left out.
- source/gui/helpers.py (`global_lcm` used by `create_figure`) is not part
  of this model. The grid height is a parameter of `GridCells`, and
  `GlobalLcmTiles` uses the `global_lcm` of app/gui/helpers.py.
- The Qt widgets are not modelled (the spin box beyond its validator,
  windows, dialogs and event threads), nor are the entry points.

## Findings

| source | as written | input that shows it | evidently intended | confidence | as-written member | corrected member |
|---|---|---|---|---|---|---|
| source/config/parser.py:28-39 | when 'event' or 'server' is missing, the `except KeyError` branch writes the default into `config['setup']` but never binds `event_name` or `server`, so the `return` raises `UnboundLocalError` | a setup holding only `col = 1` | the missing event and server take their defaults and are returned, as the tree does | not executed | ConfigParser.ParseConfigAsWritten | ConfigParser.ParseConfigIntendedSetup |
