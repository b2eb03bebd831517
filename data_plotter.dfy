/** The axis binder of source/plotting/data_plotter.py: `plot` draws the
    signals of one subplot and attaches a downsampler to its axis,
    `plot_all_data` does so for every subplot position, and `create_figure`
    lays the subplots out on a grid whose height is a common multiple of the
    column heights. */
module DataPlotter {
  import opened Wrappers
  import opened Config
  import opened Text
  import opened SourceData
  import opened Resample
  import opened GuiHelpers

  /** The retrieved signals of one subplot; a failed retrieval is `None`. */
  type Signals = seq<Option<Data>>

  /** No present record has mismatched arrays, so `bool(d)` raises for none. */
  predicate AllWellFormed(data: Signals)
  {
    forall i | 0 <= i < |data| && data[i].Some? :: |data[i].value.time| == |data[i].value.values|
  }

  /** The signals of `Kept` that an entry contributes. */
  function KeptEntry(entry: Option<Data>): seq<Data>
  {
    match entry
    case Some(d) => if |d.time| > 1 then [d] else []
    case None => []
  }

  /** The truthy entries among the first `n`, in order. */
  function KeptUpTo(data: Signals, n: nat): (r: seq<Data>)
    requires n <= |data|
    ensures forall d | d in r :: |d.time| > 1
  {
    if n == 0 then [] else KeptUpTo(data, n - 1) + KeptEntry(data[n - 1])
  }

  /** The truthy entries, in order: present records with more than one sample. */
  function Kept(data: Signals): (r: seq<Data>)
    ensures forall d | d in r :: |d.time| > 1
  {
    KeptUpTo(data, |data|)
  }

  // ---------------------------------------------------------------------
  // The x extent of the kept signals

  /** `(xstart, xend)`; `NoExtent` stands for the initial `(inf, -inf)`. */
  datatype Extent = NoExtent | Span(lo: real, hi: real)

  function First(d: Data): real
    requires |d.time| > 0
  {
    d.time[0]
  }

  function Last(d: Data): real
    requires |d.time| > 0
  {
    d.time[|d.time| - 1]
  }

  /** One step of the running minimum of first times and maximum of last times. */
  function Widen(e: Extent, d: Data): Extent
    requires |d.time| > 0
  {
    match e
    case NoExtent => Span(First(d), Last(d))
    case Span(lo, hi) => Span(if First(d) < lo then First(d) else lo, if Last(d) > hi then Last(d) else hi)
  }

  function ExtentOf(kept: seq<Data>): Extent
    requires forall d | d in kept :: |d.time| > 0
  {
    if kept == [] then NoExtent else Widen(ExtentOf(kept[..|kept| - 1]), kept[|kept| - 1])
  }

  /** `xend - xstart`, which is `-inf - inf` when nothing was kept. */
  function ExtentWidth(e: Extent): Width
  {
    match e
    case NoExtent => MinusInfinity
    case Span(lo, hi) => Finite(hi - lo)
  }

  /** The extent is the hull of the kept signals' end points: xstart is the
      smallest first time and xend the largest last time. */
  lemma {:induction false} ExtentIsHull(kept: seq<Data>)
    requires forall d | d in kept :: |d.time| > 0
    ensures ExtentOf(kept).NoExtent? <==> kept == []
    ensures ExtentOf(kept).Span? ==>
              (forall d | d in kept :: ExtentOf(kept).lo <= First(d) && Last(d) <= ExtentOf(kept).hi) &&
              (exists d | d in kept :: ExtentOf(kept).lo == First(d)) &&
              (exists d | d in kept :: ExtentOf(kept).hi == Last(d))
  {
    if kept != [] {
      var init, d := kept[..|kept| - 1], kept[|kept| - 1];
      assert forall e | e in init :: e in kept;
      ExtentIsHull(init);
      var e := ExtentOf(init);
      if e.Span? {
        var a :| a in init && e.lo == First(a);
        var b :| b in init && e.hi == Last(b);
        assert a in kept && b in kept;
        forall x | x in kept ensures ExtentOf(kept).lo <= First(x) && Last(x) <= ExtentOf(kept).hi {
          if x != d {
            assert x in init by {
              var k :| 0 <= k < |kept| && kept[k] == x;
              assert k < |kept| - 1 && init[k] == x;
            }
          }
        }
      }
    }
  }

  /** A truthy record joins the kept signals and widens their extent. */
  lemma KeepStep(data: Signals, i: nat, d: Data)
    requires i < |data| && data[i] == Some(d) && |d.time| == |d.values| && |d.time| > 1
    requires forall e | e in KeptUpTo(data, i) :: |e.time| == |e.values|
    ensures KeptUpTo(data, i + 1) == KeptUpTo(data, i) + [d]
    ensures ExtentOf(KeptUpTo(data, i + 1)) == Widen(ExtentOf(KeptUpTo(data, i)), d)
    ensures forall e | e in KeptUpTo(data, i + 1) :: |e.time| == |e.values| && |e.time| > 1
  {
    var kept := KeptUpTo(data, i);
    assert (kept + [d])[..|kept|] == kept;
  }

  /** The filter loop of `plot`: every entry is tested with `bool(d)` (which
      raises on mismatched arrays), the truthy ones are kept in order, and the
      running extent is updated from each of them. */
  method KeepSignals(data: Signals) returns (r: Result<seq<Data>>, extent: Extent)
    ensures r.Ok? <==> AllWellFormed(data)
    ensures r.Err? ==> r.error.ValueError?
    ensures r.Ok? ==> r.value == Kept(data) && extent == ExtentOf(r.value)
    ensures r.Ok? ==> forall d | d in r.value :: |d.time| == |d.values|
  {
    var kept: seq<Data> := [];
    extent := NoExtent;
    for i := 0 to |data|
      invariant WellFormedUpTo(data, i)
      invariant kept == KeptUpTo(data, i) && extent == ExtentOf(kept)
      invariant forall d | d in kept :: |d.time| == |d.values| && |d.time| > 1
    {
      var next;
      next, extent := KeepEntry(data, i, kept, extent);
      if next.Err? {
        return Err(next.error), extent;
      }
      kept := next.value;
    }
    WellFormedUpToAll(data, |data|);
    return Ok(kept), extent;
  }

  /** None of the first `n` present records has mismatched arrays. */
  ghost predicate WellFormedUpTo(data: Signals, n: nat)
    requires n <= |data|
  {
    n == 0 || (WellFormedUpTo(data, n - 1) && (data[n - 1].Some? ==> |data[n - 1].value.time| == |data[n - 1].value.values|))
  }

  lemma {:induction false} WellFormedUpToAll(data: Signals, n: nat)
    requires n <= |data|
    ensures WellFormedUpTo(data, n) <==>
              forall k | 0 <= k < n && data[k].Some? :: |data[k].value.time| == |data[k].value.values|
  {
    if n > 0 {
      WellFormedUpToAll(data, n - 1);
    }
  }

  /** One pass of the filter loop: entry `i` is tested and kept if truthy. */
  method KeepEntry(data: Signals, i: nat, kept: seq<Data>, extent: Extent) returns (r: Result<seq<Data>>, extent': Extent)
    requires i < |data| && kept == KeptUpTo(data, i)
    requires forall d | d in kept :: |d.time| == |d.values| && |d.time| > 1
    requires extent == ExtentOf(kept)
    ensures r.Err? <==> data[i].Some? && |data[i].value.time| != |data[i].value.values|
    ensures r.Err? ==> r.error.ValueError?
    ensures r.Ok? ==> r.value == KeptUpTo(data, i + 1) && extent' == ExtentOf(r.value)
    ensures r.Ok? ==> forall d | d in r.value :: |d.time| == |d.values| && |d.time| > 1
  {
    extent' := extent;
    if data[i].Some? {
      var d := data[i].value;
      var truth := d.Truthy();
      if truth.Err? {
        return Err(truth.error), extent';
      }
      if truth.value {
        KeepStep(data, i, d);
        return Ok(kept + [d]), Widen(extent, d);
      }
    }
    return Ok(kept), extent';
  }

  // ---------------------------------------------------------------------
  // Options of a subplot section

  /** `'noresample'` is present and its value is true in Python's sense, so
      any non-empty string, "False" included, disables resampling. */
  predicate NoResample(info: Section)
  {
    "noresample" in info.items && ItemTruthy(info.items["noresample"])
  }

  const TrueWords: set<string> := {"y", "yes", "t", "true", "on", "1"}
  const FalseWords: set<string> := {"n", "no", "f", "false", "off", "0"}

  /** `distutils.util.strtobool`: a case-insensitive yes/no word, else `ValueError`. */
  function StrToBool(s: string): (r: Result<bool>)
    ensures r.Ok? <==> Lower(s) in TrueWords + FalseWords
    ensures r.Ok? ==> (r.value <==> Lower(s) in TrueWords)
    ensures r.Err? ==> r.error.ValueError?
  {
    var v := Lower(s);
    if v in TrueWords then Ok(true)
    else if v in FalseWords then Ok(false)
    else Err(ValueError("invalid truth value"))
  }

  lemma {:induction false} LowerIdempotent(s: string)
    ensures Lower(Lower(s)) == Lower(s)
  {
    assert forall i | 0 <= i < |s| :: Lower(Lower(s))[i] == Lower(s)[i];
  }

  /** `strtobool` ignores case. */
  lemma StrToBoolIgnoresCase(s: string)
    ensures StrToBool(Lower(s)) == StrToBool(s)
  {
    LowerIdempotent(s);
  }

  /** `'legend' in info and strtobool(info['legend'])`: a list or a
      sub-section has no `lower()` and raises `AttributeError`. */
  function LegendFlag(info: Section): (r: Result<bool>)
    ensures "legend" !in info.items ==> r == Ok(false)
    ensures "legend" in info.items && info.items["legend"].Scalar? && info.items["legend"].v.Str? ==>
              r == StrToBool(info.items["legend"].v.s)
    ensures "legend" in info.items && !(info.items["legend"].Scalar? && info.items["legend"].v.Str?) ==>
              r == Err(AttributeError)
  {
    if "legend" !in info.items then Ok(false)
    else
      match info.items["legend"]
      case Scalar(Str(s)) => StrToBool(s)
      case _ => Err(AttributeError)
  }

  /** The xlim and ylim entries, when present, are plain values. */
  predicate LimitsAreScalars(info: Section)
  {
    ("xlim" in info.items ==> info.items["xlim"].Scalar?) &&
    ("ylim" in info.items ==> info.items["ylim"].Scalar?)
  }

  /** `[float(x) for x in parts]`, with `float` given as `toFloat`. */
  function Floats(parts: seq<string>, toFloat: string -> Option<real>): (r: Result<seq<real>>)
    ensures r.Ok? <==> forall i | 0 <= i < |parts| :: toFloat(parts[i]).Some?
    ensures r.Ok? ==> |r.value| == |parts| && forall i | 0 <= i < |parts| :: r.value[i] == toFloat(parts[i]).value
    ensures r.Err? ==> r.error.ValueError?
  {
    if parts == [] then Ok([])
    else
      var rest :- Floats(parts[1..], toFloat);
      match toFloat(parts[0])
      case None => Err(ValueError("could not convert string to float"))
      case Some(x) =>
        assert forall i | 1 <= i < |parts| :: parts[1..][i - 1] == parts[i];
        Ok([x] + rest)
  }

  /** The limits set from the option `key`: its elements converted to floats,
      which `set_xlim`/`set_ylim` accept only as a pair. */
  function Limits(info: Section, key: string, toFloat: string -> Option<real>): (r: Result<Option<(real, real)>>)
    requires key in info.items ==> info.items[key].Scalar?
    ensures key !in info.items ==> r == Ok(None)
    ensures key in info.items ==>
              var parts := Elements(info.items[key].v);
              (r.Ok? <==> |parts| == 2 && toFloat(parts[0]).Some? && toFloat(parts[1]).Some?) &&
              (r.Ok? ==> r.value == Some((toFloat(parts[0]).value, toFloat(parts[1]).value)))
    ensures r.Err? ==> r.error.ValueError?
  {
    if key !in info.items then Ok(None)
    else
      var parts := Elements(info.items[key].v);
      var xs :- Floats(parts, toFloat);
      if |xs| != 2 then Err(ValueError("limits must be a pair")) else Ok(Some((xs[0], xs[1])))
  }

  /** The first error among the options, in the order `plot` reads them. */
  function OptionsError(info: Section, toFloat: string -> Option<real>): Option<Exception>
    requires LimitsAreScalars(info)
  {
    if LegendFlag(info).Err? then Some(LegendFlag(info).error)
    else if Limits(info, "xlim", toFloat).Err? then Some(Limits(info, "xlim", toFloat).error)
    else if Limits(info, "ylim", toFloat).Err? then Some(Limits(info, "ylim", toFloat).error)
    else None
  }

  // ---------------------------------------------------------------------
  // plot

  /** The state of an axis that `plot` may change. */
  datatype AxisState = AxisState(lines: seq<Line>, legend: bool, xlabel: Option<Item>, ylabel: Option<Item>,
                                 xlo: real, xhi: real, ylo: real, yhi: real,
                                 autoscaleX: bool, autoscaleY: bool,
                                 listeners: seq<Downsampler>, sharedX: seq<Axis>)

  function Snapshot(ax: Axis): AxisState
    reads ax
  {
    AxisState(ax.lines, ax.legend, ax.xlabel, ax.ylabel, ax.xlo, ax.xhi, ax.ylo, ax.yhi,
              ax.autoscaleX, ax.autoscaleY, ax.listeners, ax.sharedX)
  }

  /** `line` is the drawing of signal `d`: its label and colour, and either
      the full data or the data downsampled by `ds` to `[lo, hi]`. */
  ghost predicate Shows(line: Line, d: Data, ds: Downsampler, lo: real, hi: real, noresample: bool)
    reads line
  {
    line.lineLabel == d.name && line.color == d.color &&
    if noresample then line.xs == d.time && line.ys == d.values
    else ds.maxPoints >= 1 && Drawable(d) && (line.xs, line.ys) == ds.Downsample(d, lo, hi)
  }

  /** After the drawing loop: the axis kept the lines it had (`before`) and
      gained one line per kept signal, in order, each showing its signal;
      the downsampler redraws exactly the new lines, or none without
      resampling. */
  ghost predicate Drawn(ax: Axis, ds: Downsampler, kept: seq<Data>, lo: real, hi: real, noresample: bool,
                        before: seq<Line>)
    reads ax`lines, ds`lines, ax.lines
  {
    ds.data == kept &&
    |ax.lines| == |before| + |kept| && ax.lines[..|before|] == before &&
    (forall i | 0 <= i < |kept| :: Shows(ax.lines[|before| + i], kept[i], ds, lo, hi, noresample)) &&
    ds.lines == if noresample then [] else ax.lines[|before|..]
  }

  /** After the label steps: the legend shown when the legend option said
      yes (`legend`), and the labels present set. */
  predicate Labelled(legend: bool, xlabel: Option<Item>, ylabel: Option<Item>, info: Section, flag: bool,
                     before: AxisState)
  {
    legend == (before.legend || flag) &&
    xlabel == (if "xlabel" in info.items then Some(info.items["xlabel"]) else before.xlabel) &&
    ylabel == (if "ylabel" in info.items then Some(info.items["ylabel"]) else before.ylabel)
  }

  /** A limit pair, or none when the option is absent. */
  type Limit = Option<(real, real)>

  /** After the limit steps: the x and y limits set where given. */
  predicate Limited(xlo: real, xhi: real, ylo: real, yhi: real, xlim: Limit, ylim: Limit, before: AxisState)
  {
    (match xlim
     case Some(lim) => xlo == lim.0 && xhi == lim.1
     case None => xlo == before.xlo && xhi == before.xhi) &&
    (match ylim
     case Some(lim) => ylo == lim.0 && yhi == lim.1
     case None => ylo == before.ylo && yhi == before.yhi)
  }

  /** After the last step: autoscaling stays on in a direction only when no
      limit was set there and there are no lines to redraw, and the
      downsampler listens to the axis exactly when it has lines. */
  predicate Subscribed(autoscaleX: bool, autoscaleY: bool, listeners: seq<Downsampler>, sharedX: seq<Axis>,
                       ds: Downsampler, dsLines: seq<Line>, xlim: Limit, ylim: Limit, before: AxisState)
  {
    autoscaleX == (before.autoscaleX && xlim.None? && dsLines == []) &&
    autoscaleY == (before.autoscaleY && ylim.None? && dsLines == []) &&
    listeners == before.listeners + (if dsLines == [] then [] else [ds]) &&
    sharedX == before.sharedX
  }

  /** The options of a section that `plot` applies without error. */
  predicate OptionsApply(info: Section, toFloat: string -> Option<real>)
    requires LimitsAreScalars(info)
  {
    LegendFlag(info).Ok? && Limits(info, "xlim", toFloat).Ok? && Limits(info, "ylim", toFloat).Ok?
  }

  /** What a successful `plot` leaves behind, from the axis state `before`
      it ran: `ds` holds the kept signals and the budget, they are drawn on
      `ax` over `[lo, hi]`, and the options are applied. */
  ghost predicate Plotted(ax: Axis, info: Section, ds: Downsampler, kept: seq<Data>, lo: real, hi: real,
                          downsampling: int, toFloat: string -> Option<real>, before: AxisState)
    requires LimitsAreScalars(info)
    reads ax, ds, ax.lines
  {
    ds.ax == ax && ds.maxPoints == (if downsampling < 1 then 1000 else downsampling) && ds.Valid() &&
    Drawn(ax, ds, kept, lo, hi, NoResample(info), before.lines) &&
    OptionsApply(info, toFloat) && Labelled(ax.legend, ax.xlabel, ax.ylabel, info, LegendFlag(info).value, before) &&
    Limited(ax.xlo, ax.xhi, ax.ylo, ax.yhi, Limits(info, "xlim", toFloat).value, Limits(info, "ylim", toFloat).value, before) &&
    Subscribed(ax.autoscaleX, ax.autoscaleY, ax.listeners, ax.sharedX, ds, ds.lines, Limits(info, "xlim", toFloat).value, Limits(info, "ylim", toFloat).value, before)
  }

  /** One turn of the drawing loop: plot `d`, downsampled unless
      `noresample`, and register the line with `ds` when resampling. */
  method DrawSignal(ax: Axis, ds: Downsampler, d: Data, lo: real, hi: real, noresample: bool) returns (line: Line)
    requires ds.Valid() && Drawable(d)
    requires !noresample ==> |ds.lines| < |ds.data| && Drawable(ds.data[|ds.lines|])
    modifies ax`lines, ds`lines
    ensures ds.Valid()
    ensures ax.lines == old(ax.lines) + [line] && line !in old(ax.lines)
    ensures ds.lines == old(ds.lines) + (if noresample then [] else [line])
    ensures Shows(line, d, ds, lo, hi, noresample)
  {
    if !noresample {
      var xy := ds.Downsample(d, lo, hi);
      line := ax.Plot(xy.0, xy.1, d.name, d.color);
      ds.lines := ds.lines + [line];
    } else {
      line := ax.Plot(d.time, d.values, d.name, d.color);
    }
  }

  /** The drawing loop of `plot`: one line per kept signal, in order. With
      resampling the line shows the signal downsampled to the extent and is
      registered with the downsampler; without it the line shows the full
      data and is not registered. */
  method DrawSignals(ax: Axis, ds: Downsampler, kept: seq<Data>, lo: real, hi: real, noresample: bool)
    requires ds.Valid() && ds.lines == [] && ds.data == kept
    requires forall d | d in kept :: Drawable(d)
    modifies ax`lines, ds`lines
    ensures ds.Valid() && Drawn(ax, ds, kept, lo, hi, noresample, old(ax.lines))
  {
    ghost var drawn: seq<Line> := [];
    for i := 0 to |kept|
      invariant ax.lines == old(ax.lines) + drawn && |drawn| == i
      invariant forall k | 0 <= k < i :: Shows(drawn[k], kept[k], ds, lo, hi, noresample)
      invariant ds.lines == if noresample then [] else drawn
      invariant ds.Valid()
    {
      var line := DrawSignal(ax, ds, kept[i], lo, hi, noresample);
      drawn := drawn + [line];
    }
    assert ax.lines[..|old(ax.lines)|] == old(ax.lines);
    assert ax.lines[|old(ax.lines)|..] == drawn;
  }

  /** The legend and label steps of `plot`: the legend is shown when the
      'legend' option reads as true, and each label present is set. A legend
      option that is not a yes/no word stops it before any label is set. */
  method DecorateLabels(ax: Axis, info: Section, ghost before: AxisState) returns (r: Result<bool>)
    requires ax.legend == before.legend && ax.xlabel == before.xlabel && ax.ylabel == before.ylabel
    modifies ax`legend, ax`xlabel, ax`ylabel
    ensures r == LegendFlag(info)
    ensures r.Err? ==> unchanged(ax)
    ensures r.Ok? ==> Labelled(ax.legend, ax.xlabel, ax.ylabel, info, r.value, before)
  {
    r := LegendFlag(info);
    if r.Err? {
      return;
    }
    if r.value {
      ax.ShowLegend();
    }
    if "xlabel" in info.items {
      ax.SetXLabel(info.items["xlabel"]);
    }
    if "ylabel" in info.items {
      ax.SetYLabel(info.items["ylabel"]);
    }
  }

  /** The limit steps of `plot`: xlim, then ylim, each set as a float pair
      when present. A bad xlim stops it before ylim is read. */
  method DecorateLimits(ax: Axis, info: Section, toFloat: string -> Option<real>, ghost before: AxisState)
    returns (r: Result<(Limit, Limit)>)
    requires LimitsAreScalars(info)
    requires ax.xlo == before.xlo && ax.xhi == before.xhi && ax.ylo == before.ylo && ax.yhi == before.yhi
    requires ax.autoscaleX == before.autoscaleX && ax.autoscaleY == before.autoscaleY
    modifies ax`xlo, ax`xhi, ax`ylo, ax`yhi, ax`autoscaleX, ax`autoscaleY
    ensures r.Err? <==> Limits(info, "xlim", toFloat).Err? || Limits(info, "ylim", toFloat).Err?
    ensures r.Err? ==> r.error == (if Limits(info, "xlim", toFloat).Err? then Limits(info, "xlim", toFloat).error
                                   else Limits(info, "ylim", toFloat).error)
    ensures r.Ok? ==> r.value == (Limits(info, "xlim", toFloat).value, Limits(info, "ylim", toFloat).value)
    ensures r.Ok? ==> Limited(ax.xlo, ax.xhi, ax.ylo, ax.yhi, r.value.0, r.value.1, before)
    ensures r.Ok? ==> ax.autoscaleX == (before.autoscaleX && r.value.0.None?) &&
                      ax.autoscaleY == (before.autoscaleY && r.value.1.None?)
  {
    var xlim := Limits(info, "xlim", toFloat);
    if xlim.Err? {
      return Err(xlim.error);
    }
    if xlim.value.Some? {
      ax.SetXLim(xlim.value.value.0, xlim.value.value.1);
    }
    var ylim := Limits(info, "ylim", toFloat);
    if ylim.Err? {
      return Err(ylim.error);
    }
    if ylim.value.Some? {
      ax.SetYLim(ylim.value.value.0, ylim.value.value.1);
    }
    return Ok((xlim.value, ylim.value));
  }

  function Lo(e: Extent): real
  {
    if e.Span? then e.lo else 0.0
  }

  function Hi(e: Extent): real
  {
    if e.Span? then e.hi else 0.0
  }

  /** The last step of `plot`: a downsampler with lines to redraw turns
      autoscaling off and listens to x-limit changes. */
  method Subscribe(ax: Axis, ds: Downsampler, xlim: Limit, ylim: Limit, ghost before: AxisState)
    requires ax.autoscaleX == (before.autoscaleX && xlim.None?) && ax.autoscaleY == (before.autoscaleY && ylim.None?)
    requires ax.listeners == before.listeners && ax.sharedX == before.sharedX
    modifies ax`autoscaleX, ax`autoscaleY, ax`listeners
    ensures Subscribed(ax.autoscaleX, ax.autoscaleY, ax.listeners, ax.sharedX, ds, ds.lines, xlim, ylim, before)
  {
    if |ds.lines| > 0 {
      ax.DisableAutoscale();
      ax.Connect(ds);
    }
  }

  /** The steps of `plot` after the drawing loop: the labels, the limits,
      and the subscription of `ds` when it has lines to redraw. `before` is
      the axis state before the drawing, which touched only the lines. */
  method Decorate(ax: Axis, info: Section, ds: Downsampler, toFloat: string -> Option<real>, ghost before: AxisState)
    returns (r: Result<()>)
    requires LimitsAreScalars(info)
    requires Snapshot(ax) == before.(lines := ax.lines)
    modifies ax`legend, ax`xlabel, ax`ylabel, ax`xlo, ax`xhi, ax`ylo, ax`yhi, ax`autoscaleX, ax`autoscaleY, ax`listeners
    ensures r.Err? <==> OptionsError(info, toFloat).Some?
    ensures r.Err? ==> r.error == OptionsError(info, toFloat).value
    ensures r.Ok? ==> OptionsApply(info, toFloat) && Labelled(ax.legend, ax.xlabel, ax.ylabel, info, LegendFlag(info).value, before) &&
                      Limited(ax.xlo, ax.xhi, ax.ylo, ax.yhi, Limits(info, "xlim", toFloat).value, Limits(info, "ylim", toFloat).value, before) &&
                      Subscribed(ax.autoscaleX, ax.autoscaleY, ax.listeners, ax.sharedX, ds, ds.lines, Limits(info, "xlim", toFloat).value, Limits(info, "ylim", toFloat).value, before)
  {
    var labelled := DecorateLabels(ax, info, before);
    if labelled.Err? {
      return Err(labelled.error);
    }
    assert Labelled(ax.legend, ax.xlabel, ax.ylabel, info, labelled.value, before);
    var limited := DecorateLimits(ax, info, toFloat, before);
    if limited.Err? {
      return Err(limited.error);
    }
    Subscribe(ax, ds, limited.value.0, limited.value.1, before);
    return Ok(());
  }

  /** `Decorate` after the drawing loop, which it leaves as drawn. */
  method DecorateDrawn(ax: Axis, info: Section, ds: Downsampler, toFloat: string -> Option<real>, ghost before: AxisState,
                       ghost kept: seq<Data>, ghost lo: real, ghost hi: real)
    returns (r: Result<()>)
    requires LimitsAreScalars(info)
    requires Snapshot(ax) == before.(lines := ax.lines)
    requires Drawn(ax, ds, kept, lo, hi, NoResample(info), before.lines)
    modifies ax`legend, ax`xlabel, ax`ylabel, ax`xlo, ax`xhi, ax`ylo, ax`yhi, ax`autoscaleX, ax`autoscaleY, ax`listeners
    ensures r.Err? <==> OptionsError(info, toFloat).Some?
    ensures r.Err? ==> r.error == OptionsError(info, toFloat).value
    ensures r.Ok? ==> OptionsApply(info, toFloat) && Drawn(ax, ds, kept, lo, hi, NoResample(info), before.lines) &&
                      Labelled(ax.legend, ax.xlabel, ax.ylabel, info, LegendFlag(info).value, before) &&
                      Limited(ax.xlo, ax.xhi, ax.ylo, ax.yhi, Limits(info, "xlim", toFloat).value, Limits(info, "ylim", toFloat).value, before) &&
                      Subscribed(ax.autoscaleX, ax.autoscaleY, ax.listeners, ax.sharedX, ds, ds.lines, Limits(info, "xlim", toFloat).value, Limits(info, "ylim", toFloat).value, before)
  {
    r := Decorate(ax, info, ds, toFloat, before);
  }

  /** The part of `plot` after the filter loop: bind a downsampler to the
      kept signals, draw them, then apply the options and subscribe. */
  method DrawAndDecorate(ax: Axis, info: Section, kept: seq<Data>, extent: Extent, downsampling: int,
                         toFloat: string -> Option<real>, ghost before: AxisState)
    returns (r: Result<Downsampler>)
    requires LimitsAreScalars(info)
    requires forall d | d in kept :: Drawable(d)
    requires Snapshot(ax) == before
    modifies ax
    ensures r.Err? <==> OptionsError(info, toFloat).Some?
    ensures r.Err? ==> r.error == OptionsError(info, toFloat).value
    ensures r.Ok? ==> fresh(r.value) && r.value.delta == ExtentWidth(extent) &&
                      Plotted(ax, info, r.value, kept, Lo(extent), Hi(extent), downsampling, toFloat, before)
  {
    var ds := new Downsampler(kept, ExtentWidth(extent), ax, downsampling);
    DrawSignals(ax, ds, kept, Lo(extent), Hi(extent), NoResample(info));
    var decorated := DecorateDrawn(ax, info, ds, toFloat, before, kept, Lo(extent), Hi(extent));
    if decorated.Err? {
      return Err(decorated.error);
    }
    return Ok(ds);
  }

  /** `plot(ax, info_dict, data, downsampling)`: nothing to do without data;
      a signal with mismatched arrays raises before anything is drawn;
      otherwise the kept signals are drawn over their extent and the options
      applied, the first bad option raising after the drawing. */
  method Plot(ax: Axis, info: Section, data: Option<Signals>, downsampling: int, toFloat: string -> Option<real>)
    returns (r: Result<Option<Downsampler>>)
    requires LimitsAreScalars(info)
    modifies ax
    ensures data.None? ==> r == Ok(None) && unchanged(ax)
    ensures data.Some? && !AllWellFormed(data.value) ==> r.Err? && r.error.ValueError? && unchanged(ax)
    ensures data.Some? && AllWellFormed(data.value) ==>
              (r.Err? <==> OptionsError(info, toFloat).Some?) &&
              (r.Err? ==> r.error == OptionsError(info, toFloat).value) &&
              (r.Ok? ==> r.value.Some?)
    ensures r.Ok? && r.value.Some? ==>
              var kept := Kept(data.value);
              var extent := ExtentOf(kept);
              fresh(r.value.value) && r.value.value.delta == ExtentWidth(extent) &&
              Plotted(ax, info, r.value.value, kept, Lo(extent), Hi(extent), downsampling, toFloat, old(Snapshot(ax)))
  {
    if data.None? {
      return Ok(None);
    }
    var keptR, extent := KeepSignals(data.value);
    if keptR.Err? {
      return Err(keptR.error);
    }
    var drawn := DrawAndDecorate(ax, info, keptR.value, extent, downsampling, toFloat, Snapshot(ax));
    if drawn.Err? {
      return Err(drawn.error);
    }
    return Ok(Some(drawn.value));
  }

  // ---------------------------------------------------------------------
  // plot_all_data

  /** The axis a position key "ij" selects, `axs[j][i]`, and its data entry.
      A key that is not two digits fails to unpack (`ValueError`), an
      out-of-range position fails to index (`IndexError`), and a key without
      data fails the dictionary lookup (`KeyError`), in that order. */
  function Target(key: string, axs: seq<seq<Axis>>, data: map<string, Option<Signals>>): (r: Result<Axis>)
    ensures r.Ok? ==> |key| == 2 && AllDigits(key) && key in data &&
                      DigitValue(key[1]) < |axs| && DigitValue(key[0]) < |axs[DigitValue(key[1])]| &&
                      r.value == axs[DigitValue(key[1])][DigitValue(key[0])] && r.value in AxesOf(axs)
    ensures r.Err? ==> (r.error.ValueError? <==> !(|key| == 2 && AllDigits(key)))
  {
    if !(|key| == 2 && IsDigit(key[0]) && IsDigit(key[1])) then Err(ValueError("cannot unpack position key"))
    else
      var i, j := DigitValue(key[0]), DigitValue(key[1]);
      if j >= |axs| || i >= |axs[j]| then Err(IndexError)
      else if key !in data then Err(KeyError(key))
      else Ok(axs[j][i])
  }

  predicate PlotSucceeds(info: Section, data: Option<Signals>, toFloat: string -> Option<real>)
    requires LimitsAreScalars(info)
  {
    data.Some? ==> AllWellFormed(data.value) && OptionsError(info, toFloat).None?
  }

  function AxesOf(axs: seq<seq<Axis>>): set<Axis>
  {
    set j, i | 0 <= j < |axs| && 0 <= i < |axs[j]| :: axs[j][i]
  }

  /** What `plot` returned for a position: nothing without data, otherwise
      a downsampler bound to the selected axis and holding the kept signals. */
  ghost predicate Placed(result: Option<Downsampler>, ax: Axis, data: Option<Signals>)
  {
    (result.None? <==> data.None?) &&
    (result.Some? ==> result.value.ax == ax && result.value.data == Kept(data.value))
  }

  /** What a `plot` that returned `result` did to `ax`, from the state
      `before` it ran: nothing when it returned `None`, otherwise the kept
      signals drawn over their extent and the options applied. */
  ghost predicate PlotEffect(ax: Axis, info: Section, result: Option<Downsampler>, data: Option<Signals>,
                             downsampling: int, toFloat: string -> Option<real>, before: AxisState)
    requires LimitsAreScalars(info)
    reads ax, ax.lines, if result.Some? then {result.value} else {}
  {
    if result.None? then Snapshot(ax) == before
    else
      data.Some? &&
      var kept := Kept(data.value);
      var extent := ExtentOf(kept);
      result.value.delta == ExtentWidth(extent) &&
      Plotted(ax, info, result.value, kept, Lo(extent), Hi(extent), downsampling, toFloat, before)
  }

  /** The exception `plot_all_data` raises at position `key`: the key's own
      error, else `ValueError` for a malformed record, else the first bad
      option of the section. */
  predicate RaisesAt(e: Exception, key: string, axs: seq<seq<Axis>>, info: Section,
                     data: map<string, Option<Signals>>, toFloat: string -> Option<real>)
    requires LimitsAreScalars(info)
  {
    match Target(key, axs, data)
    case Err(t) => e == t
    case Ok(_) =>
      data[key].Some? &&
      if AllWellFormed(data[key].value) then OptionsError(info, toFloat) == Some(e) else e.ValueError?
  }

  /** One turn of `plot_all_data`: unpack the key, select the axis, look
      up the data and plot it. */
  method PlotAt(axs: seq<seq<Axis>>, key: string, info: Section, data: map<string, Option<Signals>>,
                downsampling: int, toFloat: string -> Option<real>)
    returns (r: Result<Option<Downsampler>>)
    requires LimitsAreScalars(info)
    modifies if Target(key, axs, data).Ok? then {Target(key, axs, data).value} else {}
    ensures r.Ok? <==> Target(key, axs, data).Ok? && PlotSucceeds(info, data[key], toFloat)
    ensures r.Err? ==> RaisesAt(r.error, key, axs, info, data, toFloat)
    ensures r.Ok? ==> Placed(r.value, Target(key, axs, data).value, data[key])
    ensures r.Ok? && r.value.Some? ==> fresh(r.value.value)
    ensures r.Ok? ==> var ax := Target(key, axs, data).value;
                      PlotEffect(ax, info, r.value, data[key], downsampling, toFloat, old(Snapshot(ax)))
    ensures r.Err? && Target(key, axs, data).Ok? && !AllWellFormed(data[key].value) ==>
              unchanged(Target(key, axs, data).value)
  {
    var target := Target(key, axs, data);
    if target.Err? {
      return Err(target.error);
    }
    var ax := target.value;
    r := Plot(ax, info, data[key], downsampling, toFloat);
  }

  /** The axes of the figure are distinct objects, as `plt.subplots` and
      `fig.add_subplot` create them. */
  predicate DistinctAxes(axs: seq<seq<Axis>>)
  {
    forall j, i, j', i' | 0 <= j < |axs| && 0 <= i < |axs[j]| && 0 <= j' < |axs| && 0 <= i' < |axs[j']| &&
                          (j, i) != (j', i') :: axs[j][i] != axs[j'][i']
  }

  /** Distinct position keys select distinct axes of a figure. */
  lemma TargetsDistinct(axs: seq<seq<Axis>>, data: map<string, Option<Signals>>, k1: string, k2: string)
    requires DistinctAxes(axs) && k1 != k2
    requires Target(k1, axs, data).Ok? && Target(k2, axs, data).Ok?
    ensures Target(k1, axs, data).value != Target(k2, axs, data).value
  {
    assert k1 == [k1[0], k1[1]] && k2 == [k2[0], k2[1]];
  }

  /** `plot_all_data(axs, locs, data, downsampling)`: `plot` for every
      position key in order, on the axis the key selects; the results are
      collected in order, `None` results included. The first failure stops
      it with that position's exception. On a figure of distinct axes, each
      selected axis ends as its own `plot` left it. */
  method PlotAll(axs: seq<seq<Axis>>, locs: Layout, data: map<string, Option<Signals>>, downsampling: int,
                 toFloat: string -> Option<real>)
    returns (r: Result<seq<Option<Downsampler>>>)
    requires locs.Valid() && forall k | k in locs.sections :: LimitsAreScalars(locs.sections[k])
    modifies AxesOf(axs)
    ensures r.Ok? <==> forall n | 0 <= n < |locs.keys| ::
                         Target(locs.keys[n], axs, data).Ok? &&
                         PlotSucceeds(locs.sections[locs.keys[n]], data[locs.keys[n]], toFloat)
    ensures r.Err? ==> exists n | 0 <= n < |locs.keys| ::
                         (forall m | 0 <= m < n :: Target(locs.keys[m], axs, data).Ok? &&
                                                    PlotSucceeds(locs.sections[locs.keys[m]], data[locs.keys[m]], toFloat)) &&
                         RaisesAt(r.error, locs.keys[n], axs, locs.sections[locs.keys[n]], data, toFloat)
    ensures r.Ok? ==> |r.value| == |locs.keys|
    ensures r.Ok? ==> forall n | 0 <= n < |locs.keys| ::
                        Placed(r.value[n], Target(locs.keys[n], axs, data).value, data[locs.keys[n]])
    ensures r.Ok? && DistinctAxes(axs) ==>
              forall n | 0 <= n < |locs.keys| ::
                PlotEffect(Target(locs.keys[n], axs, data).value, locs.sections[locs.keys[n]], r.value[n],
                           data[locs.keys[n]], downsampling, toFloat, old(Snapshot(Target(locs.keys[n], axs, data).value)))
  {
    ghost var before := map a | a in AxesOf(axs) :: Snapshot(a);
    if DistinctAxes(axs) {
      assert LaterUntouched(axs, locs, data, 0, before);
    }
    r := PlotKeys(axs, locs, data, downsampling, toFloat, before);
    if r.Ok? && DistinctAxes(axs) {
      AllKeysPlotted(axs, locs, data, downsampling, toFloat, r.value, before);
      forall m | 0 <= m < |locs.keys|
        ensures PlotEffect(Target(locs.keys[m], axs, data).value, locs.sections[locs.keys[m]], r.value[m],
                           data[locs.keys[m]], downsampling, toFloat, old(Snapshot(Target(locs.keys[m], axs, data).value)))
      {
        ghost var ax := Target(locs.keys[m], axs, data).value;
        assert before[ax] == old(Snapshot(ax));
      }
    }
  }

  /** The loop of `plot_all_data`, with the axis states at entry given as
      `before`: the keys in order, stopping at the first failure. On a
      figure of distinct axes each selected axis ends as its own `plot`
      left it. */
  method PlotKeys(axs: seq<seq<Axis>>, locs: Layout, data: map<string, Option<Signals>>, downsampling: int,
                  toFloat: string -> Option<real>, ghost before: map<Axis, AxisState>)
    returns (r: Result<seq<Option<Downsampler>>>)
    requires locs.Valid() && forall k | k in locs.sections :: LimitsAreScalars(locs.sections[k])
    requires DistinctAxes(axs) ==> LaterUntouched(axs, locs, data, 0, before)
    modifies AxesOf(axs)
    ensures r.Ok? <==> forall n | 0 <= n < |locs.keys| ::
                         Target(locs.keys[n], axs, data).Ok? &&
                         PlotSucceeds(locs.sections[locs.keys[n]], data[locs.keys[n]], toFloat)
    ensures r.Err? ==> exists n | 0 <= n < |locs.keys| ::
                         (forall m | 0 <= m < n :: Target(locs.keys[m], axs, data).Ok? &&
                                                    PlotSucceeds(locs.sections[locs.keys[m]], data[locs.keys[m]], toFloat)) &&
                         RaisesAt(r.error, locs.keys[n], axs, locs.sections[locs.keys[n]], data, toFloat)
    ensures r.Ok? ==> |r.value| == |locs.keys|
    ensures r.Ok? ==> forall n | 0 <= n < |locs.keys| ::
                        Placed(r.value[n], Target(locs.keys[n], axs, data).value, data[locs.keys[n]])
    ensures r.Ok? && DistinctAxes(axs) ==>
              EarlierPlotted(axs, locs, data, downsampling, toFloat, |locs.keys|, r.value, before)
  {
    var results: seq<Option<Downsampler>> := [];
    for n := 0 to |locs.keys|
      invariant |results| == n
      invariant forall m | 0 <= m < n ::
                  Target(locs.keys[m], axs, data).Ok? &&
                  PlotSucceeds(locs.sections[locs.keys[m]], data[locs.keys[m]], toFloat) &&
                  Placed(results[m], Target(locs.keys[m], axs, data).value, data[locs.keys[m]])
      invariant DistinctAxes(axs) ==> EarlierPlotted(axs, locs, data, downsampling, toFloat, n, results, before)
      invariant DistinctAxes(axs) ==> LaterUntouched(axs, locs, data, n, before)
    {
      var result := PlotNext(axs, locs, data, downsampling, toFloat, n, results, before);
      if result.Err? {
        return Err(result.error);
      }
      results := results + [result.value];
    }
    return Ok(results);
  }

  /** Turn `n` of `plot_all_data`: `PlotAt` for the n-th key. On a figure
      of distinct axes it touches no axis of another key, so the earlier
      axes stay as their own `plot` left them and the later ones as they
      were. */
  method PlotNext(axs: seq<seq<Axis>>, locs: Layout, data: map<string, Option<Signals>>, downsampling: int,
                  toFloat: string -> Option<real>, n: nat, results: seq<Option<Downsampler>>,
                  ghost before: map<Axis, AxisState>)
    returns (r: Result<Option<Downsampler>>)
    requires locs.Valid() && forall k | k in locs.sections :: LimitsAreScalars(locs.sections[k])
    requires n < |locs.keys| && |results| == n
    requires DistinctAxes(axs) ==> EarlierPlotted(axs, locs, data, downsampling, toFloat, n, results, before)
    requires DistinctAxes(axs) ==> LaterUntouched(axs, locs, data, n, before)
    modifies AxesOf(axs)
    ensures r.Ok? <==> Target(locs.keys[n], axs, data).Ok? && PlotSucceeds(locs.sections[locs.keys[n]], data[locs.keys[n]], toFloat)
    ensures r.Err? ==> RaisesAt(r.error, locs.keys[n], axs, locs.sections[locs.keys[n]], data, toFloat)
    ensures r.Ok? ==> Placed(r.value, Target(locs.keys[n], axs, data).value, data[locs.keys[n]])
    ensures r.Ok? && DistinctAxes(axs) ==>
              EarlierPlotted(axs, locs, data, downsampling, toFloat, n + 1, results + [r.value], before)
    ensures r.Ok? && DistinctAxes(axs) ==> LaterUntouched(axs, locs, data, n + 1, before)
    ensures unchanged(Downsamplers(results))
  {
    var key := locs.keys[n];
    if DistinctAxes(axs) {
      OtherAxes(axs, locs, data, n);
      LaterShrinks(axs, locs, data, n, before);
    }
    label Pre:
    r := PlotAt(axs, key, locs.sections[key], data, downsampling, toFloat);
    assert unchanged@Pre(Downsamplers(results));
    if r.Ok? && DistinctAxes(axs) {
      ghost var earlier := AxesOfKeys(axs, locs.keys, data, 0, n);
      assert unchanged@Pre(earlier);
      assert unchanged@Pre(old@Pre(LinesOn(earlier)));
      assert unchanged@Pre(AxesOfKeys(axs, locs.keys, data, n + 1, |locs.keys|));
      EarlierGrows(axs, locs, data, downsampling, toFloat, n, results, r.value, before);
    }
  }

  /** The axes the keys in `[lo, hi)` select. */
  function AxesOfKeys(axs: seq<seq<Axis>>, keys: seq<string>, data: map<string, Option<Signals>>, lo: nat, hi: nat): (r: set<Axis>)
    ensures r <= AxesOf(axs)
  {
    set m | lo <= m < hi && m < |keys| && Target(keys[m], axs, data).Ok? :: Target(keys[m], axs, data).value
  }

  /** The lines drawn on some axes. */
  function LinesOn(axes: set<Axis>): set<Line>
    reads axes
  {
    set a, l | a in axes && l in a.lines :: l
  }

  /** The downsamplers among some results. */
  function Downsamplers(results: seq<Option<Downsampler>>): set<Downsampler>
  {
    set r | r in results && r.Some? :: r.value
  }

  /** The axis of the m-th key is as its `plot` left it, from its state in
      `before`. */
  ghost predicate KeyPlotted(axs: seq<seq<Axis>>, locs: Layout, data: map<string, Option<Signals>>, downsampling: int,
                             toFloat: string -> Option<real>, m: nat, result: Option<Downsampler>,
                             before: map<Axis, AxisState>)
    requires locs.Valid() && forall k | k in locs.sections :: LimitsAreScalars(locs.sections[k])
    requires m < |locs.keys|
    reads AxesOfKeys(axs, locs.keys, data, m, m + 1), LinesOn(AxesOfKeys(axs, locs.keys, data, m, m + 1)),
          if result.Some? then {result.value} else {}
  {
    var axes := AxesOfKeys(axs, locs.keys, data, m, m + 1);
    match Target(locs.keys[m], axs, data)
    case Err(_) => false
    case Ok(ax) =>
      assert ax in axes;
      assert forall l | l in ax.lines :: l in LinesOn(axes);
      ax in before &&
      PlotEffect(ax, locs.sections[locs.keys[m]], result, data[locs.keys[m]], downsampling, toFloat, before[ax])
  }

  /** The selected axes of the first `n` keys are as their `plot` left
      them, from their states in `before`. */
  ghost predicate EarlierPlotted(axs: seq<seq<Axis>>, locs: Layout, data: map<string, Option<Signals>>, downsampling: int,
                                 toFloat: string -> Option<real>, n: nat, results: seq<Option<Downsampler>>,
                                 before: map<Axis, AxisState>)
    requires locs.Valid() && forall k | k in locs.sections :: LimitsAreScalars(locs.sections[k])
    requires n <= |locs.keys| && |results| == n
    reads AxesOfKeys(axs, locs.keys, data, 0, n), LinesOn(AxesOfKeys(axs, locs.keys, data, 0, n)), Downsamplers(results)
    decreases n
  {
    n == 0 ||
    (assert AxesOfKeys(axs, locs.keys, data, 0, n - 1) <= AxesOfKeys(axs, locs.keys, data, 0, n);
     assert AxesOfKeys(axs, locs.keys, data, n - 1, n) <= AxesOfKeys(axs, locs.keys, data, 0, n);
     assert Downsamplers(results[..n - 1]) <= Downsamplers(results);
     assert results[n - 1] in results;
     EarlierPlotted(axs, locs, data, downsampling, toFloat, n - 1, results[..n - 1], before) &&
     KeyPlotted(axs, locs, data, downsampling, toFloat, n - 1, results[n - 1], before))
  }

  /** `EarlierPlotted` key by key. */
  lemma {:induction false} EarlierPlottedAll(axs: seq<seq<Axis>>, locs: Layout, data: map<string, Option<Signals>>,
                                             downsampling: int, toFloat: string -> Option<real>, n: nat,
                                             results: seq<Option<Downsampler>>, before: map<Axis, AxisState>)
    requires locs.Valid() && forall k | k in locs.sections :: LimitsAreScalars(locs.sections[k])
    requires n <= |locs.keys| && |results| == n
    requires EarlierPlotted(axs, locs, data, downsampling, toFloat, n, results, before)
    ensures forall m | 0 <= m < n :: KeyPlotted(axs, locs, data, downsampling, toFloat, m, results[m], before)
  {
    if n > 0 {
      var prefix := results[..n - 1];
      EarlierPlottedAll(axs, locs, data, downsampling, toFloat, n - 1, prefix, before);
      forall m | 0 <= m < n
        ensures KeyPlotted(axs, locs, data, downsampling, toFloat, m, results[m], before)
      {
        if m < n - 1 {
          assert prefix[m] == results[m];
        }
      }
    }
  }

  /** Every key's axis is as its `plot` left it, from its state in `before`. */
  lemma AllKeysPlotted(axs: seq<seq<Axis>>, locs: Layout, data: map<string, Option<Signals>>,
                       downsampling: int, toFloat: string -> Option<real>,
                       results: seq<Option<Downsampler>>, before: map<Axis, AxisState>)
    requires locs.Valid() && forall k | k in locs.sections :: LimitsAreScalars(locs.sections[k])
    requires |results| == |locs.keys|
    requires EarlierPlotted(axs, locs, data, downsampling, toFloat, |locs.keys|, results, before)
    ensures forall m | 0 <= m < |locs.keys| ::
              Target(locs.keys[m], axs, data).Ok? && Target(locs.keys[m], axs, data).value in before &&
              PlotEffect(Target(locs.keys[m], axs, data).value, locs.sections[locs.keys[m]], results[m],
                         data[locs.keys[m]], downsampling, toFloat, before[Target(locs.keys[m], axs, data).value])
  {
    EarlierPlottedAll(axs, locs, data, downsampling, toFloat, |locs.keys|, results, before);
    forall m | 0 <= m < |locs.keys|
      ensures Target(locs.keys[m], axs, data).Ok? && Target(locs.keys[m], axs, data).value in before &&
              PlotEffect(Target(locs.keys[m], axs, data).value, locs.sections[locs.keys[m]], results[m],
                         data[locs.keys[m]], downsampling, toFloat, before[Target(locs.keys[m], axs, data).value])
    {
      assert KeyPlotted(axs, locs, data, downsampling, toFloat, m, results[m], before);
    }
  }

  /** The selected axes of the keys from `n` on are still in their states
      in `before`. */
  ghost predicate LaterUntouched(axs: seq<seq<Axis>>, locs: Layout, data: map<string, Option<Signals>>, n: nat,
                                 before: map<Axis, AxisState>)
    reads AxesOfKeys(axs, locs.keys, data, n, |locs.keys|)
  {
    forall m | n <= m < |locs.keys| && Target(locs.keys[m], axs, data).Ok? ::
      Target(locs.keys[m], axs, data).value in before &&
      assert Target(locs.keys[m], axs, data).value in AxesOfKeys(axs, locs.keys, data, n, |locs.keys|);
      Snapshot(Target(locs.keys[m], axs, data).value) == before[Target(locs.keys[m], axs, data).value]
  }

  /** On a figure of distinct axes, the n-th key's axis is the axis of no
      other key. */
  lemma OtherAxes(axs: seq<seq<Axis>>, locs: Layout, data: map<string, Option<Signals>>, n: nat)
    requires locs.Valid() && DistinctAxes(axs) && n < |locs.keys|
    ensures Target(locs.keys[n], axs, data).Ok? ==>
              Target(locs.keys[n], axs, data).value !in AxesOfKeys(axs, locs.keys, data, 0, n) &&
              Target(locs.keys[n], axs, data).value !in AxesOfKeys(axs, locs.keys, data, n + 1, |locs.keys|)
  {
    UniqueDistinct(locs.keys);
    var key := locs.keys[n];
    if Target(key, axs, data).Ok? {
      forall m | 0 <= m < |locs.keys| && m != n && Target(locs.keys[m], axs, data).Ok?
        ensures Target(locs.keys[m], axs, data).value != Target(key, axs, data).value
      {
        TargetsDistinct(axs, data, locs.keys[m], key);
      }
    }
  }

  /** The keys from `n + 1` on are among those from `n` on. */
  lemma LaterShrinks(axs: seq<seq<Axis>>, locs: Layout, data: map<string, Option<Signals>>, n: nat,
                     before: map<Axis, AxisState>)
    requires n < |locs.keys| && LaterUntouched(axs, locs, data, n, before)
    ensures LaterUntouched(axs, locs, data, n + 1, before)
    ensures Target(locs.keys[n], axs, data).Ok? ==>
              Target(locs.keys[n], axs, data).value in before &&
              Snapshot(Target(locs.keys[n], axs, data).value) == before[Target(locs.keys[n], axs, data).value]
  {
  }

  /** The n-th key's `plot` extends what the earlier ones did. */
  lemma EarlierGrows(axs: seq<seq<Axis>>, locs: Layout, data: map<string, Option<Signals>>, downsampling: int,
                     toFloat: string -> Option<real>, n: nat, results: seq<Option<Downsampler>>,
                     result: Option<Downsampler>, before: map<Axis, AxisState>)
    requires locs.Valid() && forall k | k in locs.sections :: LimitsAreScalars(locs.sections[k])
    requires n < |locs.keys| && |results| == n
    requires EarlierPlotted(axs, locs, data, downsampling, toFloat, n, results, before)
    requires KeyPlotted(axs, locs, data, downsampling, toFloat, n, result, before)
    ensures EarlierPlotted(axs, locs, data, downsampling, toFloat, n + 1, results + [result], before)
  {
    assert (results + [result])[..n] == results;
  }

  // ---------------------------------------------------------------------
  // create_figure: the grid layout

  /** `[x for x in column_setup if x > 0]`: every positive count as often
      as it occurs, and nothing else. */
  function PositiveColumns(columnSetup: seq<int>): (cols: seq<int>)
    ensures forall i | 0 <= i < |cols| :: cols[i] > 0
    ensures forall x | x in columnSetup && x > 0 :: x in cols
    ensures forall x | x in cols :: x in columnSetup
    ensures forall x :: multiset(cols)[x] == if x > 0 then multiset(columnSetup)[x] else 0
  {
    if columnSetup == [] then []
    else
      assert columnSetup == [columnSetup[0]] + columnSetup[1..];
      (if columnSetup[0] > 0 then [columnSetup[0]] else []) + PositiveColumns(columnSetup[1..])
  }

  /** The comprehension keeps the input order: filtering a concatenation
      concatenates the filtered parts. */
  lemma {:induction false} PositiveColumnsAppend(a: seq<int>, b: seq<int>)
    ensures PositiveColumns(a + b) == PositiveColumns(a) + PositiveColumns(b)
  {
    if a == [] {
      assert a + b == b;
    } else {
      assert (a + b)[0] == a[0] && (a + b)[1..] == a[1..] + b;
      PositiveColumnsAppend(a[1..], b);
    }
  }

  /** The grid cell of one subplot: rows `[rowLo, rowHi)` of column `col`. */
  datatype Cell = Cell(rowLo: nat, rowHi: nat, col: nat)

  /** The j-th subplot of column `col`, each subplot `factor` rows high:
      `gs[factor*j:factor*(j+1), col]`. */
  function SpanCell(factor: nat, j: nat, col: nat): Cell
  {
    Cell(factor * j, factor * (j + 1), col)
  }

  /** The row spans of `create_figure` on a grid `lcm` rows high: row j of
      the idx-th positive column covers `[f*j, f*(j+1))` with `f = lcm // n`.
      `lcm` is `global_lcm` of the positive columns, computed by
      source/gui/helpers.py, which is not part of this model. */
  method GridCells(columnSetup: seq<int>, lcm: nat) returns (cells: seq<seq<Cell>>)
    ensures var cols := PositiveColumns(columnSetup);
            |cells| == |cols| &&
            forall idx | 0 <= idx < |cols| ::
              |cells[idx]| == cols[idx] &&
              forall j | 0 <= j < cols[idx] :: cells[idx][j] == SpanCell(lcm / cols[idx], j, idx)
  {
    var cols := PositiveColumns(columnSetup);
    cells := [];
    for idx := 0 to |cols|
      invariant |cells| == idx
      invariant forall c | 0 <= c < idx ::
                  |cells[c]| == cols[c] &&
                  forall j | 0 <= j < cols[c] :: cells[c][j] == SpanCell(lcm / cols[c], j, c)
    {
      var item := cols[idx];
      var factor := lcm / item;
      var axes: seq<Cell> := [];
      for j := 0 to item
        invariant |axes| == j
        invariant forall k | 0 <= k < j :: axes[k] == SpanCell(factor, k, idx)
      {
        axes := axes + [Cell(factor * j, factor * (j + 1), idx)];
      }
      cells := cells + [axes];
    }
  }

  /** Grid row `g` lies in the j-th span of height `f`. */
  predicate InSpan(f: nat, j: nat, g: nat)
  {
    f * j <= g < f * (j + 1)
  }

  /** When the column height n divides the grid height, its n row spans
      tile the grid: each grid row lies in exactly one span. */
  lemma SpansTile(n: nat, lcm: nat, g: nat)
    requires n > 0 && Divides(n, lcm) && g < lcm
    ensures var f := lcm / n;
            f > 0 && 0 <= g / f < n && InSpan(f, g / f, g) &&
            forall j | 0 <= j < n && InSpan(f, j, g) :: j == g / f
  {
    SpanHeight(n, lcm);
    RowInOneSpan(lcm / n, n, g);
  }

  /** A row below `n` spans of height `f` lies in span `g / f` and no other. */
  lemma RowInOneSpan(f: nat, n: nat, g: nat)
    requires f > 0 && g < n * f
    ensures 0 <= g / f < n && InSpan(f, g / f, g) && forall j | 0 <= j < n && InSpan(f, j, g) :: j == g / f
  {
    QuotientBounds(f, g);
    QuotientBelow(f, n, g);
    forall j | 0 <= j < n && InSpan(f, j, g) ensures j == g / f {
      QuotientOfSpan(f, g, j);
    }
  }

  /** The span height `lcm / n` is positive and n spans make up the grid. */
  lemma SpanHeight(n: nat, lcm: nat)
    requires n > 0 && Divides(n, lcm) && lcm > 0
    ensures lcm / n > 0 && n * (lcm / n) == lcm
  {
    Quotient(n, lcm);
  }

  lemma QuotientBounds(f: nat, g: nat)
    requires f > 0
    ensures InSpan(f, g / f, g)
  {
    assert g == f * (g / f) + g % f;
    assert f * (g / f + 1) == f * (g / f) + f;
  }

  lemma QuotientBelow(f: nat, n: nat, g: nat)
    requires f > 0 && g < n * f
    ensures g / f < n
  {
    QuotientBounds(f, g);
    if g / f >= n {
      MulMonotone(f, n, g / f);
    }
  }

  lemma QuotientOfSpan(f: nat, g: nat, j: nat)
    requires f > 0 && InSpan(f, j, g)
    ensures g / f == j
  {
    assert f * (j + 1) == f * j + f;
    DivModUnique(f, g, j, g - f * j);
  }

  lemma MulMonotone(f: nat, n: nat, q: nat)
    requires n <= q
    ensures f * n <= f * q
  {
  }

  /** Every span of a column lies inside the grid, since `f*n <= lcm`. */
  lemma SpansInsideGrid(n: nat, lcm: nat, j: nat)
    requires n > 0 && j < n
    ensures (lcm / n) * (j + 1) <= lcm
  {
    var f := lcm / n;
    MulMonotone(f, j + 1, n);
    assert f * n <= lcm by {
      assert lcm == n * f + lcm % n;
    }
  }

  /** With the common multiple of `global_lcm` as grid height, every
      positive column's spans tile the whole grid. */
  lemma GlobalLcmTiles(columnSetup: seq<int>, idx: nat, g: nat)
    requires |PositiveColumns(columnSetup)| >= 2 && idx < |PositiveColumns(columnSetup)|
    requires g < LcmAll(PositiveColumns(columnSetup))
    ensures var cols := PositiveColumns(columnSetup);
            var f := LcmAll(cols) / cols[idx];
            exists j | 0 <= j < cols[idx] :: InSpan(f, j, g)
  {
    var cols := PositiveColumns(columnSetup);
    LcmAllIsLeast(cols);
    SpansTile(cols[idx], LcmAll(cols), g);
  }
}
