/** The interactive downsampler of app/plotting/resample.py, with the parts
    of matplotlib it drives (a drawn line and an axis) as plain records.

    `Downsampler.Downsample` picks, for one signal and one view window, the
    samples to draw: those strictly inside the window plus the sample right
    after each of them, thinned to every `stride`-th one. `Downsampler.Update`
    is the axis's 'xlim_changed' callback: when the view width changed it
    redraws every registered line for the new window and moves the axes that
    share the x range to the same interval. */
module Resample {
  import opened Wrappers
  import opened Config
  import opened SourceData

  // =====================================================================
  // The selection rule, on plain sequences

  predicate InWindow(t: real, xstart: real, xend: real)
  {
    xstart < t && t < xend
  }

  /** `(time > xstart) & (time < xend)`. */
  function StrictMask(time: seq<real>, xstart: real, xend: real): (m: seq<bool>)
    ensures |m| == |time|
  {
    seq(|time|, k requires 0 <= k < |time| => InWindow(time[k], xstart, xend))
  }

  /** `np.convolve([1, 1], v, mode='same')` on a 0/1 vector: the full
      convolution is `v[k] + v[k-1]`, and 'same' keeps its first `|v|` entries. */
  function ConvolvePairSame(v: seq<int>): (r: seq<int>)
    ensures |r| == |v|
  {
    seq(|v|, k requires 0 <= k < |v| => v[k] + (if k > 0 then v[k - 1] else 0))
  }

  function AsInts(m: seq<bool>): (r: seq<int>)
    ensures |r| == |m|
  {
    seq(|m|, k requires 0 <= k < |m| => if m[k] then 1 else 0)
  }

  /** `.astype(bool)`. */
  function AsBools(v: seq<int>): (r: seq<bool>)
    ensures |r| == |v|
  {
    seq(|v|, k requires 0 <= k < |v| => v[k] != 0)
  }

  /** The dilated mask of line 24. */
  function Dilate(m: seq<bool>): (d: seq<bool>)
    ensures |d| == |m|
  {
    AsBools(ConvolvePairSame(AsInts(m)))
  }

  /** The dilation is one-sided: a sample is marked iff it or its
      predecessor was, so the sample after a marked run is added but the
      sample before it is not. */
  lemma DilateMarks(m: seq<bool>, k: int)
    requires 0 <= k < |m|
    ensures Dilate(m)[k] <==> m[k] || (k > 0 && m[k - 1])
  {
  }

  /** `np.sum(mask)`. */
  function Count(m: seq<bool>): nat
  {
    if m == [] then 0 else Count(m[..|m| - 1]) + (if m[|m| - 1] then 1 else 0)
  }

  /** The indices at which `m` is true, in increasing order. */
  function Positions(m: seq<bool>): seq<nat>
  {
    if m == [] then [] else Positions(m[..|m| - 1]) + (if m[|m| - 1] then [|m| - 1] else [])
  }

  /** `s[m]`: the entries of `s` where the boolean mask is true, in order. */
  function Compress<T>(s: seq<T>, m: seq<bool>): seq<T>
    requires |s| == |m|
  {
    if s == [] then []
    else Compress(s[..|s| - 1], m[..|m| - 1]) + (if m[|m| - 1] then [s[|s| - 1]] else [])
  }

  /** `s[::step]`. */
  function Strided<T>(s: seq<T>, step: nat): seq<T>
    requires step >= 1
    decreases |s|
  {
    if s == [] then [] else [s[0]] + Strided(s[(if step < |s| then step else |s|)..], step)
  }

  /** `max(np.sum(mask) // max_points, 1)`. */
  function Ratio(count: nat, maxPoints: int): (r: nat)
    requires maxPoints >= 1
    ensures r >= 1
  {
    if count / maxPoints > 1 then count / maxPoints else 1
  }

  predicate StrictlyIncreasing(p: seq<nat>)
  {
    forall i, j | 0 <= i < j < |p| :: p[i] < p[j]
  }

  /** `Positions(m)` lists exactly the marked indices, once each, in order. */
  lemma {:induction false} PositionsExact(m: seq<bool>)
    ensures |Positions(m)| == Count(m)
    ensures StrictlyIncreasing(Positions(m))
    ensures forall i | 0 <= i < |Positions(m)| :: Positions(m)[i] < |m| && m[Positions(m)[i]]
    ensures forall k | 0 <= k < |m| && m[k] :: k in Positions(m)
  {
    if m != [] {
      var init := m[..|m| - 1];
      PositionsExact(init);
      forall k | 0 <= k < |init| && init[k] ensures k in Positions(m) {
        assert k in Positions(init);
      }
    }
  }

  /** `s[m]` is `s` read at the marked positions. */
  lemma {:induction false} CompressAtPositions<T>(s: seq<T>, m: seq<bool>)
    requires |s| == |m|
    ensures |Compress(s, m)| == |Positions(m)|
    ensures forall i | 0 <= i < |Compress(s, m)| :: Positions(m)[i] < |s| && Compress(s, m)[i] == s[Positions(m)[i]]
  {
    if s != [] {
      var s', m' := s[..|s| - 1], m[..|m| - 1];
      CompressAtPositions(s', m');
      PositionsExact(m');
      forall i | 0 <= i < |Positions(m')| ensures Positions(m')[i] < |s'| {
      }
    }
  }

  /** `s[::step]` has ceil(|s| / step) entries. */
  lemma {:induction false} StridedLength<T>(s: seq<T>, step: nat)
    requires step >= 1
    ensures CeilOf(|Strided(s, step)|, |s|, step)
    decreases |s|
  {
    if s != [] && step < |s| {
      var rest := s[step..];
      StridedLength(rest, step);
      var n := |Strided(rest, step)|;
      assert |Strided(s, step)| == n + 1;
      assert (n + 1) * step == n * step + step;
      assert n * step == (n - 1) * step + step;
    }
  }

  /** `s[::step]` keeps the entries at 0, step, 2*step, ... */
  lemma {:induction false} StridedAt<T>(s: seq<T>, step: nat)
    requires step >= 1
    ensures forall i | 0 <= i < |Strided(s, step)| :: i * step < |s| && Strided(s, step)[i] == s[i * step]
    decreases |s|
  {
    if s == [] {
      return;
    }
    var k := if step < |s| then step else |s|;
    var rest := s[k..];
    StridedAt(rest, step);
    var tail := Strided(rest, step);
    var r := Strided(s, step);
    assert r == [s[0]] + tail;
    forall i | 0 < i < |r| ensures i * step < |s| && r[i] == s[i * step] {
      var j := i - 1;
      MulSucc(j, step);
      assert r[i] == tail[j] == rest[j * step];
    }
  }

  lemma {:induction false} StridedSameLength<T, U>(a: seq<T>, b: seq<U>, step: nat)
    requires step >= 1 && |a| == |b|
    ensures |Strided(a, step)| == |Strided(b, step)|
    decreases |a|
  {
    if a != [] {
      var k := if step < |a| then step else |a|;
      StridedSameLength(a[k..], b[k..], step);
    }
  }

  /** Thinning the marked entries of `s` by `stride`: ceil(count / stride)
      entries, entry i being `s` at the (i * stride)-th marked position. */
  lemma SelectionAt<T>(s: seq<T>, m: seq<bool>, stride: nat)
    requires |s| == |m| && stride >= 1
    ensures CeilOf(|Strided(Compress(s, m), stride)|, Count(m), stride)
    ensures var r, p := Strided(Compress(s, m), stride), Positions(m);
            forall i | 0 <= i < |r| :: i * stride < |p| && p[i * stride] < |s| && r[i] == s[p[i * stride]]
  {
    SelectionLength(s, m, stride);
    SelectionEntries(s, m, stride);
  }

  lemma SelectionLength<T>(s: seq<T>, m: seq<bool>, stride: nat)
    requires |s| == |m| && stride >= 1
    ensures CeilOf(|Strided(Compress(s, m), stride)|, Count(m), stride)
  {
    PositionsExact(m);
    CompressAtPositions(s, m);
    StridedLength(Compress(s, m), stride);
  }

  lemma SelectionEntries<T>(s: seq<T>, m: seq<bool>, stride: nat)
    requires |s| == |m| && stride >= 1
    ensures var r, p := Strided(Compress(s, m), stride), Positions(m);
            forall i | 0 <= i < |r| :: i * stride < |p| && p[i * stride] < |s| && r[i] == s[p[i * stride]]
  {
    var c, p := Compress(s, m), Positions(m);
    var r := Strided(c, stride);
    CompressAtPositions(s, m);
    StridedAt(c, stride);
    forall i | 0 <= i < |r| ensures i * stride < |p| && p[i * stride] < |s| && r[i] == s[p[i * stride]] {
      var j := i * stride;
      assert j < |c| && r[i] == c[j];
    }
  }

  /** `len` is ceil(n / stride). */
  predicate CeilOf(len: int, n: int, stride: int)
  {
    (len - 1) * stride < n <= len * stride
  }

  /** ceil(n / stride) lies between 1 and n for a positive n. */
  lemma CeilBetween(n: nat, len: nat, stride: nat)
    requires stride >= 1 && CeilOf(len, n, stride)
    ensures len <= n && (n > 0 ==> len > 0)
  {
    if len > 0 {
      MulAtLeast(len - 1, stride);
    }
  }

  lemma MulSucc(j: nat, step: nat)
    ensures (j + 1) * step == j * step + step
  {
  }

  lemma {:induction false} MulAtLeast(a: nat, b: nat)
    requires b >= 1
    ensures a <= a * b
  {
    if a > 0 {
      MulAtLeast(a - 1, b);
      assert a * b == (a - 1) * b + b;
    }
  }

  /** A marked sample of the dilated mask is one inside the window or the
      one right after a sample inside it. */
  lemma DilatedSelection(time: seq<real>, xstart: real, xend: real, k: int)
    requires 0 <= k < |time|
    ensures k in Positions(Dilate(StrictMask(time, xstart, xend))) <==>
            InWindow(time[k], xstart, xend) || (k > 0 && InWindow(time[k - 1], xstart, xend))
  {
    var d := Dilate(StrictMask(time, xstart, xend));
    PositionsExact(d);
    DilateMarks(StrictMask(time, xstart, xend), k);
    if k in Positions(d) {
      var i :| 0 <= i < |Positions(d)| && Positions(d)[i] == k;
    }
  }

  /** With no sample strictly inside the window, nothing is marked. */
  lemma {:induction false} NothingInWindow(time: seq<real>, xstart: real, xend: real)
    requires forall k | 0 <= k < |time| :: !InWindow(time[k], xstart, xend)
    ensures Count(Dilate(StrictMask(time, xstart, xend))) == 0
  {
    var d := Dilate(StrictMask(time, xstart, xend));
    PositionsExact(d);
    if |Positions(d)| > 0 {
      var k := Positions(d)[0];
      DilateMarks(StrictMask(time, xstart, xend), k);
      assert false;
    }
  }

  // =====================================================================
  // numpy on short signals

  /** A signal `downsample` reads without numpy raising: arrays of one
      length holding at least two samples. `plot` keeps only such signals. */
  predicate Drawable(d: Data)
  {
    |d.time| == |d.values| && |d.time| > 1
  }

  /** `np.convolve([1, 1], v, mode='same')` for a `v` of any length: numpy
      refuses an empty `v`, and 'same' returns the first max(2, |v|) entries
      of the full convolution, so a single entry yields two. */
  function ConvolvePairSameChecked(v: seq<int>): (r: Result<seq<int>>)
    ensures r.Err? <==> v == []
    ensures r.Err? ==> r.error == ValueError("v cannot be empty")
    ensures r.Ok? ==> |r.value| == (if |v| == 1 then 2 else |v|) &&
                      forall k | 0 <= k < |r.value| ::
                        r.value[k] == (if k < |v| then v[k] else 0) + (if 0 < k <= |v| then v[k - 1] else 0)
  {
    if v == [] then Err(ValueError("v cannot be empty"))
    else if |v| == 1 then Ok([v[0], v[0]])
    else Ok(ConvolvePairSame(v))
  }

  /** `s[m]` with a boolean mask: numpy raises IndexError unless the mask is
      exactly as long as the array; otherwise one entry per marked position. */
  function MaskIndex<T>(s: seq<T>, m: seq<bool>): (r: Result<seq<T>>)
    ensures r.Err? <==> |m| != |s|
    ensures r.Err? ==> r.error == IndexError
    ensures r.Ok? ==> |r.value| == Count(m)
  {
    if |m| != |s| then Err(IndexError)
    else
      CompressAtPositions(s, m);
      PositionsExact(m);
      Ok(Compress(s, m))
  }

  // =====================================================================
  // matplotlib stand-ins

  /** A drawn `Line2D`: its data arrays, its legend label and colour. */
  class Line {
    var xs: seq<real>
    var ys: seq<real>
    const lineLabel: string
    const color: string

    constructor (xs: seq<real>, ys: seq<real>, lineLabel: string, color: string)
      ensures this.xs == xs && this.ys == ys && this.lineLabel == lineLabel && this.color == color
    {
      this.xs := xs;
      this.ys := ys;
      this.lineLabel := lineLabel;
      this.color := color;
    }

    /** `line.set_data(x, y)`: the same line object shows new data. */
    method SetData(xs: seq<real>, ys: seq<real>)
      modifies this`xs, this`ys
      ensures this.xs == xs && this.ys == ys
    {
      this.xs := xs;
      this.ys := ys;
    }
  }

  /** An `Axes`: its view interval, autoscale flags, drawn lines,
      decoration, the 'xlim_changed' subscribers and the axes it shares its
      x range with (`get_shared_x_axes().get_siblings(ax)`, itself included). */
  class Axis {
    var xlo: real
    var xhi: real
    var ylo: real
    var yhi: real
    var autoscaleX: bool
    var autoscaleY: bool
    var lines: seq<Line>
    var legend: bool
    var xlabel: Option<Item>
    var ylabel: Option<Item>
    var listeners: seq<Downsampler>
    var sharedX: seq<Axis>

    constructor (xlo: real, xhi: real, ylo: real, yhi: real)
      ensures this.xlo == xlo && this.xhi == xhi && this.ylo == ylo && this.yhi == yhi
      ensures autoscaleX && autoscaleY && lines == [] && !legend
      ensures xlabel == None && ylabel == None && listeners == [] && sharedX == [this]
    {
      this.xlo, this.xhi, this.ylo, this.yhi := xlo, xhi, ylo, yhi;
      autoscaleX, autoscaleY := true, true;
      lines, legend, xlabel, ylabel := [], false, None, None;
      listeners, sharedX := [], [this];
    }

    /** `Bbox.width` of the view limits: `x1 - x0`. */
    function Width(): real
      reads this
    {
      xhi - xlo
    }

    /** `ax.plot(x, y, label=..., color=...)`: a new line on this axis. */
    method Plot(xs: seq<real>, ys: seq<real>, lineLabel: string, color: string) returns (line: Line)
      modifies this`lines
      ensures fresh(line) && lines == old(lines) + [line]
      ensures line.xs == xs && line.ys == ys && line.lineLabel == lineLabel && line.color == color
    {
      line := new Line(xs, ys, lineLabel, color);
      lines := lines + [line];
    }

    /** `ax.set_xlim((lo, hi), auto=False)`. */
    method SetXLim(lo: real, hi: real)
      modifies this`xlo, this`xhi, this`autoscaleX
      ensures xlo == lo && xhi == hi && !autoscaleX
    {
      xlo, xhi, autoscaleX := lo, hi, false;
    }

    /** `ax.set_ylim((lo, hi), auto=False)`. */
    method SetYLim(lo: real, hi: real)
      modifies this`ylo, this`yhi, this`autoscaleY
      ensures ylo == lo && yhi == hi && !autoscaleY
    {
      ylo, yhi, autoscaleY := lo, hi, false;
    }

    method SetXLabel(v: Item)
      modifies this`xlabel
      ensures xlabel == Some(v)
    {
      xlabel := Some(v);
    }

    method SetYLabel(v: Item)
      modifies this`ylabel
      ensures ylabel == Some(v)
    {
      ylabel := Some(v);
    }

    /** `ax.legend()` followed by `draggable()`. */
    method ShowLegend()
      modifies this`legend
      ensures legend
    {
      legend := true;
    }

    /** `ax.set_autoscale_on(False)`. */
    method DisableAutoscale()
      modifies this`autoscaleX, this`autoscaleY
      ensures !autoscaleX && !autoscaleY
    {
      autoscaleX, autoscaleY := false, false;
    }

    /** `ax.callbacks.connect('xlim_changed', ds.update)`. */
    method Connect(ds: Downsampler)
      modifies this`listeners
      ensures listeners == old(listeners) + [ds]
    {
      listeners := listeners + [ds];
    }
  }

  // =====================================================================
  // The downsampler

  /** The width the downsampler last saw. The binder builds it from
      `xend - xstart`, which is `-inf - (+inf)` when no signal was kept. */
  datatype Width = Finite(w: real) | MinusInfinity

  /** The 1e-8 tolerance of the width guard. */
  const Tolerance: real := 0.00000001

  /** `np.abs(width - self.delta) > 1e-8`. */
  predicate WidthChanged(width: real, delta: Width)
  {
    match delta
    case MinusInfinity => true
    case Finite(w) => width - w > Tolerance || w - width > Tolerance
  }

  class Downsampler {
    const maxPoints: int
    var delta: Width
    const data: seq<Data>
    var lines: seq<Line>
    const ax: Axis

    /** `DataDisplayDownsampler(data_list, delta, ax, max_points)`: a budget
        below 1 becomes 1000; no line is registered yet. */
    constructor (dataList: seq<Data>, delta: Width, ax: Axis, maxPoints: int)
      ensures this.maxPoints == (if maxPoints < 1 then 1000 else maxPoints)
      ensures this.delta == delta && data == dataList && this.ax == ax && lines == []
      ensures Valid()
    {
      this.maxPoints := if maxPoints < 1 then 1000 else maxPoints;
      this.delta := delta;
      data := dataList;
      lines := [];
      this.ax := ax;
    }

    /** Line i is redrawn from signal i, so there is a signal for every line,
        lines are distinct, and the signals they draw can be downsampled. */
    ghost predicate Valid()
      reads this
    {
      maxPoints >= 1 && |lines| <= |data| &&
      (forall i, j | 0 <= i < j < |lines| :: lines[i] != lines[j]) &&
      (forall i | 0 <= i < |lines| :: Drawable(data[i]))
    }

    /** The dilated mask of `d` for a window. */
    function Marked(d: Data, xstart: real, xend: real): seq<bool>
    {
      Dilate(StrictMask(d.time, xstart, xend))
    }

    /** `downsample(data, xstart, xend)`: the marked samples, thinned to
        every `Ratio`-th one, as an (x, y) pair. It changes nothing. */
    function Downsample(d: Data, xstart: real, xend: real): (r: (seq<real>, seq<real>))
      requires maxPoints >= 1 && Drawable(d)
    {
      var mask := Marked(d, xstart, xend);
      var stride := Ratio(Count(mask), maxPoints);
      (Strided(Compress(d.time, mask), stride), Strided(Compress(d.values, mask), stride))
    }

    /** `downsample(data, xstart, xend)` as numpy runs it, for a signal of
        any length with matching arrays: the convolution raises on an empty
        signal, and on a one-sample signal the two-entry mask makes the
        boolean indexing raise. */
    function DownsampleChecked(d: Data, xstart: real, xend: real): (r: Result<(seq<real>, seq<real>)>)
      requires maxPoints >= 1 && |d.time| == |d.values|
    {
      var conv := ConvolvePairSameChecked(AsInts(StrictMask(d.time, xstart, xend)));
      if conv.Err? then Err(conv.error)
      else
        var mask := AsBools(conv.value);
        var xs := MaskIndex(d.time, mask);
        if xs.Err? then Err(xs.error)
        else
          var stride := Ratio(Count(mask), maxPoints);
          Ok((Strided(xs.value, stride), Strided(MaskIndex(d.values, mask).value, stride)))
    }

    /** The numpy run raises exactly on signals of fewer than two samples:
        ValueError for none, IndexError for one. On every other signal it
        returns `Downsample`. */
    lemma DownsampleCheckedIs(d: Data, xstart: real, xend: real)
      requires maxPoints >= 1 && |d.time| == |d.values|
      ensures DownsampleChecked(d, xstart, xend).Ok? <==> Drawable(d)
      ensures |d.time| == 0 ==> DownsampleChecked(d, xstart, xend) == Err(ValueError("v cannot be empty"))
      ensures |d.time| == 1 ==> DownsampleChecked(d, xstart, xend) == Err(IndexError)
      ensures Drawable(d) ==> DownsampleChecked(d, xstart, xend) == Ok(Downsample(d, xstart, xend))
    {
    }

    /** What `Downsample` selects: with `kept` marked samples and stride
        `max(kept // maxPoints, 1)`, ceil(kept / stride) samples, the i-th
        being the original (time, value) pair at the (i * stride)-th marked
        position; nothing at all when no sample lies inside the window. */
    lemma DownsampleSelects(d: Data, xstart: real, xend: real)
      requires maxPoints >= 1 && Drawable(d)
      ensures var r, kept := Downsample(d, xstart, xend), Count(Marked(d, xstart, xend));
              |r.0| == |r.1| && CeilOf(|r.0|, kept, Ratio(kept, maxPoints))
      ensures var r, kept := Downsample(d, xstart, xend), Count(Marked(d, xstart, xend));
              |r.0| <= kept && (kept > 0 ==> |r.0| > 0)
      ensures var r, p := Downsample(d, xstart, xend), Positions(Marked(d, xstart, xend));
              var stride := Ratio(Count(Marked(d, xstart, xend)), maxPoints);
              forall i | 0 <= i < |r.0| ::
                i * stride < |p| && p[i * stride] < |d.time| &&
                r.0[i] == d.time[p[i * stride]] && r.1[i] == d.values[p[i * stride]]
      ensures (forall k | 0 <= k < |d.time| :: !InWindow(d.time[k], xstart, xend)) ==>
                Downsample(d, xstart, xend) == ([], [])
    {
      var mask := Marked(d, xstart, xend);
      var stride := Ratio(Count(mask), maxPoints);
      var r := Downsample(d, xstart, xend);
      SelectionAt(d.time, mask, stride);
      SelectionAt(d.values, mask, stride);
      CompressAtPositions(d.time, mask);
      CompressAtPositions(d.values, mask);
      StridedSameLength(Compress(d.time, mask), Compress(d.values, mask), stride);
      CeilBetween(Count(mask), |r.0|, stride);
      if forall k | 0 <= k < |d.time| :: !InWindow(d.time[k], xstart, xend) {
        NothingInWindow(d.time, xstart, xend);
      }
    }

    /** `update(ax)`, the 'xlim_changed' callback for the axis `view`. When
        the width moved by no more than the tolerance nothing changes;
        otherwise the width is stored, every registered line is redrawn for
        the new interval, and every other axis sharing x with this
        downsampler's own axis is moved to the same interval. */
    method Update(view: Axis)
      requires Valid()
      modifies this`delta, lines`xs, lines`ys, ax.sharedX`xlo, ax.sharedX`xhi, ax.sharedX`autoscaleX
      ensures Valid()
      ensures !WidthChanged(old(view.xhi - view.xlo), old(delta)) ==>
                delta == old(delta) &&
                (forall i | 0 <= i < |lines| :: lines[i].xs == old(lines[i].xs) && lines[i].ys == old(lines[i].ys)) &&
                (forall o | o in ax.sharedX :: o.xlo == old(o.xlo) && o.xhi == old(o.xhi) && o.autoscaleX == old(o.autoscaleX))
      ensures WidthChanged(old(view.xhi - view.xlo), old(delta)) ==>
                delta == Finite(old(view.xhi - view.xlo)) &&
                (forall i | 0 <= i < |lines| ::
                  (lines[i].xs, lines[i].ys) == Downsample(data[i], old(view.xlo), old(view.xhi))) &&
                (forall o | o in ax.sharedX && o != ax ::
                  o.xlo == old(view.xlo) && o.xhi == old(view.xhi) && !o.autoscaleX) &&
                (ax.xlo == old(ax.xlo) && ax.xhi == old(ax.xhi) && ax.autoscaleX == old(ax.autoscaleX))
    {
      var width := view.xhi - view.xlo;
      if !WidthChanged(width, delta) {
        return;
      }
      delta := Finite(width);
      var xstart, xend := view.xlo, view.xhi;
      RedrawLines(xstart, xend);
      ShareXLim(xstart, xend);
    }

    /** The loop over `enumerate(self.lines)`: line i shows signal i
        downsampled for the interval. */
    method RedrawLines(xstart: real, xend: real)
      requires Valid()
      modifies lines`xs, lines`ys
      ensures forall i | 0 <= i < |lines| :: (lines[i].xs, lines[i].ys) == Downsample(data[i], xstart, xend)
    {
      for idx := 0 to |lines|
        invariant forall i | 0 <= i < idx :: (lines[i].xs, lines[i].ys) == Downsample(data[i], xstart, xend)
      {
        var line, r := lines[idx], Downsample(data[idx], xstart, xend);
        line.SetData(r.0, r.1);
        assert forall i | 0 <= i < idx :: lines[i] != line;
      }
    }

    /** The loop over the siblings of the downsampler's axis: every other
        axis sharing x gets the interval and stops autoscaling x. */
    method ShareXLim(xstart: real, xend: real)
      modifies ax.sharedX`xlo, ax.sharedX`xhi, ax.sharedX`autoscaleX
      ensures forall o | o in ax.sharedX && o != ax :: o.xlo == xstart && o.xhi == xend && !o.autoscaleX
      ensures ax.xlo == old(ax.xlo) && ax.xhi == old(ax.xhi) && ax.autoscaleX == old(ax.autoscaleX)
    {
      var siblings := ax.sharedX;
      for n := 0 to |siblings|
        invariant forall o | o in siblings[..n] && o != ax :: o.xlo == xstart && o.xhi == xend && !o.autoscaleX
        invariant ax.xlo == old(ax.xlo) && ax.xhi == old(ax.xhi) && ax.autoscaleX == old(ax.autoscaleX)
      {
        var other := siblings[n];
        if other != ax {
          other.SetXLim(xstart, xend);
        }
        assert siblings[..n + 1] == siblings[..n] + [other];
      }
      assert siblings[..|siblings|] == siblings;
    }
  }

  // =====================================================================
  // Worked cases

  /** A window whose ends are exactly the first and last sample times marks
      no sample: the mask is strict and the dilation only adds successors of
      marked samples. */
  lemma ClosedEndsMarkNothing()
    ensures Count(Dilate(StrictMask([0.0, 10.0], 0.0, 10.0))) == 0
  {
    NothingInWindow([0.0, 10.0], 0.0, 10.0);
  }
}
