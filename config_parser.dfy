/** The configuration reader of source/config/parser.py: grid keys for every
    subplot position of the column setup, default colours for the signals
    of each subplot, and the defaults of the 'setup' section. Reading the
    file (ConfigObj) is not modelled: the parsed file is the input. */
module ConfigParser {
  import opened Wrappers
  import opened Text
  import opened Config

  // ---------------------------------------------------------------------
  // add_grid_keys

  /** `"{0:d}{1:d}".format(row, col)`. */
  function GridKey(row: nat, col: nat): string
  {
    NatToString(row) + NatToString(col)
  }

  /** Keys are not unique once a row or column reaches 10: row 1 of column
      11 and row 11 of column 1 are both "111". */
  lemma GridKeyCollision()
    ensures GridKey(1, 11) == GridKey(11, 1) == "111"
  {
  }

  /** Below 10 rows and 10 columns distinct positions have distinct keys. */
  lemma GridKeyInjective(r1: nat, c1: nat, r2: nat, c2: nat)
    requires r1 < 10 && c1 < 10 && r2 < 10 && c2 < 10
    requires GridKey(r1, c1) == GridKey(r2, c2)
    ensures r1 == r2 && c1 == c2
  {
    assert GridKey(r1, c1)[0] == GridKey(r2, c2)[0];
    assert GridKey(r1, c1)[1] == GridKey(r2, c2)[1];
  }

  /** `config[key] = dict()` unless `key` is already present. */
  function AddKeyTo(layout: Layout, key: string): (r: Layout)
    requires layout.Valid()
    ensures r.Valid()
  {
    if key in layout.sections then layout else layout.Put(key, EmptySection)
  }

  /** `config[key] = dict()` for each key of `ks` that is not yet present. */
  function AddKeys(layout: Layout, ks: seq<string>): (r: Layout)
    requires layout.Valid()
    ensures r.Valid()
  {
    if ks == [] then layout else AddKeyTo(AddKeys(layout, ks[..|ks| - 1]), ks[|ks| - 1])
  }

  /** The keys `add_grid_keys` visits, in the order it visits them: column by
      column, and within a column row by row. */
  function RowKeys(col: nat, nrow: int): (r: seq<string>)
    decreases if nrow > 0 then nrow else 0
  {
    if nrow <= 0 then [] else RowKeys(col, nrow - 1) + [GridKey(nrow - 1, col)]
  }

  function GridKeyListUpTo(columnSetup: seq<int>, n: nat): seq<string>
    requires n <= |columnSetup|
  {
    if n == 0 then [] else GridKeyListUpTo(columnSetup, n - 1) + RowKeys(n - 1, columnSetup[n - 1])
  }

  function GridKeyList(columnSetup: seq<int>): seq<string>
  {
    GridKeyListUpTo(columnSetup, |columnSetup|)
  }

  /** A column visits exactly the keys of its rows. */
  lemma {:induction false} RowKeysAre(col: nat, nrow: int, key: string)
    ensures key in RowKeys(col, nrow) <==> exists row: nat | row < nrow :: key == GridKey(row, col)
    decreases if nrow > 0 then nrow else 0
  {
    if nrow > 0 {
      RowKeysAre(col, nrow - 1, key);
      if key == GridKey(nrow - 1, col) {
        assert nrow - 1 < nrow;
      }
    }
  }

  /** `add_grid_keys` visits exactly the keys that name a position (row, col)
      with col a column of the setup and row below that column's row count. */
  lemma {:induction false} GridKeysAre(columnSetup: seq<int>, n: nat, key: string)
    requires n <= |columnSetup|
    ensures key in GridKeyListUpTo(columnSetup, n) <==>
              exists col: nat, row: nat | col < n && row < columnSetup[col] :: key == GridKey(row, col)
  {
    if n > 0 {
      GridKeysAre(columnSetup, n - 1, key);
      RowKeysAre(n - 1, columnSetup[n - 1], key);
      if key in RowKeys(n - 1, columnSetup[n - 1]) {
        var row: nat :| row < columnSetup[n - 1] && key == GridKey(row, n - 1);
        assert n - 1 < n && row < columnSetup[n - 1] && key == GridKey(row, n - 1);
      }
      if exists col: nat, row: nat | col < n && row < columnSetup[col] :: key == GridKey(row, col) {
        var col: nat, row: nat :| col < n && row < columnSetup[col] && key == GridKey(row, col);
        if col == n - 1 {
          assert key in RowKeys(n - 1, columnSetup[n - 1]);
        }
      }
    }
  }

  /** The dictionary after `add_grid_keys(config, column_setup)`. */
  function WithGridKeys(layout: Layout, columnSetup: seq<int>): (r: Layout)
    requires layout.Valid()
    ensures r.Valid()
  {
    AddKeys(layout, GridKeyList(columnSetup))
  }

  /** `after` is `before` with empty sections added after its keys. */
  ghost predicate Extends(after: Layout, before: Layout)
  {
    (forall k | k in before.sections :: k in after.sections && after.sections[k] == before.sections[k]) &&
    (forall k | k in after.sections && k !in before.sections :: after.sections[k] == EmptySection) &&
    |after.keys| >= |before.keys| && after.keys[..|before.keys|] == before.keys
  }

  lemma ExtendsTransitive(a: Layout, b: Layout, c: Layout)
    requires Extends(b, a) && Extends(c, b)
    ensures Extends(c, a)
  {
    assert c.keys[..|a.keys|] == c.keys[..|b.keys|][..|a.keys|];
  }

  /** One `config[key] = dict()` extends the dictionary by at most that key. */
  lemma AddKeyExtends(layout: Layout, key: string)
    requires layout.Valid()
    ensures Extends(AddKeyTo(layout, key), layout)
    ensures AddKeyTo(layout, key).sections.Keys == layout.sections.Keys + {key}
  {
    if key !in layout.sections {
      assert layout.Put(key, EmptySection).keys[..|layout.keys|] == layout.keys;
    }
  }

  lemma ElementsOfInit<T>(s: seq<T>, init: seq<T>)
    requires s != [] && init == s[..|s| - 1]
    ensures (set x | x in s) == (set x | x in init) + {s[|s| - 1]}
  {
    forall x | x in s ensures x in init || x == s[|s| - 1] {
      var i :| 0 <= i < |s| && s[i] == x;
      if i < |s| - 1 {
        assert init[i] == x;
      }
    }
  }

  lemma SnocParts<T>(s: seq<T>, x: T)
    ensures (s + [x])[..|s|] == s && (s + [x])[|s|] == x
  {
  }

  lemma SnocAssoc<T>(a: seq<T>, b: seq<T>, x: T)
    ensures (a + b) + [x] == a + (b + [x])
  {
  }

  /** Adding one more key. */
  lemma AddKeysSnoc(layout: Layout, ks: seq<string>, key: string)
    requires layout.Valid()
    ensures AddKeys(layout, ks + [key]) == AddKeyTo(AddKeys(layout, ks), key)
  {
    SnocParts(ks, key);
  }

  /** Adding keys adds exactly those keys, keeps every existing section as it
      was and where it was, and maps each new key to an empty section. */
  lemma {:induction false} AddKeysExtends(layout: Layout, ks: seq<string>)
    requires layout.Valid()
    ensures Extends(AddKeys(layout, ks), layout)
    ensures AddKeys(layout, ks).sections.Keys == layout.sections.Keys + set k | k in ks
  {
    if ks != [] {
      var init := ks[..|ks| - 1];
      var prev := AddKeys(layout, init);
      AddKeysExtends(layout, init);
      AddKeyExtends(prev, ks[|ks| - 1]);
      ExtendsTransitive(layout, prev, AddKeys(layout, ks));
      ElementsOfInit(ks, init);
    }
  }

  /** Adding keys that are all present changes nothing. */
  lemma {:induction false} AddKeysPresent(layout: Layout, ks: seq<string>)
    requires layout.Valid() && forall i | 0 <= i < |ks| :: ks[i] in layout.sections
    ensures AddKeys(layout, ks) == layout
  {
    if ks != [] {
      AddKeysPresent(layout, ks[..|ks| - 1]);
    }
  }

  /** `add_grid_keys` is idempotent: a second call finds every key present. */
  lemma GridKeysIdempotent(layout: Layout, columnSetup: seq<int>)
    requires layout.Valid()
    ensures WithGridKeys(WithGridKeys(layout, columnSetup), columnSetup) == WithGridKeys(layout, columnSetup)
  {
    var ks := GridKeyList(columnSetup);
    AddKeysExtends(layout, ks);
    AddKeysPresent(AddKeys(layout, ks), ks);
  }

  // ---------------------------------------------------------------------
  // parse_data_colors

  /** Matplotlib's default colour cycle, in order. */
  const DefaultColors: seq<string> :=
    ["#1f77b4", "#ff7f0e", "#2ca02c", "#d62728", "#9467bd",
     "#8c564b", "#e377c2", "#7f7f7f", "#bcbd22", "#17becf"]

  /** Subplot options; every other entry of a subplot section is a signal. */
  const TopIgnore: seq<string> := ["xlabel", "ylabel", "xlim", "ylim", "legend", "noresample", "xshare"]

  /** A signal that needs no change: it has a colour and no list-valued 'y'. */
  predicate Settled(fields: map<string, Value>)
  {
    "color" in fields && !("y" in fields && fields["y"].List?)
  }

  /** One signal entry: the `j`-th default colour when it has none (the
      counter then moves on), and a list-valued 'y' joined with ','. */
  function ColorSignal(fields: map<string, Value>, j: nat): (map<string, Value>, nat)
  {
    var (coloured, next) := if "color" in fields then (fields, j) else (fields["color" := Str(DefaultColors[j % 10])], j + 1);
    if "y" in coloured && coloured["y"].List? then
      (coloured["y" := Str(Join(",", coloured["y"].items))], next)
    else
      (coloured, next)
  }

  /** What one signal entry becomes: settled, its colour kept or the `j`-th
      default colour, a list 'y' joined, every other field as it was. */
  lemma ColorSignalEffect(fields: map<string, Value>, j: nat)
    ensures Settled(ColorSignal(fields, j).0)
    ensures ColorSignal(fields, j).0.Keys == fields.Keys + {"color"}
    ensures ColorSignal(fields, j).0["color"] == if "color" in fields then fields["color"] else Str(DefaultColors[j % 10])
    ensures ColorSignal(fields, j).1 == if "color" in fields then j else j + 1
    ensures "y" in fields ==>
              ColorSignal(fields, j).0["y"] == if fields["y"].List? then Str(Join(",", fields["y"].items)) else fields["y"]
    ensures forall k | k in fields && k != "color" && k != "y" :: ColorSignal(fields, j).0[k] == fields[k]
  {
  }

  /** A settled signal is left as it is. */
  lemma ColorSettled(fields: map<string, Value>, j: nat)
    requires Settled(fields)
    ensures ColorSignal(fields, j) == (fields, j)
  {
  }

  /** The loop of `parse_data_colors` over the sorted keys `ks[i..]`, with the
      colour counter at `j`: the entries and the counter afterwards, or the
      `AttributeError` of calling `.keys()` on a non-ignored scalar entry. */
  function ColorEntries(items: map<string, Item>, ks: seq<string>, i: nat, j: nat): (r: Result<(map<string, Item>, nat)>)
    requires i <= |ks| && forall n | i <= n < |ks| :: ks[n] in items
    ensures r.Ok? ==> (forall k :: k in r.value.0 <==> k in items) && r.value.1 >= j
    decreases |ks| - i
  {
    if i == |ks| then Ok((items, j))
    else if ks[i] in TopIgnore then ColorEntries(items, ks, i + 1, j)
    else
      match items[ks[i]]
      case Scalar(_) => Err(AttributeError)
      case Signal(fields) =>
        var (coloured, next) := ColorSignal(fields, j);
        ColorEntries(items[ks[i] := Signal(coloured)], ks, i + 1, next)
  }

  /** The signal entry `k` that `parse_data_colors` gives a default colour. */
  predicate NeedsColor(items: map<string, Item>, k: string)
  {
    k !in TopIgnore && k in items && items[k].Signal? && "color" !in items[k].fields
  }

  /** The number of signals among `ks[i..n]` that get a default colour. */
  function NewColors(items: map<string, Item>, ks: seq<string>, i: nat, n: nat): nat
    requires n <= |ks|
    decreases n - i
  {
    if i >= n then 0 else (if NeedsColor(items, ks[i]) then 1 else 0) + NewColors(items, ks, i + 1, n)
  }

  lemma {:induction false} NewColorsFrame(items: map<string, Item>, ks: seq<string>, i: nat, n: nat, k: string, v: Item)
    requires n <= |ks| && forall m | i <= m < n :: ks[m] != k
    ensures NewColors(items[k := v], ks, i, n) == NewColors(items, ks, i, n)
    decreases n - i
  {
    if i < n {
      NewColorsFrame(items, ks, i + 1, n, k, v);
    }
  }

  /** Entries the loop does not reach, and ignored entries, are left as they are. */
  lemma {:induction false} ColorEntriesUntouched(items: map<string, Item>, ks: seq<string>, i: nat, j: nat, k: string)
    requires i <= |ks| && forall n | i <= n < |ks| :: ks[n] in items
    requires k in items && (k in TopIgnore || forall n | i <= n < |ks| :: ks[n] != k)
    ensures ColorEntries(items, ks, i, j).Ok? ==> ColorEntries(items, ks, i, j).value.0[k] == items[k]
    decreases |ks| - i
  {
    if i < |ks| && ks[i] !in TopIgnore && items[ks[i]].Signal? {
      var (coloured, next) := ColorSignal(items[ks[i]].fields, j);
      ColorEntriesUntouched(items[ks[i] := Signal(coloured)], ks, i + 1, next, k);
    } else if i < |ks| && ks[i] in TopIgnore {
      ColorEntriesUntouched(items, ks, i + 1, j, k);
    }
  }

  /** A settled signal stays as it is, however often the loop reaches it. */
  lemma {:induction false} ColorEntriesKeepsSettled(items: map<string, Item>, ks: seq<string>, i: nat, j: nat, k: string)
    requires i <= |ks| && forall n | i <= n < |ks| :: ks[n] in items
    requires k in items && items[k].Signal? && Settled(items[k].fields)
    ensures ColorEntries(items, ks, i, j).Ok? ==> ColorEntries(items, ks, i, j).value.0[k] == items[k]
    decreases |ks| - i
  {
    if i < |ks| && ks[i] !in TopIgnore && items[ks[i]].Signal? {
      var (coloured, next) := ColorSignal(items[ks[i]].fields, j);
      if ks[i] == k {
        ColorSettled(items[k].fields, j);
        assert items[ks[i] := Signal(coloured)] == items;
      }
      ColorEntriesKeepsSettled(items[ks[i] := Signal(coloured)], ks, i + 1, next, k);
    } else if i < |ks| && ks[i] in TopIgnore {
      ColorEntriesKeepsSettled(items, ks, i + 1, j, k);
    }
  }

  /** The loop fails exactly when it reaches a scalar entry that is not an option. */
  lemma {:induction false} ColorEntriesFails(items: map<string, Item>, ks: seq<string>, i: nat, j: nat)
    requires i <= |ks| && forall n | i <= n < |ks| :: ks[n] in items
    ensures ColorEntries(items, ks, i, j).Err? <==>
              exists n | i <= n < |ks| :: ks[n] !in TopIgnore && items[ks[n]].Scalar?
    ensures ColorEntries(items, ks, i, j).Err? ==> ColorEntries(items, ks, i, j).error == AttributeError
    decreases |ks| - i
  {
    if i < |ks| {
      if ks[i] in TopIgnore {
        ColorEntriesFails(items, ks, i + 1, j);
      } else if items[ks[i]].Signal? {
        var (coloured, next) := ColorSignal(items[ks[i]].fields, j);
        var updated := items[ks[i] := Signal(coloured)];
        ColorEntriesFails(updated, ks, i + 1, next);
        assert forall n | i <= n < |ks| :: updated[ks[n]].Scalar? == items[ks[n]].Scalar?;
      }
    }
  }

  /** After the loop every signal it reached is settled. */
  lemma {:induction false} ColorEntriesSettles(items: map<string, Item>, ks: seq<string>, i: nat, j: nat)
    requires i <= |ks| && forall n | i <= n < |ks| :: ks[n] in items
    requires ColorEntries(items, ks, i, j).Ok?
    ensures forall n | i <= n < |ks| && ks[n] !in TopIgnore ::
              ColorEntries(items, ks, i, j).value.0[ks[n]].Signal? &&
              Settled(ColorEntries(items, ks, i, j).value.0[ks[n]].fields)
    decreases |ks| - i
  {
    if i < |ks| {
      if ks[i] in TopIgnore {
        ColorEntriesSettles(items, ks, i + 1, j);
      } else {
        var (coloured, next) := ColorSignal(items[ks[i]].fields, j);
        var updated := items[ks[i] := Signal(coloured)];
        ColorSignalEffect(items[ks[i]].fields, j);
        ColorEntriesSettles(updated, ks, i + 1, next);
        ColorEntriesKeepsSettled(updated, ks, i + 1, next, ks[i]);
      }
    }
  }

  /** With every reached signal settled, the loop changes nothing. */
  lemma {:induction false} ColorEntriesOfSettled(items: map<string, Item>, ks: seq<string>, i: nat, j: nat)
    requires i <= |ks| && forall n | i <= n < |ks| :: ks[n] in items
    requires forall n | i <= n < |ks| && ks[n] !in TopIgnore :: items[ks[n]].Signal? && Settled(items[ks[n]].fields)
    ensures ColorEntries(items, ks, i, j) == Ok((items, j))
    decreases |ks| - i
  {
    if i < |ks| {
      if ks[i] !in TopIgnore {
        ColorSettled(items[ks[i]].fields, j);
        assert items[ks[i] := Signal(items[ks[i]].fields)] == items;
      }
      ColorEntriesOfSettled(items, ks, i + 1, j);
    }
  }

  /** The first signal the loop reaches gets the counter's colour, and a
      later step does not reach it again. */
  lemma ColorEntriesFirst(items: map<string, Item>, ks: seq<string>, i: nat, j: nat)
    requires i < |ks| && forall m | i <= m < |ks| :: ks[m] in items
    requires ks[i] !in TopIgnore && items[ks[i]].Signal?
    requires forall m | i < m < |ks| :: ks[m] != ks[i]
    requires ColorEntries(items, ks, i, j).Ok?
    ensures ColorEntries(items, ks, i, j).value.0[ks[i]] == Signal(ColorSignal(items[ks[i]].fields, j).0)
  {
    var c := ColorSignal(items[ks[i]].fields, j);
    ColorEntriesUntouched(items[ks[i] := Signal(c.0)], ks, i + 1, c.1, ks[i]);
  }

  /** Round-robin colouring: over distinct keys, the signal `ks[n]` is
      coloured with the counter at `j` plus the number of signals before it
      that lacked a colour. */
  lemma {:induction false} ColorEntriesRoundRobin(items: map<string, Item>, ks: seq<string>, i: nat, j: nat, n: nat,
                                                  fields: map<string, Value>, count: nat)
    requires i <= n < |ks| && forall m | i <= m < |ks| :: ks[m] in items
    requires Distinct(ks) && ColorEntries(items, ks, i, j).Ok?
    requires ks[n] !in TopIgnore && items[ks[n]] == Signal(fields)
    requires count == j + NewColors(items, ks, i, n)
    ensures ColorEntries(items, ks, i, j).value.0[ks[n]] == Signal(ColorSignal(fields, count).0)
    decreases n - i, 1
  {
    if ks[i] in TopIgnore {
      assert ColorEntries(items, ks, i, j) == ColorEntries(items, ks, i + 1, j);
      assert NewColors(items, ks, i, n) == NewColors(items, ks, i + 1, n);
      ColorEntriesRoundRobin(items, ks, i + 1, j, n, fields, count);
    } else if i == n {
      ColorEntriesFails(items, ks, i, j);
      ColorEntriesFirst(items, ks, i, j);
      assert NewColors(items, ks, i, n) == 0;
    } else {
      ColorEntriesRoundRobinStep(items, ks, i, j, n, fields, count);
    }
  }

  /** The step of `ColorEntriesRoundRobin` past a signal before `ks[n]`. */
  lemma {:induction false} ColorEntriesRoundRobinStep(items: map<string, Item>, ks: seq<string>, i: nat, j: nat, n: nat,
                                                      fields: map<string, Value>, count: nat)
    requires i < n < |ks| && forall m | i <= m < |ks| :: ks[m] in items
    requires Distinct(ks) && ColorEntries(items, ks, i, j).Ok? && ks[i] !in TopIgnore
    requires ks[n] !in TopIgnore && items[ks[n]] == Signal(fields)
    requires count == j + NewColors(items, ks, i, n)
    ensures ColorEntries(items, ks, i, j).value.0[ks[n]] == Signal(ColorSignal(fields, count).0)
    decreases n - i, 0
  {
    ColorEntriesFails(items, ks, i, j);
    var c := ColorSignal(items[ks[i]].fields, j);
    var updated := items[ks[i] := Signal(c.0)];
    assert ColorEntries(items, ks, i, j) == ColorEntries(updated, ks, i + 1, c.1);
    NewColorsFrame(items, ks, i + 1, n, ks[i], Signal(c.0));
    assert NewColors(items, ks, i, n) == (if NeedsColor(items, ks[i]) then 1 else 0) + NewColors(items, ks, i + 1, n);
    ColorEntriesRoundRobin(updated, ks, i + 1, c.1, n, fields, count);
  }

  /** `keys = [x for x in local_config.keys()]; keys.sort()`: every entry
      exactly once, in sorted order. */
  function SortedKeys(section: Section): (ks: seq<string>)
    requires section.Valid()
    ensures |ks| == |section.keys|
    ensures forall k :: k in ks <==> k in section.items
  {
    SortedKeysAre(section);
    Sort(section.keys)
  }

  /** The sorted keys are sorted, each entry's key once. */
  lemma SortedKeysAre(section: Section)
    requires section.Valid()
    ensures Sorted(Sort(section.keys)) && Distinct(Sort(section.keys)) && |Sort(section.keys)| == |section.keys|
    ensures forall k :: k in Sort(section.keys) <==> k in section.items
  {
    SortSorted(section.keys);
    UniqueDistinct(section.keys);
    SortDistinct(section.keys);
    assert forall k :: k in Sort(section.keys) <==> k in multiset(section.keys);
  }

  /** `parse_data_colors` on one subplot section: its entries visited in
      sorted key order, the order of the section itself unchanged. */
  function Recolor(section: Section): (r: Result<Section>)
    requires section.Valid()
  {
    match ColorEntries(section.items, SortedKeys(section), 0, 0)
    case Ok((items, _)) => Ok(Section(section.keys, items))
    case Err(e) => Err(e)
  }

  /** A recoloured section keeps its entries and their order; its options are
      untouched and every other entry is a settled signal. */
  lemma RecolorEffect(section: Section)
    requires section.Valid() && Recolor(section).Ok?
    ensures Recolor(section).value.Valid()
    ensures Recolor(section).value.keys == section.keys
    ensures forall k | k in section.items && k in TopIgnore :: Recolor(section).value.items[k] == section.items[k]
    ensures forall k | k in section.items && k !in TopIgnore ::
              Recolor(section).value.items[k].Signal? && Settled(Recolor(section).value.items[k].fields)
  {
    var ks := SortedKeys(section);
    var items := ColorEntries(section.items, ks, 0, 0).value.0;
    forall k | k in section.items && k in TopIgnore ensures items[k] == section.items[k] {
      ColorEntriesUntouched(section.items, ks, 0, 0, k);
    }
    ColorEntriesSettles(section.items, ks, 0, 0);
    forall k | k in section.items && k !in TopIgnore ensures items[k].Signal? && Settled(items[k].fields) {
      var n :| 0 <= n < |ks| && ks[n] == k;
    }
  }

  /** `parse_data_colors` raises exactly when a section has a scalar entry
      that is not one of the options. */
  lemma RecolorFails(section: Section)
    requires section.Valid()
    ensures Recolor(section).Err? <==> exists k | k in section.items :: k !in TopIgnore && section.items[k].Scalar?
    ensures Recolor(section).Err? ==> Recolor(section).error == AttributeError
  {
    var ks := SortedKeys(section);
    ColorEntriesFails(section.items, ks, 0, 0);
    if exists k | k in section.items :: k !in TopIgnore && section.items[k].Scalar? {
      var k :| k in section.items && k !in TopIgnore && section.items[k].Scalar?;
      var n :| 0 <= n < |ks| && ks[n] == k;
    }
  }

  /** The `n`-th signal in sorted key order gets the default colour numbered by
      the signals before it that lacked one, so colours go round the ten
      defaults in sorted order, skipping signals that name their own. */
  lemma RecolorRoundRobin(section: Section, n: nat, fields: map<string, Value>)
    requires section.Valid() && Recolor(section).Ok?
    requires n < |section.keys| && SortedKeys(section)[n] !in TopIgnore
    requires section.items[SortedKeys(section)[n]] == Signal(fields)
    ensures Recolor(section).value.items[SortedKeys(section)[n]] ==
              Signal(ColorSignal(fields, NewColors(section.items, SortedKeys(section), 0, n)).0)
  {
    var ks := SortedKeys(section);
    SortedKeysAre(section);
    ColorEntriesRoundRobin(section.items, ks, 0, 0, n, fields, NewColors(section.items, ks, 0, n));
  }

  /** `parse_data_colors` is idempotent: a second pass finds every signal settled. */
  lemma RecolorIdempotent(section: Section)
    requires section.Valid() && Recolor(section).Ok?
    ensures Recolor(section).value.Valid()
    ensures Recolor(Recolor(section).value) == Recolor(section)
  {
    RecolorEffect(section);
    var once := Recolor(section).value;
    assert SortedKeys(once) == SortedKeys(section);
    ColorEntriesOfSettled(once.items, SortedKeys(section), 0, 0);
  }

  // ---------------------------------------------------------------------
  // get_data_locs

  /** `key.lower() == 'setup'`: the keys `get_data_locs` passes over. */
  predicate IsSetup(key: string)
  {
    Lower(key) == "setup"
  }

  /** The setup key itself is passed over. */
  lemma SetupIsSetup()
    ensures IsSetup("setup")
  {
    var lower := Lower("setup");
    assert lower[0] == 's' && lower[1] == 'e' && lower[2] == 't' && lower[3] == 'u' && lower[4] == 'p';
  }

  /** `parse_data_colors(config, key)` on the whole file. */
  function RecolorAt(layout: Layout, key: string): (r: Result<Layout>)
    requires WellFormed(layout)
    ensures r.Ok? ==> WellFormed(r.value) && r.value.keys == layout.keys
  {
    if key !in layout.sections then Err(KeyError(key))
    else
      match Recolor(layout.sections[key])
      case Err(e) => Err(e)
      case Ok(section) =>
        RecolorEffect(layout.sections[key]);
        ReplaceSection(layout, key, section);
        Ok(Layout(layout.keys, layout.sections[key := section]))
  }

  /** The loop of `get_data_locs` after its first `n` keys: every section
      but the setup recoloured in key order, stopping at the first that
      raises. */
  function ColorUpTo(start: Layout, n: nat): (r: Result<Layout>)
    requires WellFormed(start) && n <= |start.keys|
    ensures r.Ok? ==> WellFormed(r.value) && r.value.keys == start.keys
  {
    if n == 0 then Ok(start)
    else
      match ColorUpTo(start, n - 1)
      case Err(e) => Err(e)
      case Ok(layout) =>
        var key := start.keys[n - 1];
        if IsSetup(key) then Ok(layout) else RecolorAt(layout, key)
  }

  /** The whole loop of `get_data_locs`. */
  function ColorSections(layout: Layout): Result<Layout>
    requires WellFormed(layout)
  {
    ColorUpTo(layout, |layout.keys|)
  }

  /** Once a key has raised, the loop has stopped with that exception. */
  lemma {:induction false} ColorUpToStops(start: Layout, m: nat, n: nat)
    requires WellFormed(start) && m <= n <= |start.keys| && ColorUpTo(start, m).Err?
    ensures ColorUpTo(start, n) == ColorUpTo(start, m)
    decreases n - m
  {
    if m < n {
      ColorUpToStops(start, m, n - 1);
    }
  }

  /** After the first `n` keys, the section of key `i` is its own
      recolouring if the loop has passed it (and it is not the setup), and
      as it was otherwise. */
  lemma {:induction false} ColorUpToAt(start: Layout, n: nat, i: nat)
    requires WellFormed(start) && n <= |start.keys| && i < |start.keys|
    ensures ColorUpTo(start, n).Ok? && i < n && !IsSetup(start.keys[i]) ==>
              Recolor(start.sections[start.keys[i]]).Ok? &&
              ColorUpTo(start, n).value.sections[start.keys[i]] == Recolor(start.sections[start.keys[i]]).value
    ensures ColorUpTo(start, n).Ok? && (n <= i || IsSetup(start.keys[i])) ==>
              ColorUpTo(start, n).value.sections[start.keys[i]] == start.sections[start.keys[i]]
  {
    if n > 0 && ColorUpTo(start, n).Ok? {
      ColorUpToAt(start, n - 1, i);
      var key := start.keys[n - 1];
      if !IsSetup(key) {
        var layout := ColorUpTo(start, n - 1).value;
        RecolorAtIs(layout, key);
        assert ColorUpTo(start, n) == RecolorAt(layout, key);
        if i == n - 1 {
          assert layout.sections[key] == start.sections[key];
        } else {
          DistinctAt(start.keys, i, n - 1);
        }
      }
    }
  }

  /** The loop stops within the first `n` keys only at a section (not the
      setup) that raises on its own. */
  lemma {:induction false} ColorUpToErr(start: Layout, n: nat)
    requires WellFormed(start) && n <= |start.keys| && ColorUpTo(start, n).Err?
    ensures exists m | 0 <= m < n :: !IsSetup(start.keys[m]) && Recolor(start.sections[start.keys[m]]).Err?
  {
    var key := start.keys[n - 1];
    if ColorUpTo(start, n - 1).Err? {
      ColorUpToErr(start, n - 1);
      var m :| 0 <= m < n - 1 && !IsSetup(start.keys[m]) && Recolor(start.sections[start.keys[m]]).Err?;
      assert 0 <= m < n;
    } else {
      var layout := ColorUpTo(start, n - 1).value;
      assert !IsSetup(key) && ColorUpTo(start, n) == RecolorAt(layout, key);
      ColorUpToAt(start, n - 1, n - 1);
      RecolorAtIs(layout, key);
      assert Recolor(start.sections[key]).Err?;
    }
  }

  /** In a sequence without repetitions, elements at distinct positions differ. */
  lemma DistinctAt<T>(s: seq<T>, i: nat, j: nat)
    requires Unique(s) && i < |s| && j < |s| && i != j
    ensures s[i] != s[j]
  {
    UniqueDistinct(s);
  }

  /** `get_data_locs` colours every section but the setup on its own: it
      gets through exactly when no such section raises, and then each is
      its own recolouring while the keys and the setup stay as they were. */
  lemma ColorSectionsAre(start: Layout)
    requires WellFormed(start)
    ensures ColorSections(start).Ok? <==>
              forall k | k in start.sections && !IsSetup(k) :: Recolor(start.sections[k]).Ok?
    ensures ColorSections(start).Ok? ==>
              ColorSections(start).value.keys == start.keys &&
              forall k | k in start.sections ::
                ColorSections(start).value.sections[k] ==
                  if IsSetup(k) then start.sections[k] else Recolor(start.sections[k]).value
  {
    var n := |start.keys|;
    forall k | k in start.sections
      ensures ColorSections(start).Ok? && !IsSetup(k) ==>
                Recolor(start.sections[k]).Ok? && ColorSections(start).value.sections[k] == Recolor(start.sections[k]).value
      ensures ColorSections(start).Ok? && IsSetup(k) ==> ColorSections(start).value.sections[k] == start.sections[k]
    {
      assert k in start.keys;
      var i :| 0 <= i < n && start.keys[i] == k;
      ColorUpToAt(start, n, i);
    }
    if ColorSections(start).Err? {
      ColorUpToErr(start, n);
      var m :| 0 <= m < n && !IsSetup(start.keys[m]) && Recolor(start.sections[start.keys[m]]).Err?;
      assert start.keys[m] in start.sections;
    }
  }

  /** After the whole loop, a section that is not the setup is its own recolouring. */
  lemma ColorSectionsAt(start: Layout, k: string)
    requires WellFormed(start) && k in start.sections && !IsSetup(k) && ColorSections(start).Ok?
    ensures Recolor(start.sections[k]).Ok? && k in ColorSections(start).value.sections
    ensures ColorSections(start).value.sections[k] == Recolor(start.sections[k]).value
  {
    ColorSectionsAre(start);
  }

  /** `parse_data_colors(config, key)` replaces that one section by its
      recolouring. */
  lemma RecolorAtIs(layout: Layout, key: string)
    requires WellFormed(layout) && key in layout.sections
    ensures RecolorAt(layout, key).Ok? <==> Recolor(layout.sections[key]).Ok?
    ensures RecolorAt(layout, key).Ok? ==>
              RecolorAt(layout, key).value == Layout(layout.keys, layout.sections[key := Recolor(layout.sections[key]).value])
  {
  }

  /** `data_locs` after the first `n` keys: the keys that are not the setup,
      in order, each mapped to the section it names. */
  function LocsUpTo(layout: Layout, n: nat): Layout
    requires layout.Valid() && n <= |layout.keys|
  {
    if n == 0 then Layout([], map[])
    else
      var prev := LocsUpTo(layout, n - 1);
      var key := layout.keys[n - 1];
      // `data_locs[key] = ...` with a key that is not there yet: the keys
      // of the file are distinct (see `LocsUpToAre`).
      if IsSetup(key) then prev else Layout(prev.keys + [key], prev.sections[key := layout.sections[key]])
  }

  /** After the first `n` keys, `data_locs` holds the keys among them that
      are not the setup, each mapped to the section it names. */
  lemma {:induction false} LocsUpToAre(layout: Layout, n: nat)
    requires layout.Valid() && n <= |layout.keys|
    ensures LocsUpTo(layout, n).Valid()
    ensures forall k :: k in LocsUpTo(layout, n).sections <==> (exists m | 0 <= m < n :: layout.keys[m] == k) && !IsSetup(k)
    ensures forall k | k in LocsUpTo(layout, n).sections :: LocsUpTo(layout, n).sections[k] == layout.sections[k]
  {
    if n > 0 {
      LocsUpToAre(layout, n - 1);
      UniqueDistinct(layout.keys);
      var prev := LocsUpTo(layout, n - 1);
      var key := layout.keys[n - 1];
      if !IsSetup(key) {
        assert forall m | 0 <= m < n - 1 :: layout.keys[m] != key;
        assert key !in prev.keys;
        var r := LocsUpTo(layout, n);
        assert r.keys == prev.keys + [key];
        forall k ensures k in r.sections <==> (exists m | 0 <= m < n :: layout.keys[m] == k) && !IsSetup(k) {
          if k == key {
            assert layout.keys[n - 1] == k;
          }
        }
      }
    }
  }

  /** What `get_data_locs` returns, given the recoloured configuration. */
  function Locs(layout: Layout): Layout
    requires layout.Valid()
  {
    LocsUpTo(layout, |layout.keys|)
  }

  /** `get_data_locs` returns exactly the sections whose key is not the setup. */
  lemma LocsAre(layout: Layout)
    requires layout.Valid()
    ensures Locs(layout).Valid()
    ensures forall k :: k in Locs(layout).sections <==> k in layout.sections && !IsSetup(k)
    ensures forall k | k in Locs(layout).sections :: Locs(layout).sections[k] == layout.sections[k]
  {
    LocsUpToAre(layout, |layout.keys|);
    forall k | k in layout.sections ensures exists m | 0 <= m < |layout.keys| :: layout.keys[m] == k {
      assert k in layout.keys;
    }
  }

  /** Recolouring a section the first `n` keys do not name leaves them as they were. */
  lemma {:induction false} LocsFrame(layout: Layout, n: nat, key: string, section: Section)
    requires layout.Valid() && n <= |layout.keys| && key in layout.sections
    requires forall m | 0 <= m < n :: layout.keys[m] != key
    ensures LocsUpTo(Layout(layout.keys, layout.sections[key := section]), n) == LocsUpTo(layout, n)
  {
    if n > 0 {
      LocsFrame(layout, n - 1, key, section);
    }
  }

  /** A parsed file: ordered, unique keys and well-formed sections. */
  ghost predicate WellFormed(layout: Layout)
  {
    layout.Valid() && forall k | k in layout.sections :: layout.sections[k].Valid()
  }

  lemma Overwrite<K, V>(m: map<K, V>, k: K, a: V, b: V)
    ensures m[k := a][k := b] == m[k := b]
  {
  }

  /** One key of `get_data_locs`: the recoloured section is located. */
  lemma LocateStep(before: Layout, after: Layout, i: nat)
    requires WellFormed(before) && i < |before.keys|
    requires RecolorAt(before, before.keys[i]).Ok? && after == RecolorAt(before, before.keys[i]).value
    ensures LocsUpTo(after, i) == LocsUpTo(before, i)
  {
    var key := before.keys[i];
    assert after == Layout(before.keys, before.sections[key := after.sections[key]]);
    UniqueDistinct(before.keys);
    LocsFrame(before, i, key, after.sections[key]);
  }

  /** Replacing a section by a well-formed one keeps the file well formed. */
  lemma ReplaceSection(layout: Layout, key: string, section: Section)
    requires WellFormed(layout) && key in layout.sections && section.Valid()
    ensures WellFormed(Layout(layout.keys, layout.sections[key := section]))
  {
  }

  /** Adding empty sections keeps every section well formed. */
  lemma ExtendsWellFormed(after: Layout, before: Layout)
    requires WellFormed(before) && after.Valid() && Extends(after, before)
    ensures WellFormed(after)
  {
  }

  // ---------------------------------------------------------------------
  // config_parser

  /** `[int(x) for x in xs]`: every element read as an integer, or the
      `ValueError` of the first one that is not. */
  function ParseColumns(xs: seq<string>): (r: Result<seq<int>>)
    ensures r.Ok? ==> |r.value| == |xs|
  {
    if xs == [] then Ok([])
    else
      match ParseInt(xs[0])
      case Err(e) => Err(e)
      case Ok(n) =>
        match ParseColumns(xs[1..])
        case Err(e) => Err(e)
        case Ok(rest) => Ok([n] + rest)
  }

  /** The column setup is read exactly when every element is an integer,
      and holds their values in order; otherwise the error is that of the
      first element that is not. */
  lemma {:induction false} ParseColumnsAre(xs: seq<string>)
    ensures ParseColumns(xs).Ok? <==> forall i | 0 <= i < |xs| :: ParseInt(xs[i]).Ok?
    ensures ParseColumns(xs).Ok? ==> forall i | 0 <= i < |xs| :: Ok(ParseColumns(xs).value[i]) == ParseInt(xs[i])
    ensures ParseColumns(xs).Err? ==>
              exists i | 0 <= i < |xs| :: ParseInt(xs[i]).Err? && ParseColumns(xs).error == ParseInt(xs[i]).error &&
                                          forall m | 0 <= m < i :: ParseInt(xs[m]).Ok?
  {
    if xs != [] {
      var rest := xs[1..];
      ParseColumnsAre(rest);
      assert forall i | 0 <= i < |rest| :: rest[i] == xs[i + 1];
      if ParseInt(xs[0]).Err? {
        assert ParseColumns(xs).error == ParseInt(xs[0]).error;
      } else if ParseColumns(rest).Err? {
        var i :| 0 <= i < |rest| && ParseInt(rest[i]).Err? && ParseColumns(rest).error == ParseInt(rest[i]).error &&
                 forall m | 0 <= m < i :: ParseInt(rest[m]).Ok?;
        assert ParseInt(xs[i + 1]).Err?;
        assert forall m | 1 <= m < i + 1 :: ParseInt(xs[m]).Ok? by {
          forall m | 1 <= m < i + 1 ensures ParseInt(xs[m]).Ok? {
            assert xs[m] == rest[m - 1];
          }
        }
      }
    }
  }

  const DefaultTree := "wipal"
  const DefaultEvent := "raw_data_ready"
  const DefaultServer := "skywalker.physics.wisc.edu"

  /** `try: value = config['setup'][name] except KeyError:
      config['setup'][name] = default`: the value found, if any, and the
      file with the default written into its setup when there was none. */
  function SetupDefault(layout: Layout, name: string, default: string): (r: (Layout, Option<Item>))
    requires WellFormed(layout) && "setup" in layout.sections
    ensures WellFormed(r.0) && r.0.keys == layout.keys && "setup" in r.0.sections
    ensures r.1.Some? <==> name in layout.sections["setup"].items
    ensures r.1.Some? ==> r.0 == layout && r.1.value == layout.sections["setup"].items[name]
    ensures r.1.None? ==> r.0.sections == layout.sections["setup" := layout.sections["setup"].Put(name, Scalar(Str(default)))]
    ensures name in r.0.sections["setup"].items
  {
    var setup := layout.sections["setup"];
    if name in setup.items then (layout, Some(setup.items[name]))
    else
      ReplaceSection(layout, "setup", setup.Put(name, Scalar(Str(default))));
      (Layout(layout.keys, layout.sections["setup" := setup.Put(name, Scalar(Str(default)))]), None)
  }

  /** What `config_parser` returns: the updated file, server, tree, event
      name, column setup and subplot locations. */
  datatype Parsed = Parsed(config: Layout, server: Item, tree: Item, eventName: Item,
                           columnSetup: seq<int>, dataLocs: Layout)

  /** The 'col' entry of the setup is a value, not a sub-section. */
  predicate ColumnsAreValue(layout: Layout)
  {
    "setup" in layout.sections && "col" in layout.sections["setup"].items ==>
      layout.sections["setup"].items["col"].Scalar?
  }

  /** Grid keys are added after the setup, which keeps its section. */
  lemma GridKeysKeepSetup(layout: Layout, columnSetup: seq<int>)
    requires WellFormed(layout) && "setup" in layout.sections
    ensures WellFormed(WithGridKeys(layout, columnSetup))
    ensures "setup" in WithGridKeys(layout, columnSetup).sections
    ensures WithGridKeys(layout, columnSetup).sections["setup"] == layout.sections["setup"]
  {
    AddKeysExtends(layout, GridKeyList(columnSetup));
    ExtendsWellFormed(WithGridKeys(layout, columnSetup), layout);
  }

  /** The three setup defaults in the order `config_parser` writes them, with
      the tree, event and server found, if any. */
  function SetupDefaults(layout: Layout): (r: (Layout, Option<Item>, Option<Item>, Option<Item>))
    requires WellFormed(layout) && "setup" in layout.sections
    ensures WellFormed(r.0) && "setup" in r.0.sections
  {
    var (withTree, tree) := SetupDefault(layout, "tree", DefaultTree);
    var (withEvent, event) := SetupDefault(withTree, "event", DefaultEvent);
    var (withServer, server) := SetupDefault(withEvent, "server", DefaultServer);
    (withServer, tree, event, server)
  }

  /** The file after the grid keys and the three setup defaults, with the
      tree, event and server found in it, if any. */
  function WithDefaults(file: Layout, columnSetup: seq<int>): (r: (Layout, Option<Item>, Option<Item>, Option<Item>))
    requires WellFormed(file) && "setup" in file.sections
    ensures WellFormed(r.0) && "setup" in r.0.sections
  {
    GridKeysKeepSetup(file, columnSetup);
    SetupDefaults(WithGridKeys(file, columnSetup))
  }

  /** `config_parser(filename)` on the parsed file, as written: a missing
      'event' or 'server' leaves its local name unbound, so the return
      raises `UnboundLocalError` once the sections are coloured. */
  function ParseConfig(file: Layout): Result<Parsed>
    requires WellFormed(file) && ColumnsAreValue(file)
  {
    if "setup" !in file.sections then Err(KeyError("setup"))
    else if "col" !in file.sections["setup"].items then Err(KeyError("col"))
    else
      match ParseColumns(Elements(file.sections["setup"].items["col"].v))
      case Err(e) => Err(e)
      case Ok(columnSetup) =>
        var (config, tree, event, server) := WithDefaults(file, columnSetup);
        match ColorSections(config)
        case Err(e) => Err(e)
        case Ok(coloured) =>
          if server.None? then Err(UnboundLocalError("server"))
          else if event.None? then Err(UnboundLocalError("event_name"))
          else
            Ok(Parsed(coloured, server.value, if tree.Some? then tree.value else Scalar(Str(DefaultTree)),
                      event.value, columnSetup, Locs(coloured)))
  }

  /** `config_parser` as evidently intended: a missing event or server
      takes its default, like a missing tree. */
  function ParseConfigIntended(file: Layout): Result<Parsed>
    requires WellFormed(file) && ColumnsAreValue(file)
  {
    if "setup" !in file.sections then Err(KeyError("setup"))
    else if "col" !in file.sections["setup"].items then Err(KeyError("col"))
    else
      match ParseColumns(Elements(file.sections["setup"].items["col"].v))
      case Err(e) => Err(e)
      case Ok(columnSetup) =>
        var (config, tree, event, server) := WithDefaults(file, columnSetup);
        match ColorSections(config)
        case Err(e) => Err(e)
        case Ok(coloured) =>
          Ok(Parsed(coloured, if server.Some? then server.value else Scalar(Str(DefaultServer)),
                    if tree.Some? then tree.value else Scalar(Str(DefaultTree)),
                    if event.Some? then event.value else Scalar(Str(DefaultEvent)),
                    columnSetup, Locs(coloured)))
  }

  /** The value `name` ends up with in the setup: the file's own, or the default. */
  function Defaulted(given: map<string, Item>, name: string, default: string): Item
  {
    if name in given then given[name] else Scalar(Str(default))
  }

  /** An empty section is coloured as it is. */
  lemma RecolorEmpty()
    ensures EmptySection.Valid() && Recolor(EmptySection) == Ok(EmptySection)
  {
    assert SortedKeys(EmptySection) == [];
  }

  /** The setup defaults keep the keys and every section but the setup. */
  lemma SetupDefaultsSections(layout: Layout)
    requires WellFormed(layout) && "setup" in layout.sections
    ensures var config := SetupDefaults(layout).0;
            config.keys == layout.keys && (forall k :: k in config.sections <==> k in layout.sections) &&
            forall k | k in config.sections && k != "setup" :: config.sections[k] == layout.sections[k]
  {
  }

  /** One default, entry by entry: the setup gains `name` (the layout's own
      value or the default) and keeps every entry it had. */
  lemma SetupDefaultItems(layout: Layout, name: string, default: string)
    requires WellFormed(layout) && "setup" in layout.sections
    ensures var (config, found) := SetupDefault(layout, name, default);
            var given, setup := layout.sections["setup"].items, config.sections["setup"].items;
            (found.Some? <==> name in given) && (found.Some? ==> found.value == given[name]) &&
            (forall k :: k in setup <==> k in given || k == name) &&
            setup[name] == Defaulted(given, name, default) &&
            forall k | k in given :: setup[k] == given[k]
  {
  }

  /** Tree, event and server each end up in the setup, as the layout gave
      them or as their defaults, and are found exactly when it gave them;
      every entry the setup had is kept. */
  lemma SetupDefaultsSetup(layout: Layout)
    requires WellFormed(layout) && "setup" in layout.sections
    ensures var (config, tree, event, server) := SetupDefaults(layout);
            var given, setup := layout.sections["setup"].items, config.sections["setup"].items;
            (tree.Some? <==> "tree" in given) && (tree.Some? ==> tree.value == given["tree"]) &&
            (event.Some? <==> "event" in given) && (event.Some? ==> event.value == given["event"]) &&
            (server.Some? <==> "server" in given) && (server.Some? ==> server.value == given["server"]) &&
            (forall k :: k in setup <==> k in given || k == "tree" || k == "event" || k == "server") &&
            setup["tree"] == Defaulted(given, "tree", DefaultTree) &&
            setup["event"] == Defaulted(given, "event", DefaultEvent) &&
            setup["server"] == Defaulted(given, "server", DefaultServer) &&
            forall k | k in given :: setup[k] == given[k]
  {
    var withTree := SetupDefault(layout, "tree", DefaultTree).0;
    var withEvent := SetupDefault(withTree, "event", DefaultEvent).0;
    SetupDefaultItems(layout, "tree", DefaultTree);
    SetupDefaultItems(withTree, "event", DefaultEvent);
    SetupDefaultItems(withEvent, "server", DefaultServer);
  }

  /** The defaults touch only the setup: every other section is the file's
      own or, for a new grid key, empty, and the keys are those of the file
      followed by the new grid keys. */
  lemma WithDefaultsSections(file: Layout, columnSetup: seq<int>)
    requires WellFormed(file) && "setup" in file.sections
    ensures var config := WithDefaults(file, columnSetup).0;
            config.keys == WithGridKeys(file, columnSetup).keys &&
            (forall k :: k in config.sections <==> k in file.sections || k in GridKeyList(columnSetup)) &&
            forall k | k in config.sections && k != "setup" ::
              config.sections[k] == if k in file.sections then file.sections[k] else EmptySection
  {
    GridKeysKeepSetup(file, columnSetup);
    AddKeysExtends(file, GridKeyList(columnSetup));
    SetupDefaultsSections(WithGridKeys(file, columnSetup));
  }

  /** The defaults as found in and written into the setup of the file. */
  lemma WithDefaultsSetup(file: Layout, columnSetup: seq<int>)
    requires WellFormed(file) && "setup" in file.sections
    ensures var (config, tree, event, server) := WithDefaults(file, columnSetup);
            var given := file.sections["setup"].items;
            (tree.Some? <==> "tree" in given) && (tree.Some? ==> tree.value == given["tree"]) &&
            (event.Some? <==> "event" in given) && (event.Some? ==> event.value == given["event"]) &&
            (server.Some? <==> "server" in given) && (server.Some? ==> server.value == given["server"]) &&
            var setup := config.sections["setup"].items;
            (forall k :: k in setup <==> k in given || k == "tree" || k == "event" || k == "server") &&
            setup["tree"] == Defaulted(given, "tree", DefaultTree) &&
            setup["event"] == Defaulted(given, "event", DefaultEvent) &&
            setup["server"] == Defaulted(given, "server", DefaultServer) &&
            forall k | k in given :: setup[k] == given[k]
  {
    GridKeysKeepSetup(file, columnSetup);
    SetupDefaultsSetup(WithGridKeys(file, columnSetup));
  }

  /** A file that agrees with `file` outside the setup and adds only empty
      sections can be coloured exactly when every subplot section of `file` can. */
  lemma ColorSectionsAgree(file: Layout, config: Layout)
    requires WellFormed(file) && WellFormed(config)
    requires forall k | k in file.sections && k != "setup" :: k in config.sections && config.sections[k] == file.sections[k]
    requires forall k | k in config.sections && k !in file.sections :: config.sections[k] == EmptySection
    ensures ColorSections(config).Ok? <==> forall k | k in file.sections && !IsSetup(k) :: Recolor(file.sections[k]).Ok?
  {
    ColorSectionsAre(config);
    RecolorEmpty();
    SetupIsSetup();
    if ColorSections(config).Ok? {
      forall k | k in file.sections && !IsSetup(k) ensures Recolor(file.sections[k]).Ok? {
        assert k in config.sections;
      }
    }
  }

  /** `config_parser` as intended succeeds exactly when the setup and its
      'col' entry are there, every column count is an integer and every
      subplot section of the file can be coloured. */
  lemma ParseConfigIntendedOk(file: Layout)
    requires WellFormed(file) && ColumnsAreValue(file)
    ensures ParseConfigIntended(file).Ok? <==>
              "setup" in file.sections && "col" in file.sections["setup"].items &&
              (var xs := Elements(file.sections["setup"].items["col"].v);
               forall i | 0 <= i < |xs| :: ParseInt(xs[i]).Ok?) &&
              forall k | k in file.sections && !IsSetup(k) :: Recolor(file.sections[k]).Ok?
  {
    if "setup" in file.sections && "col" in file.sections["setup"].items {
      var xs := Elements(file.sections["setup"].items["col"].v);
      ParseColumnsAre(xs);
      if ParseColumns(xs).Ok? {
        var columnSetup := ParseColumns(xs).value;
        WithDefaultsSections(file, columnSetup);
        ColorSectionsAgree(file, WithDefaults(file, columnSetup).0);
      }
    }
  }

  /** The setup as `config_parser` leaves it and the values it returns: each
      of tree, event and server is the file's own or its default, and is
      written into the setup; the column setup is the integers of 'col'. */
  lemma ParseConfigIntendedSetup(file: Layout)
    requires WellFormed(file) && ColumnsAreValue(file) && ParseConfigIntended(file).Ok?
    ensures "setup" in file.sections && "col" in file.sections["setup"].items
    ensures var p, given := ParseConfigIntended(file).value, file.sections["setup"].items;
            ParseColumns(Elements(given["col"].v)) == Ok(p.columnSetup) &&
            p.tree == Defaulted(given, "tree", DefaultTree) &&
            p.eventName == Defaulted(given, "event", DefaultEvent) &&
            p.server == Defaulted(given, "server", DefaultServer) &&
            "setup" in p.config.sections &&
            var setup := p.config.sections["setup"].items;
            (forall k :: k in setup <==> k in given || k == "tree" || k == "event" || k == "server") &&
            setup["tree"] == p.tree && setup["event"] == p.eventName && setup["server"] == p.server &&
            forall k | k in given :: setup[k] == given[k]
  {
    var xs := Elements(file.sections["setup"].items["col"].v);
    var columnSetup := ParseColumns(xs).value;
    var config := WithDefaults(file, columnSetup).0;
    WithDefaultsSetup(file, columnSetup);
    ColorSectionsAre(config);
    SetupIsSetup();
  }

  /** The steps of a successful intended `config_parser`, named. */
  lemma ParseConfigIntendedParts(file: Layout)
    requires WellFormed(file) && ColumnsAreValue(file) && ParseConfigIntended(file).Ok?
    ensures "setup" in file.sections && "col" in file.sections["setup"].items
    ensures var columns := ParseColumns(Elements(file.sections["setup"].items["col"].v));
            columns.Ok? && columns.value == ParseConfigIntended(file).value.columnSetup &&
            var config := WithDefaults(file, columns.value).0;
            ColorSections(config).Ok? && ParseConfigIntended(file).value.config == ColorSections(config).value &&
            ParseConfigIntended(file).value.dataLocs == Locs(ColorSections(config).value)
  {
  }

  /** The keys `config_parser` returns: those of the file followed by the
      new grid keys. */
  lemma ParseConfigIntendedKeys(file: Layout)
    requires WellFormed(file) && ColumnsAreValue(file) && ParseConfigIntended(file).Ok?
    ensures var p := ParseConfigIntended(file).value;
            p.config.keys == WithGridKeys(file, p.columnSetup).keys &&
            forall k :: k in p.config.sections <==> k in file.sections || k in GridKeyList(p.columnSetup)
  {
    ParseConfigIntendedParts(file);
    var columnSetup := ParseConfigIntended(file).value.columnSetup;
    var config := WithDefaults(file, columnSetup).0;
    WithDefaultsSections(file, columnSetup);
    ColorSectionsAre(config);
  }

  /** Colouring a file that agrees with `file` outside the setup colours
      every subplot section of `file`. */
  lemma ColouredAgrees(file: Layout, config: Layout)
    requires WellFormed(file) && WellFormed(config) && ColorSections(config).Ok?
    requires forall k | k in file.sections && k != "setup" :: k in config.sections && config.sections[k] == file.sections[k]
    ensures forall k | k in file.sections && !IsSetup(k) ::
              Recolor(file.sections[k]).Ok? && k in ColorSections(config).value.sections &&
              ColorSections(config).value.sections[k] == Recolor(file.sections[k]).value
  {
    SetupIsSetup();
    forall k | k in file.sections && !IsSetup(k)
      ensures Recolor(file.sections[k]).Ok? && k in ColorSections(config).value.sections &&
              ColorSections(config).value.sections[k] == Recolor(file.sections[k]).value
    {
      ColorSectionsAt(config, k);
    }
  }

  /** Every subplot section of the file is returned coloured. */
  lemma ParseConfigIntendedColoured(file: Layout)
    requires WellFormed(file) && ColumnsAreValue(file) && ParseConfigIntended(file).Ok?
    ensures var p := ParseConfigIntended(file).value;
            forall k | k in file.sections && !IsSetup(k) ::
              Recolor(file.sections[k]).Ok? && k in p.config.sections &&
              p.config.sections[k] == Recolor(file.sections[k]).value
  {
    ParseConfigIntendedParts(file);
    var columnSetup := ParseConfigIntended(file).value.columnSetup;
    WithDefaultsSections(file, columnSetup);
    ColouredAgrees(file, WithDefaults(file, columnSetup).0);
  }

  /** A section whose key reads 'setup' in lower case, other than the setup
      itself, is returned as the file gave it. */
  lemma ParseConfigIntendedSetupLike(file: Layout)
    requires WellFormed(file) && ColumnsAreValue(file) && ParseConfigIntended(file).Ok?
    ensures var p := ParseConfigIntended(file).value;
            forall k | k in file.sections && IsSetup(k) && k != "setup" ::
              k in p.config.sections && p.config.sections[k] == file.sections[k]
  {
    ParseConfigIntendedParts(file);
    var columnSetup := ParseConfigIntended(file).value.columnSetup;
    var config := WithDefaults(file, columnSetup).0;
    WithDefaultsSections(file, columnSetup);
    ColorSectionsAre(config);
  }

  /** Every grid key the file lacked is returned as an empty section. */
  lemma ParseConfigIntendedNewKeys(file: Layout)
    requires WellFormed(file) && ColumnsAreValue(file) && ParseConfigIntended(file).Ok?
    ensures var p := ParseConfigIntended(file).value;
            forall k | k in p.config.sections && k !in file.sections :: p.config.sections[k] == EmptySection
  {
    ParseConfigIntendedParts(file);
    var columnSetup := ParseConfigIntended(file).value.columnSetup;
    var config := WithDefaults(file, columnSetup).0;
    WithDefaultsSections(file, columnSetup);
    ColorSectionsAre(config);
    RecolorEmpty();
    SetupIsSetup();
  }

  /** The subplot locations `config_parser` returns are exactly the sections
      of the returned file whose key is not the setup. */
  lemma ParseConfigIntendedLocs(file: Layout)
    requires WellFormed(file) && ColumnsAreValue(file) && ParseConfigIntended(file).Ok?
    ensures var p := ParseConfigIntended(file).value;
            (forall k :: k in p.dataLocs.sections <==> k in p.config.sections && !IsSetup(k)) &&
            forall k | k in p.dataLocs.sections :: p.dataLocs.sections[k] == p.config.sections[k]
  {
    ParseConfigIntendedParts(file);
    var columnSetup := ParseConfigIntended(file).value.columnSetup;
    var config := WithDefaults(file, columnSetup).0;
    LocsAre(ColorSections(config).value);
  }

  /** As written, `config_parser` raises `UnboundLocalError` wherever the
      intended reading succeeds but the setup lacks 'server' or 'event'
      (the server first, as the return reads it first), and agrees with the
      intended reading everywhere else. */
  lemma ParseConfigAsWritten(file: Layout)
    requires WellFormed(file) && ColumnsAreValue(file)
    ensures ParseConfig(file) ==
              if ParseConfigIntended(file).Err? then ParseConfigIntended(file)
              else if "server" !in file.sections["setup"].items then Err(UnboundLocalError("server"))
              else if "event" !in file.sections["setup"].items then Err(UnboundLocalError("event_name"))
              else ParseConfigIntended(file)
  {
    if "setup" in file.sections && "col" in file.sections["setup"].items {
      var columns := ParseColumns(Elements(file.sections["setup"].items["col"].v));
      if columns.Ok? {
        WithDefaultsSetup(file, columns.value);
      }
    }
  }

  /** A setup holding nothing but 'col' = "1". */
  function OnlyColumnsFile(): Layout
  {
    Layout(["setup"], map["setup" := Section(["col"], map["col" := Scalar(Str("1"))])])
  }

  lemma OnlyColumnsFileShape()
    ensures WellFormed(OnlyColumnsFile()) && ColumnsAreValue(OnlyColumnsFile())
    ensures forall k | k in OnlyColumnsFile().sections :: k == "setup"
    ensures "setup" in OnlyColumnsFile().sections && "col" in OnlyColumnsFile().sections["setup"].items
    ensures OnlyColumnsFile().sections["setup"].items["col"] == Scalar(Str("1"))
  {
  }

  /** The text "1" reads as the one column count 1. */
  lemma OneColumnParses()
    ensures var xs := Elements(Str("1")); forall i | 0 <= i < |xs| :: ParseInt(xs[i]).Ok?
  {
    var xs := Elements(Str("1"));
    assert xs == ["1"];
    assert ParseInt("1").Ok?;
  }

  /** The intended reading of that file succeeds. */
  lemma OnlyColumnsFileParses()
    ensures WellFormed(OnlyColumnsFile()) && ColumnsAreValue(OnlyColumnsFile())
    ensures ParseConfigIntended(OnlyColumnsFile()).Ok?
  {
    OnlyColumnsFileShape();
    OneColumnParses();
    SetupIsSetup();
    ParseConfigIntendedOk(OnlyColumnsFile());
  }

  /** On that file the intended reading succeeds, while the code as written
      raises for the unbound `server`. */
  lemma MissingServerRaises()
    ensures var file := OnlyColumnsFile();
            WellFormed(file) && ColumnsAreValue(file) &&
            ParseConfigIntended(file).Ok? && ParseConfig(file) == Err(UnboundLocalError("server"))
  {
    OnlyColumnsFileParses();
    ParseConfigAsWritten(OnlyColumnsFile());
  }

  /** The configuration dictionary that `config_parser` builds and updates. */
  class ConfigFile {
    var layout: Layout

    ghost predicate Valid()
      reads this
    {
      WellFormed(layout)
    }

    /** `ConfigObj(filename).dict()`, given the parsed file. */
    constructor (parsed: Layout)
      requires WellFormed(parsed)
      ensures layout == parsed && Valid()
    {
      layout := parsed;
    }

    /** `parse_data_colors(config, key)`: see `Recolor`. */
    method ParseDataColors(key: string) returns (r: Result<()>)
      requires Valid()
      modifies this
      ensures Valid() && layout.keys == old(layout.keys)
      ensures r.Ok? <==> RecolorAt(old(layout), key).Ok?
      ensures r.Ok? ==> layout == RecolorAt(old(layout), key).value
      ensures r.Err? ==> r.error == RecolorAt(old(layout), key).error
      ensures key !in old(layout.sections) ==> layout == old(layout)
    {
      if key !in layout.sections {
        return Err(KeyError(key));
      }
      r := RecolorSection(key);
    }

    /** The loop of `parse_data_colors` over the sorted keys of a section
        that is there. */
    method RecolorSection(key: string) returns (r: Result<()>)
      requires Valid() && key in layout.sections
      modifies this
      ensures Valid() && layout.keys == old(layout.keys)
      ensures r.Ok? <==> RecolorAt(old(layout), key).Ok?
      ensures r.Ok? ==> layout == RecolorAt(old(layout), key).value
      ensures r.Err? ==> r.error == RecolorAt(old(layout), key).error
    {
      var section := layout.sections[key];
      var ks := SortedKeys(section);
      var items := section.items;
      var j := 0;
      // The entries are changed in place: those coloured before an entry
      // raises stay coloured.
      for i := 0 to |ks|
        invariant forall k :: k in items <==> k in section.items
        invariant ColorEntries(section.items, ks, 0, 0) == ColorEntries(items, ks, i, j)
      {
        var k := ks[i];
        if k !in TopIgnore {
          if items[k].Scalar? {
            ReplaceSection(layout, key, Section(section.keys, items));
            layout := Layout(layout.keys, layout.sections[key := Section(section.keys, items)]);
            return Err(AttributeError);
          }
          var coloured := ColorSignal(items[k].fields, j);
          j := coloured.1;
          items := items[k := Signal(coloured.0)];
        }
      }
      ReplaceSection(layout, key, Section(section.keys, items));
      layout := Layout(layout.keys, layout.sections[key := Section(section.keys, items)]);
      return Ok(());
    }

    /** `try: value = config['setup'][name] except KeyError:
        config['setup'][name] = default`: see `SetupDefault`. */
    method SetDefault(name: string, default: string) returns (found: Option<Item>)
      requires Valid() && "setup" in layout.sections
      modifies this
      ensures Valid() && "setup" in layout.sections
      ensures (layout, found) == SetupDefault(old(layout), name, default)
    {
      var setup := layout.sections["setup"];
      if name in setup.items {
        return Some(setup.items[name]);
      }
      ReplaceSection(layout, "setup", setup.Put(name, Scalar(Str(default))));
      layout := Layout(layout.keys, layout.sections["setup" := setup.Put(name, Scalar(Str(default)))]);
      return None;
    }

    /** `get_data_locs(config)`: see `ColorSections` and `Locs`. */
    method GetDataLocs() returns (r: Result<Layout>)
      requires Valid()
      modifies this
      ensures Valid()
      ensures r.Ok? <==> ColorSections(old(layout)).Ok?
      ensures r.Ok? ==> layout == ColorSections(old(layout)).value && r.value == Locs(layout)
      ensures r.Err? ==> r.error == ColorSections(old(layout)).error
    {
      ghost var start := layout;
      var locs := Layout([], map[]);
      var n := |layout.keys|;
      for i := 0 to n
        invariant ColorUpTo(start, i) == Ok(layout)
        invariant locs == LocsUpTo(layout, i)
      {
        var located := LocateKey(i, locs, start);
        if located.Err? {
          ColorUpToStops(start, i + 1, n);
          return Err(located.error);
        }
        locs := located.value;
      }
      return Ok(locs);
    }

    /** One pass of the loop of `get_data_locs`: unless the key is the
        setup, the signals of its section are coloured and the section is
        added to the locations. */
    method LocateKey(i: nat, locs: Layout, ghost start: Layout) returns (r: Result<Layout>)
      requires Valid() && i < |layout.keys| && locs == LocsUpTo(layout, i)
      requires WellFormed(start) && start.keys == layout.keys && ColorUpTo(start, i) == Ok(layout)
      modifies this
      ensures Valid() && layout.keys == old(layout.keys)
      ensures r.Ok? ==> ColorUpTo(start, i + 1) == Ok(layout) && r.value == LocsUpTo(layout, i + 1)
      ensures r.Err? ==> ColorUpTo(start, i + 1) == Err(r.error)
    {
      var key := layout.keys[i];
      if Lower(key) == "setup" {
        return Ok(locs);
      }
      ghost var before := layout;
      var done := ParseDataColors(key);
      if done.Err? {
        return Err(done.error);
      }
      LocateStep(before, layout, i);
      // `data_locs[key]` is the dictionary `config[key]` itself, so it
      // holds the section as recoloured.
      return Ok(Layout(locs.keys + [key], locs.sections[key := layout.sections[key]]));
    }

    /** `add_grid_keys(config, column_setup)`: see `WithGridKeys`. */
    method AddGridKeys(columnSetup: seq<int>)
      requires Valid()
      modifies this
      ensures Valid()
      ensures layout == WithGridKeys(old(layout), columnSetup)
    {
      ghost var start := layout;
      ghost var visited: seq<string> := [];
      for col := 0 to |columnSetup|
        invariant layout.Valid() && visited == GridKeyListUpTo(columnSetup, col)
        invariant layout == AddKeys(start, visited)
      {
        AddRowKeys(col, columnSetup[col], start, visited);
        visited := visited + RowKeys(col, columnSetup[col]);
      }
      AddKeysExtends(start, visited);
      ExtendsWellFormed(layout, start);
    }

    /** The inner loop of `add_grid_keys`: the rows of column `col`. */
    method AddRowKeys(col: nat, nrow: int, ghost start: Layout, ghost before: seq<string>)
      requires start.Valid() && layout.Valid() && layout == AddKeys(start, before)
      modifies this
      ensures layout.Valid() && layout == AddKeys(start, before + RowKeys(col, nrow))
    {
      ghost var visited := before;
      for row := 0 to if nrow > 0 then nrow else 0
        invariant layout.Valid() && visited == before + RowKeys(col, row)
        invariant layout == AddKeys(start, visited)
      {
        var key := GridKey(row, col);
        AddKeysSnoc(start, visited, key);
        SnocAssoc(before, RowKeys(col, row), key);
        if key !in layout.sections {
          layout := layout.Put(key, EmptySection);
        }
        visited := visited + [key];
      }
    }
  }

  /** `config_parser(filename)` on the parsed file: the steps of the source
      in order on one configuration dictionary. What it returns is the
      intended reading, and it fails where that reading does not or where
      'server' or 'event' is missing. */
  method ParseConfigFile(file: Layout) returns (r: Result<Parsed>)
    requires WellFormed(file) && ColumnsAreValue(file)
    ensures r == ParseConfig(file)
    ensures r.Ok? ==> r == ParseConfigIntended(file)
    ensures r.Err? && ParseConfigIntended(file).Ok? ==> r.error.UnboundLocalError?
  {
    ParseConfigAsWritten(file);
    var config := new ConfigFile(file);
    if "setup" !in config.layout.sections {
      return Err(KeyError("setup"));
    }
    if "col" !in config.layout.sections["setup"].items {
      return Err(KeyError("col"));
    }
    var columns := ParseColumns(Elements(config.layout.sections["setup"].items["col"].v));
    if columns.Err? {
      return Err(columns.error);
    }
    var columnSetup := columns.value;
    config.AddGridKeys(columnSetup);
    GridKeysKeepSetup(file, columnSetup);
    var tree := config.SetDefault("tree", DefaultTree);
    var event := config.SetDefault("event", DefaultEvent);
    var server := config.SetDefault("server", DefaultServer);
    var locs := config.GetDataLocs();
    if locs.Err? {
      return Err(locs.error);
    }
    // The return reads `server` before `event_name`.
    if server.None? {
      return Err(UnboundLocalError("server"));
    }
    if event.None? {
      return Err(UnboundLocalError("event_name"));
    }
    var treeValue := if tree.Some? then tree.value else Scalar(Str(DefaultTree));
    return Ok(Parsed(config.layout, server.value, treeValue, event.value, columnSetup, locs.value));
  }
}
