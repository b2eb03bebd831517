/** The MDSplus helpers of source/data/mdsplus_helpers.py that do not talk
    to a server: preparing the request list from the subplot locations,
    turning a signal's options into the expressions that are fetched, the
    outcome of one retrieval, and the check that anything came back. The
    server itself is a parameter: `get` stands for `connection.get`. */
module SourceMdsplus {
  import opened Wrappers
  import opened Text
  import opened Config
  import opened SourceData

  /** Subplot entries that are options rather than signals. */
  const IgnoreItems: seq<string> := ["legend", "xlabel", "ylabel", "xlim", "ylim", "color", "noresample", "xshare"]

  // ---------------------------------------------------------------------
  // Request preparation (`retrieve_all_data`, before the fan-out)

  /** The requests one subplot contributes: each of its keys that is not an
      option, in the subplot's order, paired with the subplot's name. */
  function SubplotRequests(name: string, keys: seq<string>): seq<(string, string)>
  {
    if keys == [] then []
    else
      var last := keys[|keys| - 1];
      SubplotRequests(name, keys[..|keys| - 1]) + (if last in IgnoreItems then [] else [(name, last)])
  }

  /** The requests of the first `n` subplots of `config`, in its order. */
  function Requests(config: Layout, n: nat): seq<(string, string)>
    requires config.Valid() && n <= |config.keys|
  {
    if n == 0 then []
    else
      var name := config.keys[n - 1];
      Requests(config, n - 1) + SubplotRequests(name, config.sections[name].keys)
  }

  /** Prepares the result dictionary, one empty list per subplot, and the
      list of (subplot, signal) pairs to fetch. */
  method PrepareRequests(config: Layout) returns (data: map<string, seq<Option<Data>>>, requests: seq<(string, string)>)
    requires config.Valid()
    ensures forall k :: k in data <==> k in config.sections
    ensures forall k | k in data :: data[k] == []
    ensures requests == Requests(config, |config.keys|)
  {
    data := map[];
    requests := [];
    for i := 0 to |config.keys|
      invariant forall k :: k in data <==> k in config.keys[..i]
      invariant forall k | k in data :: data[k] == []
      invariant requests == Requests(config, i)
    {
      var name := config.keys[i];
      data := data[name := []];
      requests := AddSubplotRequests(requests, name, config.sections[name].keys);
      assert config.keys[..i + 1] == config.keys[..i] + [name];
    }
    assert config.keys[..|config.keys|] == config.keys;
  }

  /** The inner loop of the preparation: appends the requests of one subplot. */
  method AddSubplotRequests(before: seq<(string, string)>, name: string, keys: seq<string>)
    returns (requests: seq<(string, string)>)
    ensures requests == before + SubplotRequests(name, keys)
  {
    requests := before;
    for j := 0 to |keys|
      invariant requests == before + SubplotRequests(name, keys[..j])
    {
      assert keys[..j + 1][..j] == keys[..j];
      if keys[j] !in IgnoreItems {
        requests := requests + [(name, keys[j])];
      }
    }
    assert keys[..|keys|] == keys;
  }

  /** A subplot requests exactly its non-option keys. */
  lemma {:induction false} SubplotRequestsAre(name: string, keys: seq<string>, x: string, y: string)
    ensures (x, y) in SubplotRequests(name, keys) <==> x == name && y in keys && y !in IgnoreItems
  {
    if keys != [] {
      var init := keys[..|keys| - 1];
      SubplotRequestsAre(name, init, x, y);
      assert keys == init + [keys[|keys| - 1]];
    }
  }

  lemma {:induction false} RequestsUpTo(config: Layout, n: nat, x: string, y: string)
    requires config.Valid() && n <= |config.keys|
    ensures (x, y) in Requests(config, n) <==>
              x in config.keys[..n] && y in config.sections[x].keys && y !in IgnoreItems
  {
    if n > 0 {
      var name := config.keys[n - 1];
      RequestsUpTo(config, n - 1, x, y);
      SubplotRequestsAre(name, config.sections[name].keys, x, y);
      assert config.keys[..n] == config.keys[..n - 1] + [name];
    }
  }

  /** The request list names every signal of every subplot, and nothing
      else: a pair is requested iff the subplot exists, has that entry and
      the entry is not an option. */
  lemma RequestsAre(config: Layout, x: string, y: string)
    requires config.Valid()
    requires forall k | k in config.sections :: config.sections[k].Valid()
    ensures (x, y) in Requests(config, |config.keys|) <==>
              x in config.sections && y in config.sections[x].items && y !in IgnoreItems
  {
    RequestsUpTo(config, |config.keys|, x, y);
    assert config.keys[..|config.keys|] == config.keys;
  }

  // ---------------------------------------------------------------------
  // Expressions and retrieval (`retrieve_signal`, `retrieve_data`)

  /** The expression handed to MDSplus: verbatim when it holds no '\n',
      otherwise its lines (`splitlines`) joined by single blanks. */
  function Normalise(expr: string): (r: string)
    ensures '\n' !in r
    ensures '\n' !in expr ==> r == expr
  {
    if '\n' in expr then
      SplitLinesUnbroken(expr);
      JoinLacks(" ", SplitLines(expr), '\n');
      Join(" ", SplitLines(expr))
    else expr
  }

  /** For an expression broken only by '\n', normalising turns each inner
      line break into a blank and drops a final one. */
  lemma NormaliseBlanks(expr: string)
    requires OnlyNewlineBreaks(expr)
    ensures Normalise(expr) == NewlinesToBlanks(WithoutFinalNewline(expr))
  {
    JoinedLinesAreBlanked(expr);
    if '\n' !in expr {
      assert WithoutFinalNewline(expr) == expr;
      assert NewlinesToBlanks(expr) == expr;
    }
  }

  /** Normalising twice changes nothing more. */
  lemma NormaliseIdempotent(expr: string)
    ensures Normalise(Normalise(expr)) == Normalise(expr)
  {
  }

  /** What `connection.get(expr)` gives: the data of the node, `None`, or an
      MDSplus exception. */
  datatype Fetched = Got(values: seq<real>) | NoData | Raised(error: MdsError)

  /** `retrieve_data`: both expressions are normalised and fetched; any
      MDSplus exception or a `None` from the server gives no record. */
  function RetrieveData(get: string -> Fetched, xstr: string, ystr: string, name: string, color: string): (r: Option<Data>)
    ensures r.Some? <==> get(Normalise(ystr)).Got? && get(Normalise(xstr)).Got?
    ensures r.Some? ==> r.value == Data(name, get(Normalise(xstr)).values, get(Normalise(ystr)).values, color)
  {
    var data := get(Normalise(ystr));
    if data.Raised? then None
    else
      var t := get(Normalise(xstr));
      if t.Raised? then None
      else if data.NoData? || t.NoData? then None
      else Some(Data(name, t.values, data.values, color))
  }

  /** The y expression as fetched: a list is joined with ','. */
  function YExpression(y: Value): string
  {
    match y
    case Str(s) => s
    case List(items) => Join(",", items)
  }

  /** `retrieve_signal` on a signal's options: a missing 'x', 'y' or 'color'
      raises `KeyError` (in that order); a list-valued 'x' or 'color' cannot
      be a key of the retrieval cache and raises `TypeError`. */
  function RetrieveSignal(get: string -> Fetched, fields: map<string, Value>, name: string): (r: Result<Option<Data>>)
    ensures "x" !in fields ==> r == Err(KeyError("x"))
    ensures "x" in fields && "y" !in fields ==> r == Err(KeyError("y"))
    ensures "x" in fields && "y" in fields && "color" !in fields ==> r == Err(KeyError("color"))
    ensures r.Ok? <==> "x" in fields && "y" in fields && "color" in fields &&
                       fields["x"].Str? && fields["color"].Str?
    ensures r.Ok? ==> r.value == RetrieveData(get, fields["x"].s, YExpression(fields["y"]), name, fields["color"].s)
  {
    if "x" !in fields then Err(KeyError("x"))
    else if "y" !in fields then Err(KeyError("y"))
    else if "color" !in fields then Err(KeyError("color"))
    else
      var y := YExpression(fields["y"]);
      if fields["x"].List? || fields["color"].List? then Err(TypeError("unhashable type: 'list'"))
      else Ok(RetrieveData(get, fields["x"].s, y, name, fields["color"].s))
  }

  /** A list-valued y expression is fetched exactly as its ','-joined text. */
  lemma ListYIsJoined(get: string -> Fetched, fields: map<string, Value>, name: string)
    requires "y" in fields && fields["y"].List?
    ensures RetrieveSignal(get, fields, name) ==
            RetrieveSignal(get, fields["y" := Str(Join(",", fields["y"].items))], name)
  {
  }

  // ---------------------------------------------------------------------
  // `check_data_dictionary`

  /** The retrieved records, per subplot, in the dictionary's order. */
  type DataDictionary = seq<(string, seq<Option<Data>>)>

  /** `bool(item)`: `None` is false; a record is truthy by its own rule,
      which raises on mismatched arrays. */
  function ItemTruthy(item: Option<Data>): Result<bool>
  {
    match item
    case None => Ok(false)
    case Some(d) => d.Truthy()
  }

  /** The inner loop over one list: stops at the first truthy item. */
  function ScanList(items: seq<Option<Data>>): Result<bool>
  {
    if items == [] then Ok(false)
    else
      var first :- ItemTruthy(items[0]);
      if first then Ok(true) else ScanList(items[1..])
  }

  /** `check_data_dictionary`: true as soon as some list holds a truthy item. */
  function CheckDataDictionary(dd: DataDictionary): Result<bool>
  {
    if dd == [] then Ok(false)
    else
      var found :- ScanList(dd[0].1);
      if found then Ok(true) else CheckDataDictionary(dd[1..])
  }

  /** A slot that holds nothing plottable: `None`, or a record of at most one sample. */
  predicate Falsy(item: Option<Data>)
  {
    item.None? || (|item.value.time| == |item.value.values| && |item.value.time| <= 1)
  }

  /** A record of two or more samples. */
  predicate Plottable(item: Option<Data>)
  {
    item.Some? && |item.value.time| == |item.value.values| && |item.value.time| > 1
  }

  /** A record whose time and value arrays differ in length. */
  predicate Malformed(item: Option<Data>)
  {
    item.Some? && |item.value.time| != |item.value.values|
  }

  lemma {:induction false} ScanListIs(items: seq<Option<Data>>)
    ensures ScanList(items) == Ok(false) <==> forall j | 0 <= j < |items| :: Falsy(items[j])
    ensures ScanList(items) == Ok(true) ==> exists j | 0 <= j < |items| :: Plottable(items[j])
    ensures ScanList(items).Err? ==>
              ScanList(items).error.ValueError? && exists j | 0 <= j < |items| :: Malformed(items[j])
  {
    if items != [] {
      ScanListIs(items[1..]);
      if ItemTruthy(items[0]) == Ok(false) {
        forall j | 0 < j < |items| ensures items[j] == items[1..][j - 1] { }
        if ScanList(items) == Ok(true) {
          var j :| 0 <= j < |items[1..]| && Plottable(items[1..][j]);
          assert Plottable(items[j + 1]);
        }
        if ScanList(items).Err? {
          var j :| 0 <= j < |items[1..]| && Malformed(items[1..][j]);
          assert Malformed(items[j + 1]);
        }
      }
    }
  }

  /** The check is false exactly when every slot of every list is empty or
      holds at most one sample; it is true only when some record has two or
      more; it raises only on a record with mismatched arrays, and without
      such a record it is true iff some record is plottable. */
  lemma {:induction false} CheckDataDictionaryIs(dd: DataDictionary)
    ensures CheckDataDictionary(dd) == Ok(false) <==>
              forall i, j | 0 <= i < |dd| && 0 <= j < |dd[i].1| :: Falsy(dd[i].1[j])
    ensures CheckDataDictionary(dd) == Ok(true) ==>
              exists i, j | 0 <= i < |dd| && 0 <= j < |dd[i].1| :: Plottable(dd[i].1[j])
    ensures CheckDataDictionary(dd).Err? ==>
              CheckDataDictionary(dd).error.ValueError? &&
              exists i, j | 0 <= i < |dd| && 0 <= j < |dd[i].1| :: Malformed(dd[i].1[j])
    ensures (forall i, j | 0 <= i < |dd| && 0 <= j < |dd[i].1| :: !Malformed(dd[i].1[j])) ==>
              CheckDataDictionary(dd) ==
              Ok(exists i, j | 0 <= i < |dd| && 0 <= j < |dd[i].1| :: Plottable(dd[i].1[j]))
  {
    if dd != [] {
      var rest := dd[1..];
      CheckDataDictionaryIs(rest);
      ScanListIs(dd[0].1);
      forall i | 0 < i < |dd| ensures dd[i] == rest[i - 1] { }
      if CheckDataDictionary(dd) == Ok(true) && ScanList(dd[0].1) == Ok(false) {
        var i, j :| 0 <= i < |rest| && 0 <= j < |rest[i].1| && Plottable(rest[i].1[j]);
        assert Plottable(dd[i + 1].1[j]);
      }
      if CheckDataDictionary(dd).Err? && ScanList(dd[0].1) == Ok(false) {
        var i, j :| 0 <= i < |rest| && 0 <= j < |rest[i].1| && Malformed(rest[i].1[j]);
        assert Malformed(dd[i + 1].1[j]);
      }
      if CheckDataDictionary(dd) == Ok(true) && ScanList(dd[0].1) == Ok(true) {
        var j :| 0 <= j < |dd[0].1| && Plottable(dd[0].1[j]);
        assert Plottable(dd[0].1[j]);
      }
      if CheckDataDictionary(dd).Err? && ScanList(dd[0].1).Err? {
        var j :| 0 <= j < |dd[0].1| && Malformed(dd[0].1[j]);
        assert Malformed(dd[0].1[j]);
      }
    }
  }
}
