/** The MDSplus helpers of app/data/mdsplus_helpers.py that do not talk to
    a server: the check that anything came back and the outcome of one
    retrieval from a signal's options. `get` stands for `connection.get`. */
module AppMdsplus {
  import opened Wrappers
  import opened Config
  import opened AppData
  import SourceData
  import SourceMdsplus

  // ---------------------------------------------------------------------
  // `check_data_dictionary`

  /** The inner loop over one list: some slot is not `None`. */
  function AnyPresent<T>(items: seq<Option<T>>): bool
  {
    items != [] && (items[0].Some? || AnyPresent(items[1..]))
  }

  /** `check_data_dictionary`: true as soon as some slot of some list is not `None`. */
  function CheckDataDictionary<T>(dd: seq<(string, seq<Option<T>>)>): bool
  {
    dd != [] && (AnyPresent(dd[0].1) || CheckDataDictionary(dd[1..]))
  }

  lemma {:induction false} AnyPresentIs<T>(items: seq<Option<T>>)
    ensures AnyPresent(items) <==> exists j | 0 <= j < |items| :: items[j].Some?
  {
    if items != [] {
      AnyPresentIs(items[1..]);
      if exists j | 0 <= j < |items| :: items[j].Some? {
        var j :| 0 <= j < |items| && items[j].Some?;
        if j > 0 {
          assert items[1..][j - 1].Some?;
        }
      }
    }
  }

  /** The check holds iff some slot of some list holds a record; an empty
      dictionary, or one of empty lists or `None`s only, gives false. */
  lemma {:induction false} CheckDataDictionaryIs<T>(dd: seq<(string, seq<Option<T>>)>)
    ensures CheckDataDictionary(dd) <==>
              exists i, j | 0 <= i < |dd| && 0 <= j < |dd[i].1| :: dd[i].1[j].Some?
  {
    if dd != [] {
      CheckDataDictionaryIs(dd[1..]);
      AnyPresentIs(dd[0].1);
      if exists i, j | 0 <= i < |dd| && 0 <= j < |dd[i].1| :: dd[i].1[j].Some? {
        var i, j :| 0 <= i < |dd| && 0 <= j < |dd[i].1| && dd[i].1[j].Some?;
        if i > 0 {
          assert dd[1..][i - 1].1[j].Some?;
        }
      }
      if CheckDataDictionary(dd[1..]) {
        var i, j :| 0 <= i < |dd[1..]| && 0 <= j < |dd[1..][i].1| && dd[1..][i].1[j].Some?;
        assert dd[i + 1].1[j].Some?;
      }
    }
  }

  /** Unlike the check of source/data/mdsplus_helpers.py, this one does not
      ask for truthiness: a single one-sample record is enough. */
  lemma ChecksDisagree()
    ensures var dd := [("11", [Some(SourceData.Data("ip", [0.0], [1.0], "blue"))])];
            CheckDataDictionary(dd) && SourceMdsplus.CheckDataDictionary(dd) == Ok(false)
  {
    var dd: SourceMdsplus.DataDictionary := [("11", [Some(SourceData.Data("ip", [0.0], [1.0], "blue"))])];
    assert dd[0].1[0].Some?;
    CheckDataDictionaryIs(dd);
    SourceMdsplus.CheckDataDictionaryIs(dd);
  }

  // ---------------------------------------------------------------------
  // `retrieve_data`

  /** The newline normalisation applied to an option value. A string is
      normalised as in source/data/mdsplus_helpers.py; a list is passed on
      unless "\n" is one of its items, in which case `splitlines` is missing
      and `AttributeError` is raised. */
  function NormaliseValue(v: Value): (r: Result<Value>)
    ensures v.Str? ==> r == Ok(Str(SourceMdsplus.Normalise(v.s)))
    ensures v.List? ==> (r.Ok? <==> "\n" !in v.items)
    ensures v.List? && r.Ok? ==> r.value == v
    ensures r.Err? ==> r.error == AttributeError
  {
    match v
    case Str(s) => Ok(Str(SourceMdsplus.Normalise(s)))
    case List(items) => if "\n" in items then Err(AttributeError) else Ok(v)
  }

  /** The MDSplus exceptions that `retrieve_data` or `retrieve_signal`
      catch and turn into `None`. */
  predicate Caught(e: MdsError)
  {
    e == MdsIpException || e == TreeFOPENR || e == TdiMISS_ARG
  }

  /** A fetch that raises an exception nobody catches. */
  predicate Escapes(f: SourceMdsplus.Fetched)
  {
    f.Raised? && !Caught(f.error)
  }

  /** With 'y' present, what makes `retrieve_data` raise rather than return:
      a 'y', or a present 'x', that a list holding "\n" makes fail to
      normalise, or a fetch raising an exception nobody catches ('y' is
      fetched first, so 'x' only matters when the 'y' fetch did not raise). */
  predicate RaisesFor(get: Value -> SourceMdsplus.Fetched, nodeLoc: map<string, Value>)
    requires "y" in nodeLoc
  {
    NormaliseValue(nodeLoc["y"]).Err? ||
    ("x" in nodeLoc &&
     (NormaliseValue(nodeLoc["x"]).Err? ||
      Escapes(get(NormaliseValue(nodeLoc["y"]).value)) ||
      (!get(NormaliseValue(nodeLoc["y"]).value).Raised? && Escapes(get(NormaliseValue(nodeLoc["x"]).value)))))
  }

  /** The fields of the record `retrieve_data` builds. */
  datatype Retrieved = Retrieved(time: seq<real>, values: seq<real>, color: Value)

  /** The outcome of `retrieve_data` for a signal's options `nodeLoc`. */
  function Retrieve(get: Value -> SourceMdsplus.Fetched, nodeLoc: map<string, Value>): (r: Result<Option<Retrieved>>)
    ensures "y" !in nodeLoc ==> r == Ok(None)
    ensures r.Err? <==> "y" in nodeLoc && RaisesFor(get, nodeLoc)
    ensures r.Err? ==> r.error == AttributeError ||
                       (r.error.MdsplusError? && (r.error.kind == TreeNODATA || r.error.kind == TreeNNF))
    ensures r.Ok? && r.value.Some? <==>
              "x" in nodeLoc && "y" in nodeLoc && "color" in nodeLoc &&
              NormaliseValue(nodeLoc["x"]).Ok? && NormaliseValue(nodeLoc["y"]).Ok? &&
              get(NormaliseValue(nodeLoc["y"]).value).Got? && get(NormaliseValue(nodeLoc["x"]).value).Got?
    ensures r.Ok? && r.value.Some? ==>
              r.value.value == Retrieved(get(NormaliseValue(nodeLoc["x"]).value).values,
                                         get(NormaliseValue(nodeLoc["y"]).value).values,
                                         nodeLoc["color"])
  {
    if "y" !in nodeLoc then Ok(None)
    else
      var y :- NormaliseValue(nodeLoc["y"]);
      if "x" !in nodeLoc then Ok(None)
      else
        var x :- NormaliseValue(nodeLoc["x"]);
        var data := get(y);
        if data.Raised? then
          if Caught(data.error) then Ok(None) else Err(MdsplusError(data.error))
        else
          var t := get(x);
          if t.Raised? then
            if Caught(t.error) then Ok(None) else Err(MdsplusError(t.error))
          else if data.NoData? || t.NoData? then Ok(None)
          else if "color" !in nodeLoc then Ok(None)
          else Ok(Some(Retrieved(t.values, data.values, nodeLoc["color"])))
  }

  /** The `KeyError` and "None without any errors" cases: with no exception
      escaping, a missing 'x' or 'color', or a fetch that returns no data,
      gives `None` rather than an error. */
  lemma MissingGivesNone(get: Value -> SourceMdsplus.Fetched, nodeLoc: map<string, Value>)
    requires "y" in nodeLoc && !RaisesFor(get, nodeLoc)
    requires "x" !in nodeLoc || "color" !in nodeLoc ||
             get(NormaliseValue(nodeLoc["y"]).value).NoData? || get(NormaliseValue(nodeLoc["x"]).value).NoData?
    ensures Retrieve(get, nodeLoc) == Ok(None)
  {
  }

  /** On string options, and when no fetch raises an exception that escapes,
      this retrieval fetches the same expressions as the one of
      source/data/mdsplus_helpers.py and yields a record exactly when it
      does, with the same arrays. */
  lemma AgreesWithSource(get: Value -> SourceMdsplus.Fetched, nodeLoc: map<string, Value>, name: string)
    requires "x" in nodeLoc && "y" in nodeLoc && "color" in nodeLoc
    requires nodeLoc["x"].Str? && nodeLoc["y"].Str? && nodeLoc["color"].Str?
    requires !Escapes(get(Str(SourceMdsplus.Normalise(nodeLoc["y"].s))))
    requires !Escapes(get(Str(SourceMdsplus.Normalise(nodeLoc["x"].s))))
    ensures var s := SourceMdsplus.RetrieveData((e: string) => get(Str(e)), nodeLoc["x"].s, nodeLoc["y"].s, name, nodeLoc["color"].s);
            var a := Retrieve(get, nodeLoc);
            a.Ok? && (a.value.Some? <==> s.Some?) &&
            (s.Some? ==> a.value.value.time == s.value.time && a.value.value.values == s.value.values)
  {
  }

  /** `retrieve_data` itself: builds the legacy record from the outcome. */
  method RetrieveData(get: Value -> SourceMdsplus.Fetched, nodeLoc: map<string, Value>, name: string)
    returns (r: Result<Option<Data>>)
    ensures r.Ok? <==> Retrieve(get, nodeLoc).Ok?
    ensures r.Err? ==> r.error == Retrieve(get, nodeLoc).error
    ensures r.Ok? ==> (r.value.Some? <==> Retrieve(get, nodeLoc).value.Some?)
    ensures r.Ok? && r.value.Some? ==>
              var d, rec := r.value.value, Retrieve(get, nodeLoc).value.value;
              fresh(d) && d.name == name && d.color == rec.color &&
              d.time == Some(rec.time) && d.values == Some(rec.values) && d.Truthy()
  {
    var outcome := Retrieve(get, nodeLoc);
    if outcome.Err? {
      return Err(outcome.error);
    }
    if outcome.value.None? {
      return Ok(None);
    }
    var rec := outcome.value.value;
    var d := new Data(name, Some(rec.time), Some(rec.values), rec.color);
    return Ok(Some(d));
  }
}
