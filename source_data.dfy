/** The time-series record of source/data/data.py: a named signal with a
    time array, a value array and a plotting colour. */
module SourceData {
  import opened Wrappers

  /** `Data(name, time, data, color)`. The constructor copies the arrays
      (`np.array`), so a record shares no state with its caller: it is a
      value here, and the `time`/`data` setters return the updated record. */
  datatype Data = Data(name: string, time: seq<real>, values: seq<real>, color: string)
  {
    /** The `time` setter: the new array replaces the time array only. */
    function SetTime(val: seq<real>): (r: Data)
      ensures r.time == val && r.values == values && r.name == name && r.color == color
    {
      this.(time := val)
    }

    /** The `data` setter: the new array replaces the value array only. */
    function SetValues(val: seq<real>): (r: Data)
      ensures r.values == val && r.time == time && r.name == name && r.color == color
    {
      this.(values := val)
    }

    /** `len(d)`: the common length of the two arrays, or `ValueError` when
        they differ. */
    function Len(): (r: Result<nat>)
      ensures r.Ok? <==> |time| == |values|
      ensures r.Ok? ==> r.value == |time| == |values|
      ensures r.Err? ==> r.error.ValueError?
    {
      if |time| == |values| then Ok(|time|)
      else Err(ValueError("Time and Data are not the same length"))
    }

    /** `bool(d)`: true iff the signal has more than one sample; a length
        mismatch propagates as `ValueError`. */
    function Truthy(): (r: Result<bool>)
      ensures r.Ok? <==> |time| == |values|
      ensures r.Ok? ==> (r.value <==> |time| > 1)
      ensures r.Err? ==> r.error.ValueError?
    {
      var n :- Len();
      Ok(n > 1)
    }

    /** `d == other`. */
    function Equals(other: Operand): (r: bool)
      ensures r <==> other.DataObject? && |time| == |values| &&
                     |other.d.time| == |other.d.values| &&
                     time == other.d.time && values == other.d.values
    {
      match other
      case Other => false
      case DataObject(o) =>
        match (Len(), o.Len())
        case (Ok(len1), Ok(len2)) =>
          if len1 != len2 then false
          else
            assert ZipEqual(time, o.time) ==> time == o.time;
            assert ZipEqual(values, o.values) ==> values == o.values;
            ZipEqual(time, o.time) && ZipEqual(values, o.values)
        case _ => false
    }
  }

  /** The right-hand operand of `==`: a `Data` record or any other object. */
  datatype Operand = DataObject(d: Data) | Other

  /** `all(x == y for x, y in zip(a, b))`. */
  predicate ZipEqual(a: seq<real>, b: seq<real>)
  {
    forall i | 0 <= i < |a| && i < |b| :: a[i] == b[i]
  }

  /** Equality is reflexive on well-formed records and ignores name and colour. */
  lemma EqualsIgnoresNameAndColor(d: Data, e: Data)
    requires |d.time| == |d.values|
    requires d.time == e.time && d.values == e.values
    ensures d.Equals(DataObject(e)) && e.Equals(DataObject(d))
  {
  }

  /** A record with mismatched arrays equals nothing, not even itself. */
  lemma MalformedEqualsNothing(d: Data, other: Operand)
    requires |d.time| != |d.values|
    ensures !d.Equals(other) && !d.Equals(DataObject(d))
  {
  }

  /** The class docstring's example: 100 samples give length 100 and truth. */
  lemma DocExample(d: Data)
    requires |d.time| == 100 && |d.values| == 100
    ensures d.Len() == Ok(100) && d.Truthy() == Ok(true)
  {
  }
}
