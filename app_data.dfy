/** The legacy record of app/data/data.py. Unlike the record of
    source/data/data.py it copies nothing, allows a missing time or value
    array, and its truth value does not look at lengths. */
module AppData {
  import opened Wrappers
  import Config
  import SourceData

  class Data {
    var name: string
    var color: Config.Value
    /** `None` when no time array was fetched. */
    var time: Option<seq<real>>
    /** `None` when no value array was fetched. */
    var values: Option<seq<real>>

    /** `Data(name, time, data, color)`: every field is stored as given. */
    constructor (name: string, time: Option<seq<real>>, values: Option<seq<real>>, color: Config.Value)
      ensures this.name == name && this.color == color
      ensures this.time == time && this.values == values
    {
      this.name := name;
      this.color := color;
      this.time := time;
      this.values := values;
    }

    /** `bool(d)`: both arrays are present. */
    predicate Truthy()
      reads this
    {
      time.Some? && values.Some?
    }

    /** `str(d)`. */
    function Str(): string
      reads this
    {
      name
    }

    /** The `time` setter: only the time array changes, and the record is
        truthy afterwards iff the new array and the value array are present. */
    method SetTime(val: Option<seq<real>>)
      modifies this
      ensures time == val
      ensures values == old(values) && name == old(name) && color == old(color)
      ensures Str() == old(Str())
      ensures Truthy() <==> val.Some? && old(values).Some?
    {
      time := val;
    }

    /** The `data` setter: only the value array changes. */
    method SetValues(val: Option<seq<real>>)
      modifies this
      ensures values == val
      ensures time == old(time) && name == old(name) && color == old(color)
      ensures Str() == old(Str())
      ensures Truthy() <==> old(time).Some? && val.Some?
    {
      values := val;
    }
  }

  /** Both records are built from the same arrays. The legacy record is
      truthy as soon as both arrays are present, even empty ones or ones of
      different lengths. The record of source/data/data.py raises
      `ValueError` on different lengths and is false with at most one
      sample, so the two agree exactly on equal lengths above one. */
  lemma TruthinessDiffers(d: Data, color: string)
    requires d.time.Some? && d.values.Some?
    ensures d.Truthy()
    ensures var s := SourceData.Data(d.name, d.time.value, d.values.value, color);
            (|d.time.value| != |d.values.value| ==> s.Truthy().Err? && s.Truthy().error.ValueError?) &&
            (|d.time.value| == |d.values.value| <= 1 ==> s.Truthy() == Ok(false)) &&
            (s.Truthy() == Ok(d.Truthy()) <==> |d.time.value| == |d.values.value| > 1)
  {
  }
}
