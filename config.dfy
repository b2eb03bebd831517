/** The shapes of a PiScope configuration as ConfigObj hands it over:
    a top-level section per subplot position ("ij") plus 'setup', and inside
    a subplot section either scalar options (xlabel, legend, xlim, ...) or one
    sub-section per signal (x, y, color). */
module Config {
  import opened Text

  /** A ConfigObj value: a single string, or a list when the file wrote a
      comma-separated value. */
  datatype Value = Str(s: string) | List(items: seq<string>)

  /** An entry of a subplot or setup section. */
  datatype Item = Scalar(v: Value) | Signal(fields: map<string, Value>)

  /** An ordered section: `keys` is the dictionary's iteration order. */
  datatype Section = Section(keys: seq<string>, items: map<string, Item>)
  {
    ghost predicate Valid()
    {
      Unique(keys) &&
      (forall k :: k in items <==> k in keys)
    }

    /** `section[key] = item`: an existing key keeps its place, a new key is appended. */
    function Put(key: string, item: Item): (r: Section)
      requires Valid()
      ensures r.Valid()
      ensures r.items == items[key := item]
      ensures r.keys == if key in items then keys else keys + [key]
    {
      Section(if key in items then keys else keys + [key], items[key := item])
    }
  }

  const EmptySection: Section := Section([], map[])

  /** Python's `bool(value)`: a string or list is true iff it is not empty. */
  predicate Truthy(v: Value)
  {
    match v
    case Str(s) => s != ""
    case List(items) => items != []
  }

  /** Python's `bool(item)`: a sub-section is true iff it has entries. */
  predicate ItemTruthy(item: Item)
  {
    match item
    case Scalar(v) => Truthy(v)
    case Signal(fields) => |fields| > 0
  }

  /** Python's iteration over a value: a list yields its items, a string its
      characters one by one. */
  function Elements(v: Value): (r: seq<string>)
    ensures v.List? ==> r == v.items
    ensures v.Str? ==> |r| == |v.s| && forall i | 0 <= i < |r| :: r[i] == [v.s[i]]
  {
    match v
    case List(items) => items
    case Str(s) => seq(|s|, i requires 0 <= i < |s| => [s[i]])
  }

  /** An ordered mapping from top-level keys to sections: the parsed file
      ("setup" and the "ij" subplot keys) or the subplot locations taken from it. */
  datatype Layout = Layout(keys: seq<string>, sections: map<string, Section>)
  {
    ghost predicate Valid()
    {
      Unique(keys) &&
      (forall k :: k in sections <==> k in keys)
    }

    /** `config[key] = section`: an existing key keeps its place, a new key is appended. */
    function Put(key: string, section: Section): (r: Layout)
      requires Valid()
      ensures r.Valid()
      ensures r.sections == sections[key := section]
      ensures r.keys == if key in sections then keys else keys + [key]
    {
      Layout(if key in sections then keys else keys + [key], sections[key := section])
    }
  }
}
