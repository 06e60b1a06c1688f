/**
 * JSON values as the Python code builds and reads them (dicts, lists,
 * strings, ints, floats, booleans and None), and navigation by key path.
 */
module Json {
  import opened Wrappers

  datatype Value =
    | Null
    | Bool(b: bool)
    | Int(i: int)
    | Real(r: real)
    | Str(s: string)
    | Arr(items: seq<Value>)
    | Obj(fields: map<string, Value>)

  /** The empty dict `{}` returned by the builders on an invalid bounding box. */
  const Empty: Value := Obj(map[])

  /** `d.get(key)`: the value stored under `key`, or None when it is absent. */
  function Get(d: map<string, Value>, key: string): Value
  {
    if key in d then d[key] else Null
  }

  /**
   * The outcome of subscripting into a value, `v["input"]["data"][0]`:
   * the value found, or Missing where a key or an index is absent.
   */
  datatype Lookup = Found(value: Value) | Missing {

    /** `[key]` on a dict. */
    function Key(key: string): Lookup
    {
      if Found? && value.Obj? && key in value.fields then Found(value.fields[key]) else Missing
    }

    /** `[i]` on a list. */
    function Index(i: nat): Lookup
    {
      if Found? && value.Arr? && i < |value.items| then Found(value.items[i]) else Missing
    }

    /** The string that was found, if it is one. */
    function AsStr(): Option<string>
    {
      if Found? && value.Str? then Some(value.s) else None
    }

    /** The integer that was found, if it is one. */
    function AsInt(): Option<int>
    {
      if Found? && value.Int? then Some(value.i) else None
    }

    /** The key set of a dict that was found. */
    function Keys(): Option<set<string>>
    {
      if Found? && value.Obj? then Some(value.fields.Keys) else None
    }

    /** `len(...)` of a list that was found. */
    function Length(): Option<nat>
    {
      if Found? && value.Arr? then Some(|value.items|) else None
    }
  }

  /** A Python list of floats. */
  function Reals(xs: seq<real>): (v: Value)
    ensures v.Arr? && |v.items| == |xs|
    ensures forall i :: 0 <= i < |xs| ==> v.items[i] == Real(xs[i])
  {
    Arr(seq(|xs|, i requires 0 <= i < |xs| => Real(xs[i])))
  }

  /** A Python list of strings. */
  function Strs(xs: seq<string>): (v: Value)
    ensures v.Arr? && |v.items| == |xs|
    ensures forall i :: 0 <= i < |xs| ==> v.items[i] == Str(xs[i])
  {
    Arr(seq(|xs|, i requires 0 <= i < |xs| => Str(xs[i])))
  }

  /** Reads a list of floats back; the inverse of Reals. */
  function ReadReals(v: Value): (r: Option<seq<real>>)
    ensures r.Some? ==> v == Reals(r.value)
  {
    if v.Arr? && forall i :: 0 <= i < |v.items| ==> v.items[i].Real?
    then
      var xs := seq(|v.items|, i requires 0 <= i < |v.items| => v.items[i].r);
      assert v.items == Reals(xs).items;
      Some(xs)
    else None
  }

  /** Reads a list of strings back; the inverse of Strs. */
  function ReadStrs(v: Value): (r: Option<seq<string>>)
    ensures r.Some? ==> v == Strs(r.value)
  {
    if v.Arr? && forall i :: 0 <= i < |v.items| ==> v.items[i].Str?
    then
      var xs := seq(|v.items|, i requires 0 <= i < |v.items| => v.items[i].s);
      assert v.items == Strs(xs).items;
      Some(xs)
    else None
  }

  lemma {:induction false} RealsRoundTrip(xs: seq<real>)
    ensures ReadReals(Reals(xs)) == Some(xs)
  {
    var v := Reals(xs);
    assert forall i :: 0 <= i < |v.items| ==> v.items[i].Real?;
    assert ReadReals(v).Some?;
    var ys := ReadReals(v).value;
    assert Reals(ys) == v;
    forall i | 0 <= i < |xs| ensures ys[i] == xs[i] {
      assert Reals(ys).items[i] == Real(ys[i]);
      assert v.items[i] == Real(xs[i]);
    }
    assert ys == xs;
  }

  lemma {:induction false} StrsRoundTrip(xs: seq<string>)
    ensures ReadStrs(Strs(xs)) == Some(xs)
  {
    var v := Strs(xs);
    assert forall i :: 0 <= i < |v.items| ==> v.items[i].Str?;
    assert ReadStrs(v).Some?;
    var ys := ReadStrs(v).value;
    assert Strs(ys) == v;
    forall i | 0 <= i < |xs| ensures ys[i] == xs[i] {
      assert Strs(ys).items[i] == Str(ys[i]);
      assert v.items[i] == Str(xs[i]);
    }
    assert ys == xs;
  }
}
