/**
 * A JSON document after Ruby's JSON.parse. Objects keep their fields in
 * document order (a Ruby Hash iterates in insertion order), and field access
 * follows Ruby's `v[key]`, which is how every handler navigates a message.
 */
module Json {
  import opened Wrappers
  import opened Text

  datatype Json =
    | JNull
    | JBool(b: bool)
    | JNum(n: int)
    | JStr(s: string)
    | JArr(elems: seq<Json>)
    | JObj(fields: seq<(string, Json)>)

  /** Why a body yields no resource. In Ruby both are exceptions that escape the handler. */
  datatype DecodeError =
    | Malformed                      // a NoMethodError or TypeError while navigating the body
    | UndefinedDecoder(name: string) // json_decoder_for found no decoder of that name

  /** A JSON.parse result never holds a field name twice. */
  predicate DistinctKeys(fields: seq<(string, Json)>) {
    forall i, j :: 0 <= i < j < |fields| ==> fields[i].0 != fields[j].0
  }

  /** The field names of an object, in document order (Ruby `Hash#keys`). */
  function FieldNames(fields: seq<(string, Json)>): (names: seq<string>)
    ensures |names| == |fields|
    ensures forall i :: 0 <= i < |fields| ==> names[i] == fields[i].0
  {
    seq(|fields|, i requires 0 <= i < |fields| => fields[i].0)
  }

  /** Ruby `Hash#[]`: the value stored under `key`, `nil` when there is none. */
  function Lookup(fields: seq<(string, Json)>, key: string): (v: Json)
    ensures (forall i :: 0 <= i < |fields| ==> fields[i].0 != key) ==> v == JNull
    ensures v != JNull ==> exists i :: 0 <= i < |fields| && fields[i] == (key, v)
  {
    if fields == [] then JNull
    else if fields[0].0 == key then fields[0].1
    else Lookup(fields[1..], key)
  }

  /** The names of an object are the names of all but its last field, then the last field's name. */
  lemma FieldNamesOfLast(fields: seq<(string, Json)>)
    requires fields != []
    ensures FieldNames(fields) == FieldNames(fields[..|fields| - 1]) + [fields[|fields| - 1].0]
  {
    var n := |fields| - 1;
    assert forall k :: 0 <= k < n ==> FieldNames(fields)[k] == FieldNames(fields[..n])[k];
  }

  /** In an object without repeated names, the last field's name is not among the earlier ones. */
  lemma LastNameIsNew(fields: seq<(string, Json)>)
    requires DistinctKeys(fields) && fields != []
    ensures fields[|fields| - 1].0 !in FieldNames(fields[..|fields| - 1])
  {
    var n := |fields| - 1;
    assert forall k :: 0 <= k < n ==> FieldNames(fields[..n])[k] != fields[n].0;
  }

  /** In an object without repeated names, every field is found under its own name. */
  lemma {:induction false} LookupFindsField(fields: seq<(string, Json)>, i: nat)
    requires DistinctKeys(fields) && i < |fields|
    ensures Lookup(fields, fields[i].0) == fields[i].1
  {
    if i > 0 {
      assert DistinctKeys(fields[1..]);
      assert fields[1..][i - 1] == fields[i];
      LookupFindsField(fields[1..], i - 1);
    }
  }

  /**
   * Ruby `v[key]` with a String key: a Hash gives the field or `nil`; a String
   * gives `key` itself when `key` occurs in it and `nil` otherwise; `nil`,
   * booleans, numbers and arrays raise.
   */
  function Index(v: Json, key: string): (r: Result<Json, DecodeError>)
    ensures r.Fail? <==> !(v.JObj? || v.JStr?)
    ensures r.Fail? ==> r.error == Malformed
  {
    match v
    case JObj(fields) => Ok(Lookup(fields, key))
    case JStr(s) => Ok(if Contains(s, key) then JStr(key) else JNull)
    case _ => Fail(Malformed)
  }

  /**
   * One element of an array walked by `each do |key, value|`: an array
   * element is spread over the two parameters, any other element is the
   * key with a `nil` value. None when the key is not a string.
   */
  function EachEntry(e: Json): (r: Option<(string, Json)>)
    ensures r.Some? <==> (e.JArr? && e.elems != [] && e.elems[0].JStr?) || e.JStr?
    ensures r.Some? && e.JArr? ==> r.value == (e.elems[0].s, if |e.elems| >= 2 then e.elems[1] else JNull)
    ensures r.Some? && e.JStr? ==> r.value == (e.s, JNull)
  {
    match e
    case JArr(elems) =>
      if elems != [] && elems[0].JStr? then Some((elems[0].s, if |elems| >= 2 then elems[1] else JNull)) else None
    case JStr(s) => Some((s, JNull))
    case _ => None
  }

  /** The entries of an array walked by `each do |key, value|`, in order. */
  function ArrayEntries(elems: seq<Json>): (r: Option<seq<(string, Json)>>)
    ensures r.Some? <==> forall i :: 0 <= i < |elems| ==> EachEntry(elems[i]).Some?
    ensures r.Some? ==> |r.value| == |elems| && forall i :: 0 <= i < |elems| ==> EachEntry(elems[i]) == Some(r.value[i])
    decreases |elems|
  {
    if elems == [] then Some([])
    else
      match EachEntry(elems[0])
      case None => None
      case Some(entry) =>
        assert forall i :: 0 <= i < |elems| - 1 ==> elems[1..][i] == elems[i + 1];
        match ArrayEntries(elems[1..])
        case None => None
        case Some(rest) => Some([entry] + rest)
  }

  /**
   * What `v.each do |key, value|` visits: the fields of a hash, or the
   * entries of an array; None when `v` has no `each` (`nil`, a number, a
   * boolean or a string) or an array element has a key that is not a string.
   */
  function EachPairs(v: Json): (r: Option<seq<(string, Json)>>)
    ensures v.JObj? ==> r == Some(v.fields)
    ensures v.JArr? ==> r == ArrayEntries(v.elems)
    ensures !(v.JObj? || v.JArr?) ==> r == None
  {
    match v
    case JObj(fields) => Some(fields)
    case JArr(elems) => ArrayEntries(elems)
    case _ => None
  }

  /** The value `each do |key, value|` passes for one array element: an array's second item, `nil` otherwise. */
  function ElementValue(e: Json): Json {
    if e.JArr? && |e.elems| >= 2 then e.elems[1] else JNull
  }

  /** The values `v.each do |key, value|` passes, in order, whatever the keys; None when `v` has no `each`. */
  function EachValues(v: Json): (r: Option<seq<Json>>)
    ensures r.Some? <==> v.JObj? || v.JArr?
    ensures r.Some? ==> |r.value| == if v.JObj? then |v.fields| else |v.elems|
  {
    match v
    case JObj(fields) => Some(seq(|fields|, i requires 0 <= i < |fields| => fields[i].1))
    case JArr(elems) => Some(seq(|elems|, i requires 0 <= i < |elems| => ElementValue(elems[i])))
    case _ => None
  }

  /** Where `each` yields string keys, the values it passes are those of its entries. */
  lemma EachValuesOfPairs(v: Json, entries: seq<(string, Json)>)
    requires EachPairs(v) == Some(entries)
    ensures EachValues(v).Some? && |EachValues(v).value| == |entries|
    ensures forall i :: 0 <= i < |entries| ==> EachValues(v).value[i] == entries[i].1
  {
    if v.JArr? {
      forall i | 0 <= i < |entries|
        ensures EachValues(v).value[i] == entries[i].1
      {
        assert EachEntry(v.elems[i]) == Some(entries[i]);
      }
    }
  }

  /** Ruby truthiness: everything except `nil` and `false`. */
  predicate Truthy(v: Json) {
    v != JNull && v != JBool(false)
  }
}
