/** An abstract JSON document, as the JSON library holds it in memory, and the
    two things this model needs from that library: reading typed members out of
    an object (which throws on a missing member or a value of the wrong type), and
    the tag tables that map a closed enumeration to JSON values and back. */
module Json {

  datatype Option<+T> = None | Some(value: T)

  /** The outcome of an operation that the library would abort by throwing. */
  datatype Result<+T, +E> = Success(value: T) | Failure(error: E) {
    predicate IsFailure() {
      Failure?
    }

    function PropagateFailure<U>(): Result<U, E>
      requires Failure?
    {
      Failure(error)
    }

    function Extract(): T
      requires Success?
    {
      value
    }
  }

  /** A JSON value. Object members are keyed by name; their order carries no meaning. */
  datatype Json =
    | Null
    | Bool(b: bool)
    | Str(s: string)
    | Object(fields: map<string, Json>)
    | Array(items: seq<Json>)

  /** The exceptions the library raises while reading a typed value. */
  datatype JsonError =
    | ParseError              // the stored text is not JSON at all
    | TypeError               // a value of the wrong JSON type, or `at` on a non-object
    | MissingKey(key: string) // `at` on an object that lacks the member

  /** `j.at(key)`: the member named `key`, or the exception `at` throws. */
  function At(j: Json, key: string): (r: Result<Json, JsonError>)
    ensures r.Success? <==> j.Object? && key in j.fields
    ensures r.Success? ==> r.value == j.fields[key]
    ensures j.Object? && key !in j.fields ==> r == Failure(MissingKey(key))
    ensures !j.Object? ==> r == Failure(TypeError)
  {
    if !j.Object? then Failure(TypeError)
    else if key !in j.fields then Failure(MissingKey(key))
    else Success(j.fields[key])
  }

  /** `get_to(std::string&)`: only a JSON string converts to a string. */
  function GetString(j: Json): (r: Result<string, JsonError>)
    ensures r.Success? <==> j.Str?
    ensures r.Success? ==> Str(r.value) == j
  {
    if j.Str? then Success(j.s) else Failure(TypeError)
  }

  /** `get_to(bool&)`: only a JSON boolean converts to a bool. */
  function GetBool(j: Json): (r: Result<bool, JsonError>)
    ensures r.Success? <==> j.Bool?
    ensures r.Success? ==> Bool(r.value) == j
  {
    if j.Bool? then Success(j.b) else Failure(TypeError)
  }

  /** `push_back` on a value that is null or an array: null becomes a one-element array. */
  function PushBack(j: Json, x: Json): (r: Json)
    requires j.Null? || j.Array?
    ensures r.Array?
    ensures j.Null? ==> r.items == [x]
    ensures j.Array? ==> |r.items| == |j.items| + 1 && r.items[..|j.items|] == j.items
    ensures r.items[|r.items| - 1] == x
  {
    if j.Null? then Array([x]) else Array(j.items + [x])
  }

  // ---------------------------------------------------------------------------
  // Enumeration tag tables.
  //
  // A table is a list of (enumerator, JSON value) pairs. Converting an
  // enumerator to JSON yields the value of the FIRST pair naming that
  // enumerator; converting JSON back yields the enumerator of the FIRST pair
  // carrying that value. What the library yields when nothing matches is the
  // library's own business: the model leaves it open as the `untabled` parameter.
  // ---------------------------------------------------------------------------

  /** The enumerator `e` is listed in `table`. */
  ghost predicate Tabled<E>(table: seq<(E, Json)>, e: E) {
    exists i :: 0 <= i < |table| && table[i].0 == e
  }

  /** Two pairs name the same enumerator exactly when they carry the same JSON value,
      so a table may repeat a pair but never gives one enumerator two tags or one tag
      two enumerators. */
  ghost predicate TagsAgree<E>(table: seq<(E, Json)>) {
    forall i, k | 0 <= i < |table| && 0 <= k < |table| ::
      table[i].0 == table[k].0 <==> table[i].1 == table[k].1
  }

  function EnumToJson<E(==)>(table: seq<(E, Json)>, e: E, untabled: Json): (j: Json)
    ensures (exists i :: 0 <= i < |table| && table[i].0 == e && j == table[i].1 &&
               forall k :: 0 <= k < i ==> table[k].0 != e)
         || ((forall k :: 0 <= k < |table| ==> table[k].0 != e) && j == untabled)
  {
    if table == [] then untabled
    else if table[0].0 == e then table[0].1
    else
      var j := EnumToJson(table[1..], e, untabled);
      assert forall k :: 1 <= k < |table| ==> table[k] == table[1..][k - 1];
      j
  }

  function EnumFromJson<E>(table: seq<(E, Json)>, j: Json, untabled: E): (e: E)
    ensures (exists i :: 0 <= i < |table| && table[i].1 == j && e == table[i].0 &&
               forall k :: 0 <= k < i ==> table[k].1 != j)
         || ((forall k :: 0 <= k < |table| ==> table[k].1 != j) && e == untabled)
  {
    if table == [] then untabled
    else if table[0].1 == j then table[0].0
    else
      var e := EnumFromJson(table[1..], j, untabled);
      assert forall k :: 1 <= k < |table| ==> table[k] == table[1..][k - 1];
      e
  }

  /** Reading back the tag written for a listed enumerator gives that enumerator,
      whatever the library does with unlisted values. */
  lemma EnumRoundTrip<E>(table: seq<(E, Json)>, e: E, untabledJson: Json, untabledEnum: E)
    requires TagsAgree(table) && Tabled(table, e)
    ensures EnumFromJson(table, EnumToJson(table, e, untabledJson), untabledEnum) == e
  {
    var j := EnumToJson(table, e, untabledJson);
    var i :| 0 <= i < |table| && table[i].0 == e && j == table[i].1;
    assert table[i].1 == j;
  }

  /** An enumerator that the table does not list is written as the library's fallback. */
  lemma EnumNotTabled<E>(table: seq<(E, Json)>, e: E, untabledJson: Json)
    requires !Tabled(table, e)
    ensures EnumToJson(table, e, untabledJson) == untabledJson
  {
  }
}
