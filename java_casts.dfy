/** Java's casts and unboxing applied to the maps, lists and boxed scalars a
    JSON decoder returns. A cast to a wrong type raises `ClassCastException`;
    using a `null` raises `NullPointerException`. A JSON integer outside the
    32-bit range decodes to a `Long`, so casting it to `Integer` fails. */
module JavaCasts {
  import opened Common
  import opened Exceptions

  const MinInt: int := -0x8000_0000
  const MaxInt: int := 0x7fff_ffff

  predicate InIntRange(n: int) { MinInt <= n <= MaxInt }

  /** A mathematical integer as a Java `int` holds it: arithmetic on `int`
      keeps the result modulo 2^32, in the range of `int`. */
  function WrapInt(n: int): (r: int)
    ensures InIntRange(r) && (r - n) % 0x1_0000_0000 == 0
    ensures InIntRange(n) ==> r == n
  {
    (n - MinInt) % 0x1_0000_0000 + MinInt
  }

  /** A JSON value that fits a Java `int`. */
  predicate IsIntValue(v: Json) { v.JInt? && InIntRange(v.n) }

  /** A JSON value a cast to `String` accepts. */
  predicate IsStringOrNull(v: Json) { v.JNull? || v.JStr? }

  /** `(String) v`, which lets `null` through. */
  function CastString(v: Json): (r: Result<Option<string>, Exception>)
    ensures r.Ok? <==> IsStringOrNull(v)
    ensures r.Ok? ==> (r.value.None? <==> v.JNull?) && (v.JStr? ==> r.value == Some(v.s))
    ensures r.Err? ==> r.error.Unexpected?
  {
    match v
    case JNull => Ok(None)
    case JStr(s) => Ok(Some(s))
    case _ => Err(Unexpected(ClassCast))
  }

  /** `(Integer) v`, which lets `null` through. */
  function CastInteger(v: Json): (r: Result<Option<int>, Exception>)
    ensures r.Ok? <==> v.JNull? || IsIntValue(v)
    ensures r.Ok? ==> (r.value.None? <==> v.JNull?) && (v.JInt? ==> r.value == Some(v.n))
    ensures r.Err? ==> r.error.Unexpected?
  {
    match v
    case JNull => Ok(None)
    case JInt(n) => if InIntRange(n) then Ok(Some(n)) else Err(Unexpected(ClassCast))
    case _ => Err(Unexpected(ClassCast))
  }

  /** `(Integer) v` stored into an `int`: the unboxing rejects `null`. */
  function UnboxInt(v: Json): (r: Result<int, Exception>)
    ensures r.Ok? <==> IsIntValue(v)
    ensures r.Ok? ==> r.value == v.n
    ensures r.Err? ==> r.error.Unexpected?
  {
    var boxed :- CastInteger(v);
    if boxed.None? then Err(Unexpected(NullPointer)) else Ok(boxed.value)
  }

  /** `(String) v` followed by a call on the string, which rejects `null`. */
  function DerefString(v: Json): (r: Result<string, Exception>)
    ensures r.Ok? <==> v.JStr?
    ensures r.Ok? ==> r.value == v.s
    ensures r.Err? ==> r.error.Unexpected?
  {
    var s :- CastString(v);
    if s.None? then Err(Unexpected(NullPointer)) else Ok(s.value)
  }

  /** `(Map) v` followed by `get`, which rejects `null`. */
  function DerefMap(v: Json): (r: Result<map<string, Json>, Exception>)
    ensures r.Ok? <==> v.JObj?
    ensures r.Ok? ==> r.value == v.fields
    ensures r.Err? ==> r.error.Unexpected?
  {
    match v
    case JNull => Err(Unexpected(NullPointer))
    case JObj(fields) => Ok(fields)
    case _ => Err(Unexpected(ClassCast))
  }

  /** `(List) v` followed by `stream()` or iteration, which rejects `null`. */
  function DerefList(v: Json): (r: Result<seq<Json>, Exception>)
    ensures r.Ok? <==> v.JList?
    ensures r.Ok? ==> r.value == v.items
    ensures r.Err? ==> r.error.Unexpected?
  {
    match v
    case JNull => Err(Unexpected(NullPointer))
    case JList(items) => Ok(items)
    case _ => Err(Unexpected(ClassCast))
  }

  /** `list.stream().map(f).toList()`: `f` is applied to the elements in order
      and the first exception it raises ends the whole pipeline. */
  function MapToList<T>(items: seq<Json>, f: Json -> Result<T, Exception>): (r: Result<seq<T>, Exception>)
    ensures r.Ok? <==> forall i :: 0 <= i < |items| ==> f(items[i]).Ok?
    ensures r.Ok? ==> |r.value| == |items| && forall i :: 0 <= i < |items| ==> f(items[i]) == Ok(r.value[i])
    ensures r.Err? ==> exists i :: 0 <= i < |items| && f(items[i]) == Err(r.error)
                                   && forall j :: 0 <= j < i ==> f(items[j]).Ok?
  {
    if items == [] then Ok([])
    else
      var first :- f(items[0]);
      var rest :- MapToList(items[1..], f);
      Ok([first] + rest)
  }
}
