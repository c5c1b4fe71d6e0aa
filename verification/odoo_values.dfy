/** The values an Odoo XML-RPC reply is made of, as the service receives them,
    and what `toString()` writes for each. */
module OdooValues {
  import opened Outcomes
  import opened JavaNumbers

  /** One value of a reply: `null`, a `String`, an `Integer`, a `Boolean`
      (Odoo sends `false` for an empty field and for an unset many2one) or an
      `Object[]` array (a many2one `[id, name]` pair, a list of ids). */
  datatype Value = Null | Str(s: string) | Int(i: Int32) | Bool(b: bool) | Arr(items: seq<Value>)

  /** One record of a reply: a `Map<String, Object>` from field name to value. */
  type Record = map<string, Value>

  /** What `Object[].toString()` starts with; the identity hash that follows it
      is not part of this model. */
  const ARRAY_TO_STRING: string := "[Ljava.lang.Object;@"

  /** `map.get(key)`: a key the record does not hold reads as `null`. */
  function Get(rec: Record, key: string): (v: Value)
    ensures key !in rec ==> v == Null
    ensures key in rec ==> v == rec[key]
  {
    if key in rec then rec[key] else Null
  }

  /** A Java `String` reference as a value (`null` stays `null`). */
  function StrValue(s: Option<string>): (v: Value)
    ensures v.Null? <==> s.None?
    ensures s.Some? ==> v == Str(s.value)
  {
    match s
    case None => Null
    case Some(t) => Str(t)
  }

  /** A Java `Boolean` reference as a value. */
  function BoolValue(b: Option<bool>): (v: Value)
    ensures v.Null? <==> b.None?
    ensures b.Some? ==> v == Bool(b.value)
  {
    match b
    case None => Null
    case Some(c) => Bool(c)
  }

  /** `value.toString()`: the text of a value, or a `NullPointerException` on
      `null`. */
  function Render(v: Value): (r: Result<string>)
    ensures r.Err? <==> v.Null?
    ensures r.Err? ==> r.error == NullPointer
    ensures v.Str? ==> r == Ok(v.s)
  {
    match v
    case Null => Err(NullPointer)
    case Str(s) => Ok(s)
    case Int(i) => Ok(DecimalString(i))
    case Bool(b) => Ok(if b then "true" else "false")
    case Arr(_) => Ok(ARRAY_TO_STRING)
  }

  /** Only the boolean `true` and the string "true" render as "true": no number
      does, and neither does an array. */
  lemma {:induction false} RendersTrue(v: Value)
    ensures Render(v) == Ok("true") <==> v == Bool(true) || v == Str("true")
  {
    match v
    case Int(i) =>
      var s := DecimalString(i);
      assert s[0] == '-' || IsDigit(s[0]);
      assert s[0] != "true"[0];
    case Arr(_) =>
      assert ARRAY_TO_STRING[0] == '[';
    case _ =>
  }

  /** `Long.parseLong(value.toString())` gives back an Integer value itself. */
  lemma {:induction false} ParseRenderedInt(i: Int32)
    ensures Render(Int(i)) == Ok(DecimalString(i))
    ensures ParseLong(DecimalString(i)) == Ok(i)
  {
    ParseLongOfDecimalString(i);
  }

  /** `Long.parseLong(value.toString())`: the long a value denotes. */
  function ParseLongValue(v: Value): (r: Result<Long>)
    ensures v.Null? ==> r == Err(NullPointer)
    ensures v.Int? ==> r == Ok(v.i)
    ensures v.Bool? || v.Arr? ==> r == Err(NumberFormat)
    ensures v.Str? ==> r == ParseLong(v.s)
  {
    if v.Int? then
      ParseRenderedInt(v.i);
      ParseLong(DecimalString(v.i))
    else
      var text :- Render(v);
      ParseLong(text)
  }
}
