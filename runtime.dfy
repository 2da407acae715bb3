/** The slice of Python's runtime that the homework bot leans on: the values
    that `json` hands over, the exceptions the bot raises or meets, `str()` of
    both, `dict.get`, and the `in` operator with a string on its left. */
module PyRuntime {

  /** The conventional optional value; an environment variable that is not
      set reads as `None`. */
  datatype Option<+T> = None | Some(value: T)

  /** A decoded JSON document. Object keys are always strings; numbers are
      integers only (floating point is not part of this model). */
  datatype Json =
    | Null
    | Bool(b: bool)
    | Int(i: int)
    | Str(s: string)
    | List(items: seq<Json>)
    | Map(fields: map<string, Json>)

  /** An exception, by its Python class, carrying the argument it was raised
      with. `OtherErr` is a plain `Exception`. */
  datatype PyError =
    | TypeErr(msg: string)
    | KeyErr(msg: string)
    | IndexErr(msg: string)
    | AttrErr(msg: string)
    | OtherErr(msg: string)

  /** A computation that either returns a value or raises. */
  datatype Result<+T> = Ok(value: T) | Err(error: PyError)

  /** `str(error)`. A KeyError prints the repr of its argument, which for the
      messages raised in this model (no quotes, no backslashes) is the
      argument between single quotes; every other class prints it bare. */
  function ErrorText(e: PyError): (text: string)
    ensures e.KeyErr? ==>
      |text| == |e.msg| + 2 && text[0] == '\'' && text[1..|text| - 1] == e.msg && text[|text| - 1] == '\''
    ensures !e.KeyErr? ==> text == e.msg
  {
    match e
    case KeyErr(m) => "'" + m + "'"
    case TypeErr(m) => m
    case IndexErr(m) => m
    case AttrErr(m) => m
    case OtherErr(m) => m
  }

  /** `type(v).__name__` for the value Python builds from `v`. */
  function TypeName(v: Json): string
  {
    match v
    case Null => "NoneType"
    case Bool(_) => "bool"
    case Int(_) => "int"
    case Str(_) => "str"
    case List(_) => "list"
    case Map(_) => "dict"
  }

  /** `d.get(key)`: the value stored under `key`, or `None` when there is none. */
  function Get(fields: map<string, Json>, key: string): (v: Json)
    ensures key in fields ==> v == fields[key]
    ensures key !in fields ==> v == Null
  {
    if key in fields then fields[key] else Null
  }

  /** The text of the AttributeError raised by `v.get` on anything but a dict:
      it names the type of `v` between quotes. */
  function NoGetMessage(v: Json): (text: string)
    ensures |text| > 0 && text[0] == '\''
    ensures OccursAt(text, TypeName(v), 1)
  {
    "'" + TypeName(v) + "' object has no attribute 'get'"
  }

  // ---------------------------------------------------------------------------
  // Decimal text of integers, as `str(n)` and f-strings print them

  predicate IsDigit(c: char)
  {
    '0' <= c <= '9'
  }

  function DigitChar(d: nat): (c: char)
    requires d < 10
    ensures IsDigit(c) && c as int - '0' as int == d
  {
    "0123456789"[d]
  }

  /** Decimal digits of `n`, most significant first, without leading zeros. */
  function NatToString(n: nat): (s: string)
    ensures |s| > 0
    ensures forall k :: 0 <= k < |s| ==> IsDigit(s[k])
    ensures s[0] == '0' <==> n == 0
    ensures n == 0 ==> s == "0"
    decreases n
  {
    if n < 10 then [DigitChar(n)] else NatToString(n / 10) + [DigitChar(n % 10)]
  }

  /** `str(i)` for a Python int. */
  function IntToString(i: int): (s: string)
    ensures |s| > 0
    ensures s[0] == '-' <==> i < 0
    ensures forall k :: (if i < 0 then 1 else 0) <= k < |s| ==> IsDigit(s[k])
  {
    if i < 0 then "-" + NatToString(-i) else NatToString(i)
  }

  /** The value of a string of decimal digits, the inverse of NatToString. */
  function DigitsValue(s: string): nat
    requires forall k :: 0 <= k < |s| ==> IsDigit(s[k])
  {
    if s == [] then 0
    else
      var last := s[|s| - 1];
      assert IsDigit(last);
      DigitsValue(s[..|s| - 1]) * 10 + (last as int - '0' as int)
  }

  /** `int(s)` for the strings IntToString produces. */
  function ParseInt(s: string): int
    requires |s| > 0
    requires forall k :: (if s[0] == '-' then 1 else 0) <= k < |s| ==> IsDigit(s[k])
  {
    if s[0] == '-' then -(DigitsValue(s[1..]) as int) else DigitsValue(s)
  }

  lemma {:induction false} DigitsValueOfNatToString(n: nat)
    ensures DigitsValue(NatToString(n)) == n
    decreases n
  {
    var s := NatToString(n);
    if n >= 10 {
      DigitsValueOfNatToString(n / 10);
      assert s[..|s| - 1] == NatToString(n / 10);
    }
  }

  /** Reading back what `str` printed gives the integer again, so two distinct
      integers never print the same. */
  lemma {:induction false} ParseIntToString(i: int)
    ensures ParseInt(IntToString(i)) == i
  {
    if i < 0 {
      assert IntToString(i)[1..] == NatToString(-i);
      DigitsValueOfNatToString(-i);
    } else {
      DigitsValueOfNatToString(i);
    }
  }

  /** `str(v)` of the value Python builds from `v`, as f-strings embed it.
      Lists and dicts are rendered by fixed placeholders (their repr is not
      part of this model). */
  function Show(v: Json): (text: string)
    ensures v.Str? ==> text == v.s
  {
    match v
    case Null => "None"
    case Bool(b) => if b then "True" else "False"
    case Int(i) => IntToString(i)
    case Str(s) => s
    case List(_) => "<list>"
    case Map(_) => "<dict>"
  }

  // ---------------------------------------------------------------------------
  // `needle in container` for a string needle

  /** `needle` occurs in `s` starting at index `at`. */
  predicate OccursAt(s: string, needle: string, at: nat)
  {
    at + |needle| <= |s| && s[at..at + |needle|] == needle
  }

  /** Python's substring test `needle in s`. */
  function HasSubstring(s: string, needle: string): (r: bool)
    ensures r <==> exists at: nat :: OccursAt(s, needle, at)
    decreases |s|
  {
    if |needle| > |s| then false
    else if s[..|needle|] == needle then (assert OccursAt(s, needle, 0); true)
    else
      var r := HasSubstring(s[1..], needle);
      if r then
        var at: nat :| OccursAt(s[1..], needle, at);
        assert OccursAt(s, needle, at + 1);
        r
      else
        assert forall at: nat :: OccursAt(s, needle, at) ==> at > 0 && OccursAt(s[1..], needle, at - 1);
        r
  }

  /** `needle in container`: key membership for a dict, element membership
      for a list, substring test for a str, and a TypeError for the scalar
      values, which are not containers. */
  function Contains(container: Json, needle: string): (r: Result<bool>)
    ensures container.Map? ==> r == Ok(needle in container.fields)
    ensures container.List? ==> r == Ok(Str(needle) in container.items)
    ensures container.Str? ==> r == Ok(exists at: nat :: OccursAt(container.s, needle, at))
    ensures r.Err? <==> container.Null? || container.Bool? || container.Int?
    ensures r.Err? ==> r.error.TypeErr?
  {
    match container
    case Map(fields) => Ok(needle in fields)
    case List(items) => Ok(Str(needle) in items)
    case Str(s) => Ok(HasSubstring(s, needle))
    case _ => Err(TypeErr("argument of type '" + TypeName(container) + "' is not iterable"))
  }
}
