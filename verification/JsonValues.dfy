/** JSON values and the Python coercions the scene code applies to them. */
module JsonValues {
  import opened Basics

  datatype Json =
    | JNull
    | JBool(b: bool)
    | JInt(i: int)
    | JReal(r: real)
    | JStr(s: string)
    | JArr(a: seq<Json>)
    | JObj(m: map<string, Json>)

  type Object = map<string, Json>

  /** `m.get(k)`. */
  function Get(m: Object, k: string): Json {
    if k in m then m[k] else JNull
  }

  /** `m.get(k, default)`: the default stands in for a missing key, not for an explicit null. */
  function GetOr(m: Object, k: string, default: Json): Json {
    if k in m then m[k] else default
  }

  /** `bool(j)`. */
  predicate Truthy(j: Json) {
    match j
    case JNull => false
    case JBool(b) => b
    case JInt(i) => i != 0
    case JReal(r) => r != 0.0
    case JStr(s) => s != ""
    case JArr(a) => a != []
    case JObj(m) => m != map[]
  }

  predicate IsSpace(c: char) {
    c == ' ' || c == '\t' || c == '\n' || c == '\r'
  }

  function Strip(s: string): string {
    if s == "" then s
    else if IsSpace(s[0]) then Strip(s[1..])
    else if IsSpace(s[|s| - 1]) then Strip(s[..|s| - 1])
    else s
  }

  predicate IsDigit(c: char) {
    '0' <= c <= '9'
  }

  function Digits(s: string): Option<nat>
    decreases |s|
  {
    if s == "" || !IsDigit(s[|s| - 1]) then None
    else
      var d := (s[|s| - 1] - '0') as nat;
      if |s| == 1 then Some(d)
      else
        var front := Digits(s[..|s| - 1]);
        if front.None? then None else Some(10 * front.value + d)
  }

  function ParseInt(text: string): Result<int> {
    var s := Strip(text);
    var signed := s != "" && (s[0] == '-' || s[0] == '+');
    var d := Digits(if signed then s[1..] else s);
    if d.None? then Err(ValueError)
    else
      var v: int := d.value;
      Ok(if signed && s[0] == '-' then -v else v)
  }

  /** `int(j)`: numbers truncate toward zero, text must spell an integer, anything else is a TypeError. */
  function ToInt(j: Json): Result<int> {
    match j
    case JBool(b) => Ok(if b then 1 else 0)
    case JInt(i) => Ok(i)
    case JReal(r) => Ok(if r >= 0.0 then r.Floor else -((-r).Floor))
    case JStr(s) => ParseInt(s)
    case JNull | JArr(_) | JObj(_) => Err(OtherError)
  }

  function UpperChar(c: char): char {
    if 'a' <= c <= 'z' then ((c - 'a') as int + 'A' as int) as char else c
  }

  function Upper(s: string): string {
    if s == "" then "" else [UpperChar(s[0])] + Upper(s[1..])
  }

  predicate IsUpperHex(c: char) {
    IsDigit(c) || 'A' <= c <= 'F'
  }

  predicate IsMac12(s: string) {
    |s| == 12 && forall i :: 0 <= i < |s| ==> IsUpperHex(s[i])
  }

  lemma {:induction false} UpperOfHex(s: string)
    requires forall i :: 0 <= i < |s| ==> IsUpperHex(s[i])
    ensures Upper(s) == s
  {
    if s != "" {
      UpperOfHex(s[1..]);
    }
  }

  lemma MacIsFixed(s: string)
    requires IsMac12(s)
    ensures Upper(Strip(s)) == s
  {
    assert IsUpperHex(s[0]) && IsUpperHex(s[11]);
    UpperOfHex(s);
  }
}
