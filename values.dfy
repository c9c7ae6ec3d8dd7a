/** Plain values shared by every part of the model: JavaScript's
    `undefined`/`null` as Option, the scalar values stored in style and
    option objects, and the few string helpers the source relies on. */
module Values {

  datatype Option<T> = None | Some(value: T)

  /** A scalar stored in a style or options object. */
  datatype Value = Str(s: string) | Num(n: int) | Bool(b: bool)

  /** A style or options object: property name to value. */
  type Style = map<string, Value>

  /** JavaScript truthiness of a stored scalar. */
  predicate Truthy(v: Value)
  {
    match v
    case Str(s) => s != ""
    case Num(n) => n != 0
    case Bool(b) => b
  }

  /** `String.prototype.toLowerCase` restricted to ASCII letters. */
  function LowerChar(c: char): (r: char)
    ensures 'A' <= c <= 'Z' ==> r as int == c as int + 32
    ensures !('A' <= c <= 'Z') ==> r == c
  {
    if 'A' <= c <= 'Z' then (c as int + 32) as char else c
  }

  function ToLower(s: string): (r: string)
    ensures |r| == |s|
    ensures forall i :: 0 <= i < |s| ==> r[i] == LowerChar(s[i])
  {
    if s == [] then [] else [LowerChar(s[0])] + ToLower(s[1..])
  }

  /** Lower-casing is idempotent: a lower-cased name is its own lower case. */
  lemma ToLowerIdempotent(s: string)
    ensures ToLower(ToLower(s)) == ToLower(s)
  {
    var t := ToLower(s);
    assert forall i :: 0 <= i < |t| ==> ToLower(t)[i] == t[i];
  }

  /** No two positions of a sequence hold the same element. */
  predicate Distinct<T(==)>(s: seq<T>)
  {
    forall i, j :: 0 <= i < j < |s| ==> s[i] != s[j]
  }
}
