/**
 The slice of PHP's value semantics that the reindex operation relies on:
 the values that can sit in an options array, a settings array or a search
 hit; `isset` on an array key; reading an array key; and the loose
 comparison `null == $v`.
 */
module PhpValues {

  /** A PHP array key: arrays are keyed by integers or by strings. */
  datatype Key = IntKey(i: int) | StrKey(s: string)

  /** A PHP value (floats and objects are not modelled). */
  datatype Value =
    | Null
    | Bool(b: bool)
    | Int(i: int)
    | Str(s: string)
    | Arr(entries: seq<Entry>)

  /** One `key => value` pair of an ordered PHP array. */
  datatype Entry = Entry(key: Key, value: Value)

  /** An associative array looked up by string keys (an options array, a search hit). */
  type Dict = map<string, Value>

  /** `isset($a[$key])`: the key is present and does not hold null. */
  function Isset(a: Dict, key: string): (b: bool)
    ensures key !in a ==> !b
    ensures key in a ==> (b <==> !a[key].Null?)
  {
    key in a && a[key] != Null
  }

  /** `$a[$key]`: an absent key reads as null (PHP raises only a notice). */
  function Read(a: Dict, key: string): (v: Value)
    ensures Isset(a, key) <==> v != Null
    ensures key in a ==> v == a[key]
  {
    if key in a then a[key] else Null
  }

  /** PHP's conversion of a value to bool. */
  predicate Truthy(v: Value)
  {
    match v
    case Null => false
    case Bool(b) => b
    case Int(i) => i != 0
    case Str(s) => s != "" && s != "0"
    case Arr(entries) => entries != []
  }

  /**
   The loose comparison `null == v`. Against a string, null is compared as
   the empty string; against any other value both sides are converted to
   bool. So null, false, 0, "" and the empty array all equal null, while
   "0" does not.
   */
  function LooselyNull(v: Value): (b: bool)
    ensures b <==> v == Null || v == Bool(false) || v == Int(0) || v == Str("") || v == Arr([])
  {
    match v
    case Str(s) => s == ""
    case _ => !Truthy(v)
  }
}
