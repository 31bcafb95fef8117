/**
 * PHP values as json_decode($s, true) produces them and as site options
 * hold them, with the built-ins the upgrader applies to them: isset and
 * empty on array elements, the string conversion strtolower and explode
 * perform, the (int) cast, in_array with strict comparison and implode.
 *
 * Floating-point numbers are not part of this model.
 */
module PhpValues {
  import opened Wrappers
  import opened PhpStrings

  /** An array key: PHP keeps integer and string keys apart. */
  datatype Key = IntKey(i: int) | StrKey(s: string)

  /** A PHP value; an array is its `key => value` pairs in order. */
  datatype Value =
    | Null
    | Bool(b: bool)
    | Int(i: int)
    | Str(s: string)
    | Arr(entries: seq<(Key, Value)>)

  /** empty($v) */
  predicate Empty(v: Value) {
    match v
    case Null => true
    case Bool(b) => !b
    case Int(i) => i == 0
    case Str(s) => s == "" || s == "0"
    case Arr(es) => es == []
  }

  /** isset($v) && !empty($v): since null is empty, this is !empty($v). */
  predicate Present(v: Value) {
    !Empty(v)
  }

  /** The value under string key `k` of a list of pairs; `Null` when there is none. */
  function Lookup(es: seq<(Key, Value)>, k: string): (r: Value)
    ensures r != Null ==> (StrKey(k), r) in es
    ensures (forall i :: 0 <= i < |es| ==> es[i].0 != StrKey(k)) ==> r == Null
    decreases |es|
  {
    if es == [] then Null
    else if es[0].0 == StrKey(k) then es[0].1
    else Lookup(es[1..], k)
  }

  /**
   * $v['k'] under an isset guard: the element of an array, and `Null` for a
   * missing key or for a value that is not an array (isset is false on it).
   */
  function Get(v: Value, k: string): (r: Value)
    ensures !v.Arr? ==> r == Null
  {
    if v.Arr? then Lookup(v.entries, k) else Null
  }

  /** $a['k'] = $x on an array: replaces the value in place when the key exists, appends otherwise. */
  function Set(es: seq<(Key, Value)>, k: string, x: Value): (r: seq<(Key, Value)>)
    ensures Lookup(r, k) == x
    ensures forall k' :: k' != k ==> Lookup(r, k') == Lookup(es, k')
    decreases |es|
  {
    if es == [] then [(StrKey(k), x)]
    else if es[0].0 == StrKey(k) then [(StrKey(k), x)] + es[1..]
    else [es[0]] + Set(es[1..], k, x)
  }

  /** Writing back the value a key already holds leaves the array as it is. */
  lemma {:induction false} SetSameValue(es: seq<(Key, Value)>, k: string)
    requires Lookup(es, k) != Null
    ensures Set(es, k, Lookup(es, k)) == es
    decreases |es|
  {
    if es[0].0 != StrKey(k) {
      SetSameValue(es[1..], k);
    }
  }

  /** The message of the TypeError PHP 8 throws when an array is passed where a string is expected. */
  const ArrayGivenError: string := "TypeError: array given where string expected"

  /**
   * The string a string parameter receives (strtolower, explode): scalars are
   * converted, an array is a TypeError.
   */
  function ToStr(v: Value): (r: Result<string, string>)
    ensures r.Failure? <==> v.Arr?
    ensures v.Str? ==> r == Success(v.s)
  {
    match v
    case Null => Success("")
    case Bool(b) => Success(if b then "1" else "")
    case Int(i) => Success(IntToString(i))
    case Str(s) => Success(s)
    case Arr(_) => Failure(ArrayGivenError)
  }

  /** The string implode makes of an element: like ToStr, but an array becomes "Array" (with a warning). */
  function ElemString(v: Value): (r: string)
    ensures !v.Arr? ==> Success(r) == ToStr(v)
  {
    if v.Arr? then "Array" else ToStr(v).value
  }

  /** The strings implode joins: the array's values in order. */
  function ElemStrings(es: seq<(Key, Value)>): (r: seq<string>)
    ensures |r| == |es|
    ensures forall i :: 0 <= i < |es| ==> r[i] == ElemString(es[i].1)
  {
    if es == [] then [] else [ElemString(es[0].1)] + ElemStrings(es[1..])
  }

  /** (int) $v */
  function IntCast(v: Value): int {
    match v
    case Null => 0
    case Bool(b) => if b then 1 else 0
    case Int(i) => i
    case Str(s) => StringToInt(s)
    case Arr(es) => if es == [] then 0 else 1
  }

  /** The (int) cast reads an integer back from its string form and from itself. */
  lemma IntCastReadsBack(i: int)
    ensures IntCast(Str(IntToString(i))) == i
    ensures IntCast(Int(i)) == i
  {
    IntToStringRoundTrip(i);
  }
}
