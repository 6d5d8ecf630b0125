/**
 * Values as Python's `json` module decodes them, with the few Python
 * operations the pipeline applies to them: truthiness, `dict.get`, the `in`
 * operator, subscription and `str()`.
 *
 * An object keeps its members in insertion order, as a Python dict iterates.
 * A Python dict has distinct keys; where a sequence of members repeats a key,
 * lookups read the first binding.
 */
module PyJson {
  import opened PyText

  datatype Json =
    | Null
    | Bool(b: bool)
    | Num(n: int)
    | Str(s: string)
    | Array(items: seq<Json>)
    | Object(fields: seq<(string, Json)>)

  /** The result of evaluating a Python expression: a value, or an exception raised. */
  datatype Eval<+T> = Value(value: T) | Raised

  /** Python truthiness: None, False, 0, "", [] and {} are false, everything else is true. */
  predicate Truthy(j: Json)
  {
    match j
    case Null => false
    case Bool(b) => b
    case Num(n) => n != 0
    case Str(s) => s != ""
    case Array(items) => items != []
    case Object(fields) => fields != []
  }

  predicate HasKey(fields: seq<(string, Json)>, key: string)
  {
    exists i :: 0 <= i < |fields| && fields[i].0 == key
  }

  /** `d.get(key)` on a dict: the value bound to key, or None when key is absent. */
  function Get(fields: seq<(string, Json)>, key: string): (v: Json)
    ensures !HasKey(fields, key) ==> v == Null
    ensures HasKey(fields, key) ==> exists i :: 0 <= i < |fields| && fields[i] == (key, v)
  {
    if fields == [] then Null
    else if fields[0].0 == key then fields[0].1
    else
      var v := Get(fields[1..], key);
      assert HasKey(fields[1..], key) ==> exists i :: 0 < i < |fields| && fields[i] == (key, v);
      v
  }

  /** `needle in s` for strings: s has needle as a contiguous part. */
  predicate IsSubstring(needle: string, s: string)
  {
    needle <= s || (s != [] && IsSubstring(needle, s[1..]))
  }

  /**
   * `key in container`: membership of a key in a dict, of an element in a
   * list, of a substring in a string; on a number, a bool or None Python
   * raises a TypeError.
   */
  function Contains(container: Json, key: string): (r: Eval<bool>)
    ensures r.Raised? <==> container.Null? || container.Bool? || container.Num?
    ensures container.Object? ==> r == Value(HasKey(container.fields, key))
  {
    match container
    case Object(fields) => Value(HasKey(fields, key))
    case Array(items) => Value(Str(key) in items)
    case Str(s) => Value(IsSubstring(key, s))
    case _ => Raised
  }

  /**
   * `container[key]` with a string key: the bound value of a dict; a missing
   * key (KeyError) or any other kind of container (TypeError) raises.
   */
  function Subscript(container: Json, key: string): (r: Eval<Json>)
    ensures r.Value? <==> container.Object? && HasKey(container.fields, key)
    ensures r.Value? ==> r.value == Get(container.fields, key)
  {
    match container
    case Object(fields) => if HasKey(fields, key) then Value(Get(fields, key)) else Raised
    case _ => Raised
  }

  /** `repr(j)`: how a value prints inside a list or dict. */
  function Repr(j: Json): string
  {
    match j
    case Str(s) => StrRepr(s)
    case Null => "None"
    case Bool(b) => if b then "True" else "False"
    case Num(n) => IntToDecimal(n)
    case Array(items) =>
      "[" + Join(", ", seq(|items|, i requires 0 <= i < |items| => Repr(items[i]))) + "]"
    case Object(fields) =>
      "{" + Join(", ", seq(|fields|, i requires 0 <= i < |fields| =>
                          StrRepr(fields[i].0) + ": " + Repr(fields[i].1))) + "}"
  }

  /** `str(j)`, which is what an f-string substitutes: a string as itself, anything else as its repr. */
  function ToStr(j: Json): (r: string)
    ensures j.Str? ==> r == j.s
    ensures j.Null? ==> r == "None"
    ensures !j.Str? ==> r == Repr(j)
  {
    match j
    case Str(s) => s
    case _ => Repr(j)
  }
}
