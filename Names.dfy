/**
 * Subject and property names. A C string argument may be a null pointer; a
 * name is either the distinguished "none" name or the interned text of a
 * non-empty string.
 */
module Names {
  import opened Wrappers

  /** A C string argument: None stands for a null pointer. */
  type CString = Option<string>

  /** An interned name; NoName is the distinguished "none" name. */
  datatype Name = NoName | Interned(text: string)

  /** Interning a string: the empty string yields the "none" name. */
  function ToName(s: string): (n: Name)
    ensures n == NoName <==> s == ""
    ensures n.Interned? ==> n.text == s
  {
    if s == "" then NoName else Interned(s)
  }

  /** Interning is injective: two strings give the same name exactly when they are equal,
      and only the empty string gives the "none" name. */
  lemma ToNameInjective(a: string, b: string)
    ensures ToName(a) == ToName(b) <==> a == b
    ensures ToName(a) == NoName <==> a == ""
  {
  }

  /** The name of a possibly-null C string: a null pointer gives the "none" name. */
  function NameOf(c: CString): (n: Name)
    ensures n == NoName <==> c.None? || c.value == ""
    ensures n.Interned? ==> c.Some? && n.text == c.value
  {
    if c.None? then NoName else ToName(c.value)
  }

  /** The names of a list of possibly-null C strings, entry by entry. */
  function NamesOf(entries: seq<CString>): (names: seq<Name>)
    ensures |names| == |entries|
    ensures forall i :: 0 <= i < |entries| ==> names[i] == NameOf(entries[i])
  {
    seq(|entries|, i requires 0 <= i < |entries| => NameOf(entries[i]))
  }

  /** The first `count` entries of a C array that may be null. The caller's array holds at
      least `count` entries whenever it is non-null and `count` is positive. */
  predicate Holds<T>(arr: Option<seq<T>>, count: int)
  {
    arr.Some? && count > 0 ==> count <= |arr.value|
  }

  function Prefix<T>(arr: Option<seq<T>>, count: int): (r: seq<T>)
    requires Holds(arr, count)
    requires count > 0 ==> arr.Some?
    ensures |r| == if count > 0 then count else 0
    ensures forall i :: 0 <= i < |r| ==> r[i] == arr.value[i]
  {
    if count <= 0 then [] else arr.value[..count]
  }
}
