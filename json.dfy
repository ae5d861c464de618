/** A response body after `response.json()`: a tree of Python values, and the
    few Python operations the client applies to it, each with the exception
    Python raises when the value has the wrong shape. */
module JsonTree {
  import opened Outcomes
  import opened Text

  /** A parsed JSON value. An object lists its members in insertion order, as a
      Python dict iterates them; a parsed dict has distinct keys. */
  datatype Json =
    | Null
    | Bool(b: bool)
    | Num(n: real)
    | Str(s: string)
    | Arr(items: seq<Json>)
    | Obj(members: seq<(string, Json)>)

  /** The value stored under `key` in a member list (the first one, which for
      distinct keys is the only one). */
  function Find(members: seq<(string, Json)>, key: string): (r: Option<Json>)
    ensures r.Some? <==> exists i :: 0 <= i < |members| && members[i].0 == key
    ensures r.Some? ==> exists i :: 0 <= i < |members| && members[i] == (key, r.value)
  {
    if members == [] then None
    else if members[0].0 == key then Some(members[0].1)
    else Find(members[1..], key)
  }

  /** True if `key` is among the keys of a member list. */
  predicate HasKey(members: seq<(string, Json)>, key: string)
  {
    exists i :: 0 <= i < |members| && members[i].0 == key
  }

  /** Python's `j[key]` for a string key: a dict lookup. A missing key raises
      KeyError; a list, a string, a number, a boolean or None raises TypeError. */
  function Get(j: Json, key: string): (r: Outcome<Json>)
    ensures r.Value? <==> j.Obj? && HasKey(j.members, key)
    ensures r == Raised(KeyError) <==> j.Obj? && !HasKey(j.members, key)
    ensures r.Value? ==> exists i :: 0 <= i < |j.members| && j.members[i] == (key, r.value)
    ensures !j.Obj? ==> r == Raised(TypeError)
  {
    match j
    case Obj(ms) => (match Find(ms, key) case Some(v) => Value(v) case None => Raised(KeyError))
    case _ => Raised(TypeError)
  }

  /** Python's `key in j` for a string key: key membership for a dict, element
      equality for a list, substring for a string; anything else raises TypeError. */
  function Contains(key: string, j: Json): (r: Outcome<bool>)
    ensures j.Obj? ==> r == Value(HasKey(j.members, key))
    ensures j.Arr? ==> r == Value(Str(key) in j.items)
    ensures j.Str? ==> r == Value(IsSubstring(key, j.s))
    ensures r.Raised? <==> !(j.Obj? || j.Arr? || j.Str?)
    ensures r.Raised? ==> r.error == TypeError
  {
    match j
    case Obj(ms) => Value(HasKey(ms, key))
    case Arr(items) => Value(Str(key) in items)
    case Str(s) => Value(IsSubstring(key, s))
    case _ => Raised(TypeError)
  }

  /** Python's `j.items()`: the members of a dict; any other value has no
      `items` attribute. */
  function Items(j: Json): (r: Outcome<seq<(string, Json)>>)
    ensures r.Value? <==> j.Obj?
    ensures r.Value? ==> r.value == j.members
    ensures r.Raised? ==> r.error == AttributeError
  {
    if j.Obj? then Value(j.members) else Raised(AttributeError)
  }

  /** What `for x in j` visits: the elements of a list, the keys of a dict, the
      one-character strings of a string; a number, a boolean or None raises TypeError. */
  function Iterate(j: Json): (r: Outcome<seq<Json>>)
    ensures j.Arr? ==> r == Value(j.items)
    ensures j.Obj? ==> r.Value? && |r.value| == |j.members| &&
                       forall i :: 0 <= i < |j.members| ==> r.value[i] == Str(j.members[i].0)
    ensures j.Str? ==> r.Value? && |r.value| == |j.s| &&
                       forall i :: 0 <= i < |j.s| ==> r.value[i] == Str([j.s[i]])
    ensures r.Raised? <==> !(j.Obj? || j.Arr? || j.Str?)
    ensures r.Raised? ==> r.error == TypeError
  {
    match j
    case Arr(items) => Value(items)
    case Obj(ms) => Value(seq(|ms|, i requires 0 <= i < |ms| => Str(ms[i].0)))
    case Str(s) => Value(seq(|s|, i requires 0 <= i < |s| => Str([s[i]])))
    case _ => Raised(TypeError)
  }
}
