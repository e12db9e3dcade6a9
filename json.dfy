/** JSON/YAML documents as the tools see them after yaml.safe_load or json.loads: objects keep
    their members in insertion order. Numbers are modelled as integers. */
module JsonValues {
  import opened Wrappers
  import Strings

  datatype Json = Null | Bool(b: bool) | Num(n: int) | Str(s: string) | Arr(items: seq<Json>) | Obj(members: seq<Member>)
  datatype Member = Member(key: string, value: Json)

  function Keys(ms: seq<Member>): (r: seq<string>)
    ensures |r| == |ms|
    ensures forall k :: 0 <= k < |r| ==> r[k] == ms[k].key
  {
    seq(|ms|, k requires 0 <= k < |ms| => ms[k].key)
  }

  /** `d.get(key)`: the value of the first member with that key. */
  function Get(ms: seq<Member>, key: string): (r: Option<Json>)
    ensures r.None? <==> key !in Keys(ms)
    ensures r.Some? ==> Member(key, r.value) in ms
  {
    if ms == [] then None
    else if ms[0].key == key then Some(ms[0].value)
    else
      assert Keys(ms) == [ms[0].key] + Keys(ms[1..]);
      Get(ms[1..], key)
  }

  /** `d[key] = value` for a key already present: the value is replaced in place. */
  function Set(ms: seq<Member>, key: string, value: Json): (r: seq<Member>)
    ensures |r| == |ms|
  {
    if ms == [] then []
    else if ms[0].key == key then [Member(key, value)] + ms[1..]
    else [ms[0]] + Set(ms[1..], key, value)
  }

  /** Replacing keeps every key where it was and makes the key read back the new value. */
  lemma {:induction false} SetMeaning(ms: seq<Member>, key: string, value: Json)
    requires key in Keys(ms)
    ensures Keys(Set(ms, key, value)) == Keys(ms)
    ensures Get(Set(ms, key, value), key) == Some(value)
  {
    SetKeepsKeys(ms, key, value);
    SetReadsBack(ms, key, value);
  }

  lemma {:induction false} SetKeepsKeys(ms: seq<Member>, key: string, value: Json)
    ensures forall i :: 0 <= i < |ms| ==> Set(ms, key, value)[i].key == ms[i].key
  {
    if ms != [] && ms[0].key != key {
      SetKeepsKeys(ms[1..], key, value);
    }
  }

  lemma {:induction false} SetReadsBack(ms: seq<Member>, key: string, value: Json)
    requires key in Keys(ms)
    ensures Get(Set(ms, key, value), key) == Some(value)
  {
    if ms[0].key != key {
      assert Keys(ms) == [ms[0].key] + Keys(ms[1..]);
      SetReadsBack(ms[1..], key, value);
      assert Set(ms, key, value)[1..] == Set(ms[1..], key, value);
    }
  }

  /** The Python type name the interpreter shows in TypeError and AttributeError messages. */
  function TypeName(j: Json): string
  {
    match j
    case Null => "NoneType"
    case Bool(_) => "bool"
    case Num(_) => "int"
    case Str(_) => "str"
    case Arr(_) => "list"
    case Obj(_) => "dict"
  }

  /** The AttributeError of calling `.get` on a value that is not a mapping. */
  function NoGet(j: Json): string
  {
    "'" + TypeName(j) + "' object has no attribute 'get'"
  }

  /** The AttributeError of calling `.items()` on a value that is not a mapping. */
  function NoItems(j: Json): string
  {
    "'" + TypeName(j) + "' object has no attribute 'items'"
  }

  /** The TypeError of subscripting a value that is not a container. */
  function NotSubscriptable(j: Json): string
  {
    "'" + TypeName(j) + "' object is not subscriptable"
  }

  /** The TypeError of using a list or a mapping as a dictionary key. */
  function Unhashable(j: Json): string
  {
    "unhashable type: '" + TypeName(j) + "'"
  }

  /** `value[key]` with a string key: a KeyError shows the quoted key, other containers refuse. */
  function Subscript(j: Json, key: string): (r: Result<Json>)
    ensures r.Ok? <==> j.Obj? && key in Keys(j.members)
    ensures r.Ok? ==> Get(j.members, key) == Some(r.value)
  {
    match j
    case Obj(ms) => (match Get(ms, key) case Some(v) => Ok(v) case None => Raise("'" + key + "'"))
    case Str(_) => Raise("string indices must be integers")
    case Arr(_) => Raise("list indices must be integers or slices, not str")
    case _ => Raise(NotSubscriptable(j))
  }

  /** The values Python's `in` can search: strings, lists and mappings. */
  predicate Iterable(j: Json) { j.Str? || j.Arr? || j.Obj? }

  /** The TypeError of `key in value` for a value that is not a container. */
  function NotIterable(j: Json): string
  {
    "argument of type '" + TypeName(j) + "' is not iterable"
  }

  /** `key in value` with a string key: a substring test on a string, an element test on a list
      and a key test on a mapping; any other value raises TypeError. */
  function Includes(j: Json, key: string): (r: Result<bool>)
    ensures r.Ok? <==> Iterable(j)
  {
    match j
    case Str(s) => Ok(Strings.Contains(s, key))
    case Arr(items) => Ok(Str(key) in items)
    case Obj(ms) => Ok(key in Keys(ms))
    case _ => Raise(NotIterable(j))
  }

  /** `value.get(key, default)`: only a mapping has `get`. */
  function GetOr(j: Json, key: string, default: Json): (r: Result<Json>)
    ensures r.Ok? <==> j.Obj?
    ensures j.Obj? && key !in Keys(j.members) ==> r == Ok(default)
  {
    match j
    case Obj(ms) => (match Get(ms, key) case Some(v) => Ok(v) case None => Ok(default))
    case _ => Raise(NoGet(j))
  }

  /** Python truthiness. */
  predicate Truthy(j: Json)
  {
    match j
    case Null => false
    case Bool(b) => b
    case Num(n) => n != 0
    case Str(s) => s != ""
    case Arr(items) => items != []
    case Obj(ms) => ms != []
  }
}
