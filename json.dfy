/** A value produced by Python's `json.loads`, and the Python operations the
    core applies to such values: truthiness, `dict.get`, `in`, `[]` and
    iteration. */
module Json {
  import opened Wrappers
  import Text

  /** A decoded JSON value. An object keeps its members in source order and
      may repeat a key; Python's `dict` built from it keeps, for each key, the
      position of its first occurrence and the value of its last. Numbers are
      rationals: integer versus float makes no difference to anything the
      core does with them. */
  datatype Json =
    | JNull
    | JBool(b: bool)
    | JNum(n: real)
    | JStr(s: string)
    | JArr(items: seq<Json>)
    | JObj(members: seq<(string, Json)>)

  /** Python's `bool(v)`. */
  predicate Truthy(v: Json) {
    match v
    case JNull => false
    case JBool(b) => b
    case JNum(n) => n != 0.0
    case JStr(s) => s != ""
    case JArr(items) => items != []
    case JObj(members) => members != []
  }

  /** `d[key]` of the dict built from `members`, or `None` when `key` is
      absent: the last member with that key wins. */
  function Lookup(members: seq<(string, Json)>, key: string): (r: Option<Json>)
    ensures r.None? <==> forall i :: 0 <= i < |members| ==> members[i].0 != key
    ensures r.Some? ==> exists i :: 0 <= i < |members| && members[i] == (key, r.value)
  {
    if |members| == 0 then None
    else if members[|members| - 1].0 == key then Some(members[|members| - 1].1)
    else Lookup(members[..|members| - 1], key)
  }

  /** `d.get(key, default)`. */
  function GetOr(members: seq<(string, Json)>, key: string, default: Json): Json {
    Lookup(members, key).GetOr(default)
  }

  /** The keys of the dict built from `members`, in the order Python iterates
      them (first occurrence), each once. */
  function Keys(members: seq<(string, Json)>, seen: set<string>): (keys: seq<string>)
    ensures forall k :: 0 <= k < |keys| ==> keys[k] !in seen
  {
    if |members| == 0 then []
    else if members[0].0 in seen then Keys(members[1..], seen)
    else [members[0].0] + Keys(members[1..], seen + {members[0].0})
  }

  /** `key in container` for a string `key`; `None` when Python raises
      `TypeError` (numbers, booleans, `None`). On a string it is a substring
      test, on a list a membership test, on a dict a key test. */
  function Includes(container: Json, key: string): Option<bool> {
    match container
    case JObj(members) => Some(Lookup(members, key).Some?)
    case JStr(s) => Some(Text.Contains(s, key))
    case JArr(items) => Some(JStr(key) in items)
    case _ => None
  }

  /** `container[key]` for a string `key`; `None` when Python raises (a
      missing key, or a container that is not a dict). */
  function Index(container: Json, key: string): Option<Json> {
    match container
    case JObj(members) => Lookup(members, key)
    case _ => None
  }

  /** What `for x in v` visits; `None` when `v` is not iterable. A dict yields
      its keys, a string its characters. */
  function Iterate(v: Json): Option<seq<Json>> {
    match v
    case JArr(items) => Some(items)
    case JObj(members) =>
      var keys := Keys(members, {});
      Some(seq(|keys|, i requires 0 <= i < |keys| => JStr(keys[i])))
    case JStr(s) => Some(seq(|s|, i requires 0 <= i < |s| => JStr([s[i]])))
    case _ => None
  }

  /** The string inside a JSON string; every other kind of value gives
      `None`. */
  function AsText(v: Json): Option<string> {
    if v.JStr? then Some(v.s) else None
  }
}
