/**
 * JSON values as Python's `json` module produces them, together with the few
 * Python operations the processor applies to them without checking their
 * shape first: `d.get(k, default)`, `k in container`, `container[k]` and
 * iterating with `for`.  Where Python would raise because the value has the
 * wrong type, these return `Err(Unguarded)`.
 */
module Json {
  import opened Outcomes

  datatype Json =
    | JNull
    | JBool(b: bool)
    | JInt(i: int)
    | JFloat(bits: bv64)   // an IEEE-754 double, kept as its bit pattern
    | JStr(s: string)
    | JList(items: seq<Json>)
    | JObj(fields: map<string, Json>)

  /** Python truthiness: None, False, 0, 0.0, -0.0, "", [] and {} are false. */
  predicate Truthy(j: Json) {
    match j
    case JNull => false
    case JBool(b) => b
    case JInt(i) => i != 0
    case JFloat(bits) => bits & 0x7FFF_FFFF_FFFF_FFFF != 0
    case JStr(s) => s != ""
    case JList(xs) => xs != []
    case JObj(m) => m != map[]
  }

  /**
   * `j.get(key, default)` where `j` is known to be a dict, or where a value
   * that is not a dict is to read as the default.
   */
  function AtOr(j: Json, key: string, default: Json): Json {
    if j.JObj? && key in j.fields then j.fields[key] else default
  }

  /** `j.get(key)`: None when the key is absent or `j` is not a dict. */
  function At(j: Json, key: string): Json {
    AtOr(j, key, JNull)
  }

  /** `j.get(key, default)`: only a dict has `get`. */
  function GetOr(j: Json, key: string, default: Json): (r: Result<Json>)
    ensures r.Ok? <==> j.JObj?
    ensures r.Ok? ==> r.value == (if key in j.fields then j.fields[key] else default)
  {
    if !j.JObj? then Err(Unguarded) else Ok(AtOr(j, key, default))
  }

  /**
   * `m.get(key)` on a dict with string keys, for a key of any JSON type:
   * a list or dict key is unhashable (TypeError), any other non-string key
   * is simply absent.
   */
  function Lookup(m: map<string, Json>, key: Json): (r: Result<Option<Json>>)
    ensures r.Ok? && r.value.Some? ==> key.JStr? && key.s in m && r.value.value == m[key.s]
    ensures key.JStr? ==> r == Ok(if key.s in m then Some(m[key.s]) else None)
    ensures key.JList? || key.JObj? ==> r == Err(Unguarded)
    ensures !key.JStr? && !key.JList? && !key.JObj? ==> r == Ok(None)
  {
    match key
    case JList(_) => Err(Unguarded)
    case JObj(_) => Err(Unguarded)
    case JStr(s) => Ok(if s in m then Some(m[s]) else None)
    case _ => Ok(None)
  }

  predicate OccursAt(needle: string, haystack: string, i: int) {
    0 <= i && i + |needle| <= |haystack| && haystack[i..i + |needle|] == needle
  }

  predicate IsSubstring(needle: string, haystack: string) {
    exists i | 0 <= i <= |haystack| - |needle| :: OccursAt(needle, haystack, i)
  }

  /**
   * `key in container` for a string key: dict membership, list element
   * equality, or substring search; other values are not iterable.
   */
  function Member(container: Json, key: string): (r: Result<bool>)
    ensures container.JObj? ==> r == Ok(key in container.fields)
    ensures container.JList? ==> r == Ok(JStr(key) in container.items)
    ensures container.JStr? ==> r == Ok(exists i :: OccursAt(key, container.s, i))
    ensures r.Err? <==> !container.JObj? && !container.JList? && !container.JStr?
  {
    match container
    case JObj(m) => Ok(key in m)
    case JList(xs) => Ok(JStr(key) in xs)
    case JStr(s) => Ok(IsSubstring(key, s))
    case _ => Err(Unguarded)
  }

  /** `container[key]` for a string key: only a dict holding the key answers. */
  function Subscript(container: Json, key: string): (r: Result<Json>)
    ensures r.Ok? <==> container.JObj? && key in container.fields
    ensures r.Ok? ==> r.value == container.fields[key]
  {
    if container.JObj? && key in container.fields then Ok(container.fields[key]) else Err(Unguarded)
  }

  /**
   * The items of `for x in j` that can be dicts: a list yields its items;
   * a dict yields its keys and a string its characters, all strings; other
   * values are not iterable.
   */
  function LoopItems(j: Json): (r: Result<seq<Json>>)
    ensures j.JList? ==> r == Ok(j.items)
    ensures j.JObj? || j.JStr? ==> r == Ok([])
    ensures r.Err? <==> !(j.JList? || j.JObj? || j.JStr?)
  {
    match j
    case JList(xs) => Ok(xs)
    case JObj(_) => Ok([])
    case JStr(_) => Ok([])
    case _ => Err(Unguarded)
  }

  /** `j[key] = v` on a dict. */
  function Put(j: Json, key: string, v: Json): (r: Json)
    requires j.JObj?
    ensures r.JObj? && r.fields == j.fields[key := v]
  {
    JObj(j.fields[key := v])
  }

  /** `payload[path[0]]...[path[-1]]`, when every level is a dict holding the key. */
  function GetPath(j: Json, path: seq<string>): Option<Json>
    decreases |path|
  {
    if path == [] then Some(j)
    else if j.JObj? && path[0] in j.fields then GetPath(j.fields[path[0]], path[1..])
    else None
  }

  /** Replaces the value at `path` when the path exists; leaves `j` alone otherwise. */
  function PutPath(j: Json, path: seq<string>, v: Json): (r: Json)
    ensures GetPath(j, path).Some? ==> GetPath(r, path) == Some(v)
    ensures GetPath(j, path).None? ==> r == j
    ensures path != [] ==> (r.JObj? <==> j.JObj?)
    ensures path != [] && j.JObj? ==> r.fields.Keys == j.fields.Keys
                                      && forall k :: k in j.fields && k != path[0] ==> r.fields[k] == j.fields[k]
    decreases |path|
  {
    if path == [] then v
    else if j.JObj? && path[0] in j.fields then JObj(j.fields[path[0] := PutPath(j.fields[path[0]], path[1..], v)])
    else j
  }

  /** Following `a + b` is following `a`, then `b` from where `a` ends. */
  lemma {:induction false} GetPathAppend(j: Json, a: seq<string>, b: seq<string>)
    ensures GetPath(j, a + b) == if GetPath(j, a).Some? then GetPath(GetPath(j, a).value, b) else None
    decreases |a|
  {
    if a == [] {
      assert a + b == b;
    } else {
      assert (a + b)[0] == a[0] && (a + b)[1..] == a[1..] + b;
      if j.JObj? && a[0] in j.fields {
        GetPathAppend(j.fields[a[0]], a[1..], b);
      }
    }
  }

  /** `q` leaves `path` at some step: they agree up to position `i` and differ there. */
  predicate DivergesAt(q: seq<string>, path: seq<string>, i: nat) {
    i < |q| && i < |path| && q[..i] == path[..i] && q[i] != path[i]
  }

  /** Writing the value already found at `path` changes nothing. */
  lemma {:induction false} PutPathExisting(j: Json, path: seq<string>, v: Json)
    requires GetPath(j, path) == Some(v)
    ensures PutPath(j, path, v) == j
    decreases |path|
  {
    if path != [] {
      PutPathExisting(j.fields[path[0]], path[1..], v);
      assert j.fields[path[0] := j.fields[path[0]]] == j.fields;
    }
  }

  /** A write at `path` leaves every path that branches off it unchanged. */
  lemma {:induction false} PutPathElsewhere(j: Json, path: seq<string>, v: Json, q: seq<string>, i: nat)
    requires DivergesAt(q, path, i)
    ensures GetPath(PutPath(j, path, v), q) == GetPath(j, q)
    decreases i
  {
    if i > 0 && j.JObj? && path[0] in j.fields {
      assert q[0] == q[..i][0] == path[..i][0] == path[0];
      assert q[1..][..i - 1] == q[..i][1..] && path[1..][..i - 1] == path[..i][1..];
      PutPathElsewhere(j.fields[path[0]], path[1..], v, q[1..], i - 1);
    }
  }
}
