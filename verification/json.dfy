/**
 * The JSON-like values the views manipulate: response payloads (lists and
 * dicts of scalars) and the YAML menu configuration. A dict is an
 * association list in insertion order, as Python iterates it; its keys
 * are distinct in every dict Python can build.
 */
module JsonValue {
  import opened Wrappers

  datatype Json =
    | JNull
    | JBool(b: bool)
    | JNum(n: int)
    | JStr(s: string)
    | JList(items: seq<Json>)
    | JDict(fields: seq<Field>)

  datatype Field = Field(key: string, value: Json)

  /** Python truthiness: None, False, 0, '', [] and {} are false. */
  predicate Truthy(j: Json)
  {
    match j
    case JNull => false
    case JBool(b) => b
    case JNum(n) => n != 0
    case JStr(s) => s != ""
    case JList(xs) => xs != []
    case JDict(fs) => fs != []
  }

  /** `d.get(k)`: the value under `k`, or nothing. */
  function Get(fs: seq<Field>, k: string): (v: Option<Json>)
    ensures v.Some? <==> exists i :: 0 <= i < |fs| && fs[i].key == k
  {
    if fs == [] then None
    else if fs[0].key == k then Some(fs[0].value)
    else
      var v := Get(fs[1..], k);
      assert forall i :: 1 <= i < |fs| ==> fs[i] == fs[1..][i - 1];
      v
  }

  /** `d.get(k, default)`. */
  function GetOr(fs: seq<Field>, k: string, default: Json): Json
  {
    Get(fs, k).GetOr(default)
  }

  /** `d[k] = v`: replaces the value in place when `k` is present, appends otherwise. */
  function Put(fs: seq<Field>, k: string, v: Json): (r: seq<Field>)
    ensures Get(r, k) == Some(v)
    ensures forall k' :: k' != k ==> Get(r, k') == Get(fs, k')
  {
    if fs == [] then [Field(k, v)]
    else if fs[0].key == k then [Field(k, v)] + fs[1..]
    else
      var r := [fs[0]] + Put(fs[1..], k, v);
      assert r[1..] == Put(fs[1..], k, v);
      r
  }

  /** `d.pop(k, default)` without its value: the dict with `k` gone. */
  function Remove(fs: seq<Field>, k: string): (r: seq<Field>)
    ensures Get(r, k) == None
    ensures forall k' :: k' != k ==> Get(r, k') == Get(fs, k')
  {
    if fs == [] then []
    else if fs[0].key == k then Remove(fs[1..], k)
    else
      var r := [fs[0]] + Remove(fs[1..], k);
      assert r[1..] == Remove(fs[1..], k);
      r
  }

  function Keys(fs: seq<Field>): seq<string>
  {
    seq(|fs|, i requires 0 <= i < |fs| => fs[i].key)
  }

  /** The value `Get` finds sits at some position of the dict. */
  lemma {:induction false} GetIndex(fs: seq<Field>, k: string) returns (i: nat)
    requires Get(fs, k).Some?
    ensures i < |fs| && fs[i].key == k && fs[i].value == Get(fs, k).value
  {
    if fs[0].key == k {
      i := 0;
    } else {
      i := GetIndex(fs[1..], k);
      i := i + 1;
    }
  }

  /** A value found in a dict is structurally smaller than the dict. */
  lemma GetSmaller(fs: seq<Field>, k: string)
    requires Get(fs, k).Some?
    ensures Get(fs, k).value < JDict(fs)
  {
    var i := GetIndex(fs, k);
    assert fs[i] in fs;
  }
}
