/**
 * `AbsoluteUrlMixin.process_urls` (src/sa_api/views.py): walks a response
 * payload and replaces the value of every `url` key that is not None by
 * the absolute URI the request builds from it. The request's
 * `build_absolute_uri` is a parameter `abs`.
 *
 * The Python works in place on nested lists and dicts and returns the same
 * object; here the payload is a value and the walk returns the rewritten
 * copy. A rewritten url is a string, and walking a string changes nothing,
 * so the dict loop leaves the new value as it is.
 */
module AbsoluteUrls {
  import opened Wrappers
  import opened JsonValue

  const UrlKey := "url"

  /** The rewritten payload. */
  function Absolutized(j: Json, abs: Json -> string): Json
  {
    match j
    case JList(items) => JList(AbsItems(items, abs))
    case JDict(fields) => JDict(AbsFields(fields, abs))
    case _ => j
  }

  function AbsItems(items: seq<Json>, abs: Json -> string): (r: seq<Json>)
    ensures |r| == |items|
    ensures forall i :: 0 <= i < |items| ==> r[i] == Absolutized(items[i], abs)
  {
    if items == [] then [] else [Absolutized(items[0], abs)] + AbsItems(items[1..], abs)
  }

  function AbsField(f: Field, abs: Json -> string): Field
  {
    if f.key == UrlKey && f.value != JNull then Field(UrlKey, JStr(abs(f.value)))
    else Field(f.key, Absolutized(f.value, abs))
  }

  function AbsFields(fields: seq<Field>, abs: Json -> string): (r: seq<Field>)
    ensures |r| == |fields|
    ensures forall i :: 0 <= i < |fields| ==> r[i] == AbsField(fields[i], abs)
  {
    if fields == [] then [] else [AbsField(fields[0], abs)] + AbsFields(fields[1..], abs)
  }

  /** The walk, with a loop over list items and another over dict entries. */
  method ProcessUrls(data: Json, abs: Json -> string) returns (r: Json)
    ensures r == Absolutized(data, abs)
    decreases data
  {
    match data
    case JList(items) =>
      var out: seq<Json> := [];
      for i := 0 to |items|
        invariant out == AbsItems(items[..i], abs)
      {
        assert items[i] in items;
        var v := ProcessUrls(items[i], abs);
        assert items[..i + 1] == items[..i] + [items[i]];
        AbsItemsAppend(items[..i], items[i], abs);
        out := out + [v];
      }
      assert items[..|items|] == items;
      r := JList(out);
    case JDict(fields) =>
      var out: seq<Field> := [];
      for i := 0 to |fields|
        invariant out == AbsFields(fields[..i], abs)
      {
        var f := fields[i];
        var g: Field;
        if f.key == UrlKey && f.value != JNull {
          g := Field(UrlKey, JStr(abs(f.value)));
        } else {
          assert f in fields;
          var v := ProcessUrls(f.value, abs);
          g := Field(f.key, v);
        }
        assert fields[..i + 1] == fields[..i] + [f];
        AbsFieldsAppend(fields[..i], f, abs);
        out := out + [g];
      }
      assert fields[..|fields|] == fields;
      r := JDict(out);
    case _ =>
      r := data;
  }

  lemma AbsItemsAppend(items: seq<Json>, x: Json, abs: Json -> string)
    ensures AbsItems(items + [x], abs) == AbsItems(items, abs) + [Absolutized(x, abs)]
  {
  }

  lemma AbsFieldsAppend(fields: seq<Field>, f: Field, abs: Json -> string)
    ensures AbsFields(fields + [f], abs) == AbsFields(fields, abs) + [AbsField(f, abs)]
  {
  }

  /** Scalars come back unchanged, lists keep their length and dicts their keys in order. */
  lemma ShapeKept(j: Json, abs: Json -> string)
    ensures j.JList? <==> Absolutized(j, abs).JList?
    ensures j.JDict? <==> Absolutized(j, abs).JDict?
    ensures j.JList? ==> |Absolutized(j, abs).items| == |j.items|
    ensures j.JDict? ==> Keys(Absolutized(j, abs).fields) == Keys(j.fields)
    ensures !j.JList? && !j.JDict? ==> Absolutized(j, abs) == j
  {
  }

  /** A dict's `url`, when it is not None, becomes the absolute URI built from it. */
  lemma {:induction false} UrlRewritten(fields: seq<Field>, abs: Json -> string)
    ensures var u := Get(fields, UrlKey);
      Get(AbsFields(fields, abs), UrlKey) ==
        if u.Some? && u.value != JNull then Some(JStr(abs(u.value))) else u
  {
    if fields != [] {
      UrlRewritten(fields[1..], abs);
      assert AbsFields(fields, abs)[1..] == AbsFields(fields[1..], abs);
    }
  }

  /** Every other key keeps its value, itself walked. */
  lemma {:induction false} OtherKeysWalked(fields: seq<Field>, k: string, abs: Json -> string)
    requires k != UrlKey
    ensures var v := Get(fields, k);
      Get(AbsFields(fields, abs), k) == if v.Some? then Some(Absolutized(v.value, abs)) else None
  {
    if fields != [] {
      OtherKeysWalked(fields[1..], k, abs);
      assert AbsFields(fields, abs)[1..] == AbsFields(fields[1..], abs);
    }
  }

  /**
   * When building an absolute URI from an absolute URI changes nothing,
   * walking a payload twice gives what walking it once gives.
   */
  lemma {:induction false} AbsolutizedIdempotent(j: Json, abs: Json -> string)
    requires forall v :: abs(JStr(abs(v))) == abs(v)
    ensures Absolutized(Absolutized(j, abs), abs) == Absolutized(j, abs)
    decreases j, 0
  {
    match j
    case JList(items) =>
      AbsItemsIdempotent(items, abs);
    case JDict(fields) =>
      AbsFieldsIdempotent(fields, abs);
    case _ =>
  }

  lemma {:induction false} AbsItemsIdempotent(items: seq<Json>, abs: Json -> string)
    requires forall v :: abs(JStr(abs(v))) == abs(v)
    ensures AbsItems(AbsItems(items, abs), abs) == AbsItems(items, abs)
    decreases items, 1
  {
    forall i | 0 <= i < |items|
      ensures Absolutized(Absolutized(items[i], abs), abs) == Absolutized(items[i], abs)
    {
      assert items[i] in items;
      AbsolutizedIdempotent(items[i], abs);
    }
  }

  lemma {:induction false} AbsFieldsIdempotent(fields: seq<Field>, abs: Json -> string)
    requires forall v :: abs(JStr(abs(v))) == abs(v)
    ensures AbsFields(AbsFields(fields, abs), abs) == AbsFields(fields, abs)
    decreases fields, 1
  {
    forall i | 0 <= i < |fields|
      ensures AbsField(AbsField(fields[i], abs), abs) == AbsField(fields[i], abs)
    {
      var f := fields[i];
      if !(f.key == UrlKey && f.value != JNull) {
        assert f in fields;
        AbsolutizedIdempotent(f.value, abs);
      }
    }
  }
}
