/** The document tree that requests carry and the content store receives:
    a parsed JSON value, restricted to the kinds the publishing code looks at. */
module JsonTree {

  datatype Option<+T> = None | Some(value: T) {
    predicate IsFailure() { None? }

    function PropagateFailure<U>(): Option<U>
      requires None?
    {
      None
    }

    function Extract(): T
      requires Some?
    {
      value
    }
  }

  /** A JSON value. `Null` stands for JSON null and for Ruby's `nil`. */
  datatype Json =
    | Obj(fields: map<string, Json>)
    | Arr(items: seq<Json>)
    | Str(text: string)
    | Null

  /** Ruby's `value[key]` on a parsed document: the entry when `value` is a
      hash holding `key`, and `nil` otherwise. */
  function Lookup(t: Json, key: string): (r: Json)
    ensures r != Null ==> t.Obj? && key in t.fields && t.fields[key] == r
    ensures t.Obj? && key in t.fields ==> r == t.fields[key]
  {
    if t.Obj? && key in t.fields then t.fields[key] else Null
  }

  /** Ruby's `hash[key] = value`, as a new tree. */
  function Assign(t: Json, key: string, v: Json): (r: Json)
    requires t.Obj?
    ensures r.Obj? && r.fields.Keys == t.fields.Keys + {key}
    ensures Lookup(r, key) == v
    ensures forall k :: k in t.fields && k != key ==> r.fields[k] == t.fields[k]
  {
    Obj(t.fields[key := v])
  }

  /** `b` is `a` with, at most, entries added to hashes anywhere in the tree:
      every key `a` has is still there, every array keeps its length, every
      string is unchanged. This is what the markdown renderer (which adds
      `*_html` siblings) and the organisations lookup (which adds
      `details.organisations`) are taken to do. */
  ghost predicate Grows(a: Json, b: Json)
  {
    match a
    case Obj(fa) =>
      b.Obj? && fa.Keys <= b.fields.Keys &&
      forall k :: k in fa ==> Grows(fa[k], b.fields[k])
    case Arr(xa) =>
      b.Arr? && |xa| == |b.items| &&
      forall i :: 0 <= i < |xa| ==> Grows(xa[i], b.items[i])
    case _ => a == b
  }

  /** A transformation of whole documents that only ever adds entries. */
  ghost predicate OnlyAdds(f: Json -> Json)
  {
    forall t :: Grows(t, f(t))
  }

  lemma GrowsLookup(a: Json, b: Json, key: string)
    requires Grows(a, b)
    requires Lookup(a, key) != Null
    ensures Grows(Lookup(a, key), Lookup(b, key))
  {
  }

  /** A string or an empty array survives within a growing tree. */
  lemma GrowsLeaf(a: Json, b: Json, key: string)
    requires Grows(a, b)
    requires Lookup(a, key).Str? || Lookup(a, key) == Arr([])
    ensures Lookup(b, key) == Lookup(a, key)
  {
    GrowsLookup(a, b, key);
  }
}
