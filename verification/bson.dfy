/** The documents of the MongoDB backend: a tree of BSON values, ObjectIds
    written as their canonical lower-case hexadecimal text, dictionaries as
    ordered key/value fields, and `serialize_object_id`. */
module Bson {
  import opened Seqs

  datatype Value =
    | Oid(hex: string)
    | Str(s: string)
    | Bool(b: bool)
    | Int(i: int)
    | Time(t: int)
    | Null
    | List(items: seq<Value>)
    | Dict(fields: seq<Field>)

  datatype Field = Field(key: string, value: Value)

  // ----- ObjectId text -----

  predicate IsHexDigit(c: char)
  {
    '0' <= c <= '9' || 'a' <= c <= 'f' || 'A' <= c <= 'F'
  }

  predicate IsLowerHexDigit(c: char)
  {
    '0' <= c <= '9' || 'a' <= c <= 'f'
  }

  const OidLength: nat := 24

  /** The text `str(ObjectId(...))` gives: 24 lower-case hexadecimal digits. */
  predicate IsOidText(h: string)
  {
    |h| == OidLength && forall k :: 0 <= k < |h| ==> IsLowerHexDigit(h[k])
  }

  function LowerHex(c: char): (d: char)
    requires IsHexDigit(c)
    ensures IsLowerHexDigit(d)
    ensures IsLowerHexDigit(c) ==> d == c
  {
    if 'A' <= c <= 'F' then (c as int + 32) as char else c
  }

  /** `ObjectId(s)` for a string: 24 hexadecimal digits in either case, read
      as the id whose text is their lower-case form; anything else raises
      InvalidId. */
  function ParseOid(s: string): (r: Option<string>)
    ensures r.Some? <==> |s| == OidLength && forall k :: 0 <= k < |s| ==> IsHexDigit(s[k])
    ensures r.Some? ==> IsOidText(r.value)
  {
    if |s| == OidLength && forall k :: 0 <= k < |s| ==> IsHexDigit(s[k]) then
      Some(seq(|s|, k requires 0 <= k < |s| => LowerHex(s[k])))
    else None
  }

  /** `ObjectId(str(oid)) == oid`: the text of an id parses back to it. */
  lemma ParseOidText(h: string)
    requires IsOidText(h)
    ensures ParseOid(h) == Some(h)
  {
    assert ParseOid(h).value == h;
  }

  // ----- serialize_object_id -----

  /** No ObjectId anywhere in the tree. */
  predicate NoOid(v: Value)
  {
    match v
    case Oid(_) => false
    case List(xs) => forall k :: 0 <= k < |xs| ==> NoOid(xs[k])
    case Dict(fs) => forall k :: 0 <= k < |fs| ==> NoOid(fs[k].value)
    case _ => true
  }

  /** `w` is `v` with every ObjectId at any depth replaced by its text: the
      same keys in the same order, the same list lengths, every other leaf
      unchanged. */
  predicate SameShape(v: Value, w: Value)
  {
    match v
    case Oid(h) => w == Str(h)
    case List(xs) =>
      w.List? && |w.items| == |xs| && forall k :: 0 <= k < |xs| ==> SameShape(xs[k], w.items[k])
    case Dict(fs) =>
      && w.Dict? && |w.fields| == |fs|
      && forall k :: 0 <= k < |fs| ==> w.fields[k].key == fs[k].key && SameShape(fs[k].value, w.fields[k].value)
    case _ => w == v
  }

  /** What an entry of a dictionary or a list becomes: an ObjectId its text,
      a dictionary or list its serialized form, anything else itself. */
  function SerializedEntry(v: Value): Value
    decreases v, 1
  {
    match v
    case Oid(h) => Str(h)
    case List(_) => Serialized(v)
    case Dict(_) => Serialized(v)
    case _ => v
  }

  /** What `serialize_object_id(obj)` returns: the entries of a dictionary or
      a list rewritten, any other value (an ObjectId too) as it is. */
  function Serialized(v: Value): Value
    decreases v, 0
  {
    match v
    case List(xs) => List(seq(|xs|, k requires 0 <= k < |xs| => SerializedEntry(xs[k])))
    case Dict(fs) => Dict(seq(|fs|, k requires 0 <= k < |fs| => Field(fs[k].key, SerializedEntry(fs[k].value))))
    case _ => v
  }

  /** `serialize_object_id`: walk the dictionary's items or the list's
      indices, replacing each ObjectId by its text and each nested container
      by its serialized form. */
  method SerializeObjectId(obj: Value) returns (r: Value)
    ensures r == Serialized(obj)
    decreases obj
  {
    match obj
    case Dict(fs) =>
      var out := fs;
      for i := 0 to |fs|
        invariant |out| == |fs|
        invariant forall k :: 0 <= k < i ==> out[k] == Field(fs[k].key, SerializedEntry(fs[k].value))
        invariant forall k :: i <= k < |fs| ==> out[k] == fs[k]
      {
        var v := fs[i].value;
        if v.Oid? {
          out := out[i := Field(fs[i].key, Str(v.hex))];
        } else if v.Dict? || v.List? {
          var w := SerializeObjectId(v);
          out := out[i := Field(fs[i].key, w)];
        }
      }
      r := Dict(out);
    case List(xs) =>
      var out := xs;
      for i := 0 to |xs|
        invariant |out| == |xs|
        invariant forall k :: 0 <= k < i ==> out[k] == SerializedEntry(xs[k])
        invariant forall k :: i <= k < |xs| ==> out[k] == xs[k]
      {
        var v := xs[i];
        if v.Oid? {
          out := out[i := Str(v.hex)];
        } else if v.Dict? || v.List? {
          var w := SerializeObjectId(v);
          out := out[i := w];
        }
      }
      r := List(out);
    case _ =>
      r := obj;
  }

  /** A rewritten entry holds no ObjectId and has the entry's shape. */
  lemma {:induction false} SerializedEntryClean(v: Value)
    ensures NoOid(SerializedEntry(v)) && SameShape(v, SerializedEntry(v))
    decreases v
  {
    match v
    case List(xs) =>
      var w := SerializedEntry(v);
      assert w == Serialized(v);
      assert w.List? && |w.items| == |xs|;
      forall k | 0 <= k < |xs| ensures NoOid(w.items[k]) && SameShape(xs[k], w.items[k]) {
        assert w.items[k] == SerializedEntry(xs[k]);
        SerializedEntryClean(xs[k]);
      }
    case Dict(fs) =>
      var w := SerializedEntry(v);
      assert w == Serialized(v);
      assert w.Dict? && |w.fields| == |fs|;
      forall k | 0 <= k < |fs| ensures NoOid(w.fields[k].value) && SameShape(fs[k].value, w.fields[k].value) {
        SerializedEntryClean(fs[k].value);
      }
    case _ =>
  }

  /** After `serialize_object_id` on a dictionary or a list no ObjectId
      remains at any depth, and the tree keeps its shape; any other value is
      returned unchanged. */
  lemma SerializedClean(v: Value)
    ensures v.Dict? || v.List? ==> NoOid(Serialized(v)) && SameShape(v, Serialized(v))
    ensures !v.Dict? && !v.List? ==> Serialized(v) == v
  {
    if v.Dict? || v.List? {
      SerializedEntryClean(v);
    }
  }

  /** An entry is left as it is exactly when it holds no ObjectId. */
  lemma {:induction false} SerializedEntryFixed(v: Value)
    ensures SerializedEntry(v) == v <==> NoOid(v)
    decreases v
  {
    match v
    case List(xs) =>
      forall k | 0 <= k < |xs| ensures SerializedEntry(xs[k]) == xs[k] <==> NoOid(xs[k]) {
        SerializedEntryFixed(xs[k]);
      }
      if NoOid(v) {
        assert Serialized(v).items == xs;
      } else {
        var k :| 0 <= k < |xs| && !NoOid(xs[k]);
        assert Serialized(v).items[k] != xs[k];
      }
    case Dict(fs) =>
      forall k | 0 <= k < |fs| ensures SerializedEntry(fs[k].value) == fs[k].value <==> NoOid(fs[k].value) {
        SerializedEntryFixed(fs[k].value);
      }
      if NoOid(v) {
        assert Serialized(v).fields == fs;
      } else {
        var k :| 0 <= k < |fs| && !NoOid(fs[k].value);
        assert Serialized(v).fields[k] != fs[k];
      }
    case _ =>
  }

  /** Serializing twice is serializing once. */
  lemma SerializedIdempotent(v: Value)
    ensures Serialized(Serialized(v)) == Serialized(v)
  {
    if v.Dict? || v.List? {
      SerializedEntryClean(v);
      SerializedEntryFixed(Serialized(v));
    }
  }

  // ----- dictionaries -----

  /** `d.get(key)`: the value of the first field with that key. */
  function Lookup(fs: seq<Field>, key: string): (r: Option<Value>)
    ensures r.Some? <==> exists k :: 0 <= k < |fs| && fs[k].key == key
    ensures r.Some? ==> Field(key, r.value) in fs
  {
    if |fs| == 0 then None
    else if fs[0].key == key then Some(fs[0].value)
    else Lookup(fs[1..], key)
  }

  /** `d[key] = value`: replace the first field with that key in place, or add
      the field at the end. */
  function Put(fs: seq<Field>, key: string, value: Value): (r: seq<Field>)
    ensures forall j :: Lookup(r, j) == if j == key then Some(value) else Lookup(fs, j)
  {
    if |fs| == 0 then [Field(key, value)]
    else if fs[0].key == key then [Field(key, value)] + fs[1..]
    else [fs[0]] + Put(fs[1..], key, value)
  }

  /** `d.pop(key)` without its result: drop the field with that key. */
  function Remove(fs: seq<Field>, key: string): (r: seq<Field>)
    ensures forall j :: Lookup(r, j) == if j == key then None else Lookup(fs, j)
  {
    if |fs| == 0 then []
    else if fs[0].key == key then Remove(fs[1..], key)
    else [fs[0]] + Remove(fs[1..], key)
  }
}
