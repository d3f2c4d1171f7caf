/** Decoded block objects as trees, and what `jsonObjSize` and `convertFormatOfValue` compute on them. */
module JsonTree {
  import opened Options
  import opened Text

  datatype Field = Field(key: string, value: Json)

  /** A decoded object: `Buf` is a Node Buffer, `Obj` a plain object with its keys in order. */
  datatype Json =
    | Null
    | Undefined
    | Bool(b: bool)
    | Num(n: int)
    | Str(s: string)
    | Buf(bytes: seq<byte>)
    | Arr(items: seq<Json>)
    | Obj(fields: seq<Field>)

  type Encoder = seq<byte> -> string

  // ------------------------------------------------------------------- size

  /** Bytes a tree counts for: 8 a number, 4 a boolean, the length of a string or Buffer. */
  function Bytes(v: Json): nat {
    match v
    case Num(_) => 8
    case Str(s) => |s|
    case Bool(_) => 4
    case Buf(bytes) => |bytes|
    case Arr(items) => ItemBytes(items)
    case Obj(fields) => FieldBytes(fields)
    case _ => 0
  }

  function ItemBytes(items: seq<Json>): nat {
    if items == [] then 0 else ItemBytes(items[..|items| - 1]) + Bytes(items[|items| - 1])
  }

  function FieldBytes(fields: seq<Field>): nat {
    if fields == [] then 0 else FieldBytes(fields[..|fields| - 1]) + Bytes(fields[|fields| - 1].value)
  }

  lemma {:induction false} ItemsAddUp(a: seq<Json>, b: seq<Json>)
    ensures ItemBytes(a + b) == ItemBytes(a) + ItemBytes(b)
  {
    if b == [] {
      assert a + b == a;
    } else {
      ItemsAddUp(a, b[..|b| - 1]);
      assert (a + b)[..|a + b| - 1] == a + b[..|b| - 1];
    }
  }

  lemma {:induction false} FieldsAddUp(a: seq<Field>, b: seq<Field>)
    ensures FieldBytes(a + b) == FieldBytes(a) + FieldBytes(b)
  {
    if b == [] {
      assert a + b == a;
    } else {
      FieldsAddUp(a, b[..|b| - 1]);
      assert (a + b)[..|a + b| - 1] == a + b[..|b| - 1];
    }
  }

  /** What leaves weigh. */
  lemma BytesOfLeaves(n: int, s: string, b: bool, octets: seq<byte>)
    ensures Bytes(Num(n)) == 8 && Bytes(Str(s)) == |s| && Bytes(Bool(b)) == 4 && Bytes(Buf(octets)) == |octets|
    ensures Bytes(Null) == 0 && Bytes(Undefined) == 0
  {
  }

  /** Arrays and objects weigh what their parts weigh together, and keys nothing. */
  lemma BytesAddUp(a: seq<Json>, b: seq<Json>, p: seq<Field>, q: seq<Field>, key: string, v: Json)
    ensures Bytes(Arr([])) == 0 && Bytes(Arr([v])) == Bytes(v) && Bytes(Arr(a + b)) == Bytes(Arr(a)) + Bytes(Arr(b))
    ensures Bytes(Obj([])) == 0 && Bytes(Obj([Field(key, v)])) == Bytes(v) && Bytes(Obj(p + q)) == Bytes(Obj(p)) + Bytes(Obj(q))
  {
    ItemsAddUp(a, b);
    FieldsAddUp(p, q);
    assert [v][..0] == [] && [Field(key, v)][..0] == [];
    assert ItemBytes([v]) == ItemBytes([]) + Bytes(v);
    assert FieldBytes([Field(key, v)]) == FieldBytes([]) + Bytes(v);
  }

  /** `(raw / 1024).toFixed(0)`: the nearest integer, the larger of two equally near ones. */
  function KiloBytes(raw: nat): nat {
    (raw + 512) / 1024
  }

  /** Section 21.1.3.3 of ECMA-262: no integer is nearer to raw / 1024, and a tie goes up. */
  lemma KiloBytesNearest(raw: nat, other: int)
    ensures Distance(1024 * KiloBytes(raw), raw) <= 512
    ensures Distance(1024 * KiloBytes(raw), raw) <= Distance(1024 * other, raw)
    ensures Distance(1024 * KiloBytes(raw), raw) == Distance(1024 * other, raw) ==> other <= KiloBytes(raw)
  {
    var k := KiloBytes(raw);
    assert 1024 * k <= raw + 512 < 1024 * k + 1024;
    if other >= k + 1 {
      assert 1024 * other >= 1024 * k + 1024;
    } else if other <= k - 1 {
      assert 1024 * other <= 1024 * k - 1024;
    }
  }

  function Distance(a: int, b: int): nat {
    if a < b then b - a else a - b
  }

  // ---------------------------------------------------------------- rewrite

  /** Every Buffer under the key `value` becomes its text; nothing else changes. */
  function MapBuffers(enc: Encoder, v: Json): Json {
    match v
    case Arr(items) => Arr(seq(|items|, i requires 0 <= i < |items| => MapBuffers(enc, items[i])))
    case Obj(fields) => Obj(seq(|fields|, i requires 0 <= i < |fields| => MapField(enc, fields[i])))
    case _ => v
  }

  predicate IsValueBuffer(f: Field) {
    f.key == "value" && f.value.Buf?
  }

  function MapField(enc: Encoder, f: Field): Field {
    if IsValueBuffer(f) then f.(value := Str(enc(f.value.bytes)))
    else f.(value := MapBuffers(enc, f.value))
  }

  /** The walk calls `Object.keys(null)`: a null is the root or an array element on its way.
      A null under an object key is skipped as falsy. */
  predicate WalkThrows(v: Json) {
    match v
    case Null => true
    case Arr(items) => exists i :: 0 <= i < |items| && WalkThrows(items[i])
    case Obj(fields) => exists i :: 0 <= i < |fields| && !fields[i].value.Null? && WalkThrows(fields[i].value)
    case _ => false
  }

  predicate HasValueBuffer(v: Json) {
    match v
    case Arr(items) => exists i :: 0 <= i < |items| && HasValueBuffer(items[i])
    case Obj(fields) => exists i :: 0 <= i < |fields| && (IsValueBuffer(fields[i]) || HasValueBuffer(fields[i].value))
    case _ => false
  }

  /** A converted tree has no Buffer left to convert. */
  lemma {:induction false} MappedHasNoValueBuffer(enc: Encoder, v: Json)
    ensures !HasValueBuffer(MapBuffers(enc, v))
  {
    match v
    case Arr(items) =>
      forall i | 0 <= i < |items|
        ensures !HasValueBuffer(MapBuffers(enc, items[i]))
      {
        MappedHasNoValueBuffer(enc, items[i]);
      }
    case Obj(fields) =>
      forall i | 0 <= i < |fields|
        ensures var f := MapField(enc, fields[i]); !IsValueBuffer(f) && !HasValueBuffer(f.value)
      {
        MappedHasNoValueBuffer(enc, fields[i].value);
      }
    case _ =>
  }

  /** The rewrite leaves a tree alone exactly when it holds no Buffer under `value`. */
  lemma {:induction false} MapBuffersFixes(enc: Encoder, v: Json)
    ensures MapBuffers(enc, v) == v <==> !HasValueBuffer(v)
  {
    MappedHasNoValueBuffer(enc, v);
    if !HasValueBuffer(v) {
      match v
      case Arr(items) =>
        forall i | 0 <= i < |items|
          ensures MapBuffers(enc, items[i]) == items[i]
        {
          MapBuffersFixes(enc, items[i]);
        }
        assert MapBuffers(enc, v).items == items;
      case Obj(fields) =>
        forall i | 0 <= i < |fields|
          ensures MapField(enc, fields[i]) == fields[i]
        {
          MapBuffersFixes(enc, fields[i].value);
        }
        assert MapBuffers(enc, v).fields == fields;
      case _ =>
    }
  }

  /** A second pass, whatever its encoding, changes nothing. */
  lemma MapBuffersTwice(enc: Encoder, again: Encoder, v: Json)
    ensures MapBuffers(again, MapBuffers(enc, v)) == MapBuffers(enc, v)
  {
    MappedHasNoValueBuffer(enc, v);
    MapBuffersFixes(again, MapBuffers(enc, v));
  }

  // ------------------------------------------------- what sits at each path

  /** The node reached by taking the given child at each level. */
  function At(v: Json, path: seq<nat>): Option<Json>
    decreases |path|
  {
    if path == [] then Some(v)
    else
      match v
      case Arr(items) => if path[0] < |items| then At(items[path[0]], path[1..]) else None
      case Obj(fields) => if path[0] < |fields| then At(fields[path[0]].value, path[1..]) else None
      case _ => None
  }

  /** The last step of the path goes through the key `value` of an object. */
  predicate UnderValue(v: Json, path: seq<nat>) {
    path != [] &&
    match At(v, path[..|path| - 1])
    case Some(Obj(fields)) => path[|path| - 1] < |fields| && fields[path[|path| - 1]].key == "value"
    case _ => false
  }

  /** Same kind of node, same number of children, same keys; leaves equal. */
  predicate SameNode(a: Json, b: Json) {
    match a
    case Arr(items) => b.Arr? && |b.items| == |items|
    case Obj(fields) => b.Obj? && |b.fields| == |fields| && forall i :: 0 <= i < |fields| ==> b.fields[i].key == fields[i].key
    case _ => b == a
  }

  /** Path by path: a Buffer under `value` is replaced by its text, every other node stays as it was. */
  lemma {:induction false} MapBuffersAt(enc: Encoder, v: Json, path: seq<nat>)
    ensures At(MapBuffers(enc, v), path).Some? <==> At(v, path).Some?
    ensures At(v, path).Some? ==>
              var before, after := At(v, path).value, At(MapBuffers(enc, v), path).value;
              if before.Buf? && UnderValue(v, path) then after == Str(enc(before.bytes)) else SameNode(before, after)
    decreases |path|
  {
    if path != [] {
      var k, rest := path[0], path[1..];
      if v.Arr? && k < |v.items| {
        MapBuffersAt(enc, v.items[k], rest);
        UnderValueStep(v, path);
      } else if v.Obj? && k < |v.fields| {
        UnderValueStep(v, path);
        if !IsValueBuffer(v.fields[k]) {
          MapBuffersAt(enc, v.fields[k].value, rest);
        }
      }
    }
  }

  lemma UnderValueStep(v: Json, path: seq<nat>)
    requires |path| > 0
    requires (v.Arr? && path[0] < |v.items|) || (v.Obj? && path[0] < |v.fields|)
    ensures var child := if v.Arr? then v.items[path[0]] else v.fields[path[0]].value;
      UnderValue(v, path) == if |path| == 1 then v.Obj? && v.fields[path[0]].key == "value" else UnderValue(child, path[1..])
  {
    if |path| > 1 {
      assert path[..|path| - 1][0] == path[0];
      assert path[..|path| - 1][1..] == path[1..][..|path| - 2];
    } else {
      assert path[..0] == [];
    }
  }
}
