/** `jsonObjSize` with its outer accumulator, and `convertFormatOfValue` rewriting objects in place. */
module JsonWalks {
  import opened JsonTree

  // ------------------------------------------------------------- jsonObjSize

  class SizeWalk {
    var bytes: nat

    constructor ()
      ensures bytes == 0
    {
      bytes := 0;
    }

    /** The inner `sizeOf`: every leaf is added to the shared accumulator, which is also the result. */
    method SizeOf(v: Json) returns (total: nat)
      modifies this
      ensures bytes == old(bytes) + Bytes(v)
      ensures total == bytes
    {
      match v {
      case Num(_) => bytes := bytes + 8;
      case Str(s) => bytes := bytes + |s|;
      case Bool(_) => bytes := bytes + 4;
      case Buf(data) => bytes := bytes + |data|;
      case Arr(items) =>
        for i := 0 to |items|
          invariant bytes == old(bytes) + ItemBytes(items[..i])
        {
          var _ := SizeOf(items[i]);
          assert items[..i + 1][..i] == items[..i];
        }
        assert items[..|items|] == items;
      case Obj(fields) =>
        for i := 0 to |fields|
          invariant bytes == old(bytes) + FieldBytes(fields[..i])
        {
          var _ := SizeOf(fields[i].value);
          assert fields[..i + 1][..i] == fields[..i];
        }
        assert fields[..|fields|] == fields;
      case _ =>
      }
      total := bytes;
    }
  }

  /** `jsonObjSize`: kilobytes, as `toFixed(0)` rounds them. */
  method JsonObjSize(v: Json) returns (kiloBytes: nat)
    ensures kiloBytes == KiloBytes(Bytes(v))
    ensures Distance(1024 * kiloBytes, Bytes(v)) <= 512
  {
    var walk := new SizeWalk();
    var raw := walk.SizeOf(v);
    kiloBytes := KiloBytes(raw);
    KiloBytesNearest(raw, kiloBytes);
  }

  // ------------------------------------------------------ children of a tree

  function Kids(t: Json): seq<Json> {
    match t
    case Arr(items) => items
    case Obj(fields) => seq(|fields|, i requires 0 <= i < |fields| => fields[i].value)
    case _ => []
  }

  predicate Container(t: Json) {
    t.Arr? || t.Obj?
  }

  function WithKid(t: Json, i: nat, kid: Json): Json
    requires i < |Kids(t)|
  {
    match t
    case Arr(items) => Arr(items[i := kid])
    case Obj(fields) => Obj(fields[i := fields[i].(value := kid)])
  }

  lemma WithKidKids(t: Json, i: nat, kid: Json)
    requires i < |Kids(t)|
    ensures Kids(WithKid(t, i, kid)) == Kids(t)[i := kid] && SameNode(t, WithKid(t, i, kid))
  {
  }

  /** Whether the walk throws at a child: in an object a null is passed over. */
  predicate KidThrows(t: Json, i: nat)
    requires i < |Kids(t)|
  {
    (t.Arr? || !Kids(t)[i].Null?) && WalkThrows(Kids(t)[i])
  }

  lemma ThrowingKids(t: Json)
    requires Container(t)
    ensures WalkThrows(t) <==> exists i :: 0 <= i < |Kids(t)| && KidThrows(t, i)
  {
    if WalkThrows(t) {
      match t
      case Arr(items) =>
        var i :| 0 <= i < |items| && WalkThrows(items[i]);
        assert KidThrows(t, i);
      case Obj(fields) =>
        var i :| 0 <= i < |fields| && !fields[i].value.Null? && WalkThrows(fields[i].value);
        assert KidThrows(t, i);
    }
  }

  // ------------------------------------------------ the tree the walk leaves

  /** The walk has thrown at an earlier child. */
  predicate ThrewBefore(t: Json, i: nat) {
    exists k :: 0 <= k < i && k < |Kids(t)| && KidThrows(t, k)
  }

  /** What the walk leaves, thrown or not: nothing is changed from the first throw on. */
  ghost function UntilThrow(enc: Encoder, v: Json): Json {
    match v
    case Arr(items) =>
      Arr(seq(|items|, i requires 0 <= i < |items| => if ThrewBefore(v, i) then items[i] else UntilThrow(enc, items[i])))
    case Obj(fields) =>
      Obj(seq(|fields|, i requires 0 <= i < |fields| =>
        if ThrewBefore(v, i) then fields[i]
        else if IsValueBuffer(fields[i]) then fields[i].(value := Str(enc(fields[i].value.bytes)))
        else fields[i].(value := UntilThrow(enc, fields[i].value))))
    case _ => v
  }

  /** What the walk leaves at a child it comes to. */
  ghost function VisitedKid(enc: Encoder, t: Json, i: nat): Json
    requires i < |Kids(t)|
  {
    if t.Obj? && IsValueBuffer(t.fields[i]) then Str(enc(t.fields[i].value.bytes)) else UntilThrow(enc, Kids(t)[i])
  }

  lemma StoppedKids(enc: Encoder, t: Json, after: Json)
    requires Container(t) && SameNode(t, after) && |Kids(after)| == |Kids(t)|
    requires forall i :: 0 <= i < |Kids(t)| ==>
      Kids(after)[i] == if ThrewBefore(t, i) then Kids(t)[i] else VisitedKid(enc, t, i)
    ensures after == UntilThrow(enc, t)
  {
    match t
    case Arr(items) =>
      assert after.items == UntilThrow(enc, t).items;
    case Obj(fields) =>
      forall i | 0 <= i < |fields|
        ensures after.fields[i] == UntilThrow(enc, t).fields[i]
      {
        assert Kids(after)[i] == after.fields[i].value;
      }
      assert after.fields == UntilThrow(enc, t).fields;
  }

  /** The children before i are visited, none of them threw, and the others are as they were. */
  ghost predicate VisitedUpTo(enc: Encoder, t: Json, now: Json, i: nat) {
    && SameNode(t, now) && |Kids(now)| == |Kids(t)| && i <= |Kids(t)|
    && (forall k :: 0 <= k < i ==> Kids(now)[k] == VisitedKid(enc, t, k) && !KidThrows(t, k))
    && (forall k :: i <= k < |Kids(t)| ==> Kids(now)[k] == Kids(t)[k])
  }

  lemma SameKidVisited(enc: Encoder, t: Json, now: Json, i: nat)
    requires Container(t) && SameNode(t, now) && i < |Kids(t)| == |Kids(now)| && Kids(now)[i] == Kids(t)[i]
    ensures VisitedKid(enc, now, i) == VisitedKid(enc, t, i) && (KidThrows(now, i) <==> KidThrows(t, i))
  {
    if t.Obj? {
      assert Kids(t)[i] == t.fields[i].value && Kids(now)[i] == now.fields[i].value;
    }
  }

  /** One more child visited; if it threw, the tree is final. */
  lemma VisitStep(enc: Encoder, t: Json, before: Json, i: nat)
    requires Container(t) && i < |Kids(t)| && VisitedUpTo(enc, t, before, i)
    ensures KidThrows(before, i) <==> KidThrows(t, i)
    ensures var after := WithKid(before, i, VisitedKid(enc, before, i));
      if KidThrows(t, i) then after == UntilThrow(enc, t) else VisitedUpTo(enc, t, after, i + 1)
  {
    SameKidVisited(enc, t, before, i);
    var after := WithKid(before, i, VisitedKid(enc, t, i));
    WithKidKids(before, i, VisitedKid(enc, t, i));
    if KidThrows(t, i) {
      forall k | 0 <= k < |Kids(t)|
        ensures Kids(after)[k] == if ThrewBefore(t, k) then Kids(t)[k] else VisitedKid(enc, t, k)
      {
        assert ThrewBefore(t, k) <==> k > i;
      }
      StoppedKids(enc, t, after);
    }
  }

  lemma AllVisited(enc: Encoder, t: Json, now: Json)
    requires Container(t) && VisitedUpTo(enc, t, now, |Kids(t)|)
    ensures !WalkThrows(t) && now == UntilThrow(enc, t) == MapBuffers(enc, t)
  {
    ThrowingKids(t);
    StoppedKids(enc, t, now);
    UntilThrowIsMap(enc, t);
  }

  /** Without a throw the walk leaves the mapped tree. */
  lemma {:induction false} UntilThrowIsMap(enc: Encoder, v: Json)
    requires !WalkThrows(v)
    ensures UntilThrow(enc, v) == MapBuffers(enc, v)
  {
    if Container(v) {
      ThrowingKids(v);
      match v
      case Arr(items) =>
        forall i | 0 <= i < |items|
          ensures UntilThrow(enc, v).items[i] == MapBuffers(enc, v).items[i]
        {
          assert !KidThrows(v, i);
          UntilThrowIsMap(enc, items[i]);
        }
        assert UntilThrow(enc, v).items == MapBuffers(enc, v).items;
      case Obj(fields) =>
        forall i | 0 <= i < |fields|
          ensures UntilThrow(enc, v).fields[i] == MapField(enc, fields[i])
        {
          assert !KidThrows(v, i) && !ThrewBefore(v, i);
          if !fields[i].value.Null? {
            assert Kids(v)[i] == fields[i].value;
            UntilThrowIsMap(enc, fields[i].value);
          }
          assert UntilThrow(enc, fields[i].value) == MapBuffers(enc, fields[i].value);
          assert UntilThrow(enc, v).fields[i].key == fields[i].key;
        }
        assert UntilThrow(enc, v).fields == MapBuffers(enc, v).fields;
    }
  }

  // ---------------------------------------------------- objects on the heap

  /** What a property or an array element holds: a leaf, or a reference to an object or array. */
  datatype Value = Leaf(leaf: Json) | Ref(node: Node)

  /** An object or array that the walk updates. `tree` is the tree it stands for, `repr` its nodes. */
  class Node {
    const isArray: bool
    const keys: seq<string>
    var values: seq<Value>
    ghost var tree: Json
    ghost var repr: set<Node>

    /** The node stands for `tree`: children lie inside its footprint, apart from one another. */
    ghost predicate Valid()
      reads this, repr
      decreases repr
      ensures Valid() ==> this in repr
    {
      && this in repr
      && Container(tree) && (tree.Arr? <==> isArray) && |Kids(tree)| == |values|
      && (tree.Obj? ==> |keys| == |values| && forall i :: 0 <= i < |keys| ==> tree.fields[i].key == keys[i])
      && (forall i :: 0 <= i < |values| && values[i].Leaf? ==> values[i].leaf == Kids(tree)[i] && !Container(values[i].leaf))
      && (forall i :: 0 <= i < |values| && values[i].Ref? ==>
            var node := values[i].node;
            node in repr && node.repr < repr && this !in node.repr && node.Valid() && node.tree == Kids(tree)[i])
      && (forall i, j :: 0 <= i < j < |values| && values[i].Ref? && values[j].Ref? ==>
            values[i].node.repr !! values[j].node.repr)
    }

    /** A node for the given tree, over its leaves and already built nodes with separate footprints. */
    constructor (isArray: bool, keys: seq<string>, values: seq<Value>, ghost tree: Json)
      requires Container(tree) && (tree.Arr? <==> isArray) && |Kids(tree)| == |values|
      requires tree.Obj? ==> |keys| == |values| && forall i :: 0 <= i < |keys| ==> tree.fields[i].key == keys[i]
      requires forall i :: 0 <= i < |values| ==>
                 if values[i].Leaf? then values[i].leaf == Kids(tree)[i] && !Container(values[i].leaf)
                 else values[i].node.Valid() && values[i].node.tree == Kids(tree)[i]
      requires forall i, j :: 0 <= i < j < |values| && values[i].Ref? && values[j].Ref? ==>
                 values[i].node.repr !! values[j].node.repr
      ensures Valid() && this.tree == tree
    {
      this.isArray, this.keys, this.values, this.tree := isArray, keys, values, tree;
      this.repr := {this} + set v <- values, n: Node | v.Ref? && n in v.node.repr :: n;
    }

    /** Reads the tree back from the heap. */
    method Read() returns (v: Json)
      requires Valid()
      ensures v == tree
      decreases repr
    {
      var kids: seq<Json> := [];
      for i := 0 to |values|
        invariant kids == Kids(tree)[..i]
      {
        var kid;
        match values[i] {
          case Leaf(leaf) => kid := leaf;
          case Ref(node) => kid := node.Read();
        }
        kids := kids + [kid];
      }
      assert kids == Kids(tree);
      if isArray {
        v := Arr(kids);
      } else {
        var names := keys;
        v := Obj(seq(|names|, i requires 0 <= i < |names| => Field(names[i], kids[i])));
        assert v.fields == tree.fields;
      }
    }

    /** `obj[key] = obj[key].toString(encoding)`. */
    method Replace(enc: Encoder, i: nat)
      requires Valid() && i < |values| && values[i].Leaf? && values[i].leaf.Buf?
      modifies this
      ensures Valid() && repr == old(repr) && |values| == old(|values|)
      ensures tree == WithKid(old(tree), i, Str(enc(old(values[i].leaf.bytes))))
    {
      var text := Str(enc(values[i].leaf.bytes));
      WithKidKids(tree, i, text);
      values := values[i := Leaf(text)];
      tree := WithKid(tree, i, text);
    }

    /** The walk on one child object or array: only that child's part of the tree changes. */
    method Descend(enc: Encoder, i: nat) returns (threw: bool)
      requires Valid() && i < |values| && values[i].Ref?
      modifies repr
      ensures Valid() && repr == old(repr) && |values| == old(|values|)
      ensures threw <==> WalkThrows(old(Kids(tree)[i]))
      ensures tree == WithKid(old(tree), i, UntilThrow(enc, old(Kids(tree)[i])))
      decreases repr, 0
    {
      var node := values[i].node;
      threw := node.Convert(enc);
      WithKidKids(tree, i, node.tree);
      tree := WithKid(tree, i, node.tree);
    }

    /** `convertFormatOfValue` on an object or array: it throws exactly when the walk meets a null that
        is not under an object key, and has then converted what came before that null and nothing after;
        otherwise every Buffer under `value` has become its text. */
    method Convert(enc: Encoder) returns (threw: bool)
      requires Valid()
      modifies repr
      ensures Valid() && repr == old(repr)
      ensures threw <==> WalkThrows(old(tree))
      ensures tree == UntilThrow(enc, old(tree))
      ensures !threw ==> tree == MapBuffers(enc, old(tree))
      decreases repr, 2
    {
      ghost var t := tree;
      ThrowingKids(t);
      for i := 0 to |values|
        invariant Valid() && repr == old(repr) && |values| == |Kids(t)|
        invariant VisitedUpTo(enc, t, tree, i)
      {
        ghost var before := tree;
        threw := Visit(enc, i);
        VisitStep(enc, t, before, i);
        if threw {
          return;
        }
      }
      AllVisited(enc, t, tree);
      threw := false;
    }

    /** One turn of the loop over elements or keys. */
    method Visit(enc: Encoder, i: nat) returns (threw: bool)
      requires Valid() && i < |values|
      modifies repr
      ensures Valid() && repr == old(repr) && |values| == old(|values|)
      ensures threw <==> KidThrows(old(tree), i)
      ensures tree == WithKid(old(tree), i, VisitedKid(enc, old(tree), i))
      ensures SameNode(old(tree), tree)
      decreases repr, 1
    {
      match values[i] {
        case Leaf(leaf) =>
          if !isArray && keys[i] == "value" && leaf.Buf? {
            WithKidKids(tree, i, Str(enc(leaf.bytes)));
            Replace(enc, i);
            threw := false;
          } else {
            LeafKid(enc, tree, i);
            threw := isArray && leaf.Null?;
          }
        case Ref(_) =>
          threw := Descend(enc, i);
      }
    }
  }

  /** A leaf that is not a Buffer under `value` stays as it is. */
  lemma LeafKid(enc: Encoder, t: Json, i: nat)
    requires Container(t) && i < |Kids(t)| && !Container(Kids(t)[i]) && !(t.Obj? && IsValueBuffer(t.fields[i]))
    ensures WithKid(t, i, VisitedKid(enc, t, i)) == t
    ensures WalkThrows(Kids(t)[i]) <==> Kids(t)[i].Null?
  {
  }
}
