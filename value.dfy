/**
 The JSON value tree that the flattening iterator walks, in the shape of
 serde_json's `Value`: four leaf variants and two containers. Object members
 are kept as a sequence so that their insertion order is part of the value.
 */
module JsonValue {

  /** A JSON number as serde_json stores it: a non-negative integer, a negative
      integer or a floating-point value. The 64-bit ranges and the IEEE-754
      nature of the float are not modelled; only the rendering of a number
      matters to the iterator, and that rendering is a parameter (see Render). */
  datatype Num =
    | PosInt(u: nat)
    | NegInt(i: int) // the sign is not constrained: serde_json keeps this one negative
    | Float(x: real)

  datatype Json =
    | Null
    | Bool(b: bool)
    | Number(n: Num)
    | String(s: string)
    | Array(elems: seq<Json>)
    | Object(entries: seq<(string, Json)>)

  /** Null, booleans, numbers and strings are leaves; arrays and objects are containers. */
  predicate IsLeaf(v: Json) {
    !v.Array? && !v.Object?
  }

  /** The four kinds of leaf, as they appear on an output line. */
  datatype Leaf = NullLeaf | BoolLeaf(b: bool) | NumberLeaf(n: Num) | StringLeaf(s: string)

  function AsLeaf(v: Json): Leaf
    requires IsLeaf(v)
  {
    match v
    case Null => NullLeaf
    case Bool(b) => BoolLeaf(b)
    case Number(n) => NumberLeaf(n)
    case String(s) => StringLeaf(s)
  }

  /** The number of children of a container (zero for a leaf). */
  function Arity(v: Json): nat {
    match v
    case Array(xs) => |xs|
    case Object(es) => |es|
    case _ => 0
  }

  /** The number of leaves in the tree: the number of lines the iterator must produce.
      An empty container contributes none. */
  function LeafCount(v: Json): nat
    decreases v, 1
  {
    if IsLeaf(v) then 1 else KidsLeafCount(v, 0)
  }

  /** The leaves in the children of container `v` from index `i` on. */
  function KidsLeafCount(v: Json, i: nat): nat
    requires !IsLeaf(v)
    decreases v, 0, Arity(v) - i
  {
    if i >= Arity(v) then 0
    else LeafCount(if v.Array? then v.elems[i] else v.entries[i].1) + KidsLeafCount(v, i + 1)
  }

  /** The number of nodes in the tree, containers included. The total size of the
      subtrees on the iterator's stack is what its loop decreases. */
  function Size(v: Json): nat
    decreases v, 1
  {
    if IsLeaf(v) then 1 else 1 + KidsSize(v, 0)
  }

  /** The nodes in the children of container `v` from index `i` on. */
  function KidsSize(v: Json, i: nat): nat
    requires !IsLeaf(v)
    decreases v, 0, Arity(v) - i
  {
    if i >= Arity(v) then 0
    else Size(if v.Array? then v.elems[i] else v.entries[i].1) + KidsSize(v, i + 1)
  }
}
