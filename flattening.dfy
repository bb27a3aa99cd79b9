/**
 The reference semantics of the iterator: recursive pre-order flattening of a
 JSON tree into `(path, leaf)` pairs, and the same flattening read off a stack
 of pending work items, which is what the iterator keeps between calls.
 */
module Flattening {
  import opened JsonValue
  import opened Decimal

  /** A work item: the path so far and the subtree found there. */
  type Entry = (string, Json)

  /** An emitted pair: the path of a leaf and the leaf. */
  type Pair = (string, Leaf)

  /** The path of element `i` of an array at path `p`: `p[i]`. */
  function IndexPath(p: string, i: nat): string {
    p + "[" + NatToString(i) + "]"
  }

  /** The path of member `k` of an object at path `p`: `p.k`, with the key unescaped. */
  function KeyPath(p: string, k: string): string {
    p + "." + k
  }

  /** The leaves of `v`, found at path `p`, in document order: a leaf is itself;
      an array contributes its elements in index order, an object its members
      in insertion order. */
  function Flatten(p: string, v: Json): seq<Pair>
    decreases v, 1
  {
    if IsLeaf(v) then [(p, AsLeaf(v))] else FlattenKids(p, v, 0)
  }

  /** The flattening of the children of container `v` from index `i` on. */
  function FlattenKids(p: string, v: Json, i: nat): seq<Pair>
    requires !IsLeaf(v)
    decreases v, 0, Arity(v) - i
  {
    if i >= Arity(v) then []
    else
      (if v.Array? then Flatten(IndexPath(p, i), v.elems[i])
       else Flatten(KeyPath(p, v.entries[i].0), v.entries[i].1))
      + FlattenKids(p, v, i + 1)
  }

  /** There is one pair per leaf of the tree: an empty container contributes none. */
  lemma {:induction false} FlattenLength(p: string, v: Json)
    ensures |Flatten(p, v)| == LeafCount(v)
    decreases v, 1
  {
    if !IsLeaf(v) {
      KidsLength(p, v, 0);
    }
  }

  lemma {:induction false} KidsLength(p: string, v: Json, i: nat)
    requires !IsLeaf(v)
    ensures |FlattenKids(p, v, i)| == KidsLeafCount(v, i)
    decreases v, 0, Arity(v) - i
  {
    if i < Arity(v) {
      if v.Array? {
        FlattenLength(IndexPath(p, i), v.elems[i]);
      } else {
        FlattenLength(KeyPath(p, v.entries[i].0), v.entries[i].1);
      }
      KidsLength(p, v, i + 1);
    }
  }

  /** The work item for child `i` of container `v` at path `p`. */
  function WorkItem(p: string, v: Json, i: nat): Entry
    requires !IsLeaf(v) && i < Arity(v)
  {
    if v.Array? then (IndexPath(p, i), v.elems[i]) else (KeyPath(p, v.entries[i].0), v.entries[i].1)
  }

  /** The work items of the children of container `v` at path `p`, in forward order. */
  function Children(p: string, v: Json): (r: seq<Entry>)
    requires !IsLeaf(v)
  {
    seq(Arity(v), i requires 0 <= i < Arity(v) => WorkItem(p, v, i))
  }

  /** The flattening of a list of work items, first item first. */
  function FlattenItems(items: seq<Entry>): seq<Pair> {
    if items == [] then [] else Flatten(items[0].0, items[0].1) + FlattenItems(items[1..])
  }

  /** The flattening of a stack of work items whose top is its last element: the
      top item first, then the rest of the stack. */
  function FlattenStack(stack: seq<Entry>): seq<Pair> {
    if stack == [] then []
    else Flatten(stack[|stack| - 1].0, stack[|stack| - 1].1) + FlattenStack(stack[..|stack| - 1])
  }

  /** The total size of the subtrees in a list of work items. */
  function ItemsSize(items: seq<Entry>): nat {
    if items == [] then 0 else Size(items[0].1) + ItemsSize(items[1..])
  }

  /** The total size of the subtrees on a stack of work items. */
  function StackSize(stack: seq<Entry>): nat {
    if stack == [] then 0 else Size(stack[|stack| - 1].1) + StackSize(stack[..|stack| - 1])
  }

  function Reversed<T>(s: seq<T>): seq<T> {
    if s == [] then [] else Reversed(s[1..]) + [s[0]]
  }

  /** Flattening the children one by one is flattening their work items in order. */
  lemma {:induction false} FlattenKidsAsItems(p: string, v: Json, i: nat)
    requires !IsLeaf(v) && i <= Arity(v)
    ensures FlattenKids(p, v, i) == FlattenItems(Children(p, v)[i..])
    ensures KidsSize(v, i) == ItemsSize(Children(p, v)[i..])
    decreases Arity(v) - i
  {
    var items := Children(p, v)[i..];
    if i < Arity(v) {
      FlattenKidsAsItems(p, v, i + 1);
      assert items[1..] == Children(p, v)[i + 1..];
    } else {
      assert items == [];
    }
  }

  /** A container flattens to the flattening of its children's work items, and is
      one node larger than they are together. */
  lemma FlattenContainer(p: string, v: Json)
    requires !IsLeaf(v)
    ensures Flatten(p, v) == FlattenItems(Children(p, v))
    ensures Size(v) == 1 + ItemsSize(Children(p, v))
  {
    FlattenKidsAsItems(p, v, 0);
    assert Children(p, v)[0..] == Children(p, v);
  }

  /** Pushing work items in reverse order onto a stack puts their flattening, in
      forward order, in front of the stack's. */
  lemma {:induction false} PushReversed(rest: seq<Entry>, items: seq<Entry>)
    ensures FlattenStack(rest + Reversed(items)) == FlattenItems(items) + FlattenStack(rest)
    ensures StackSize(rest + Reversed(items)) == ItemsSize(items) + StackSize(rest)
  {
    if items == [] {
      assert rest + Reversed(items) == rest;
    } else {
      var s := rest + Reversed(items);
      PushReversed(rest, items[1..]);
      assert s == (rest + Reversed(items[1..])) + [items[0]];
      assert s[..|s| - 1] == rest + Reversed(items[1..]);
    }
  }

  /** A leaf on top of a stack is the first pair of the stack's flattening. */
  lemma PopLeaf(rest: seq<Entry>, p: string, v: Json)
    requires IsLeaf(v)
    ensures FlattenStack(rest + [(p, v)]) == [(p, AsLeaf(v))] + FlattenStack(rest)
  {
    var s := rest + [(p, v)];
    assert s[..|s| - 1] == rest;
  }

  /** Pushing the work item of child `i` onto a stack holding the work items of
      the children after it, in reverse, gives the stack holding those of child
      `i` on, in reverse. */
  lemma PushNext(rest: seq<Entry>, p: string, v: Json, i: nat)
    requires !IsLeaf(v) && i < Arity(v)
    ensures rest + Reversed(Children(p, v)[i + 1..]) + [WorkItem(p, v, i)]
            == rest + Reversed(Children(p, v)[i..])
  {
    var c := Children(p, v)[i..];
    assert c[1..] == Children(p, v)[i + 1..];
  }

  /** Replacing the container on top of a stack by its children, pushed in
      reverse, keeps the flattening of the stack and shrinks its size. */
  lemma ExpandContainer(rest: seq<Entry>, p: string, v: Json)
    requires !IsLeaf(v)
    ensures FlattenStack(rest + Reversed(Children(p, v))) == FlattenStack(rest + [(p, v)])
    ensures StackSize(rest + Reversed(Children(p, v))) < StackSize(rest + [(p, v)])
  {
    PushReversed(rest, Children(p, v));
    FlattenContainer(p, v);
    var s := rest + [(p, v)];
    assert s[..|s| - 1] == rest;
  }

  /** Flattening a list of work items with one more item at the end appends that
      item's flattening. */
  lemma {:induction false} FlattenItemsAppend(items: seq<Entry>, e: Entry)
    ensures FlattenItems(items + [e]) == FlattenItems(items) + Flatten(e.0, e.1)
  {
    var s := items + [e];
    if items == [] {
      assert s == [e] && s[1..] == [];
    } else {
      FlattenItemsAppend(items[1..], e);
      assert s[0] == items[0] && s[1..] == items[1..] + [e];
      var head := Flatten(items[0].0, items[0].1);
      assert FlattenItems(s) == head + (FlattenItems(items[1..]) + Flatten(e.0, e.1));
      assert FlattenItems(items) == head + FlattenItems(items[1..]);
    }
  }

  /** Appending an element to an array appends that element's leaves, at the
      element's forward index, after those of the elements before it. */
  lemma ArrayAppend(p: string, xs: seq<Json>, x: Json)
    ensures Flatten(p, Array(xs + [x])) == Flatten(p, Array(xs)) + Flatten(IndexPath(p, |xs|), x)
  {
    FlattenContainer(p, Array(xs + [x]));
    FlattenContainer(p, Array(xs));
    assert Children(p, Array(xs + [x])) == Children(p, Array(xs)) + [(IndexPath(p, |xs|), x)];
    FlattenItemsAppend(Children(p, Array(xs)), (IndexPath(p, |xs|), x));
  }

  /** Appending a member to an object appends that member's leaves, under its
      key, after those of the members inserted before it. */
  lemma ObjectAppend(p: string, es: seq<(string, Json)>, k: string, x: Json)
    ensures Flatten(p, Object(es + [(k, x)])) == Flatten(p, Object(es)) + Flatten(KeyPath(p, k), x)
  {
    FlattenContainer(p, Object(es + [(k, x)]));
    FlattenContainer(p, Object(es));
    assert Children(p, Object(es + [(k, x)])) == Children(p, Object(es)) + [(KeyPath(p, k), x)];
    FlattenItemsAppend(Children(p, Object(es)), (KeyPath(p, k), x));
  }

  /** Every path in the flattening of `v` at `p` extends `p`: paths only grow by
      appending `[i]` or `.k`. */
  lemma {:induction false} FlattenPathsExtend(p: string, v: Json)
    ensures forall k :: 0 <= k < |Flatten(p, v)| ==> p <= Flatten(p, v)[k].0
    decreases v, 1
  {
    if !IsLeaf(v) {
      KidsPathsExtend(p, v, 0);
    }
  }

  lemma {:induction false} KidsPathsExtend(p: string, v: Json, i: nat)
    requires !IsLeaf(v)
    ensures forall k :: 0 <= k < |FlattenKids(p, v, i)| ==> p <= FlattenKids(p, v, i)[k].0
    decreases v, 0, Arity(v) - i
  {
    if i < Arity(v) {
      var q, c := WorkItem(p, v, i).0, WorkItem(p, v, i).1;
      if v.Array? {
        FlattenPathsExtend(q, v.elems[i]);
      } else {
        FlattenPathsExtend(q, v.entries[i].1);
      }
      KidsPathsExtend(p, v, i + 1);
      var head, tail := Flatten(q, c), FlattenKids(p, v, i + 1);
      var all: seq<Pair> := head + tail;
      assert FlattenKids(p, v, i) == all;
      forall k | 0 <= k < |all|
        ensures p <= all[k].0
      {
        if k < |head| {
          PrefixTransitive(p, q, head[k].0);
        } else {
          assert all[k] == tail[k - |head|];
        }
      }
    }
  }

  lemma PrefixTransitive(a: string, b: string, c: string)
    requires a <= b && b <= c
    ensures a <= c
  {
    assert c[..|a|] == c[..|b|][..|a|];
  }

  /** Sibling array elements get distinct paths. */
  lemma IndexPathInjective(p: string, i: nat, j: nat)
    requires IndexPath(p, i) == IndexPath(p, j)
    ensures i == j
  {
    var a, b := IndexPath(p, i), IndexPath(p, j);
    assert NatToString(i) == a[|p| + 1..|a| - 1];
    assert NatToString(j) == b[|p| + 1..|b| - 1];
    NatToStringInjective(i, j);
  }
}
