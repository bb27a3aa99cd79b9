/**
 The lazy flattening iterator: a stack of `(path, subtree)` work items that
 `Next` pops until it meets a leaf, expanding each container it pops into its
 children, pushed in reverse so that they come off the stack in forward order.
 */
module FlatIterator {
  import opened JsonValue
  import opened Output
  import opened Flattening

  datatype Option<T> = None | Some(value: T)

  class FlatValueIterator {
    /** The pending work items; the top of the stack is the last element. */
    var stack: seq<Entry>
    /** The renderings of numbers and strings used on the output lines. */
    const render: Render

    /** The pairs still to be produced, in the order they will be produced. */
    ghost function Pending(): seq<Pair>
      reads this
    {
      FlattenStack(stack)
    }

    /** A fresh iterator holds the single work item `("$", root)`, so it is about
        to produce the whole flattening of the root. */
    constructor (root: Json, render: Render)
      ensures stack == [("$", root)] && this.render == render
      ensures Pending() == Flatten("$", root)
    {
      stack := [("$", root)];
      this.render := render;
      new;
      assert Pending() == Flatten("$", root) + FlattenStack([]);
    }

    /** Produces the line of the next pending leaf and removes that leaf from the
        pending pairs, or reports exhaustion. Exhaustion leaves the stack empty,
        so every later call reports it again. */
    method Next() returns (line: Option<string>)
      modifies this
      ensures line.None? <==> old(Pending()) == []
      ensures line.None? ==> stack == []
      ensures line.Some? ==>
                && line.value == Line(render, old(Pending())[0].0, old(Pending())[0].1)
                && Pending() == old(Pending())[1..]
    {
      while stack != []
        invariant Pending() == old(Pending())
        decreases StackSize(stack)
      {
        ghost var before := stack;
        var (parent, value) := stack[|stack| - 1];
        stack := stack[..|stack| - 1];
        ghost var rest := stack;
        assert before == rest + [(parent, value)];
        match value
        case Null =>
          PopLeaf(rest, parent, value);
          return Some(parent + ": null");
        case Bool(b) =>
          PopLeaf(rest, parent, value);
          return Some(parent + ": " + (if b then "true" else "false"));
        case Number(n) =>
          PopLeaf(rest, parent, value);
          return Some(parent + ": " + render.number(n));
        case String(s) =>
          PopLeaf(rest, parent, value);
          return Some(parent + ": " + render.debugString(s));
        case Array(values) =>
          var index := |values|;
          while index > 0
            invariant 0 <= index <= |values|
            invariant stack == rest + Reversed(Children(parent, value)[index..])
          {
            index := index - 1;
            PushNext(rest, parent, value, index);
            stack := stack + [(IndexPath(parent, index), values[index])];
          }
          ExpandContainer(rest, parent, value);
        case Object(members) =>
          var index := |members|;
          while index > 0
            invariant 0 <= index <= |members|
            invariant stack == rest + Reversed(Children(parent, value)[index..])
          {
            index := index - 1;
            PushNext(rest, parent, value, index);
            var (name, child) := members[index];
            stack := stack + [(KeyPath(parent, name), child)];
          }
          ExpandContainer(rest, parent, value);
      }
      return None;
    }
  }

  /** Pulls every line out of a fresh iterator over `root`, as a `for` loop over
      the iterator does, and then asks once more. The lines are exactly the
      recursive flattening of the root rendered in order, one per leaf, each
      beginning with `$`; the extra request after exhaustion yields nothing. */
  method Drain(root: Json, render: Render) returns (lines: seq<string>, again: Option<string>)
    ensures lines == Lines(render, Flatten("$", root))
    ensures again == None
    ensures |lines| == LeafCount(root)
    ensures forall k :: 0 <= k < |lines| ==> "$" <= lines[k]
  {
    var it := new FlatValueIterator(root, render);
    ghost var all := Flatten("$", root);
    lines := [];
    while true
      invariant it.render == render
      invariant |lines| <= |all| && it.Pending() == all[|lines|..]
      invariant lines == Lines(render, all[..|lines|])
      decreases |it.Pending()|
    {
      var line := it.Next();
      if line.None? {
        break;
      }
      LinesSnoc(render, all[..|lines|], all[|lines|]);
      assert all[..|lines| + 1] == all[..|lines|] + [all[|lines|]];
      lines := lines + [line.value];
    }
    assert all[..|lines|] == all;
    again := it.Next();
    FlattenLength("$", root);
    FlattenPathsExtend("$", root);
    LinesExtendPaths(render, all, "$");
  }

  /** The lines of an array with one more element: the earlier elements' lines,
      then the new element's lines under its forward index. */
  lemma ArrayAppendLines(render: Render, p: string, xs: seq<Json>, x: Json)
    ensures Lines(render, Flatten(p, Array(xs + [x])))
            == Lines(render, Flatten(p, Array(xs))) + Lines(render, Flatten(IndexPath(p, |xs|), x))
  {
    ArrayAppend(p, xs, x);
    LinesConcat(render, Flatten(p, Array(xs)), Flatten(IndexPath(p, |xs|), x));
  }

  /** The lines of an object with one more member: the earlier members' lines,
      then the new member's lines under its key. */
  lemma ObjectAppendLines(render: Render, p: string, es: seq<(string, Json)>, k: string, x: Json)
    ensures Lines(render, Flatten(p, Object(es + [(k, x)])))
            == Lines(render, Flatten(p, Object(es))) + Lines(render, Flatten(KeyPath(p, k), x))
  {
    ObjectAppend(p, es, k, x);
    LinesConcat(render, Flatten(p, Object(es)), Flatten(KeyPath(p, k), x));
  }
}
