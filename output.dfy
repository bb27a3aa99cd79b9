/**
 How one leaf becomes one output line: `<path>: <rendered leaf>`. Null and
 booleans render as the keywords `null`, `true` and `false`; a number renders
 through its `Display` implementation and a string through Rust's `Debug`
 quoting. Those two renderings belong to libraries outside the iterator, so
 they are parameters here: every property of the model holds for any choice.
 */
module Output {
  import opened JsonValue

  /** The two library renderings: `Display` of a number, `Debug` of a string. */
  datatype Render = Render(number: Num -> string, debugString: string -> string)

  /** The text after `": "` on the line of a leaf. */
  function RenderLeaf(render: Render, leaf: Leaf): string {
    match leaf
    case NullLeaf => "null"
    case BoolLeaf(b) => if b then "true" else "false"
    case NumberLeaf(n) => render.number(n)
    case StringLeaf(s) => render.debugString(s)
  }

  /** The output line of a leaf found at `path`. */
  function Line(render: Render, path: string, leaf: Leaf): string {
    path + ": " + RenderLeaf(render, leaf)
  }

  /** The output lines of a sequence of `(path, leaf)` pairs, one line per pair, in order. */
  function Lines(render: Render, pairs: seq<(string, Leaf)>): (r: seq<string>)
    ensures |r| == |pairs|
  {
    if pairs == [] then [] else [Line(render, pairs[0].0, pairs[0].1)] + Lines(render, pairs[1..])
  }

  /** Line `k` is the line of pair `k`. */
  lemma {:induction false} LineAt(render: Render, pairs: seq<(string, Leaf)>, k: nat)
    requires k < |pairs|
    ensures Lines(render, pairs)[k] == Line(render, pairs[k].0, pairs[k].1)
  {
    assert Lines(render, pairs) == [Line(render, pairs[0].0, pairs[0].1)] + Lines(render, pairs[1..]);
    if k > 0 {
      LineAt(render, pairs[1..], k - 1);
      assert pairs[1..][k - 1] == pairs[k];
    }
  }

  /** One more pair adds its line at the end. */
  lemma {:induction false} LinesSnoc(render: Render, pairs: seq<(string, Leaf)>, pair: (string, Leaf))
    ensures Lines(render, pairs + [pair]) == Lines(render, pairs) + [Line(render, pair.0, pair.1)]
  {
    var last := [Line(render, pair.0, pair.1)];
    if pairs == [] {
      assert pairs + [pair] == [pair];
      assert Lines(render, [pair]) == last + Lines(render, []);
    } else {
      var s := pairs + [pair];
      var head := [Line(render, pairs[0].0, pairs[0].1)];
      assert s[0] == pairs[0] && s[1..] == pairs[1..] + [pair];
      LinesSnoc(render, pairs[1..], pair);
      assert Lines(render, s) == head + (Lines(render, pairs[1..]) + last);
      assert Lines(render, pairs) == head + Lines(render, pairs[1..]);
    }
  }

  /** The lines of two runs of pairs, one after the other. */
  lemma {:induction false} LinesConcat(render: Render, a: seq<(string, Leaf)>, b: seq<(string, Leaf)>)
    ensures Lines(render, a + b) == Lines(render, a) + Lines(render, b)
    decreases |b|
  {
    if b == [] {
      assert a + b == a;
    } else {
      var init, x := b[..|b| - 1], b[|b| - 1];
      assert b == init + [x];
      assert a + b == (a + init) + [x];
      LinesConcat(render, a, init);
      LinesSnoc(render, a + init, x);
      LinesSnoc(render, init, x);
      var la, li, lx := Lines(render, a), Lines(render, init), [Line(render, x.0, x.1)];
      assert (la + li) + lx == la + (li + lx);
    }
  }

  /** When every path extends `p`, so does every line. */
  lemma LinesExtendPaths(render: Render, pairs: seq<(string, Leaf)>, p: string)
    requires forall k :: 0 <= k < |pairs| ==> p <= pairs[k].0
    ensures forall k :: 0 <= k < |pairs| ==> p <= Lines(render, pairs)[k]
  {
    var r := Lines(render, pairs);
    forall k | 0 <= k < |pairs|
      ensures p <= r[k]
    {
      LineAt(render, pairs, k);
      var q := pairs[k].0;
      assert r[k][..|q|] == q;
      assert r[k][..|p|] == q[..|p|];
    }
  }
}
