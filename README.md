# fj: the flattening JSON iterator, modelled and verified in Dafny

`fj` prints a JSON document as flat lines, one per leaf:

```
$.array[0]: 1
$.object.foo: "bar"
```

The work is done by `FlatValueIterator` (src/main.rs:37-75). It keeps a stack of
`(path, subtree)` work items, seeded with `("$", root)`. Each call to `next` pops
items until it meets a leaf, and returns that leaf's line. A container it pops is
replaced by its children, pushed in reverse so that they come off in forward order.
An array child `i` gets the path `<path>[i]` and an object member `k` gets
`<path>.<k>`. When the stack is empty, `next` returns `None`.

The model has six modules:

- `JsonValue` (value.dfy): the value tree in the shape of serde_json's `Value`.
  Objects are a sequence of members, so that insertion order is part of the value.
  It also defines leaf counts and tree sizes.
- `Decimal` (decimal.dfy): the decimal rendering of array indices, with its parse
  round trip.
- `Output` (output.dfy): how one `(path, leaf)` pair becomes one line. The
  renderings of numbers (`Display`) and of strings (`{:?}` `Debug`) are the two
  fields of a `Render` parameter, so every result holds for any rendering.
- `Flattening` (flattening.dfy): the reference semantics. `Flatten` is recursive
  pre-order flattening. Around it are the lemmas that read the same flattening off
  a stack of work items.
- `FlatIterator` (iterator.dfy): the iterator as a class. It has a `seq` stack
  field, a constructor and an imperative `Next` with the source's nested loops.
  `Drain` pulls every line out of a fresh iterator.
- `Scenarios` (scenarios.dfy): the repository's unit tests, stated on the model.

The central invariant is the ghost function `Pending()`: the flattening of the
stack, read from top to bottom. `Next` returns the line of the first pending pair
and removes it. Its outer loop keeps `Pending()` unchanged, and the total size of
the subtrees on the stack strictly decreases on each of its iterations.

## Model

| member | source | states |
|---|---|---|
| FlatIterator.FlatValueIterator.constructor | src/main.rs:42-46 | A fresh iterator's stack is exactly `[("$", root)]`, so its pending pairs are the whole flattening of the root. |
| FlatIterator.FlatValueIterator.Next | src/main.rs:52-74 | It returns `None` exactly when nothing is pending, and the stack is then empty. Otherwise it returns the line of the first pending pair, and the pending pairs lose exactly that pair. The loop terminates because the total subtree size on the stack decreases. |
| FlatIterator.Drain | src/main.rs:95-108 | Draining a fresh iterator yields exactly the rendered recursive flattening of the root. There is one line per leaf, and every line begins with `$`. A further call after exhaustion returns `None` again. |
| Flattening.Flatten | src/main.rs:53-70 | The reference semantics: recursive pre-order flattening into `(path, leaf)` pairs, array elements in index order and object members in insertion order. Its properties are stated by `FlattenLength`, `ArrayAppend`, `ObjectAppend` and `FlattenPathsExtend`. |
| Flattening.IndexPath | src/main.rs:61 | No contract: it is the format string `{}[{}]`, the parent path, `[`, the decimal index and `]`. |
| Flattening.KeyPath | src/main.rs:67 | No contract: it is the format string `{}.{}`, the parent path, `.` and the key, unescaped. |
| Output.RenderLeaf | src/main.rs:55-58 | No contract: the text after `": "` is `null`, `true` or `false`, the number's `Display` or the string's `Debug` rendering. |
| Output.Line | src/main.rs:55-58 | No contract: it is the format string `{}: {}`, the path, `": "` and the leaf's rendering. |
| Flattening.FlattenLength | src/main.rs:53-70 | The flattening has one pair per leaf, so an empty array or object contributes no pair. |
| Flattening.FlattenContainer | src/main.rs:59-70 | A container flattens to the flattening of its children's work items, in forward order. It is one node larger than those children together. |
| Flattening.PushReversed | src/main.rs:60-69 | Pushing work items in reverse onto a stack puts their flattening, in forward order, before the rest of the stack's. |
| Flattening.PopLeaf | src/main.rs:53-58 | A leaf on top of the stack is the first pending pair, and popping it leaves the rest. |
| Flattening.PushNext | src/main.rs:60-62 | One step of the reverse push loop: pushing child `i` extends the reversed suffix of the children from `i + 1` to the reversed suffix from `i`. |
| Flattening.ExpandContainer | src/main.rs:59-70 | Replacing a popped container by its reversed children keeps the stack's flattening and strictly lowers its total size. |
| Flattening.FlattenItemsAppend | src/main.rs:60-69 | Flattening a list of work items with one more item at the end adds that item's flattening at the end. |
| Flattening.ArrayAppend | src/main.rs:59-63 | A new last array element contributes its leaves after those of the earlier elements, under the forward index `p[|xs|]`. |
| Flattening.ObjectAppend | src/main.rs:65-69 | A newly inserted object member contributes its leaves after those of the members inserted before it, under `p.k`. |
| Flattening.FlattenPathsExtend | src/main.rs:44 | Every path in the flattening of `v` at `p` extends `p`, because paths grow only by appending. |
| Flattening.IndexPathInjective | src/main.rs:61 | Sibling array elements get distinct paths. |
| Decimal.NatToString | src/main.rs:61 | An index renders as a non-empty string of decimal digits, with a leading `0` only for zero itself. |
| Decimal.DecimalRoundTrip | src/main.rs:61 | Reading the rendered digits of an index back gives the index. |
| Decimal.NatToStringInjective | src/main.rs:61 | Distinct indices render as distinct text. |
| Output.Lines | src/main.rs:55-58 | There is one line per pair. |
| Output.LineAt | src/main.rs:55-58 | Line `k` is `<path>: <rendering>` for pair `k`. |
| Output.LinesSnoc | src/main.rs:55-58 | One more pair adds its line at the end. |
| Output.LinesConcat | src/main.rs:55-58 | The lines of two runs of pairs are the two runs' lines, one after the other. |
| FlatIterator.ArrayAppendLines | src/main.rs:59-63 | A new last array element's lines follow those of the earlier elements, under its forward index. |
| FlatIterator.ObjectAppendLines | src/main.rs:65-69 | A newly inserted member's lines follow those of the members inserted before it, under its key. |
| Output.LinesExtendPaths | src/main.rs:55-58 | When every path extends `p`, every line extends `p`. |
| Scenarios.LeafRoot | src/main.rs:112-141 | Any leaf root gives exactly the single line `$: <rendering>`. |
| Scenarios.NullRoot | src/main.rs:112-117 | `null` gives `$: null`. |
| Scenarios.BoolRoot | src/main.rs:120-125 | `true` gives `$: true`. |
| Scenarios.NumberRoot | src/main.rs:128-133 | `42` gives `$: 42` when the number renders as `42`. |
| Scenarios.StringRoot | src/main.rs:136-141 | `"Hello, world!"` gives `$: "Hello, world!"` when the string renders quoted. |
| Scenarios.FlatObject | src/main.rs:144-153 | `{"foo": "bar", "answer": 42}` gives `$.foo` and then `$.answer`. |
| Scenarios.NestedObject | src/main.rs:156-171 | The nested object gives `$.foo`, `$.answer`, `$.object.foo` and `$.object.answer`, in that order. |
| Scenarios.FlatArray | src/main.rs:174-181 | `[1, 2, 3]` gives `$[0]`, `$[1]` and `$[2]`, in ascending index order. |
| Scenarios.NestedArray | src/main.rs:184-194 | `[1, 2, 3, [4, 5, 6]]` gives `$[0]` to `$[2]`, then `$[3][0]` to `$[3][2]`. |
| Scenarios.FullDocument | src/main.rs:82-109 | The full document gives its nine leaves: the members in insertion order, with their array and object children inline. |
| Scenarios.EmptyContainers | src/main.rs:59-70 | An empty array or object at the root gives no line at all. |

## Left out

- `main` and `Args` (src/main.rs:10-35) are left out. They parse the command line, open stdin or a file, and print the lines.
- Parsing JSON with `serde_json::from_reader` (src/main.rs:19) is a foreign library call. The model starts from a built value.
- The `Display` rendering of a `serde_json::Number` and the `{:?}` `Debug` quoting of a string (src/main.rs:57-58) are library code. They are the fields of the `Render` parameter. The scenario lemmas for a number or string root assume only the renderings their test expects.
- Numbers are not limited to serde_json's 64-bit integer ranges, and floats are reals. Only a number's rendering reaches the output.
- Array indices are unbounded naturals, with no `usize` limit.
- Object member order is the insertion order. The tests expect this order, which serde_json provides with its order-preserving map. The crate's manifest is not part of this model.
- Duplicate keys are not excluded from an object value. Nothing in the model depends on keys being unique.
- Path uniqueness is not claimed. Keys are appended unescaped (src/main.rs:67), so `{"a.b": 1, "a": {"b": 2}}` yields `$.a.b` twice. Only sibling array indices are proved distinct.
- Lifetimes and borrowing (`'a`, src/main.rs:37) are left out. The stack holds values, not references.
- Scenarios.FlatObject: stated on the `(path, leaf)` pairs, not on the literal line text; each line is `Line(render, path, leaf)` by `FlatIterator.Drain` and `Output.LineAt`.
- Scenarios.NestedObject: stated on the `(path, leaf)` pairs, not on the literal line text; each line is `Line(render, path, leaf)` by `FlatIterator.Drain` and `Output.LineAt`.
- Scenarios.FlatArray: stated on the `(path, leaf)` pairs, not on the literal line text; each line is `Line(render, path, leaf)` by `FlatIterator.Drain` and `Output.LineAt`.
- Scenarios.NestedArray: stated on the `(path, leaf)` pairs, not on the literal line text; each line is `Line(render, path, leaf)` by `FlatIterator.Drain` and `Output.LineAt`.
- Scenarios.FullDocument: stated on the `(path, leaf)` pairs, not on the literal line text; each line is `Line(render, path, leaf)` by `FlatIterator.Drain` and `Output.LineAt`.
