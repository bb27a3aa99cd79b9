/**
 The repository's unit tests, restated as facts about the model. Draining a
 fresh iterator yields `Lines(render, Flatten("$", root))` (FlatIterator.Drain),
 so each test is stated on `Flatten`: the `(path, leaf)` pairs in the order the
 test expects their lines. The tests on a leaf root are stated on the line text
 itself, assuming only what the library renderings give for that leaf.
 */
module Scenarios {
  import opened JsonValue
  import opened Decimal
  import opened Output
  import opened Flattening

  function Int(n: nat): Json {
    Number(PosInt(n))
  }

  function IntLeaf(n: nat): Leaf {
    NumberLeaf(PosInt(n))
  }

  /** The object `{"foo": "bar", "answer": 42}` that several tests use. */
  function FooAnswer(): Json {
    Object([("foo", String("bar")), ("answer", Int(42))])
  }

  /** Any leaf at the root gives exactly one line, `$: ` and the leaf's rendering. */
  lemma LeafRoot(render: Render, v: Json)
    requires IsLeaf(v)
    ensures Lines(render, Flatten("$", v)) == ["$: " + RenderLeaf(render, AsLeaf(v))]
  {
    assert Flatten("$", v) == [("$", AsLeaf(v))];
    assert "$" + ": " == "$: ";
  }

  /** `test_flat_value_iterator_null`. */
  lemma NullRoot(render: Render)
    ensures Lines(render, Flatten("$", Null)) == ["$: null"]
  {
    assert Flatten("$", Null) == [("$", NullLeaf)];
    assert Line(render, "$", NullLeaf) == "$: null";
  }

  /** `test_flat_value_iterator_bool`. */
  lemma BoolRoot(render: Render)
    ensures Lines(render, Flatten("$", Bool(true))) == ["$: true"]
  {
    assert Flatten("$", Bool(true)) == [("$", BoolLeaf(true))];
    assert Line(render, "$", BoolLeaf(true)) == "$: true";
  }

  /** `test_flat_value_iterator_number`. */
  lemma NumberRoot(render: Render)
    requires render.number(PosInt(42)) == "42"
    ensures Lines(render, Flatten("$", Int(42))) == ["$: 42"]
  {
    assert Flatten("$", Int(42)) == [("$", IntLeaf(42))];
    assert Line(render, "$", IntLeaf(42)) == "$: 42";
  }

  /** `test_flat_value_iterator_string`. */
  lemma StringRoot(render: Render)
    requires render.debugString("Hello, world!") == "\"Hello, world!\""
    ensures Lines(render, Flatten("$", String("Hello, world!"))) == ["$: \"Hello, world!\""]
  {
    assert Flatten("$", String("Hello, world!")) == [("$", StringLeaf("Hello, world!"))];
    assert Line(render, "$", StringLeaf("Hello, world!")) == "$: \"Hello, world!\"";
  }

  /** A three-element array of integers at any path. */
  lemma ThreeInts(p: string, a: nat, b: nat, c: nat)
    ensures Flatten(p, Array([Int(a), Int(b), Int(c)]))
            == [(IndexPath(p, 0), IntLeaf(a)), (IndexPath(p, 1), IntLeaf(b)), (IndexPath(p, 2), IntLeaf(c))]
  {
    ArrayAppend(p, [], Int(a));
    ArrayAppend(p, [Int(a)], Int(b));
    ArrayAppend(p, [Int(a), Int(b)], Int(c));
    assert [] + [Int(a)] == [Int(a)];
    assert [Int(a)] + [Int(b)] == [Int(a), Int(b)];
    assert [Int(a), Int(b)] + [Int(c)] == [Int(a), Int(b), Int(c)];
    assert Flatten(p, Array([])) == [];
    assert Flatten(p, Array([Int(a)])) == [(IndexPath(p, 0), IntLeaf(a))];
    assert Flatten(p, Array([Int(a), Int(b)])) == [(IndexPath(p, 0), IntLeaf(a)), (IndexPath(p, 1), IntLeaf(b))];
  }

  /** `{"foo": "bar", "answer": 42}` at any path: members in insertion order. */
  lemma FooAnswerAt(p: string)
    ensures Flatten(p, FooAnswer()) == [(KeyPath(p, "foo"), StringLeaf("bar")), (KeyPath(p, "answer"), IntLeaf(42))]
  {
    ObjectAppend(p, [], "foo", String("bar"));
    ObjectAppend(p, [("foo", String("bar"))], "answer", Int(42));
    assert [] + [("foo", String("bar"))] == [("foo", String("bar"))];
    assert [("foo", String("bar"))] + [("answer", Int(42))] == FooAnswer().entries;
    assert Flatten(p, Object([])) == [];
  }

  /** `[1, 2, 3, [4, 5, 6]]`. */
  function NestedArrayDoc(): Json {
    Array([Int(1), Int(2), Int(3)] + [Array([Int(4), Int(5), Int(6)])])
  }

  lemma NestedArrayAt(p: string)
    ensures Flatten(p, NestedArrayDoc())
            == [(IndexPath(p, 0), IntLeaf(1)), (IndexPath(p, 1), IntLeaf(2)), (IndexPath(p, 2), IntLeaf(3)),
                (IndexPath(IndexPath(p, 3), 0), IntLeaf(4)), (IndexPath(IndexPath(p, 3), 1), IntLeaf(5)),
                (IndexPath(IndexPath(p, 3), 2), IntLeaf(6))]
  {
    ArrayAppend(p, [Int(1), Int(2), Int(3)], Array([Int(4), Int(5), Int(6)]));
    ThreeInts(p, 1, 2, 3);
    ThreeInts(IndexPath(p, 3), 4, 5, 6);
  }

  /** `{"foo": "bar", "answer": 42, "object": {"foo": "bar", "answer": 42}}`. */
  function NestedObjectDoc(): Json {
    Object(FooAnswer().entries + [("object", FooAnswer())])
  }

  lemma NestedObjectAt(p: string)
    ensures Flatten(p, NestedObjectDoc())
            == [(KeyPath(p, "foo"), StringLeaf("bar")), (KeyPath(p, "answer"), IntLeaf(42)),
                (KeyPath(KeyPath(p, "object"), "foo"), StringLeaf("bar")),
                (KeyPath(KeyPath(p, "object"), "answer"), IntLeaf(42))]
  {
    ObjectAppend(p, FooAnswer().entries, "object", FooAnswer());
    FooAnswerAt(p);
    FooAnswerAt(KeyPath(p, "object"));
  }

  /** The leaf members `null`, `bool` and `number` of the full document. */
  function LeadingMembers(): seq<(string, Json)> {
    [("null", Null), ("bool", Bool(true)), ("number", Int(42))]
  }

  lemma LeadingAt(p: string)
    ensures Flatten(p, Object(LeadingMembers()))
            == [(KeyPath(p, "null"), NullLeaf), (KeyPath(p, "bool"), BoolLeaf(true)), (KeyPath(p, "number"), IntLeaf(42))]
  {
    ObjectAppend(p, [], "null", Null);
    ObjectAppend(p, [("null", Null)], "bool", Bool(true));
    ObjectAppend(p, [("null", Null), ("bool", Bool(true))], "number", Int(42));
    assert [] + [("null", Null)] == [("null", Null)];
    assert [("null", Null)] + [("bool", Bool(true))] == [("null", Null), ("bool", Bool(true))];
    assert [("null", Null), ("bool", Bool(true))] + [("number", Int(42))] == LeadingMembers();
    assert Flatten(p, Object([])) == [];
    assert Flatten(p, Object([("null", Null)])) == [(KeyPath(p, "null"), NullLeaf)];
  }

  /** The full document: one member of every kind, in this insertion order. */
  function FullDoc(): Json {
    Object(LeadingMembers() + [("string", String("Hello, world!"))]
           + [("array", Array([Int(1), Int(2), Int(3)]))] + [("object", FooAnswer())])
  }

  /** The leaf members of the full document: `null`, `bool`, `number` and `string`. */
  lemma LeafMembersAt(p: string)
    ensures Flatten(p, Object(LeadingMembers() + [("string", String("Hello, world!"))]))
            == [(KeyPath(p, "null"), NullLeaf), (KeyPath(p, "bool"), BoolLeaf(true)),
                (KeyPath(p, "number"), IntLeaf(42)), (KeyPath(p, "string"), StringLeaf("Hello, world!"))]
  {
    LeadingAt(p);
    ObjectAppend(p, LeadingMembers(), "string", String("Hello, world!"));
  }

  /** The full document flattens member by member, in insertion order. */
  lemma FullDocumentSplit(p: string)
    ensures Flatten(p, FullDoc())
            == Flatten(p, Object(LeadingMembers() + [("string", String("Hello, world!"))]))
               + Flatten(KeyPath(p, "array"), Array([Int(1), Int(2), Int(3)]))
               + Flatten(KeyPath(p, "object"), FooAnswer())
  {
    var e1 := LeadingMembers() + [("string", String("Hello, world!"))];
    var e2 := e1 + [("array", Array([Int(1), Int(2), Int(3)]))];
    ObjectAppend(p, e1, "array", Array([Int(1), Int(2), Int(3)]));
    ObjectAppend(p, e2, "object", FooAnswer());
  }

  lemma FullDocumentAt(p: string)
    ensures Flatten(p, FullDoc())
            == [(KeyPath(p, "null"), NullLeaf), (KeyPath(p, "bool"), BoolLeaf(true)),
                (KeyPath(p, "number"), IntLeaf(42)), (KeyPath(p, "string"), StringLeaf("Hello, world!")),
                (IndexPath(KeyPath(p, "array"), 0), IntLeaf(1)), (IndexPath(KeyPath(p, "array"), 1), IntLeaf(2)),
                (IndexPath(KeyPath(p, "array"), 2), IntLeaf(3)),
                (KeyPath(KeyPath(p, "object"), "foo"), StringLeaf("bar")),
                (KeyPath(KeyPath(p, "object"), "answer"), IntLeaf(42))]
  {
    var q, r := KeyPath(p, "array"), KeyPath(p, "object");
    FullDocumentSplit(p);
    LeafMembersAt(p);
    ThreeInts(q, 1, 2, 3);
    FooAnswerAt(r);
    Join432((KeyPath(p, "null"), NullLeaf), (KeyPath(p, "bool"), BoolLeaf(true)),
            (KeyPath(p, "number"), IntLeaf(42)), (KeyPath(p, "string"), StringLeaf("Hello, world!")),
            (IndexPath(q, 0), IntLeaf(1)), (IndexPath(q, 1), IntLeaf(2)), (IndexPath(q, 2), IntLeaf(3)),
            (KeyPath(r, "foo"), StringLeaf("bar")), (KeyPath(r, "answer"), IntLeaf(42)));
  }

  lemma Join432<T>(x1: T, x2: T, x3: T, x4: T, x5: T, x6: T, x7: T, x8: T, x9: T)
    ensures [x1, x2, x3, x4] + [x5, x6, x7] + [x8, x9] == [x1, x2, x3, x4, x5, x6, x7, x8, x9]
  {
  }

  /** The concrete paths the tests expect, built from the root `$`. */
  lemma IndexPaths()
    ensures IndexPath("$", 0) == "$[0]" && IndexPath("$", 1) == "$[1]" && IndexPath("$", 2) == "$[2]"
    ensures IndexPath("$", 3) == "$[3]"
    ensures IndexPath("$[3]", 0) == "$[3][0]" && IndexPath("$[3]", 1) == "$[3][1]"
    ensures IndexPath("$[3]", 2) == "$[3][2]"
    ensures IndexPath("$.array", 0) == "$.array[0]" && IndexPath("$.array", 1) == "$.array[1]"
    ensures IndexPath("$.array", 2) == "$.array[2]"
  {
    assert NatToString(0) == "0" && NatToString(1) == "1" && NatToString(2) == "2" && NatToString(3) == "3";
  }

  lemma KeyPaths()
    ensures KeyPath("$", "foo") == "$.foo" && KeyPath("$", "answer") == "$.answer"
    ensures KeyPath("$", "object") == "$.object" && KeyPath("$.object", "foo") == "$.object.foo"
    ensures KeyPath("$.object", "answer") == "$.object.answer"
    ensures KeyPath("$", "null") == "$.null" && KeyPath("$", "bool") == "$.bool"
    ensures KeyPath("$", "number") == "$.number" && KeyPath("$", "string") == "$.string"
    ensures KeyPath("$", "array") == "$.array"
  {
  }

  /** `test_flat_value_iterator_object`. */
  lemma FlatObject()
    ensures Flatten("$", FooAnswer()) == [("$.foo", StringLeaf("bar")), ("$.answer", IntLeaf(42))]
  {
    FooAnswerAt("$");
    KeyPaths();
  }

  /** `test_flat_value_iterator_object_nested`. */
  lemma NestedObject()
    ensures Flatten("$", NestedObjectDoc())
            == [("$.foo", StringLeaf("bar")), ("$.answer", IntLeaf(42)),
                ("$.object.foo", StringLeaf("bar")), ("$.object.answer", IntLeaf(42))]
  {
    NestedObjectAt("$");
    KeyPaths();
  }

  /** `test_flat_value_iterator_array`. */
  lemma FlatArray()
    ensures Flatten("$", Array([Int(1), Int(2), Int(3)]))
            == [("$[0]", IntLeaf(1)), ("$[1]", IntLeaf(2)), ("$[2]", IntLeaf(3))]
  {
    ThreeInts("$", 1, 2, 3);
    IndexPaths();
  }

  /** `test_flat_value_iterator_array_nested`. */
  lemma NestedArray()
    ensures Flatten("$", NestedArrayDoc())
            == [("$[0]", IntLeaf(1)), ("$[1]", IntLeaf(2)), ("$[2]", IntLeaf(3)),
                ("$[3][0]", IntLeaf(4)), ("$[3][1]", IntLeaf(5)), ("$[3][2]", IntLeaf(6))]
  {
    NestedArrayAt("$");
    IndexPaths();
  }

  /** `test_flat_value_iterator_full`. */
  lemma FullDocument()
    ensures Flatten("$", FullDoc())
            == [("$.null", NullLeaf), ("$.bool", BoolLeaf(true)), ("$.number", IntLeaf(42)),
                ("$.string", StringLeaf("Hello, world!")),
                ("$.array[0]", IntLeaf(1)), ("$.array[1]", IntLeaf(2)), ("$.array[2]", IntLeaf(3)),
                ("$.object.foo", StringLeaf("bar")), ("$.object.answer", IntLeaf(42))]
  {
    FullDocumentAt("$");
    KeyPaths();
    IndexPaths();
  }

  /** An empty array or object alone yields no lines at all. */
  lemma EmptyContainers(render: Render)
    ensures Lines(render, Flatten("$", Array([]))) == []
    ensures Lines(render, Flatten("$", Object([]))) == []
  {
  }
}
