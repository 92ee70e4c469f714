/** The concrete cases that the library's tests and examples exercise, stated as
    facts about the model. */
module Examples {
  import opened Values
  import opened Mappers
  import opened Nodes
  import opened Objects

  /** Integral numbers convert, fractional ones do not. */
  lemma IntCoercionCases()
    ensures AsInt(42.0) == Some(42)
    ensures AsInt(10.0) == Some(10)
    ensures AsInt(-7.0) == Some(-7)
    ensures AsInt(42.01) == None
  {
  }

  function Fails(v: int): Option<string> { None }
  function Succeeds(v: int): Option<string> { Some(if v == 1 then "1" else "?") }

  /** The first mapper to succeed wins; with none succeeding the result fails. */
  lemma OneCases()
    ensures One([Fails, Succeeds, Fails])(1) == Some("1")
    ensures One([Fails, Fails, Fails])(1) == None
    ensures One<int, string>([])(1) == None
  {
    var ms := [Fails, Succeeds, Fails];
    assert ms[1..] == [Succeeds, Fails];
    assert FirstOf(ms, 1) == FirstOf([Succeeds, Fails], 1) == Some("1");
  }

  /** A mapper that fails everywhere makes the lifted mapper fail; the empty
      sequence always converts. */
  lemma AllCases()
    ensures All(Fails)([1, 2, 3]) == None
    ensures All(Fails)([]) == Some([])
  {
  }

  /** Traversal of nested objects, including the chain that runs into a string. */
  lemma NestedGetCases(t: Tree)
    requires t == map["foo" := Obj(map["bar" := Str("baz")])]
    ensures Traverse(t, []) == ValueNode(Named(t))
    ensures Traverse(t, ["foo", "bar"]) == ValueNode(Str("baz"))
    ensures Traverse(t, ["foo", "bar", "baz"]) == EmptyNode
  {
  }

  /** Typed getters on a document with a nested object and an array of booleans. */
  lemma TypeGettersCases(o: Object)
    requires o.fields == map[
      "obj" := Obj(map["num" := Num(12.34), "int" := Num(12345.0), "str" := Str("abc")]),
      "arr" := Arr([Bool(true), Bool(false)])]
    ensures o.GetFloat(["obj", "num"]) == ValueNode(12.34)
    ensures o.GetInt(["obj", "int"]) == ValueNode(12345)
    ensures o.GetString(["obj", "str"]) == ValueNode("abc")
    ensures o.GetBools(["arr"]) == ValueNode([true, false])
  {
    assert ["obj", "num"][1..] == ["num"];
    assert ["obj", "int"][1..] == ["int"];
    assert ["obj", "str"][1..] == ["str"];
    var bs := o.GetBools(["arr"]);
    assert bs.held[0] == true && bs.held[1] == false;
    assert |bs.held| == 2 && bs.held == [true, false];
  }

  /** Missing keys and wrong types come out empty, and the defaults take over. */
  lemma DefaultValueCases(o: Object)
    requires o.fields == map["num" := Num(12.34)]
    ensures Traverse(o.fields, ["xyz"]).Empty()
    ensures o.GetString(["num"]).Empty()
    ensures Traverse(o.fields, ["xyz"]).Or(Str("def")) == Str("def")
    ensures o.GetString(["num"]).OrGet(() => "def") == "def"
  {
  }

  /** Array getters convert every element. */
  lemma ArrayGetterCases(o: Object)
    requires o.fields == map[
      "ints" := Arr([Num(10.0), Num(20.0)]),
      "floats" := Arr([Num(12.34), Num(56.78)]),
      "strs" := Arr([Str("abc"), Str("def")]),
      "objs" := Arr([Obj(map[]), Obj(map[])])]
    ensures o.GetInts(["ints"]) == ValueNode([10, 20])
    ensures o.GetFloats(["floats"]) == ValueNode([12.34, 56.78])
    ensures o.GetInts(["floats"]).Empty()
    ensures o.GetStrings(["strs"]) == ValueNode(["abc", "def"])
    ensures o.GetObjects(["objs"]) == ValueNode([map[], map[]])
    ensures o.GetStrings(["ints"]).Empty()
  {
    var ints := o.GetInts(["ints"]);
    assert ints.held[0] == 10 && ints.held[1] == 20;
    assert |ints.held| == 2 && ints.held == [10, 20];
    var floats := o.GetFloats(["floats"]);
    assert floats.held[0] == 12.34 && floats.held[1] == 56.78;
    assert |floats.held| == 2 && floats.held == [12.34, 56.78];
    var strs := o.GetStrings(["strs"]);
    assert strs.held[0] == "abc" && strs.held[1] == "def";
    assert |strs.held| == 2 && strs.held == ["abc", "def"];
    var objs := o.GetObjects(["objs"]);
    assert objs.held[0] == map[] && objs.held[1] == map[];
    assert |objs.held| == 2 && objs.held == [map[], map[]];
  }

  /** The object reached with no keys carries its named type, which the object
      coercion does not accept: the no-key object getter is empty even though the
      no-key traversal holds the receiver. */
  lemma RootIsNotAPlainObject(o: Object)
    ensures Traverse(o.fields, []) == ValueNode(Named(o.fields))
    ensures o.GetObject([]).Empty()
  {
  }
}
