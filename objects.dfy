/** Navigation of a decoded JSON object along a chain of keys, and the typed getters
    built on it. */
module Objects {
  import opened Values
  import opened Mappers
  import opened Nodes

  /** Looks up one key: the value under `k`, or empty when `k` is absent. */
  function GetKey(t: Tree, k: string): (r: Node<Any>)
    ensures r.ValueNode? <==> k in t
    ensures r.ValueNode? ==> r.held == t[k]
  {
    if k in t then ValueNode(t[k]) else EmptyNode
  }

  /** Follows a key chain: no key gives the object itself (with its named type),
      one key a plain lookup, and more keys descend through nested objects,
      giving up at the first key that is missing or holds something other than
      an object. */
  function Traverse(t: Tree, keys: seq<string>): Node<Any>
    decreases |keys|
  {
    if |keys| == 0 then ValueNode(Named(t))
    else if |keys| == 1 then GetKey(t, keys[0])
    else
      match Map(GetKey(t, keys[0]), AsObject)
      case EmptyNode => EmptyNode
      case ValueNode(child) => Traverse(child, keys[1..])
  }

  /* A reference definition of traversal, built from the other end: the object
     reached after descending through every key of `ks`. */

  /** One descent step: the object stored under `k` in `p`, if there is one. */
  function Step(p: Tree, k: string): (r: Option<Tree>)
    ensures r.Some? <==> k in p && p[k].Obj?
    ensures r.Some? ==> p[k] == Obj(r.value)
  {
    if k in p then AsObject(p[k]) else None
  }

  /** The object reached from `t` by descending through each key of `ks` in turn. */
  function Descend(t: Tree, ks: seq<string>): Option<Tree>
    decreases |ks|
  {
    if ks == [] then Some(t)
    else
      match Descend(t, ks[..|ks| - 1])
      case None => None
      case Some(p) => Step(p, ks[|ks| - 1])
  }

  /** The last key of a chain, looked up in the object the descent reached. */
  function Finish(d: Option<Tree>, k: string): Node<Any> {
    match d
    case None => EmptyNode
    case Some(p) => GetKey(p, k)
  }

  /** Descending through a first key and then through the rest. */
  lemma {:induction false} DescendCons(t: Tree, k: string, rest: seq<string>)
    ensures Descend(t, [k] + rest) ==
      match Step(t, k)
      case None => None
      case Some(c) => Descend(c, rest)
    decreases |rest|
  {
    if rest == [] {
      assert ([k] + rest)[..0] == [];
    } else {
      var front := rest[..|rest| - 1];
      assert ([k] + rest)[..|rest|] == [k] + front;
      DescendCons(t, k, front);
    }
  }

  /** Traversal agrees with the reference definition: with at least one key, the
      result is non-empty exactly when every key but the last names a nested object
      along the way and the last key is present in the object reached; it then holds
      the value under that last key. */
  lemma {:induction false} TraverseByDescent(t: Tree, keys: seq<string>)
    requires |keys| >= 1
    ensures Traverse(t, keys) == Finish(Descend(t, keys[..|keys| - 1]), keys[|keys| - 1])
    decreases |keys|
  {
    if |keys| >= 2 {
      var rest := keys[1..];
      DescendCons(t, keys[0], rest[..|rest| - 1]);
      assert [keys[0]] + rest[..|rest| - 1] == keys[..|keys| - 1];
      match Step(t, keys[0])
      case None =>
      case Some(c) =>
        TraverseByDescent(c, rest);
    }
  }

  /** Once a prefix of the chain fails to reach an object, the whole chain fails. */
  lemma {:induction false} DescendPrefixFails(t: Tree, ks: seq<string>, i: nat)
    requires i <= |ks|
    requires Descend(t, ks[..i]) == None
    ensures Descend(t, ks) == None
    decreases |ks| - i
  {
    if i < |ks| {
      assert ks[..i + 1][..i] == ks[..i];
      DescendPrefixFails(t, ks, i + 1);
    } else {
      assert ks[..i] == ks;
    }
  }

  /** One key deeper: a chain extended by `k` reaches the value under `k` of the
      object the chain held, and is empty when it held no plain object. */
  lemma {:induction false} TraverseSnoc(t: Tree, keys: seq<string>, k: string)
    requires |keys| >= 1
    ensures Traverse(t, keys + [k]) ==
      match Traverse(t, keys)
      case ValueNode(Obj(c)) => GetKey(c, k)
      case _ => EmptyNode
  {
    var ext := keys + [k];
    TraverseByDescent(t, ext);
    TraverseByDescent(t, keys);
    assert ext[..|ext| - 1] == keys;
    assert keys[..|keys| - 1] + [keys[|keys| - 1]] == keys;
  }

  /** Traversal stops at the first failing step: a chain that comes out empty stays
      empty however many keys follow it. */
  lemma {:induction false} EmptyStaysEmpty(t: Tree, keys: seq<string>, more: seq<string>)
    requires |keys| >= 1 && Traverse(t, keys).EmptyNode?
    ensures Traverse(t, keys + more).EmptyNode?
    decreases |more|
  {
    if more != [] {
      var front := more[..|more| - 1];
      EmptyStaysEmpty(t, keys, front);
      assert keys + more == (keys + front) + [more[|more| - 1]];
      TraverseSnoc(t, keys + front, more[|more| - 1]);
    } else {
      assert keys + more == keys;
    }
  }

  /** Assigning key `k` leaves every chain that starts with another key as it was. */
  lemma SetKeepsOtherChains(t: Tree, k: string, v: Any, keys: seq<string>)
    requires |keys| >= 1 && keys[0] != k
    ensures Traverse(t[k := v], keys) == Traverse(t, keys)
  {
  }

  /** After assigning an object to key `k`, a chain through `k` continues inside it. */
  lemma SetThenDescend(t: Tree, k: string, c: Tree, rest: seq<string>)
    requires |rest| >= 1
    ensures Traverse(t[k := Obj(c)], [k] + rest) == Traverse(c, rest)
  {
  }

  /** Deleting key `k` empties every chain that starts with `k` ... */
  lemma RemoveEmptiesChains(t: Tree, k: string, rest: seq<string>)
    ensures Traverse(t - {k}, [k] + rest).EmptyNode?
  {
  }

  /** ... and leaves every chain that starts with another key as it was. */
  lemma RemoveKeepsOtherChains(t: Tree, k: string, keys: seq<string>)
    requires |keys| >= 1 && keys[0] != k
    ensures Traverse(t - {k}, keys) == Traverse(t, keys)
  {
  }

  /** A parsed JSON object. It is a map in the source, so the getters read it and
      `Set` and `Remove` change it in place. */
  class Object {
    var fields: Tree

    constructor (init: Tree)
      ensures fields == init
    {
      fields := init;
    }

    /** Follows `keys` from this object, as `Traverse` describes, with a loop that
        descends one object per step and stops at the first failure. */
    method Get(keys: seq<string>) returns (r: Node<Any>)
      ensures r == Traverse(fields, keys)
    {
      if |keys| == 0 {
        r := ValueNode(Named(fields));
      } else if |keys| == 1 {
        r := GetKey(fields, keys[0]);
      } else {
        var n: Node<Tree> := ValueNode(fields);
        var i := 0;
        while i < |keys| - 1
          invariant 0 <= i <= |keys| - 1
          invariant n.ValueNode? && Descend(fields, keys[..i]) == Some(n.held)
        {
          assert keys[..i + 1][..i] == keys[..i];
          ghost var p := n.held;
          n := Map(GetKey(n.Value(map[]), keys[i]), AsObject);
          assert Descend(fields, keys[..i + 1]) == Step(p, keys[i]);
          if n.Empty() {
            assert keys[..|keys| - 1][..i + 1] == keys[..i + 1];
            DescendPrefixFails(fields, keys[..|keys| - 1], i + 1);
            break;
          }
          i := i + 1;
        }
        // After an early exit `n` is empty and its value is the nil map.
        r := GetKey(n.Value(map[]), keys[i]);
        TraverseByDescent(fields, keys);
      }
    }

    /** Whether key `k` is present in this object. */
    function Has(k: string): (r: bool)
      reads this
      ensures r <==> !Traverse(fields, [k]).Empty()
    {
      k in fields
    }

    /** Assigns `v` to key `k`. */
    method Set(k: string, v: Any)
      modifies this
      ensures fields == old(fields)[k := v]
      ensures Traverse(fields, [k]) == ValueNode(v)
    {
      fields := fields[k := v];
    }

    /** Deletes key `k`; nothing happens when it is absent. */
    method Remove(k: string)
      modifies this
      ensures fields == old(fields) - {k}
      ensures !Has(k)
    {
      fields := fields - {k};
    }

    /* Typed getters: each converts the value at the end of the chain. */

    function GetArray(keys: seq<string>): (r: Node<seq<Any>>)
      reads this
      ensures var t := Traverse(fields, keys);
        r.ValueNode? <==> t.ValueNode? && t.held.Arr?
      ensures r.ValueNode? ==> Traverse(fields, keys) == ValueNode(Arr(r.held))
    {
      Map(Traverse(fields, keys), AsArray)
    }

    function GetBool(keys: seq<string>): (r: Node<bool>)
      reads this
      ensures var t := Traverse(fields, keys);
        r.ValueNode? <==> t.ValueNode? && t.held.Bool?
      ensures r.ValueNode? ==> Traverse(fields, keys) == ValueNode(Bool(r.held))
    {
      Map(Traverse(fields, keys), AsBool)
    }

    function GetFloat(keys: seq<string>): (r: Node<real>)
      reads this
      ensures var t := Traverse(fields, keys);
        r.ValueNode? <==> t.ValueNode? && t.held.Num?
      ensures r.ValueNode? ==> Traverse(fields, keys) == ValueNode(Num(r.held))
    {
      Map(Traverse(fields, keys), AsFloat)
    }

    function GetInt(keys: seq<string>): (r: Node<int>)
      reads this
      ensures var t := Traverse(fields, keys);
        r.ValueNode? <==> t.ValueNode? && t.held.Num? && Integral(t.held.x)
      ensures r.ValueNode? ==> Traverse(fields, keys) == ValueNode(Num(r.held as real))
    {
      Map(GetFloat(keys), AsInt)
    }

    function GetObject(keys: seq<string>): (r: Node<Tree>)
      reads this
      ensures var t := Traverse(fields, keys);
        r.ValueNode? <==> t.ValueNode? && t.held.Obj?
      ensures r.ValueNode? ==> Traverse(fields, keys) == ValueNode(Obj(r.held))
    {
      Map(Traverse(fields, keys), AsObject)
    }

    function GetString(keys: seq<string>): (r: Node<string>)
      reads this
      ensures var t := Traverse(fields, keys);
        r.ValueNode? <==> t.ValueNode? && t.held.Str?
      ensures r.ValueNode? ==> Traverse(fields, keys) == ValueNode(Str(r.held))
    {
      Map(Traverse(fields, keys), AsString)
    }

    function GetArrays(keys: seq<string>): (r: Node<seq<seq<Any>>>)
      reads this
      ensures var t := Traverse(fields, keys);
        r.ValueNode? <==> (t.ValueNode? && t.held.Arr? &&
          forall i :: 0 <= i < |t.held.items| ==> t.held.items[i].Arr?)
      ensures var t := Traverse(fields, keys);
        r.ValueNode? ==> (t.ValueNode? && t.held.Arr? && |t.held.items| == |r.held| &&
          forall i :: 0 <= i < |r.held| ==> t.held.items[i] == Arr(r.held[i]))
    {
      Map(GetArray(keys), All(AsArray))
    }

    function GetBools(keys: seq<string>): (r: Node<seq<bool>>)
      reads this
      ensures var t := Traverse(fields, keys);
        r.ValueNode? <==> (t.ValueNode? && t.held.Arr? &&
          forall i :: 0 <= i < |t.held.items| ==> t.held.items[i].Bool?)
      ensures var t := Traverse(fields, keys);
        r.ValueNode? ==> (t.ValueNode? && t.held.Arr? && |t.held.items| == |r.held| &&
          forall i :: 0 <= i < |r.held| ==> t.held.items[i] == Bool(r.held[i]))
    {
      Map(GetArray(keys), All(AsBool))
    }

    function GetFloats(keys: seq<string>): (r: Node<seq<real>>)
      reads this
      ensures var t := Traverse(fields, keys);
        r.ValueNode? <==> (t.ValueNode? && t.held.Arr? &&
          forall i :: 0 <= i < |t.held.items| ==> t.held.items[i].Num?)
      ensures var t := Traverse(fields, keys);
        r.ValueNode? ==> (t.ValueNode? && t.held.Arr? && |t.held.items| == |r.held| &&
          forall i :: 0 <= i < |r.held| ==> t.held.items[i] == Num(r.held[i]))
    {
      Map(GetArray(keys), All(AsFloat))
    }

    function GetInts(keys: seq<string>): (r: Node<seq<int>>)
      reads this
      ensures var t := Traverse(fields, keys);
        r.ValueNode? <==> (t.ValueNode? && t.held.Arr? &&
          forall i :: 0 <= i < |t.held.items| ==>
            t.held.items[i].Num? && Integral(t.held.items[i].x))
      ensures var t := Traverse(fields, keys);
        r.ValueNode? ==> (t.ValueNode? && t.held.Arr? && |t.held.items| == |r.held| &&
          forall i :: 0 <= i < |r.held| ==> t.held.items[i] == Num(r.held[i] as real))
    {
      Map(GetFloats(keys), All(AsInt))
    }

    function GetObjects(keys: seq<string>): (r: Node<seq<Tree>>)
      reads this
      ensures var t := Traverse(fields, keys);
        r.ValueNode? <==> (t.ValueNode? && t.held.Arr? &&
          forall i :: 0 <= i < |t.held.items| ==> t.held.items[i].Obj?)
      ensures var t := Traverse(fields, keys);
        r.ValueNode? ==> (t.ValueNode? && t.held.Arr? && |t.held.items| == |r.held| &&
          forall i :: 0 <= i < |r.held| ==> t.held.items[i] == Obj(r.held[i]))
    {
      Map(GetArray(keys), All(AsObject))
    }

    function GetStrings(keys: seq<string>): (r: Node<seq<string>>)
      reads this
      ensures var t := Traverse(fields, keys);
        r.ValueNode? <==> (t.ValueNode? && t.held.Arr? &&
          forall i :: 0 <= i < |t.held.items| ==> t.held.items[i].Str?)
      ensures var t := Traverse(fields, keys);
        r.ValueNode? ==> (t.ValueNode? && t.held.Arr? && |t.held.items| == |r.held| &&
          forall i :: 0 <= i < |r.held| ==> t.held.items[i] == Str(r.held[i]))
    {
      Map(GetArray(keys), All(AsString))
    }
  }
}
