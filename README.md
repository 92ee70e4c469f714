# tyson: typed navigation of decoded JSON, in Dafny

tyson wraps the `map[string]any` that Go's JSON decoder produces. It lets a caller ask
for "the value at this chain of keys, as type T". The answer is a `Node`: it either
holds the typed value or is empty. Nothing panics. A missing key, a step through
something that is not an object, or a value of the wrong type all give an empty node.

The model has five modules:

- `Values` (values.dfy): the dynamic value `Any`. It is null, a boolean, a number, a
  string, an array or an object. `Named` is an object whose dynamic type is the
  package's named type `Object` rather than `map[string]any`. `Tree` is the contents
  of one object.
- `Mappers` (mappers.dfy): `Mapper<S, T>` is a total conversion `S -> Option<T>`,
  the "comma ok" idiom. This module holds the coercions `AsArray`, `AsBool`,
  `AsFloat`, `AsInt`, `AsObject` and `AsString`. `All(m)` lifts a mapper over
  sequences. `One(ms)` tries mappers in order. Each combinator has a recursive
  specification function (`AllOf`, `FirstOf`). Each also has a method (`RunAll`,
  `RunOne`) with the loop of the Go closure, proved equal to that function.
- `Nodes` (nodes.dfy): the immutable `Node<T>` with its two variants `EmptyNode` and
  `ValueNode`, the members `Value`, `Empty`, `Or` and `OrGet`, and `Map`.
- `Objects` (objects.dfy): the key-chain traversal `Traverse` and a second definition,
  `Descend`, built from the other end. The lemmas tie the two together. Class
  `Object` holds the mutable map. `Object.Get` is the loop of the source, proved
  equal to `Traverse`. The class also has `Has`, `Set` and `Remove`, and the twelve
  typed getters. Each getter is the source's own composition of `Traverse`, `Map`,
  `All` and a coercion. Its contract says which values at the end of the chain it
  accepts and what it returns for them.
- `Examples` (examples.dfy): the concrete cases from the library's tests and
  examples, proved about the model.

With no keys, traversal holds the receiver with its named type `Object`
(tyson.go:131-132 and 143), modelled as a `Named` value. `AsObject` accepts only
`map[string]any` (tyson.go:34), so `GetObject()` with no keys is empty
(`RootIsNotAPlainObject`).

After an early exit, the Go loop in `Get` still looks up `keys[i]`, the key at which
descent failed, in `n.Value()`. That is the nil map of an empty `Node[Object]`, and the lookup is empty.
`Object.Get` does the same: it passes the empty map as the zero value.

## Model

| member | source | states |
|---|---|---|
| `Mappers.AsArray` | tyson.go:30 | succeeds exactly on arrays, and then `Arr(result)` is the input |
| `Mappers.AsBool` | tyson.go:31 | succeeds exactly on booleans, and then `Bool(result)` is the input |
| `Mappers.AsFloat` | tyson.go:32 | succeeds exactly on numbers, and then `Num(result)` is the input |
| `Mappers.AsInt` | tyson.go:33 | succeeds exactly when the number is integral, and then the integer converts back to the input |
| `Mappers.AsObject` | tyson.go:34 | succeeds exactly on plain `map[string]any` objects (not on the named `Object` type), and then `Obj(result)` is the input |
| `Mappers.AsString` | tyson.go:35 | succeeds exactly on strings, and then `Str(result)` is the input |
| `Mappers.AllOf` | tyson.go:37-52 | `All(m)` is `v => AllOf(m, v)`; the lifted mapper succeeds iff `m` succeeds on every element; then the result has the input's length and element i is `m`'s result on element i; otherwise no partial result |
| `Mappers.RunAll` | tyson.go:41-51 | the loop that fills a fresh array by index and returns at the first failure computes exactly `AllOf` |
| `Mappers.FirstOf` | tyson.go:54-66 | `One(ms)` is `v => FirstOf(ms, v)`; it fails iff every mapper fails (so also with no mappers); otherwise it is the result of some mapper all of whose predecessors failed, i.e. the first-listed success |
| `Mappers.RunOne` | tyson.go:57-65 | the loop that stops at the first success computes exactly `FirstOf` |
| `Nodes.Node.Value` | tyson.go:99-108 | an empty node gives the zero value; a full node is `ValueNode` of the result |
| `Nodes.Node.Empty` | tyson.go:102-109 | true exactly for the empty variant |
| `Nodes.Node.Or` | tyson.go:103-110 | `Or(d)` is `Value` with `d` in place of the zero value |
| `Nodes.Node.OrGet` | tyson.go:104-111 | `OrGet(f)` is `Or` applied to what `f` supplies |
| `Nodes.EmptyNodeBehaviour` | tyson.go:89-104 | the empty node is empty, and `Value`, `Or` and `OrGet` give the zero value, the default and the supplied value |
| `Nodes.ValueNodeBehaviour` | tyson.go:94-111 | `ValueNode(x)` is not empty, and `Value`, `Or` and `OrGet` all give `x`, ignoring any default |
| `Nodes.Map` | tyson.go:113-122 | full iff the node is full and the mapper succeeds on its value, and then it holds the mapper's result |
| `Nodes.MapOfEmpty` | tyson.go:115-121 | mapping the empty node is empty for every mapper |
| `Nodes.MapOfValue` | tyson.go:115-121 | mapping `ValueNode(x)` gives `ValueNode(y)` when the mapper gives `y`, and the empty node when it fails |
| `Nodes.MapThen` | tyson.go:215-217 | mapping through `f` and then `g` equals mapping once through `f` chained with `g` (as `GetInt` maps through `GetFloat`) |
| `Objects.GetKey` | tyson.go:160-166 | full iff the key is present, and then holds the value under it |
| `Objects.TraverseByDescent` | tyson.go:140-158 | `Traverse` (the recursive definition of the key chain) agrees with `Descend`: with at least one key, traversal is full iff every key but the last leads to a nested plain object and the last key is present in the object reached; it then holds the value under that key |
| `Objects.TraverseSnoc` | tyson.go:146-156 | one more key looks that key up in the plain object the shorter chain held, and is empty when the shorter chain held anything else |
| `Objects.EmptyStaysEmpty` | tyson.go:149-153 | traversal stops at the first failure: an empty chain stays empty whatever keys follow |
| `Objects.Object.Get` | tyson.go:140-158 | the loop over the keys (no key: the receiver; one key: a lookup; more: descend and break at the first failure) computes exactly `Traverse` |
| `Objects.Object.Has` | tyson.go:168-169 | true exactly when the one-key traversal is full |
| `Objects.Object.Set` | tyson.go:171-172 | the map is the old map with `k` bound to `v`, so `Get(k)` holds `v` |
| `Objects.Object.Remove` | tyson.go:174-175 | the map is the old map without `k`, so `Has(k)` is false |
| `Objects.SetKeepsOtherChains` | tyson.go:171-172 | after `Set(k, v)` every chain that starts with another key traverses as before |
| `Objects.SetThenDescend` | tyson.go:171-172 | after `Set(k, c)` with `c` an object, a chain through `k` continues inside `c` |
| `Objects.RemoveEmptiesChains` | tyson.go:174-175 | after `Remove(k)` every chain that starts with `k` is empty |
| `Objects.RemoveKeepsOtherChains` | tyson.go:174-175 | after `Remove(k)` every chain that starts with another key traverses as before |
| `Objects.Object.GetArray` | tyson.go:185-187 | full iff the chain reaches an array, and then holds its elements |
| `Objects.Object.GetBool` | tyson.go:195-197 | full iff the chain reaches a boolean, and then holds it |
| `Objects.Object.GetFloat` | tyson.go:205-207 | full iff the chain reaches a number, and then holds it |
| `Objects.Object.GetInt` | tyson.go:215-217 | full iff the chain reaches an integral number, and then holds it as an integer |
| `Objects.Object.GetObject` | tyson.go:225-227 | full iff the chain reaches a plain object, and then holds its contents |
| `Objects.Object.GetString` | tyson.go:235-237 | full iff the chain reaches a string, and then holds it |
| `Objects.Object.GetArrays` | tyson.go:247-249 | full iff the chain reaches an array of arrays, and then holds them element by element |
| `Objects.Object.GetBools` | tyson.go:257-259 | full iff the chain reaches an array of booleans only, and then holds them in order |
| `Objects.Object.GetFloats` | tyson.go:267-269 | full iff the chain reaches an array of numbers only, and then holds them in order |
| `Objects.Object.GetInts` | tyson.go:277-279 | full iff the chain reaches an array of integral numbers only, and then holds them as integers in order |
| `Objects.Object.GetObjects` | tyson.go:287-289 | full iff the chain reaches an array of plain objects only, and then holds their contents in order |
| `Objects.Object.GetStrings` | tyson.go:297-299 | full iff the chain reaches an array of strings only, and then holds them in order |
| `Examples.IntCoercionCases` | tyson.go:33 | under the round-trip rule, 42.0, 10.0 and -7.0 convert to 42, 10 and -7, and 42.01 does not convert; the test at tyson_test.go:219-235 checks the 10.0 case |
| `Examples.OneCases` | tyson_test.go:55-88 | the one succeeding mapper among failing ones wins; all failing (or none given) fails |
| `Examples.AllCases` | tyson_test.go:44-53 | a mapper that always fails makes the lifted mapper fail; the empty sequence converts |
| `Examples.NestedGetCases` | tyson_test.go:119-163 | no keys give the receiver; `foo,bar` reaches `"baz"`; `foo,bar,baz` is empty |
| `Examples.TypeGettersCases` | tyson_example_test.go:28-51 | the number, integer, string and boolean-array getters on the example document |
| `Examples.DefaultValueCases` | tyson_example_test.go:55-73 | a missing key and a number read as a string are empty, and `Or`/`OrGet` then give `"def"` |
| `Examples.ArrayGetterCases` | tyson_test.go:309-379 | the integer, number, string and object array getters convert element by element; the number array is 12.34 and 56.78 as in the test |
| `Examples.RootIsNotAPlainObject` | tyson.go:140-143 | no-key traversal holds the receiver as the named `Object` type, so the no-key object getter is empty |

## Left out

- JSON decoding and printing are not modelled. The model starts from a tree that
  already exists.
- Numbers are reals, not float64. There is no rounding, NaN or infinity.
- `Mappers.AsInt`: does not model Go's float64-to-int64 conversion outside the int64
  range. It also ignores float precision. The model says "succeeds iff the number is
  integral". The source compares `v == float64(int64(v))`, and that test can differ
  at extreme magnitudes.
- A Go mapper returns a value even when it fails, and the model does not. `One` with
  every mapper failing returns the last mapper's value with `ok == false`. The model
  gives `None`, because `Map` and `All` ignore that value.
- `Nodes.Node.Value`: Go's zero value of T is not available generically. The caller
  passes it as `zero` instead.
- `Nodes.Node.OrGet`: the supplier is a pure total function, so the model cannot
  observe that it is called only for an empty node.
- Nested objects and arrays are values, not shared references. The model does not
  capture that a map returned by `GetObject` aliases the tree, nor that changing it
  changes the tree.
- `Objects.Object.Set`: a nil `Object` is not modelled. That is the zero value of the
  map type, left by `var o tyson.Object` or by decoding JSON `null`. Go's `Set` panics
  on one ("assignment to entry in nil map"), while `Get`, `Has` and `Remove` treat it
  as an empty map. The model's `Object` always holds a map, so this panic is absent.
- `Set` stores only values of the JSON model. In Go it accepts any value, such as a Go
  `int`, which no coercion here accepts.
- Go's `make` and the constructor of an `Object` (`Object.constructor`) are plumbing.
  No contract is claimed beyond the initial contents.
