# Deep copy polyfill of the Nim contracts JavaScript context

`__native_deepCopy(from, to)` is the fallback deep copy that the contracts
library injects into its JavaScript context. It copies plain JSON-like data
recursively. When it is given a target container, it merges into that
container, and a value the target already defines always wins.

This project models the function in Dafny: a value model, a pure specification, the imperative function proved against it, and worked examples.

- `values.dfy` (module `JsValues`) holds the values the function sees.
  `Undefined`, `Null`, primitives and functions are leaves. An object is
  `Object(ctor, props)`: the constructor whose `prototype` it inherits from,
  and its own enumerable properties. Array elements are keyed by their index
  strings, as `for..in` yields them. Property reads follow the prototype
  chain (`Read`): an own property first, then a member of `Object.prototype`
  or `Array.prototype` (`InheritedNames`, `InheritedMember`), else undefined.
  Assignment (`Write`) stores an own property, except that assigning an
  inherited `__proto__` goes to its setter. The module also defines `typeof`
  (`TypeOf`) and loose equality with null (`IsNullish`).
- `deep_copy_spec.dfy` (module `DeepCopySpec`) gives the function as a pure
  recursive function `DeepCopy(from, to)` and proves its properties.
  `from.constructor` is `ConstructorOf`, which an own `constructor` property
  shadows. The value line 16 assigns is `Assigned` (`AssignedDefined` states what it leaves in the slot). The state of the target
  after the `for..in` loop has visited a set of keys is `Merge`. The lemmas
  `MergeAt`, `CopyFillsTarget` and `CopyBuildsContainer` only unfold these
  definitions for the other proofs and state nothing new.
- `deep_copy_polyfill.dfy` (module `DeepCopyPolyfill`) is the function as it
  runs. The target is a heap object (`JsObject`). The method `CopyKeys` fills
  it in place, one property at a time, in an arbitrary order. Each nested copy
  is a recursive call of `NativeDeepCopy` with a null target. Both methods are
  proved against `DeepCopy` and `Merge`.
- `examples_spec.dfy` (module `DeepCopyExamples`) works through concrete cases.

The dispatch follows the code line by line. Line 2 returns null, undefined and
every value whose `typeof` is not `"object"`. Line 5 returns every object whose
`constructor` is neither the `Object` nor the `Array` constructor; the model
compares by identity, not by the loose equality the code uses (see "Left out"). Lines 8-10 are written to
re-wrap instances of `Date`, `RegExp`, `Function`, `String`, `Number` and
`Boolean` with `new from.constructor(from)`. No value reaches them, because
line 5 has already returned every such instance. The model keeps that branch
as proved-dead code, so a `Date` or a boxed primitive comes back as the same
value.

Line 16 reads `to[name]` through the target's prototype. On a new `{}` or
`[]` the inherited names (`toString`, `valueOf`, `hasOwnProperty`,
`constructor`, `__proto__`, and for arrays `push`, `map` and the other array
methods) read as defined. So a source key with one of those names is not
copied: the container receives the inherited member instead, and an own
`__proto__` key goes to the setter and leaves no property at all. The copy
with no target therefore equals its source whenever no plain object or array
in it, at any depth, has such a key (`PlainData`).

Recursion terminates because every value is a finite, acyclic datatype and
each recursive call receives a property value of `from`. This stands in for
the code's unstated assumption that its input is acyclic.

## Model

| member | source | states |
|---|---|---|
| `JsValues.TypeOf` | contracts/contexts/deepCopyPolyfill.js:2 | `typeof v` is `"object"` exactly for null and objects, and `"undefined"` exactly for undefined |
| `JsValues.IsNullish` | contracts/contexts/deepCopyPolyfill.js:2 | `from == null`: true of null and undefined and of nothing else |
| `JsValues.InheritedNames` | contracts/contexts/deepCopyPolyfill.js:5 | every object inherits `constructor`, which line 5 reads, and `__proto__` |
| `JsValues.InheritedMember` | contracts/contexts/deepCopyPolyfill.js:16 | an inherited name never reads undefined |
| `JsValues.Read` | contracts/contexts/deepCopyPolyfill.js:16 | `to[name]` is the own property when there is one; otherwise it reads undefined exactly when the name is not inherited |
| `JsValues.Write` | contracts/contexts/deepCopyPolyfill.js:16 | `to[name] = v` stores `v` as an own property, except that an inherited `__proto__` goes to its setter and stores nothing |
| `JsValues.ReadAfterWrite` | contracts/contexts/deepCopyPolyfill.js:16 | after `to[name] = v`, `to[name]` reads `v` and every other name reads as before |
| `JsValues.IndexNotInherited` | contracts/contexts/deepCopyPolyfill.js:15-16 | an array index name is never an inherited name, so array elements are read as own properties |
| `DeepCopySpec.ConstructorOf` | contracts/contexts/deepCopyPolyfill.js:5 | `from.constructor`: an own `constructor` property if there is one, otherwise the object's constructor, read through its prototype |
| `DeepCopySpec.IsPlain` | contracts/contexts/deepCopyPolyfill.js:2-6 | an object passes both early returns exactly when its `constructor` reads `Object` or `Array` |
| `DeepCopySpec.Kind` | contracts/contexts/deepCopyPolyfill.js:13 | `new from.constructor()` builds an `Object` or an `Array`, whichever the plain value's `constructor` reads |
| `DeepCopySpec.DeepCopy` | contracts/contexts/deepCopyPolyfill.js:1-20 | a value that is not a plain object or array is returned unchanged; for a plain one the result is a container of the target's kind, or of `from`'s kind when no target is given, holding the target's keys and `from`'s keys, less an inherited `__proto__` |
| `DeepCopySpec.Assigned` | contracts/contexts/deepCopyPolyfill.js:16 | the right-hand side of line 16: a copy of `from[name]` with a null target when `to[name]` reads undefined, otherwise what `to[name]` reads |
| `DeepCopySpec.Merge` | contracts/contexts/deepCopyPolyfill.js:15-17 | the target after the loop has visited a set of keys: the old own properties, plus the line-16 value at each visited key the target stores as its own |
| `DeepCopySpec.AssignedDefined` | contracts/contexts/deepCopyPolyfill.js:16 | after the assignment the slot reads undefined exactly when it read undefined before and the source's value is undefined |
| `DeepCopySpec.MergeSpec` | contracts/contexts/deepCopyPolyfill.js:15-17 | after the loop (per key, as `MergeAt` unfolds it) the target holds its own keys and the visited keys of `from`, less an inherited `__proto__`; an own defined property keeps its value; a key the target inherits holds the inherited member; keys not visited are untouched |
| `DeepCopySpec.CopyWithoutTargetIsIdentity` | contracts/contexts/deepCopyPolyfill.js:13-16 | with no target, the result of plain data is structurally equal to `from`, at every depth, since each recursive call gets a null target |
| `DeepCopySpec.UndefinedSlotsReceiveCopies` | contracts/contexts/deepCopyPolyfill.js:15-16 | a key of `from` whose target slot reads undefined (not own and not inherited, or own and undefined) ends up holding a copy of `from`'s value made with no target, equal to it for plain data |
| `DeepCopySpec.UnvisitedSlotUnchanged` | contracts/contexts/deepCopyPolyfill.js:15-16 | a key the loop has not visited yet reads in the partly filled target what it read before the loop |
| `DeepCopySpec.MergeStepStores` | contracts/contexts/deepCopyPolyfill.js:16 | visiting one more key that is stored as an own property updates exactly that key |
| `DeepCopySpec.MergeStepSetter` | contracts/contexts/deepCopyPolyfill.js:16 | visiting an inherited `__proto__` leaves the target's own properties as they were |
| `DeepCopySpec.MergeStep` | contracts/contexts/deepCopyPolyfill.js:15-17 | one loop iteration, whatever key it picks, is the assignment of line 16 applied to the partly filled target |
| `DeepCopySpec.RewrapBranchUnreachable` | contracts/contexts/deepCopyPolyfill.js:5-10 | a `constructor` that passes the `Object`/`Array` guard is never one of the re-wrapped constructors |
| `DeepCopySpec.SpecialObjectsPassThrough` | contracts/contexts/deepCopyPolyfill.js:5-11 | `Date`, `RegExp`, `Function`-prototype and boxed `String`/`Number`/`Boolean` objects are returned as given, whatever the target |
| `DeepCopySpec.ForeignObjectsPassThrough` | contracts/contexts/deepCopyPolyfill.js:5-6 | an object whose `constructor` reads anything else (a class instance, or an own `constructor` property) is returned as given |
| `DeepCopySpec.MergedSlotSettled` | contracts/contexts/deepCopyPolyfill.js:16 | a slot of a merged target already holds what a second visit would assign |
| `DeepCopySpec.MergeSettled` | contracts/contexts/deepCopyPolyfill.js:15-17 | merging the same source into a merged target leaves its properties as they are |
| `DeepCopySpec.CopyIsIdempotent` | contracts/contexts/deepCopyPolyfill.js:13-19 | copying the same source again into the result of a copy changes nothing |
| `DeepCopySpec.DefinedTargetUnchanged` | contracts/contexts/deepCopyPolyfill.js:16 | a target that already defines every property of the source as an own property comes back unchanged |
| `DeepCopyExamples.PreSeededTargetWins` | contracts/contexts/deepCopyPolyfill.js:16 | copying `{a: {x: 1}}` into `{a: {x: 99}}` leaves `{a: {x: 99}}` |
| `DeepCopyExamples.NestedArrayCopied` | contracts/contexts/deepCopyPolyfill.js:13-19 | copying `[1, [2, 3]]` with no target gives an equal array |
| `DeepCopyExamples.InheritedNameNotCopied` | contracts/contexts/deepCopyPolyfill.js:16 | copying `{toString: 1}` with no target gives `{toString: Object.prototype.toString}` |
| `DeepCopyExamples.ProtoKeyDropped` | contracts/contexts/deepCopyPolyfill.js:16 | copying an own `__proto__` key with no target gives `{}` |
| `DeepCopyExamples.OwnConstructorPassesThrough` | contracts/contexts/deepCopyPolyfill.js:5-6 | `{constructor: 1, a: 2}` is returned as it is, even with a target `{}` |
| `DeepCopyPolyfill.JsObject.constructor` | contracts/contexts/deepCopyPolyfill.js:13 | `new from.constructor()` is an empty container of the given constructor |
| `DeepCopyPolyfill.NativeDeepCopy` | contracts/contexts/deepCopyPolyfill.js:1-20 | non-plain input is returned and the target is untouched; with a target, that same object is returned, filled in place as `Merge` says; with no target, a fresh container of `from`'s kind is returned, equal to `from` for plain data; in every case the result is `DeepCopy` of the inputs |
| `DeepCopyPolyfill.CopyKeys` | contracts/contexts/deepCopyPolyfill.js:15-17 | the `for..in` loop, whatever order it visits the keys in, leaves the target's properties equal to `Merge` of the old target over all keys of `from`, and the target's kind is unchanged |

## Left out

- Prototypes: an object's prototype is always its constructor's `prototype`. `Object.create(p)` with another `p`, and prototypes changed after construction, are not modelled. So inherited enumerable properties, which `for..in` would also visit, do not arise.
- Inherited members: only `Object.prototype` (including `__proto__` and the legacy accessor methods) and the string-keyed methods of `Array.prototype` are modelled. Members of `Function.prototype` (`call`, `apply`, `bind`, `name`, `length`), `Date.prototype`, `RegExp.prototype`, boxed-primitive and class prototypes are not. So copying `{call: 1}` into `Object.create(Function.prototype)` stores `1` in the model, where the code keeps the inherited `call`.
- Prototype `constructor`: every prototype's `constructor` is taken to be its own constructor, so an instance of a class or of any constructor other than `Object` and `Array` always returns at line 6. Instances of an ES5 constructor whose `prototype` was replaced (`F.prototype = {m: g}`) read `constructor` as `Object`; the code copies them into a plain object together with the prototype's enumerable members, and the model does not represent them.
- `__proto__`: reading the inherited `__proto__` gives the prototype, seen as an empty object of the same kind. Assigning it to its setter is the only assignment that stores nothing; the model does not track what the prototype is after that, since the value assigned is the one it already reads.
- Array `length`: it is an own, non-enumerable property of every array and is not modelled. A source key `length` copied into an array target therefore reads undefined in the model, where it reads the array's length in the code.
- CopyWithoutTargetIsIdentity: stated only for plain data (`PlainData`), because a key that the new container inherits is not copied (see `InheritedNameNotCopied` and `ProtoKeyDropped`).
- Loose equality at line 5: `from.constructor != Object` compares with `==` semantics, so an own string `constructor` equal to the text of `Object` or `Array` (such as `"function Object() { [native code] }"`) passes the guard in the code, and line 13 then throws a TypeError when no target is given. The model compares constructor values by identity and returns such an object unchanged.
- Cyclic object graphs and the unbounded recursion they cause: an inductive datatype cannot be cyclic, so acyclic input is assumed.
- The re-wrap `new from.constructor(from)` at line 10: it is unreachable (see `RewrapBranchUnreachable`), and what it would build depends on host constructors.
- Truthiness of `to` at line 13: `to` is modelled as an optional container (`None` for null or undefined). A falsy primitive such as `0` or `""` that gets replaced is not modelled, and neither is a truthy primitive used as a target.
- Target kind: an array target for an object source, or the reverse, is treated as a property map of the target's kind.
- Host details: key enumeration order (the loop picks keys in any order and is proved correct for every order), sparse arrays, getters and setters other than `__proto__`, symbol keys, and non-enumerable own properties.
- Object identity beyond the top level: nested copies are immutable values. So "a nested copy is a distinct reference" is stated only for the top-level container (`fresh` in `NativeDeepCopy`). Aliasing between `from` and `to` is not modelled.
- Numbers are mathematical integers. Floating point and `NaN` are not modelled.
- How the function is injected into the Nim contracts context is not part of this model.
