/** JavaScript values as seen by the deep-copy polyfill.
    An object is the constructor whose prototype it inherits from and its own
    enumerable properties; every other value is a leaf. Values are finite and
    acyclic by construction. */
module JsValues {

  datatype Option<+T> = None | Some(value: T)

  /** Unboxed primitives (numbers are modelled as mathematical integers). */
  datatype Primitive = Number(n: int) | Str(s: string) | Boolean(b: bool)

  /** Built-in and user-defined constructors. */
  datatype Ctor =
    | ObjectCtor     // Object
    | ArrayCtor      // Array
    | DateCtor       // Date
    | RegExpCtor     // RegExp
    | FunctionCtor   // Function
    | StringCtor     // boxed String
    | NumberCtor     // boxed Number
    | BooleanCtor    // boxed Boolean
    | UserCtor(name: string)  // any other constructor, e.g. a class

  /** Own enumerable properties of an object, keyed by property name
      (array elements are keyed by their index strings, as `for..in` yields them). */
  type Props = map<string, Value>

  datatype Value =
    | Undefined
    | Null
    | Prim(p: Primitive)
    | Func(id: nat)                      // a user function
    | CtorFunc(c: Ctor)                  // a constructor function itself, e.g. `Object`
    | Builtin(owner: Ctor, name: string) // the method `name` of `owner.prototype`
    | Object(ctor: Ctor, props: Props)   // an object whose prototype is `ctor.prototype`
      // (an `Object(FunctionCtor, _)` is a non-callable object inheriting from
      // `Function.prototype`, as `Object.create(Function.prototype)` builds)

  /** The `typeof` operator. */
  function TypeOf(v: Value): (t: string)
    ensures t == "object" <==> v.Null? || v.Object?
    ensures t == "undefined" <==> v.Undefined?
  {
    match v
    case Undefined => "undefined"
    case Null => "object"
    case Prim(Number(_)) => "number"
    case Prim(Str(_)) => "string"
    case Prim(Boolean(_)) => "boolean"
    case Func(_) => "function"
    case CtorFunc(_) => "function"
    case Builtin(_, _) => "function"
    case Object(_, _) => "object"
  }

  /** Loose equality with null (`v == null`): true of null and undefined alone. */
  predicate IsNullish(v: Value) {
    v == Null || v == Undefined
  }

  /** Properties of `Object.prototype` (ECMAScript 2023, section 20.1.3 and
      Annex B.2.2), inherited by every object modelled here. */
  const ObjectPrototypeNames: set<string> := {
    "constructor", "__proto__", "toString", "toLocaleString", "valueOf",
    "hasOwnProperty", "isPrototypeOf", "propertyIsEnumerable",
    "__defineGetter__", "__defineSetter__", "__lookupGetter__", "__lookupSetter__"
  }

  /** String-keyed methods of `Array.prototype` (ECMAScript 2023, section 23.1.3). */
  const ArrayPrototypeNames: set<string> := {
    "at", "concat", "copyWithin", "entries", "every", "fill", "filter", "find",
    "findIndex", "findLast", "findLastIndex", "flat", "flatMap", "forEach",
    "includes", "indexOf", "join", "keys", "lastIndexOf", "map", "pop", "push",
    "reduce", "reduceRight", "reverse", "shift", "slice", "some", "sort", "splice",
    "toLocaleString", "toReversed", "toSorted", "toSpliced", "toString",
    "unshift", "values", "with"
  }

  /** The names an object of constructor `c` inherits through its prototype chain. */
  function InheritedNames(c: Ctor): (names: set<string>)
    ensures "constructor" in names && "__proto__" in names
  {
    if c == ArrayCtor then ObjectPrototypeNames + ArrayPrototypeNames else ObjectPrototypeNames
  }

  /** What an inherited name reads on an object of constructor `c`: `constructor`
      is `c` itself, `__proto__` is the prototype (seen here as an empty object
      of kind `c`: its constructor is `c` and it has no enumerable property), and
      every other name is a built-in method. */
  function InheritedMember(c: Ctor, name: string): (v: Value)
    requires name in InheritedNames(c)
    ensures TypeOf(v) != "undefined"
  {
    if name == "constructor" then CtorFunc(c)
    else if name == "__proto__" then Object(c, map[])
    else if c == ArrayCtor && name in ArrayPrototypeNames then Builtin(ArrayCtor, name)
    else Builtin(ObjectCtor, name)
  }

  /** Array index names (they start with a digit) are never inherited, so an
      array's elements never collide with its prototype's members. */
  lemma IndexNotInherited(c: Ctor, name: string)
    requires |name| > 0 && '0' <= name[0] <= '9'
    ensures name !in InheritedNames(c)
  {
    assert name !in ObjectPrototypeNames;
    assert name !in ArrayPrototypeNames;
  }

  /** Reading `obj[name]` on an object of constructor `c` with own properties
      `props`: an own property first, then the prototype chain, else undefined. */
  function Read(c: Ctor, props: Props, name: string): (v: Value)
    ensures name in props ==> v == props[name]
    ensures name !in props ==> (TypeOf(v) == "undefined" <==> name !in InheritedNames(c))
  {
    if name in props then props[name]
    else if name in InheritedNames(c) then InheritedMember(c, name)
    else Undefined
  }

  /** Whether assigning `obj[name]` stores an own property. Every name does,
      except an inherited `__proto__`, whose setter replaces the prototype. */
  predicate StoresOwn(props: Props, name: string) {
    name in props || name != "__proto__"
  }

  /** Assigning `obj[name] = v`. Assigning the inherited `__proto__` goes to its
      setter; the only value ever assigned to it here is the prototype it
      already reads, so the object is left as it was. */
  function Write(c: Ctor, props: Props, name: string, v: Value): (written: Props)
    requires !StoresOwn(props, name) ==> v == Read(c, props, name)
  {
    if StoresOwn(props, name) then props[name := v] else props
  }

  /** After `obj[name] = v`, `obj[name]` reads `v`, and every other name reads
      as it did. */
  lemma ReadAfterWrite(c: Ctor, props: Props, name: string, v: Value, other: string)
    requires !StoresOwn(props, name) ==> v == Read(c, props, name)
    ensures Read(c, Write(c, props, name, v), name) == v
    ensures other != name ==> Read(c, Write(c, props, name, v), other) == Read(c, props, other)
  {
  }
}
