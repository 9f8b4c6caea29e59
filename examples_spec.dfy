/** Worked cases of the deep copy on concrete values. */
module DeepCopyExamples {
  import opened JsValues
  import opened DeepCopySpec

  function Num(n: int): (v: Value) { Prim(Number(n)) }

  /** A property the target already defines wins over the source's:
      copying `{a: {x: 1}}` into `{a: {x: 99}}` leaves `{a: {x: 99}}`. */
  lemma PreSeededTargetWins()
    ensures
      var from := Object(ObjectCtor, map["a" := Object(ObjectCtor, map["x" := Num(1)])]);
      var to := Object(ObjectCtor, map["a" := Object(ObjectCtor, map["x" := Num(99)])]);
      DeepCopy(from, Some(to)) == to
  {
    var from := Object(ObjectCtor, map["a" := Object(ObjectCtor, map["x" := Num(1)])]);
    var to := Object(ObjectCtor, map["a" := Object(ObjectCtor, map["x" := Num(99)])]);
    DefinedTargetUnchanged(from, to);
  }

  /** An array source with no target gives an array holding the same elements:
      `[1, [2, 3]]`, keyed by index strings. */
  lemma NestedArrayCopied()
    ensures
      var inner := Object(ArrayCtor, map["0" := Num(2), "1" := Num(3)]);
      var from := Object(ArrayCtor, map["0" := Num(1), "1" := inner]);
      DeepCopy(from, None) == from
  {
    var inner := Object(ArrayCtor, map["0" := Num(2), "1" := Num(3)]);
    var from := Object(ArrayCtor, map["0" := Num(1), "1" := inner]);
    IndexNotInherited(ArrayCtor, "0");
    IndexNotInherited(ArrayCtor, "1");
    assert PlainData(inner);
    CopyWithoutTargetIsIdentity(from);
  }

  /** An own key that a fresh `{}` inherits reads defined on the new container,
      so line 16 assigns the inherited member instead of copying:
      copying `{toString: 1}` with no target gives `{toString: Object.prototype.toString}`. */
  lemma InheritedNameNotCopied()
    ensures
      var from := Object(ObjectCtor, map["toString" := Num(1)]);
      DeepCopy(from, None) == Object(ObjectCtor, map["toString" := Builtin(ObjectCtor, "toString")])
  {
    var from := Object(ObjectCtor, map["toString" := Num(1)]);
    var empty := Object(ObjectCtor, map[]);
    CopyBuildsContainer(from);
    MergeAt(from, empty, from.props.Keys, "toString");
    assert Merge(from, empty, from.props.Keys) == map["toString" := Builtin(ObjectCtor, "toString")];
  }

  /** An own `__proto__` key (as `JSON.parse` creates) is handed to the inherited
      `__proto__` setter of the new container, so it is not copied:
      copying `{"__proto__": {}}` with no target gives `{}`. */
  lemma ProtoKeyDropped()
    ensures
      var from := Object(ObjectCtor, map["__proto__" := Object(ObjectCtor, map[])]);
      DeepCopy(from, None) == Object(ObjectCtor, map[])
  {
    var from := Object(ObjectCtor, map["__proto__" := Object(ObjectCtor, map[])]);
    var empty := Object(ObjectCtor, map[]);
    CopyBuildsContainer(from);
    MergeSpec(from, empty, from.props.Keys);
  }

  /** An own `constructor` property shadows the inherited one at line 5:
      `{constructor: 1, a: 2}` is returned as it is, even with a target `{}`. */
  lemma OwnConstructorPassesThrough()
    ensures
      var from := Object(ObjectCtor, map["constructor" := Num(1), "a" := Num(2)]);
      DeepCopy(from, Some(Object(ObjectCtor, map[]))) == from
  {
    var from := Object(ObjectCtor, map["constructor" := Num(1), "a" := Num(2)]);
    ForeignObjectsPassThrough(from, Some(Object(ObjectCtor, map[])));
  }
}
