/** The polyfill as it runs: the target container is an object on the heap
    that the `for..in` loop fills in place, one property at a time. */
module DeepCopyPolyfill {
  import opened JsValues
  import opened DeepCopySpec

  /** A container object (`{}` or `[]`, or a caller-supplied target). */
  class JsObject {
    var ctor: Ctor
    var props: Props

    /** `new from.constructor()`: an empty container of the given kind. */
    constructor (ctor: Ctor)
      ensures this.ctor == ctor && props == map[]
    {
      this.ctor := ctor;
      props := map[];
    }

    /** The object's current value. */
    function Snapshot(): (v: Value)
      reads this
    {
      Object(ctor, props)
    }
  }

  /** What the polyfill returns: `from` itself, or the container it filled. */
  datatype Returned = Passed(v: Value) | Container(obj: JsObject)

  /** The value a return stands for. */
  function Resolve(r: Returned): (value: Value)
    reads if r.Container? then {r.obj} else {}
  {
    match r
    case Passed(v) => v
    case Container(obj) => obj.Snapshot()
  }

  /** `__native_deepCopy(from, to)`, with `to == null` for an absent target. */
  method NativeDeepCopy(from: Value, to: JsObject?) returns (r: Returned)
    modifies to
    ensures !IsPlain(from) ==> r == Passed(from) && (to != null ==> unchanged(to))
    ensures IsPlain(from) && to != null ==>
              r == Container(to) && to.ctor == old(to.ctor) &&
              to.props == Merge(from, old(to.Snapshot()), from.props.Keys)
    ensures IsPlain(from) && to == null ==>
              r.Container? && fresh(r.obj) && r.obj.ctor == Kind(from) &&
              r.obj.props == Merge(from, Object(Kind(from), map[]), from.props.Keys) &&
              (PlainData(from) ==> r.obj.props == from.props)
    ensures Resolve(r) == DeepCopy(from, if to == null then None else Some(old(to.Snapshot())))
    decreases from, 1
  {
    if IsNullish(from) || TypeOf(from) != "object" {
      return Passed(from);
    }
    if ConstructorOf(from) != CtorFunc(ObjectCtor) && ConstructorOf(from) != CtorFunc(ArrayCtor) {
      return Passed(from);
    }
    if IsRewrapConstructor(ConstructorOf(from)) {
      // the re-wrap branch: every constructor that reaches it was returned above
      assert false;
    }
    var target := to;
    if target == null {
      target := new JsObject(Kind(from));
    }
    CopyKeys(from, target);
    if to == null {
      CopyBuildsContainer(from);
      if PlainData(from) {
        CopyWithoutTargetIsIdentity(from);
      }
    } else {
      CopyFillsTarget(from, old(to.Snapshot()));
    }
    return Container(target);
  }

  /** The `for..in` loop: for each property of `from`, in whatever order, a
      target slot that reads undefined (through the prototype chain) receives
      a copy made with a null target; a defined one is assigned what it reads. */
  method CopyKeys(from: Value, to: JsObject)
    requires IsPlain(from)
    modifies to
    ensures to.ctor == old(to.ctor)
    ensures to.props == Merge(from, old(to.Snapshot()), from.props.Keys)
    decreases from, 0
  {
    ghost var before := to.Snapshot();
    MergeSpec(from, before, {});
    var pending := from.props.Keys;
    while pending != {}
      invariant pending <= from.props.Keys
      invariant to.ctor == before.ctor
      invariant to.props == Merge(from, before, from.props.Keys - pending)
      decreases pending
    {
      var name :| name in pending;
      ghost var done := from.props.Keys - pending;
      MergeStep(from, before, done, name);
      var current := Read(to.ctor, to.props, name);
      var value;
      if TypeOf(current) == "undefined" {
        var copy := NativeDeepCopy(from.props[name], null);
        value := Resolve(copy);
      } else {
        value := current;
      }
      assert value == Assigned(from, before, name);
      to.props := Write(to.ctor, to.props, name, value);
      pending := pending - {name};
      assert from.props.Keys - pending == done + {name};
    }
    assert from.props.Keys - pending == from.props.Keys;
  }
}
