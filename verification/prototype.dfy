/** Objects linked by prototypes: `defineProp` (a descriptor built by
    spreading options over `{value}`, then `Object.defineProperty`),
    `Object.create`, and reading a property through the chain.
    The semantics follow ECMA-262: section 20.1.2.2 (Object.create),
    section 20.1.2.4 (Object.defineProperty), section 10.1.6.3
    (ValidateAndApplyPropertyDescriptor), section 10.1.8.1 (OrdinaryGet)
    and the default attribute values of section 6.1.7.1, restricted to
    data properties of extensible objects. */
module Prototype {
  import opened JsValues

  /** A data property with its three attributes. */
  datatype Property = Property(value: Value, writable: bool, enumerable: bool, configurable: bool)

  /** A property descriptor: each field present or absent. Also the shape
      of `configOptions`; an `undefined` options argument is `NoOptions()`. */
  datatype Descriptor = Descriptor(value: Option<Value>, writable: Option<bool>,
                                   enumerable: Option<bool>, configurable: Option<bool>)

  function NoOptions(): Descriptor
  {
    Descriptor(None, None, None, None)
  }

  /** An object: its own properties and its prototype (`null` is `None`).
      Being inductive, every chain is finite. */
  datatype JsObject = JsObject(own: map<string, Property>, proto: Option<JsObject>)

  /** `{ value, ...configOptions }`: `value` is always present, and an
      option's own `value` wins over it; the attributes are the options'. */
  function BuildConfig(value: Value, configOptions: Descriptor): (config: Descriptor)
    ensures config.value.Some?
    ensures configOptions.value.Some? ==> config.value == configOptions.value
    ensures configOptions.value.None? ==> config.value == Some(value)
    ensures config.(value := None) == configOptions.(value := None)
  {
    configOptions.(value := Some(configOptions.value.GetOr(value)))
  }

  /** ValidateAndApplyPropertyDescriptor for a data descriptor on an
      extensible object: the property that results, or `None` when the
      change is refused. Each field of the result is the descriptor's, else
      the current property's, else the default (`undefined`, `false`). A
      non-configurable property stays non-configurable with the same
      enumerability, and a non-writable one among them does not change at
      all (the invariants of section 6.1.7.3 of ECMA-262). */
  function ValidateAndApply(current: Option<Property>, desc: Descriptor): (r: Option<Property>)
    ensures current.None? ==> r.Some?
    ensures current.Some? && current.value.configurable ==> r.Some?
    ensures r.Some? ==> r.value.value == desc.value.GetOr(if current.Some? then current.value.value else Undefined)
    ensures r.Some? ==> r.value.writable == desc.writable.GetOr(if current.Some? then current.value.writable else false)
    ensures r.Some? ==> r.value.enumerable == desc.enumerable.GetOr(if current.Some? then current.value.enumerable else false)
    ensures r.Some? ==> r.value.configurable == desc.configurable.GetOr(if current.Some? then current.value.configurable else false)
    ensures current.Some? && !current.value.configurable && r.Some? ==>
              !r.value.configurable && r.value.enumerable == current.value.enumerable &&
              (!current.value.writable ==> r.value == current.value)
  {
    match current
    case None =>
      Some(Property(desc.value.GetOr(Undefined), desc.writable.GetOr(false),
                    desc.enumerable.GetOr(false), desc.configurable.GetOr(false)))
    case Some(cur) =>
      if !cur.configurable &&
         (desc.configurable == Some(true) ||
          (desc.enumerable.Some? && desc.enumerable.value != cur.enumerable) ||
          (!cur.writable &&
           (desc.writable == Some(true) || (desc.value.Some? && desc.value.value != cur.value))))
      then None
      else
        Some(Property(desc.value.GetOr(cur.value), desc.writable.GetOr(cur.writable),
                      desc.enumerable.GetOr(cur.enumerable), desc.configurable.GetOr(cur.configurable)))
  }

  /** `Object.defineProperty(obj, key, desc)` on the object's own properties:
      it throws exactly when the change is refused; otherwise only the own
      property `key` changes, to the validated property. */
  function DefineProperty(obj: JsObject, key: string, desc: Descriptor): (r: Completion<JsObject>)
    ensures var current := if key in obj.own then Some(obj.own[key]) else None;
      r.ThrowTypeError? <==> ValidateAndApply(current, desc).None?
    ensures r.Normal? ==> r.value.proto == obj.proto
    ensures r.Normal? ==> r.value.own.Keys == obj.own.Keys + {key}
    ensures r.Normal? ==> forall k :: k in obj.own && k != key ==> r.value.own[k] == obj.own[k]
    ensures var current := if key in obj.own then Some(obj.own[key]) else None;
      r.Normal? ==> r.value.own[key] == ValidateAndApply(current, desc).value
  {
    var current := if key in obj.own then Some(obj.own[key]) else None;
    match ValidateAndApply(current, desc)
    case None => ThrowTypeError
    case Some(p) => Normal(obj.(own := obj.own[key := p]))
  }

  /** `defineProp(obj, key, value, configOptions)`. Only the own property
      `key` changes; a new property takes `false` for every attribute the
      options leave out; it throws only on a non-configurable `key`. */
  function DefineProp(obj: JsObject, key: string, value: Value, configOptions: Descriptor): (r: Completion<JsObject>)
    ensures r.Normal? ==> r.value.proto == obj.proto
    ensures r.Normal? ==> r.value.own.Keys == obj.own.Keys + {key}
    ensures r.Normal? ==> forall k :: k in obj.own && k != key ==> r.value.own[k] == obj.own[k]
    ensures r.Normal? ==> r.value.own[key].value == configOptions.value.GetOr(value)
    ensures key !in obj.own ==>
              r == Normal(obj.(own := obj.own[key := Property(configOptions.value.GetOr(value),
                configOptions.writable.GetOr(false), configOptions.enumerable.GetOr(false),
                configOptions.configurable.GetOr(false))]))
    ensures r.ThrowTypeError? ==> key in obj.own && !obj.own[key].configurable
  {
    DefineProperty(obj, key, BuildConfig(value, configOptions))
  }

  /** `Object.create(proto)`: no own properties, `proto` as prototype. */
  function ObjectCreate(proto: Option<JsObject>): (o: JsObject)
    ensures o.own == map[] && o.proto == proto
  {
    JsObject(map[], proto)
  }

  /** The prototype chain: `o`, its prototype, and so on, to the object
      whose prototype is `null`. */
  function Chain(o: JsObject): (c: seq<JsObject>)
    ensures |c| >= 1 && c[0] == o
    ensures forall i :: 0 <= i < |c| - 1 ==> c[i].proto == Some(c[i + 1])
    ensures c[|c| - 1].proto.None?
  {
    match o.proto
    case None => [o]
    case Some(parent) => [o] + Chain(parent)
  }

  /** Reading `o[key]` (OrdinaryGet on data properties): the own property if
      there is one, otherwise the prototype's answer, `undefined` at the end.
      Whatever it returns is the value of some object of the chain that owns
      `key`, or `undefined`. */
  function Get(o: JsObject, key: string): (v: Value)
    ensures v == Undefined ||
            exists i :: 0 <= i < |Chain(o)| && key in Chain(o)[i].own && Chain(o)[i].own[key].value == v
  {
    if key in o.own then
      assert Chain(o)[0] == o;
      o.own[key].value
    else match o.proto
      case None => Undefined
      case Some(parent) =>
        var v := Get(parent, key);
        if v == Undefined then v else OwnerInParent(o, key, v); v
  }

  /** An owner of `key` on the prototype's chain is an owner on `o`'s chain. */
  lemma OwnerInParent(o: JsObject, key: string, v: Value)
    requires o.proto.Some?
    requires exists j :: 0 <= j < |Chain(o.proto.value)| && key in Chain(o.proto.value)[j].own &&
                         Chain(o.proto.value)[j].own[key].value == v
    ensures exists i :: 0 <= i < |Chain(o)| && key in Chain(o)[i].own && Chain(o)[i].own[key].value == v
  {
    var parent := o.proto.value;
    var j :| 0 <= j < |Chain(parent)| && key in Chain(parent)[j].own && Chain(parent)[j].own[key].value == v;
    assert Chain(o) == [o] + Chain(parent);
    assert Chain(o)[j + 1] == Chain(parent)[j];
  }

  /** A read finds the value on the nearest object of the chain that owns `key`. */
  lemma {:induction false} GetFindsNearestOwner(o: JsObject, key: string, i: nat)
    requires i < |Chain(o)| && key in Chain(o)[i].own
    requires forall j :: 0 <= j < i ==> key !in Chain(o)[j].own
    ensures Get(o, key) == Chain(o)[i].own[key].value
  {
    if i > 0 {
      var parent := o.proto.value;
      assert Chain(o) == [o] + Chain(parent);
      forall j | 0 <= j < i - 1
        ensures key !in Chain(parent)[j].own
      {
        assert Chain(parent)[j] == Chain(o)[j + 1];
      }
      GetFindsNearestOwner(parent, key, i - 1);
    }
  }

  /** A read is `undefined` when no object of the chain owns `key`; this
      follows from `Get`'s own contract. */
  lemma GetUndefinedWithoutOwner(o: JsObject, key: string)
    requires forall j :: 0 <= j < |Chain(o)| ==> key !in Chain(o)[j].own
    ensures Get(o, key) == Undefined
  {
  }

  /** Defining `key` on an object shadows its prototypes for `key` and
      leaves every other read, and the prototype itself, as it was. */
  lemma DefineShadows(obj: JsObject, key: string, value: Value, configOptions: Descriptor, other: string)
    requires DefineProp(obj, key, value, configOptions).Normal?
    requires other != key
    ensures var o := DefineProp(obj, key, value, configOptions).value;
      Get(o, key) == configOptions.value.GetOr(value) &&
      Get(o, other) == Get(obj, other) &&
      o.proto == obj.proto
  {
  }

  /** The demonstration: `person` from `Object.create(null)` with four
      default properties, `driver` from `Object.create(person)` with its own
      `topSpeed`. `driver.name` comes from `person`, `driver.topSpeed` from
      `driver`; `person` gains no `topSpeed`; defaults are all `false`. */
  method InheritanceDemo() returns (driverName: Value, driverTopSpeed: Value, personTopSpeed: Value, nameAttributes: Property)
    ensures driverName == Str("김민수")
    ensures driverTopSpeed == Str("100km/h")
    ensures personTopSpeed == Undefined
    ensures nameAttributes == Property(Str("김민수"), false, false, false)
  {
    var person := ObjectCreate(None);
    var r := DefineProp(person, "name", Str("김민수"), NoOptions());
    person := r.value;
    r := DefineProp(person, "car", Str("테슬라"), NoOptions());
    person := r.value;
    r := DefineProp(person, "dateOfBirth", Str("19900501"), NoOptions());
    person := r.value;
    r := DefineProp(person, "hasChild", Bool(false), NoOptions());
    person := r.value;
    var driver := ObjectCreate(Some(person));
    DefineShadows(driver, "topSpeed", Str("100km/h"), NoOptions(), "name");
    r := DefineProp(driver, "topSpeed", Str("100km/h"), NoOptions());
    assert Get(driver, "name") == Get(person, "name");
    driver := r.value;
    driverName := Get(driver, "name");
    driverTopSpeed := Get(driver, "topSpeed");
    personTopSpeed := Get(person, "topSpeed");
    nameAttributes := person.own["name"];
  }
}
