/** The object-literal component: a name and a `config` record that
    `updateConfig` shallow-merges a partial record into. */
module Person {
  import opened JsValues

  /** A config value: a primitive, or a nested plain object. */
  datatype ConfigValue = Prim(v: Value) | Nested(fields: map<string, ConfigValue>)

  /** A config record: key to value. */
  type Config = map<string, ConfigValue>

  /** What `updateConfig` may be called with: an object (arrays included)
      with its own enumerable keys, `null`, a function, or any primitive. */
  datatype ConfigArg = Obj(fields: Config) | Null | Function | Other(primitive: Value)

  /** `typeof arg`: "object" for objects and also for `null`, "function"
      for a function. */
  function TypeOf(arg: ConfigArg): (t: string)
    ensures t == "object" <==> (arg.Obj? || arg.Null?)
  {
    match arg
    case Obj(_) => "object"
    case Null => "object"
    case Function => "function"
    case Other(v) => TypeOfPrimitive(v)
  }

  /** The entries `...arg` contributes to an object literal; spreading
      `null` contributes none. */
  function SpreadEntries(arg: ConfigArg): (entries: Config)
    requires TypeOf(arg) == "object"
    ensures arg.Null? ==> entries == map[]
    ensures arg.Obj? ==> entries == arg.fields
  {
    match arg
    case Obj(fields) => fields
    case Null => map[]
  }

  /** `{...base, ...over}`: a right-biased, one-level merge. */
  function ShallowMerge(base: Config, over: Config): (merged: Config)
    ensures merged.Keys == base.Keys + over.Keys
    ensures forall k :: k in over ==> merged[k] == over[k]
    ensures forall k :: k in base && k !in over ==> merged[k] == base[k]
  {
    base + over
  }

  /** The config after `updateConfig(arg)`: merged when `arg` passes the
      `typeof` guard, unchanged otherwise. */
  function UpdatedConfig(config: Config, arg: ConfigArg): (r: Config)
    ensures arg.Obj? ==> r.Keys == config.Keys + arg.fields.Keys
    ensures arg.Obj? ==> forall k :: k in arg.fields ==> r[k] == arg.fields[k]
    ensures forall k :: k in config && !(arg.Obj? && k in arg.fields) ==> k in r && r[k] == config[k]
    ensures !arg.Obj? ==> r == config
  {
    if TypeOf(arg) == "object" then ShallowMerge(config, SpreadEntries(arg)) else config
  }

  /** The merge is one level deep: a nested object under an overridden key
      is replaced wholesale, so its keys that the override lacks are gone. */
  lemma MergeReplacesNested(base: Config, over: Config, k: string, inner: string)
    requires k in base && k in over && base[k].Nested? && over[k].Nested?
    requires inner in base[k].fields && inner !in over[k].fields
    ensures ShallowMerge(base, over)[k] == over[k]
    ensures inner !in ShallowMerge(base, over)[k].fields
  {
  }

  /** Applying the same update twice is applying it once. */
  lemma UpdateIdempotent(config: Config, arg: ConfigArg)
    ensures UpdatedConfig(UpdatedConfig(config, arg), arg) == UpdatedConfig(config, arg)
  {
  }

  /** The initial config. */
  function InitialConfig(): (c: Config)
    ensures c.Keys == {"useCaching", "language"}
  {
    map["useCaching" := Prim(Bool(true)), "language" := Prim(Str("ko"))]
  }

  /** `{useCaching: false}` applied to the initial config turns caching off
      and keeps the language. */
  lemma CachingOffExample()
    ensures UpdatedConfig(InitialConfig(), Obj(map["useCaching" := Prim(Bool(false))]))
            == map["useCaching" := Prim(Bool(false)), "language" := Prim(Str("ko"))]
  {
  }

  /** The `person` object. `introduce` and `getConfig` only print. */
  class PersonObject {
    var name: string
    var config: Config

    /** The object literal as written. */
    constructor ()
      ensures name == "김민수" && config == InitialConfig()
    {
      name := "김민수";
      config := InitialConfig();
    }

    /** `updateConfig`: reassigns `config` to the merged record when the
        argument's `typeof` is "object"; `name` never changes. */
    method UpdateConfig(newConfig: ConfigArg)
      modifies this
      ensures config == UpdatedConfig(old(config), newConfig)
      ensures name == old(name)
    {
      if TypeOf(newConfig) == "object" {
        config := ShallowMerge(config, SpreadEntries(newConfig));
      }
    }
  }

  /** The demonstration run, plus a string, a function and a `null`
      argument: the first turns caching off, the others leave the config as
      it was. */
  method PersonDemo() returns (afterObject: Config, afterString: Config, afterFunction: Config, afterNull: Config)
    ensures afterObject == map["useCaching" := Prim(Bool(false)), "language" := Prim(Str("ko"))]
    ensures afterString == afterObject && afterFunction == afterObject && afterNull == afterObject
  {
    var person := new PersonObject();
    person.UpdateConfig(Obj(map["useCaching" := Prim(Bool(false))]));
    CachingOffExample();
    afterObject := person.config;
    person.UpdateConfig(Other(Str("not an object")));
    afterString := person.config;
    person.UpdateConfig(Function);
    afterFunction := person.config;
    person.UpdateConfig(Null);
    afterNull := person.config;
  }
}
