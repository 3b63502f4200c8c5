# Object-construction and encapsulation examples, modelled in Dafny

This project models a small catalogue of JavaScript idioms. Each is a Dafny module.

- **Basket store** (`basket.dfy`, module `Basket`): a module-private list of `{name, price}` entries. It has four operations: add, count, total (a `reduce`), and an in-place reset that pops until the list is empty.
- **Counter module** (`counter.dfy`, module `Counter`): one private integer. `increment` has post-increment semantics. `reset` reports the old value, then zeroes the counter.
- **Side-table counter** (`weak_map_counter.dfy`, module `WeakMapCounter`): per-instance counters kept in one shared table keyed by instance identity.
- **Config merge** (`person.dfy`, module `Person`): a `typeof` guard followed by a right-biased shallow merge of the partial config into `config`.
- **Prototype chain** (`prototype.dfy`, module `Prototype`): `defineProp`, `Object.create`, and property reads that walk the chain. These follow ECMA-262: section 20.1.2.2 (Object.create), section 20.1.2.4 (Object.defineProperty), section 10.1.6.3 (ValidateAndApplyPropertyDescriptor), section 10.1.8.1 (OrdinaryGet) and the default attributes of section 6.1.7.1.
- **Car record** (`car.dfy`, module `Car`): a three-field record and its `toString`.

`js_values.dfy` (module `JsValues`) holds the primitive values, `Option`, the `Completion` that a `TypeError` may interrupt, and `typeof` of a primitive.

Notes on modelling choices:

- A module singleton (the basket's private array, the counter's private variable) becomes a class. The module's state is one instance of that class.
- The side table is a `CounterTable` object holding a `map` from instance to counter. Each `CounterModule` keeps a constant reference to the shared table, which stands for the module-level `_counter`.
- Prototype-linked objects are values: an own-property map plus an optional prototype.
- `defineProp` returns a new object, or the `TypeError` that `Object.defineProperty` throws when it makes an incompatible change to a non-configurable property.
- `updateConfig` takes one of four arguments: an object with its own keys, `null`, a function, or a primitive. Config values are primitives or nested plain objects. The guard is `typeof arg === "object"`, so `null` passes it, but spreading `null` contributes no keys. The code therefore leaves the config contents unchanged for `null`, as it does for a primitive.

## Model

| member | source | states |
|---|---|---|
| `Basket.ReducePrices` | modulePattern/basket.mjs:17-19 | the `reduce` that adds each price to the running sum, started from any accumulator, ends at that accumulator plus the sum of all prices |
| `Basket.SumAppend` | modulePattern/basket.mjs:10-12 | appending an entry raises the sum of prices by exactly that entry's price |
| `Basket.BasketModule.constructor` | modulePattern/basket.mjs:1 | the private list starts empty |
| `Basket.BasketModule.AddItem` | modulePattern/basket.mjs:10-12 | the new list is the old list with the entry pushed at the end; count grows by 1 and total grows by the entry's price |
| `Basket.BasketModule.GetItemCount` | modulePattern/basket.mjs:13-15 | the count is the list length, 0 exactly when the list is empty; it only reads |
| `Basket.BasketModule.GetTotalPrice` | modulePattern/basket.mjs:16-20 | the total is the sum of `price` over all entries, and 0 for the empty list; it only reads |
| `Basket.BasketModule.Reset` | modulePattern/basket.mjs:3-7 | the pop loop ends with the list empty; what remains is always a prefix of the original list |
| `Basket.BasketModule.ResetBasketList` | modulePattern/basket.mjs:21-23 | after it the list is empty, and count and total are both 0 |
| `Basket.BasketDemo` | modulePattern/basketTest.mjs:3-19 | prices 2500 and 3000 on a fresh basket give count 2 and total 5500; after the reset both are 0 |
| `Counter.CounterModule.constructor` | modulePattern/counter.mjs:1 | the counter starts at 0 |
| `Counter.CounterModule.Increment` | modulePattern/counter.mjs:4-6 | returns the value before the call; afterwards the counter is one greater and still non-negative |
| `Counter.CounterModule.Reset` | modulePattern/counter.mjs:7-10 | reports the value held just before (the logged value), then the counter is 0 |
| `Counter.ConsecutiveIncrements` | modulePattern/counter.mjs:1-6 | from a fresh counter, the i-th of k consecutive increments returns i-1 |
| `Counter.ResetRestarts` | modulePattern/counter.mjs:4-10 | after k increments, reset reports k and the next increment returns 0 |
| `WeakMapCounter.SetEntry` | modulePattern/weakMapCounter.js:5-12 | a table `set` gives the key exactly the new value, adds only that key, and leaves every other entry unchanged |
| `WeakMapCounter.SetEntryKeepsNonNegative` | modulePattern/weakMapCounter.js:5-12 | setting an entry to a non-negative value keeps every entry of the table non-negative |
| `WeakMapCounter.SetEntryTwice` | modulePattern/weakMapCounter.js:11-13 | setting one entry twice equals setting it once to the second value, so `reset` is idempotent |
| `WeakMapCounter.CounterTable.constructor` | modulePattern/weakMapCounter.js:1 | the shared table starts empty |
| `WeakMapCounter.CounterModule.constructor` | modulePattern/weakMapCounter.js:4-6 | registers the new instance with 0 and leaves every existing entry unchanged |
| `WeakMapCounter.CounterModule.Increment` | modulePattern/weakMapCounter.js:7-10 | raises this instance's entry by exactly 1; no other entry changes |
| `WeakMapCounter.CounterModule.Reset` | modulePattern/weakMapCounter.js:11-13 | sets this instance's entry to 0; no other entry changes |
| `WeakMapCounter.CounterModule.GetCounter` | modulePattern/weakMapCounter.js:14-16 | returns this instance's stored value, which is non-negative; it only reads |
| `WeakMapCounter.IndependentCounters` | modulePattern/weakMapCounter.js:19-29 | two instances on one table incremented n1 and n2 times report n1 and n2; resetting the second leaves the first at n1 |
| `Person.TypeOf` | modulePattern/person.js:18 | `typeof` is "object" exactly for an object or `null`, never for a function or a primitive |
| `Person.SpreadEntries` | modulePattern/person.js:21 | spreading an object contributes its own keys; spreading `null` contributes none |
| `Person.ShallowMerge` | modulePattern/person.js:19-22 | the merged keys are the union; keys of the override take its value exactly, the other keys keep the base value |
| `Person.UpdatedConfig` | modulePattern/person.js:17-24 | for an object argument, the config is overridden by its keys and keeps all others; for `null`, a function or a primitive, the config is unchanged |
| `Person.MergeReplacesNested` | modulePattern/person.js:19-22 | the merge is shallow: a nested object under an overridden key is replaced wholesale, losing the keys the override lacks |
| `Person.UpdateIdempotent` | modulePattern/person.js:17-24 | applying the same update twice equals applying it once |
| `Person.CachingOffExample` | modulePattern/person.js:29-31 | `{useCaching:false}` applied to `{useCaching:true, language:"ko"}` gives `{useCaching:false, language:"ko"}` |
| `Person.InitialConfig` | modulePattern/person.js:3-6 | the initial config has exactly the keys `useCaching` and `language` |
| `Person.PersonObject.constructor` | modulePattern/person.js:1-6 | the object starts with its name and the initial config |
| `Person.PersonObject.UpdateConfig` | modulePattern/person.js:17-24 | the new config is the guarded merge of the old one with the argument; `name` never changes |
| `Person.PersonDemo` | modulePattern/person.js:29-32 | the run turns caching off and keeps the language; a string, a function or `null` argument afterwards changes nothing |
| `Prototype.BuildConfig` | constructorPattern/constructorPatternInheritance.js:2-5 | the descriptor always has a value; an option's own `value` wins over `value`; the other fields are exactly the options' |
| `Prototype.ValidateAndApply` | constructorPattern/constructorPatternInheritance.js:7 | a new or configurable property is always accepted; each field of an accepted property (value, writable, enumerable, configurable) is the descriptor's, else the current property's, else `undefined` or `false`; a non-configurable property stays non-configurable with the same enumerability, and if it is also non-writable it does not change at all |
| `Prototype.DefineProperty` | constructorPattern/constructorPatternInheritance.js:7 | throws a `TypeError` exactly when the validation refuses the change; otherwise own `key` becomes exactly the validated property, and the other own properties and the prototype stay |
| `Prototype.DefineProp` | constructorPattern/constructorPatternInheritance.js:1-8 | only the own property `key` changes and the prototype stays; a new key gets the value and `false` for each attribute the options omit; a `TypeError` arises only on a non-configurable existing key |
| `Prototype.ObjectCreate` | constructorPattern/constructorPatternInheritance.js:10-17 | the created object has no own properties and the given prototype, or none for `null` |
| `Prototype.Chain` | constructorPattern/constructorPatternInheritance.js:17 | the chain starts with the object itself, each next element is the previous one's prototype, and the last has none |
| `Prototype.Get` | constructorPattern/constructorPatternInheritance.js:21-22 | a read returns `undefined` or the value of an object of the chain that owns the key |
| `Prototype.OwnerInParent` | constructorPattern/constructorPatternInheritance.js:17 | an owner of a key on the prototype's chain is an owner on the object's own chain |
| `Prototype.GetFindsNearestOwner` | constructorPattern/constructorPatternInheritance.js:21-22 | a read returns the value held by the nearest object of the chain that owns the key |
| `Prototype.GetUndefinedWithoutOwner` | constructorPattern/constructorPatternInheritance.js:10-21 | a read is `undefined` when no object of the chain owns the key |
| `Prototype.DefineShadows` | constructorPattern/constructorPatternInheritance.js:19-22 | after defining a key on an object, reading it gives the new value, every other read is as before, and the prototype is untouched |
| `Prototype.InheritanceDemo` | constructorPattern/constructorPatternInheritance.js:10-22 | `driver.name` resolves to person's value, `driver.topSpeed` to driver's own; person gains no `topSpeed`; the default attributes are all false |
| `JsValues.TypeOfPrimitive` | modulePattern/person.js:18 | `typeof` of a primitive is never "object" |
| `Car.NewCar` | classConstructor/Car.js:2-6 | the constructor stores model, year and miles exactly as given, with no precondition |
| `Car.DigitChar` | classConstructor/Car.js:9 | a digit renders as the character of that digit |
| `Car.Digits` | classConstructor/Car.js:9 | the rendering of a natural number is a non-empty string of decimal digits without a leading zero |
| `Car.NumberToString` | classConstructor/Car.js:9 | the rendering starts with '-' exactly for a negative number, and the rest is non-empty decimal digits with no leading zero |
| `Car.DigitsRoundTrip` | classConstructor/Car.js:9 | reading back the digits of n gives n |
| `Car.NumberRoundTrip` | classConstructor/Car.js:9 | parsing the rendering of any integer, sign included, gives the integer back |
| `Car.ToString` | classConstructor/Car.js:8-10 | the result is the model, then " has done ", then the canonical decimal rendering of the miles, then " miles" |
| `Car.ToStringLayout` | classConstructor/Car.js:8-10 | the text of `toString` between " has done " and " miles" reads back as the miles exactly |
| `Car.ToStringIgnoresYear` | classConstructor/Car.js:9 | `toString` does not depend on the year |
| `Car.SonataExample` | classConstructor/Car.js:15-17 | the demonstration car renders as "쏘나타 has done 20000 miles" |

## Left out

- All `console.log` output is left out. `introduce` and `getConfig` in person.js only print, so they are not modelled. The message `reset` logs in counter.mjs is modelled as its out-value.
- basketTest.mjs is not modelled as a file. Its expected outputs are `Basket.BasketDemo`.
- Numbers are unbounded integers, not IEEE doubles. Every value the examples use is an integer. `NumberToString` therefore does not cover fractions, `NaN`, or the exponent notation JavaScript uses from 1e21 on.
- WeakMap weak references and garbage collection are left out. The table is an ordinary map and keeps its entries.
- `WeakMapCounter.CounterModule.Increment`: requires the instance to be registered. In JavaScript, calling it on an unregistered instance stores `NaN`, which the integer model cannot hold. Every instance registers itself in its constructor.
- Module loading and `export` are left out. Each module singleton is one class instance that the caller creates.
- Prototype objects are immutable values, so aliasing is not modelled. In JavaScript, a property defined on `person` after `driver` was created would be visible through `driver`. In the model it is not. The example defines every property of `person` before creating `driver`.
- Of the ECMA-262 property machinery, the model leaves out writability enforcement on assignment, accessor properties, non-extensible objects, and prototype cycles. The inductive datatype rules cycles out.
- `Person.SpreadEntries`: covers only arguments that pass the `typeof` guard. Primitives and functions are never spread, so the index keys of a spread string are not modelled. An array argument is an `Obj` whose keys are its indices.
- Basket entries are values. In JavaScript, `addItem` pushes the caller's object by reference, so a later change to that object's `price` would change `getTotalPrice`. The model copies the entry when it is added.
- Config values are primitives or nested plain objects. Arrays, functions and shared references as config values are not modelled, so the model does not capture aliasing between a nested object in the argument and the merged config.
