# admin-interface core, modelled in Dafny

This project models the two stateful components of the admin-interface
extensibility core:

- **`FieldTypeAbstract`**, the base class of every field-type plugin. An
  instance holds its identity (`key`, `modelKey`, `field`), its presentation
  (`title`, `defaultValue`, the `disabled` flag, merged `options`) and an opaque
  persistence binding (`sequelizeField`) behind chainable setters. Each setter
  has its own input-type policy. The class side provides the plugin's directory
  (`getThisPath`, abstract), the view path and a lazily filled routing cache
  kept per subtype (`getRouting`).
- **`AdminInterface`**, the bootstrap orchestrator. `setConfigFile` records
  the working directory, publishes the parsed configuration and turns rc-file
  discovery off. `start` optionally runs rc-file discovery and then publishes
  `start:after`, `start:init-plugin`, `start`, `start:before` in that literal
  order. `middleware` starts and relays the `App.instance` registry entry.

Files:

- `js_value.dfy` (module `JsValue`): JavaScript values as the core sees them
  (`typeof`, truthiness, property lookup) and `Result` for calls that throw.
- `registry.dfy` (module `Registry`): the named registry as a map of maps.
- `options_merge.dfy` (module `OptionsMerge`): the recursive merge applied by
  `setOptions`, with its key-preservation, idempotence and cumulative lemmas.
- `field_type.dfy` (module `FieldType`): the `FieldTypeAbstract` class (one
  method per setter, one function per getter), the class-side path functions,
  the routing-cache step function `GetRoutingStep` with lemmas about repeated
  calls, and the `RoutingCache` class whose `GetRouting` is proved against it.
- `admin_interface.dfy` (module `Admin`): the orchestrator's effects as
  functions over a `World` (flag, registry, trace of effects), lemmas about
  phase order and rc-file discovery, and the `Host` and `AdminInterface`
  classes whose methods are proved against those functions.

How the collaborators are represented:

- A JavaScript argument is a `Value`. `VUndef` also stands for an omitted
  argument, since default parameters apply exactly when the argument is
  `undefined`. A class instance passed around (the field type as `$field`, the
  orchestrator as the `start:init-plugin` argument) is `VRef`.
- The registry is a `map<string, map<string, Value>>`. Its `get` is taken to
  return `undefined` for a missing repository or key.
- The event emitter is a ghost trace of `Effect`s plus `react`, an opaque total
  function that gives what the subscribed handlers do to the registry when an
  event is emitted. The rc-file discovery is recorded in the same trace and
  also acts through `react`; whether it throws, and with what, is `rcError`, an
  oracle of the registry it starts from.
- `fs.existsSync` is a `files: set<string>` argument of each `getRouting` call,
  so a routing file that appears later is visible to later calls. The routing
  parser and the configuration parser are oracles that may throw. Each parser
  is a fixed function of its arguments, so the routing file's contents are
  taken not to change while the process runs. Ghost counters record
  existence checks and parses.

Behaviour of the code that the model follows:

- `middleware` returns whatever `App.instance` holds after the four phases,
  and throws what `start` throws.
- A throw from rc-file discovery aborts `start` before `start:after`: no
  phase is published.
- `getRouting` calls `getThisPath` before it looks at the cache
  (FieldTypeAbstract.js:92), so a cache hit still needs the subtype's own
  `getThisPath`.
- The cache stores whatever the parser returns (line 100), but only a truthy
  entry counts as a hit (line 93). A falsy parse result is parsed again on the
  next call.
- rc-file discovery is skipped whenever the flag is false. `setUseRC(true)`
  turns it back on even after `setConfigFile`.
- `setConfigFile` writes `App.cwd` before parsing. A parse failure leaves
  `cwd` written, no event emitted and the flag unchanged.

## Model

| member | source | states |
|---|---|---|
| `JsValue.TypeOf` | packages/core/src/FieldTypeAbstract/FieldTypeAbstract.js:240 | `typeof` is `'object'` exactly for `null`, plain objects and host objects; `'string'`, `'boolean'`, `'undefined'` exactly for those kinds |
| `JsValue.PropertyKey` | packages/core/src/FieldTypeAbstract/FieldTypeAbstract.js:284 | a string field is its own key; an unset (`undefined`) field indexes the key `"undefined"` |
| `JsValue.GetProperty` | packages/core/src/FieldTypeAbstract/FieldTypeAbstract.js:284 | `obj[key]` on a plain object is its own entry when present, else the method inherited from `Object.prototype` under that name, else `undefined` |
| `JsValue.InheritedMethod` | packages/core/src/FieldTypeAbstract/FieldTypeAbstract.js:284 | a name inherited from `Object.prototype` reads as a function: `constructor` is exactly the `Object` function, every other name the method of that name |
| `Registry.Repository` | packages/express/src/AdminInterface/AdminInterface.js:17 | `getRepository` yields the existing repository, or an empty one for a new name |
| `Registry.Get` | packages/express/src/AdminInterface/AdminInterface.js:48 | `get` returns the stored entry, `undefined` for a missing repository or key |
| `Registry.Set` | packages/express/src/AdminInterface/AdminInterface.js:17 | after `set`, `get` of that key returns the value; every other entry of every repository is unchanged |
| `OptionsMerge.Merge` | packages/core/src/FieldTypeAbstract/FieldTypeAbstract.js:241 | every key of both sides is kept; untouched keys keep their value; a later scalar wins; `undefined` never removes a value; nested objects keep the keys of both sides (needs the recursive calls' contract) |
| `OptionsMerge.MergeIntoEmpty` | packages/core/src/FieldTypeAbstract/FieldTypeAbstract.js:241 | merging into empty options gives back the argument itself (a deep copy equal to it) |
| `OptionsMerge.MergeIdempotent` | packages/core/src/FieldTypeAbstract/FieldTypeAbstract.js:239-244 | calling `setOptions` twice with the same object gives the same options as once |
| `OptionsMerge.MergeAllKeepsKeys` | packages/core/src/FieldTypeAbstract/FieldTypeAbstract.js:239-244 | after any sequence of object merges, every starting key and every key of every argument is present |
| `FieldType.MergeArgument` | packages/core/src/FieldTypeAbstract/FieldTypeAbstract.js:239-244 | for an `'object'`-typed argument, no existing key is lost and every key of a plain-object argument is added; `null` leaves the options as they were |
| `FieldType.FieldTypeAbstract.constructor` | packages/core/src/FieldTypeAbstract/FieldTypeAbstract.js:15-63 | a new instance has every field `undefined`, `disabled` false and empty options |
| `FieldType.FieldTypeAbstract.SetKey` | packages/core/src/FieldTypeAbstract/FieldTypeAbstract.js:111-116 | returns the same instance; a string argument is what `getKey` then returns; a non-string argument changes nothing; no other field changes |
| `FieldType.FieldTypeAbstract.GetKey` | packages/core/src/FieldTypeAbstract/FieldTypeAbstract.js:122-124 | the key is always a string or `undefined` |
| `FieldType.FieldTypeAbstract.SetModelKey` | packages/core/src/FieldTypeAbstract/FieldTypeAbstract.js:131-136 | returns the same instance; stores a string argument, ignores anything else; no other field changes |
| `FieldType.FieldTypeAbstract.GetModelKey` | packages/core/src/FieldTypeAbstract/FieldTypeAbstract.js:142-144 | the model key is always a string or `undefined` |
| `FieldType.FieldTypeAbstract.SetDefaultValue` | packages/core/src/FieldTypeAbstract/FieldTypeAbstract.js:151-154 | returns the same instance; any value is stored and read back by `getDefaultValue`; no other field changes |
| `FieldType.FieldTypeAbstract.GetDefaultValue` | packages/core/src/FieldTypeAbstract/FieldTypeAbstract.js:160-162 | reads back the stored default value; `SetDefaultValue` states that it returns what was last stored |
| `FieldType.FieldTypeAbstract.SetTitle` | packages/core/src/FieldTypeAbstract/FieldTypeAbstract.js:169-176 | succeeds exactly for a string or a missing argument (which stores `''`); otherwise throws `TypeError('Expected string value')` and changes nothing; on success only the title changes |
| `FieldType.FieldTypeAbstract.GetTitle` | packages/core/src/FieldTypeAbstract/FieldTypeAbstract.js:182-184 | the title is always a string or `undefined` |
| `FieldType.FieldTypeAbstract.SetField` | packages/core/src/FieldTypeAbstract/FieldTypeAbstract.js:191-196 | returns the same instance; stores a string argument, ignores anything else; no other field changes |
| `FieldType.FieldTypeAbstract.GetField` | packages/core/src/FieldTypeAbstract/FieldTypeAbstract.js:202-204 | the field name is always a string or `undefined` |
| `FieldType.FieldTypeAbstract.SetDisable` | packages/core/src/FieldTypeAbstract/FieldTypeAbstract.js:211-216 | returns the same instance; a boolean is stored, a missing argument clears the flag, anything else changes nothing; only the flag changes |
| `FieldType.FieldTypeAbstract.GetDisable` | packages/core/src/FieldTypeAbstract/FieldTypeAbstract.js:222-224 | reads the flag; false on a new instance, and what `SetDisable` last stored |
| `FieldType.FieldTypeAbstract.IsDisabled` | packages/core/src/FieldTypeAbstract/FieldTypeAbstract.js:230-232 | `isDisabled()` always equals `getDisable()` |
| `FieldType.FieldTypeAbstract.SetOptions` | packages/core/src/FieldTypeAbstract/FieldTypeAbstract.js:239-244 | returns the same instance; no option key is ever lost; a plain-object argument's keys are all added; a non-`'object'` argument changes nothing; only the options change |
| `FieldType.FieldTypeAbstract.GetOptions` | packages/core/src/FieldTypeAbstract/FieldTypeAbstract.js:250-252 | reads the options; empty on a new instance, and only ever grown by `SetOptions` |
| `FieldType.FieldTypeAbstract.SetSequelizeField` | packages/core/src/FieldTypeAbstract/FieldTypeAbstract.js:259-262 | returns the same instance; any value is stored and read back; no other field changes |
| `FieldType.FieldTypeAbstract.GetSequelizeField` | packages/core/src/FieldTypeAbstract/FieldTypeAbstract.js:268-270 | reads back the stored persistence binding; `SetSequelizeField` states that it returns what was last stored |
| `FieldType.FieldTypeAbstract.Context` | packages/core/src/FieldTypeAbstract/FieldTypeAbstract.js:276-281 | the context holds `$field` and every key of `Config.locals` with the value `locals` gives it; `$field` is the instance unless `locals` has its own; with no plain-object `locals` it is exactly `{$field: this}` |
| `FieldType.FieldTypeAbstract.GetValueFromObject` | packages/core/src/FieldTypeAbstract/FieldTypeAbstract.js:283-285 | `null` for a falsy item; the item's own entry at the configured field, else the inherited `Object.prototype` method of that name, else `undefined`; an unset field looks up `"undefined"` |
| `FieldType.FieldTypeAbstract.Render` | packages/core/src/FieldTypeAbstract/FieldTypeAbstract.js:292-294 | fails for every item with `Error('Method the render is abstract')` |
| `FieldType.GetThisPath` | packages/core/src/FieldTypeAbstract/FieldTypeAbstract.js:75-77 | fails with the abstract-method error exactly when the subtype does not supply its directory |
| `FieldType.GetThisPathView` | packages/core/src/FieldTypeAbstract/FieldTypeAbstract.js:83-85 | the subtype's directory followed by `/view.jade`; fails like `getThisPath` on the base class |
| `FieldType.GetRoutingStep` | packages/core/src/FieldTypeAbstract/FieldTypeAbstract.js:91-104 | on the base class it fails and changes nothing; a truthy cached descriptor is returned with no file operation; otherwise one existence check, a parse exactly when the file exists, `null` and no caching when it does not; with the file present the parser's result or exception is returned and a successful result, truthy or not, is stored in this subtype's entry; nothing else writes the cache |
| `FieldType.CachedRoutingIsStable` | packages/core/src/FieldTypeAbstract/FieldTypeAbstract.js:92-95 | once a truthy descriptor is cached, every later call returns it and touches no file, whatever the filesystem holds |
| `FieldType.ParseOnceThenCached` | packages/core/src/FieldTypeAbstract/FieldTypeAbstract.js:97-101 | a first call that parses a truthy descriptor and any number of later calls all return it, with exactly one existence check and one parse in total |
| `FieldType.MissingRoutingIsRechecked` | packages/core/src/FieldTypeAbstract/FieldTypeAbstract.js:97-103 | without a routing file, n calls make n existence checks, no parse, leave the cache unchanged and all return `null` |
| `FieldType.FalsyRoutingIsReparsed` | packages/core/src/FieldTypeAbstract/FieldTypeAbstract.js:93-101 | a falsy parse result is stored but is no cache hit: the next call checks and parses again and returns the parser's result again |
| `FieldType.BaseRoutingAlwaysFails` | packages/core/src/FieldTypeAbstract/FieldTypeAbstract.js:75-77 | on the base class every `getRouting` call fails with the abstract-method error and nothing changes |
| `FieldType.RoutingCache.constructor` | packages/core/src/FieldTypeAbstract/FieldTypeAbstract.js:69 | the routing cache starts empty, with no file operation performed |
| `FieldType.RoutingCache.GetRouting` | packages/core/src/FieldTypeAbstract/FieldTypeAbstract.js:91-104 | the new cache, counters and result are exactly those of `GetRoutingStep` |
| `Admin.Emit` | packages/express/src/AdminInterface/AdminInterface.js:20 | emitting appends exactly that event to the trace and leaves the flag alone |
| `Admin.SetConfigFileStep` | packages/express/src/AdminInterface/AdminInterface.js:16-26 | fails exactly when the parser throws, with its error; `App.cwd` is written either way; on success one `set-config` event with the parsed config is appended and the flag is false; on failure no event and the flag unchanged |
| `Admin.StartStep` | packages/express/src/AdminInterface/AdminInterface.js:28-41 | throws exactly when the flag is set and rc-file discovery throws, with its error and no phase emitted; otherwise rc-file discovery exactly when the flag is set and before any phase, then `start:after`, `start:init-plugin` (with the orchestrator), `start`, `start:before`; the flag is unchanged |
| `Admin.StartPublishesPhases` | packages/express/src/AdminInterface/AdminInterface.js:29-40 | a `start` that returns adds the four phase names in order and one rc-file discovery exactly when the flag is set; one that throws adds the discovery and no event |
| `Admin.RepeatedStarts` | packages/express/src/AdminInterface/AdminInterface.js:28-41 | no run-once guard: n starts that do not throw publish the four phases n times, and discover the rc file n times if the flag is set, never otherwise; with the flag clear no start throws; a run cut short by a throw published k < n full rounds and made k + 1 discoveries |
| `Admin.ConfiguredBootstrap` | packages/express/src/AdminInterface/AdminInterface.js:16-41 | after a successful `setConfigFile`, any number of starts never throws and never discovers the rc file, and the events are `set-config` then the four phases per start |
| `Admin.Host.Emit` | packages/express/src/AdminInterface/AdminInterface.js:34-40 | an emit appends its event to the trace and applies the handlers' effect to the registry |
| `Admin.Host.DiscoverRc` | packages/express/src/AdminInterface/AdminInterface.js:31 | rc-file discovery is recorded in the trace, applies its effect to the registry and throws what `rcError` gives for the registry it started from |
| `Admin.AdminInterface.constructor` | packages/express/src/AdminInterface/AdminInterface.js:14 | a new orchestrator uses the rc file |
| `Admin.AdminInterface.SetConfigFile` | packages/express/src/AdminInterface/AdminInterface.js:16-26 | returns the same orchestrator or the parser's error, and leaves the flag, registry and trace exactly as `SetConfigFileStep` says |
| `Admin.AdminInterface.Start` | packages/express/src/AdminInterface/AdminInterface.js:28-41 | throws, and leaves the flag, registry and trace, exactly as `StartStep` says, with this orchestrator as the `start:init-plugin` argument |
| `Admin.AdminInterface.Middleware` | packages/express/src/AdminInterface/AdminInterface.js:43-49 | has exactly the effects of `start`, throws what it throws, and otherwise returns `App.instance` as read after the four phases |
| `Admin.AdminInterface.SetUseRC` | packages/express/src/AdminInterface/AdminInterface.js:51-56 | returns the same orchestrator; a boolean is stored, a missing argument sets the flag, anything else changes nothing |
| `Admin.AdminInterface.GetUseRC` | packages/express/src/AdminInterface/AdminInterface.js:58-60 | reads the flag; true on a new orchestrator, false after a successful `setConfigFile`, and what `SetUseRC` last stored |

## Left out

- File I/O, the YAML configuration parser and the routing parser are not modelled. `fs.existsSync` is a set of existing paths passed to each `getRouting` call, and the two parsers are oracles.
- `path.join` normalisation: `GetThisPathView` joins with a plain `/`.
- The static `_routingCache` inherited along the prototype chain between a subclass and its own subclasses is not modelled; the cache is a map keyed by subtype name.
- The registry and event-emitter implementations are not part of this model. The registry's `get` is taken to return `undefined` for a missing repository or key; a throwing `get` is not modelled. Handler subscription and dispatch are not modelled. What handlers do is the `react` function, which always returns, so a handler that throws and aborts the bootstrap is not modelled.
- Handlers act only on the registry. A handler cannot reach the orchestrator it receives with `start:init-plugin` (for example to call `setUseRC`), and it cannot emit further events. The unchanged flag in `StartStep` and the rc-discovery counts in `RepeatedStarts` rely on this.
- rc-file discovery (`setConfigFileFromRc`) is an opaque effect on the registry plus an oracle `rcError` saying whether it throws. What it did to the registry before a throw is folded into the same effect. It is taken not to change this orchestrator's flag. Anything `setConfigFileFromRc` emits itself (for example a `set-config` for the rc configuration) is folded into the single `RcDiscovery` effect; `Admin.EventsOf` does not count it, so the four phase events per start in `Admin.StartPublishesPhases` and `Admin.RepeatedStarts` are the ones `start` emits itself.
- `FieldType.MergeArgument`: a host-object argument (a class instance) is taken to contribute no keys, because its enumerable properties are not visible to the model.
- `OptionsMerge.Merge`: arrays are plain objects keyed by index. Merging a plain object into a destination entry that is a host object builds a fresh object; lodash would mutate that instance in place.
- `FieldType.FieldTypeAbstract.SetOptions`: the in-place mutation of the options object is modelled as assigning a new map. Aliasing through the object returned by `getOptions` is not modelled.
- `FieldType.FieldTypeAbstract.Context`: spreading a string `locals` adds its characters under index keys in JavaScript; here only a plain-object `locals` adds keys.
- `JsValue.GetProperty`: the `__proto__` key of a plain object (its prototype, `Object.prototype` itself) is not modelled, and neither are inherited non-method members; an object literal's own `__proto__` entry is treated as an ordinary key. Arrays are plain objects keyed by index, so an array's `length` and the `Array.prototype` methods read as `undefined`.
- `FieldType.FieldTypeAbstract.GetValueFromObject`: a field named `__proto__` is not modelled (see `JsValue.GetProperty`). For a truthy item that is not a plain object (a non-empty string, a number, a host object), prototype and own properties are not modelled and the lookup yields `undefined`. For an array item, `length` and the `Array.prototype` methods yield `undefined` as well (arrays are objects keyed by index).
- Numbers are integers; `NaN` and fractions are not modelled.
- `setConfigFile` arguments are strings, as the Flow annotations declare. Non-string directory or file names are not modelled.
- The Express application object, the `../Event/Installation` side-effect import, Flow types and Sequelize are framework glue and are not modelled.
