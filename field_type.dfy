/** The field-type plugin contract, `FieldTypeAbstract`: the instance side
    (identity and presentation fields behind chainable setters, an options
    merge, the value lookup and the render context) and the static side (the
    plugin's own directory and its per-subtype routing cache). */
module FieldType {
  import opened JsValue
  import opened OptionsMerge
  import Registry

  /** A string, or `undefined` for a field never set. */
  predicate StringOrUndef(v: Value)
  {
    v.VStr? || v.VUndef?
  }

  /** Everything an instance holds, in one value. */
  datatype Snapshot = Snapshot(
    key: Value,
    modelKey: Value,
    field: Value,
    defaultValue: Value,
    title: Value,
    disabled: bool,
    sequelizeField: Value,
    options: map<string, Value>)

  /** The options after `setOptions(arg)` for an argument whose `typeof` is
      `'object'`: a plain object is merged in; `null` is skipped by the merge;
      a host object is taken to contribute no keys. */
  function MergeArgument(options: map<string, Value>, arg: Value): (r: map<string, Value>)
    requires TypeOf(arg) == "object"
    ensures options.Keys <= r.Keys
    ensures arg.VObj? ==> arg.fields.Keys <= r.Keys
    ensures arg.VObj? ==> forall k :: k in arg.fields && Overwrites(arg.fields[k]) ==> r[k] == arg.fields[k]
    ensures !arg.VObj? ==> r == options
  {
    if arg.VObj? then Merge(options, arg.fields) else options
  }

  class FieldTypeAbstract {
    var key: Value
    var modelKey: Value
    var field: Value
    var defaultValue: Value
    var title: Value
    var disabled: bool
    var sequelizeField: Value
    var options: map<string, Value>

    /** The identity fields and the title only ever hold a string or `undefined`. */
    ghost predicate Valid()
      reads this
    {
      StringOrUndef(key) && StringOrUndef(modelKey) && StringOrUndef(field) && StringOrUndef(title)
    }

    ghost function State(): Snapshot
      reads this
    {
      Snapshot(key, modelKey, field, defaultValue, title, disabled, sequelizeField, options)
    }

    /** A new instance: nothing set, not disabled, no options. */
    constructor ()
      ensures Valid()
      ensures State() == Snapshot(VUndef, VUndef, VUndef, VUndef, VUndef, false, VUndef, map[])
    {
      key, modelKey, field := VUndef, VUndef, VUndef;
      defaultValue, title := VUndef, VUndef;
      disabled := false;
      sequelizeField := VUndef;
      options := map[];
    }

    /** `setKey`: a string is stored; anything else is ignored. */
    method SetKey(arg: Value) returns (self: FieldTypeAbstract)
      requires Valid()
      modifies this
      ensures Valid() && self == this
      ensures arg.VStr? ==> GetKey() == arg
      ensures State() == if arg.VStr? then old(State()).(key := arg) else old(State())
    {
      if TypeOf(arg) == "string" {
        key := arg;
      }
      self := this;
    }

    function GetKey(): (r: Value)
      reads this
      requires Valid()
      ensures StringOrUndef(r)
    {
      key
    }

    /** `setModelKey`: a string is stored; anything else is ignored. */
    method SetModelKey(arg: Value) returns (self: FieldTypeAbstract)
      requires Valid()
      modifies this
      ensures Valid() && self == this
      ensures arg.VStr? ==> GetModelKey() == arg
      ensures State() == if arg.VStr? then old(State()).(modelKey := arg) else old(State())
    {
      if TypeOf(arg) == "string" {
        modelKey := arg;
      }
      self := this;
    }

    function GetModelKey(): (r: Value)
      reads this
      requires Valid()
      ensures StringOrUndef(r)
    {
      modelKey
    }

    /** `setDefaultValue`: any value is stored. */
    method SetDefaultValue(arg: Value) returns (self: FieldTypeAbstract)
      requires Valid()
      modifies this
      ensures Valid() && self == this
      ensures GetDefaultValue() == arg
      ensures State() == old(State()).(defaultValue := arg)
    {
      defaultValue := arg;
      self := this;
    }

    function GetDefaultValue(): Value
      reads this
    {
      defaultValue
    }

    /** `setTitle(title = '')`: a string is stored, a missing argument stores
        `''`, and anything else throws a `TypeError` and changes nothing. */
    method SetTitle(arg: Value) returns (r: Result<FieldTypeAbstract>)
      requires Valid()
      modifies this
      ensures Valid()
      ensures r.Ok? <==> arg.VStr? || arg.VUndef?
      ensures r.Ok? ==> r.value == this
      ensures arg.VStr? ==> GetTitle() == arg
      ensures arg.VUndef? ==> GetTitle() == VStr("")
      ensures r.Throw? ==> r.error == TypeError("Expected string value")
      ensures r.Ok? ==> State() == old(State()).(title := GetTitle())
      ensures r.Throw? ==> State() == old(State())
    {
      var t := if arg.VUndef? then VStr("") else arg;
      if TypeOf(t) == "string" {
        title := t;
      } else {
        return Throw(TypeError("Expected string value"));
      }
      r := Ok(this);
    }

    function GetTitle(): (r: Value)
      reads this
      requires Valid()
      ensures StringOrUndef(r)
    {
      title
    }

    /** `setField`: a string is stored; anything else is ignored. */
    method SetField(arg: Value) returns (self: FieldTypeAbstract)
      requires Valid()
      modifies this
      ensures Valid() && self == this
      ensures arg.VStr? ==> GetField() == arg
      ensures State() == if arg.VStr? then old(State()).(field := arg) else old(State())
    {
      if TypeOf(arg) == "string" {
        field := arg;
      }
      self := this;
    }

    function GetField(): (r: Value)
      reads this
      requires Valid()
      ensures StringOrUndef(r)
    {
      field
    }

    /** `setDisable(disable = false)`: a boolean is stored, a missing argument
        clears the flag, and anything else is ignored. */
    method SetDisable(arg: Value) returns (self: FieldTypeAbstract)
      requires Valid()
      modifies this
      ensures Valid() && self == this
      ensures arg.VBool? ==> GetDisable() == arg.b
      ensures arg.VUndef? ==> !GetDisable()
      ensures State() == old(State()).(disabled := GetDisable())
      ensures !arg.VBool? && !arg.VUndef? ==> State() == old(State())
    {
      var d := if arg.VUndef? then VBool(false) else arg;
      if TypeOf(d) == "boolean" {
        disabled := d.b;
      }
      self := this;
    }

    function GetDisable(): bool
      reads this
    {
      disabled
    }

    /** `isDisabled` is another name for `getDisable`. */
    function IsDisabled(): (r: bool)
      reads this
      ensures r == GetDisable()
    {
      GetDisable()
    }

    /** `setOptions`: an argument whose `typeof` is `'object'` is merged into
        the options; anything else is ignored. No key is ever removed. */
    method SetOptions(arg: Value) returns (self: FieldTypeAbstract)
      requires Valid()
      modifies this
      ensures Valid() && self == this
      ensures old(GetOptions()).Keys <= GetOptions().Keys
      ensures arg.VObj? ==> arg.fields.Keys <= GetOptions().Keys
      ensures TypeOf(arg) == "object" ==> State() == old(State()).(options := MergeArgument(old(options), arg))
      ensures TypeOf(arg) != "object" ==> State() == old(State())
    {
      if TypeOf(arg) == "object" {
        options := MergeArgument(GetOptions(), arg);
      }
      self := this;
    }

    function GetOptions(): map<string, Value>
      reads this
    {
      options
    }

    /** `setSequelizeField`: any value is stored. */
    method SetSequelizeField(arg: Value) returns (self: FieldTypeAbstract)
      requires Valid()
      modifies this
      ensures Valid() && self == this
      ensures GetSequelizeField() == arg
      ensures State() == old(State()).(sequelizeField := arg)
    {
      sequelizeField := arg;
      self := this;
    }

    function GetSequelizeField(): Value
      reads this
    {
      sequelizeField
    }

    /** `context()`: `{$field: this, ...locals}` where `locals` is the `Config`
        repository's `locals` entry. Every key of `locals` is present with the
        value `locals` gives it (a `$field` of its own included, being spread
        last); `$field` is this instance otherwise. Spreading anything but a
        plain object adds no key. */
    function Context(registry: Registry.Store): (ctx: map<string, Value>)
      ensures var locals := Registry.Get(registry, "Config", "locals");
        && "$field" in ctx
        && (locals.VObj? ==> ctx.Keys == locals.fields.Keys + {"$field"})
        && (locals.VObj? ==> forall k :: k in locals.fields ==> ctx[k] == locals.fields[k])
        && (!(locals.VObj? && "$field" in locals.fields) ==> ctx["$field"] == VRef(this))
        && (!locals.VObj? ==> ctx == map["$field" := VRef(this)])
    {
      var locals := Registry.Get(registry, "Config", "locals");
      var spread := if locals.VObj? then locals.fields else map[];
      map["$field" := VRef(this)] + spread
    }

    /** `getValueFromObject(item)`: `null` for a falsy item, otherwise the
        item's entry under the configured field: an own entry, else a member
        inherited from `Object.prototype`, else `undefined`. */
    function GetValueFromObject(item: Value): (r: Value)
      reads this
      requires Valid()
      ensures !Truthy(item) ==> r == VNull
      ensures item.VObj? && field.VStr? && field.s in item.fields ==> r == item.fields[field.s]
      ensures item.VObj? && field.VStr? && field.s !in item.fields && field.s in ObjectPrototypeMethods ==>
                r == InheritedMethod(field.s)
      ensures (item.VObj? && field.VStr? && field.s !in item.fields && field.s !in ObjectPrototypeMethods
                 && field.s != "__proto__") ==> r == VUndef
      ensures item.VObj? && field.VUndef? ==> r == GetProperty(item, "undefined")
    {
      if Truthy(item) then GetProperty(item, PropertyKey(GetField())) else VNull
    }

    /** `render` is abstract: on the base class it fails for every item. */
    function Render(item: Value): (r: Result<string>)
      ensures r.Throw? && r.error == Error("Method the render is abstract")
    {
      Throw(Error("Method the render is abstract"))
    }
  }

  /** The static side of one field-type class: its name, which keys the routing
      cache, and the directory its `getThisPath` override returns (`None` when
      it inherits the abstract one). */
  datatype Subtype = Subtype(name: string, dir: Option<string>)

  const AbstractPathError := Error("Method the getThisPath is abstract")

  /** `getThisPath()`: the plugin's own directory; abstract on the base class. */
  function GetThisPath(t: Subtype): (r: Result<string>)
    ensures r.Ok? <==> t.dir.Some?
    ensures r.Ok? ==> r.value == t.dir.value
    ensures r.Throw? ==> r.error == AbstractPathError
  {
    match t.dir
    case Some(d) => Ok(d)
    case None => Throw(AbstractPathError)
  }

  /** `getThisPathView()`: the plugin's directory joined with `view.jade`. */
  function GetThisPathView(t: Subtype): (r: Result<string>)
    ensures r.Ok? <==> t.dir.Some?
    ensures r.Ok? ==> r.value == t.dir.value + "/view.jade"
    ensures r.Throw? ==> r.error == AbstractPathError
  {
    match GetThisPath(t)
    case Ok(d) => Ok(d + "/view.jade")
    case Throw(e) => Throw(e)
  }

  /** The file whose existence `getRouting` checks. */
  function RoutingPath(dir: string): string
  {
    dir + "/routing.yaml"
  }

  /** The routing cache shared by all subtypes (one entry per subtype name,
      a missing entry standing for `undefined`) and two counters of the file
      operations `getRouting` has performed. */
  datatype RoutingState = RoutingState(cache: map<string, Value>, existsChecks: nat, parses: nat)

  datatype RoutingCall = RoutingCall(state: RoutingState, result: Result<Value>)

  /** A truthy cached descriptor for `t`: the only kind `getRouting` returns
      without touching the filesystem. */
  predicate CacheHit(s: RoutingState, t: Subtype)
  {
    t.name in s.cache && Truthy(s.cache[t.name])
  }

  /** One `getRouting()` on subtype `t`, with `files` the paths that exist at
      that moment and `parse` the routing parser. */
  function GetRoutingStep(s: RoutingState, t: Subtype, files: set<string>,
                          parse: (string, string) -> Result<Value>): (c: RoutingCall)
    // the directory is asked for first: on the base class nothing else happens
    ensures t.dir.None? ==> c == RoutingCall(s, Throw(AbstractPathError))
    // a truthy cached descriptor is returned with no file operation
    ensures t.dir.Some? && CacheHit(s, t) ==> c == RoutingCall(s, Ok(s.cache[t.name]))
    // otherwise the file is checked exactly once, and parsed at most once
    ensures t.dir.Some? && !CacheHit(s, t) ==> c.state.existsChecks == s.existsChecks + 1
    ensures c.state.parses == s.parses || c.state.parses == s.parses + 1
    ensures c.state.parses == s.parses + 1 <==>
              t.dir.Some? && !CacheHit(s, t) && RoutingPath(t.dir.value) in files
    // no routing file: `null`, and the negative answer is not cached
    ensures t.dir.Some? && !CacheHit(s, t) && RoutingPath(t.dir.value) !in files ==>
              c.result == Ok(VNull) && c.state.cache == s.cache
    // only a successful parse writes the cache, and only this subtype's entry
    ensures c.state.cache != s.cache ==>
              c.state.parses == s.parses + 1 && c.result.Ok? &&
              c.state.cache == s.cache[t.name := c.result.value]
    // routing file present: the parser's result or exception is returned, and a
    // successful result is stored in this subtype's entry, truthy or not
    ensures t.dir.Some? && !CacheHit(s, t) && RoutingPath(t.dir.value) in files ==>
              c.result == parse(t.dir.value, "routing.yaml") &&
              c.state.cache == (if c.result.Ok? then s.cache[t.name := c.result.value] else s.cache)
  {
    match GetThisPath(t)
    case Throw(e) => RoutingCall(s, Throw(e))
    case Ok(dir) =>
      if CacheHit(s, t) then RoutingCall(s, Ok(s.cache[t.name]))
      else
        var checked := s.(existsChecks := s.existsChecks + 1);
        if RoutingPath(dir) !in files then RoutingCall(checked, Ok(VNull))
        else
          var parsed := checked.(parses := checked.parses + 1);
          match parse(dir, "routing.yaml")
          case Throw(e) => RoutingCall(parsed, Throw(e))
          case Ok(v) => RoutingCall(parsed.(cache := parsed.cache[t.name := v]), Ok(v))
  }

  /** The outcome of consecutive `getRouting()` calls on one subtype. */
  datatype RoutingRun = RoutingRun(state: RoutingState, results: seq<Result<Value>>)

  /** `getRouting()` called once per filesystem in `snapshots`, in order. */
  function GetRoutingCalls(s: RoutingState, t: Subtype, snapshots: seq<set<string>>,
                           parse: (string, string) -> Result<Value>): (run: RoutingRun)
    ensures |run.results| == |snapshots|
    decreases |snapshots|
  {
    if snapshots == [] then RoutingRun(s, [])
    else
      var first := GetRoutingStep(s, t, snapshots[0], parse);
      var rest := GetRoutingCalls(first.state, t, snapshots[1..], parse);
      RoutingRun(rest.state, [first.result] + rest.results)
  }

  /** Once a truthy descriptor is cached, every later call returns it and
      touches no file, whatever the filesystem then holds. */
  lemma {:induction false} CachedRoutingIsStable(s: RoutingState, t: Subtype, snapshots: seq<set<string>>,
                                                 parse: (string, string) -> Result<Value>)
    requires t.dir.Some? && CacheHit(s, t)
    ensures GetRoutingCalls(s, t, snapshots, parse).state == s
    ensures forall i :: 0 <= i < |snapshots| ==>
              GetRoutingCalls(s, t, snapshots, parse).results[i] == Ok(s.cache[t.name])
    decreases |snapshots|
  {
    if snapshots != [] {
      CachedRoutingIsStable(s, t, snapshots[1..], parse);
    }
  }

  /** A first call that finds the routing file and parses it to a truthy
      descriptor caches it: that call and every later one return the same
      descriptor, and the file is checked and parsed exactly once in all. */
  lemma ParseOnceThenCached(s: RoutingState, t: Subtype, files: set<string>, later: seq<set<string>>,
                            parse: (string, string) -> Result<Value>)
    requires t.dir.Some? && !CacheHit(s, t)
    requires RoutingPath(t.dir.value) in files
    requires parse(t.dir.value, "routing.yaml").Ok? && Truthy(parse(t.dir.value, "routing.yaml").value)
    ensures var run := GetRoutingCalls(s, t, [files] + later, parse);
      && run.state.existsChecks == s.existsChecks + 1
      && run.state.parses == s.parses + 1
      && forall i :: 0 <= i < |run.results| ==> run.results[i] == parse(t.dir.value, "routing.yaml")
  {
    var first := GetRoutingStep(s, t, files, parse);
    CachedRoutingIsStable(first.state, t, later, parse);
    assert ([files] + later)[1..] == later;
  }

  /** Without a routing file (and with no truthy cached descriptor) every call
      checks the filesystem again: n calls make n existence checks, no parse,
      leave the cache as it was and all return `null`. */
  lemma {:induction false} MissingRoutingIsRechecked(s: RoutingState, t: Subtype, snapshots: seq<set<string>>,
                                                     parse: (string, string) -> Result<Value>)
    requires t.dir.Some? && !CacheHit(s, t)
    requires forall i :: 0 <= i < |snapshots| ==> RoutingPath(t.dir.value) !in snapshots[i]
    ensures var run := GetRoutingCalls(s, t, snapshots, parse);
      && run.state == s.(existsChecks := s.existsChecks + |snapshots|)
      && forall i :: 0 <= i < |snapshots| ==> run.results[i] == Ok(VNull)
    decreases |snapshots|
  {
    if snapshots != [] {
      var first := GetRoutingStep(s, t, snapshots[0], parse);
      MissingRoutingIsRechecked(first.state, t, snapshots[1..], parse);
    }
  }

  /** A parse that yields a falsy descriptor is stored but is no cache hit:
      the next call, with the file still present, checks and parses again. */
  lemma FalsyRoutingIsReparsed(s: RoutingState, t: Subtype, files: set<string>, next: set<string>,
                               parse: (string, string) -> Result<Value>)
    requires t.dir.Some? && !CacheHit(s, t)
    requires RoutingPath(t.dir.value) in files && RoutingPath(t.dir.value) in next
    requires parse(t.dir.value, "routing.yaml").Ok? && !Truthy(parse(t.dir.value, "routing.yaml").value)
    ensures var run := GetRoutingCalls(s, t, [files, next], parse);
      && run.state.cache == s.cache[t.name := parse(t.dir.value, "routing.yaml").value]
      && run.state.existsChecks == s.existsChecks + 2
      && run.state.parses == s.parses + 2
      && run.results == [parse(t.dir.value, "routing.yaml"), parse(t.dir.value, "routing.yaml")]
  {
    var first := GetRoutingStep(s, t, files, parse);
    assert !CacheHit(first.state, t);
    var second := GetRoutingStep(first.state, t, next, parse);
    assert [next][1..] == [];
    assert GetRoutingCalls(first.state, t, [next], parse) == RoutingRun(second.state, [second.result]);
    assert [files, next][1..] == [next];
  }

  /** On the base class every call fails and nothing changes. */
  lemma {:induction false} BaseRoutingAlwaysFails(s: RoutingState, t: Subtype, snapshots: seq<set<string>>,
                                                  parse: (string, string) -> Result<Value>)
    requires t.dir.None?
    ensures GetRoutingCalls(s, t, snapshots, parse).state == s
    ensures forall i :: 0 <= i < |snapshots| ==>
              GetRoutingCalls(s, t, snapshots, parse).results[i] == Throw(AbstractPathError)
    decreases |snapshots|
  {
    if snapshots != [] {
      BaseRoutingAlwaysFails(s, t, snapshots[1..], parse);
    }
  }

  /** The static `_routingCache` of every field-type class, with the routing
      parser it calls and ghost counters of the file operations performed. */
  class RoutingCache {
    var entries: map<string, Value>
    ghost var existsChecks: nat
    ghost var parses: nat
    const parse: (string, string) -> Result<Value>

    ghost function State(): RoutingState
      reads this
    {
      RoutingState(entries, existsChecks, parses)
    }

    constructor (parse: (string, string) -> Result<Value>)
      ensures State() == RoutingState(map[], 0, 0) && this.parse == parse
    {
      entries := map[];
      existsChecks, parses := 0, 0;
      this.parse := parse;
    }

    /** `getRouting()` on subtype `t`, with `files` the paths that exist now. */
    method GetRouting(t: Subtype, files: set<string>) returns (r: Result<Value>)
      modifies this
      ensures RoutingCall(State(), r) == GetRoutingStep(old(State()), t, files, parse)
    {
      var thisPath := GetThisPath(t);
      if thisPath.Throw? {
        return Throw(thisPath.error);
      }
      var routingPath := RoutingPath(thisPath.value);
      if t.name in entries && Truthy(entries[t.name]) {
        return Ok(entries[t.name]);
      }
      existsChecks := existsChecks + 1;
      if routingPath in files {
        parses := parses + 1;
        var routing := parse(GetThisPath(t).value, "routing.yaml");
        if routing.Throw? {
          return routing;
        }
        entries := entries[t.name := routing.value];
        return routing;
      }
      r := Ok(VNull);
    }
  }
}
