/** The bootstrap orchestrator, `AdminInterface`: it records the configuration
    directory, publishes the parsed configuration, optionally falls back to
    rc-file discovery, publishes the four start phases in a fixed order and
    hands back the application stored in the registry.

    Its collaborators are parameters: the registry is a `Registry.Store`; the
    event emitter is a trace of effects plus `react`, an opaque function giving
    what the subscribed handlers (or the rc-file discovery) do to the registry;
    the configuration parser is an oracle that may throw, and so is the rc-file
    discovery: `rcError` says, for the registry it starts from, whether it
    throws and with what. */
module Admin {
  import opened JsValue
  import Registry

  /** What the bootstrap does that the outside can observe, in order: an event
      emitted with its arguments, or a call of the rc-file discovery. */
  datatype Effect = Emitted(event: string, args: seq<Value>) | RcDiscovery

  const SetConfigEvent := "set-config"

  /** The phases `start` emits, in the order it emits them. */
  const StartPhases: seq<string> := ["start:after", "start:init-plugin", "start", "start:before"]

  /** The orchestrator's flag together with the shared registry and the trace
      of effects so far. */
  datatype World = World(useRC: bool, registry: Registry.Store, trace: seq<Effect>)

  /** The result of a call that may throw, with the world it leaves behind. */
  datatype Step = Step(world: World, error: Option<JsError>)

  /** `EventEmitter.emit(event, ...args)`: the effect is recorded and the
      handlers act on the registry. */
  function Emit(w: World, react: (Effect, Registry.Store) -> Registry.Store,
                event: string, args: seq<Value>): (w': World)
    ensures w'.useRC == w.useRC
    ensures w'.trace == w.trace + [Emitted(event, args)]
  {
    var e := Emitted(event, args);
    w.(registry := react(e, w.registry), trace := w.trace + [e])
  }

  /** `setConfigFile(dirname, configFile)`. */
  function SetConfigFileStep(w: World, react: (Effect, Registry.Store) -> Registry.Store,
                             parseConfig: (string, string) -> Result<Value>,
                             dirname: string, configFile: string): (s: Step)
    // it fails exactly when the parser throws, with the parser's error
    ensures s.error.Some? <==> parseConfig(dirname, configFile).Throw?
    ensures s.error.Some? ==> s.error.value == parseConfig(dirname, configFile).error
    // `App.cwd` is written first, whatever the parse does
    ensures s.error.Some? ==> s.world.registry == Registry.Set(w.registry, "App", "cwd", VStr(dirname))
    ensures s.error.None? ==>
              (s.world.registry ==
               react(Emitted(SetConfigEvent, [parseConfig(dirname, configFile).value]),
                     Registry.Set(w.registry, "App", "cwd", VStr(dirname))))
    // on success: one `set-config` event carrying the configuration, and rc-file use is off
    ensures s.error.None? ==>
              s.world.trace == w.trace + [Emitted(SetConfigEvent, [parseConfig(dirname, configFile).value])]
    ensures s.error.None? ==> !s.world.useRC
    // on failure: no event and the flag as it was
    ensures s.error.Some? ==> s.world.trace == w.trace && s.world.useRC == w.useRC
  {
    var withCwd := w.(registry := Registry.Set(w.registry, "App", "cwd", VStr(dirname)));
    match parseConfig(dirname, configFile)
    case Throw(e) => Step(withCwd, Some(e))
    case Ok(config) =>
      var emitted := Emit(withCwd, react, SetConfigEvent, [config]);
      Step(emitted.(useRC := false), None)
  }

  /** `start()`, where `self` is the orchestrator passed to `start:init-plugin`. */
  function StartStep(w: World, react: (Effect, Registry.Store) -> Registry.Store,
                     rcError: Registry.Store -> Option<JsError>, self: Value): (s: Step)
    // it throws exactly when the flag is set and the rc-file discovery throws
    ensures s.error.Some? <==> w.useRC && rcError(w.registry).Some?
    ensures s.error.Some? ==> s.error == rcError(w.registry)
    // a throw from the discovery aborts `start` before any phase
    ensures s.error.Some? ==> s.world.trace == w.trace + [RcDiscovery]
    // otherwise: rc-file discovery exactly when the flag is set, and before any
    // phase; then the four phases, only `start:init-plugin` carrying an argument
    ensures s.error.None? ==>
              s.world.trace == w.trace + (if w.useRC then [RcDiscovery] else []) +
                [Emitted(StartPhases[0], []), Emitted(StartPhases[1], [self]),
                 Emitted(StartPhases[2], []), Emitted(StartPhases[3], [])]
    ensures s.world.useRC == w.useRC
  {
    var discovered :=
      if w.useRC then w.(registry := react(RcDiscovery, w.registry), trace := w.trace + [RcDiscovery])
      else w;
    if w.useRC && rcError(w.registry).Some? then Step(discovered, rcError(w.registry))
    else
      var afterPhase := Emit(discovered, react, "start:after", []);
      var initPlugin := Emit(afterPhase, react, "start:init-plugin", [self]);
      var started := Emit(initPlugin, react, "start", []);
      Step(Emit(started, react, "start:before", []), None)
  }

  /** `start()` called `n` times in a row; the first throw ends the run. */
  function StartTimes(w: World, react: (Effect, Registry.Store) -> Registry.Store,
                      rcError: Registry.Store -> Option<JsError>, self: Value, n: nat): Step
    decreases n
  {
    if n == 0 then Step(w, None)
    else
      var once := StartStep(w, react, rcError, self);
      if once.error.Some? then once else StartTimes(once.world, react, rcError, self, n - 1)
  }

  /** The names of the events in a trace, in order. */
  function EventsOf(trace: seq<Effect>): seq<string>
  {
    if trace == [] then []
    else (if trace[0].Emitted? then [trace[0].event] else []) + EventsOf(trace[1..])
  }

  /** How many times a trace calls the rc-file discovery. */
  function RcCount(trace: seq<Effect>): nat
  {
    if trace == [] then 0
    else (if trace[0].RcDiscovery? then 1 else 0) + RcCount(trace[1..])
  }

  /** `seq` repeated `n` times. */
  function Repeat(s: seq<string>, n: nat): seq<string>
  {
    if n == 0 then [] else s + Repeat(s, n - 1)
  }

  lemma {:induction false} TraceAppend(a: seq<Effect>, b: seq<Effect>)
    ensures EventsOf(a + b) == EventsOf(a) + EventsOf(b)
    ensures RcCount(a + b) == RcCount(a) + RcCount(b)
    decreases |a|
  {
    if a == [] {
      assert a + b == b;
    } else {
      assert (a + b)[1..] == a[1..] + b;
      TraceAppend(a[1..], b);
    }
  }

  /** `start` adds the four phase names, in order, and one rc-file discovery
      exactly when the flag is set; when the discovery throws, it adds the
      discovery and no event. */
  lemma StartPublishesPhases(w: World, react: (Effect, Registry.Store) -> Registry.Store,
                             rcError: Registry.Store -> Option<JsError>, self: Value)
    ensures var s := StartStep(w, react, rcError, self);
      s.error.None? ==> EventsOf(s.world.trace) == EventsOf(w.trace) + StartPhases
    ensures var s := StartStep(w, react, rcError, self);
      s.error.None? ==> RcCount(s.world.trace) == RcCount(w.trace) + (if w.useRC then 1 else 0)
    ensures var s := StartStep(w, react, rcError, self);
      s.error.Some? ==> EventsOf(s.world.trace) == EventsOf(w.trace) && RcCount(s.world.trace) == RcCount(w.trace) + 1
  {
    var s := StartStep(w, react, rcError, self);
    var rc: seq<Effect> := if w.useRC then [RcDiscovery] else [];
    TraceAppend(w.trace, rc);
    assert EventsOf([RcDiscovery]) == [] && RcCount([RcDiscovery]) == 1 by {
      assert [RcDiscovery][1..] == [];
    }
    if s.error.None? {
      var phases := [Emitted(StartPhases[0], []), Emitted(StartPhases[1], [self]),
                     Emitted(StartPhases[2], []), Emitted(StartPhases[3], [])];
      TraceAppend(w.trace + rc, phases);
      assert phases[4..] == [];
      assert EventsOf(phases[3..]) == StartPhases[3..] && RcCount(phases[3..]) == 0 by {
        assert phases[3..][1..] == phases[4..];
      }
      assert EventsOf(phases[2..]) == StartPhases[2..] && RcCount(phases[2..]) == 0 by {
        assert phases[2..][1..] == phases[3..];
      }
      assert EventsOf(phases[1..]) == StartPhases[1..] && RcCount(phases[1..]) == 0 by {
        assert phases[1..][1..] == phases[2..];
      }
      assert EventsOf(phases) == StartPhases && RcCount(phases) == 0;
    }
  }

  /** `start` has no run-once guard: n calls that do not throw publish the four
      phases n times, and call the rc-file discovery n times if the flag is
      set, never if not. With the flag clear nothing throws; a run cut short
      by a throw published k < n full rounds and made k + 1 discoveries. */
  lemma {:induction false} RepeatedStarts(w: World, react: (Effect, Registry.Store) -> Registry.Store,
                                          rcError: Registry.Store -> Option<JsError>, self: Value, n: nat)
    ensures StartTimes(w, react, rcError, self, n).world.useRC == w.useRC
    ensures !w.useRC ==> StartTimes(w, react, rcError, self, n).error.None?
    ensures var r := StartTimes(w, react, rcError, self, n);
      r.error.None? ==> EventsOf(r.world.trace) == EventsOf(w.trace) + Repeat(StartPhases, n)
    ensures var r := StartTimes(w, react, rcError, self, n);
      r.error.None? ==> RcCount(r.world.trace) == RcCount(w.trace) + (if w.useRC then n else 0)
    ensures var r := StartTimes(w, react, rcError, self, n);
      r.error.Some? ==>
        (exists k: nat :: k < n &&
           EventsOf(r.world.trace) == EventsOf(w.trace) + Repeat(StartPhases, k) &&
           RcCount(r.world.trace) == RcCount(w.trace) + k + 1)
    decreases n
  {
    if n > 0 {
      var once := StartStep(w, react, rcError, self);
      StartPublishesPhases(w, react, rcError, self);
      if once.error.Some? {
        assert Repeat(StartPhases, 0) == [];
        assert EventsOf(w.trace) + Repeat(StartPhases, 0) == EventsOf(w.trace);
      } else {
        RepeatedStarts(once.world, react, rcError, self, n - 1);
        assert EventsOf(w.trace) + StartPhases + Repeat(StartPhases, n - 1)
            == EventsOf(w.trace) + Repeat(StartPhases, n);
        var r := StartTimes(w, react, rcError, self, n);
        if r.error.Some? {
          var k: nat :| k < n - 1 &&
            EventsOf(r.world.trace) == EventsOf(once.world.trace) + Repeat(StartPhases, k) &&
            RcCount(r.world.trace) == RcCount(once.world.trace) + k + 1;
          assert EventsOf(w.trace) + StartPhases + Repeat(StartPhases, k)
              == EventsOf(w.trace) + Repeat(StartPhases, k + 1);
        }
      }
    }
  }

  /** After a successful `setConfigFile`, any number of `start` calls never
      throws and never calls the rc-file discovery, and the events published
      are `set-config` followed by the four phases once per call. */
  lemma ConfiguredBootstrap(w: World, react: (Effect, Registry.Store) -> Registry.Store,
                            parseConfig: (string, string) -> Result<Value>,
                            rcError: Registry.Store -> Option<JsError>,
                            dirname: string, configFile: string, self: Value, n: nat)
    requires parseConfig(dirname, configFile).Ok?
    ensures var configured := SetConfigFileStep(w, react, parseConfig, dirname, configFile).world;
      var started := StartTimes(configured, react, rcError, self, n);
      && started.error.None?
      && RcCount(started.world.trace) == RcCount(w.trace)
      && EventsOf(started.world.trace) == EventsOf(w.trace) + [SetConfigEvent] + Repeat(StartPhases, n)
  {
    var configured := SetConfigFileStep(w, react, parseConfig, dirname, configFile).world;
    var e := Emitted(SetConfigEvent, [parseConfig(dirname, configFile).value]);
    TraceAppend(w.trace, [e]);
    assert EventsOf([e]) == [SetConfigEvent] && RcCount([e]) == 0 by {
      assert [e][1..] == [];
    }
    RepeatedStarts(configured, react, rcError, self, n);
  }

  /** The host process's shared state: the registry, the trace of what the
      emitter and the rc-file discovery did, and the collaborators themselves. */
  class Host {
    var registry: Registry.Store
    ghost var trace: seq<Effect>
    const react: (Effect, Registry.Store) -> Registry.Store
    const parseConfig: (string, string) -> Result<Value>
    const rcError: Registry.Store -> Option<JsError>

    constructor (registry: Registry.Store, react: (Effect, Registry.Store) -> Registry.Store,
                 parseConfig: (string, string) -> Result<Value>,
                 rcError: Registry.Store -> Option<JsError>)
      ensures this.registry == registry && trace == []
      ensures this.react == react && this.parseConfig == parseConfig && this.rcError == rcError
    {
      this.registry := registry;
      trace := [];
      this.react := react;
      this.parseConfig := parseConfig;
      this.rcError := rcError;
    }

    /** `EventEmitter.emit(event, ...args)`. */
    method Emit(event: string, args: seq<Value>)
      modifies this
      ensures trace == old(trace) + [Emitted(event, args)]
      ensures registry == react(Emitted(event, args), old(registry))
    {
      registry := react(Emitted(event, args), registry);
      trace := trace + [Emitted(event, args)];
    }

    /** `setConfigFileFromRc()`: acts on the registry, and throws `error`
        when `rcError` says so for the registry it started from. */
    method DiscoverRc() returns (error: Option<JsError>)
      modifies this
      ensures error == rcError(old(registry))
      ensures trace == old(trace) + [RcDiscovery]
      ensures registry == react(RcDiscovery, old(registry))
    {
      error := rcError(registry);
      registry := react(RcDiscovery, registry);
      trace := trace + [RcDiscovery];
    }
  }

  class AdminInterface {
    var useRC: bool

    /** A new orchestrator uses the rc file unless told otherwise. */
    constructor ()
      ensures useRC
    {
      useRC := true;
    }

    ghost function WorldOf(host: Host): World
      reads this, host
    {
      World(useRC, host.registry, host.trace)
    }

    /** `setConfigFile(dirname, configFile)`: returns this orchestrator, or
        throws what the configuration parser throws. */
    method SetConfigFile(host: Host, dirname: string, configFile: string) returns (r: Result<AdminInterface>)
      modifies this, host
      ensures r.Ok? ==> r.value == this
      ensures Step(WorldOf(host), if r.Ok? then None else Some(r.error)) ==
              SetConfigFileStep(old(WorldOf(host)), host.react, host.parseConfig, dirname, configFile)
    {
      host.registry := Registry.Set(host.registry, "App", "cwd", VStr(dirname));
      var config := host.parseConfig(dirname, configFile);
      if config.Throw? {
        return Throw(config.error);
      }
      host.Emit(SetConfigEvent, [config.value]);
      var _ := SetUseRC(VBool(false));
      r := Ok(this);
    }

    /** `start()`: `None`, or the error the rc-file discovery throws. */
    method Start(host: Host) returns (error: Option<JsError>)
      modifies this, host
      ensures Step(WorldOf(host), error) == StartStep(old(WorldOf(host)), host.react, host.rcError, VRef(this))
    {
      if GetUseRC() {
        error := host.DiscoverRc();
        if error.Some? {
          return;
        }
      }
      error := None;
      host.Emit("start:after", []);
      host.Emit("start:init-plugin", [VRef(this)]);
      host.Emit("start", []);
      host.Emit("start:before", []);
    }

    /** `middleware()`: the effects of `start()`, then the `App` repository's
        `instance` entry as the handlers left it; a throw from `start()`
        passes through. */
    method Middleware(host: Host) returns (app: Result<Value>)
      modifies this, host
      ensures Step(WorldOf(host), if app.Ok? then None else Some(app.error)) ==
              StartStep(old(WorldOf(host)), host.react, host.rcError, VRef(this))
      ensures app.Ok? ==> app.value == Registry.Get(host.registry, "App", "instance")
    {
      var error := Start(host);
      if error.Some? {
        return Throw(error.value);
      }
      app := Ok(Registry.Get(host.registry, "App", "instance"));
    }

    /** `setUseRC(useRC = true)`: a boolean is stored, a missing argument sets
        the flag, anything else is ignored. */
    method SetUseRC(arg: Value) returns (self: AdminInterface)
      modifies this
      ensures self == this
      ensures arg.VBool? ==> useRC == arg.b
      ensures arg.VUndef? ==> useRC
      ensures !arg.VBool? && !arg.VUndef? ==> useRC == old(useRC)
    {
      var flag := if arg.VUndef? then VBool(true) else arg;
      if TypeOf(flag) == "boolean" {
        useRC := flag.b;
      }
      self := this;
    }

    function GetUseRC(): bool
      reads this
    {
      useRC
    }
  }
}
