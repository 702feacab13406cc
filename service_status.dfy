/** The service_status block (src/blocks/service_status.rs): it watches a
    systemd unit over D-Bus and shows one widget per observed state.

    The world outside the block (the system bus, systemd, the format engine
    and the status bar) is a `Host` of oracles; an `Environment` answers the
    block's calls from it and records each call in its `log`, so the order
    of calls can be stated. `Startup`, `Loop` and `Monitor` say what the
    block does; `SystemdDriver.New` and `Run` do it step by step and are
    proved to match them. */
module ServiceStatus {
  import opened Wrappers
  import opened UnitPath
  import ObjectPath

  /** The widget states this block uses. */
  datatype State = Idle | Info | Good | Warning | Critical

  /** The init systems the block can ask; only systemd exists. */
  datatype DriverType = Systemd

  /** The block's configuration; a format or state that is not configured is
      `None`. */
  datatype Config = Config(
    driver: DriverType,
    service: string,
    activeFormat: Option<string>,
    inactiveFormat: Option<string>,
    activeState: Option<State>,
    inactiveState: Option<State>)

  const DefaultActiveFormat := " $service active "
  const DefaultInactiveFormat := " $service inactive "

  /** Why the block stopped. */
  datatype Error =
    | BusConnection                          // the system bus could not be opened
    | InvalidFormat(template: string)        // the format engine rejected a template
    | NonAsciiServiceName(service: string)   // "service name ... must only contain ASCII characters"
    | CouldNotSetPath                        // "Could not set path"
    | FailedToCreateUnitProxy                // "Failed to create UnitProxy"
    | CouldNotGetActiveState                 // "Could not get active_state"
    | SetWidgetFailed                        // the bar refused the widget

  datatype Result<T> = Ok(value: T) | Err(error: Error)

  /** The bus's answer to one read of the unit's ActiveState property. */
  datatype PropertyRead = Read(value: string) | ReadFailed

  /** The state and format shown for one of the two observable situations. */
  datatype Profile = Profile(state: State, format: string)

  /** What the widget holds when it is handed to the bar. */
  datatype Snapshot = Snapshot(state: State, format: Option<string>, values: map<string, string>)

  /** One call of the block into the world outside it. */
  datatype Event =
    | Connect(connected: bool)
    | BuildProxy(path: string, built: bool)
    | Subscribe(path: string)
    | ReadActiveState(path: string, reply: PropertyRead)
    | SetWidget(shown: Snapshot, accepted: bool)
    | NextChange(item: Option<string>)

  /** The world outside the block: whether the bus connection opens, whether
      the proxy builds, which templates the format engine accepts, the reply
      to the i-th read of ActiveState, whether the bar accepts the i-th
      widget, and the ActiveState changes the subscription delivers before
      its stream ends. */
  datatype Host = Host(
    connects: bool,
    builds: bool,
    parses: string -> bool,
    activeState: nat -> PropertyRead,
    accepts: nat -> bool,
    changes: seq<string>)

  /** What the block did: its calls, in order, and how it ended. */
  datatype Trace<T> = Trace(events: seq<Event>, result: Result<T>)

  /** The endless loop either failed or is still running when observation
      stops. */
  datatype Exit = Failed(error: Error) | Running

  datatype Observed = Observed(events: seq<Event>, exit: Exit)

  /** The fixed inputs of the monitor loop: the service, the two profiles
      and the object path of the proxy. */
  datatype Setup = Setup(service: string, active: Profile, inactive: Profile, path: string)

  /** `is_active`: an ActiveState read that succeeded is active exactly when
      its value is "active"; a failed read is an error. */
  function ActiveFromReply(reply: PropertyRead): (r: Result<bool>)
    ensures r.Err? <==> reply.ReadFailed?
    ensures r.Err? ==> r.error == CouldNotGetActiveState
    ensures r.Ok? ==> (r.value <==> reply.value == "active")
  {
    match reply
    case Read(state) => Ok(state == "active")
    case ReadFailed => Err(CouldNotGetActiveState)
  }

  /** The profile for the queried state. */
  function Select(active: bool, setup: Setup): Profile {
    if active then setup.active else setup.inactive
  }

  /** The widget as handed to the bar for a profile: its state, its format,
      and the service name as the `service` placeholder. */
  function Render(setup: Setup, p: Profile): Snapshot {
    Snapshot(p.state, Some(p.format), map["service" := setup.service])
  }

  /** The next item of the change stream; None once the stream has ended. */
  function Head(stream: seq<string>): Option<string> {
    if stream == [] then None else Some(stream[0])
  }

  /** The stream after one `next()`; an ended stream stays ended. */
  function Tail(stream: seq<string>): seq<string> {
    if stream == [] then [] else stream[1..]
  }

  /** `SystemdDriver::new`: open the bus, check the name, build the proxy
      for the unit's path, subscribe to ActiveState changes. */
  function Startup(service: string, host: Host): Trace<string> {
    if !host.connects then Trace([Connect(false)], Err(BusConnection))
    else if !IsAscii(service) then Trace([Connect(true)], Err(NonAsciiServiceName(service)))
    else
      var path := UnitObjectPath(service);
      if !ObjectPath.IsValid(path) then Trace([Connect(true)], Err(CouldNotSetPath))
      else if !host.builds then Trace([Connect(true), BuildProxy(path, false)], Err(FailedToCreateUnitProxy))
      else Trace([Connect(true), BuildProxy(path, true), Subscribe(path)], Ok(path))
  }

  /** One pass of the monitor loop, the i-th query, with `stream` the
      changes the subscription still delivers: query, hand the widget to
      the bar, wait for a change. */
  function Step(setup: Setup, host: Host, i: nat, stream: seq<string>): Observed {
    var reply := host.activeState(i);
    var read := ReadActiveState(setup.path, reply);
    match ActiveFromReply(reply)
    case Err(e) => Observed([read], Failed(e))
    case Ok(active) =>
      var shown := Render(setup, Select(active, setup));
      if !host.accepts(i) then Observed([read, SetWidget(shown, false)], Failed(SetWidgetFailed))
      else Observed([read, SetWidget(shown, true), NextChange(Head(stream))], Running)
  }

  /** An observation `o` made after the calls `prefix`. */
  function After(prefix: seq<Event>, o: Observed): Observed {
    Observed(prefix + o.events, o.exit)
  }

  /** `fuel` passes of the monitor loop from the i-th query on: each pass
      that completes is followed by the next, on the rest of the stream;
      the first that fails ends the loop. */
  function Loop(setup: Setup, host: Host, i: nat, stream: seq<string>, fuel: nat): Observed
    decreases fuel
  {
    if fuel == 0 then Observed([], Running)
    else
      var first := Step(setup, host, i, stream);
      if first.exit != Running then first
      else After(first.events, Loop(setup, host, i + 1, Tail(stream), fuel - 1))
  }

  /** The two profiles after defaults, or the template the format engine
      rejected; `FormatConfig::with_default` is `GetOr` on the configured
      template. */
  function Profiles(config: Config, host: Host): Result<(Profile, Profile)> {
    var activeFormat := GetOr(config.activeFormat, DefaultActiveFormat);
    var inactiveFormat := GetOr(config.inactiveFormat, DefaultInactiveFormat);
    if !host.parses(activeFormat) then Err(InvalidFormat(activeFormat))
    else if !host.parses(inactiveFormat) then Err(InvalidFormat(inactiveFormat))
    else Ok((Profile(GetOr(config.activeState, Idle), activeFormat),
             Profile(GetOr(config.inactiveState, Critical), inactiveFormat)))
  }

  /** `run` after its formats are resolved: the driver is started and, when
      that succeeds, the loop observed for `fuel` passes. */
  function Supervise(service: string, driver: DriverType, active: Profile, inactive: Profile,
                     host: Host, fuel: nat): Observed {
    var start := match driver case Systemd => Startup(service, host);
    match start.result
    case Err(e) => Observed(start.events, Failed(e))
    case Ok(path) =>
      var loop := Loop(Setup(service, active, inactive, path), host, 0, host.changes, fuel);
      Observed(start.events + loop.events, loop.exit)
  }

  /** `run` observed for `fuel` passes of its loop. */
  function Monitor(config: Config, host: Host, fuel: nat): Observed {
    match Profiles(config, host)
    case Err(e) => Observed([], Failed(e))
    case Ok((active, inactive)) => Supervise(config.service, config.driver, active, inactive, host, fuel)
  }

  /** The world outside the block, answering from `host` and recording
      every call in `log`; `queries` and `updates` count the ActiveState reads
      and the widgets handed to the bar so far. */
  class Environment {
    const host: Host
    var queries: nat
    var updates: nat
    var log: seq<Event>

    constructor (host: Host)
      ensures this.host == host && queries == 0 && updates == 0 && log == []
    {
      this.host := host;
      queries, updates, log := 0, 0, [];
    }

    /** `new_system_dbus_connection`. */
    method Connect() returns (r: Result<()>)
      modifies this`log
      ensures r == if host.connects then Ok(()) else Err(BusConnection)
      ensures log == old(log) + [Event.Connect(host.connects)]
    {
      r := if host.connects then Ok(()) else Err(BusConnection);
      log := log + [Event.Connect(host.connects)];
    }

    /** `UnitProxy::builder(..).path(path)` then `.build()`: a path that is
      not a valid object path is refused before anything is built. */
    method BuildProxy(path: string) returns (r: Result<()>)
      modifies this`log
      ensures !ObjectPath.IsValid(path) ==> r == Err(CouldNotSetPath) && log == old(log)
      ensures ObjectPath.IsValid(path) ==>
        && r == (if host.builds then Ok(()) else Err(FailedToCreateUnitProxy))
        && log == old(log) + [Event.BuildProxy(path, host.builds)]
    {
      if !ObjectPath.IsValid(path) {
        return Err(CouldNotSetPath);
      }
      r := if host.builds then Ok(()) else Err(FailedToCreateUnitProxy);
      log := log + [Event.BuildProxy(path, host.builds)];
    }

    /** `receive_active_state_changed`: the stream of changes to come. */
    method Subscribe(path: string) returns (stream: seq<string>)
      modifies this`log
      ensures stream == host.changes
      ensures log == old(log) + [Event.Subscribe(path)]
    {
      stream := host.changes;
      log := log + [Event.Subscribe(path)];
    }

    /** The proxy's `active_state()` property read. */
    method ReadActiveState(path: string) returns (reply: PropertyRead)
      modifies this`log, this`queries
      ensures reply == host.activeState(old(queries)) && queries == old(queries) + 1
      ensures log == old(log) + [Event.ReadActiveState(path, reply)]
    {
      reply := host.activeState(queries);
      queries := queries + 1;
      log := log + [Event.ReadActiveState(path, reply)];
    }

    /** `api.set_widget`. */
    method SetWidget(shown: Snapshot) returns (r: Result<()>)
      modifies this`log, this`updates
      ensures r == if host.accepts(old(updates)) then Ok(()) else Err(SetWidgetFailed)
      ensures updates == old(updates) + 1
      ensures log == old(log) + [Event.SetWidget(shown, host.accepts(old(updates)))]
    {
      r := if host.accepts(updates) then Ok(()) else Err(SetWidgetFailed);
      log := log + [Event.SetWidget(shown, host.accepts(updates))];
      updates := updates + 1;
    }

    /** Records an item taken from the change stream. */
    method Delivered(item: Option<string>)
      modifies this`log
      ensures log == old(log) + [NextChange(item)]
    {
      log := log + [NextChange(item)];
    }
  }

  /** The block's widget, updated in place on every pass of the loop. */
  class Widget {
    var state: State
    var format: Option<string>
    var values: map<string, string>

    /** `Widget::new()`: no format and no values yet. */
    constructor ()
      ensures state == Idle && format == None && values == map[]
    {
      state, format, values := Idle, None, map[];
    }

    method SetFormat(f: string)
      modifies this`format
      ensures format == Some(f)
    {
      format := Some(f);
    }

    method SetValues(v: map<string, string>)
      modifies this`values
      ensures values == v
    {
      values := v;
    }

    function Shown(): Snapshot
      reads this
    {
      Snapshot(state, format, values)
    }
  }

  /** `SystemdDriver`: the proxy of the unit (given by its object path) and
      the open stream of ActiveState changes, whose cursor advances on every
      wait. */
  class SystemdDriver {
    const path: string
    var activeStateChanged: seq<string>

    constructor (path: string, stream: seq<string>)
      ensures this.path == path && activeStateChanged == stream
    {
      this.path := path;
      activeStateChanged := stream;
    }

    /** `SystemdDriver::new`, step by step: it makes exactly the calls of
      `Startup` and yields a driver for its path, subscribed to all of the
      host's changes, or its error. */
    static method New(service: string, env: Environment) returns (r: Result<SystemdDriver>)
      modifies env`log
      ensures env.log == old(env.log) + Startup(service, env.host).events
      ensures r.Err? <==> Startup(service, env.host).result.Err?
      ensures r.Err? ==> r.error == Startup(service, env.host).result.error
      ensures r.Ok? ==>
        && fresh(r.value)
        && r.value.path == Startup(service, env.host).result.value
        && r.value.activeStateChanged == env.host.changes
    {
      var connected := env.Connect();
      if connected.Err? {
        return Err(connected.error);
      }
      if !IsAscii(service) {
        return Err(NonAsciiServiceName(service));
      }
      var encoded := EncodeUnitName(service);
      var path := UnitPathPrefix + encoded;
      var built := env.BuildProxy(path);
      if built.Err? {
        return Err(built.error);
      }
      var stream := env.Subscribe(path);
      var driver := new SystemdDriver(path, stream);
      return Ok(driver);
    }

    /** `Driver::is_active`: one read of ActiveState, collapsed to a bool. */
    method IsActive(env: Environment) returns (r: Result<bool>)
      modifies env`log, env`queries
      ensures r == ActiveFromReply(env.host.activeState(old(env.queries)))
      ensures env.queries == old(env.queries) + 1
      ensures env.log == old(env.log) + [ReadActiveState(path, env.host.activeState(old(env.queries)))]
    {
      var reply := env.ReadActiveState(path);
      r := ActiveFromReply(reply);
    }

    /** `Driver::wait_for_change`: take the next item of the stream and
      succeed, also when the stream has ended. */
    method WaitForChange(env: Environment) returns (r: Result<()>)
      requires env as object != this
      modifies this, env`log
      ensures r == Ok(())
      ensures activeStateChanged == Tail(old(activeStateChanged))
      ensures env.log == old(env.log) + [NextChange(Head(old(activeStateChanged)))]
    {
      var item := Head(activeStateChanged);
      activeStateChanged := Tail(activeStateChanged);
      env.Delivered(item);
      r := Ok(());
    }
  }

  /** One update of the widget in the loop of `run`: the state and format
      of the profile for the queried state, and the service name. */
  method Present(widget: Widget, active: bool, setup: Setup)
    modifies widget
    ensures widget.Shown() == Render(setup, Select(active, setup))
  {
    if active {
      widget.state := setup.active.state;
      widget.SetFormat(setup.active.format);
    } else {
      widget.state := setup.inactive.state;
      widget.SetFormat(setup.inactive.format);
    }
    widget.SetValues(map["service" := setup.service]);
  }

  /** Running the loop for one pass more, after some calls were made: if the
      first pass completes, what follows is the loop from the next query and
      the rest of the stream on; if it fails, the loop ends with it. */
  lemma LoopUnroll(setup: Setup, host: Host, i: nat, stream: seq<string>, fuel: nat, prefix: seq<Event>)
    ensures var first := Step(setup, host, i, stream);
      After(prefix, Loop(setup, host, i, stream, fuel + 1)) ==
        if first.exit == Running
        then After(prefix + first.events, Loop(setup, host, i + 1, Tail(stream), fuel))
        else After(prefix, first)
  {
    var first := Step(setup, host, i, stream);
    var rest := Loop(setup, host, i + 1, Tail(stream), fuel);
    if first.exit == Running {
      assert prefix + (first.events + rest.events) == prefix + first.events + rest.events;
    }
  }

  /** One pass of the loop of `run`: query, update the widget and hand it to
      the bar, wait for a change. It makes exactly the calls of `Step` and
      fails where `Step` fails; otherwise the next query and
      the next item of the stream are up. */
  method Pass(setup: Setup, driver: SystemdDriver, widget: Widget, env: Environment)
    returns (r: Result<()>)
    requires driver.path == setup.path
    requires env.queries == env.updates
    modifies env, driver, widget
    ensures var pass := Step(setup, env.host, old(env.queries), old(driver.activeStateChanged));
      && env.log == old(env.log) + pass.events
      && (r.Ok? <==> pass.exit == Running)
      && (r.Err? ==> pass.exit == Failed(r.error))
    ensures r.Ok? ==>
      && env.queries == old(env.queries) + 1 && env.updates == env.queries
      && driver.activeStateChanged == Tail(old(driver.activeStateChanged))
  {
    var active := driver.IsActive(env);
    if active.Err? {
      return Err(active.error);
    }
    Present(widget, active.value, setup);
    var published := env.SetWidget(widget.Shown());
    if published.Err? {
      return Err(published.error);
    }
    r := driver.WaitForChange(env);
  }

  /** A pass of the loop of `run` as `Watch` sees it: of the passes still
      to come, it runs the first; if that completes, what is left is the loop
      from the next query and the rest of the stream on, and if it fails,
      nothing is left. */
  method Advance(setup: Setup, driver: SystemdDriver, widget: Widget, env: Environment, left: nat)
    returns (r: Result<()>)
    requires driver.path == setup.path
    requires env.queries == env.updates
    requires left > 0
    modifies env, driver, widget
    ensures var whole := After(old(env.log),
      Loop(setup, env.host, old(env.queries), old(driver.activeStateChanged), left));
      && (r.Ok? ==> whole == After(env.log, Loop(setup, env.host, env.queries, driver.activeStateChanged, left - 1)))
      && (r.Err? ==> whole == Observed(env.log, Failed(r.error)))
    ensures r.Ok? ==> env.updates == env.queries
  {
    ghost var done := env.log;
    LoopUnroll(setup, env.host, env.queries, driver.activeStateChanged, left - 1, done);
    r := Pass(setup, driver, widget, env);
  }

  /** The `loop` of `run`, observed for `fuel` passes: it makes exactly the
      calls of `Loop` from the driver's current stream on, and ends as `Loop`
      says. */
  method Watch(setup: Setup, driver: SystemdDriver, widget: Widget, env: Environment, fuel: nat)
    returns (exit: Exit)
    requires driver.path == setup.path
    requires env.queries == env.updates
    modifies env, driver, widget
    ensures env.log == old(env.log) +
      Loop(setup, env.host, old(env.queries), old(driver.activeStateChanged), fuel).events
    ensures exit == Loop(setup, env.host, old(env.queries), old(driver.activeStateChanged), fuel).exit
  {
    ghost var whole := After(env.log, Loop(setup, env.host, env.queries, driver.activeStateChanged, fuel));
    var left := fuel;
    while left > 0
      invariant env.queries == env.updates
      invariant whole == After(env.log, Loop(setup, env.host, env.queries, driver.activeStateChanged, left))
    {
      var passed := Advance(setup, driver, widget, env, left);
      if passed.Err? {
        return Failed(passed.error);
      }
      left := left - 1;
    }
    assert env.log + [] == env.log;
    return Running;
  }

  /** The part of `run` after the formats are resolved: it makes exactly the
      calls of `Supervise` and ends as `Supervise` says. */
  method Serve(service: string, driverType: DriverType, active: Profile, inactive: Profile,
               widget: Widget, env: Environment, fuel: nat)
    returns (exit: Exit)
    requires env.queries == 0 && env.updates == 0
    modifies env, widget
    ensures env.log == old(env.log) + Supervise(service, driverType, active, inactive, env.host, fuel).events
    ensures exit == Supervise(service, driverType, active, inactive, env.host, fuel).exit
  {
    ghost var start := Startup(service, env.host);
    var started: Result<SystemdDriver>;
    match driverType {
      case Systemd => started := SystemdDriver.New(service, env);
    }
    if started.Err? {
      assert Supervise(service, driverType, active, inactive, env.host, fuel) == Observed(start.events, Failed(started.error));
      return Failed(started.error);
    }
    var driver := started.value;
    var setup := Setup(service, active, inactive, driver.path);
    assert Supervise(service, driverType, active, inactive, env.host, fuel) ==
      After(start.events, Loop(setup, env.host, 0, env.host.changes, fuel));
    exit := Watch(setup, driver, widget, env, fuel);
  }

  /** `run`, observed for `fuel` passes of its endless loop: it makes exactly
      the calls of `Monitor` and ends as `Monitor` says. */
  method Run(config: Config, env: Environment, fuel: nat) returns (exit: Exit)
    requires env.queries == 0 && env.updates == 0
    modifies env
    ensures env.log == old(env.log) + Monitor(config, env.host, fuel).events
    ensures exit == Monitor(config, env.host, fuel).exit
  {
    var widget := new Widget();
    var activeFormat := GetOr(config.activeFormat, DefaultActiveFormat);
    var inactiveFormat := GetOr(config.inactiveFormat, DefaultInactiveFormat);
    if !env.host.parses(activeFormat) {
      return Failed(InvalidFormat(activeFormat));
    }
    if !env.host.parses(inactiveFormat) {
      return Failed(InvalidFormat(inactiveFormat));
    }
    var active := Profile(GetOr(config.activeState, Idle), activeFormat);
    var inactive := Profile(GetOr(config.inactiveState, Critical), inactiveFormat);
    exit := Serve(config.service, config.driver, active, inactive, widget, env, fuel);
  }
}
