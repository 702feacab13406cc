/** What the service_status block promises, proved about `Startup`, `Loop`
    and `Monitor` (and so, through their contracts, about
    `SystemdDriver.New`, `Watch` and `Run`). */
module ServiceStatusProperties {
  import opened Wrappers
  import opened UnitPath
  import ObjectPath
  import opened ServiceStatus

  /** Every ActiveState value other than exactly "active", transitional
      ones included, reads as inactive. */
  lemma OnlyActiveIsActive(state: string)
    ensures ActiveFromReply(Read(state)) == Ok(state == "active")
    ensures state in ["reloading", "inactive", "failed", "activating", "deactivating", "Active", "active "]
      ==> ActiveFromReply(Read(state)) == Ok(false)
  {
  }

  /** The bus connection is opened before anything else, the name check
      included; if it fails, that is the error, whatever the name. */
  lemma StartupConnectsFirst(service: string, host: Host)
    ensures Startup(service, host).events[0] == Connect(host.connects)
    ensures !host.connects ==> Startup(service, host) == Trace([Connect(false)], Err(BusConnection))
  {
  }

  /** A name with a non-ASCII character is refused right after the
      connection opens: no path is encoded and no proxy is built. */
  lemma StartupRejectsNonAscii(service: string, host: Host)
    requires !IsAscii(service) && host.connects
    ensures Startup(service, host) == Trace([Connect(true)], Err(NonAsciiServiceName(service)))
  {
  }

  /** Building the proxy never fails on its path: the encoded path is
      always a valid object path. */
  lemma StartupNeverRejectsPath(service: string, host: Host)
    ensures Startup(service, host).result != Err(CouldNotSetPath)
  {
    if host.connects && IsAscii(service) {
      UnitObjectPathValid(service);
    }
  }

  /** Construction succeeds exactly when the bus opens, the name is ASCII
      and the proxy builds; the proxy is then bound to the unit's object path
      and the subscription is opened last, before any query. */
  lemma StartupBindsUnitPath(service: string, host: Host)
    ensures Startup(service, host).result.Ok? <==> host.connects && IsAscii(service) && host.builds
    ensures Startup(service, host).result.Ok? ==>
      var path := UnitObjectPath(service);
      && Startup(service, host).result.value == path
      && Startup(service, host).events == [Connect(true), BuildProxy(path, true), Subscribe(path)]
  {
    if host.connects && IsAscii(service) {
      UnitObjectPathValid(service);
    }
  }

  /** `fuel` passes make at most 3 * `fuel` calls. */
  lemma {:induction false} LoopBound(setup: Setup, host: Host, i: nat, stream: seq<string>, fuel: nat)
    ensures |Loop(setup, host, i, stream, fuel).events| <= 3 * fuel
    decreases fuel
  {
    if fuel > 0 {
      LoopBound(setup, host, i + 1, Tail(stream), fuel - 1);
    }
  }

  /** What is left of the change stream after `k` calls to `next()`. */
  function Drop(stream: seq<string>, k: nat): seq<string> {
    if k <= |stream| then stream[k..] else []
  }

  /** A loop that made three calls or more completed its first pass, of
      exactly three calls, and went on with the rest. */
  lemma LoopPeel(setup: Setup, host: Host, i: nat, stream: seq<string>, fuel: nat)
    requires 3 <= |Loop(setup, host, i, stream, fuel).events|
    ensures 0 < fuel
    ensures Loop(setup, host, i, stream, fuel).events[3..] == Loop(setup, host, i + 1, Tail(stream), fuel - 1).events
    ensures Loop(setup, host, i, stream, fuel).exit == Loop(setup, host, i + 1, Tail(stream), fuel - 1).exit
  {
    var first := Step(setup, host, i, stream);
    var rest := Loop(setup, host, i + 1, Tail(stream), fuel - 1);
    assert (first.events + rest.events)[3..] == rest.events;
  }

  /** Whatever the loop does after its first k passes is the loop started k
      queries later on the stream after k changes: the passes are all alike
      and carry nothing from one to the next but the query count and the
      stream. */
  lemma {:induction false} LoopAfter(setup: Setup, host: Host, i: nat, stream: seq<string>, fuel: nat, k: nat,
                                     j: nat, rest: seq<string>, left: nat)
    requires 3 * k < |Loop(setup, host, i, stream, fuel).events|
    requires j == i + k && rest == Drop(stream, k) && left + k == fuel
    ensures 0 < left
    ensures Loop(setup, host, i, stream, fuel).events[3 * k..] == Loop(setup, host, j, rest, left).events
    ensures Loop(setup, host, i, stream, fuel).exit == Loop(setup, host, j, rest, left).exit
    decreases k
  {
    if k > 0 {
      LoopPeel(setup, host, i, stream, fuel);
      DropTail(stream, k);
      LoopAfter(setup, host, i + 1, Tail(stream), fuel - 1, k - 1, j, rest, left);
      SliceShift(Loop(setup, host, i, stream, fuel).events, Loop(setup, host, i + 1, Tail(stream), fuel - 1).events, k);
    } else {
      assert stream[0..] == stream;
    }
  }

  /** Dropping k changes is dropping one, then k - 1. */
  lemma DropTail(stream: seq<string>, k: nat)
    requires 0 < k
    ensures Drop(Tail(stream), k - 1) == Drop(stream, k)
  {
    if stream != [] && k <= |stream| {
      assert stream[1..][k - 1..] == stream[k..];
    }
  }

  /** Past the first k passes of three calls each, a sequence whose first
      three calls are followed by `rest` is past the first k - 1 of `rest`. */
  lemma SliceShift(events: seq<Event>, rest: seq<Event>, k: nat)
    requires 1 <= k && 3 * k <= |events|
    requires events[3..] == rest
    ensures events[3 * k..] == rest[3 * (k - 1)..]
  {
  }

  /** The k-th pass reads ActiveState through the proxy's path and gets the
      host's k-th reply; the widget it hands over has the state and format of
      the active profile exactly when that reply is "active", otherwise of the
      inactive one, and the service name unchanged; its wait takes the k-th
      change of the stream, or nothing once the stream has ended. */
  lemma LoopPass(setup: Setup, host: Host, i: nat, stream: seq<string>, fuel: nat, k: nat)
    requires 3 * k < |Loop(setup, host, i, stream, fuel).events|
    ensures Loop(setup, host, i, stream, fuel).events[3 * k] ==
      ReadActiveState(setup.path, host.activeState(i + k))
    ensures 3 * k + 1 < |Loop(setup, host, i, stream, fuel).events| ==>
      && host.activeState(i + k).Read?
      && Loop(setup, host, i, stream, fuel).events[3 * k + 1] ==
         SetWidget(Render(setup, Select(host.activeState(i + k).value == "active", setup)), host.accepts(i + k))
    ensures 3 * k + 2 < |Loop(setup, host, i, stream, fuel).events| ==>
      && host.accepts(i + k)
      && Loop(setup, host, i, stream, fuel).events[3 * k + 2] ==
         NextChange(if k < |stream| then Some(stream[k]) else None)
  {
    var here := Loop(setup, host, i, stream, fuel);
    LoopBound(setup, host, i, stream, fuel);
    var pass := Loop(setup, host, i + k, Drop(stream, k), fuel - k);
    LoopAfter(setup, host, i, stream, fuel, k, i + k, Drop(stream, k), fuel - k);
    assert here.events[3 * k..] == pass.events;
    assert here.events[3 * k] == pass.events[0];
    if 3 * k + 1 < |here.events| {
      assert here.events[3 * k + 1] == pass.events[1];
    }
    if 3 * k + 2 < |here.events| {
      assert here.events[3 * k + 2] == pass.events[2];
      assert Head(Drop(stream, k)) == if k < |stream| then Some(stream[k]) else None;
    }
  }

  /** Every pass of the loop is query, then set_widget, then wait: the j-th
      call is a query, a widget update or a wait as j is 0, 1 or 2 modulo 3. */
  lemma LoopShape(setup: Setup, host: Host, i: nat, stream: seq<string>, fuel: nat)
    ensures forall j :: 0 <= j < |Loop(setup, host, i, stream, fuel).events| ==>
      var e := Loop(setup, host, i, stream, fuel).events[j];
      && (j % 3 == 0 ==> e.ReadActiveState?)
      && (j % 3 == 1 ==> e.SetWidget?)
      && (j % 3 == 2 ==> e.NextChange?)
  {
    var events := Loop(setup, host, i, stream, fuel).events;
    forall j | 0 <= j < |events|
      ensures j % 3 == 0 ==> events[j].ReadActiveState?
      ensures j % 3 == 1 ==> events[j].SetWidget?
      ensures j % 3 == 2 ==> events[j].NextChange?
    {
      LoopPass(setup, host, i, stream, fuel, j / 3);
    }
  }

  /** The loop stops only on an error: it completes every pass it is
      observed for, or fails part-way through a pass. */
  lemma {:induction false} LoopRunsOrFails(setup: Setup, host: Host, i: nat, stream: seq<string>, fuel: nat)
    ensures var run := Loop(setup, host, i, stream, fuel);
      && (run.exit == Running <==> |run.events| == 3 * fuel)
      && (run.exit.Failed? ==> |run.events| % 3 != 0)
    decreases fuel
  {
    if fuel > 0 {
      LoopRunsOrFails(setup, host, i + 1, Tail(stream), fuel - 1);
      LoopBound(setup, host, i + 1, Tail(stream), fuel - 1);
    }
  }

  /** A failure ends the loop at once, right after the call that failed:
      a query whose read failed, or a widget the bar refused. Waiting never
      fails. */
  lemma {:induction false} LoopFailsAtOnce(setup: Setup, host: Host, i: nat, stream: seq<string>, fuel: nat)
    requires Loop(setup, host, i, stream, fuel).exit.Failed?
    ensures var run := Loop(setup, host, i, stream, fuel);
      var last := run.events[|run.events| - 1];
      || (last.ReadActiveState? && last.reply == ReadFailed && run.exit.error == CouldNotGetActiveState)
      || (last.SetWidget? && !last.accepted && run.exit.error == SetWidgetFailed)
    decreases fuel
  {
    var here := Loop(setup, host, i, stream, fuel);
    var rest := Loop(setup, host, i + 1, Tail(stream), fuel - 1);
    if |here.events| > 3 {
      LoopFailsAtOnce(setup, host, i + 1, Tail(stream), fuel - 1);
      assert here.events[|here.events| - 1] == rest.events[|rest.events| - 1];
    }
  }

  /** The end of the change stream is not an error: as long as every query
      and every widget update succeeds, the loop keeps running, whatever is
      left of the stream, an ended one included. */
  lemma {:induction false} StreamEndIsNotAnError(setup: Setup, host: Host, i: nat, stream: seq<string>, fuel: nat)
    requires forall k :: i <= k < i + fuel ==> host.activeState(k).Read? && host.accepts(k)
    ensures Loop(setup, host, i, stream, fuel).exit == Running
    decreases fuel
  {
    if fuel > 0 {
      assert host.activeState(i).Read? && host.accepts(i);
      StreamEndIsNotAnError(setup, host, i + 1, Tail(stream), fuel - 1);
    }
  }

  /** The first failing call ends the loop: if the first k passes succeed and
      the next query fails, the loop stops with that error right after it,
      without retrying; if the query succeeds but the widget is refused, it
      stops right after set_widget. */
  lemma {:induction false} LoopStopsAtFirstFailure(setup: Setup, host: Host, i: nat, stream: seq<string>, fuel: nat, k: nat)
    requires k < fuel
    requires forall m :: i <= m < i + k ==> host.activeState(m).Read? && host.accepts(m)
    requires host.activeState(i + k).ReadFailed? || !host.accepts(i + k)
    ensures var run := Loop(setup, host, i, stream, fuel);
      && run.exit == Failed(if host.activeState(i + k).ReadFailed? then CouldNotGetActiveState else SetWidgetFailed)
      && |run.events| == 3 * k + (if host.activeState(i + k).ReadFailed? then 1 else 2)
    decreases k
  {
    if k > 0 {
      assert host.activeState(i).Read? && host.accepts(i);
      LoopStopsAtFirstFailure(setup, host, i + 1, Tail(stream), fuel - 1, k - 1);
    }
  }

  /** The defaults of `run`: active shows Idle with " $service active ",
      inactive shows Critical with " $service inactive ". */
  lemma DefaultProfiles(config: Config, host: Host)
    requires config.activeFormat == None && config.inactiveFormat == None
    requires config.activeState == None && config.inactiveState == None
    requires host.parses(DefaultActiveFormat) && host.parses(DefaultInactiveFormat)
    ensures Profiles(config, host) ==
      Ok((Profile(Idle, " $service active "), Profile(Critical, " $service inactive ")))
  {
  }

  /** The subscription is open before the first query: whenever `run`
      queries ActiveState, its first three calls were opening the bus,
      building the proxy for the unit's path and subscribing on it. */
  lemma MonitorSubscribesBeforeQuerying(config: Config, host: Host, fuel: nat, j: nat)
    requires j < |Monitor(config, host, fuel).events|
    requires Monitor(config, host, fuel).events[j].ReadActiveState?
    ensures IsAscii(config.service) && 3 <= j
    ensures Monitor(config, host, fuel).events[..3] ==
      [Connect(true), BuildProxy(UnitObjectPath(config.service), true), Subscribe(UnitObjectPath(config.service))]
  {
    StartupBindsUnitPath(config.service, host);
    var start := Startup(config.service, host);
    assert start.result.Ok?;
    assert Monitor(config, host, fuel).events[..3] == start.events;
  }

  /** The widget `run` hands to the bar on its k-th pass: the configured
      active state (default Idle) and active format (default
      " $service active ") when the k-th query read "active", the configured
      inactive state (default Critical) and inactive format (default
      " $service inactive ") otherwise, with the configured service name as
      the `service` placeholder. */
  lemma MonitorShowsQueriedState(config: Config, host: Host, fuel: nat, k: nat)
    requires 3 + 3 * k + 1 < |Monitor(config, host, fuel).events|
    ensures host.activeState(k).Read?
    ensures var active := host.activeState(k).value == "active";
      Monitor(config, host, fuel).events[3 + 3 * k + 1] ==
      SetWidget(Snapshot(
        if active then GetOr(config.activeState, Idle) else GetOr(config.inactiveState, Critical),
        Some(if active then GetOr(config.activeFormat, DefaultActiveFormat)
             else GetOr(config.inactiveFormat, DefaultInactiveFormat)),
        map["service" := config.service]), host.accepts(k))
  {
    var events := Monitor(config, host, fuel).events;
    MonitorSubscribesBeforeQuerying(config, host, fuel, 3);
    StartupBindsUnitPath(config.service, host);
    var start := Startup(config.service, host);
    var profiles := Profiles(config, host).value;
    var setup := Setup(config.service, profiles.0, profiles.1, UnitObjectPath(config.service));
    var loop := Loop(setup, host, 0, host.changes, fuel).events;
    assert events == start.events + loop;
    assert events[3 + 3 * k + 1] == loop[3 * k + 1];
    LoopPass(setup, host, 0, host.changes, fuel, k);
  }

  /** The path of the "cups" unit is bound when the bus opens and the proxy
      builds. */
  lemma CupsStartup(host: Host)
    requires host.connects && host.builds
    ensures var path := "/org/freedesktop/systemd1/unit/cups_2eservice";
      Startup("cups", host) == Trace([Connect(true), BuildProxy(path, true), Subscribe(path)], Ok(path))
  {
    assert IsAscii("cups");
    EncodeCups();
    assert UnitObjectPath("cups") == "/org/freedesktop/systemd1/unit/cups_2eservice";
    StartupBindsUnitPath("cups", host);
  }

  /** Two passes over the default profiles of "cups": "active" first, then,
      after the one change of the stream, "inactive". */
  lemma CupsPasses(host: Host, setup: Setup)
    requires setup.service == "cups"
    requires setup.active == Profile(Idle, " $service active ")
    requires setup.inactive == Profile(Critical, " $service inactive ")
    requires host.activeState(0) == Read("active") && host.activeState(1) == Read("inactive")
    requires host.accepts(0) && host.accepts(1)
    ensures var values := map["service" := "cups"];
      Loop(setup, host, 0, ["inactive"], 2) == Observed(
        [ ReadActiveState(setup.path, Read("active")),
          SetWidget(Snapshot(Idle, Some(" $service active "), values), true),
          NextChange(Some("inactive")),
          ReadActiveState(setup.path, Read("inactive")),
          SetWidget(Snapshot(Critical, Some(" $service inactive "), values), true),
          NextChange(None) ],
        Running)
  {
    var values := map["service" := "cups"];
    var first := [ ReadActiveState(setup.path, Read("active")),
      SetWidget(Snapshot(Idle, Some(" $service active "), values), true),
      NextChange(Some("inactive")) ];
    var second := [ ReadActiveState(setup.path, Read("inactive")),
      SetWidget(Snapshot(Critical, Some(" $service inactive "), values), true),
      NextChange(None) ];
    assert Step(setup, host, 0, ["inactive"]) == Observed(first, Running);
    assert Tail(["inactive"]) == [];
    assert Step(setup, host, 1, []) == Observed(second, Running);
    assert Loop(setup, host, 1, [], 1) == Observed(second + [], Running);
    assert second + [] == second;
    assert Loop(setup, host, 0, ["inactive"], 2) == Observed(first + second, Running);
  }

  /** The "cups" scenario with default profiles: the unit reads "active",
      then, after a change arrives and the stream ends, "inactive". The bar
      gets an Idle widget with the active format, then a Critical one with the
      inactive format, and the block is still running. */
  lemma CupsScenario(host: Host)
    requires host.connects && host.builds
    requires host.parses(DefaultActiveFormat) && host.parses(DefaultInactiveFormat)
    requires host.activeState(0) == Read("active") && host.activeState(1) == Read("inactive")
    requires host.accepts(0) && host.accepts(1)
    requires host.changes == ["inactive"]
    ensures
      var path := "/org/freedesktop/systemd1/unit/cups_2eservice";
      var values := map["service" := "cups"];
      Monitor(Config(Systemd, "cups", None, None, None, None), host, 2) == Observed(
        [ Connect(true), BuildProxy(path, true), Subscribe(path),
          ReadActiveState(path, Read("active")),
          SetWidget(Snapshot(Idle, Some(" $service active "), values), true),
          NextChange(Some("inactive")),
          ReadActiveState(path, Read("inactive")),
          SetWidget(Snapshot(Critical, Some(" $service inactive "), values), true),
          NextChange(None) ],
        Running)
  {
    var path := "/org/freedesktop/systemd1/unit/cups_2eservice";
    var config := Config(Systemd, "cups", None, None, None, None);
    var active := Profile(Idle, " $service active ");
    var inactive := Profile(Critical, " $service inactive ");
    var setup := Setup("cups", active, inactive, path);
    DefaultProfiles(config, host);
    CupsStartup(host);
    CupsPasses(host, setup);
    var start := Startup("cups", host);
    var loop := Loop(setup, host, 0, host.changes, 2);
    assert Monitor(config, host, 2) == Observed(start.events + loop.events, loop.exit);
  }
}
