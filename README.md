# service_status, modelled in Dafny

A model of the `service_status` block of i3status-rust
(`src/blocks/service_status.rs`). The block shows whether one systemd unit
is active. It opens the system bus and checks that the service name is
ASCII. It escapes `<name>.service` into a D-Bus object-path element and
builds a `org.freedesktop.systemd1.Unit` proxy at
`/org/freedesktop/systemd1/unit/<element>`. It subscribes to changes of the
unit's `ActiveState` property. Then it loops forever: read `ActiveState`,
show a widget chosen by whether the state is exactly `"active"`, and wait for
the next change.

The project has five files:

- `wrappers.dfy` (module `Wrappers`): `Option`.
- `object_path.dfy` (module `ObjectPath`): the "Valid Object Paths" rule of
  the D-Bus Specification, and the proof that appending a valid element to a
  valid path gives a valid path.
- `unit_path.dfy` (module `UnitPath`): the unit-name encoder of
  `SystemdDriver::new` over the bytes of `name + ".service"`. It also holds
  an independent decoder, and proofs of the encoder's alphabet, length,
  per-byte shape, decodability, injectivity and path validity, plus the
  worked examples.
- `service_status.dfy` (module `ServiceStatus`) has two halves:
  - The specification functions: `ActiveFromReply` (`is_active`),
    `Startup` (`SystemdDriver::new`), `Step` and `Loop` (the loop of
    `run`), and `Profiles`, `Supervise` and `Monitor` (all of `run`).
  - The imperative model. `SystemdDriver` is a class with the stream
    cursor `activeStateChanged` as a field, advanced by `WaitForChange`.
    `Widget` is a class whose state, format and values `run` overwrites on
    every pass. `Environment` is the world outside the block: it answers
    each call from a `Host` of oracles and appends the call to its `log`.
    `SystemdDriver.New`, `Pass`, `Watch`, `Serve` and `Run` do the work step
    by step and are proved to make exactly the calls of the specification
    functions, in the same order, and to end the same way.
- `service_status_properties.dfy` (module `ServiceStatusProperties`):
  properties of the specification functions. These are:
  - startup order and failure modes;
  - the shape of each pass (query, then `set_widget`, then wait);
  - which widget each pass shows;
  - failures end the loop at once, and the end of the change stream is
    not an error;
  - the default profiles;
  - the subscription opens before the first query;
  - a complete "cups" run.

On two points the code does something other than the tidier behaviour one
might expect, and the model follows the code:

- **Connection first.** The bus connection is opened before the ASCII check
  (line 113 before line 115). A non-ASCII name therefore still makes one
  connection attempt, and a failed connection is reported even for a
  non-ASCII name.
- **Stream end.** `wait_for_change` ignores what `next()` returns and always
  answers `Ok(())` (lines 161-162). When the change stream has ended, the
  loop goes on querying and is not stopped with an error. Opening the
  subscription (line 144) cannot fail either.

## Model

| member | source | states |
|---|---|---|
| UnitPath.IsAscii | src/blocks/service_status.rs:115 | `str::is_ascii`: every character of the name is below U+0080 (definition; no contract) |
| UnitPath.IsAsciiAlphanumeric | src/blocks/service_status.rs:124 | `u8::is_ascii_alphanumeric`: the byte is `0`-`9`, `A`-`Z` or `a`-`z` (definition; no contract) |
| ObjectPath.ChildValid | src/blocks/service_status.rs:134 | appending a valid element under a valid path gives a valid object path that is not the root |
| UnitPath.Escape | src/blocks/service_status.rs:120-132 | every character of the escaped bytes is an ASCII letter, digit or `_`, and the length is the byte count plus two per escaped byte |
| UnitPath.HexDigitValue | src/blocks/service_status.rs:129 | the `{b:02x}` digit of a nibble is a lowercase hex digit that reads back as that nibble |
| UnitPath.EscapeByte | src/blocks/service_status.rs:123-131 | the escape of one byte: an alphanumeric byte maps to itself; any other byte, `_` included, maps to `_` and two hex digits that read back as its high and low nibble |
| UnitPath.EscapeAppend | src/blocks/service_status.rs:121-132 | the byte-wise map-and-collect distributes over concatenation |
| UnitPath.EscapedCountAppend | src/blocks/service_status.rs:121-132 | the number of escaped bytes adds up over concatenation |
| UnitPath.UnescapeCons | src/blocks/service_status.rs:123-131 | decoding a byte's escape followed by more text gives the byte followed by the decoding of the rest |
| UnitPath.UnescapeEscape | src/blocks/service_status.rs:121-132 | decoding the escaped bytes gives back exactly the bytes |
| UnitPath.EscapeInjective | src/blocks/service_status.rs:121-132 | two byte strings with the same escape are equal |
| UnitPath.EncodeUnitName | src/blocks/service_status.rs:120-132 | `encoded_service`: the escape of the bytes of the name followed by `.service` (definition; its facts are the rows below: round trip, injectivity, length, path element) |
| UnitPath.DecodeEncodeUnitName | src/blocks/service_status.rs:120-132 | decoding the encoded element of an ASCII name and stripping `.service` gives back the name |
| UnitPath.EncodeUnitNameInjective | src/blocks/service_status.rs:120-132 | two ASCII names with the same encoded element are the same name |
| UnitPath.EncodeUnitNameLength | src/blocks/service_status.rs:120-132 | the element has length \|name\| + 8 + 2·(k + 1), with k the non-alphanumeric bytes of the name |
| UnitPath.EncodeUnitNameIsElement | src/blocks/service_status.rs:120-132 | the encoded name is a non-empty D-Bus path element |
| UnitPath.UnitDirectoryValid | src/blocks/service_status.rs:134 | `/org/freedesktop/systemd1/unit` is a valid object path, and the prefix is it followed by `/` |
| UnitPath.UnitObjectPath | src/blocks/service_status.rs:134 | the proxy path: `/org/freedesktop/systemd1/unit/` followed by the encoded name (definition; its validity is the next row) |
| UnitPath.UnitObjectPathValid | src/blocks/service_status.rs:120-138 | the proxy path is the unit directory with the encoded name as one more element, and is a valid object path, so `.path(path)` cannot fail |
| UnitPath.EscapeAlphanumeric | src/blocks/service_status.rs:124-126 | an all-alphanumeric string passes through unchanged |
| UnitPath.EscapeAround | src/blocks/service_status.rs:121-132 | escaping a name, then a byte, then an alphanumeric tail gives the name's escape, then the byte's escape, then the tail unchanged |
| UnitPath.EncodeAlphanumericName | src/blocks/service_status.rs:120-132 | an alphanumeric name encodes to the name followed by `_2eservice` |
| UnitPath.EncodeCups | src/blocks/service_status.rs:120-132 | `"cups"` encodes to `"cups_2eservice"` |
| UnitPath.EncodeHyphenatedName | src/blocks/service_status.rs:120-132 | two alphanumeric parts joined by `-` encode to the first part, `_2d`, the second part, then `_2eservice` |
| UnitPath.EncodeHyphenated | src/blocks/service_status.rs:120-132 | `"a-b"` encodes to `"a_2db_2eservice"` |
| ServiceStatus.ActiveFromReply | src/blocks/service_status.rs:152-158 | a read is an error exactly when it failed, with the "Could not get active_state" error; a successful read is true exactly when the value is `"active"` |
| ServiceStatus.Select | src/blocks/service_status.rs:83-89 | the profile of the queried state: the active one when the read said active, else the inactive one (definition) |
| ServiceStatus.Render | src/blocks/service_status.rs:84-93 | the widget handed to the bar: the profile's state and format, and the service name as the `service` value (definition) |
| ServiceStatus.Head | src/blocks/service_status.rs:161 | what `next()` yields: the next change, or `None` once the stream has ended (definition) |
| ServiceStatus.Tail | src/blocks/service_status.rs:161 | the stream after `next()`; an ended stream stays ended (definition) |
| ServiceStatus.Startup | src/blocks/service_status.rs:112-147 | `SystemdDriver::new` as calls and result: connect (else the bus error), check ASCII (else the name error), build the proxy on the unit path (else "Could not set path" or "Failed to create UnitProxy"), subscribe; the path on success (definition; proved about in the `Startup…` rows) |
| ServiceStatus.Step | src/blocks/service_status.rs:81-96 | one pass of the loop, query number i: the read; on a failed read the error; else `set_widget` with the selected profile, refused or accepted; after an accepted widget the wait on the stream's head, still running (definition) |
| ServiceStatus.Loop | src/blocks/service_status.rs:80-97 | `fuel` passes: each completed pass is followed by the rest of the loop from the next query on the rest of the stream; the first failed pass ends it (definition; proved about in the `Loop…` rows) |
| ServiceStatus.Profiles | src/blocks/service_status.rs:70-74 | the active and inactive profiles: the configured format, else the default template, rejected as `InvalidFormat` when the format engine refuses it; the configured state, else `Idle` and `Critical` (definition) |
| ServiceStatus.Supervise | src/blocks/service_status.rs:76-97 | the driver's startup calls, then its error, or the loop on the path it bound with the stream it subscribed to (definition) |
| ServiceStatus.Monitor | src/blocks/service_status.rs:66-97 | `run`: the profiles' error, or `Supervise` with the resolved profiles (definition; proved about in the `Monitor…` rows) |
| ServiceStatus.Environment.constructor | src/blocks/service_status.rs:66 | a fresh world: nothing called yet, no query and no widget so far |
| ServiceStatus.Environment.Connect | src/blocks/service_status.rs:113 | opening the bus succeeds as the host says, fails otherwise, and is recorded |
| ServiceStatus.Environment.BuildProxy | src/blocks/service_status.rs:136-141 | an invalid path is refused with "Could not set path" before any build, recording nothing; otherwise the build succeeds as the host says, fails with "Failed to create UnitProxy" otherwise, and is recorded |
| ServiceStatus.Environment.Subscribe | src/blocks/service_status.rs:144 | the subscription yields the host's stream of changes and is recorded |
| ServiceStatus.Environment.ReadActiveState | src/blocks/service_status.rs:153-156 | the i-th read gets the host's i-th reply, counts one query and is recorded |
| ServiceStatus.Environment.SetWidget | src/blocks/service_status.rs:94 | the i-th widget is accepted as the host says, fails otherwise, counts one update and is recorded with what it showed |
| ServiceStatus.Environment.Delivered | src/blocks/service_status.rs:161 | the item taken from the stream is recorded |
| ServiceStatus.Widget.constructor | src/blocks/service_status.rs:69 | `Widget::new()`: no format and no values |
| ServiceStatus.Widget.SetFormat | src/blocks/service_status.rs:85 | the widget's format becomes the given one |
| ServiceStatus.Widget.SetValues | src/blocks/service_status.rs:91-93 | the widget's values become the given map |
| ServiceStatus.SystemdDriver.constructor | src/blocks/service_status.rs:143-146 | the driver holds the proxy's path and the open stream |
| ServiceStatus.SystemdDriver.New | src/blocks/service_status.rs:112-147 | makes exactly the calls of `Startup`; fails exactly when `Startup` fails, with its error; otherwise gives a fresh driver for `Startup`'s path, subscribed to all of the host's changes |
| ServiceStatus.SystemdDriver.IsActive | src/blocks/service_status.rs:152-158 | one recorded read of ActiveState, mapped by `ActiveFromReply` |
| ServiceStatus.SystemdDriver.WaitForChange | src/blocks/service_status.rs:160-163 | always `Ok(())`; takes the next item, or nothing once the stream has ended, and advances the cursor |
| ServiceStatus.Present | src/blocks/service_status.rs:83-93 | the widget shows the active profile's state and format when the query said active, else the inactive profile's, with the service name as the `service` value |
| ServiceStatus.LoopUnroll | src/blocks/service_status.rs:80-97 | the loop for one more pass is the first pass followed by the loop from the next query on the rest of the stream when that pass completes, and just that pass when it fails |
| ServiceStatus.Pass | src/blocks/service_status.rs:81-96 | one pass makes exactly the calls of `Step` and fails exactly where `Step` fails, with its error; after a complete pass one more query and update are counted and the stream has advanced by one |
| ServiceStatus.Advance | src/blocks/service_status.rs:80-97 | after one pass, what remains of the observed loop is the loop for one pass fewer; after a failed pass, nothing remains and the loop ended with that error |
| ServiceStatus.Watch | src/blocks/service_status.rs:80-97 | the loop, run for `fuel` passes, makes exactly the calls of `Loop` and ends as `Loop` says |
| ServiceStatus.Serve | src/blocks/service_status.rs:76-97 | creating the driver and running the loop makes exactly the calls of `Supervise` and ends as it says |
| ServiceStatus.Run | src/blocks/service_status.rs:66-97 | `run`, observed for `fuel` passes, makes exactly the calls of `Monitor` and ends as `Monitor` says |
| ServiceStatusProperties.OnlyActiveIsActive | src/blocks/service_status.rs:157 | only the exact string `"active"` is active; `"reloading"`, `"activating"`, `"deactivating"`, `"inactive"`, `"failed"`, `"Active"` and `"active "` are inactive |
| ServiceStatusProperties.StartupConnectsFirst | src/blocks/service_status.rs:113-119 | the first call is always the bus connection; if it fails, that is the error, whatever the name |
| ServiceStatusProperties.StartupRejectsNonAscii | src/blocks/service_status.rs:115-119 | a non-ASCII name fails right after the connection, with no proxy built and no path encoded |
| ServiceStatusProperties.StartupNeverRejectsPath | src/blocks/service_status.rs:134-138 | construction never fails with "Could not set path" |
| ServiceStatusProperties.StartupBindsUnitPath | src/blocks/service_status.rs:112-147 | construction succeeds exactly when the bus opens, the name is ASCII and the proxy builds; the proxy is then bound to `/org/freedesktop/systemd1/unit/` followed by the encoded name, and the subscription is the last call |
| ServiceStatusProperties.LoopBound | src/blocks/service_status.rs:80-97 | `fuel` passes make at most 3·`fuel` calls |
| ServiceStatusProperties.LoopPeel | src/blocks/service_status.rs:80-97 | a loop that made three calls or more completed its first pass and went on with the rest |
| ServiceStatusProperties.LoopAfter | src/blocks/service_status.rs:80-97 | after k complete passes, the rest of the loop is the loop started k queries later on the stream after k changes |
| ServiceStatusProperties.LoopPass | src/blocks/service_status.rs:81-96 | the k-th pass reads the k-th reply on the proxy's path; it shows the active profile exactly when that reply is `"active"`, else the inactive one, with the service name unchanged; it waits for the k-th change, or nothing once the stream has ended |
| ServiceStatusProperties.LoopShape | src/blocks/service_status.rs:81-96 | call j is a query, a `set_widget` or a wait as j is 0, 1 or 2 modulo 3 |
| ServiceStatusProperties.LoopRunsOrFails | src/blocks/service_status.rs:80-97 | the loop is still running exactly when it made all 3·fuel calls; a failure stops it part-way through a pass |
| ServiceStatusProperties.LoopFailsAtOnce | src/blocks/service_status.rs:81-96 | a failed loop's last call is a failed read, ending with "Could not get active_state", or a refused widget, ending with the `set_widget` error; no call follows the failure |
| ServiceStatusProperties.StreamEndIsNotAnError | src/blocks/service_status.rs:160-163 | while every read and every widget succeeds, the loop keeps running, whatever is left of the stream, an ended one included |
| ServiceStatusProperties.LoopStopsAtFirstFailure | src/blocks/service_status.rs:81-96 | if the first k passes succeed and the next read fails or its widget is refused, the loop stops with that error after exactly 3k+1 or 3k+2 calls, with no retry |
| ServiceStatusProperties.DefaultProfiles | src/blocks/service_status.rs:70-74 | without configuration, active shows `Idle` with `" $service active "` and inactive shows `Critical` with `" $service inactive "` |
| ServiceStatusProperties.MonitorSubscribesBeforeQuerying | src/blocks/service_status.rs:76-81 | whenever `run` queries, its first three calls were the connection, the proxy for the unit's path and the subscription on it |
| ServiceStatusProperties.MonitorShowsQueriedState | src/blocks/service_status.rs:70-94 | the widget of the k-th pass has the configured (or default) active state and format when the k-th read was `"active"`, else the inactive ones, and the configured name as `service` |
| ServiceStatusProperties.CupsStartup | src/blocks/service_status.rs:112-147 | for `"cups"`, construction binds `/org/freedesktop/systemd1/unit/cups_2eservice` |
| ServiceStatusProperties.CupsPasses | src/blocks/service_status.rs:80-97 | two passes for `"cups"` with the defaults: `Idle` with the active format, then `Critical` with the inactive format after the one change, then a wait on the ended stream |
| ServiceStatusProperties.CupsScenario | src/blocks/service_status.rs:66-97 | the complete call sequence of `run` for `"cups"` with default configuration over two passes, still running at the end |

## Left out

- ServiceStatus.Run: observes the endless `loop` for `fuel` passes only; when the passes run out, the block is reported as `Running`.
- ServiceStatus.Environment.BuildProxy: the object-path check is the "Valid Object Paths" rule of the D-Bus Specification. zbus's own implementation of `.path()` is not part of this model.
- The system bus, the proxy, the `ActiveState` read and the property stream are oracles in `Host`. Whether the bus opens, whether the proxy builds, the i-th read's reply and the changes the stream delivers are inputs; the D-Bus protocol itself is not modelled.
- `next().await` blocks until a change arrives. The model takes the next item at once, or `None` when the stream has ended. Time and blocking are not modelled.
- The async runtime, `async_trait` and `.await` are left out: every call is one sequential step.
- The `Driver` trait and `Box<dyn Driver>` are left out. Only `SystemdDriver` implements the trait, and the loop calls it directly.
- Format templates are opaque strings. `FormatConfig::with_default` and `set_format` are modelled only as choosing a template; the oracle `parses` says whether the format engine accepts it. Rendering the `$service` placeholder is not modelled.
- `api.set_widget` is an oracle that accepts or refuses the i-th widget. What the bar does with the widget is not modelled.
- `api.event_receiver.close()` (line 67) has no effect on the calls modelled here and is left out.
- Config deserialisation (serde, `SmartDefault`) is left out; `Config` is given already parsed.
- Error messages are constructors of `Error`, not formatted strings.
- Widget fields other than state, format and values are left out. `Widget::new()` is taken to start as `Idle` with no format and no values.
- The ASCII check is on characters (every code point below 128). For such a string this is the same as every UTF-8 byte being below 128; the UTF-8 bytes of other names are not modelled, since those names are refused before encoding.
- `vendor/libpulse-binding/src/mainloop/mod.rs` holds only module documentation and declarations of a PulseAudio binding, with no logic for this block.
