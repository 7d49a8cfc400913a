# Pumpkin reactor, keep-alive monitor and plugin loader in Dafny

This project models the sequential core of the Pumpkin Minecraft server:

- the single-threaded reactor loop of `pumpkin/src/main.rs`. Its state is a token counter
  (`unique_id`, which starts at `SERVER.0 + 1`) and two maps from token to owner, `clients`
  and `players`. It accepts connections from the listener until `WouldBlock`, hands each
  connection event to the player branch and then to the client branch, and tears down or
  promotes clients;
- one iteration of the per-connection keep-alive monitor, and finite runs of it;
- the helpers `scrub_address` and `convert_logger_filter`;
- `PluginLoader` of `pumpkin-plugins/src/plugin_loader.rs`: the extension allow-list, loading
  one plugin, loading a directory listing, and reading the plugin list.

The files are:

- `wrappers.dfy`: `Option` and `Result`.
- `logging.dfy`: module `Logging`. `scrub_address` and `convert_logger_filter` as functions.
- `keepalive.dfy`: module `KeepAlive`. The monitor tick as a function, a run over a tick
  sequence as a function, and the loop as the method `RunMonitor` proved against it.
- `registry.dfy`: module `Registry`. The reactor as a pure state machine over
  `State(uniqueId, clients, players)`. Every function returns the new state, the loop's
  continue/exit verdict, and the trace of external calls made (`Action` values).
- `registry_properties.dfy`: module `RegistryProperties`. Lemmas about that state machine.
- `event_loop.dfy`: module `EventLoop`. Class `Reactor` holds the three fields and updates
  them in place with nested loops. Each method is proved equal to the matching `Registry`
  function and keeps `Valid`.
- `plugin_loader.dfy`: module `PluginLoading`. `Path::extension` and `is_valid_plugin` as
  functions, and class `PluginLoader` with a `plugins` sequence that its methods append to.

The outside world is given as inputs:

- what `poll` reports, as a sequence of `Wakeup`s;
- what each `accept` returns, as the pending connections of an event plus the error that
  ends the drain;
- whether `register`/`deregister` succeed;
- the `closed` and `make_player` flags read after `Client::poll` and `process_packets`;
- the current time in milliseconds, the random challenge id, and the reply received for it;
- the dynamic linker, as a function from path to an optional library.

Calls into code not part of this model appear as `Action` entries in order: `process_packets`,
`Player::remove`, `Server::add_player`, `spawn_player`, spawning the monitor, and `register`/`deregister`.
That order lets the contracts state, for example, which flag is read before packets are processed.

Points of the loop's behaviour worth knowing:

- An `accept` that fails with `Interrupted` ends the loop with that error, as every accept
  error other than `WouldBlock` does (`pumpkin/src/main.rs:207-210`). Only `poll` retries
  `Interrupted` (`pumpkin/src/main.rs:186-189`).
- The player branch reads `closed` once, right after the poll and before packets are
  processed (`pumpkin/src/main.rs:271-278`). That single read decides both processing and
  removal. A flag set during processing is seen on the next event.
- The client branch reads `closed` before processing packets and `make_player` after
  (`pumpkin/src/main.rs:290-298`).

## Model

| member | source | states |
|---|---|---|
| Logging.ScrubAddress | pumpkin/src/main.rs:42-51 | the result has the input's length; with scrubbing off it is the input; with scrubbing on, every `.` and `:` stays in place and every other character becomes `x` |
| Logging.ScrubIdempotent | pumpkin/src/main.rs:42-51 | scrubbing an already scrubbed address changes nothing |
| Logging.ScrubbedAlphabet | pumpkin/src/main.rs:44-47 | a scrubbed address holds only `.`, `:` and `x` |
| Logging.ScrubRevealsOnlySeparators | pumpkin/src/main.rs:44-47 | two addresses of equal length with the same separators at the same places scrub to the same text, so the mask reveals nothing but the separator layout |
| Logging.FilterOfRank | pumpkin/src/main.rs:74-83 | the level filter of each rank 0..5 has exactly that rank |
| Logging.ConvertLoggerFilter | pumpkin/src/main.rs:74-83 | no contract of its own; `ConvertKeepsRank`, `ConvertInjective` and `ConvertSurjective` state its properties |
| Logging.ConvertKeepsRank | pumpkin/src/main.rs:74-83 | the conversion maps each configured level to the filter of the same severity rank |
| Logging.ConvertInjective | pumpkin/src/main.rs:74-83 | distinct configured levels become distinct filters |
| Logging.ConvertSurjective | pumpkin/src/main.rs:74-83 | every log filter is the image of some configured level, so the mapping is one-to-one and onto |
| KeepAlive.Elapsed | pumpkin/src/main.rs:242 | `duration_since` is never negative: it equals `now - last` when the clock has not gone backwards, and saturates at zero when it has |
| KeepAlive.MonitorTick | pumpkin/src/main.rs:238-260 | outside Play the timestamp becomes `now` and nothing is sent; in Play, 15 s or more without an ack kicks, and this is the only way to kick; otherwise the challenge is sent, and the timestamp becomes `now` exactly when the reply equals the challenge, staying the same for another reply or none |
| KeepAlive.Monitor | pumpkin/src/main.rs:236-262 | a run over a tick sequence kicks, if at all, at one of its ticks |
| KeepAlive.MonitorStep | pumpkin/src/main.rs:238-261 | helper for `RunMonitor`: a kick at tick i ends the run there; otherwise the run continues from the tick's new timestamp, with its probe recorded first |
| KeepAlive.RunMonitor | pumpkin/src/main.rs:236-262 | the task's loop computes exactly the run function: the same final timestamp, kick tick and probes sent; a kick happens in Play with 15 s elapsed |
| KeepAlive.NotPlayNeverKicked | pumpkin/src/main.rs:258-260 | a connection that never reaches Play is never kicked, however much time passes, and its timestamp follows the clock |
| KeepAlive.EchoingPeerNeverKicked | pumpkin/src/main.rs:249-256 | a peer that echoes every challenge, with ticks less than 15 s apart, is never kicked over any finite run |
| KeepAlive.SilentPeerKickedAtDeadline | pumpkin/src/main.rs:241-248 | a peer in Play whose replies never echo the challenge is kicked at the first tick 15 s past its last ack, and not before; nothing is assumed about ticks after that one |
| KeepAlive.KickOnlyAtDeadline | pumpkin/src/main.rs:241-248 | whenever a run kicks, that tick was in Play and at least 15 s past the timestamp held then |
| KeepAlive.ProbesAreChallenges | pumpkin/src/main.rs:249-252 | at most one probe per tick is sent, and each is the challenge drawn for a Play tick |
| Registry.Initial | pumpkin/src/main.rs:140-152 | the counter starts at `SERVER + 1` with both maps empty, and this start satisfies the registry invariant |
| Registry.NextToken | pumpkin/src/main.rs:222-223 | no contract of its own; `AcceptOneEffect`, `EventLoop.Reactor.NextToken` and `TokensStrictlyIncrease` state that the token is fresh, at least 2 and increasing |
| Registry.AcceptOne | pumpkin/src/main.rs:198-264 | no contract of its own; `AcceptOneEffect` states its properties |
| Registry.Drain | pumpkin/src/main.rs:195-212 | no contract of its own; the `DrainAccepts…`, `DrainStopsAt…`, `DrainFrame` and `DrainRegisters` lemmas state its properties |
| Registry.PlayerReady | pumpkin/src/main.rs:269-285 | no contract of its own; `PlayerBranch` and `PlayerBranchCounter` state its properties |
| Registry.ClientReads | pumpkin/src/main.rs:288-299 | no contract of its own; `ClientReadOrder` states the order of the reads |
| Registry.ClientReady | pumpkin/src/main.rs:287-315 | no contract of its own; `ClientTeardownWins`, `ClientPromoted`, `ClientIdle` and `ClientReadOrder` state its properties |
| Registry.ConnectionReady | pumpkin/src/main.rs:267-316 | no contract of its own; `UnknownToken`, `ClientEventIsClientBranch`, `PlayerEventIsPlayerBranch`, `ConnectionReadyFrame` and `ConnectionReadyRegistersNothing` state its properties |
| Registry.HandleEvent | pumpkin/src/main.rs:194-317 | no contract of its own; `HandleEventFrame`, `HandleEventRegisters` and `NeverClientAgain` state its properties |
| Registry.HandleEvents | pumpkin/src/main.rs:193-318 | no contract of its own; `HandleEventsFrame`, `HandleEventsRegisters` and `StaysOutOfClientsInBatch` state its properties |
| Registry.Serve | pumpkin/src/main.rs:185-319 | no contract of its own; `ServeFrame`, `ServeRegisters`, `TokensStrictlyIncrease`, `PlayersNeverDemoted` and `StaysOutOfClients` state its properties |
| Registry.FlowOf | pumpkin/src/main.rs:224-228 | a fallible OS call followed by `?` continues exactly when it succeeds and otherwise exits with its error |
| RegistryProperties.RangeAt | pumpkin/src/main.rs:222-223 | helper for `TokensStrictlyIncrease`: the token range `lo..hi` has `hi - lo` entries, the i-th being `lo + i` |
| RegistryProperties.RegisteredAppend | pumpkin/src/main.rs:224-228 | helper for the `…Registers` lemmas: the tokens registered by consecutive call sequences are the concatenation of each one's |
| RegistryProperties.RangeAppend | pumpkin/src/main.rs:222-223 | helper for the `…Registers` lemmas: adjacent token ranges join into one range |
| RegistryProperties.NothingRegistered | pumpkin/src/main.rs:224-228 | helper for `ConnectionReadyRegistersNothing`: a call sequence without `register` registers no token |
| RegistryProperties.RegistersRangeChain | pumpkin/src/main.rs:185-319 | steps that each register the tokens between their old and new counter, when run one after the other, register the joined range |
| RegistryProperties.AcceptOneEffect | pumpkin/src/main.rs:222-264 | one accept bumps the counter first and registers that fresh token, which is at least 2 and not yet in `clients` or `players`; on success it adds one client under it and changes nothing else; a failed registration exits with its error and leaves both maps as they were |
| RegistryProperties.NewClientsShift | pumpkin/src/main.rs:195-264 | `k + 1` accepts from a counter are one accept followed by `k` accepts from the bumped counter |
| RegistryProperties.NewClientsNone | pumpkin/src/main.rs:195-205 | helper for `DrainAcceptsAllClients` and `DrainStopsAtFailedRegistrationClients`: zero accepts add no client |
| RegistryProperties.DrainAcceptStep | pumpkin/src/main.rs:195-264 | helper for the `DrainAccepts…` and `DrainStopsAt…` lemmas: a drain whose next registration succeeds is that accept's calls followed by the rest of the drain from the new registry |
| RegistryProperties.DrainAcceptsAll | pumpkin/src/main.rs:195-212 | when every registration succeeds, the counter grows by the number of pending connections and `players` is untouched; `WouldBlock` goes back to polling and any other accept error ends the loop with that error |
| RegistryProperties.DrainAcceptsAllClients | pumpkin/src/main.rs:222-264 | such a drain adds to `clients` exactly one client per pending connection, each keyed by its own consecutive fresh token; with nothing pending (an immediate `WouldBlock`) `clients` is unchanged |
| RegistryProperties.DrainAcceptsAllCount | pumpkin/src/main.rs:264 | such a drain grows `clients` by exactly the number of pending connections |
| RegistryProperties.DrainStopsAtFailedRegistration | pumpkin/src/main.rs:222-228 | a drain whose j-th registration fails ends the loop with that error, having bumped the counter once per accepted connection including the failing one, with `players` untouched |
| RegistryProperties.DrainStopsAtFailedRegistrationClients | pumpkin/src/main.rs:224-264 | such a drain has added exactly the connections before the failing one to `clients` |
| RegistryProperties.DrainFrame | pumpkin/src/main.rs:195-265 | every drain keeps the registry invariant, leaves `players` alone, never lowers the counter, and adds clients only under tokens above the old counter |
| RegistryProperties.DrainRegisters | pumpkin/src/main.rs:222-228 | a drain registers exactly the tokens between the old and the new counter, in increasing order |
| RegistryProperties.ClientTeardownWins | pumpkin/src/main.rs:288-307 | a client whose `closed` flag is set after its poll gets no packet processing, leaves `clients`, is deregistered and never enters `players`, whatever `make_player` says |
| RegistryProperties.ClientPromoted | pumpkin/src/main.rs:303-312 | a client not closed and asking for promotion leaves `clients` and enters `players` under its own id, with `add_player` then `spawn_player` called and no deregistration |
| RegistryProperties.ClientIdle | pumpkin/src/main.rs:288-303 | a client with neither flag set leaves both maps as they were |
| RegistryProperties.ClientReadOrder | pumpkin/src/main.rs:288-299 | the client branch polls first, reads `closed` before processing packets, processes them exactly when `closed` was false, and reads `make_player` after that |
| RegistryProperties.PlayerBranch | pumpkin/src/main.rs:269-285 | the player branch processes packets exactly when the `closed` read right after the poll was false; it removes the player, calling the removal hooks and then deregistering, exactly when that same read was true; `clients` is untouched |
| RegistryProperties.UnknownToken | pumpkin/src/main.rs:287-302 | an event for a token that is neither a client nor a player changes nothing and calls nothing |
| RegistryProperties.ClientEventIsClientBranch | pumpkin/src/main.rs:267-316 | under the invariant, an event for a client token runs only the client branch |
| RegistryProperties.PlayerEventIsPlayerBranch | pumpkin/src/main.rs:267-316 | under the invariant, an event for a player token runs only the player branch |
| RegistryProperties.ConnectionReadyFrame | pumpkin/src/main.rs:267-316 | an event for a connection token keeps the invariant, leaves the counter alone, adds no client, and adds only a player that was a client under the same token |
| RegistryProperties.ConnectionReadyRegistersNothing | pumpkin/src/main.rs:267-316 | an event for a connection token registers no socket |
| RegistryProperties.HandleEventFrame | pumpkin/src/main.rs:194-317 | any event, accept or connection, keeps the disjointness invariant, adds clients only under fresh tokens and adds players only from clients |
| RegistryProperties.HandleEventRegisters | pumpkin/src/main.rs:194-317 | any event registers exactly the tokens between the old and the new counter |
| RegistryProperties.PlayerBranchCounter | pumpkin/src/main.rs:269-285 | the player branch never changes the counter |
| RegistryProperties.HandleEventsFrame | pumpkin/src/main.rs:193-318 | a batch of events keeps the invariant |
| RegistryProperties.HandleEventsRegisters | pumpkin/src/main.rs:193-318 | a batch registers exactly the tokens between the old and the new counter |
| RegistryProperties.ServeFrame | pumpkin/src/main.rs:185-319 | every run of the loop keeps the invariant that `clients` and `players` have disjoint keys |
| RegistryProperties.ServeRegisters | pumpkin/src/main.rs:185-319 | a run registers exactly the tokens between the old and the new counter |
| RegistryProperties.TokensStrictlyIncrease | pumpkin/src/main.rs:140 | from the server's start, the tokens handed to `register` are 2, 3, 4, …: strictly increasing, never the listener's token 0, and the invariant holds at the end |
| RegistryProperties.NeverClientAgain | pumpkin/src/main.rs:194-317 | a token that is not a client and not above the counter is still not a client after any event |
| RegistryProperties.PlayersNeverDemoted | pumpkin/src/main.rs:303-312 | once a token is a player it never becomes a client again, over any run of the loop |
| RegistryProperties.StaysOutOfClients | pumpkin/src/main.rs:185-319 | a token that is not a client and not above the counter never becomes a client over any run |
| RegistryProperties.StaysOutOfClientsInBatch | pumpkin/src/main.rs:193-318 | the same holds over a batch of events |
| EventLoop.Reactor.constructor | pumpkin/src/main.rs:140-152 | a fresh reactor holds the initial registry and satisfies the invariant |
| EventLoop.Reactor.NextToken | pumpkin/src/main.rs:222-223 | the counter is bumped and the new value returned; it is at least 2 and not a key of either map |
| EventLoop.Reactor.AcceptOne | pumpkin/src/main.rs:198-264 | one accept in place equals `Registry.AcceptOne` on the old registry and keeps the invariant |
| EventLoop.Reactor.DrainAccepts | pumpkin/src/main.rs:195-265 | the accept loop in place equals `Registry.Drain` on the old registry and keeps the invariant |
| EventLoop.Reactor.OnPlayerReady | pumpkin/src/main.rs:269-285 | the player branch in place equals `Registry.PlayerReady` |
| EventLoop.Reactor.OnClientReady | pumpkin/src/main.rs:288-315 | the client branch in place equals `Registry.ClientReady` |
| EventLoop.Reactor.OnConnectionReady | pumpkin/src/main.rs:267-316 | both branches in place equal `Registry.ConnectionReady` and keep the invariant |
| EventLoop.Reactor.HandleEvent | pumpkin/src/main.rs:194-317 | dispatch on the token in place equals `Registry.HandleEvent` and keeps the invariant |
| EventLoop.Reactor.HandleEvents | pumpkin/src/main.rs:193-318 | the `for` loop over events equals `Registry.HandleEvents` and keeps the invariant |
| EventLoop.Reactor.Serve | pumpkin/src/main.rs:185-319 | the outer loop over wake-ups equals `Registry.Serve` and keeps the invariant |
| PluginLoading.LastDot | pumpkin-plugins/src/plugin_loader.rs:52 | the position found is a dot with no dot after it, and none is found exactly when the name has no dot |
| PluginLoading.Extension | pumpkin-plugins/src/plugin_loader.rs:52 | no contract of its own; `IsValidPluginIff`, `NoExtensionRejected`, `WithExtension` and `OtherNamesRejected` state its properties |
| PluginLoading.IsValidPlugin | pumpkin-plugins/src/plugin_loader.rs:51-59 | no contract of its own; `IsValidPluginIff`, `NoExtensionRejected`, `AllowedExtensionsAccepted` and `OtherNamesRejected` state its properties |
| PluginLoading.IsValidPluginIff | pumpkin-plugins/src/plugin_loader.rs:51-59 | a path is a plugin exactly when it has an extension and that extension is one of `so`, `dll`, `dylib`, `plugin` |
| PluginLoading.LastDotAt | pumpkin-plugins/src/plugin_loader.rs:52 | a dot with no dot after it is the last dot of the name |
| PluginLoading.NoExtensionRejected | pumpkin-plugins/src/plugin_loader.rs:52-58 | a name without an extension is rejected |
| PluginLoading.AllowedExtensionsAccepted | pumpkin-plugins/src/plugin_loader.rs:53-56 | for every non-empty stem (including `.`, so `..so` is accepted), a name of the form `stem.so`, `stem.dll`, `stem.dylib` or `stem.plugin` is accepted |
| PluginLoading.OtherNamesRejected | pumpkin-plugins/src/plugin_loader.rs:52-58 | for every non-empty stem, the comparison is exact: `stem.SO` and `stem.Dll` are rejected, `stem.so.bak` is rejected since only the last extension counts, and the hidden file `.so` has no extension |
| PluginLoading.WithExtension | pumpkin-plugins/src/plugin_loader.rs:52 | a non-empty stem followed by a dot and a dot-free extension has exactly that extension, except for the name `..`, which has none |
| PluginLoading.ValidEntries | pumpkin-plugins/src/plugin_loader.rs:40-44 | the filtered listing holds exactly the entries that pass `is_valid_plugin`, and no more entries than the listing |
| PluginLoading.Open | pumpkin-plugins/src/plugin_loader.rs:20-27 | a load yields a plugin exactly when the library opens and exports its entry point; the plugin is the one the entry point returns; a library that does not open gives `LibraryLoadFailed(path)`, and one without the entry point gives `MissingEntryPoint(path)` |
| PluginLoading.LoadDirectoryAttempts | pumpkin-plugins/src/plugin_loader.rs:40-48 | a directory load tries a prefix of the valid entries, in listing order and skipping none; each successful attempt loads the plugin that entry's library returns; when nothing fails it tries all the valid entries and loads one plugin for each; when a load fails it was the last one tried and its error is the one reported |
| PluginLoading.LoadDirectory | pumpkin-plugins/src/plugin_loader.rs:33-49 | no contract of its own; `LoadDirectoryAttempts`, `EmptyDirectoryLoadsNothing` and `DirectoryLoadCount` state its properties |
| PluginLoading.EmptyDirectoryLoadsNothing | pumpkin-plugins/src/plugin_loader.rs:36-48 | an empty listing loads nothing and fails nothing |
| PluginLoading.DirectoryLoadCount | pumpkin-plugins/src/plugin_loader.rs:44-46 | after a load that nothing aborted, one plugin was loaded per valid entry |
| PluginLoading.PluginLoader.constructor | pumpkin-plugins/src/plugin_loader.rs:14-18 | a new loader has an empty plugin list |
| PluginLoading.PluginLoader.LoadPlugin | pumpkin-plugins/src/plugin_loader.rs:20-31 | the new plugin, after its `on_load` hook, is appended at the end with earlier plugins unchanged and in order; a failed load leaves the list as it was |
| PluginLoading.PluginLoader.LoadPluginsFromDirectory | pumpkin-plugins/src/plugin_loader.rs:33-49 | the `for` loop equals `LoadDirectory` on the listing, and the list grows by exactly the plugins it loaded, in order |
| PluginLoading.PluginLoader.GetPlugins | pumpkin-plugins/src/plugin_loader.rs:61-63 | returns the current list and changes nothing |

## Left out

- mio polling, sockets, `register`/`deregister` and `set_nodelay` are OS I/O. Their results are inputs, and the calls appear only as trace entries. The failed `set_nodelay` warning and the log lines are not modelled.
- tokio tasks, the 1-second interval, the mpsc channel and atomic orderings need a concurrency model. The keep-alive monitor is modelled as a sequential run over given ticks, separately from the reactor.
- The liveness of the keep-alive timeout is not claimed. The `recv().await` at `pumpkin/src/main.rs:253` has no deadline, so a tick happens only if a reply (or none) is delivered.
- `Client::poll`, `process_packets`, `kick`, `send_packet`, `Player::remove`, `Server::add_player` and `spawn_player` are not part of this model. Their effects are the input flags and trace entries.
- `Instant`/`Duration` are integer milliseconds, and `rand::random` is a given challenge id per tick.
- The token counter (`unique_id`, a `usize`) is unbounded. Wrap-around after 2^64 accepts is not modelled.
- The accept error `Interrupted` is modelled as the code has it: it ends the loop.
- The console reader, RCON, the ctrl-c handler, the panic hook, rayon setup, `init_logger` and the global configuration reads are I/O or global state. The `scrub_ips` setting is a parameter of `ScrubAddress`.
- `libloading` and the unsafe FFI are replaced by an abstract `dlopen` function from path to optional library. A load failure, which panics in the source, is an error value that ends the directory load.
- `fs::create_dir_all` and `read_dir` are not modelled, nor are their failures. A directory is a given listing of file names, so paths are compared by file name only.
- `PluginLoader.LoadPlugin`: the `on_load` hook's own effects are not modelled. Its call is recorded as the plugin being initialized.
- `Client::new` receives the listener address rather than the peer's. Clients are modelled by their token only.
- `pumpkin-plugins/src/plugin.rs` (a two-method interface) and the example plugin are not part of this model.
