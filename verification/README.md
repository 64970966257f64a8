# Regalia: a verified model of the VPN control daemon

Regalia keeps subscriptions, servers and per-application routes, compiles the
current selection into a sing-box document, and runs one engine on it. This
project models that logic in Dafny and proves what holds over all inputs, all
runs and all interleavings. `dafny verify dfyconfig.toml` checks everything.

| files | part of the system |
|---|---|
| `Wrappers`, `Sets`, `Json`, `Text`, `Environment` | options, counting, decoded JSON values, string helpers, and the libraries the program calls (JSON text, base64, URLs, hashing, path cleaning) as unknown functions |
| `Subscription`, `Imports`, `Bodies` | subscription bodies and links to candidate servers and outbounds; what a link's outbound says, key by key, and what a body yields, field by field |
| `State`, `Effects`, `Store`, `StoreRuns`, `Updates` | the persistent store: mutators and their effects, saving, crashes, what every run keeps, what one update means |
| `Config`, `Routing`, `Documents` | the configuration compiler, the first-match meaning of the route it writes, and what a compiled document holds, key by key |
| `Validate`, `Acceptance`, `Soundness` | the independent validator, why it accepts what the compiler writes, and what every accepted text holds |
| `History`, `Retention` | the bounded file of test results, and which results it holds |
| `Exec`, `Words`, `Programs` | the lexer and the wrapper stripping for desktop entries; command lines as they are written, and the program each one runs |
| `Engine`, `EngineRuns` | the engine controller: its sections as an object, and every interleaving of them |
| `Daemon`, `Server`, `EndToEnd` | requests, store and engine under every interleaving; the request methods as an object; the three parts together |
| `NetworkTest` | the network-test job and its worker |

Shared assumptions, always visible as hypotheses: `Env.JsonRoundTrips` (decoding
inverts encoding, and an encoded object begins with a brace) and
`Env.IdsCollisionFree` (the truncated hash of server ids has no collision).
Both can be met, since JSON values and pairs of strings are countable. Parsing a
link is a function of the link, as in the program.

How the concurrent parts are modelled: an event is one section that runs under
a lock, or one thing the outside does (a child exits, a timer fires, a save
fails, a crash). A theorem about runs quantifies over every sequence of events
that is possible step by step. The objects (`Engine.Process`, `Server.Server`,
`NetworkTest.Tests`, `Store.Store`, `History.History`) have the program's
methods; the contract of each says which step or run of the protocol it is.

## What the proofs found

- `SetAppRule` replaces only the first rule that clashes by path or desktop id.
  Joint uniqueness of paths and ids survives a call exactly when at most one
  stored rule clashes (`Updates.SetKeepsUniquenessExactly`); otherwise an older
  rule for the same path can stay and decide (`Updates.SecondClashLeavesDuplicates`).
- A refresh keeps the selection exactly when the refreshed profile is the selected
  server's own and a candidate still has its identity
  (`Updates.RefreshKeepsItsOwnSelectionExactly`), so refreshing one profile always
  drops a selection made in another (`Updates.RefreshDropsForeignSelection`).
- The validator does not compare the users that the netcheck inbound authenticates
  with the users of the route rules: a mismatch is accepted
  (`Acceptance.MismatchedUsersAreAccepted`), and both users are then measured as
  intended exactly when the two pairs agree
  (`Routing.AuthenticatedUsersAreMeasuredExactly`). Compiled documents agree.
- The validator does not require a sniff or a DNS rule, with netcheck or without
  (`Acceptance.SniffAndDnsAreOptional`); DNS is intercepted exactly when both stand
  in place (`Routing.AcceptedTunTraffic`).
- After a final kill that fails, two children can live at once
  (`EngineRuns.FailedKillLetsTwoLive`). Between two calls, and without a further
  failed kill, at most one is ever alive exactly when every child that a failed kill
  let go has exited (`EngineRuns.OneChildExactly`), which can be checked before the
  next start.

## Model

| member | source | states |
|---|---|---|
| `EngineRuns.StepKeepsInv` | internal/engine/process.go:53-232 | Every atomic step of `Start`, `Stop`, `wait`, `fail` or `Status`, and every exit, signal and timer between them, keeps the controller's invariant, in particular what the position of the operation-lock holder says about status, tracked command and done channel. |
| `EngineRuns.ControllerIsSafe` | internal/engine/process.go:53-232 | In every interleaving from a new controller: the PID is nonzero iff a command is tracked, a controller that is not active tracks none, Starting and Stopping last only while the operation lock is held, `Stop` never finds its process missing while marked active, and the children alive number at most one plus those a failed kill let go. |
| `EngineRuns.OneChildExactly` | internal/engine/process.go:53-232 | Between two calls: as long as no further final kill fails, at most one child is ever alive exactly when every child that a failed final kill let go has exited. This can be checked before the next start. |
| `EngineRuns.OneChildAfterAnyRunExactly` | internal/engine/process.go:53-232 | The same after any run from a new controller, with any failed kills, that stands between two calls. |
| `EngineRuns.NeverTwoExactly` | internal/engine/process.go:93-108 | Over every run, failed kills or not, two children never live at once exactly when every spawn finds none alive. |
| `EngineRuns.AtMostOneChild` | internal/engine/process.go:166-178 | In particular, in every interleaving in which no final kill fails at most one child is alive. |
| `EngineRuns.FailedKillLetsTwoLive` | internal/engine/process.go:171-174 | The input on which two live: start, a stop whose final kill fails, and a start while the first child is still alive. |
| `EngineRuns.StartedMeansConnected` | internal/engine/process.go:120-134 | `Start` reports success only with the engine connected, its own child tracked under a PID, and that child running the configuration `Start` was given. |
| `EngineRuns.StopDoneMeansStopped` | internal/engine/process.go:137-178 | When `Stop` returns by its normal ends the engine is not active and tracks no child, and a successful return leaves it stopped. |
| `EngineRuns.SuccessIsReal` | internal/engine/process.go:120-178 | The two rows above in every interleaving from a new controller, whatever came before. |
| `EngineRuns.StartMoves` | internal/engine/process.go:53-134 | `Start` goes on exactly when nothing is active and the binary is found, and ends connected exactly when its child is still tracked at the end of the grace; the status of each case is given. |
| `EngineRuns.LookMoves` | internal/engine/process.go:44-51 | Looking at the status of an unavailable engine finds it stopped when the binary is back, and changes nothing else. |
| `EngineRuns.StopMoves` | internal/engine/process.go:137-160 | `Stop` refuses what is down, clears what has failed, and otherwise goes on to signal the tracked child. |
| `EngineRuns.ExitMoves` | internal/engine/process.go:198-220 | When a child ends, the controller that tracks it drops it and is stopped if it was stopping and failed with its diagnostic otherwise; any other child changes nothing. |
| `EngineRuns.FailureIsExplained` | internal/engine/process.go:198-232 | A status fails only with the diagnostic of the tracked child or the message of the failed call, and a failed status stays as it is until the next call. |
| `EngineRuns.PidIsPublished` | internal/engine/process.go:102-110 | PID and start time are the ones published with the tracked child, as long as it is tracked. |
| `EngineRuns.StatusIsPlain` | internal/engine/process.go:53-232 | In every interleaving an error stands only in a failed or unavailable status, the latter with its fixed text, and PID and start time only beside a tracked child. |
| `EngineRuns.StartIsARun` | internal/engine/process.go:53-135 | The whole call of `Start`, as the method computes it, is one of the machine's runs between call and return, with the same guarded fields, outcome, child count and configuration file. |
| `EngineRuns.StopIsARun` | internal/engine/process.go:137-178 | The same for `Stop`, whether the child exits in time, dies of the kill, or survives it. |
| `Engine.Process.Start` | internal/engine/process.go:53-135 | A whole start of the object, section by section, in terms of what the system and the child do around it: fields, outcome, child count and configuration file. The methods of the single sections equal the functions by which the machine steps. |
| `Engine.Process.Stop` | internal/engine/process.go:137-178 | A whole stop, in terms of what the child does around it. |
| `Daemon.MoveKeepsInv` | internal/daemon/server.go:479-562 | Every event of the daemon keeps the agreement of engine, store, options, persisted intent and the position of the `vpnMu` holder, including the unguarded `profiles.create` and what a returning engine call has left. |
| `Daemon.ActiveEngineAgreesWithStore` | internal/daemon/server.go:531-562 | In every interleaving of requests, engine steps and child exits, an active engine runs exactly the encoded document that `BuildWithOptions` makes of the current store and the current netcheck options; once a child is tracked, it was started on that text and the configuration file holds it. |
| `Daemon.CreatingAProfileKeepsBuild` | internal/daemon/server.go:200-212 | `profiles.create`, which takes no lock, changes no build. |
| `Daemon.RunningIsKept` | internal/engine/process.go:53-135 | The engine becomes active only by the first section of `Start`, and keeps what it runs while it is active. |
| `Daemon.RefusedEnableChangesNothing` | internal/daemon/server.go:482-489 | Enabling with a configuration that cannot be built is refused in every interleaving: until the next request the intent, the selection, the routes and the options stay, nothing is saved by it, and the engine is not called. |
| `Daemon.AnswersAreTrue` | internal/daemon/server.go:490-517 | Every answer to a request for the tunnel after the intent was persisted, and every end of a restore, finds the intent set to its goal. Success towards enabled rests on the section of the engine that found or left it connected, tracking a child that runs exactly what store and options compile to; success towards disabled rests on a section that left it inactive, and it still is. A start that failed keeps the intent. |
| `Daemon.EveryAnswerIsTrue` | internal/daemon/server.go:490-505 | The same in every interleaving from a new daemon; success towards enabled means that the child ran the encoded document built from the store and options of that moment. |
| `Daemon.EveryShutdownEndsDown` | internal/daemon/server.go:104-111 | In every interleaving the deferred stop ends with an engine that is not active, and keeps the store, so the intent. |
| `Daemon.StartAnswerRestsOnStarted` | internal/daemon/server.go:547-550 | The start inside `reconcileVPN` never meets another one running, and success is answered exactly when it started. |
| `Daemon.EnableIsIdempotent` | internal/daemon/server.go:531-539 | Reconciling towards enabled while the engine is up changes no engine, store or option and succeeds. |
| `Daemon.IncompleteIsUnreachable` | internal/daemon/server.go:543-546 | The incomplete-configuration error inside `reconcileVPN` is unreachable from `setVPNEnabled`. |
| `Server.Server.SetVPNEnabled` | internal/daemon/server.go:479-505 | The request from lock to answer is a run of the daemon protocol. It answers incomplete exactly when enabling an unbuildable selection, and then changes nothing; a failed save changes nothing; otherwise the intent is the goal, in memory and on disk if it changed. Success means connected on the encoded document built from store and options, or not running, and comes exactly when the launch or the stop succeeds; the options are renewed exactly when a start needs them; enabling again while up changes nothing but the restore error. |
| `Server.Server.ReconcileVPN` | internal/daemon/server.go:531-562 | A run of the protocol. Success towards enabled means connected, on a file that holds the encoded document built from the store and the current options; towards disabled, not active. The options are renewed exactly when a start is needed and the port is taken. A start succeeds exactly when binary, file and child are there and the child outlives the grace; a stop fails exactly when an active child survives the kill. The incomplete error needs a restore, and an active engine is left alone. |
| `Server.Server.RestoreDesiredState` | internal/daemon/server.go:507-517 | A run of the protocol; without a restore error the engine runs the built document or is down, as the persisted intent asks, with one the error is of the intent's own kind. |
| `Server.Server.SelectServer` | internal/daemon/server.go:278-297 | The request is a run of the protocol; a server is selected in memory exactly when the engine is not active and the server exists and is ready, and success means it is on disk; the engine is neither started nor stopped. |
| `Server.Server.RequireStopped` | internal/daemon/server.go:810-819 | The guard of every configuration request passes exactly when the engine is not active, and is a run of the protocol that then stands before the change. |
| `Server.Server.PrepareIntent` | internal/daemon/server.go:479-492 | The part of `setVPNEnabled` before reconciling: early answers leave store and disk as they were, otherwise the intent is stored. |
| `Server.ReturningRun` | internal/daemon/server.go:547-561 | Any run of the engine between the daemon's call and its return is a run of the daemon; the answer follows from the engine's outcome, and a started answer saw the engine connected with the configuration it was given. |
| `Server.RunsSoundly` | internal/daemon/server.go:479-562 | The run that the object has made is a run of the daemon protocol from a new daemon, so every theorem about runs holds of the object. |
| `Server.ConnectedRunsDocument` | internal/daemon/server.go:543-550 | At every point of any run of the object, a connected engine's file holds the encoded document built from the current store and options. |
| `EndToEnd.ActiveEngineRunsAcceptedConfig` | internal/engineconfig/validate.go:12-40 | In every interleaving with servers from subscriptions and sound netcheck options, the configuration an active engine runs is accepted by the validator exactly when it fits the size limit. |
| `EndToEnd.SelectedServerAlwaysCompiles` | internal/daemon/server.go:278-297 | In every interleaving, with `profiles.create` between the validation of a server and its selection, from any state in which it holds, such as the empty one: a server is selected exactly when store and options compile. |
| `EndToEnd.ActiveEngineServesOptionsAndSelection` | internal/config/config.go:36-141 | In every interleaving the text an active engine runs decodes to a document whose proxy is the outbound of the server selected now, and which has a netcheck inbound exactly when the current options are complete, for exactly their two users with their own passwords. |
| `Config.BuildWithOptions` | internal/config/config.go:36-141 | The compiler's assignments and appends produce the document that the other theorems are about; what it holds is stated by the rows of `Documents`. |
| `Config.BuildRoute` | internal/config/config.go:195-255 | The loops over outbounds and applications produce netcheck rules, sniff, DNS, then one rule for direct and one for proxy with their paths in rule order. |
| `Config.BuildableWithAnyOptions` | internal/config/config.go:36-60 | Whether a build succeeds does not depend on the netcheck options. |
| `Config.BuildReads` | internal/config/config.go:166-193 | A build depends on the two selections, the selected server and the routes only. |
| `Documents.BuildsExactly` | internal/config/config.go:36-47 | A build succeeds exactly when the first server with the selected id has an outbound object that names a type. |
| `Documents.SelectedServerIsTheProxy` | internal/config/config.go:41-57 | Of every built document the proxy entry is that server's own outbound, every key but the tag with its value: an endpoint exactly for WireGuard and Tailscale, else an outbound; the only other entry is the direct one. |
| `Documents.OneEntryIsTheProxy` | internal/config/config.go:41-57 | So exactly one entry carries the proxy tag, and it is the selected server's outbound. |
| `Documents.InboundsAre` | internal/config/config.go:59-92 | The TUN inbound with its fixed fields and excluded networks, and a netcheck inbound exactly when port, users and passwords are all set: on loopback and that port, each user with its own password, and no other field. |
| `Documents.DnsGoesThroughTheProxy` | internal/config/config.go:101-123 | Everything is resolved by the remote server, which is reached through the proxy and itself resolved by the local one. |
| `Documents.DirectNamesAreResolvedRemotely` | internal/config/config.go:203-225 | With netcheck the first rule resolves the direct user's names by the remote server, IPv4 first. |
| `Documents.RouteIsFixed` | internal/config/config.go:245-255 | Process lookup, interface detection and the local default resolver are set, and the final outbound is the default of the first route with the active id, or the proxy when there is none. |
| `Documents.ActiveRouteDecides` | internal/config/config.go:179-255 | What is not DNS goes, by first match over the whole document, where the first route with the active id says: direct for a listed direct path, else proxy for a listed proxy path, else its default. |
| `Documents.NoRouteMeansProxy` | internal/config/config.go:179-201 | Without an active route it goes to the proxy. |
| `Routing.CompiledRoute` | internal/config/config.go:195-255 | Under first-match evaluation, TUN traffic of a process that is not DNS goes direct if some rule of the active route for it says direct, else proxy if some rule says proxy, else to the default outbound; DNS is intercepted. |
| `Routing.BuiltDocumentMeans` | internal/config/config.go:36-141 | The same for the document a stored state compiles to; with no active route everything that is not DNS goes to the proxy. |
| `Routing.UniquePathsMeanTheirRule` | internal/config/config.go:230-244 | With unique paths each path gets its own rule's outbound, wherever the rule stands in the list. |
| `Routing.NetcheckDoesNotInterfere` | docs/architecture.md:97-102 | For every state and all options, adding netcheck changes no decision on TUN traffic. |
| `Routing.NetcheckUsersReachTheirOutbound` | internal/config/config.go:203-225 | The direct user's traffic goes direct, and the proxy user's goes to the proxy exactly when the two names differ. |
| `Routing.AcceptedTunTraffic` | internal/engineconfig/validate.go:186-284 | In any accepted document TUN traffic goes to proxy or direct or is intercepted as DNS, the latter exactly when the sniff and DNS rules stand at their places. |
| `Routing.AcceptedNetcheckTraffic` | internal/engineconfig/validate.go:222-262 | In any accepted document with a netcheck inbound the rules name two different users; traffic of the first goes direct, of the second to the proxy, and any other authenticated user's goes where TUN traffic of the same process goes. The validator does not compare these users with the inbound's credentials. |
| `Routing.AuthenticatedUsersAreMeasuredExactly` | internal/engineconfig/validate.go:99-134 | In an accepted document that intercepts DNS, as every compiled one does, the two users that the inbound authenticates are sent one direct and one to the proxy, for every process, exactly when they are the two users that the rules name. |
| `Routing.MeasuredApartExactly` | internal/engineconfig/validate.go:222-262 | The exact condition for any two users of any accepted document: each is the user its rule names, or is named by no rule while all TUN traffic takes its outbound. |
| `Routing.TunAlwaysExactly` | internal/engineconfig/validate.go:186-284 | All TUN traffic takes one outbound exactly when DNS is not intercepted, the outbound is the final one, and every process that some rule lists takes it. |
| `Validate.Validate` | internal/engineconfig/validate.go:12-40 | The program's checks accept exactly the documents that decode, fit the size and satisfy the declarative shape. |
| `Validate.ValidateInbounds` | internal/engineconfig/validate.go:42-73 | Accepted exactly: one TUN inbound, with at most one netcheck inbound before or after it; the flag says whether there is one. |
| `Validate.ValidateTUN` | internal/engineconfig/validate.go:75-97 | Accepted exactly: the fixed TUN fields and no unknown key. |
| `Validate.ValidateNetcheckInbound` | internal/engineconfig/validate.go:99-134 | Accepted exactly: loopback, an integral port in 1024..65535 and two complete credentials with different names. |
| `Validate.ValidateOutbounds` | internal/engineconfig/validate.go:136-184 | Accepted exactly: only direct and proxy outbounds, with at least one of each, or one proxy endpoint instead of a proxy outbound. |
| `Validate.ValidateRoute` | internal/engineconfig/validate.go:186-205 | Accepted exactly: the fixed flags, a final of proxy or direct, no unknown key and accepted rules. |
| `Validate.ValidateRules` | internal/engineconfig/validate.go:206-284 | The loop with its counters, user set and direct user accepts exactly: with netcheck, resolve(u), route u direct, route v proxy with u and v different; then only application rules on absolute paths, with sniff and DNS rules at their fixed indices only. |
| `Validate.StringList` | internal/engineconfig/validate.go:304-318 | Succeeds exactly on arrays of strings, with their contents. |
| `Validate.TwoUsers` | internal/engineconfig/validate.go:280-282 | Two distinct netcheck users mean exactly that both netcheck route rules are in place with different users. |
| `Soundness.AcceptedTextIsSafe` | internal/engineconfig/validate.go:12-320 | Every accepted text is within the size limit and decodes to a document with one TUN and at most one loopback netcheck inbound for two different users, only direct and proxy outbounds and both there, and rules that match processes by nonempty lists of absolute paths only and send traffic to direct or proxy only. |
| `Acceptance.DocumentAccepted` | internal/config/config.go:62-141 | A compiled document over an importable outbound and sound rules is accepted exactly when netcheck is off or has an allowed port and two distinct users. |
| `Acceptance.SniffAndDnsAreOptional` | internal/engineconfig/validate.go:203-244 | With netcheck or without, every document whose rules past the netcheck ones are two or more application rules is accepted, although it has neither a sniff nor a DNS rule and so does not intercept DNS. |
| `Acceptance.MismatchedUsersAreAccepted` | internal/engineconfig/validate.go:12-40 | An inbound for one pair of users and route rules for another are accepted together. |
| `Acceptance.MismatchedUserFallsThrough` | internal/engineconfig/validate.go:222-262 | In such a document a user that the rules do not name is routed like TUN traffic of its process; `Acceptance.MismatchExample` is one input. |
| `Acceptance.DefaultStandsIn` | internal/engineconfig/validate.go:203-244 | Without DNS interception the agreement is not necessary: in this accepted document one authenticated user is named by no rule, and both are still measured as intended, because all TUN traffic takes the proxy. |
| `Acceptance.CompiledUsersAreMeasured` | internal/config/config.go:81-92 | In a compiled document the inbound authenticates exactly the users of the rules, one measured direct and one through the proxy, by any process. |
| `Acceptance.BuiltIsAccepted` | internal/engineconfig/validate.go:12-40 | The same for the encoded document of any sound state: accepted exactly when it also fits the size limit. |
| `Acceptance.EverythingBuiltIsAccepted` | internal/state/state.go:341-348 | The same from the empty store through any run of operations with imported servers, failed saves and crashes. |
| `Acceptance.SelectionIsImportable` | internal/subscription/subscription.go:117-124 | A selected imported server never compiles to a proxy of a type that the engine reserves. |
| `Subscription.ParseImported` | internal/subscription/subscription.go:24-70 | Whatever a body yields, at every nesting depth, is not empty, is of no reserved type, and has the outbound of its own link or object; what that outbound says is stated by the rows of `Imports` and `Bodies`. |
| `Subscription.LinkImported` | internal/subscription/subscription.go:160-251 | A parsed link, of any kind, keeps the link as its source and generates no reserved type. |
| `Subscription.FromObjectImported` | internal/subscription/subscription.go:117-158 | The filter on internal protocols keeps reserved types out of imported objects. |
| `Subscription.OutboundTyped` | internal/subscription/outbound.go:12-20 | A generated outbound has exactly the type of its protocol; its other keys are stated by `Imports.OutboundSays`. |
| `Subscription.VmessTyped` | internal/subscription/outbound.go:100-155 | A VMess outbound has type vmess. |
| `Subscription.LinkIsNotAnObject` | internal/subscription/subscription.go:160-172 | A link never reads like a JSON object, so link identities and object identities cannot meet. |
| `Subscription.ParseBody` | internal/subscription/subscription.go:28-70 | The recursive method computes the parse function; what it yields is stated by `Bodies.JsonBodySays`, `PlainBodySays`, `TwiceWrapped` and `ThriceWrapped`. |
| `Subscription.ParseJson` | internal/subscription/subscription.go:72-105 | The method computes the JSON reading: outbounds, endpoints, one object or a list, and its errors. |
| `Subscription.ObjectList` | internal/subscription/subscription.go:107-115 | The loop keeps exactly the objects, in order. |
| `Imports.OutboundSays` | internal/subscription/outbound.go:12-256 | An outbound is generated exactly for the listed protocols, with a host, and with a user for VLESS. In terms of the link it holds: type, host, the port iff it is one; the credentials of its protocol under their keys; TLS iff a parameter, the protocol or an https scheme asks for it, with server name sni, else peer, else host, unchecked certificates iff one of the three parameters is 1 or true, ALPN, fingerprint and reality iff given; a transport iff its type is one, with path, service, host and early data; and no other key. |
| `Imports.VmessSays` | internal/subscription/outbound.go:100-155 | The same for a VMess link, in terms of its JSON object. |
| `Bodies.LinkSays` | internal/subscription/subscription.go:160-201 | Scheme, source, stored protocol, address, port, name and outbound of a URL link's server, in terms of the link; none only when the scheme is unknown, the URL malformed or the address empty. |
| `Bodies.LinkOutboundSays` | internal/subscription/outbound.go:12-256 | So every URL link that is imported with an outbound has one that says what the link says. |
| `Bodies.EncodedHostSays` | internal/subscription/subscription.go:253-272 | The host of an encoded `ss` link is what stands behind the last @ and before the first colon of its base64 text, the port what follows. |
| `Bodies.SchemeIsLead` | internal/subscription/subscription.go:161-165 | The scheme is what stands before the first ://, in lower case. |
| `Bodies.NoScheme` | internal/subscription/subscription.go:161-164 | A line without :// behind its first character is no link. |
| `Bodies.VmessLinkSays` | internal/subscription/subscription.go:203-231 | Address, port, name and outbound of a VMess link's server, in terms of the object it carries in base64; none exactly without an address. |
| `Bodies.JsonLinkSays` | internal/subscription/subscription.go:233-251 | A JSON link gives the one server its fragment holds in base64, with the link as its source. |
| `Bodies.LinkReadiness` | internal/subscription/outbound.go:12-98 | A URL link gives a server that is ready exactly for the generated protocols, with a host name, and with a user for VLESS. |
| `Bodies.ObjectSays` | internal/subscription/subscription.go:117-158 | The server of a JSON object: none exactly for the protocols that are no servers; else name, stored protocol, address and port, the latter two from the first `vnext` entry for a VLESS object without a server, and the object itself as outbound. |
| `Bodies.JsonBodySays` | internal/subscription/subscription.go:72-105 | A JSON body gives the servers of its outbounds, else its endpoints, else its own, or of its list; nothing from any other value. |
| `Bodies.ServersJoin` | internal/subscription/subscription.go:97-104 | Objects give their servers one by one, in order, as `Bodies.OneObject` says: each gives the one of `Bodies.ObjectSays`, if any. |
| `Bodies.ObjectsJoin` | internal/subscription/subscription.go:107-115 | Values give their objects one by one, in order, as `Bodies.OneValue` says: each object gives itself, any other value nothing. |
| `Bodies.PlainBodySays` | internal/subscription/subscription.go:48-69 | A body that is neither JSON nor base64 gives the servers of its lines. |
| `Bodies.LinesJoin` | internal/subscription/subscription.go:50 | A body is split at its line ends. |
| `Bodies.LineServers` | internal/subscription/subscription.go:50-62 | Lines give their servers one by one, in order. |
| `Bodies.OneLine` | internal/subscription/subscription.go:51-61 | A line gives the server of its trimmed text, and none when that is blank, a comment or no link. |
| `Bodies.CommaItemsJoin` | internal/subscription/outbound.go:254-262 | A comma-separated value is read item by item, as `OneCommaItem` says: trimmed, and dropped when empty. |
| `Bodies.TwiceWrapped` | internal/subscription/subscription.go:42-46 | Base64 is taken off up to twice: what two wrappings hold is imported. |
| `Bodies.ThriceWrapped` | internal/subscription/subscription.go:28-46 | What three wrappings hold is not. |
| `Store.Store.constructor` | internal/state/state.go:86-124 | Opening on a missing or whole file gives the initial or the stored state. |
| `Store.Store.SaveLocked` | internal/state/state.go:392-425 | Wherever it fails, the file is the old one; on success it is the memory image; every disk content on the way has the old file or the complete new one. |
| `Store.Store.SetVPNEnabled` | internal/state/state.go:71-84 | Does its operation, with memory rolled back when the save fails, atomically on disk. |
| `Store.Store.CreateProfile` | internal/state/state.go:132-150 | Appends a profile with the trimmed name and URL, or refuses exactly when one is blank; memory ahead of disk when the save fails, atomically on disk. |
| `Store.Store.DeleteProfile` | internal/state/state.go:152-169 | The same for removing the first profile with the id; the selection is cleared when it was one of its servers. |
| `Store.Store.UniqueServers` | internal/state/state.go:197-217 | The loop with its set of identities keeps exactly the first candidate of each nonempty identity, in order. |
| `Store.Store.ReplaceServers` | internal/state/state.go:183-234 | The same for a refresh: the first profile with the id takes the refreshed servers and the time, its last error is cleared, and the selection goes unless one of them has its id; refused without a profile or without a candidate that has an identity. |
| `Store.Store.RecordProfileError` | internal/state/state.go:236-247 | The same; only the last error of the first profile with the id changes, to this text. |
| `Store.Store.SelectServer` | internal/state/state.go:249-270 | The same; exactly an id that some profile has becomes the selected one. |
| `Store.Store.CreateRoute` | internal/state/state.go:285-308 | The same; the route is appended with its trimmed name and default, and becomes active when none was. |
| `Store.Store.DeleteRoute` | internal/state/state.go:310-327 | The same; the first route with the id goes, and when it was active the first one left takes over, or none. |
| `Store.Store.ActivateRoute` | internal/state/state.go:329-339 | The same; this route becomes active, and it must exist. |
| `Store.Store.SetAppRule` | internal/state/state.go:341-370 | The same; the cleaned path must be absolute and the outbound proxy or direct, and the first clashing rule of that route is replaced or the rule appended. |
| `Store.Store.RemoveAppRule` | internal/state/state.go:372-390 | The same; the first rule of that route with the path goes. |
| `Effects.PlannedMeans` | internal/state/state.go:71-390 | For every operation: it is refused exactly under the stated condition on the state before, and otherwise the state after is the stated one, down to which place goes, changes or takes over. Every mutator of the object ensures the same of its memory (`Effects.Outcome`). |
| `Effects.RefreshedIsRefresh` | internal/state/state.go:197-217 | A refreshed list holds, in order, exactly the first candidate of each nonempty identity, with its own name, protocol, address, port, source and outbound, under the hash of profile and identity. |
| `StoreRuns.PlannedKeepsReferential` | internal/state/state.go:152-390 | Every operation keeps: the active server is empty or exists, the active route is empty exactly when there are no routes and otherwise exists, outbound choices are proxy or direct, rule paths absolute. |
| `StoreRuns.EveryRunFromStart` | internal/state/state.go:71-425 | After every run from the empty store, with any failed saves and any crashes and reopenings: referential integrity in memory and on disk, and the intent on disk (false without a file) equals the one in memory. |
| `StoreRuns.EveryRunIsSound` | internal/state/state.go:71-425 | The same from any sound state. |
| `StoreRuns.FileIsLastImage` | internal/state/state.go:392-425 | The file always holds the memory image of the last successful save. |
| `StoreRuns.SameIdSameOutbound` | internal/state/state.go:445-448 | Two stored servers with one id have one outbound. |
| `StoreRuns.PlannedKeepsBuildable` | internal/state/state.go:152-234 | Every guarded operation keeps a selected server ready. |
| `StoreRuns.SelectedServerStaysBuildable` | internal/daemon/server.go:278-297 | Through the daemon's guarded operations, failed saves and crashes, a build succeeds exactly when a server is selected, in memory and after reopening. |
| `Updates.SetKeepsUniquenessExactly` | internal/state/state.go:359-367 | Setting a rule keeps joint uniqueness exactly when at most one stored rule clashes with it. |
| `Updates.SecondClashLeavesDuplicates` | internal/state/state.go:359-367 | The input on which it does not, and on which the older rule decides. |
| `Updates.SubmittedRuleDecidesExactly` | internal/config/config.go:230-244 | For any stored rules, the submitted rule decides its path exactly when it says direct or no other entry for the path does. |
| `Updates.SetChangesOnlyItsPaths` | internal/state/state.go:341-370 | With uniqueness and one clash the new rule decides its path, a displaced path falls to the default, and all others keep their decision. |
| `Updates.SetIsCompiled` | internal/config/config.go:195-255 | The same for all TUN traffic of the compiled document of the active route: DNS is intercepted, the new rule's path takes its outbound, a displaced path the default, and every other process keeps its decision. |
| `Updates.RemoveFallsToDefaultExactly` | internal/state/state.go:372-390 | Removing a rule drops only the first entry for its path, so the path falls to the default, whatever that is, exactly when no other valid entry for it remains. |
| `Updates.RemoveKeepsOtherPaths` | internal/state/state.go:372-390 | Removing a rule changes no other path's decision. |
| `Updates.OwnedRulesClashOnce` | internal/state/state.go:359-367 | If each path is always submitted with the same desktop id, at most one stored rule clashes. |
| `Updates.HistoriesKeepUniqueness` | internal/state/state.go:341-390 | ... so joint uniqueness of one rule list holds after every history of Set and Remove. |
| `Updates.LatestRuleDecides` | internal/state/state.go:341-390 | The same over all runs of the store from the empty one, for every route, with cleaned paths, failed saves and crashes, in memory and on disk; and the next rule set on the active route then decides its path in the compiled document, with everything else as in the row of SetIsCompiled. |
| `Updates.RefreshKeepsOrder` | internal/state/state.go:197-217 | A refresh is a stable first-occurrence dedup: a kept candidate stands behind exactly the kept ones before it. |
| `Updates.RefreshIsComplete` | internal/state/state.go:197-217 | Every candidate with an identity is in the list, under an id that depends on profile and identity only. |
| `Updates.RefreshedIdsAreDistinct` | internal/state/state.go:197-217 | No id appears twice in a refreshed list. |
| `Updates.RefreshTwice` | internal/state/state.go:183-234 | Refreshing again with the same candidates changes the timestamp only. |
| `Updates.RefreshKeepsSelectionExactly` | internal/state/state.go:222-226 | A refresh keeps the selection exactly when some candidate with an identity hashes to the selected id, and clears it otherwise. |
| `Updates.RefreshKeepsItsOwnSelectionExactly` | internal/state/state.go:222-226 | With collision-free ids, a selected server survives a refresh exactly when the refreshed profile is its own and a candidate still has its identity. |
| `Updates.RefreshDropsForeignSelection` | internal/state/state.go:222-226 | So a refresh always drops a selection that belongs to another profile. |
| `History.Prune` | internal/netcheck/history.go:79-96 | The loop, the sort and the cut compute the pruned list, and report a change exactly when its length differs; which results that list holds is stated by the rows of `Retention`. |
| `History.SortIsStable` | internal/netcheck/history.go:89-91 | The sort is latest first, a permutation, and keeps ties in order. |
| `History.PrunedIsSorted` | docs/quickshell-api.md:103-105 | A pruned list is latest first and has at most 20 results. |
| `History.PruneAgain` | internal/netcheck/history.go:79-96 | Pruning again at a later time is pruning once at that time. |
| `History.PruneAfterAdding` | internal/netcheck/history.go:42-52 | Adding to a pruned list and pruning is adding to the full list and pruning. |
| `History.HistoryRefinesLog` | internal/netcheck/history.go:27-96 | After any run of List, Add and Clear, with writes failing at will and a clock that never runs backwards, listing shows what pruning the full log once would show; `Retention.ListedAreLatest` says which results these are. |
| `History.History.ListAll` | internal/netcheck/history.go:27-40 | Returns the pruned file and rewrites it exactly when pruning dropped something; fails exactly when that write fails. What it returns over a run is stated by `Retention.ListedAreLatest`. |
| `History.History.AddResult` | internal/netcheck/history.go:42-52 | Puts the result first in the pruned file and prunes again, or leaves the file on failure; `Retention.NewestComesFirst` says that a newest result comes first in it. |
| `History.History.ClearAll` | internal/netcheck/history.go:54-58 | Empties the file, or leaves it on failure. |
| `Retention.PrunedAreFresh` | internal/netcheck/history.go:79-88 | Pruning keeps only results of the list, none more often than there, with an id, a parsed time and at most thirty days of age. |
| `Retention.PrunedSize` | internal/netcheck/history.go:92-95 | It keeps as many as are fresh in this sense, and at most twenty. |
| `Retention.FewAreAllHeld` | internal/netcheck/history.go:79-96 | With at most twenty fresh results it keeps all of them, as often as they stand in the list. |
| `Retention.LeftOutAreNotLater` | internal/netcheck/history.go:89-95 | Otherwise no fresh result left out is later than one kept, in the order of the timestamps' text. |
| `Retention.LeftOutFinishedNoLater` | internal/netcheck/history.go:89-95 | The same in time, for timestamps whose text orders as their times do. |
| `Retention.LessIsLexicographic` | internal/netcheck/history.go:89-91 | The order of the texts is the order of a dictionary. |
| `Retention.NewestComesFirst` | internal/netcheck/history.go:42-52 | A fresh result no earlier than any other comes first when it is added. |
| `Retention.ListedAreLatest` | docs/quickshell-api.md:103-105 | After any run of calls, listing shows of everything added since the last Clear only fresh results, all of them if they are at most twenty and else twenty of which none finished before one left out, latest first. |
| `Exec.ExecTokens` | internal/apps/apps_linux.go:179-225 | The loop with quote, escape and token buffer computes the lexer; what the lexer reads is stated by `Words.WordsAreRead`. |
| `Text.TrimSpaceDrops` | internal/apps/apps_linux.go:180 | Trimming drops exactly the white space around a text; `Text.AsciiSpace` says which ASCII characters that is. |
| `Exec.QuotingRoundTrip` | internal/apps/apps_linux.go:179-225 | On every list, quoting by the Desktop Entry Specification (section "The Exec key") and joining with spaces is inverted up to the tokens never shown, so exactly iff every token is nonempty and no field code. |
| `Exec.TokensFit` | internal/apps/apps_linux.go:179-225 | The summed token lengths never exceed the command's, and no token is empty or a field code. |
| `Words.WordsAreRead` | internal/apps/apps_linux.go:179-225 | Every command line written as words, each any mix of bare, escaped, single-quoted and double-quoted parts, with blanks in between and white space around, is read as exactly these words, but for the empty ones and the field codes. |
| `Words.PlainWordsAreRead` | internal/apps/apps_linux.go:179-225 | In particular plain words separated by runs of spaces and tabs. |
| `Exec.ShellScriptIsShorter` | internal/apps/apps_linux.go:256-259 | The script of a `sh -c` form, behind any wrappers, is strictly shorter than the command, so the recursion ends. |
| `Exec.ApplicationExecToken` | internal/apps/apps_linux.go:227-267 | The loop and the recursion end on every input and compute the program; which one it is is stated by the rows of `Programs`. |
| `Exec.SkipEnvironment` | internal/apps/apps_linux.go:235-254 | The inner loop skips exactly the assignments and options of env. |
| `Exec.ProgramIsNoWrapper` | internal/apps/apps_linux.go:227-267 | The result is empty or a shown token whose base name is none of the stripped wrappers. |
| `Exec.WrapperIsTransparent` | internal/apps/apps_linux.go:231-234 | A wrapper before a quoted command does not change the program found. |
| `Exec.ShellIsTransparent` | internal/apps/apps_linux.go:256-259 | Nor does handing a script to a shell: the program is the script's. |
| `Programs.ProgramIsFirstLeft` | internal/apps/apps_linux.go:227-267 | Behind any wrappers and any env with assignments, valued options and flags, the program is the first token left, unless that is a shell with a script. |
| `Programs.ProgramOfLedScript` | internal/apps/apps_linux.go:256-259 | Then it is the program of the script. |
| `Programs.NoProgram` | internal/apps/apps_linux.go:263-265 | With nothing left there is none. |
| `Programs.MissingValueNoProgram` | internal/apps/apps_linux.go:243-246 | Nor when an option of env lacks its value. |
| `Programs.PlainCommandRuns` | internal/apps/apps_linux.go:227-267 | A plain command line runs its first visible word that is not stripped. |
| `Programs.BaseIsLastElement` | internal/apps/apps_linux.go:230 | The base name by which tokens are told apart is the last element of the path. |
| `NetworkTest.StepKeepsInv` | internal/daemon/server.go:564-740 | Every section and every step of a worker keeps the agreement of slot, workers, history and cancelled contexts. |
| `NetworkTest.TestsAreSafe` | internal/daemon/server.go:564-740 | In every interleaving with distinct ids: at most one test runs and only its worker has work left; a completed test's report is in the history; a cancelled one is not in it, and was asked to stop if errors wrap `context.Canceled` only then; the history got each test at most once. |
| `NetworkTest.CancelReachesTheWorker` | internal/daemon/server.go:730-741 | In every interleaving, cancelling the running test reaches its worker's context, which may then end cancelled, and cancelling any other id reaches nobody; the slot does not move. |
| `NetworkTest.EndsAreShown` | internal/daemon/server.go:645-719 | In every interleaving a finished test shows how it ended: done at 100 percent, cancelled with its fixed text, or failed with the error of its report and whether that could not be saved. |
| `NetworkTest.RequestsAreShown` | internal/daemon/server.go:564-589 | A start that is not refused leaves a new running job with its mode and time; progress is shown on the running job alone. |
| `NetworkTest.MeasurementIsSaved` | internal/daemon/server.go:645-661 | What was measured is what the history gets and the status shows. |
| `NetworkTest.FailureIsSaved` | internal/daemon/server.go:687-719 | A failure is saved and shown with its message. |
| `NetworkTest.CancelledIsNotSaved` | internal/daemon/server.go:687-719 | A cancelled test is shown and not saved. |
| `NetworkTest.FinishedIsFinal` | internal/daemon/server.go:653-719 | Once completed, failed or cancelled, a test never changes again in any run: state, result, error and progress stay while the slot holds it. |
| `NetworkTest.MovesExactlyOnce` | internal/daemon/server.go:591-719 | Over any run a test leaves the running state exactly once if its worker came to its end, and not at all otherwise. |
| `NetworkTest.WorkersEnd` | internal/daemon/server.go:591-661 | In any run a worker makes at most four steps of its own besides reporting progress. |
| `NetworkTest.WorkersAreNeverStuck` | internal/daemon/server.go:591-661 | A worker that is not gone can always make its next step, so a worker that is scheduled often enough ends. |
| `NetworkTest.NeverReturns` | internal/daemon/server.go:573-587 | A test that has left the slot never comes back. |
| `NetworkTest.OnlyItsWorkerMovesIt` | internal/daemon/server.go:591-719 | A running test keeps the slot until its own worker publishes or concludes it, and no event of another test changes the slot but a start. |
| `NetworkTest.BusyMeansUnfinished` | internal/daemon/server.go:564-577 | A start is answered busy exactly when its mode and route are fine and some worker still has a test to conclude. |
| `NetworkTest.Tests.Start` | internal/daemon/server.go:564-589 | The section of the start request on the object: refused for the mode, for a missing tunnel or while running, otherwise a new running job. It and the methods of the other sections equal the functions by which the protocol steps. |

## Left out

- Sockets, HTTP fetching, measuring throughput and latency, `/proc`, desktop files, signals: what they yield are parameters or events.
- `internal/engine/systemd.go`: its status rests on external `systemctl` queries, so the agreement theorems are about the process controller.
- `cmd/`, `internal/client`, `internal/paths`, `internal/protocol`, `internal/enginebridge`, packaging, and the assessment thresholds of `internal/netcheck/netcheck.go`.
- The insides of JSON text, base64, URL parsing, hashing, `filepath.Clean` and number formatting: unknown functions of `Environment.Env`, with only the two hypotheses named above.
- Texts of error messages, except where a text is state (status errors, job errors, the profile's last error).
- Bytes: strings are sequences of characters, the size limit counts characters, and a newline in invalid UTF-8 is not modelled. Lower-casing covers ASCII letters only.
- Undecodable outbound text in the store: outbounds are kept decoded, so a server that `ValidateServer` rejects for its text is one without a usable object here.
- State files edited by hand: opening starts from no file or from an image that was saved.
- The unlocked reads of the netcheck options by the test worker, and the race between two calls of `time.Now` in one job id.
- Requests as concurrent objects: interleavings are proved on the state machines of `Daemon`, `EngineRuns` and `NetworkTest`; the objects run one section, or one request with nothing but its child in between. Of the requests behind `requireStopped` only `servers.select` is an object method, the others are events of `Daemon`.
- The status view, the list views, and the read lock around the restore error.
- The version field of the history file, which makes `List` rewrite it once more, and history or state files that do not decode.
- Time: a started-at text is a parameter, and the history theorem takes timestamps in UTC, where string order is time order (RFC 3339, section 5.1), as the program always writes them.
- Some source functions are split: `Server.Server.ReconcileUp`, `ReconcileDown`, `BuildConfiguration`, `BuildAndStart`, `CallStart`, `StartEngine`, `CallStop`, `StopEngine`, `PersistIntent`, `PrepareIntent` and `StoreSelection` are parts of `reconcileVPN`, `setVPNEnabled` and `servers.select`; `Validate.ValidateRules`, `CheckRule` and `CheckAppRule` of `validateRoute`; `Exec.SkipEnvironment` of `applicationExecToken`; `Store.Store.Finds` and `PutServers` of `SelectServer` and `ReplaceServers`; and the functions of `Subscription` that put one option each of `tlsFromQuery`, `transportFromQuery` and `vmessOutbound`.
- NetworkTest.TestsAreSafe: takes ids to be new and takes it that an error wraps `context.Canceled` only after the context was cancelled; that every worker is scheduled often enough is not part of this model.
- Daemon.ActiveEngineAgreesWithStore: starts from a controller that has started nothing; what an earlier daemon left running is not part of this model.
