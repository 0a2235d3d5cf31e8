# UDP command listener: a Dafny model

This project models the UDP command module of an application skeleton. The module has three parts:

- the UDP listener (`servers/udp.js`): socket lifecycle, registration of every application module before the bind, socket-error classification, and datagram framing and dispatch;
- the UDP module's registrar (`module.js`), which finds the command handlers in the application registry and subscribes them to the listener;
- the `uppercase` command handler and its base class (`events/uppercase.js`, `events/base.js`).

The socket is abstract. A bind either brings the listening event, an error event or a synchronous throw, and the caller supplies which one. A close always brings its confirmation, and a send appends one datagram to the server's outbox.

Modules:

- `Common`: shared values (`Option`, sender info, socket errors, the reasons carried by throws and exits).
- `Framing`: JavaScript `split(' ')` / `join(' ')` and the command/payload view they give.
- `Ascii`: `toUpperCase` on ASCII.
- `Emitter`: the listener table of the `EventEmitter` the server extends.
- `Registrar`: `module.js`.
- `UdpServer`: `servers/udp.js`.
- `BaseEvents`: `events/base.js`.
- `UppercaseEvent`: `events/uppercase.js`.
- `Scenarios`: whole-application runs.

`emit` does not run the handlers inside the model. `Udp.OnMessage` returns the ordered listener calls that `emit` makes, and the scenarios perform each call with `Uppercase.Handle`.

The model follows what the code does, except for the one defect listed under Findings. There the corrected behaviour is modelled beside the code as written, and the rest of the model uses the corrected one. In particular:

- Datagrams are split on the single space character, not on whitespace in general. The payload is exactly the text after the first space, with repeated spaces and tabs kept.
- There is no guard against a second `start`. A second start first runs every module's `register` again, so under the corrected start every handler is subscribed a second time. Only then does it reach the bind of an already bound socket, which throws, and the process exits.
- `onError` treats an error as a bind failure only when its system call is `listen`.
- As written, the listener hands each module's `register` the configuration section name. `Udp.StartAsWritten` models that; `Udp.Start` models the corrected call, which hands over the server (see Findings).

## Model

| member | source | states |
|---|---|---|
| `Framing.Split` | modules/udp/src/servers/udp.js:195 | `split(' ')` gives at least one piece and no piece holds a space |
| `Framing.SpaceIndex` | modules/udp/src/servers/udp.js:195-196 | the index of the first space (or the length): a space stands there and none before it |
| `Framing.CommandPayloadPartition` | modules/udp/src/servers/udp.js:195-200 | the command, one space and the payload rebuild the text exactly; the command holds no space; with no space the payload is empty |
| `Framing.Join` | modules/udp/src/servers/udp.js:200 | `join(' ')` begins with the first piece and, when there are more pieces, a space follows it |
| `Framing.JoinExtendsHead` | modules/udp/src/servers/udp.js:200 | lengthening the first piece by a prefix lengthens `join(' ')` by that prefix |
| `Framing.JoinSplit` | modules/udp/src/servers/udp.js:195-200 | round trip: `join(' ')` after `split(' ')` gives back the text, so no space is lost or added |
| `Framing.SplitNoSpace` | modules/udp/src/servers/udp.js:195 | a text without a space splits into itself alone |
| `Framing.SplitWordThenSpace` | modules/udp/src/servers/udp.js:195-196 | a space-free word followed by a space splits off as the first piece, the rest splitting on its own |
| `Framing.SplitJoin` | modules/udp/src/servers/udp.js:195-200 | round trip the other way: space-free pieces survive `join(' ')` then `split(' ')` |
| `Framing.SplitGivesCommandAndPayload` | modules/udp/src/servers/udp.js:195-200 | the first piece (`shift`) is the text before the first space; the remaining pieces re-joined are exactly the text after it |
| `Framing.FrameWordAndPayload` | modules/udp/src/servers/udp.js:195-200 | framing `word + ' ' + p` yields command `word` and payload `p` for any `p` |
| `Ascii.UpperChar` | modules/udp/src/events/uppercase.js:56 | `a`..`z` move to `A`..`Z` (32 code points down), every other character is kept, and the result is never a lower-case letter |
| `Ascii.ToUpper` | modules/udp/src/events/uppercase.js:56 | `toUpperCase` keeps the length |
| `Ascii.ToUpperAt` | modules/udp/src/events/uppercase.js:56 | `toUpperCase` keeps the length and maps position `i` to the upper form of character `i` |
| `Ascii.ToUpperShape` | modules/udp/src/events/uppercase.js:56 | the reply has the message's length, each character uppercased, and no lower-case letter |
| `Ascii.ToUpperIdempotent` | modules/udp/src/events/uppercase.js:56 | uppercasing the reply again changes nothing |
| `Emitter.Subscribed` | modules/udp/src/module.js:45 | `on(event, l)` appends `l` to the listeners of `event` and leaves every other event's listeners alone |
| `Emitter.Calls` | modules/udp/src/servers/udp.js:200 | `emit` calls each listener once, in subscription order, with the same sender and payload |
| `Emitter.EventEmitter.constructor` | modules/udp/src/servers/udp.js:19-20 | a new emitter has no listeners |
| `Emitter.EventEmitter.On` | modules/udp/src/module.js:45 | the table afterwards is the old one with the listener appended under the event |
| `Registrar.Matching` | modules/udp/src/module.js:43 | the registry query returns exactly the entries whose key is `udp.events.` followed by one or more characters other than line terminators |
| `Registrar.MatchesEventPattern` | modules/udp/src/module.js:43 | a matching key starts with `udp.events.`, is longer than it, and holds no line feed after it |
| `Registrar.MatchingAppend` | modules/udp/src/module.js:43-45 | the query over two registry slices is the query over each in turn, so registry order and duplicates are kept |
| `Registrar.MatchingAll` | modules/udp/src/module.js:43-45 | a registry whose keys all match comes back whole, in order, duplicates included |
| `Registrar.Subscribe` | modules/udp/src/module.js:44-45 | subscribing never removes or reorders a listener: each event's old listeners stay a prefix of its new ones |
| `Registrar.SubscribeAppends` | modules/udp/src/module.js:44-45 | subscribing the matches appends to each name's listeners exactly one listener per entry of that name, in registry order |
| `Registrar.SubscribedUnderOtherName` | modules/udp/src/module.js:44-45 | a name that no matched handler carries gets no new listener |
| `Registrar.SubscribedUnderSameName` | modules/udp/src/module.js:44-45 | handlers sharing a name each get their own listener: nothing is deduplicated |
| `Registrar.UdpModule.constructor` | modules/udp/src/module.js:14-16 | a new module has queried nothing |
| `Registrar.UdpModule.Register` | modules/udp/src/module.js:39-46 | with anything but the UDP server it changes nothing; with the UDP server, `events` becomes the query result and the server's table gains the subscriptions in order |
| `UdpServer.FirstFailure` | modules/udp/src/servers/udp.js:78-91 | the first module whose `register` returns a non-promise or rejects; every earlier module succeeded |
| `UdpServer.PromiseModulesNeverFail` | modules/udp/src/servers/udp.js:82-88 | modules without `register`, async `register`s such as the UDP module's, and settling promises never stop the fold |
| `UdpServer.RegistrationStep` | modules/udp/src/servers/udp.js:79-89 | a one-step unfolding of the reduce fold, used by the loop: one more module adds its own name (if it has `register`) and its own table effect |
| `UdpServer.Registered` | modules/udp/src/servers/udp.js:78-91 | registration only adds listeners: each event's old listeners stay a prefix of its new ones |
| `UdpServer.BindPhase` | modules/udp/src/servers/udp.js:94-107 | any outcome but success leaves the socket and `_listening` as they were; success only comes from a listening event on an open, unbound socket, which ends bound to the endpoint and listening |
| `UdpServer.RegisteredBySectionName` | modules/udp/src/servers/udp.js:85 | handed only the section name, no UDP module changes the listener table (other modules have no effects in this model, see Left out) |
| `UdpServer.RegisteredByServer` | modules/udp/src/servers/udp.js:78-91 | handed the server, a list holding the UDP module once subscribes the matching handlers once, and a list without it subscribes nothing |
| `UdpServer.Udp.constructor` | modules/udp/src/servers/udp.js:19-29 | no socket, no name, not listening, nothing sent, no listeners |
| `UdpServer.Udp.Init` | modules/udp/src/servers/udp.js:52-66 | the name is stored first; socket creation either opens a socket or exits with the error's message and keeps the old handle |
| `UdpServer.Udp.RegisterOne` | modules/udp/src/servers/udp.js:79-89 | one reduce step: the module's `register(arg)` is called if it has one; the fold stops exactly on a non-promise or a rejection; only a UDP module changes the table, by its registrar's effect, and handed the server it ends with `events` set to the query result |
| `UdpServer.Udp.RegisterModules` | modules/udp/src/servers/udp.js:78-91 | modules are visited in list order; those without `register` are skipped; the first failure stops the fold, so no later module is called; the table is the fold over exactly the modules before the failure; handed the section name, no UDP module changes; handed the UDP server, every UDP module before the failure has `events` set to the query result; a UDP module object that appears only after the failure keeps its `events` |
| `UdpServer.Udp.Listen` | modules/udp/src/servers/udp.js:94-107 | see `BindPhase`: `_listening` becomes true only on the listening event; a null, closed or already bound socket exits; a bind error event leaves `start` pending and goes to `onError` |
| `UdpServer.Udp.Start` | modules/udp/src/servers/udp.js:73-114 | with the corrected `register` argument (see Findings): a wrong name throws and nothing is visited, bound or changed; otherwise registration runs over all modules with the server, each UDP module before a failure has `events` set to the query result and one that appears only after it keeps its `events`, a failure exits with its message and leaves the socket and `_listening` untouched, and only after every registration succeeded does the bind phase run |
| `UdpServer.Udp.StartAsWritten` | modules/udp/src/servers/udp.js:73-114 | the code as written: the same lifecycle, but because each `register` receives the section name no UDP module changes the listener table (other modules have no effects in this model, see Left out) and no UDP module's `events` is set; a wrong name throws and leaves the socket and `_listening` alone |
| `UdpServer.Udp.Stop` | modules/udp/src/servers/udp.js:121-142 | a wrong name throws and changes nothing; not listening changes nothing; listening closes the socket and clears `_listening` |
| `UdpServer.Udp.Send` | modules/udp/src/servers/udp.js:150-154 | a listening server always sends; an open socket takes exactly one datagram to the given port and host; a null or closed socket throws and nothing is sent |
| `UdpServer.Udp.OnError` | modules/udp/src/servers/udp.js:160-176 | log only exactly when the system call is not `listen`; otherwise exit with "Could not bind to UDP port" for `EACCES`, "UDP port is already in use" for `EADDRINUSE`, the error itself for any other code |
| `UdpServer.Udp.OnMessage` | modules/udp/src/servers/udp.js:189-206 | an empty datagram emits nothing; a command other than `uppercase` (case-sensitive) emits nothing; `uppercase` calls each subscribed listener once with the sender unchanged and the payload exactly the text after the first space |
| `BaseEvents.BaseEvent.constructor` | modules/udp/src/events/base.js:14-16 | nothing cached, no lookup made |
| `BaseEvents.BaseEvent.Udp` | modules/udp/src/events/base.js:30-35 | a cached server is returned with no lookup; otherwise one lookup, whose result is cached and returned; an undefined result leaves the cache empty |
| `UppercaseEvent.KeyMatchesEventPattern` | modules/udp/src/events/uppercase.js:28-30 | `udp.events.uppercase` satisfies the registrar's query, so the handler is found |
| `UppercaseEvent.NameIsDispatchedCommand` | modules/udp/src/events/uppercase.js:44-46 | the handler's name is the one command the listener emits |
| `UppercaseEvent.Uppercase.constructor` | modules/udp/src/events/uppercase.js:18-22 | a new handler has nothing cached |
| `UppercaseEvent.Uppercase.Handle` | modules/udp/src/events/uppercase.js:53-60 | through the cached or looked-up server (one lookup only when nothing was cached), exactly one datagram is sent: the uppercased message to the sender's port and address; a missing server or a refusing socket is swallowed and nothing else changes |
| `Scenarios.HandlerRegistryMatches` | modules/udp/src/module.js:43 | the registry query keeps the `uppercase` handler |
| `Scenarios.UppercaseHelloWorld` | modules/udp/src/events/uppercase.js:56 | `hello world` uppercases to `HELLO WORLD` |
| `Scenarios.FrameUppercaseHelloWorld` | modules/udp/src/servers/udp.js:195-200 | `uppercase hello world` frames as command `uppercase`, payload `hello world` |
| `Scenarios.StartWithUppercase` | modules/udp/src/servers/udp.js:73-103 | with the corrected `start` (see Findings), starting with the UDP module subscribes exactly the `uppercase` handler and ends listening on the configured endpoint |
| `Scenarios.ServeUppercase` | modules/udp/src/servers/udp.js:189-202 | one `uppercase` datagram adds exactly one reply, the uppercased payload, to the sender |
| `Scenarios.TwoSendersGetTheirOwnReplies` | modules/udp/src/events/uppercase.js:53-60 | with the corrected `start` (see Findings), two senders of `uppercase hello world` each get one `HELLO WORLD` reply at their own address and port |
| `Scenarios.AsWrittenUppercaseIsNeverHandled` | modules/udp/src/servers/udp.js:85 | with `register` handed the section name, the server listens but `uppercase hello world` reaches no handler |
| `Scenarios.NonPromiseRegistrationExits` | modules/udp/src/servers/udp.js:85-87 | a module returning a non-promise exits with the `NotAPromise` message for `legacy`, "Module 'legacy' register() did not return a Promise"; the later UDP module subscribes nothing; the socket stays unbound and the server does not listen |
| `Scenarios.StopTwice` | modules/udp/src/servers/udp.js:121-142 | a second `stop` reports the same outcome and changes nothing: the pair changes nothing on a wrong name or an idle server, and otherwise only closes the socket and clears `_listening` |
| `Scenarios.CachedServerIsKept` | modules/udp/src/events/base.js:30-35 | once a server is found, later calls return it and look nothing up; while none is found every call looks up again |

## Left out

- Modules other than the UDP module are reduced to the outcome of their `register` call. Their side effects are not modelled: such a module could subscribe on the server, which it can reach through the application or, under the corrected start, as its argument. The exact listener tables stated by `UdpServer.Registered`, `UdpServer.Udp.Start` and `UdpServer.Udp.StartAsWritten` therefore count only the UDP module's subscriptions.
- Every registry entry whose key matches `/^udp\.events\..+$/` is taken to be a handler with a `name` and a `handle`. A matching entry without `handle` would make `event.handle.bind(event)` throw, so the UDP module's `register` would reject part-way through its loop. That rejection path is not modelled: `UdpServer.Failure` never fails a UDP module.
- Real sockets (`dgram`). Creation, bind, close and send are abstract events. Which event a bind produces is a parameter. A close always brings its confirmation. dgram's implicit bind on the first send of an unbound socket is not modelled.
- Promise and event-loop timing. Registration is a sequential loop. A `register` promise that never settles is not modelled, and neither is the overlap of handlers still in flight.
- `app.exit`, the logger, `NError` wrapping and configuration reads. `start` and `stop` settle only because the logger calls the callback it is handed (`resolve`, at udp.js:101 and udp.js:131). The model takes that call to happen, so a listening or close event leads straight to `Done`. An exit is the outcome `Exited(reason)`. The fatal exit code itself is defined by the application class, which is not part of this model. Port and host are parameters.
- The `catch` in `onMessage`: `Uppercase.handle` is async, so nothing it does can throw synchronously into `emit`, and the branch is not modelled.
- `onListening` is empty. The static `requires` lists are dependency-injection wiring and are not modelled.
- Unicode `toUpperCase` and `Buffer` encoding. Characters outside `a`..`z` are left unchanged, and buffers are taken to be their characters one to one.
- `src/commands/create-cert.js` and `src/commands/help.js` are not part of this model. They are command-line utilities built on file and process I/O.

## Findings

| source | as written | input that shows it | evidently intended | confidence | as-written member | corrected member |
|---|---|---|---|---|---|---|
| modules/udp/src/servers/udp.js:85 | `start` calls `curModule.register(name)` with the section name. The UDP module then checks `server.constructor.provides` (module.js:40), which for a string is `String.provides`, undefined. So it returns without subscribing any handler | `init('udp')`, then `start('udp')` with the UDP module listed and the `uppercase` handler in the registry, then the datagram `uppercase hello world`: no reply is sent | `register` receives the server instance (module.js:36 documents the parameter as the server instance), so the handlers are subscribed | high from the text; not executed | `UdpServer.Udp.StartAsWritten` | `UdpServer.Udp.Start` |

`Scenarios.AsWrittenUppercaseIsNeverHandled` exhibits the as-written behaviour: the server listens, and the datagram reaches no handler. `Scenarios.TwoSendersGetTheirOwnReplies` proves, for the corrected start, that each sender gets its `HELLO WORLD` reply.
