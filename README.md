# go-slack dispatch core in Dafny

A model of the event dispatch layer of kanziw/go-slack, a small framework for
Slack bots that use Socket Mode. It covers:

- The outer socket-event switch (`handleSocketEvent`): lifecycle events, the
  acknowledgement of Events API envelopes, and unknown event types.
- The Events API router in its three revisions, each as its own module:
  - `ReactionOnlyRouter`: reactions only.
  - `ContextChannelRouter`: puts the mention's channel into the context.
  - `ErrorChannelRouter`: puts the channel into the invalid-command error.
- The router's mention tokeniser: ASCII `TrimSpace`, `Split` on one space, and
  `ToLower` of the verb.
- `DefaultSocketServer`, modelled as a class:
  - the reaction-handler slot and the verb→handler registry;
  - the help fallback and `SendHelpMessage`;
  - the per-event error triage of `Listen`.
- The two option folds: `NewSlackError` with its channel option, and server
  configuration with `WithDebug` and `WithHelpMessage`.
- The `*slackError` accessors, and `errors.Cause`.

Each router is a pure function, `Route(ctx, ev)`. It returns a `Step`: return
an error, call the reaction handler, or call the command executor with a
context, the mention, a verb and arguments. `Routing.Perform` runs a step
against the callables a caller supplies. The imperative router methods write
the diagnostic tags into a `Tags` object, one `Set` at a time. They then return
the step, and their contract ties both the tags and the step to `Written` and
`Route`. The server performs the step with its own methods, so every help send
is recorded.

The server's state is the list of messages it attempted to send, the events it
acknowledged, and its log. A fourth list, `actions`, holds the
acknowledgements and sends together, in the order they were made. Pure
functions specify the methods:

- `HelpEffect`
- `CommandEffect`
- `StepEffect`
- `SocketEventEffect`
- `Triage` (one iteration of `Listen`)
- `ListenTrace` (a finite run of events)

The server wires handler.go to the handler_events_api.go revision.
handler.go:26 calls `EventsAPIHandler` unqualified from package `slack`, and
in that package the name is declared at handler_events_api.go:32. The newest
revision is `handleEventsAPI`, and only the test calls it
(socket_server_test.go:42). The revision the server uses is also the one that
stores the channel in the context, which is where `SendHelpMessage` looks for
it (socket_server.go:117).

`Listen` builds a fresh context for each event, and that context never holds
the channel marker (socket_server.go:38-41). So the help fallback that `Listen`
requests for an `ErrInvalidCommand` cause (socket_server.go:71-72) always fails
with "channel not found", and no help is ever sent from there.
`SocketServer.InvalidMentionInListen` and `SocketServer.TriageOfOneEvent`
state this behaviour as the code has it. Help does reach the user when a mention
names an unregistered verb. That goes through `onAppMentionCommandHandler`,
whose context carries the channel.

## Model

| member | source | states |
|---|---|---|
| GoStrings.SkipSpace | handle_events_api.go:49 | the index of the first non-space at or after `i`, with only spaces skipped |
| GoStrings.SkipSpaceBack | handle_events_api.go:49 | the end index after dropping trailing spaces down to `lo`, with only spaces dropped |
| GoStrings.TrimSpace | handle_events_api.go:49 | the result is a contiguous slice of the input that neither starts nor ends with white space, and only white space was cut |
| GoStrings.TrimSpaceOfTrimmed | handle_events_api.go:49 | a string without leading or trailing white space is its own trim |
| GoStrings.TrimSpaceIdempotent | handle_events_api.go:49 | trimming twice is trimming once |
| GoStrings.JoinCons | handle_events_api.go:49 | joining a head and a non-empty rest puts exactly one separator between them |
| GoStrings.Split | handle_events_api.go:49 | at least one piece, no piece holds the separator, and joining the pieces with the separator gives back the input |
| GoStrings.SplitPrefix | handle_events_api.go:49 | splitting `a + sep + rest`, with `a` separator-free, gives `a` followed by the pieces of `rest` |
| GoStrings.SplitOfJoin | handle_events_api.go:49 | splitting the join of separator-free pieces gives back those pieces |
| GoStrings.SplitCharacterised | handle_events_api.go:49 | `Split(s)` equals the given pieces exactly when those separator-free pieces join to `s` |
| GoStrings.SplitSinglePiece | handle_events_api.go:49-50 | the split has one piece exactly when the separator does not occur, which includes the empty string |
| GoStrings.ToLower | handle_events_api.go:53 | same length, no upper-case letter left, and every character is kept or is an upper-case letter moved to lower case |
| GoStrings.ToLowerIdempotent | handle_events_api.go:53 | lowering twice is lowering once |
| Errors.SlackError.ErrorString | error.go:22-27 | `Error()` is the wrapped error's message, or "" when nothing is wrapped |
| Errors.SlackError.Channel | error.go:36-38 | `Channel()` is the channel the error was built with, nil included |
| Errors.SlackError.Cause | error.go:29-34 | `Cause()` is the wrapped error when there is one and the receiver itself when there is none, and it reports the same message as the receiver |
| Errors.RootCause | error.go:29-34 | `errors.Cause` ends at an error with nothing left to unwrap, and leaves such an error unchanged |
| Errors.RootCauseFollowsCause | error.go:29-34 | `errors.Cause` of a `*slackError` that wraps an error is `errors.Cause` of its `Cause()`; one that wraps nothing is its own cause; a stack wrapper is seen through to the wrapped error |
| Errors.RootCauseKeepsMessage | error.go:22-27 | unwrapping to the root cause never changes the `Error()` text |
| Errors.SentinelSurvivesWrapping | error.go:22-34 | a stack-wrapped sentinel inside a `*slackError` keeps that sentinel as its cause and its text as the message |
| Errors.ErrOptions.constructor | error.go:63-65 | a fresh option record has no channel |
| Errors.ErrorOption.Apply | error.go:50-52 | a channel option sets the record's channel to its string |
| Errors.WithChannel | error.go:54-56 | `withChannel(s)` is a channel option holding `s` |
| Errors.NewSlackError | error.go:62-75 | the result wraps the given error; its channel is nil with no options and otherwise the last option's channel |
| ServerOptions.Options.constructor | option.go:3-6 | the record holds exactly the given fields |
| ServerOptions.ServerOption.Apply | option.go:12-30 | a debug option sets only `debug`, a help-message option only `helpMessage` |
| ServerOptions.WithDebug | option.go:18-20 | `WithDebug(c)` is a debug option holding `c` |
| ServerOptions.WithHelpMessage | option.go:28-30 | `WithHelpMessage(s)` is a help-message option holding `s` |
| ServerOptions.Resolve | socket_server.go:129-136 | folding the options left to right over the defaults gives the last debug option and the last help-message option, or the default for each |
| ServerOptions.NoOptionsGiveDefaults | socket_server.go:129-132 | with no options, `debug` is false and the help message is "override help message required" |
| ServerOptions.LaterDebugWins | socket_server.go:134-136 | a debug option followed only by help-message options decides `debug` |
| ServerOptions.LaterHelpMessageWins | socket_server.go:134-136 | a help-message option followed only by debug options decides the help message |
| ServerOptions.DebugKeepsHelpMessage | option.go:14-20 | appending a debug option leaves the resolved help message unchanged |
| ServerOptions.HelpMessageKeepsDebug | option.go:24-30 | appending a help-message option leaves the resolved `debug` unchanged |
| CtxTags.Written | handle_events_api.go:31-33 | both type tags hold the envelope's types; the data tag holds a given payload or is unchanged; no other key is changed or added |
| CtxTags.Tags.constructor | socket_server.go:39 | a fresh tag store is empty |
| CtxTags.Tags.Set | handle_events_api.go:32 | `Set` overwrites one key and nothing else |
| Routing.Perform | handler_events_api.go:60-78 | a returned error is passed on; a reaction step with no handler gives nil, and with a handler gives that handler's result for the step's context and event; an executor step gives the executor's result for the step's context, mention, verb and arguments |
| Routing.PayloadTag | handle_events_api.go:35-66 | the data tag that both mention-handling revisions write (handle_events_api.go and handler_events_api.go:42-73 alike): one is written exactly for AppMention and ReactionAdded, and it is nil exactly for a payload of the wrong runtime type |
| Routing.TypeTagsOnEveryPath | handle_events_api.go:31-66 | in both mention-handling revisions, both type tags are set on every path, and the data tag holds the well-typed mention's or reaction's fields |
| Routing.Tokens | handle_events_api.go:49-50 | the mention text splits into at least one token; no token holds a space; fewer than two exactly when the trimmed text holds no space; the tokens rejoin to the trimmed text |
| Routing.TokensOf | handle_events_api.go:49 | a trimmed text made of single-space-separated pieces tokenises into exactly those pieces |
| Routing.DoubleSpaceGivesEmptyVerb | handle_events_api.go:49-53 | "@bot  foo" gives the verb "" and the one argument "foo" |
| Routing.SingleWordIsOneToken | socket_server_test.go:24-26 | the text "kanziw" is one token |
| ErrorChannelRouter.InvalidCommandError | handle_events_api.go:51 | the invalid-command error has `ErrInvalidCommand` as its root cause, the message "invalid command", and the payload's channel |
| ErrorChannelRouter.Route | handle_events_api.go:35-74 | every returned value is an error; the reaction handler is called exactly for a well-typed reaction, with the caller's context; the executor is called exactly for a well-typed mention whose trimmed text holds a space, with the caller's context and that mention |
| ErrorChannelRouter.HandleEventsAPI | handle_events_api.go:25-75 | the tag store ends as `Written` with the type tags and this event's data tag, and the returned step is `Route` of the event |
| ErrorChannelRouter.UnsupportedCallsNothing | handle_events_api.go:35 | any other inner type returns "unsupported Events API event received" and calls nothing |
| ErrorChannelRouter.MalformedPayloadCallsNothing | handle_events_api.go:37-41 | a payload of the wrong runtime type returns the stack-wrapped `errUnexpectedInnerEventData` |
| ErrorChannelRouter.InvalidCommandCarriesChannel | handle_events_api.go:49-52 | a mention is rejected exactly when its trimmed text has no space; the error's cause is `ErrInvalidCommand` and its channel is the payload's |
| ErrorChannelRouter.OnlyMentionIsInvalidCommand | socket_server_test.go:24-32 | whatever the outer type, the text "kanziw" in "channel" gives the invalid-command `SlackError` with channel "channel" and message "invalid command" |
| ErrorChannelRouter.CommandParsed | handle_events_api.go:53 | a valid command calls the executor once with the caller's context, the lower-cased second token and the rest, and its result is returned unchanged |
| ErrorChannelRouter.ReactionDispatch | handle_events_api.go:54-71 | a reaction goes to the handler once with its result unchanged; with no handler the result is nil |
| ContextChannelRouter.WithChannelMarker | handler_events_api.go:60 | the derived context holds the channel under the channel marker key |
| ContextChannelRouter.Route | handler_events_api.go:42-81 | every returned value is an error; the reaction handler is called exactly for a well-typed reaction, with the caller's context; the executor is called exactly for a well-typed mention whose trimmed text holds a space, with that mention and a context holding its channel |
| ContextChannelRouter.EventsAPIHandler | handler_events_api.go:32-82 | the tag store ends as `Written` with the type tags and this event's data tag, and the returned step is `Route` of the event |
| ContextChannelRouter.UnsupportedCallsNothing | handler_events_api.go:81 | any other inner type returns "unsupported Events API event received" and calls nothing |
| ContextChannelRouter.MalformedPayloadCallsNothing | handler_events_api.go:44-48 | a payload of the wrong runtime type returns the stack-wrapped `errUnexpectedInnerEventData` |
| ContextChannelRouter.InvalidCommandHasNoChannel | handler_events_api.go:56-58 | a mention is rejected exactly when its trimmed text has no space, with the stack-wrapped `ErrInvalidCommand` and no channel |
| ContextChannelRouter.CommandParsed | handler_events_api.go:60 | a valid command calls the executor once with the channel in the context, the lower-cased second token and the rest, and returns its result unchanged |
| ContextChannelRouter.ReactionDispatch | handler_events_api.go:61-78 | a reaction goes to the handler once with its result unchanged; with no handler the result is nil |
| ReactionOnlyRouter.Route | handler/events_api_handler.go:30-44 | this revision never calls a command executor |
| ReactionOnlyRouter.DataTag | handler/events_api_handler.go:33-36 | the only data tag this revision writes is nil, and only for a reaction payload of the wrong runtime type |
| ReactionOnlyRouter.EventsAPIHandler | handler/events_api_handler.go:21-45 | the tag store ends as `Written` with the type tags, plus the nil data tag for a malformed reaction, and the step is `Route` of the event |
| ReactionOnlyRouter.TypeTagsOnEveryPath | handler/events_api_handler.go:26-28 | both type tags are set on every path; the data tag is written only for a malformed reaction |
| ReactionOnlyRouter.MentionIsUnsupported | handler/events_api_handler.go:31 | AppMention, like any inner type but ReactionAdded, gives the unsupported error and calls nothing |
| ReactionOnlyRouter.MalformedReactionCallsNothing | handler/events_api_handler.go:33-37 | a reaction payload of the wrong type returns the stack-wrapped `errUnexpectedInnerEventData` |
| ReactionOnlyRouter.ReactionDispatch | handler/events_api_handler.go:38-41 | a reaction goes to the handler once with its result unchanged; with no handler the result is nil |
| SocketServer.DefaultSocketServer.constructor | socket_server.go:128-155 | a new server has the resolved options, no reaction handler, an empty registry and nothing sent, acknowledged or logged |
| SocketServer.DefaultSocketServer.OnReactionAdded | socket_server.go:87-89 | the single handler slot is overwritten with the given handler, nil included, so the last registration wins; nothing else changes |
| SocketServer.DefaultSocketServer.OnAppMentionCommand | socket_server.go:91-93 | the verb is stored as given, replacing any earlier handler for it; nothing else changes |
| SocketServer.DefaultSocketServer.SendHelpMessage | socket_server.go:116-126 | the result and the sends are those of `HelpEffect`; the configuration is unchanged |
| SocketServer.DefaultSocketServer.OnAppMentionCommandHandler | socket_server.go:95-106 | the result and the sends are those of `CommandEffect` |
| SocketServer.DefaultSocketServer.HandleSocketEvent | handler.go:11-37 | the result and the sends are those of `SocketEventEffect`; exactly the well-typed Events API event is acknowledged, and in the ordered actions its acknowledgement comes before every send made while routing it; its tags are written |
| SocketServer.DefaultSocketServer.RecordOutcome | socket_server.go:70-79 | the end of a loop iteration appends exactly `Outcome`'s help sends and log entries for the handling result |
| SocketServer.DefaultSocketServer.ListenOnce | socket_server.go:38-79 | one iteration appends exactly `Triage`'s sends, acknowledgements, log entries and ordered actions |
| SocketServer.DefaultSocketServer.Listen | socket_server.go:36-81 | a run of events appends exactly `ListenTrace`'s sends, acknowledgements and log entries, in order |
| SocketServer.OutcomesOfConcat | socket_server.go:70-79 | outcome entries of two logs add up |
| SocketServer.HelpNeedsChannel | socket_server.go:116-126 | with no channel marker, help fails with "channel not found" and sends nothing; otherwise exactly the configured text goes to that channel, and it fails exactly when the send fails |
| SocketServer.CommandLookup | socket_server.go:95-106 | an unregistered verb gets exactly the help fallback; a registered one runs its handler with the arguments unchanged and returns its result; a foreign stored value gives "unexpected func founded" |
| SocketServer.QuietEventsSucceed | handler.go:13-19 | Hello, the connection events, Interactive and SlashCommand succeed without an acknowledgement |
| SocketServer.MistypedEventsAPIRefused | handler.go:21-24 | an Events API event with foreign data gives "unknown event type:events_api" and is not acknowledged |
| SocketServer.EventsAPIRouted | handler.go:25-29 | a well-typed Events API event is acknowledged and routed, and a routing error is returned unchanged |
| SocketServer.ReactionReachesSlot | handler_events_api.go:75-78 | through the server, a well-typed reaction gives nil when the slot is empty and the slot handler's result otherwise, and sends nothing |
| SocketServer.UnknownSocketEventRefused | handler.go:33-34 | any other socket event type gives "unexpected event type received" |
| SocketServer.FooMentionRoute | handler_events_api.go:56-60 | "@bot FOO bar baz" routes to the executor with the channel in the context, the verb "foo" and the arguments ["bar", "baz"] |
| SocketServer.LowerFoo | handler_events_api.go:60 | "FOO" lowers to "foo" |
| SocketServer.UpperCaseVerbReachesHandler | socket_server.go:95-105 | with a handler registered for "foo", "@bot FOO bar baz" runs it once, with the channel and ["bar", "baz"], and sends nothing |
| SocketServer.TriageOfCases | socket_server.go:70-79 | for any handling result: the iteration's sends are the handler's; its actions are the acknowledgement, if any, then those sends; and its log is "succeeded", the failed help request then the error, or the error alone |
| SocketServer.TriageOfOneEvent | handler.go:25-26 | a well-typed Events API event's acknowledgement is the iteration's first action; `Listen` sends only what the handler sent; success logs "succeeded"; an `ErrInvalidCommand` cause logs the failed help request and then the error; any other error logs only the error |
| SocketServer.InvalidMentionInListen | socket_server.go:38-41 | a mention with no command is acknowledged, sends nothing, and logs "channel not found" for help followed by the invalid-command error |
| SocketServer.OneOutcomePerEvent | socket_server.go:70-79 | each event ends in exactly one outcome entry, success or failure |
| SocketServer.ListenLogsEveryEvent | socket_server.go:76-79 | the loop goes on after every error: n events log exactly n outcomes |

## Left out

- The Slack send (`api`), the reaction handler, the executor and the registered command handlers are fixed functions of their arguments. A repeated identical call always gets the same answer. The network or an application closure need not behave that way.
- message.go is not part of this model. `SendMessage` is a thin wrapper over the Slack client.
- The network side is left out: the Slack client, the socketmode client, `Run`, `SlackAPI` and `SocketClient`. A send is the `api` function the server is built with, and each attempted send is recorded in `sent`. An `Ack` is recorded in `acked`.
- The debug output (`Debugln`, `Debugf`) and the logging are left out. Log entries keep only their outcome and error, not the logrus fields or message text.
- The receive loop is left out: `Listen` reads events from a Go channel, without end. The model runs the loop body over a finite sequence of events.
- The bot and app tokens of `NewSocketServer` are left out. They only configure the clients.
- The registry's concurrency is left out: `sync.Map` is a sequential `map`.
- Tags record only their final store, not the order of the `Set` calls. Mention and reaction fields are kept without the formatted description string. A nil payload tag is one value, `NilData`.
- Go's `context.Context` is reduced to the optional channel stored under `CtxChannelMarkerKey`. The tag store is passed as its own argument.
- `GoStrings.TrimSpace` and `GoStrings.ToLower` use ASCII white space and ASCII letters only. Go's versions also handle Unicode.
- Error values are compared structurally. `errors.New` is modelled by its text, so two errors made from the same text are equal. The only identity comparison in the dispatch code is against a sentinel (socket_server.go:71), and no `New` value equals a sentinel. Stack traces are not modelled.
- Errors.RootCause stops at a `*slackError` with nothing wrapped. `errors.Cause` in Go would keep calling `Cause()` on it, which returns the receiver, and would loop.
- A command handler is the stored function value. A nil handler registered for a verb, which would panic when called, is not modelled.
- The registered handler is called as `f(ctx, d, args)`, without the API client. That follows socket_server.go:105, whose arity matches neither declared handler type.
- socket_server.go:57 calls the reaction-only revision's `EventsAPIHandler` with the wrong number of arguments. handler.go:26 calls the four-argument one that puts the channel into the context. The server follows handler.go and is wired to `ContextChannelRouter`.
- socket_server.go reads `handler.CtxChannelMarkerKey` (line 117), `handler.ErrInvalidCommand` (line 71) and `handler.OnAppMentionCommandHandlerFunc` (line 101). handler/events_api_handler.go declares none of them. Package `slack` declares its own versions (handler_events_api.go:23-30, error.go:7). The model has one value for each pair: one channel marker, one `ErrInvalidCommand` and one handler type. The triage in `Listen` relies on this. If the two `ErrInvalidCommand` values were distinct, help would never be requested at socket_server.go:71.
- handle_events_api.go:51 calls `WithChannel`, but error.go:54 declares `withChannel`. The model uses the one channel option.
- handle_events_api.go:37 asserts the package's own `AppMentionEvent`, not the one from slackevents. All revisions share one `AppMentionEvent` type here.
- The Socket Mode event type strings ("hello", "events_api" and the rest) and the Events API strings ("app_mention", "reaction_added") are fixed constants in the model. Their values are those of the slack-go library, which is not part of this model.
