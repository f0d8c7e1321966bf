/**
 * `DefaultSocketServer` (socket_server.go) with its socket-event switch
 * (handler.go): the reaction-handler slot, the command registry, the help
 * fallback, and the per-event triage of `Listen`. The server routes Events
 * API events with the revision that puts the channel into the context.
 */
module SocketServer {
  import opened Optional
  import opened Errors
  import opened Events
  import opened CtxTags
  import opened GoStrings
  import opened Routing
  import opened ServerOptions
  import ContextChannelRouter

  /** Socket Mode event types, as the socketmode library spells them. */
  const Hello := "hello"
  const Connecting := "connecting"
  const ConnectionError := "connection_error"
  const Connected := "connected"
  const EventsAPI := "events_api"
  const Interactive := "interactive"
  const SlashCommand := "slash_commands"

  /** The runtime type of a socket event's data. */
  datatype SocketData = EventsAPIData(event: EventsAPIEvent) | OtherSocketData

  datatype SocketEvent = SocketEvent(kind: string, data: SocketData)

  /** A registered command handler, called with the context, the mention and the arguments. */
  type CommandHandler = (Context, AppMentionEvent, seq<string>) -> Option<Error>

  /** What the Slack API answers to a send of `text` to `channel`: nil or an error. */
  type SendFn = (string, string) -> Option<Error>

  /** A value held by the command registry. Registration only ever stores a `CommandFunc`. */
  datatype Stored = CommandFunc(f: CommandHandler) | NotACommandFunc

  /** One outbound send the server attempted. */
  datatype SentMessage = SentMessage(channel: string, text: string)

  /** One outward action, in the order the server takes them: an acknowledgement or a send. */
  datatype Action = AckEvent(evt: SocketEvent) | SendMessage(m: SentMessage)

  /** The send actions for a list of sent messages, in order. */
  function Sends(ms: seq<SentMessage>): (r: seq<Action>)
    ensures |r| == |ms|
  {
    if ms == [] then [] else [SendMessage(ms[0])] + Sends(ms[1..])
  }

  lemma {:induction false} SendsConcat(a: seq<SentMessage>, b: seq<SentMessage>)
    ensures Sends(a + b) == Sends(a) + Sends(b)
  {
    if a == [] {
      assert a + b == b;
    } else {
      assert (a + b)[1..] == a[1..] + b;
      SendsConcat(a[1..], b);
    }
  }

  datatype LogEntry = Succeeded | Failed(err: Error) | HelpFailed(err: Error)

  /** The result of a call together with the sends it attempted, in order. */
  datatype Effect = Effect(err: Option<Error>, sent: seq<SentMessage>)

  /** The part of the server that routing reads. */
  datatype ServerState = ServerState(
    options: Config,
    onReactionAdded: Option<ReactionHandler>,
    commands: map<string, Stored>,
    api: SendFn)

  /** `SendHelpMessage`: the configured help text to the context's channel, or "channel not found". */
  function HelpEffect(st: ServerState, ctx: Context): Effect {
    match ctx.channel
    case None => Effect(Some(New("channel not found")), [])
    case Some(channel) =>
      var err := st.api(channel, st.options.helpMessage);
      Effect(if err.Some? then Some(WithStack(err.value)) else None, [SentMessage(channel, st.options.helpMessage)])
  }

  /** `onAppMentionCommandHandler`: an unknown verb falls back to help; a known one runs its handler. */
  function CommandEffect(st: ServerState, ctx: Context, d: AppMentionEvent, command: string, args: seq<string>): Effect {
    if command !in st.commands then HelpEffect(st, ctx)
    else match st.commands[command]
      case NotACommandFunc => Effect(Some(New("unexpected func founded")), [])
      case CommandFunc(f) => Effect(f(ctx, d, args), [])
  }

  /** A router step run by the server: its reaction slot, or its own command lookup as the executor. */
  function StepEffect(st: ServerState, step: Step): Effect {
    match step
    case Return(err) => Effect(err, [])
    case CallReaction(ctx, d) => Effect(if st.onReactionAdded.Some? then st.onReactionAdded.value(ctx, d) else None, [])
    case CallExecutor(ctx, d, command, args) => CommandEffect(st, ctx, d, command, args)
  }

  /** Whether `handleSocketEvent` acknowledges the event: a well-typed Events API event. */
  predicate Acks(evt: SocketEvent) {
    evt.kind == EventsAPI && evt.data.EventsAPIData?
  }

  /** `handleSocketEvent`: the outer switch on the socket event type. */
  function SocketEventEffect(st: ServerState, ctx: Context, evt: SocketEvent): Effect {
    if evt.kind == Hello || evt.kind == Connecting || evt.kind == ConnectionError || evt.kind == Connected then
      Effect(None, [])
    else if evt.kind == EventsAPI then
      match evt.data
      case EventsAPIData(ev) => StepEffect(st, ContextChannelRouter.Route(ctx, ev))
      case OtherSocketData => Effect(Some(New("unknown event type:" + evt.kind)), [])
    else if evt.kind == Interactive || evt.kind == SlashCommand then Effect(None, [])
    else Effect(Some(New("unexpected event type received")), [])
  }

  /** What one iteration of `Listen` sends, acknowledges and logs, and its outward actions in order. */
  datatype Trace = Trace(sent: seq<SentMessage>, acked: seq<SocketEvent>, log: seq<LogEntry>, actions: seq<Action>)

  function Then(a: Trace, b: Trace): Trace {
    Trace(a.sent + b.sent, a.acked + b.acked, a.log + b.log, a.actions + b.actions)
  }

  /** The context `Listen` builds for each event: tags and a logger, no channel marker. */
  const ListenContext := Context(None)

  /**
   * One iteration of `Listen`: handle the event; on an error whose cause is
   * `ErrInvalidCommand`, ask for help with the loop's own context; log the
   * error, or "succeeded".
   */
  function Triage(st: ServerState, evt: SocketEvent): Trace {
    TriageOf(st, evt, SocketEventEffect(st, ListenContext, evt))
  }

  /**
   * What `Listen` does with a handling result: log success, or ask for help
   * when the cause is `ErrInvalidCommand`, log a failed help request, then
   * log the error.
   */
  function Outcome(st: ServerState, err: Option<Error>): Trace {
    match err
    case None => Trace([], [], [Succeeded], [])
    case Some(x) =>
      var help := if RootCause(x) == ErrInvalidCommand then HelpEffect(st, ListenContext) else Effect(None, []);
      Trace(help.sent, [], (if help.err.Some? then [HelpFailed(help.err.value)] else []) + [Failed(x)], Sends(help.sent))
  }

  /** The triage of one event once its handling has had effect `e`: the handling itself, then its outcome. */
  function TriageOf(st: ServerState, evt: SocketEvent, e: Effect): Trace {
    var acked := if Acks(evt) then [evt] else [];
    var handled := (if Acks(evt) then [AckEvent(evt)] else []) + Sends(e.sent);
    Then(Trace(e.sent, acked, [], handled), Outcome(st, e.err))
  }

  /** `Listen` over a finite run of events, in arrival order. */
  function ListenTrace(st: ServerState, events: seq<SocketEvent>): Trace {
    if events == [] then Trace([], [], [], [])
    else Then(ListenTrace(st, events[..|events| - 1]), Triage(st, events[|events| - 1]))
  }

  lemma Associative<T>(a: seq<T>, b: seq<T>, c: seq<T>)
    ensures a + b + c == a + (b + c)
  {
  }

  class DefaultSocketServer {
    var options: Config
    const api: SendFn
    var onReactionAddedHandler: Option<ReactionHandler>
    var onAppMentionCommandFunc: map<string, Stored>
    /** Every send attempted, in order. */
    var sent: seq<SentMessage>
    /** Every event acknowledged, in order. */
    var acked: seq<SocketEvent>
    /** Every acknowledgement and send, in the order they were made. */
    var actions: seq<Action>
    var log: seq<LogEntry>

    function State(): ServerState
      reads this
    {
      ServerState(options, onReactionAddedHandler, onAppMentionCommandFunc, api)
    }

    /** `NewSocketServer`: options over the defaults, no reaction handler, an empty registry. */
    constructor (opts: seq<ServerOption>, api: SendFn)
      ensures options == Config(LastDebug(opts, false), LastHelpMessage(opts, DefaultHelpMessage))
      ensures onReactionAddedHandler == None && onAppMentionCommandFunc == map[]
      ensures this.api == api && sent == [] && acked == [] && log == [] && actions == []
    {
      var cfg := Resolve(opts);
      options := cfg;
      this.api := api;
      onReactionAddedHandler := None;
      onAppMentionCommandFunc := map[];
      sent, acked, log, actions := [], [], [], [];
    }

    /** `OnReactionAdded`: the single slot is overwritten; registering nil (`None`) empties it. */
    method OnReactionAdded(f: Option<ReactionHandler>)
      modifies this
      ensures onReactionAddedHandler == f
      ensures options == old(options) && onAppMentionCommandFunc == old(onAppMentionCommandFunc)
      ensures sent == old(sent) && acked == old(acked) && log == old(log) && actions == old(actions)
    {
      onReactionAddedHandler := f;
    }

    /** `OnAppMentionCommand`: the verb is stored as given, replacing any earlier handler for it. */
    method OnAppMentionCommand(command: string, f: CommandHandler)
      modifies this
      ensures onAppMentionCommandFunc == old(onAppMentionCommandFunc)[command := CommandFunc(f)]
      ensures options == old(options) && onReactionAddedHandler == old(onReactionAddedHandler)
      ensures sent == old(sent) && acked == old(acked) && log == old(log) && actions == old(actions)
    {
      onAppMentionCommandFunc := onAppMentionCommandFunc[command := CommandFunc(f)];
    }

    /** `SendHelpMessage`. */
    method SendHelpMessage(ctx: Context) returns (err: Option<Error>)
      modifies this
      ensures State() == old(State())
      ensures err == HelpEffect(old(State()), ctx).err
      ensures sent == old(sent) + HelpEffect(old(State()), ctx).sent
      ensures actions == old(actions) + Sends(HelpEffect(old(State()), ctx).sent)
      ensures acked == old(acked) && log == old(log)
    {
      if ctx.channel.None? {
        return Some(New("channel not found"));
      }
      var channel := ctx.channel.value;
      sent := sent + [SentMessage(channel, options.helpMessage)];
      actions := actions + [SendMessage(SentMessage(channel, options.helpMessage))];
      var sendErr := api(channel, options.helpMessage);
      if sendErr.Some? {
        return Some(WithStack(sendErr.value));
      }
      return None;
    }

    /** `onAppMentionCommandHandler`, the executor the server gives the router. */
    method OnAppMentionCommandHandler(ctx: Context, d: AppMentionEvent, command: string, args: seq<string>)
      returns (err: Option<Error>)
      modifies this
      ensures State() == old(State())
      ensures err == CommandEffect(old(State()), ctx, d, command, args).err
      ensures sent == old(sent) + CommandEffect(old(State()), ctx, d, command, args).sent
      ensures actions == old(actions) + Sends(CommandEffect(old(State()), ctx, d, command, args).sent)
      ensures acked == old(acked) && log == old(log)
    {
      if command !in onAppMentionCommandFunc {
        err := SendHelpMessage(ctx);
        return;
      }
      match onAppMentionCommandFunc[command]
      case NotACommandFunc =>
        return Some(New("unexpected func founded"));
      case CommandFunc(f) =>
        return f(ctx, d, args);
    }

    /** `handleSocketEvent`: acknowledge a well-typed Events API event, then route it. */
    method HandleSocketEvent(tags: Tags, ctx: Context, evt: SocketEvent) returns (err: Option<Error>)
      modifies this, tags
      ensures State() == old(State())
      ensures err == SocketEventEffect(old(State()), ctx, evt).err
      ensures sent == old(sent) + SocketEventEffect(old(State()), ctx, evt).sent
      ensures acked == old(acked) + (if Acks(evt) then [evt] else [])
      ensures actions == old(actions) + (if Acks(evt) then [AckEvent(evt)] else []) + Sends(SocketEventEffect(old(State()), ctx, evt).sent)
      ensures log == old(log)
      ensures Acks(evt) ==> tags.values == Written(old(tags.values), evt.data.event.kind, evt.data.event.inner.kind,
                                                   PayloadTag(evt.data.event))
      ensures !Acks(evt) ==> tags.values == old(tags.values)
    {
      if evt.kind == Hello || evt.kind == Connecting || evt.kind == ConnectionError || evt.kind == Connected {
        return None;
      } else if evt.kind == EventsAPI {
        if !evt.data.EventsAPIData? {
          return Some(New("unknown event type:" + evt.kind));
        }
        acked := acked + [evt];
        actions := actions + [AckEvent(evt)];
        var step := ContextChannelRouter.EventsAPIHandler(tags, ctx, evt.data.event);
        match step {
          case Return(e) =>
            err := e;
          case CallReaction(c, d) =>
            if onReactionAddedHandler.Some? {
              err := onReactionAddedHandler.value(c, d);
            } else {
              err := None;
            }
          case CallExecutor(c, d, command, args) =>
            err := OnAppMentionCommandHandler(c, d, command, args);
        }
        return err;
      } else if evt.kind == Interactive || evt.kind == SlashCommand {
        return None;
      }
      return Some(New("unexpected event type received"));
    }

    /** The end of the `Listen` loop body: triage the handling result and log it. */
    method RecordOutcome(err: Option<Error>)
      modifies this
      ensures State() == old(State())
      ensures var t := Outcome(old(State()), err);
        sent == old(sent) + t.sent && acked == old(acked) + t.acked && log == old(log) + t.log && actions == old(actions) + t.actions
    {
      if err.Some? {
        if RootCause(err.value) == ErrInvalidCommand {
          var helpErr := SendHelpMessage(ListenContext);
          if helpErr.Some? {
            log := log + [HelpFailed(helpErr.value)];
          }
        }
        log := log + [Failed(err.value)];
        assert Sends([]) == [];
      } else {
        log := log + [Succeeded];
      }
    }

    /** The body of the `Listen` loop for one event. */
    method ListenOnce(evt: SocketEvent)
      modifies this
      ensures State() == old(State())
      ensures var t := Triage(old(State()), evt);
        sent == old(sent) + t.sent && acked == old(acked) + t.acked && log == old(log) + t.log && actions == old(actions) + t.actions
    {
      var tags := new Tags();
      ghost var st := State();
      ghost var e := SocketEventEffect(st, ListenContext, evt);
      ghost var handled := Trace(e.sent, if Acks(evt) then [evt] else [],
                                 [], (if Acks(evt) then [AckEvent(evt)] else []) + Sends(e.sent));
      var err := HandleSocketEvent(tags, ListenContext, evt);
      assert err == e.err;
      ghost var mid := Outcome(st, err);
      RecordOutcome(err);
      assert Triage(st, evt) == Then(handled, mid);
      Associative(old(sent), handled.sent, mid.sent);
      Associative(old(acked), handled.acked, mid.acked);
      Associative(old(log), handled.log, mid.log);
      Associative(old(actions), handled.actions, mid.actions);
    }

    /** `Listen` over a finite run of events: each is handled, triaged and logged, and the loop goes on. */
    method Listen(events: seq<SocketEvent>)
      modifies this
      ensures State() == old(State())
      ensures var t := ListenTrace(old(State()), events);
        sent == old(sent) + t.sent && acked == old(acked) + t.acked && log == old(log) + t.log && actions == old(actions) + t.actions
    {
      ghost var st := State();
      for i := 0 to |events|
        invariant State() == st
        invariant var t := ListenTrace(st, events[..i]);
          sent == old(sent) + t.sent && acked == old(acked) + t.acked && log == old(log) + t.log && actions == old(actions) + t.actions
      {
        ghost var done := ListenTrace(st, events[..i]);
        ghost var next := Triage(st, events[i]);
        assert events[..i + 1][..i] == events[..i];
        assert ListenTrace(st, events[..i + 1]) == Then(done, next);
        ListenOnce(events[i]);
        Associative(old(sent), done.sent, next.sent);
        Associative(old(acked), done.acked, next.acked);
        Associative(old(actions), done.actions, next.actions);
        Associative(old(log), done.log, next.log);
      }
      assert events[..|events|] == events;
    }
  }

  /** The number of per-event outcome entries (success or error) in a log. */
  function Outcomes(log: seq<LogEntry>): nat {
    if log == [] then 0
    else Outcomes(log[..|log| - 1]) + (if log[|log| - 1].HelpFailed? then 0 else 1)
  }

  lemma {:induction false} OutcomesOfConcat(a: seq<LogEntry>, b: seq<LogEntry>)
    ensures Outcomes(a + b) == Outcomes(a) + Outcomes(b)
  {
    if b != [] {
      assert (a + b)[..|a + b| - 1] == a + b[..|b| - 1];
      OutcomesOfConcat(a, b[..|b| - 1]);
    } else {
      assert a + b == a;
    }
  }

  /** Help goes to the context's channel and nowhere else; with no channel nothing is sent. */
  lemma HelpNeedsChannel(st: ServerState, ctx: Context)
    ensures ctx.channel.None? ==> HelpEffect(st, ctx) == Effect(Some(New("channel not found")), [])
    ensures ctx.channel.Some? ==> HelpEffect(st, ctx).sent == [SentMessage(ctx.channel.value, st.options.helpMessage)]
    ensures ctx.channel.Some? ==>
      (HelpEffect(st, ctx).err.None? <==> st.api(ctx.channel.value, st.options.helpMessage).None?)
  {
  }

  /**
   * The command lookup: an unregistered verb gets exactly the help fallback
   * and no handler; a registered one runs its handler once with the
   * arguments unchanged, sends nothing itself, and returns the handler's
   * result; a stored value of another type is an error.
   */
  lemma CommandLookup(st: ServerState, ctx: Context, d: AppMentionEvent, command: string, args: seq<string>)
    ensures command !in st.commands ==> CommandEffect(st, ctx, d, command, args) == HelpEffect(st, ctx)
    ensures command in st.commands && st.commands[command].CommandFunc? ==>
      CommandEffect(st, ctx, d, command, args) == Effect(st.commands[command].f(ctx, d, args), [])
    ensures command in st.commands && st.commands[command].NotACommandFunc? ==>
      CommandEffect(st, ctx, d, command, args) == Effect(Some(New("unexpected func founded")), [])
  {
  }

  /** Hello, the connection events, Interactive and SlashCommand all succeed without an acknowledgement. */
  lemma QuietEventsSucceed(st: ServerState, ctx: Context, evt: SocketEvent)
    requires evt.kind in {Hello, Connecting, ConnectionError, Connected, Interactive, SlashCommand}
    ensures SocketEventEffect(st, ctx, evt) == Effect(None, []) && !Acks(evt)
  {
  }

  /** An Events API socket event whose data is not an Events API event is refused, unacknowledged. */
  lemma MistypedEventsAPIRefused(st: ServerState, ctx: Context, evt: SocketEvent)
    requires evt.kind == EventsAPI && !evt.data.EventsAPIData?
    ensures SocketEventEffect(st, ctx, evt) == Effect(Some(New("unknown event type:events_api")), []) && !Acks(evt)
  {
    assert "unknown event type:" + EventsAPI == "unknown event type:events_api";
  }

  /**
   * A well-typed Events API event is acknowledged and routed; a routing
   * error comes back unchanged, and so does a handler's result.
   */
  lemma EventsAPIRouted(st: ServerState, ctx: Context, evt: SocketEvent)
    requires evt.kind == EventsAPI && evt.data.EventsAPIData?
    ensures Acks(evt)
    ensures var step := ContextChannelRouter.Route(ctx, evt.data.event);
      && SocketEventEffect(st, ctx, evt) == StepEffect(st, step)
      && (step.Return? ==> SocketEventEffect(st, ctx, evt) == Effect(step.err, []))
  {
  }

  /**
   * A well-typed reaction reaches the server's single slot: an empty slot
   * (never registered, or registered as nil) gives nil, otherwise the
   * handler's result comes back unchanged; nothing is sent.
   */
  lemma ReactionReachesSlot(st: ServerState, ctx: Context, evt: SocketEvent)
    requires Acks(evt) && evt.data.event.inner.kind == ReactionAdded && evt.data.event.inner.data.ReactionData?
    ensures st.onReactionAdded.None? ==> SocketEventEffect(st, ctx, evt) == Effect(None, [])
    ensures st.onReactionAdded.Some? ==>
      SocketEventEffect(st, ctx, evt) == Effect(st.onReactionAdded.value(ctx, evt.data.event.inner.data.reactionEvent), [])
  {
  }

  /** Any other socket event type is refused. */
  lemma UnknownSocketEventRefused(st: ServerState, ctx: Context, evt: SocketEvent)
    requires evt.kind !in {Hello, Connecting, ConnectionError, Connected, EventsAPI, Interactive, SlashCommand}
    ensures SocketEventEffect(st, ctx, evt) == Effect(Some(New("unexpected event type received")), []) && !Acks(evt)
  {
  }

  /** The mention "@bot FOO bar baz" in `channel`. */
  function FooMention(user: string, channel: string): SocketEvent {
    SocketEvent(EventsAPI, EventsAPIData(EventsAPIEvent("event_callback",
      InnerEvent(AppMention, MentionData(AppMentionEvent(user, channel, "@bot FOO bar baz"))))))
  }

  /**
   * Command matching is case-insensitive on the message side: with a handler
   * registered for "foo", the mention "@bot FOO bar baz" runs that handler
   * once, with the channel in its context and the arguments ["bar", "baz"],
   * and no help is sent.
   */
  lemma UpperCaseVerbReachesHandler(st: ServerState, ctx: Context, user: string, channel: string)
    requires "foo" in st.commands && st.commands["foo"].CommandFunc?
    ensures SocketEventEffect(st, ctx, FooMention(user, channel))
         == Effect(st.commands["foo"].f(Context(Some(channel)), AppMentionEvent(user, channel, "@bot FOO bar baz"), ["bar", "baz"]), [])
  {
    FooMentionRoute(ctx, user, channel);
  }

  lemma FooMentionRoute(ctx: Context, user: string, channel: string)
    ensures ContextChannelRouter.Route(ctx, FooMention(user, channel).data.event)
         == CallExecutor(Context(Some(channel)), AppMentionEvent(user, channel, "@bot FOO bar baz"), "foo", ["bar", "baz"])
  {
    var text := "@bot FOO bar baz";
    var pieces := ["@bot", "FOO"] + ["bar", "baz"];
    assert Join(pieces, ' ') == text by {
      assert Join(["baz"], ' ') == "baz";
      JoinCons("bar", ["baz"], ' ');
      JoinCons("FOO", ["bar", "baz"], ' ');
      JoinCons("@bot", ["FOO", "bar", "baz"], ' ');
      assert pieces == ["@bot"] + ["FOO", "bar", "baz"];
    }
    TrimSpaceOfTrimmed(text);
    assert SeparatorFree(pieces, ' ');
    LowerFoo();
    ContextChannelRouter.CommandParsed(ctx, FooMention(user, channel).data.event, "@bot", "FOO", ["bar", "baz"],
                                       None, (c, m, v, a) => None);
  }

  lemma LowerFoo()
    ensures ToLower("FOO") == "foo"
  {
    assert ToLower("O") == [LowerChar('O')] + ToLower("");
    assert ToLower("OO") == [LowerChar('O')] + ToLower("O");
    assert ToLower("FOO") == [LowerChar('F')] + ToLower("OO");
  }

  /** The triage of an event whose handling had effect `e`, case by case. */
  lemma TriageOfCases(st: ServerState, evt: SocketEvent, e: Effect)
    ensures var t := TriageOf(st, evt, e);
      && t.sent == e.sent
      && t.acked == (if Acks(evt) then [evt] else [])
      && t.actions == (if Acks(evt) then [AckEvent(evt)] else []) + Sends(e.sent)
      && (e.err.None? ==> t.log == [Succeeded])
      && (e.err.Some? && RootCause(e.err.value) == ErrInvalidCommand ==>
            t.log == [HelpFailed(New("channel not found")), Failed(e.err.value)])
      && (e.err.Some? && RootCause(e.err.value) != ErrInvalidCommand ==> t.log == [Failed(e.err.value)])
  {
    assert Sends([]) == [];
    assert HelpEffect(st, ListenContext).sent == [];
    var handled := (if Acks(evt) then [AckEvent(evt)] else []) + Sends(e.sent);
    assert handled + [] == handled;
    assert e.sent + [] == e.sent;
  }

  /**
   * `Listen` never sends help itself: its context has no channel marker, so
   * the help request made for an `ErrInvalidCommand` cause always fails with
   * "channel not found"; help is requested for that cause and no other, and
   * every event ends with exactly one outcome entry. A well-typed Events API
   * event is acknowledged before anything is sent while routing it.
   */
  lemma TriageOfOneEvent(st: ServerState, evt: SocketEvent)
    ensures var e := SocketEventEffect(st, ListenContext, evt);
      && Triage(st, evt).sent == e.sent
      && Triage(st, evt).actions == (if Acks(evt) then [AckEvent(evt)] else []) + Sends(e.sent)
      && (Acks(evt) ==> Triage(st, evt).actions[0] == AckEvent(evt))
      && (e.err.None? ==> Triage(st, evt).log == [Succeeded])
      && (e.err.Some? && RootCause(e.err.value) == ErrInvalidCommand ==>
            Triage(st, evt).log == [HelpFailed(New("channel not found")), Failed(e.err.value)])
      && (e.err.Some? && RootCause(e.err.value) != ErrInvalidCommand ==>
            Triage(st, evt).log == [Failed(e.err.value)])
  {
    TriageOfCases(st, evt, SocketEventEffect(st, ListenContext, evt));
  }

  /** A mention with no command, handled by the server's loop: logged twice, nothing sent. */
  lemma InvalidMentionInListen(st: ServerState, user: string, channel: string, text: string)
    requires ' ' !in TrimSpace(text)
    ensures var evt := SocketEvent(EventsAPI, EventsAPIData(EventsAPIEvent("event_callback",
                         InnerEvent(AppMention, MentionData(AppMentionEvent(user, channel, text))))));
      && Triage(st, evt).sent == []
      && Triage(st, evt).acked == [evt]
      && Triage(st, evt).log == [HelpFailed(New("channel not found")), Failed(WithStack(ErrInvalidCommand))]
  {
    var evt := SocketEvent(EventsAPI, EventsAPIData(EventsAPIEvent("event_callback",
                 InnerEvent(AppMention, MentionData(AppMentionEvent(user, channel, text))))));
    var ev := evt.data.event;
    ContextChannelRouter.InvalidCommandHasNoChannel(ListenContext, ev);
    assert ContextChannelRouter.Route(ListenContext, ev) == Return(Some(WithStack(ErrInvalidCommand)));
    var e := SocketEventEffect(st, ListenContext, evt);
    assert e == Effect(Some(WithStack(ErrInvalidCommand)), []);
    assert RootCause(WithStack(ErrInvalidCommand)) == ErrInvalidCommand;
    assert Triage(st, evt) == TriageOf(st, evt, e);
    TriageOfCases(st, evt, e);
  }

  /** Exactly one outcome entry per event. */
  lemma OneOutcomePerEvent(st: ServerState, evt: SocketEvent)
    ensures Outcomes(Triage(st, evt).log) == 1
  {
    var e := SocketEventEffect(st, ListenContext, evt);
    TriageOfCases(st, evt, e);
    var log := Triage(st, evt).log;
    if e.err.Some? && RootCause(e.err.value) == ErrInvalidCommand {
      var l := [HelpFailed(New("channel not found")), Failed(e.err.value)];
      assert l[..|l| - 1] == [l[0]];
      assert [l[0]][..0] == [];
      assert Outcomes([l[0]]) == 0;
      assert Outcomes(l) == 1;
    } else {
      var l := log;
      assert l[..0] == [];
    }
  }

  /** The loop goes on after every error: a run of n events logs exactly n outcomes. */
  lemma {:induction false} ListenLogsEveryEvent(st: ServerState, events: seq<SocketEvent>)
    ensures Outcomes(ListenTrace(st, events).log) == |events|
  {
    if events != [] {
      var front := events[..|events| - 1];
      ListenLogsEveryEvent(st, front);
      var last := Triage(st, events[|events| - 1]);
      assert ListenTrace(st, events).log == ListenTrace(st, front).log + last.log;
      OneOutcomePerEvent(st, events[|events| - 1]);
      OutcomesOfConcat(ListenTrace(st, front).log, last.log);
    }
  }
}
