/**
 * The latest router revision (handle_events_api.go): an invalid command
 * comes back as a `*slackError` that carries the mention's channel, and the
 * executor gets the caller's context unchanged.
 */
module ErrorChannelRouter {
  import opened Optional
  import opened Errors
  import opened Events
  import opened CtxTags
  import opened GoStrings
  import opened Routing

  /** The error for a mention that names no command: `ErrInvalidCommand` at its root, carrying the channel. */
  function InvalidCommandError(channel: string): (e: Error)
    ensures RootCause(e) == ErrInvalidCommand
    ensures Message(e) == "invalid command"
    ensures e.Slack? && e.se.Channel() == Some(channel)
  {
    Slack(SlackError(Some(WithStack(ErrInvalidCommand)), Some(channel)))
  }

  /** `handleEventsAPI` without its tag writes: the step taken for `ev`. */
  function Route(ctx: Context, ev: EventsAPIEvent): (s: Step)
    ensures s.Return? ==> s.err.Some?
    ensures s.CallReaction? <==> ev.inner.kind == ReactionAdded && ev.inner.data.ReactionData?
    ensures s.CallReaction? ==> s == CallReaction(ctx, ev.inner.data.reactionEvent)
    ensures s.CallExecutor? <==>
      (ev.inner.kind == AppMention && ev.inner.data.MentionData? && ' ' in TrimSpace(ev.inner.data.mentionEvent.text))
    ensures s.CallExecutor? ==> s.ctx == ctx && s.mentionEvent == ev.inner.data.mentionEvent
  {
    if ev.inner.kind == AppMention then
      match ev.inner.data
      case MentionData(d) =>
        var ss := Tokens(d.text);
        if |ss| < 2 then Return(Some(InvalidCommandError(d.channel)))
        else CallExecutor(ctx, d, ToLower(ss[1]), ss[2..])
      case _ => Return(Some(WithStack(ErrUnexpectedInnerEventData)))
    else if ev.inner.kind == ReactionAdded then
      match ev.inner.data
      case ReactionData(d) => CallReaction(ctx, d)
      case _ => Return(Some(WithStack(ErrUnexpectedInnerEventData)))
    else Return(Some(New(UnsupportedEvent)))
  }

  /** `handleEventsAPI`: write the tags step by step, then take the step. */
  method HandleEventsAPI(tags: Tags, ctx: Context, ev: EventsAPIEvent) returns (step: Step)
    modifies tags
    ensures tags.values == Written(old(tags.values), ev.kind, ev.inner.kind, PayloadTag(ev))
    ensures step == Route(ctx, ev)
  {
    tags.Set(EventDataTypeKey, TypeName(ev.kind));
    tags.Set(InnerEventTypeKey, TypeName(ev.inner.kind));

    if ev.inner.kind == AppMention {
      if !ev.inner.data.MentionData? {
        tags.Set(InnerEventDataKey, NilData);
        return Return(Some(WithStack(ErrUnexpectedInnerEventData)));
      }
      var d := ev.inner.data.mentionEvent;
      tags.Set(InnerEventDataKey, MentionFields(d.user, d.channel, d.text));

      var ss := Split(TrimSpace(d.text), ' ');
      if |ss| < 2 {
        var err := NewSlackError(Some(WithStack(ErrInvalidCommand)), [WithChannel(d.channel)]);
        return Return(Some(err));
      }
      return CallExecutor(ctx, d, ToLower(ss[1]), ss[2..]);
    } else if ev.inner.kind == ReactionAdded {
      if !ev.inner.data.ReactionData? {
        tags.Set(InnerEventDataKey, NilData);
        return Return(Some(WithStack(ErrUnexpectedInnerEventData)));
      }
      var d := ev.inner.data.reactionEvent;
      tags.Set(InnerEventDataKey, ReactionFields(d.user, d.reaction, d.itemUser));
      return CallReaction(ctx, d);
    }
    return Return(Some(New(UnsupportedEvent)));
  }

  /** Any other inner type is unsupported and nothing is called. */
  lemma UnsupportedCallsNothing(ctx: Context, ev: EventsAPIEvent, onReaction: Option<ReactionHandler>, executor: Executor)
    requires ev.inner.kind != AppMention && ev.inner.kind != ReactionAdded
    ensures Route(ctx, ev) == Return(Some(New("unsupported Events API event received")))
    ensures Perform(Route(ctx, ev), onReaction, executor) == Some(New("unsupported Events API event received"))
  {
  }

  /** A payload of the wrong runtime type for its tag is rejected and nothing is called. */
  lemma MalformedPayloadCallsNothing(ctx: Context, ev: EventsAPIEvent)
    requires (ev.inner.kind == AppMention && !ev.inner.data.MentionData?)
          || (ev.inner.kind == ReactionAdded && !ev.inner.data.ReactionData?)
    ensures Route(ctx, ev) == Return(Some(WithStack(ErrUnexpectedInnerEventData)))
  {
  }

  /**
   * A mention is an invalid command exactly when its trimmed text has no
   * space; the error then has `ErrInvalidCommand` as its cause and the
   * payload's channel as its channel, and the executor is not called.
   */
  lemma InvalidCommandCarriesChannel(ctx: Context, ev: EventsAPIEvent)
    requires ev.inner.kind == AppMention && ev.inner.data.MentionData?
    ensures var d := ev.inner.data.mentionEvent;
      && (Route(ctx, ev).Return? <==> ' ' !in TrimSpace(d.text))
      && (Route(ctx, ev).Return? ==>
            && Route(ctx, ev).err.Some?
            && RootCause(Route(ctx, ev).err.value) == ErrInvalidCommand
            && Route(ctx, ev).err.value.se.Channel() == Some(d.channel))
  {
  }

  /** The only-mention case: "kanziw" in channel "channel", whatever the envelope's outer type. */
  lemma OnlyMentionIsInvalidCommand(ctx: Context, outerType: string)
    ensures var ev := EventsAPIEvent(outerType, InnerEvent(AppMention, MentionData(AppMentionEvent("kanziw", "channel", "kanziw"))));
      && Route(ctx, ev).Return?
      && Route(ctx, ev).err == Some(Slack(SlackError(Some(WithStack(ErrInvalidCommand)), Some("channel"))))
      && Message(Route(ctx, ev).err.value) == "invalid command"
  {
    SingleWordIsOneToken();
  }

  /**
   * A mention whose trimmed text is `mention verb args...` (single spaces)
   * calls the executor once, with the caller's context, the lower-cased verb
   * and the remaining pieces as arguments; and the router returns exactly
   * what the executor returns.
   */
  lemma CommandParsed(ctx: Context, ev: EventsAPIEvent, mention: string, verb: string, args: seq<string>,
                      onReaction: Option<ReactionHandler>, executor: Executor)
    requires ev.inner.kind == AppMention && ev.inner.data.MentionData?
    requires SeparatorFree([mention, verb] + args, ' ')
    requires Join([mention, verb] + args, ' ') == TrimSpace(ev.inner.data.mentionEvent.text)
    ensures Route(ctx, ev) == CallExecutor(ctx, ev.inner.data.mentionEvent, ToLower(verb), args)
    ensures Perform(Route(ctx, ev), onReaction, executor) == executor(ctx, ev.inner.data.mentionEvent, ToLower(verb), args)
  {
    TokensOf(ev.inner.data.mentionEvent.text, mention, verb, args);
    assert ([mention, verb] + args)[2..] == args;
  }

  /** A reaction goes to the handler once, its result unchanged; with no handler the result is nil. */
  lemma ReactionDispatch(ctx: Context, ev: EventsAPIEvent, handler: ReactionHandler, executor: Executor)
    requires ev.inner.kind == ReactionAdded && ev.inner.data.ReactionData?
    ensures Route(ctx, ev) == CallReaction(ctx, ev.inner.data.reactionEvent)
    ensures Perform(Route(ctx, ev), Some(handler), executor) == handler(ctx, ev.inner.data.reactionEvent)
    ensures Perform(Route(ctx, ev), None, executor) == None
  {
  }
}
