/**
 * The earlier router revision (handler_events_api.go): an invalid command is
 * a plain stack-wrapped `ErrInvalidCommand`, and the channel reaches the
 * executor through the context under the channel marker key.
 */
module ContextChannelRouter {
  import opened Optional
  import opened Errors
  import opened Events
  import opened CtxTags
  import opened GoStrings
  import opened Routing

  /** `context.WithValue(ctx, CtxChannelMarkerKey, channel)`. */
  function WithChannelMarker(ctx: Context, channel: string): (r: Context)
    ensures r.channel == Some(channel)
  {
    ctx.(channel := Some(channel))
  }

  /** `EventsAPIHandler` without its tag writes: the step taken for `ev`. */
  function Route(ctx: Context, ev: EventsAPIEvent): (s: Step)
    ensures s.Return? ==> s.err.Some?
    ensures s.CallReaction? <==> ev.inner.kind == ReactionAdded && ev.inner.data.ReactionData?
    ensures s.CallReaction? ==> s == CallReaction(ctx, ev.inner.data.reactionEvent)
    ensures s.CallExecutor? <==>
      (ev.inner.kind == AppMention && ev.inner.data.MentionData? && ' ' in TrimSpace(ev.inner.data.mentionEvent.text))
    ensures s.CallExecutor? ==>
      s.ctx == Context(Some(ev.inner.data.mentionEvent.channel)) && s.mentionEvent == ev.inner.data.mentionEvent
  {
    if ev.inner.kind == AppMention then
      match ev.inner.data
      case MentionData(d) =>
        var ss := Tokens(d.text);
        if |ss| < 2 then Return(Some(WithStack(ErrInvalidCommand)))
        else CallExecutor(WithChannelMarker(ctx, d.channel), d, ToLower(ss[1]), ss[2..])
      case _ => Return(Some(WithStack(ErrUnexpectedInnerEventData)))
    else if ev.inner.kind == ReactionAdded then
      match ev.inner.data
      case ReactionData(d) => CallReaction(ctx, d)
      case _ => Return(Some(WithStack(ErrUnexpectedInnerEventData)))
    else Return(Some(New(UnsupportedEvent)))
  }

  /** `EventsAPIHandler`: write the tags step by step, then take the step. */
  method EventsAPIHandler(tags: Tags, ctx: Context, ev: EventsAPIEvent) returns (step: Step)
    modifies tags
    ensures tags.values == Written(old(tags.values), ev.kind, ev.inner.kind, PayloadTag(ev))
    ensures step == Route(ctx, ev)
  {
    tags.Set(EventDataTypeKey, TypeName(ev.kind));
    tags.Set(InnerEventTypeKey, TypeName(ev.inner.kind));

    if ev.inner.kind == AppMention {
      if !ev.inner.data.MentionData? {
        tags.Set(InnerEventDataKey, NilData);
        return Return(Some(WithStack(ErrUnexpectedInnerEventData)));
      }
      var d := ev.inner.data.mentionEvent;
      tags.Set(InnerEventDataKey, MentionFields(d.user, d.channel, d.text));

      var ss := Split(TrimSpace(d.text), ' ');
      if |ss| < 2 {
        return Return(Some(WithStack(ErrInvalidCommand)));
      }
      return CallExecutor(WithChannelMarker(ctx, d.channel), d, ToLower(ss[1]), ss[2..]);
    } else if ev.inner.kind == ReactionAdded {
      if !ev.inner.data.ReactionData? {
        tags.Set(InnerEventDataKey, NilData);
        return Return(Some(WithStack(ErrUnexpectedInnerEventData)));
      }
      var d := ev.inner.data.reactionEvent;
      tags.Set(InnerEventDataKey, ReactionFields(d.user, d.reaction, d.itemUser));
      return CallReaction(ctx, d);
    }
    return Return(Some(New(UnsupportedEvent)));
  }

  /** Any other inner type is unsupported and nothing is called. */
  lemma UnsupportedCallsNothing(ctx: Context, ev: EventsAPIEvent, onReaction: Option<ReactionHandler>, executor: Executor)
    requires ev.inner.kind != AppMention && ev.inner.kind != ReactionAdded
    ensures Route(ctx, ev) == Return(Some(New("unsupported Events API event received")))
    ensures Perform(Route(ctx, ev), onReaction, executor) == Some(New("unsupported Events API event received"))
  {
  }

  /** A payload of the wrong runtime type for its tag is rejected and nothing is called. */
  lemma MalformedPayloadCallsNothing(ctx: Context, ev: EventsAPIEvent)
    requires (ev.inner.kind == AppMention && !ev.inner.data.MentionData?)
          || (ev.inner.kind == ReactionAdded && !ev.inner.data.ReactionData?)
    ensures Route(ctx, ev) == Return(Some(WithStack(ErrUnexpectedInnerEventData)))
  {
  }

  /**
   * A mention is an invalid command exactly when its trimmed text has no
   * space; the error is the stack-wrapped sentinel with no channel attached,
   * and no context is built for an executor.
   */
  lemma InvalidCommandHasNoChannel(ctx: Context, ev: EventsAPIEvent)
    requires ev.inner.kind == AppMention && ev.inner.data.MentionData?
    ensures (Route(ctx, ev).Return? <==> ' ' !in TrimSpace(ev.inner.data.mentionEvent.text))
    ensures Route(ctx, ev).Return? ==> Route(ctx, ev).err == Some(WithStack(ErrInvalidCommand))
    ensures Route(ctx, ev).Return? ==> RootCause(Route(ctx, ev).err.value) == ErrInvalidCommand
  {
  }

  /**
   * A mention whose trimmed text is `mention verb args...` (single spaces)
   * calls the executor once, with the payload's channel under the marker key,
   * the lower-cased verb and the remaining pieces; the router returns exactly
   * what the executor returns.
   */
  lemma CommandParsed(ctx: Context, ev: EventsAPIEvent, mention: string, verb: string, args: seq<string>,
                      onReaction: Option<ReactionHandler>, executor: Executor)
    requires ev.inner.kind == AppMention && ev.inner.data.MentionData?
    requires SeparatorFree([mention, verb] + args, ' ')
    requires Join([mention, verb] + args, ' ') == TrimSpace(ev.inner.data.mentionEvent.text)
    ensures var d := ev.inner.data.mentionEvent;
      Route(ctx, ev) == CallExecutor(Context(Some(d.channel)), d, ToLower(verb), args)
    ensures var d := ev.inner.data.mentionEvent;
      Perform(Route(ctx, ev), onReaction, executor) == executor(Context(Some(d.channel)), d, ToLower(verb), args)
  {
    TokensOf(ev.inner.data.mentionEvent.text, mention, verb, args);
    assert ([mention, verb] + args)[2..] == args;
  }

  /** A reaction goes to the handler once, its result unchanged; with no handler the result is nil. */
  lemma ReactionDispatch(ctx: Context, ev: EventsAPIEvent, handler: ReactionHandler, executor: Executor)
    requires ev.inner.kind == ReactionAdded && ev.inner.data.ReactionData?
    ensures Route(ctx, ev) == CallReaction(ctx, ev.inner.data.reactionEvent)
    ensures Perform(Route(ctx, ev), Some(handler), executor) == handler(ctx, ev.inner.data.reactionEvent)
    ensures Perform(Route(ctx, ev), None, executor) == None
  {
  }
}
