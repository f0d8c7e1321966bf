/**
 * The oldest router revision (handler/events_api_handler.go): only reactions
 * are dispatched. Its AppMention case has an empty body, and since Go does
 * not fall through, a mention ends up as an unsupported event.
 */
module ReactionOnlyRouter {
  import opened Optional
  import opened Errors
  import opened Events
  import opened CtxTags
  import opened Routing

  /** `EventsAPIHandler` without its tag writes: the step taken for `ev`. */
  function Route(ctx: Context, ev: EventsAPIEvent): (s: Step)
    ensures !s.CallExecutor?
  {
    if ev.inner.kind == AppMention then
      Return(Some(New(UnsupportedEvent)))
    else if ev.inner.kind == ReactionAdded then
      match ev.inner.data
      case ReactionData(d) => CallReaction(ctx, d)
      case _ => Return(Some(WithStack(ErrUnexpectedInnerEventData)))
    else Return(Some(New(UnsupportedEvent)))
  }

  /** The value written under the data key for `ev`: nil, and only for a mistyped reaction payload. */
  function DataTag(ev: EventsAPIEvent): (t: Option<TagValue>)
    ensures t.Some? <==> ev.inner.kind == ReactionAdded && !ev.inner.data.ReactionData?
    ensures t.Some? ==> t.value == NilData
  {
    if ev.inner.kind == ReactionAdded && !ev.inner.data.ReactionData? then Some(NilData) else None
  }

  /** `EventsAPIHandler`: write the tags step by step, then take the step. */
  method EventsAPIHandler(tags: Tags, ctx: Context, ev: EventsAPIEvent) returns (step: Step)
    modifies tags
    ensures tags.values == Written(old(tags.values), ev.kind, ev.inner.kind, DataTag(ev))
    ensures step == Route(ctx, ev)
  {
    tags.Set(EventDataTypeKey, TypeName(ev.kind));
    tags.Set(InnerEventTypeKey, TypeName(ev.inner.kind));

    if ev.inner.kind == AppMention {
      // empty case: leaves the switch
    } else if ev.inner.kind == ReactionAdded {
      if !ev.inner.data.ReactionData? {
        tags.Set(InnerEventDataKey, NilData);
        return Return(Some(WithStack(ErrUnexpectedInnerEventData)));
      }
      return CallReaction(ctx, ev.inner.data.reactionEvent);
    }
    return Return(Some(New(UnsupportedEvent)));
  }

  /** Both type tags are written whatever the event. */
  lemma TypeTagsOnEveryPath(before: map<string, TagValue>, ev: EventsAPIEvent)
    ensures var after := Written(before, ev.kind, ev.inner.kind, DataTag(ev));
      after[EventDataTypeKey] == TypeName(ev.kind) && after[InnerEventTypeKey] == TypeName(ev.inner.kind)
    ensures DataTag(ev).Some? <==> ev.inner.kind == ReactionAdded && !ev.inner.data.ReactionData?
  {
  }

  /** Every inner type other than ReactionAdded, AppMention included, is unsupported and calls nothing. */
  lemma MentionIsUnsupported(ctx: Context, ev: EventsAPIEvent, onReaction: Option<ReactionHandler>, executor: Executor)
    requires ev.inner.kind != ReactionAdded
    ensures Route(ctx, ev) == Return(Some(New("unsupported Events API event received")))
    ensures Perform(Route(ctx, ev), onReaction, executor) == Some(New("unsupported Events API event received"))
  {
  }

  /** A reaction payload of the wrong runtime type is rejected. */
  lemma MalformedReactionCallsNothing(ctx: Context, ev: EventsAPIEvent)
    requires ev.inner.kind == ReactionAdded && !ev.inner.data.ReactionData?
    ensures Route(ctx, ev) == Return(Some(WithStack(ErrUnexpectedInnerEventData)))
  {
  }

  /** A reaction goes to the handler once, its result unchanged; with no handler the result is nil. */
  lemma ReactionDispatch(ctx: Context, ev: EventsAPIEvent, handler: ReactionHandler, executor: Executor)
    requires ev.inner.kind == ReactionAdded && ev.inner.data.ReactionData?
    ensures Route(ctx, ev) == CallReaction(ctx, ev.inner.data.reactionEvent)
    ensures Perform(Route(ctx, ev), Some(handler), executor) == handler(ctx, ev.inner.data.reactionEvent)
    ensures Perform(Route(ctx, ev), None, executor) == None
  {
  }
}
