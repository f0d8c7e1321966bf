/**
 * What the router revisions share: the request context, the callables they
 * are given, the step a router decides on, and the tokenisation of mention text.
 */
module Routing {
  import opened Optional
  import opened Errors
  import opened Events
  import opened GoStrings
  import opened CtxTags

  /** The request context, as far as routing is concerned: the channel stored under the channel marker key, if any. */
  datatype Context = Context(channel: Option<string>)

  /** The reaction handler a router is given (nil is `None` at the call site). */
  type ReactionHandler = (Context, ReactionAddedEvent) -> Option<Error>

  /** The executor a router is given for a parsed mention command. */
  type Executor = (Context, AppMentionEvent, string, seq<string>) -> Option<Error>

  const UnsupportedEvent := "unsupported Events API event received"

  /**
   * What a router does with one event: return an error (or nil) without
   * calling anything, call the reaction handler once, or call the executor
   * once with a command and its arguments.
   */
  datatype Step =
    | Return(err: Option<Error>)
    | CallReaction(ctx: Context, reactionEvent: ReactionAddedEvent)
    | CallExecutor(ctx: Context, mentionEvent: AppMentionEvent, command: string, args: seq<string>)

  /**
   * The router's return value once its step has run: a nil reaction handler
   * gives nil, and a callable's result is passed on as it is.
   */
  function Perform(s: Step, onReaction: Option<ReactionHandler>, executor: Executor): (r: Option<Error>)
    ensures s.Return? ==> r == s.err
    ensures s.CallReaction? && onReaction.None? ==> r == None
    ensures s.CallReaction? && onReaction.Some? ==> r == onReaction.value(s.ctx, s.reactionEvent)
    ensures s.CallExecutor? ==> r == executor(s.ctx, s.mentionEvent, s.command, s.args)
  {
    match s
    case Return(err) => err
    case CallReaction(ctx, d) => if onReaction.Some? then onReaction.value(ctx, d) else None
    case CallExecutor(ctx, d, command, args) => executor(ctx, d, command, args)
  }

  /**
   * The value the two mention-handling revisions write under the data key:
   * the payload's fields, or nil for a payload of the wrong runtime type;
   * nothing for any other inner type.
   */
  function PayloadTag(ev: EventsAPIEvent): (t: Option<TagValue>)
    ensures t.Some? <==> ev.inner.kind == AppMention || ev.inner.kind == ReactionAdded
    ensures t == Some(NilData) <==>
      ((ev.inner.kind == AppMention && !ev.inner.data.MentionData?) || (ev.inner.kind == ReactionAdded && !ev.inner.data.ReactionData?))
  {
    if ev.inner.kind == AppMention then
      Some(match ev.inner.data
           case MentionData(d) => MentionFields(d.user, d.channel, d.text)
           case _ => NilData)
    else if ev.inner.kind == ReactionAdded then
      Some(match ev.inner.data
           case ReactionData(d) => ReactionFields(d.user, d.reaction, d.itemUser)
           case _ => NilData)
    else None
  }

  /**
   * Both type tags are written whatever the event; the data tag holds the
   * well-typed payload's fields for the two known kinds.
   */
  lemma TypeTagsOnEveryPath(before: map<string, TagValue>, ev: EventsAPIEvent)
    ensures var after := Written(before, ev.kind, ev.inner.kind, PayloadTag(ev));
      after[EventDataTypeKey] == TypeName(ev.kind) && after[InnerEventTypeKey] == TypeName(ev.inner.kind)
    ensures ev.inner.kind == AppMention && ev.inner.data.MentionData? ==>
      var d := ev.inner.data.mentionEvent;
      Written(before, ev.kind, ev.inner.kind, PayloadTag(ev))[InnerEventDataKey] == MentionFields(d.user, d.channel, d.text)
    ensures ev.inner.kind == ReactionAdded && ev.inner.data.ReactionData? ==>
      var d := ev.inner.data.reactionEvent;
      Written(before, ev.kind, ev.inner.kind, PayloadTag(ev))[InnerEventDataKey] == ReactionFields(d.user, d.reaction, d.itemUser)
  {
  }

  /**
   * `strings.Split(strings.TrimSpace(text), " ")`: fewer than two pieces
   * exactly when the trimmed text has no space, and the pieces rejoined
   * with single spaces are the trimmed text.
   */
  function Tokens(text: string): (ss: seq<string>)
    ensures |ss| >= 1
    ensures |ss| < 2 <==> ' ' !in TrimSpace(text)
    ensures SeparatorFree(ss, ' ')
    ensures Join(ss, ' ') == TrimSpace(text)
  {
    SplitSinglePiece(TrimSpace(text), ' ');
    Split(TrimSpace(text), ' ')
  }

  /**
   * The tokens of a text are read off any space-free decomposition of its
   * trimmed form: the first token is the mention, the second the verb and
   * the rest the arguments.
   */
  lemma TokensOf(text: string, mention: string, verb: string, args: seq<string>)
    requires SeparatorFree([mention, verb] + args, ' ')
    requires Join([mention, verb] + args, ' ') == TrimSpace(text)
    ensures Tokens(text) == [mention, verb] + args
  {
    SplitCharacterised(TrimSpace(text), [mention, verb] + args, ' ');
  }

  /** Consecutive spaces give an empty verb: "@bot  foo" has the verb "" and the argument "foo". */
  lemma DoubleSpaceGivesEmptyVerb()
    ensures Tokens("@bot  foo") == ["@bot", "", "foo"]
  {
    var pieces := ["@bot", "", "foo"];
    assert Join(pieces, ' ') == "@bot  foo" by {
      JoinCons("@bot", ["", "foo"], ' ');
      JoinCons("", ["foo"], ' ');
    }
    TrimSpaceOfTrimmed("@bot  foo");
    assert SeparatorFree(pieces, ' ');
    TokensOf("@bot  foo", "@bot", "", ["foo"]);
  }

  /** A text with no space inside is one token: "kanziw". */
  lemma SingleWordIsOneToken()
    ensures Tokens("kanziw") == ["kanziw"]
  {
    TrimSpaceOfTrimmed("kanziw");
    SplitCharacterised("kanziw", ["kanziw"], ' ');
  }
}
