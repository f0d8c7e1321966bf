/**
 * Go error values as the dispatch layer builds and inspects them (error.go):
 * the two package sentinels, `errors.New`, the stack wrapper of pkg/errors,
 * and `*slackError`, which can carry the channel a failure came from.
 */
module Errors {
  import opened Optional

  /** The package-level sentinels, compared by identity. */
  datatype Sentinel = UnexpectedInnerEventData | InvalidCommand

  datatype Error =
    | SentinelError(which: Sentinel)
    /** `errors.New(text)` made at the point of return: never equal to a sentinel. */
    | New(text: string)
    /** `errors.WithStack(inner)`: same message, `Cause()` is `inner`. */
    | WithStack(inner: Error)
    | Slack(se: SlackError)

  /** `*slackError`: an optional wrapped error and an optional channel. */
  datatype SlackError = SlackError(err: Option<Error>, channel: Option<string>) {

    /** `Error()`. */
    function ErrorString(): (r: string)
      ensures err.None? ==> r == ""
      ensures err.Some? ==> r == Message(err.value)
    {
      Message(Slack(this))
    }

    /** `Cause()`: the wrapped error, or the receiver itself when nothing is wrapped. */
    function Cause(): (r: Error)
      ensures err.Some? ==> r == err.value
      ensures err.None? ==> r == Slack(this)
      ensures Message(r) == ErrorString()
      ensures IsRoot(r) ==> RootCause(Slack(this)) == r
    {
      if err.Some? then err.value else Slack(this)
    }

    /** `Channel()`. */
    function Channel(): (r: Option<string>)
      ensures r == channel
    {
      channel
    }
  }

  const ErrUnexpectedInnerEventData := SentinelError(UnexpectedInnerEventData)
  const ErrInvalidCommand := SentinelError(InvalidCommand)

  function SentinelText(s: Sentinel): string {
    match s
    case UnexpectedInnerEventData => "unexpected evt.data.inner_event.data"
    case InvalidCommand => "invalid command"
  }

  /** The `Error()` string of any error. */
  function Message(e: Error): string {
    match e
    case SentinelError(s) => SentinelText(s)
    case New(text) => text
    case WithStack(inner) => Message(inner)
    case Slack(SlackError(None, _)) => ""
    case Slack(SlackError(Some(inner), _)) => Message(inner)
  }

  /** An error with nothing further to unwrap. */
  predicate IsRoot(e: Error) {
    !e.WithStack? && !(e.Slack? && e.se.err.Some?)
  }

  /**
   * `errors.Cause`: follow `Cause()` until an error has none. A `*slackError`
   * with no wrapped error is its own cause and is where the unwrapping stops.
   */
  function RootCause(e: Error): (r: Error)
    ensures IsRoot(r)
    ensures IsRoot(e) ==> r == e
  {
    match e
    case WithStack(inner) => RootCause(inner)
    case Slack(SlackError(Some(inner), _)) => RootCause(inner)
    case _ => e
  }

  /**
   * `errors.Cause` follows `Cause()`: through a stack wrapper to the wrapped
   * error, through a `*slackError` to what its `Cause()` returns, and it stops
   * at a `*slackError` whose `Cause()` is the receiver itself.
   */
  lemma RootCauseFollowsCause(se: SlackError, x: Error)
    ensures se.err.Some? ==> RootCause(Slack(se)) == RootCause(se.Cause())
    ensures se.err.None? ==> se.Cause() == Slack(se) && RootCause(Slack(se)) == Slack(se)
    ensures RootCause(WithStack(x)) == RootCause(x)
  {
  }

  /** Unwrapping never changes the message an error reports. */
  lemma {:induction false} RootCauseKeepsMessage(e: Error)
    ensures Message(RootCause(e)) == Message(e)
  {
    match e
    case WithStack(inner) => RootCauseKeepsMessage(inner);
    case Slack(SlackError(Some(inner), _)) => RootCauseKeepsMessage(inner);
    case _ =>
  }

  /** A stack-wrapped sentinel inside a `*slackError` still has that sentinel as its cause. */
  lemma SentinelSurvivesWrapping(s: Sentinel, channel: Option<string>)
    ensures RootCause(Slack(SlackError(Some(WithStack(SentinelError(s))), channel))) == SentinelError(s)
    ensures Message(Slack(SlackError(Some(WithStack(SentinelError(s))), channel))) == SentinelText(s)
  {
  }

  /** `errOptions`, the record the error options write into. */
  class ErrOptions {
    var channel: Option<string>

    constructor ()
      ensures channel == None
    {
      channel := None;
    }
  }

  /** `ErrorOption`; its only kind is `channelOption`. */
  datatype ErrorOption = ChannelOption(channel: string) {
    method Apply(opts: ErrOptions)
      modifies opts
      ensures opts.channel == Some(channel)
    {
      opts.channel := Some(channel);
    }
  }

  /** `withChannel`. */
  function WithChannel(s: string): (o: ErrorOption)
    ensures o.channel == s
  {
    ChannelOption(s)
  }

  /**
   * `NewSlackError`: apply the options in order over a record with no
   * channel, so the last channel option decides the channel.
   */
  method NewSlackError(err: Option<Error>, opts: seq<ErrorOption>) returns (e: Error)
    ensures e.Slack? && e.se.err == err
    ensures opts == [] ==> e.se.Channel() == None
    ensures opts != [] ==> e.se.Channel() == Some(opts[|opts| - 1].channel)
  {
    var o := new ErrOptions();
    for i := 0 to |opts|
      invariant o.channel == if i == 0 then None else Some(opts[i - 1].channel)
    {
      opts[i].Apply(o);
    }
    e := Slack(SlackError(err, o.channel));
  }
}
