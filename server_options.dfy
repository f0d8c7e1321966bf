/** Server configuration built from functional options (option.go). */
module ServerOptions {

  const DefaultHelpMessage := "override help message required"

  /** The settled configuration the server keeps. */
  datatype Config = Config(debug: bool, helpMessage: string)

  /** `options`, the record the option values write into. */
  class Options {
    var debug: bool
    var helpMessage: string

    constructor (debug: bool, helpMessage: string)
      ensures this.debug == debug && this.helpMessage == helpMessage
    {
      this.debug := debug;
      this.helpMessage := helpMessage;
    }
  }

  /** `Option`: `debugOption` or `helpMessageOption`. */
  datatype ServerOption = DebugOption(debug: bool) | HelpMessageOption(helpMessage: string) {

    /** `apply`: each kind of option writes its own field and leaves the other alone. */
    method Apply(opts: Options)
      modifies opts
      ensures DebugOption? ==> opts.debug == debug && opts.helpMessage == old(opts.helpMessage)
      ensures HelpMessageOption? ==> opts.helpMessage == helpMessage && opts.debug == old(opts.debug)
    {
      match this
      case DebugOption(b) => opts.debug := b;
      case HelpMessageOption(s) => opts.helpMessage := s;
    }
  }

  /** `WithDebug`. */
  function WithDebug(c: bool): (o: ServerOption)
    ensures o.DebugOption? && o.debug == c
  {
    DebugOption(c)
  }

  /** `WithHelpMessage`. */
  function WithHelpMessage(s: string): (o: ServerOption)
    ensures o.HelpMessageOption? && o.helpMessage == s
  {
    HelpMessageOption(s)
  }

  /** The value of the last debug option in `opts`, or `default` when there is none. */
  function LastDebug(opts: seq<ServerOption>, default: bool): bool {
    if opts == [] then default
    else if opts[|opts| - 1].DebugOption? then opts[|opts| - 1].debug
    else LastDebug(opts[..|opts| - 1], default)
  }

  /** The value of the last help-message option in `opts`, or `default` when there is none. */
  function LastHelpMessage(opts: seq<ServerOption>, default: string): string {
    if opts == [] then default
    else if opts[|opts| - 1].HelpMessageOption? then opts[|opts| - 1].helpMessage
    else LastHelpMessage(opts[..|opts| - 1], default)
  }

  /**
   * The option loop of `NewSocketServer`: start from the defaults and apply
   * every option from left to right.
   */
  method Resolve(opts: seq<ServerOption>) returns (cfg: Config)
    ensures cfg.debug == LastDebug(opts, false)
    ensures cfg.helpMessage == LastHelpMessage(opts, DefaultHelpMessage)
  {
    var o := new Options(false, DefaultHelpMessage);
    for i := 0 to |opts|
      invariant o.debug == LastDebug(opts[..i], false)
      invariant o.helpMessage == LastHelpMessage(opts[..i], DefaultHelpMessage)
    {
      assert opts[..i + 1][..i] == opts[..i];
      opts[i].Apply(o);
    }
    assert opts[..|opts|] == opts;
    cfg := Config(o.debug, o.helpMessage);
  }

  /** No options: the defaults. */
  lemma NoOptionsGiveDefaults()
    ensures LastDebug([], false) == false
    ensures LastHelpMessage([], DefaultHelpMessage) == "override help message required"
  {
  }

  /** A debug option is overridden only by a later debug option. */
  lemma {:induction false} LaterDebugWins(opts: seq<ServerOption>, b: bool, rest: seq<ServerOption>, default: bool)
    requires forall i :: 0 <= i < |rest| ==> !rest[i].DebugOption?
    ensures LastDebug(opts + [DebugOption(b)] + rest, default) == b
  {
    var all := opts + [DebugOption(b)] + rest;
    if rest == [] {
      assert all[|all| - 1] == DebugOption(b);
    } else {
      var front := rest[..|rest| - 1];
      assert all[..|all| - 1] == opts + [DebugOption(b)] + front;
      LaterDebugWins(opts, b, front, default);
    }
  }

  /** A help-message option is overridden only by a later help-message option. */
  lemma {:induction false} LaterHelpMessageWins(opts: seq<ServerOption>, s: string, rest: seq<ServerOption>, default: string)
    requires forall i :: 0 <= i < |rest| ==> !rest[i].HelpMessageOption?
    ensures LastHelpMessage(opts + [HelpMessageOption(s)] + rest, default) == s
  {
    var all := opts + [HelpMessageOption(s)] + rest;
    if rest == [] {
      assert all[|all| - 1] == HelpMessageOption(s);
    } else {
      var front := rest[..|rest| - 1];
      assert all[..|all| - 1] == opts + [HelpMessageOption(s)] + front;
      LaterHelpMessageWins(opts, s, front, default);
    }
  }

  /** `WithDebug` leaves the help message as it was. */
  lemma DebugKeepsHelpMessage(opts: seq<ServerOption>, b: bool, default: string)
    ensures LastHelpMessage(opts + [WithDebug(b)], default) == LastHelpMessage(opts, default)
  {
    assert (opts + [WithDebug(b)])[..|opts|] == opts;
  }

  /** `WithHelpMessage` leaves the debug flag as it was. */
  lemma HelpMessageKeepsDebug(opts: seq<ServerOption>, s: string, default: bool)
    ensures LastDebug(opts + [WithHelpMessage(s)], default) == LastDebug(opts, default)
  {
    assert (opts + [WithHelpMessage(s)])[..|opts|] == opts;
  }
}
