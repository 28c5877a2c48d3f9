/**
 * The command line's decision, before the directory prompt: show help, reject invalid
 * tokens, reject an empty argument list, or run the named report modes.
 */
module Cli {
  import opened Wrappers

  datatype Mode = Summary | Stats | Tac | Tec | Nav

  datatype Decision = ShowHelp | InvalidArgs | NoArgs | Run(modes: set<Mode>)

  /** The token that selects a mode. */
  function ModeName(m: Mode): string {
    match m
    case Summary => "summary"
    case Stats => "stats"
    case Tac => "tac"
    case Tec => "tec"
    case Nav => "nav"
  }

  const ValidArgs: set<string> := {"summary", "stats", "tac", "tec", "nav", "-h", "--help"}

  predicate WantsHelp(args: seq<string>) {
    "-h" in args || "--help" in args
  }

  /** `[arg for arg in args if arg not in valid_args]` */
  function InvalidTokens(args: seq<string>): (r: seq<string>)
    ensures forall a :: a in r <==> a in args && a !in ValidArgs
    ensures |r| <= |args|
  {
    if args == [] then []
    else
      var p, last := args[..|args| - 1], args[|args| - 1];
      assert args == p + [last];
      InvalidTokens(p) + (if last in ValidArgs then [] else [last])
  }

  /** The modes named among `args`. */
  function NamedModes(args: seq<string>): (modes: set<Mode>)
    ensures forall m :: m in modes <==> ModeName(m) in args
  {
    (if "summary" in args then {Summary} else {}) +
    (if "stats" in args then {Stats} else {}) +
    (if "tac" in args then {Tac} else {}) +
    (if "tec" in args then {Tec} else {}) +
    (if "nav" in args then {Nav} else {})
  }

  /** The checks of the entry point, in order: help, then invalid tokens, then no arguments. */
  function Decide(args: seq<string>): (d: Decision)
    ensures d == ShowHelp <==> WantsHelp(args)
    ensures d == InvalidArgs <==> !WantsHelp(args) && exists a :: a in args && a !in ValidArgs
    ensures d == NoArgs <==> args == []
    ensures d.Run? ==> args != [] && forall a :: a in args ==> a in ValidArgs
    ensures d.Run? ==> d.modes != {} && forall m :: m in d.modes <==> ModeName(m) in args
  {
    if WantsHelp(args) then ShowHelp
    else if InvalidTokens(args) != [] then
      assert InvalidTokens(args)[0] in args;
      InvalidArgs
    else if args == [] then NoArgs
    else
      assert args[0] in ValidArgs;
      Run(NamedModes(args))
  }

  /** The process exit status a decision ends with, or None when the run goes on. */
  function ExitCode(d: Decision): (code: Option<int>)
    ensures code.Some? <==> !d.Run?
    ensures code == Some(0) <==> d == ShowHelp
    ensures d == InvalidArgs || d == NoArgs ==> code == Some(1)
  {
    match d
    case ShowHelp => Some(0)
    case InvalidArgs => Some(1)
    case NoArgs => Some(1)
    case Run(_) => None
  }

  /** Only the tokens present matter, not their order or repetition. */
  lemma DecideIgnoresOrder(args1: seq<string>, args2: seq<string>)
    requires forall a :: a in args1 <==> a in args2
    ensures Decide(args1) == Decide(args2)
  {
  }

  /** A help flag anywhere wins over any other tokens, valid or not. */
  lemma HelpWins(args: seq<string>, others: seq<string>)
    requires WantsHelp(args)
    ensures Decide(others + args) == ShowHelp && Decide(args + others) == ShowHelp
    ensures ExitCode(Decide(others + args)) == Some(0)
  {
    assert "-h" in args ==> "-h" in others + args && "-h" in args + others;
    assert "--help" in args ==> "--help" in others + args && "--help" in args + others;
  }

  /** An unknown token such as "foo" ends the run with status 1. */
  lemma InvalidTokenFails(args: seq<string>, bad: string)
    requires !WantsHelp(args) && bad !in ValidArgs
    ensures Decide(args + [bad]) == InvalidArgs && ExitCode(Decide(args + [bad])) == Some(1)
  {
    assert bad in args + [bad];
    assert "-h" != bad && "--help" != bad;
  }
}
