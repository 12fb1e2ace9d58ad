/**
 * The dispatcher (shellExecute), the history builtins that read and clear
 * the command history, and one turn of the read-split-execute loop.
 *
 * The history deque and the command map are the fields of a Session; the
 * host and the outcome of launching a child process are supplied by the
 * caller. Dispatch is the specification of one call to shellExecute, and
 * Session.Execute is proved against it.
 */
module Shell {
  import opened Wrappers
  import opened Host
  import opened LineReader
  import opened Tokenizer
  import opened Registry
  import opened Launcher
  import opened Handlers

  /** The result of one dispatch: status or termination, host, history. */
  datatype Outcome = Outcome(step: Step, world: World, history: seq<string>)

  /** Printed for an empty line. */
  const Nudge: string := "Please enter something :)\n"

  /** Printed when an external command could not be run. */
  function NotFound(command: string): string {
    "Command not found: " + command + "\n"
  }

  /** shell_hs: print every history entry on its own line. */
  function ShowHistory(args: seq<string>, history: seq<string>, w: World): (r: Reply)
    ensures r.step == Continue
    ensures ArityError(Hs, args) ==> r == Refuse(Hs, w)
    ensures !ArityError(Hs, args) ==> r.world == Emit(w, Text(Unlines(history)))
  {
    if args != [] then Refuse(Hs, w) else Reply(Continue, Emit(w, Text(Unlines(history))))
  }

  /** shell_clrhs: empty the history; the host changes only on error. */
  function ClearHistory(args: seq<string>, history: seq<string>, w: World): (r: Outcome)
    ensures r.step == Continue
    ensures ArityError(Clrhs, args) ==> r == Outcome(Continue, Refuse(Clrhs, w).world, history)
    ensures !ArityError(Clrhs, args) ==> r == Outcome(Continue, w, [])
  {
    if args != [] then Outcome(Continue, Refuse(Clrhs, w).world, history) else Outcome(Continue, w, [])
  }

  function WithHistory(r: Reply, history: seq<string>): Outcome {
    Outcome(r.step, r.world, history)
  }

  /** The handler registered for b, run on args (the history is that from
      before the dispatcher records this command). */
  function BuiltinEffect(b: Builtin, args: seq<string>, history: seq<string>, w: World): Outcome {
    match b
    case Cd => WithHistory(ChangeDir(args, w), history)
    case Ls => Outcome(Continue, ListAll(args, w), history)
    case Touch => Outcome(Continue, TouchAll(args, w), history)
    case Cp => Outcome(Continue, CopyFile(args, w), history)
    case Mv => WithHistory(Move(args, w), history)
    case Hs => WithHistory(ShowHistory(args, history, w), history)
    case Clrhs => ClearHistory(args, history, w)
    case Exit => WithHistory(ExitShell(args, w), history)
    case Help => WithHistory(ShowHelp(args, w), history)
    case Echo => Outcome(Continue, Emit(w, Text(EchoText(args))), history)
    case Cat => Outcome(Continue, CatAll(args, w), history)
    case Df => WithHistory(DiskFree(args, w), history)
    case Clear => WithHistory(ClearTerminal(args, w), history)
  }

  /** The specification of shellExecute on a token list. */
  ghost function Dispatch(tokens: seq<string>, history: seq<string>, w: World, child: ChildOutcome): Outcome {
    if tokens == [] then Outcome(Continue, Emit(w, Text(Nudge)), history)
    else
      var command := tokens[0];
      match Lookup(command)
      case Some(b) =>
        var o := BuiltinEffect(b, tokens[1..], history, w);
        if o.step == Terminate then o
        else o.(history := o.history + [command + Spaced(tokens[1..])])
      case None =>
        var (status, w1) := Launch(tokens, child, w);
        if status == LaunchFailed then Outcome(Continue, Emit(w1, Text(NotFound(command))), history)
        else Outcome(Continue, w1, history + [command + Spaced(tokens)])
  }

  /** Every handler leaves the process table alone. */
  lemma BuiltinLaunchesNothing(b: Builtin, args: seq<string>, history: seq<string>, w: World)
    ensures BuiltinEffect(b, args, history, w).world.launched == w.launched
  {
    match b
    case Ls =>
      var dir := if args == [] then "." else args[0];
      if dir in w.dirs {
        ListOnlyPrints(if args == [] then "" else args[0] + "/", w.dirs[dir], w);
      }
    case Touch => TouchStopsAtFirstFailure(args, w);
    case Cat => CatStopsAtFirstFailure(args, w);
    case _ =>
  }

  /** Every handler returns status 1, except exit with no argument. */
  lemma BuiltinStep(b: Builtin, args: seq<string>, history: seq<string>, w: World)
    ensures BuiltinEffect(b, args, history, w).step == (if b == Exit && args == [] then Terminate else Continue)
  {
  }

  /** The dispatch of a registered command word. */
  lemma DispatchBuiltin(tokens: seq<string>, history: seq<string>, w: World, child: ChildOutcome, b: Builtin)
    requires tokens != [] && Name(b) == tokens[0]
    ensures var o := BuiltinEffect(b, tokens[1..], history, w);
      Dispatch(tokens, history, w, child) ==
        if o.step == Terminate then o else o.(history := o.history + [Join(tokens)])
  {
    LookupName(b);
  }

  /** Only clrhs with no argument changes the history a handler sees. */
  lemma BuiltinHistory(b: Builtin, args: seq<string>, history: seq<string>, w: World)
    ensures BuiltinEffect(b, args, history, w).history == (if b == Clrhs && args == [] then [] else history)
  {
  }

  /** The dispatch of an unregistered command word. */
  lemma DispatchExternal(tokens: seq<string>, history: seq<string>, w: World, child: ChildOutcome)
    requires tokens != [] && Lookup(tokens[0]).None?
    ensures var (status, w1) := Launch(tokens, child, w);
      Dispatch(tokens, history, w, child) ==
        if status == LaunchFailed then Outcome(Continue, Emit(w1, Text(NotFound(tokens[0]))), history)
        else Outcome(Continue, w1, history + [Join([tokens[0]] + tokens)])
  {
    assert ([tokens[0]] + tokens)[1..] == tokens;
  }

  /** An empty line prints the nudge, records nothing and keeps the loop going. */
  lemma EmptyLineIsIgnored(history: seq<string>, w: World, child: ChildOutcome)
    ensures Dispatch([], history, w, child) == Outcome(Continue, Emit(w, Text(Nudge)), history)
  {
  }

  /** Only `exit` with no argument ends the shell; every other line,
      builtin or external, yields status 1, so the loop never stops on a
      returned status. */
  lemma OnlyBareExitTerminates(tokens: seq<string>, history: seq<string>, w: World, child: ChildOutcome)
    ensures Dispatch(tokens, history, w, child).step == Terminate <==> tokens == ["exit"]
    ensures Dispatch(tokens, history, w, child).step != Terminate ==> Dispatch(tokens, history, w, child).step == Continue
  {
    LookupName(Exit);
    if tokens != [] {
      var b := Lookup(tokens[0]);
      if b.Some? {
        DispatchBuiltin(tokens, history, w, child, b.value);
        BuiltinStep(b.value, tokens[1..], history, w);
        NameInjective(b.value, Exit);
        assert tokens == ["exit"] <==> tokens[0] == Name(Exit) && tokens[1..] == [];
      }
    }
  }

  /** Builtins shadow external programs: a registered command word never
      reaches the launcher, so the outcome does not depend on what launching
      would do and no child process is created. */
  lemma BuiltinsShadowExternals(tokens: seq<string>, history: seq<string>, w: World, c1: ChildOutcome, c2: ChildOutcome)
    requires tokens != [] && Lookup(tokens[0]).Some?
    ensures Dispatch(tokens, history, w, c1) == Dispatch(tokens, history, w, c2)
    ensures Dispatch(tokens, history, w, c1).world.launched == w.launched
  {
    BuiltinLaunchesNothing(Lookup(tokens[0]).value, tokens[1..], history, w);
  }

  /** A builtin that returns is recorded after it ran, as the words of the
      line joined by single spaces, even when it rejected its arguments. The
      entry is appended to the history the handler left: clrhs leaves only
      its own entry. */
  lemma BuiltinIsRecordedAfterItRuns(tokens: seq<string>, history: seq<string>, w: World, child: ChildOutcome)
    requires tokens != [] && Lookup(tokens[0]).Some?
    requires Dispatch(tokens, history, w, child).step != Terminate
    ensures Dispatch(tokens, history, w, child).history ==
      (if Lookup(tokens[0]) == Some(Clrhs) && |tokens| == 1 then [] else history) + [Join(tokens)]
  {
    var b := Lookup(tokens[0]).value;
    DispatchBuiltin(tokens, history, w, child, b);
    BuiltinHistory(b, tokens[1..], history, w);
    var o := BuiltinEffect(b, tokens[1..], history, w);
    assert o.step != Terminate;
    assert |tokens| == 1 <==> tokens[1..] == [];
  }

  /** A builtin that rejects its arguments writes only its diagnostic and is
      still recorded: clrhs does not clear, exit does not end the shell, cd
      does not change directory. */
  lemma ArityGuardsOnlyReport(tokens: seq<string>, history: seq<string>, w: World, child: ChildOutcome)
    requires tokens != [] && Lookup(tokens[0]).Some?
    requires ArityError(Lookup(tokens[0]).value, tokens[1..])
    ensures Dispatch(tokens, history, w, child) ==
      Outcome(Continue, Report(w, ArityDiag(Lookup(tokens[0]).value)), history + [Join(tokens)])
  {
    DispatchBuiltin(tokens, history, w, child, Lookup(tokens[0]).value);
  }

  /** An external command: when the launch fails (fork failed, the program
      could not be executed, or it died from a signal) the shell says so and
      records nothing; otherwise it records the command word followed by the
      whole argument vector, so the command word appears twice. The host is
      unchanged apart from the launch record only because the launch oracle
      leaves out what the child itself does: a real program may change files
      and write to the same standard output. */
  lemma ExternalDispatch(tokens: seq<string>, history: seq<string>, w: World, child: ChildOutcome)
    requires tokens != [] && Lookup(tokens[0]).None?
    ensures var o := Dispatch(tokens, history, w, child);
      o.step == Continue &&
      (!child.Exited? ==> o.history == history && o.world.out == w.out + [Text(NotFound(tokens[0]))]) &&
      (child.Exited? ==>
         o.history == history + [Join([tokens[0]] + tokens)] &&
         o.world == w.(launched := w.launched + [tokens]))
  {
    DispatchExternal(tokens, history, w, child);
  }

  /** The dispatch of a registered command word given alone on the line. */
  lemma BareBuiltin(tokens: seq<string>, history: seq<string>, w: World, child: ChildOutcome)
    requires |tokens| == 1 && Lookup(tokens[0]).Some?
    ensures var o := BuiltinEffect(Lookup(tokens[0]).value, [], history, w);
      Dispatch(tokens, history, w, child) ==
        if o.step == Terminate then o else o.(history := o.history + tokens)
  {
    DispatchBuiltin(tokens, history, w, child, Lookup(tokens[0]).value);
    assert tokens[1..] == [];
    assert Join(tokens) == tokens[0];
    assert tokens == [tokens[0]];
  }

  /** A bare hs prints the history as it was before hs itself is recorded. */
  lemma HsShowsEarlierCommands(tokens: seq<string>, history: seq<string>, w: World, child: ChildOutcome)
    requires |tokens| == 1 && Lookup(tokens[0]) == Some(Hs)
    ensures Dispatch(tokens, history, w, child) ==
      Outcome(Continue, Emit(w, Text(Unlines(history))), history + tokens)
  {
    BareBuiltin(tokens, history, w, child);
  }

  /** A bare clrhs leaves the host untouched and the history holding only
      its own entry. */
  lemma ClearLeavesItself(clear: seq<string>, history: seq<string>, w: World, child: ChildOutcome)
    requires |clear| == 1 && Lookup(clear[0]) == Some(Clrhs)
    ensures Dispatch(clear, history, w, child) == Outcome(Continue, w, clear)
  {
    BareBuiltin(clear, history, w, child);
    var o := BuiltinEffect(Clrhs, [], history, w);
    assert o == Outcome(Continue, w, []);
    assert o.history + clear == clear;
  }

  /** So a bare hs right after a bare clrhs prints the single line "clrhs". */
  lemma ClearThenShow(clear: seq<string>, show: seq<string>, history: seq<string>, w: World, child: ChildOutcome)
    requires |clear| == 1 && Lookup(clear[0]) == Some(Clrhs)
    requires |show| == 1 && Lookup(show[0]) == Some(Hs)
    ensures var o := Dispatch(clear, history, w, child);
      Dispatch(show, o.history, o.world, child).world.out == w.out + [Text(clear[0] + "\n")]
  {
    ClearLeavesItself(clear, history, w, child);
    HsShowsEarlierCommands(show, clear, w, child);
    assert clear[1..] == [];
    assert Unlines(clear) == clear[0] + "\n";
  }

  /** When the dispatcher records a line, the new last entry is the words of
      the line joined by single spaces (for an external command: with the
      command word repeated). */
  lemma RecordedEntry(tokens: seq<string>, history: seq<string>, w: World, child: ChildOutcome)
    requires tokens != []
    requires |Dispatch(tokens, history, w, child).history| > |history|
    ensures var h := Dispatch(tokens, history, w, child).history;
      h[|h| - 1] == Join(if Lookup(tokens[0]).Some? then tokens else [tokens[0]] + tokens)
  {
    if Lookup(tokens[0]).Some? {
      var b := Lookup(tokens[0]).value;
      DispatchBuiltin(tokens, history, w, child, b);
      BuiltinHistory(b, tokens[1..], history, w);
    } else {
      DispatchExternal(tokens, history, w, child);
    }
  }

  /** A recorded line re-tokenizes to the command that produced it (for an
      external command: with the command word repeated). */
  lemma HistoryEntryRetokenizes(tokens: seq<string>, history: seq<string>, w: World, child: ChildOutcome)
    requires tokens != [] && AllWords(tokens)
    requires |Dispatch(tokens, history, w, child).history| > |history|
    ensures var h := Dispatch(tokens, history, w, child).history;
      Split(h[|h| - 1]) == if Lookup(tokens[0]).Some? then tokens else [tokens[0]] + tokens
  {
    RecordedEntry(tokens, history, w, child);
    var full := if Lookup(tokens[0]).Some? then tokens else [tokens[0]] + tokens;
    assert AllWords(full);
    SplitJoin(full);
  }

  /** At the end of input the line reader yields "" and leaves nothing, and
      an empty line changes nothing but the output: the loop repeats the same
      turn forever. */
  lemma EndOfInputRepeats(history: seq<string>, w: World, child: ChildOutcome)
    ensures NextLine([]) == ([], [])
    ensures Dispatch(Split(NextLine([]).0), history, w, child) == Outcome(Continue, Emit(w, Text(Nudge)), history)
  {
  }

  /** The loop that builds the recorded command line: " " + arg for each arg. */
  method SpaceArgs(args: seq<string>) returns (s: string)
    ensures s == Spaced(args)
  {
    s := [];
    var i := 0;
    while i < |args|
      invariant 0 <= i <= |args|
      invariant s == Spaced(args[..i])
    {
      SpacedSnoc(args[..i], args[i]);
      assert args[..i + 1] == args[..i] + [args[i]];
      s := s + " " + args[i];
      i := i + 1;
    }
    assert args[..i] == args;
  }

  class Session {
    var history: seq<string>                 // command_history, oldest first
    var commands: map<string, Builtin>       // command_map

    ghost predicate Valid()
      reads this
    {
      IsCommandMap(commands)
    }

    /** Start-up: an empty history and the registry loaded into the map. */
    constructor ()
      ensures Valid() && history == []
    {
      var table := LoadCommandMap();
      history, commands := [], table;
    }

    /** shell_hs: the loop over the history. */
    method PrintHistory(args: seq<string>, w: World) returns (r: Reply)
      ensures r == ShowHistory(args, history, w)
    {
      if args != [] {
        return Refuse(Hs, w);
      }
      var text: string := [];
      var i := 0;
      while i < |history|
        invariant 0 <= i <= |history|
        invariant text + Unlines(history[i..]) == Unlines(history)
      {
        assert history[i..][1..] == history[i + 1..];
        text := text + history[i] + "\n";
        i := i + 1;
      }
      assert history[i..] == [] && text + [] == text;
      r := Reply(Continue, Emit(w, Text(text)));
    }

    /** shell_clrhs. */
    method EraseHistory(args: seq<string>, w: World) returns (r: Reply)
      modifies this`history
      ensures WithHistory(r, history) == ClearHistory(args, old(history), w)
    {
      if args != [] {
        return Refuse(Clrhs, w);
      }
      history := [];
      r := Reply(Continue, w);
    }

    /** Call the handler of b through the table. */
    method RunBuiltin(b: Builtin, args: seq<string>, w: World) returns (r: Reply)
      modifies this`history
      ensures WithHistory(r, history) == BuiltinEffect(b, args, old(history), w)
    {
      match b
      case Cd => r := ChangeDir(args, w);
      case Ls => r := List(args, w);
      case Touch => r := TouchFiles(args, w);
      case Cp => r := Copy(args, w);
      case Mv => r := Move(args, w);
      case Hs => r := PrintHistory(args, w);
      case Clrhs => r := EraseHistory(args, w);
      case Exit => r := ExitShell(args, w);
      case Help => r := ShowHelp(args, w);
      case Echo => r := EchoArgs(args, w);
      case Cat => r := CatFiles(args, w);
      case Df => r := DiskFree(args, w);
      case Clear => r := ClearTerminal(args, w);
    }

    /** shellExecute. */
    method Execute(tokens: seq<string>, w: World, child: ChildOutcome) returns (r: Step, w': World)
      requires Valid()
      modifies this`history
      ensures Valid()
      ensures Outcome(r, w', history) == Dispatch(tokens, old(history), w, child)
    {
      if tokens == [] {
        return Continue, Emit(w, Text(Nudge));
      }
      var command := tokens[0];
      var args := tokens[1..];
      if command in commands {
        var reply := RunBuiltin(commands[command], args, w);
        if reply.step == Terminate {
          // exit(0) ends the process inside the handler: nothing is recorded
          return Terminate, reply.world;
        }
        var spaced := SpaceArgs(args);
        history := history + [command + spaced];
        return reply.step, reply.world;
      } else {
        args := [command] + args;
        assert args == tokens;
        var (status, w1) := Launch(args, child, w);
        if status == LaunchFailed {
          return Continue, Emit(w1, Text(NotFound(command)));
        }
        var spaced := SpaceArgs(args);
        history := history + [command + spaced];
        return Continue, w1;
      }
    }

    /** One turn of shellLoop: read a line, split it, execute it. */
    method RunOnce(input: seq<char>, w: World, child: ChildOutcome) returns (r: Step, w': World, rest: seq<char>)
      requires Valid()
      modifies this`history
      ensures Valid()
      ensures rest == NextLine(input).1
      ensures Outcome(r, w', history) == Dispatch(Split(NextLine(input).0), old(history), w, child)
    {
      var line;
      line, rest := ReadLine(input);
      var args := SplitLine(line);
      r, w' := Execute(args, w, child);
    }
  }
}
