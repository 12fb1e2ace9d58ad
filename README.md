# leanshell in Dafny

This project models the core of leanshell, a small interactive Unix shell
written in C++ (`leanshell.cpp`). Each turn of the shell does four things:
- It reads one line from standard input.
- It splits the line into words at every space character; runs of spaces
  collapse, and no other character separates words.
- It runs the first word as a builtin from a fixed table of thirteen
  commands, or else it launches that word as an external program.
- It records the command in a history that `hs` prints and `clrhs` clears.

The model keeps the source's structure. The line reader and the tokenizer
are loops, so they are methods. Each is proved equal to a recursive function
(`NextLine`, `Split`). Lemmas then state the properties of those functions:
the tokens are non-empty and space-free, runs of spaces collapse, splitting
a single-space join gives the words back, and printing lines then reading
them back gives the same lines.

The registry has two parallel tables and a start-up loop that loads them
into the command map. The dispatcher (`shellExecute`) is the function
`Dispatch`. The history and the command map are the fields of a `Session`
class. Its `Execute` method is proved to give the same result as `Dispatch`.

The host is a value of type `World`. It holds the files, the directories,
the writable paths, the working directory, `$HOME`, the free disk space,
and everything printed to standard output and standard error. Process
creation is an oracle: the caller passes a `ChildOutcome`, and the model
maps it to the status that `shellLaunch` returns.

Modules:
- `Wrappers`: `Option`.
- `Host`: the world, the output records and the diagnostics.
- `LineReader`: `shellReadLine`, plus the `getline` / `endl` line structure.
- `Tokenizer`: `shellSplitLine`.
- `Registry`: `builtin_str`, `builtin_func` and `command_map`.
- `Launcher`: `shellLaunch`.
- `Handlers`: the builtins except `hs` and `clrhs`.
- `Shell`: `hs`, `clrhs`, `shellExecute` and one turn of `shellLoop`.

Some behaviours of the code that a reader might not expect, all modelled
as the code has them:
- After `clrhs` the history is `["clrhs"]`, not empty. The dispatcher
  appends the command after its handler ran, so the next `hs` prints
  `clrhs` (`Shell.ClearThenShow`).
- An external program that exits with status 255 returns 255, not the
  failure sentinel -1. `WEXITSTATUS` is always in 0..255, so a real exit
  status is never mistaken for a launch failure
  (`Launcher.ExitStatus255IsNotFailure`).
- `Command not found: <name>` is written to standard output, not to
  standard error.
- `ls` has no arity guard: it lists its first argument and ignores the
  others.
- `cp f f` empties `f`. The destination is truncated before the source is
  read (`Handlers.CopyOntoItselfEmpties`).
- A directory opens for reading. `cat d` prints nothing for it and goes on
  with the next name, and `cp d x` leaves `x` empty; neither reports an
  error (`Handlers.CatStopsAtFirstFailure`, `Handlers.CopyFromDirectoryEmpties`).

## Model

| member | source | states |
|---|---|---|
| LineReader.NextLine | leanshell.cpp:15-31 | the line holds no newline; with a newline in the input, the input is the line, the newline and the rest; without one, the whole input is the line and nothing remains |
| LineReader.NextLineAt | leanshell.cpp:19-21 | the line ends at the first newline: the prefix before it is the line, and the text after it is what remains |
| LineReader.ReadLine | leanshell.cpp:15-31 | the character loop returns exactly the line and the remaining input given by NextLine |
| LineReader.Lines | leanshell.cpp:267-270 | no line that getline yields contains a newline |
| LineReader.Unlines | leanshell.cpp:192-194 | each line followed by a newline, as `<< line << std::endl` prints it; Shell.Session.PrintHistory is proved to print exactly this |
| LineReader.LinesUnlines | leanshell.cpp:192-194 | printing lines that hold no newline, each followed by endl, and reading them back with getline gives the same lines |
| LineReader.UnlinesLines | leanshell.cpp:267-270 | reading a text with getline and printing each line with endl reproduces the text; a newline is added only when the last line lacked one |
| Tokenizer.WordLength | leanshell.cpp:44-45 | the length of the longest space-free prefix: every character before it is not a space, and the character at it is a space when there is one |
| Tokenizer.FindFirstNotOf | leanshell.cpp:42 | find_first_not_of: the first position at or after `from` whose character differs from c, or none when every later character is c |
| Tokenizer.Find | leanshell.cpp:44 | find: the first position at or after `from` holding c, or none when no later character is c |
| Tokenizer.Split | leanshell.cpp:33-49 | the specification of shellSplitLine; Tokenizer.SplitLine is proved equal to it, and the lemmas below state what it yields |
| Tokenizer.SkipDelims | leanshell.cpp:42 | spaces in front of a word do not change the tokens |
| Tokenizer.TakeWord | leanshell.cpp:44-45 | a maximal run of non-spaces is the next token, and tokenizing resumes after it |
| Tokenizer.SplitLine | leanshell.cpp:33-49 | the start/end index loop returns exactly Split(line) |
| Tokenizer.SplitYieldsWords | leanshell.cpp:33-49 | every token is non-empty and holds no space |
| Tokenizer.SplitEmptyIff | leanshell.cpp:42 | a line yields no token exactly when it is empty or all spaces |
| Tokenizer.SplitWord | leanshell.cpp:40 | a non-empty space-free string is its own only token, so tabs and other characters do not split |
| Tokenizer.SplitAtDelim | leanshell.cpp:40-46 | a space always separates: the tokens of a + " " + b are the tokens of a followed by the tokens of b |
| Tokenizer.SpacedSnoc | leanshell.cpp:347-349 | appending " " + arg for one more argument extends the rebuilt command line by exactly that |
| Tokenizer.SplitJoin | leanshell.cpp:33-49 | round trip: splitting non-empty space-free words joined by single spaces gives the words back |
| Tokenizer.SplitJoinSplit | leanshell.cpp:33-49 | re-joining the tokens of a line with single spaces and splitting again gives the same tokens |
| Tokenizer.NonDelimsOfPrefix | leanshell.cpp:45 | the non-space characters of a space-free prefix are that prefix |
| Tokenizer.SplitKeepsNonDelims | leanshell.cpp:33-49 | nothing but spaces is lost: the tokens put back together are the line with its spaces removed |
| Tokenizer.SplitCollapsesRuns | leanshell.cpp:42-45 | "  a   b c  " gives exactly a, b, c: runs of spaces collapse and leading or trailing spaces give no empty token |
| Tokenizer.SplitCollapsesTail | leanshell.cpp:42-45 | "   b c  " gives exactly b, c |
| Tokenizer.SplitCollapsesLast | leanshell.cpp:42-45 | " c  " gives exactly c |
| Tokenizer.SplitKeepsTabs | leanshell.cpp:40 | "a\tb" is a single token: only the space delimits |
| Registry.TablesAgree | leanshell.cpp:66-75 | builtin_str and builtin_func are parallel, and each entry's handler answers to the name at the same index |
| Registry.NameInjective | leanshell.cpp:66-69 | no two handlers share a name |
| Registry.Lookup | leanshell.cpp:343-344 | a word that has a handler is that handler's name; a word with no handler is the name of none |
| Registry.LookupRegistered | leanshell.cpp:66-69 | a word has a handler exactly when it is listed in builtin_str |
| Registry.LookupName | leanshell.cpp:372-374 | every handler is found under its own name |
| Registry.LookupEntry | leanshell.cpp:372-374 | each table entry's name leads to that entry's handler |
| Registry.BuiltinStrDistinct | leanshell.cpp:66-69 | the names in builtin_str are pairwise distinct, so no later entry overwrites an earlier one |
| Registry.LoadTable | leanshell.cpp:372-374 | the loading loop maps every name of a distinct table to the handler at its index, and adds no other key |
| Registry.LoadCommandMap | leanshell.cpp:372-374 | command_map answers exactly what the registry answers, and holds every handler under its own name |
| Launcher.WaitStatus | leanshell.cpp:321-327 | the status waitpid yields is -1 exactly when the child did not exit normally, and otherwise lies in 0..255 |
| Launcher.Launch | leanshell.cpp:304-329 | the status is -1 exactly when the child did not exit normally (fork failed, execvp failed and abort ran, or a signal); otherwise it is the exit code modulo 256, in 0..255; fork failure prints "fork error" and launches nothing; otherwise the argument vector is launched |
| Launcher.ExitStatus255IsNotFailure | leanshell.cpp:323-327 | exit code 255, or -1 which truncates to 255, gives status 255, which differs from the failure sentinel |
| Host.Message | leanshell.cpp:305-308 | "fork error" for a failed fork; every other diagnostic starts with the command name and ": " |
| Handlers.ArityError | leanshell.cpp:157-160 | the arity guards: cd rejects more than one argument, cp and mv anything but two, hs, clrhs, exit, help, df and clear any argument; ls, touch, echo and cat have none |
| Handlers.ArityDiag | leanshell.cpp:81-86 | an arity guard's message names its own command |
| Handlers.ArityMessage | leanshell.cpp:157-159 | the guard line is the command name followed by ": wrong number of arguments" for cp and mv, and ": too many arguments" for the others |
| Handlers.ExitShell | leanshell.cpp:81-88 | exit ends the process exactly when it has no argument; with arguments it only reports and returns 1 |
| Handlers.ChangeDir | leanshell.cpp:90-103 | more than one argument: report only; no argument: go to $HOME; one: go there; the move succeeds iff the target is an existing directory, else an error is reported; only cwd or stderr change; status 1 |
| Handlers.Reach | leanshell.cpp:145-150 | how far a stop-at-first-failure loop gets: every name before it succeeds, and the name at it fails |
| Handlers.Create | leanshell.cpp:146-151 | fopen in append mode followed by fclose: an absent path becomes an empty file, and an existing file keeps its bytes |
| Handlers.TouchAll | leanshell.cpp:144-154 | the specification of shell_touch; TouchFiles is proved equal to it and TouchStopsAtFirstFailure states what it does |
| Handlers.TouchFiles | leanshell.cpp:144-154 | the loop over the names gives exactly the touch specification, with status 1 |
| Handlers.TouchStopsAtFirstFailure | leanshell.cpp:144-154 | touch creates the names before the first one it cannot open, as empty files, only when they are absent; it changes no existing file and creates nothing else; it reports one error exactly when it stopped early |
| Handlers.CatText | leanshell.cpp:267-270 | what cat prints for one file: its getline lines, each followed by endl; CatTextIsContent states what that text is |
| Handlers.CatPrint | leanshell.cpp:265-271 | the output for one path that opened: a file's text, or nothing for a directory |
| Handlers.CatAll | leanshell.cpp:263-279 | the specification of shell_cat; CatFiles is proved equal to it and CatStopsAtFirstFailure states what it does |
| Handlers.CatOutputs | leanshell.cpp:264-271 | the output of cat for paths that all open: each file's text in order, nothing for a directory |
| Handlers.CatTextIsContent | leanshell.cpp:267-270 | cat prints a file's text exactly, adding a newline when the last line lacks one |
| Handlers.CatFiles | leanshell.cpp:263-279 | the loop over the names gives exactly the cat specification, with status 1 |
| Handlers.CatStopsAtFirstFailure | leanshell.cpp:263-279 | cat prints the files in order up to the first path it cannot open, prints nothing for a directory, changes no file, and reports one error exactly when it stopped early |
| Handlers.EchoWords | leanshell.cpp:255-257 | each argument followed by one space |
| Handlers.EchoText | leanshell.cpp:254-261 | what echo prints: EchoWords then a newline; EchoArgs is proved to print exactly this and EchoRetokenizes states what it holds |
| Handlers.EchoRetokenizes | leanshell.cpp:254-261 | every argument is printed once, in order: splitting what echo printed before its newline gives back the arguments |
| Handlers.EchoArgs | leanshell.cpp:254-261 | the loop prints each argument followed by a space, then a newline, with status 1 |
| Handlers.ListFrom | leanshell.cpp:121-141 | the readdir loop over one directory's entries; ListOnlyPrints states what it does |
| Handlers.ListAll | leanshell.cpp:105-142 | the specification of shell_ls: open "." or the first argument, then ListFrom; List is proved equal to it |
| Handlers.List | leanshell.cpp:105-142 | the readdir loop gives exactly the ls specification: it opens "." or the first argument, skips "." and "..", marks directories, stops at the first entry that stat cannot inspect, and ends with a newline |
| Handlers.ListOnlyPrints | leanshell.cpp:121-141 | ls changes only the output streams, only appends to standard output, never lists "." or "..", lists only entries of the directory, and reports at most one error |
| Handlers.ReadChunk | leanshell.cpp:180 | fread fills the buffer with the next min(remaining, buffer size) bytes of the source |
| Handlers.CopyStream | leanshell.cpp:178-182 | the 4096-byte fread/fwrite loop writes exactly the bytes of the source |
| Handlers.CopyFile | leanshell.cpp:156-188 | the specification of shell_cp; Copy is proved equal to it and the three lemmas below state what it does |
| Handlers.Copy | leanshell.cpp:156-188 | cp gives exactly the copy specification: wrong arity, a source that cannot be opened or an unwritable destination only report; otherwise the destination is truncated and then receives what reading the source yields |
| Handlers.CopyWithoutSource | leanshell.cpp:165-169 | when the source is neither a file nor a directory, no file is created or changed and one error is reported |
| Handlers.CopyFromDirectoryEmpties | leanshell.cpp:165-182 | copying a directory creates or truncates the destination, leaves it empty and reports nothing |
| Handlers.CopyCopies | leanshell.cpp:156-188 | for distinct source and destination, the destination holds exactly the source's bytes and no other file changes |
| Handlers.CopyOntoItselfEmpties | leanshell.cpp:171-182 | cp f f leaves f empty, because the destination is truncated before the source is read |
| Handlers.Move | leanshell.cpp:212-227 | wrong arity only reports; a successful rename moves the source's bytes to the destination, removes the source, and neither adds, removes nor changes any other file; a failed rename reports an error and happens exactly when the source is not a file or the destination cannot be written |
| Handlers.ShowHelp | leanshell.cpp:229-252 | with arguments help only reports; otherwise it prints the help screen; status 1 |
| Handlers.DiskFree | leanshell.cpp:281-291 | with arguments df only reports; otherwise it prints the available bytes; status 1 |
| Handlers.ClearTerminal | leanshell.cpp:293-302 | with arguments clear only reports; otherwise it prints the clear-screen sequence; status 1 |
| Shell.ShowHistory | leanshell.cpp:190-200 | with arguments hs only reports; otherwise it prints every history entry on its own line, oldest first; status 1 |
| Shell.ClearHistory | leanshell.cpp:202-210 | with arguments clrhs only reports and keeps the history; otherwise it empties the history and prints nothing; status 1 |
| Shell.BuiltinEffect | leanshell.cpp:345-346 | the handler registered for a builtin run on the arguments; Shell.Session.RunBuiltin is proved equal to it |
| Shell.Dispatch | leanshell.cpp:331-365 | the specification of shellExecute; Shell.Session.Execute is proved equal to it, and the lemmas below state what it does |
| Shell.BuiltinLaunchesNothing | leanshell.cpp:343-351 | no builtin handler creates a process |
| Shell.BuiltinStep | leanshell.cpp:346 | every handler returns 1, except exit with no argument, which ends the shell |
| Shell.BuiltinHistory | leanshell.cpp:202-210 | only clrhs with no argument changes the history that a handler sees |
| Shell.DispatchBuiltin | leanshell.cpp:343-351 | a registered word runs its handler on the remaining tokens; unless the process ended, the command line, rebuilt with single spaces, is appended after the handler ran |
| Shell.DispatchExternal | leanshell.cpp:352-364 | an unregistered word is launched with all tokens; on -1, "Command not found" is printed and the history is kept; otherwise the command word followed by " " + token for every token is appended |
| Shell.EmptyLineIsIgnored | leanshell.cpp:332-335 | an empty token list prints the nudge, keeps the history and returns 1 |
| Shell.OnlyBareExitTerminates | leanshell.cpp:331-365 | a dispatch ends the shell exactly when the tokens are ["exit"]; every other dispatch returns 1 |
| Shell.BuiltinsShadowExternals | leanshell.cpp:343-351 | a registered word never reaches the launcher: the outcome does not depend on what a launch would do, and no process is created |
| Shell.BuiltinIsRecordedAfterItRuns | leanshell.cpp:343-351 | after a builtin that returns, the history is what its handler left, plus the joined command line; so after a bare clrhs only the clrhs entry remains |
| Shell.ArityGuardsOnlyReport | leanshell.cpp:343-351 | a builtin rejecting its arguments only writes its diagnostic, returns 1 and is still recorded |
| Shell.ExternalDispatch | leanshell.cpp:352-364 | an external command always returns 1; if it did not exit normally, only "Command not found" is printed and nothing is recorded; if it exited, it was launched with all tokens and the command word is recorded twice |
| Shell.BareBuiltin | leanshell.cpp:343-351 | a registered word alone on the line runs its handler with no argument and records exactly that word |
| Shell.HsShowsEarlierCommands | leanshell.cpp:190-200 | a bare hs prints the history from before hs itself was recorded, then records hs |
| Shell.ClearLeavesItself | leanshell.cpp:202-210 | a bare clrhs leaves the host untouched and the history holding only its own entry |
| Shell.ClearThenShow | leanshell.cpp:343-351 | a bare hs right after a bare clrhs prints the single line "clrhs" |
| Shell.RecordedEntry | leanshell.cpp:347-362 | a newly recorded entry is the tokens joined by single spaces; for an external command the command word comes twice |
| Shell.HistoryEntryRetokenizes | leanshell.cpp:347-362 | splitting a recorded entry again gives the tokens of the line; for an external command the command word is repeated |
| Shell.EndOfInputRepeats | leanshell.cpp:376-382 | at end of input the reader yields an empty line and consumes nothing, and that line only prints the nudge, so the loop repeats the same turn |
| Shell.SpaceArgs | leanshell.cpp:347-349 | the loop that rebuilds the command line appends " " + arg for each argument, in order |
| Shell.Session.constructor | leanshell.cpp:372-374 | a session starts with an empty history and a command map that is the registry |
| Shell.Session.PrintHistory | leanshell.cpp:190-200 | the loop over the history prints exactly what ShowHistory specifies |
| Shell.Session.EraseHistory | leanshell.cpp:202-210 | clrhs changes the history field and the host exactly as ClearHistory specifies |
| Shell.Session.RunBuiltin | leanshell.cpp:345-346 | calling the handler through the table gives exactly that handler's specified effect |
| Shell.Session.Execute | leanshell.cpp:331-365 | shellExecute keeps the command map valid and yields the status, host and history that Dispatch specifies |
| Shell.Session.RunOnce | leanshell.cpp:376-382 | one turn reads a line, splits it and executes it, as NextLine, Split and Dispatch specify, leaving the rest of the input |

## Left out

- Real processes: `fork`, `execvp`, `waitpid` and `abort` are not modelled. The caller passes the outcome of a launch (`ChildOutcome`), and the model keeps only the status mapping and the record of launched argument vectors. What the program does is not modelled.
- The `argv` array built in the child (a variable-length array of C strings) is not modelled; the argument vector is the token list.
- The text of `strerror(errno)` is not modelled. A failed system call is recorded as `OsError(<command>)`.
- Prompt, help text, ANSI colour codes and `std::setw` padding are not modelled. They become the output records `HelpScreen`, `ClearScreen` and `Listed(name, isDir)`. No prompt is recorded.
- The `std::cin.fail()` branch of `shellReadLine` is not modelled. It cannot be reached after a successful `get`.
- `shellLoop` as a whole is not modelled, because it never ends. `Session.RunOnce` models one turn, and the loop condition is captured by `Shell.OnlyBareExitTerminates`: `exit(0)` inside `shell_exit` is the only way out.
- Handlers.ChangeDir: path resolution is not modelled. The target must be an existing directory by its exact name. Relative paths, `..` and symbolic links are not resolved.
- Handlers.Move: renaming a directory, or onto an existing directory, is not modelled. Only files are moved.
- Handlers.TouchFiles: `fopen` with mode "a" is modelled by a set of writable paths. Permission bits are not modelled.
- Handlers.DiskFree: the free space of the root file system is a field of the world; `std::filesystem::space` is not modelled, nor its exception on failure.
- Handlers.List: the order of `readdir` entries is taken as given by the world. The `opendir` failure covers every reason as one error.
- Host: the writable set is taken to hold no directory. Opening a directory for writing or appending fails, and the model relies on the world not listing one as writable (touch and the cp destination).
- Handlers.Copy: partial writes, I/O errors inside the copy loop and the file-size limit are not modelled.
- Tokenizer.SplitLine: the conversions between `int` and `size_t` in `shellSplitLine` (`start`, `end` and `npos`) are modelled with unbounded natural indices. Overflow on lines longer than `INT_MAX` is not modelled.
- Strings are sequences of characters. Truncation of an argument at an embedded NUL by `c_str()` is not modelled.
- Only standard output and standard error are modelled as output streams. How the two interleave on a terminal is not modelled.
