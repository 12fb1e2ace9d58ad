/**
 * The thirteen builtin handlers. Each takes the arguments after the
 * command word and the state of the host, and yields its status and the
 * host afterwards. Handlers that only decide are functions; the handlers
 * whose source iterates (touch, cat, echo, ls, and the copy loop of cp)
 * are methods proved against a function that specifies them. hs and
 * clrhs, which read and clear the history, are in module Shell.
 */
module Handlers {
  import opened Wrappers
  import opened Host
  import opened Registry
  import opened LineReader
  import opened Tokenizer

  /** What a handler hands back to the dispatcher: a status, or the
      termination of the whole process (exit(0) inside shell_exit). */
  datatype Step = Returned(status: int) | Terminate

  datatype Reply = Reply(step: Step, world: World)

  /** The status every handler returns on every path. */
  const Continue: Step := Returned(1)

  /** The arity guards, checked before any other effect. */
  predicate ArityError(b: Builtin, args: seq<string>) {
    match b
    case Cd => |args| > 1
    case Cp => |args| != 2
    case Mv => |args| != 2
    case Hs => args != []
    case Clrhs => args != []
    case Exit => args != []
    case Help => args != []
    case Df => args != []
    case Clear => args != []
    case _ => false
  }

  /** The message a guard writes to standard error. */
  function ArityDiag(b: Builtin): (d: Diag)
    ensures !d.ForkError? && d.cmd == Name(b)
  {
    if b == Cp || b == Mv then WrongNumberOfArguments(Name(b)) else TooManyArguments(Name(b))
  }

  /** The line a guard prints: "too many arguments", or "wrong number of
      arguments" for cp and mv, after the command name. */
  lemma ArityMessage(b: Builtin)
    ensures Message(ArityDiag(b)) ==
      Name(b) + (if b == Cp || b == Mv then ": wrong number of arguments" else ": too many arguments")
  {
  }

  /** Only standard error changes, by the guard's message. */
  function Refuse(b: Builtin, w: World): Reply {
    Reply(Continue, Report(w, ArityDiag(b)))
  }

  // ---------------------------------------------------------------------
  // cd, mv, help, df, clear, exit: decisions without loops

  /** shell_cd: with no argument go to $HOME, with one go there. chdir
      fails when the target is not a directory (or $HOME is unset). */
  function ChangeDir(args: seq<string>, w: World): (r: Reply)
    ensures r.step == Continue
    ensures r.world == w.(cwd := r.world.cwd, err := r.world.err)
    ensures ArityError(Cd, args) ==> r == Refuse(Cd, w)
    ensures !ArityError(Cd, args) ==>
      var target := if args == [] then w.home else Some(args[0]);
      if target.Some? && target.value in w.dirs
      then r.world == w.(cwd := target.value)
      else r.world == Report(w, OsError("cd"))
  {
    if |args| > 1 then Refuse(Cd, w)
    else
      var target := if args == [] then w.home else Some(args[0]);
      if target.Some? && target.value in w.dirs then Reply(Continue, w.(cwd := target.value))
      else Reply(Continue, Report(w, OsError("cd")))
  }

  /** shell_mv: rename a file. rename() fails unless the source is a file
      and the destination may be written. */
  function Move(args: seq<string>, w: World): (r: Reply)
    ensures r.step == Continue
    ensures r.world == w.(files := r.world.files, err := r.world.err)
    ensures ArityError(Mv, args) ==> r == Refuse(Mv, w)
    ensures !ArityError(Mv, args) && r.world.err == w.err ==>
      args[0] in w.files && args[1] in w.writable && args[1] in r.world.files && r.world.files[args[1]] == w.files[args[0]] &&
      (args[0] != args[1] ==> args[0] !in r.world.files) &&
      (forall p :: p != args[0] && p != args[1] ==>
         (p in r.world.files <==> p in w.files) && (p in w.files ==> r.world.files[p] == w.files[p]))
    ensures !ArityError(Mv, args) && r.world.err != w.err ==>
      r.world == Report(w, OsError("mv")) && (args[0] !in w.files || args[1] !in w.writable)
  {
    if |args| != 2 then Refuse(Mv, w)
    else
      var (src, dst) := (args[0], args[1]);
      if src in w.files && dst in w.writable then Reply(Continue, w.(files := (w.files - {src})[dst := w.files[src]]))
      else Reply(Continue, Report(w, OsError("mv")))
  }

  /** shell_help: print the usage summary. */
  function ShowHelp(args: seq<string>, w: World): (r: Reply)
    ensures r.step == Continue
    ensures ArityError(Help, args) ==> r == Refuse(Help, w)
    ensures !ArityError(Help, args) ==> r.world == Emit(w, HelpScreen)
  {
    if args != [] then Refuse(Help, w) else Reply(Continue, Emit(w, HelpScreen))
  }

  /** shell_df: report the bytes available on the root file system. */
  function DiskFree(args: seq<string>, w: World): (r: Reply)
    ensures r.step == Continue
    ensures ArityError(Df, args) ==> r == Refuse(Df, w)
    ensures !ArityError(Df, args) ==> r.world == Emit(w, DiskSpace(w.available))
  {
    if args != [] then Refuse(Df, w) else Reply(Continue, Emit(w, DiskSpace(w.available)))
  }

  /** shell_clear: clear the terminal. */
  function ClearTerminal(args: seq<string>, w: World): (r: Reply)
    ensures r.step == Continue
    ensures ArityError(Clear, args) ==> r == Refuse(Clear, w)
    ensures !ArityError(Clear, args) ==> r.world == Emit(w, ClearScreen)
  {
    if args != [] then Refuse(Clear, w) else Reply(Continue, Emit(w, ClearScreen))
  }

  /** shell_exit: terminate with status 0, unless given arguments. */
  function ExitShell(args: seq<string>, w: World): (r: Reply)
    ensures r.step == Terminate <==> args == []
    ensures args != [] ==> r == Refuse(Exit, w)
    ensures args == [] ==> r.world == w
  {
    if args != [] then Refuse(Exit, w) else Reply(Terminate, w)
  }

  // ---------------------------------------------------------------------
  // touch and cat: visit the files in order, stop at the first failure

  /** The number of leading names that belong to ok: how far a loop that
      stops at the first failure gets. */
  function Reach(names: seq<string>, ok: set<string>): (k: nat)
    ensures k <= |names|
    ensures forall i :: 0 <= i < k ==> names[i] in ok
    ensures k < |names| ==> names[k] !in ok
  {
    if names == [] || names[0] !in ok then 0 else 1 + Reach(names[1..], ok)
  }

  /** fopen(p, "a") then fclose: create p empty when absent. */
  function Create(w: World, p: string): World {
    if p in w.files then w else w.(files := w.files[p := []])
  }

  /** The specification of shell_touch. */
  function TouchAll(args: seq<string>, w: World): World
    decreases |args|
  {
    if args == [] then w
    else if args[0] !in w.writable then Report(w, OsError("touch"))
    else TouchAll(args[1..], Create(w, args[0]))
  }

  /** shell_touch: the loop over the file names. */
  method TouchFiles(args: seq<string>, w: World) returns (r: Reply)
    ensures r == Reply(Continue, TouchAll(args, w))
  {
    var cur := w;
    var i := 0;
    while i < |args|
      invariant 0 <= i <= |args|
      invariant cur.writable == w.writable
      invariant TouchAll(args[i..], cur) == TouchAll(args, w)
    {
      assert args[i..][1..] == args[i + 1..];
      var file := args[i];
      if file !in cur.writable {
        return Reply(Continue, Report(cur, OsError("touch")));
      }
      cur := Create(cur, file);
      i := i + 1;
    }
    r := Reply(Continue, cur);
  }

  /** touch visits the names up to the first one that cannot be opened:
      those are created if absent, no existing file changes, nothing else
      is created, and one error is reported exactly when it stopped early. */
  lemma {:induction false} TouchStopsAtFirstFailure(args: seq<string>, w: World)
    ensures var k := Reach(args, w.writable);
      var w' := TouchAll(args, w);
      w' == w.(files := w'.files, err := w'.err) &&
      (forall p :: p in w'.files <==> p in w.files || p in args[..k]) &&
      (forall p :: p in w.files ==> w'.files[p] == w.files[p]) &&
      (forall p :: p in w'.files && p !in w.files ==> w'.files[p] == []) &&
      w'.err == w.err + (if k < |args| then [OsError("touch")] else [])
    decreases |args|
  {
    if args != [] && args[0] in w.writable {
      var w1 := Create(w, args[0]);
      TouchStopsAtFirstFailure(args[1..], w1);
      var k := Reach(args, w.writable);
      assert Reach(args[1..], w1.writable) == k - 1;
      assert args[..k] == [args[0]] + args[1..][..k - 1];
    }
  }

  /** What cat prints for one file: its lines as getline yields them. */
  function CatText(content: seq<Byte>): string {
    Unlines(Lines(content))
  }

  /** cat reproduces the file, adding a newline if the last line lacks one. */
  lemma CatTextIsContent(content: seq<Byte>)
    ensures CatText(content) ==
      if content == [] || content[|content| - 1] == '\n' then content else content + "\n"
  {
    UnlinesLines(content);
  }

  /** What cat prints for one path that opened: a file's lines; nothing for
      a directory, which opens for reading but whose first getline fails. */
  function CatPrint(w: World, p: string): World {
    if p in w.files then Emit(w, Text(CatText(w.files[p]))) else w
  }

  /** The specification of shell_cat. */
  function CatAll(args: seq<string>, w: World): World
    decreases |args|
  {
    if args == [] then w
    else if !Exists(w, args[0]) then Report(w, OsError("cat"))
    else CatAll(args[1..], CatPrint(w, args[0]))
  }

  /** shell_cat: the loop over the file names. */
  method CatFiles(args: seq<string>, w: World) returns (r: Reply)
    ensures r == Reply(Continue, CatAll(args, w))
  {
    var cur := w;
    var i := 0;
    while i < |args|
      invariant 0 <= i <= |args|
      invariant cur.files == w.files && cur.dirs == w.dirs
      invariant CatAll(args[i..], cur) == CatAll(args, w)
    {
      assert args[i..][1..] == args[i + 1..];
      var file := args[i];
      if !Exists(cur, file) {
        return Reply(Continue, Report(cur, OsError("cat")));
      }
      if file in cur.files {
        cur := Emit(cur, Text(CatText(cur.files[file])));
      }
      i := i + 1;
    }
    r := Reply(Continue, cur);
  }

  /** The output cat produces for paths that all open: the text of each
      file, in order; a directory adds nothing. */
  function CatOutputs(names: seq<string>, files: map<string, seq<Byte>>): seq<Output> {
    if names == [] then []
    else (if names[0] in files then [Text(CatText(files[names[0]]))] else []) + CatOutputs(names[1..], files)
  }

  /** cat prints the files up to the first path that cannot be opened, in
      order, skips directories silently, changes no file, and reports one
      error exactly when it stopped early. */
  lemma {:induction false} CatStopsAtFirstFailure(args: seq<string>, w: World)
    ensures var k := Reach(args, Readable(w));
      var w' := CatAll(args, w);
      w' == w.(out := w'.out, err := w'.err) &&
      w'.out == w.out + CatOutputs(args[..k], w.files) &&
      w'.err == w.err + (if k < |args| then [OsError("cat")] else [])
    decreases |args|
  {
    var k := Reach(args, Readable(w));
    if args != [] && Exists(w, args[0]) {
      var w1 := CatPrint(w, args[0]);
      CatStopsAtFirstFailure(args[1..], w1);
      assert Readable(w1) == Readable(w);
      assert Reach(args[1..], Readable(w1)) == k - 1;
      assert args[..k][1..] == args[1..][..k - 1];
    } else {
      assert args[..k] == [];
    }
  }

  // ---------------------------------------------------------------------
  // echo

  /** Every argument followed by one space. */
  function EchoWords(args: seq<string>): string {
    if args == [] then [] else args[0] + " " + EchoWords(args[1..])
  }

  /** What echo prints: each argument and a space, then a newline. */
  function EchoText(args: seq<string>): string {
    EchoWords(args) + "\n"
  }

  /** Each argument comes out exactly once, in order: re-tokenizing what
      echo printed before its newline gives back the arguments. */
  lemma {:induction false} EchoRetokenizes(args: seq<string>)
    requires AllWords(args)
    ensures Split(EchoWords(args)) == args
    decreases |args|
  {
    if args != [] {
      EchoRetokenizes(args[1..]);
      SplitAtDelim(args[0], EchoWords(args[1..]));
      SplitWord(args[0]);
    }
  }

  /** shell_echo: the loop over the arguments. */
  method EchoArgs(args: seq<string>, w: World) returns (r: Reply)
    ensures r == Reply(Continue, Emit(w, Text(EchoText(args))))
  {
    var text: string := [];
    var i := 0;
    while i < |args|
      invariant 0 <= i <= |args|
      invariant text + EchoWords(args[i..]) == EchoWords(args)
    {
      assert args[i..][1..] == args[i + 1..];
      text := text + args[i] + " ";
      i := i + 1;
    }
    assert args[i..] == [] && text + [] == text;
    r := Reply(Continue, Emit(w, Text(text + "\n")));
  }

  // ---------------------------------------------------------------------
  // ls

  /** readdir over the entries of one directory: skip "." and "..", stat
      each other entry (prefix + name), print it marked as directory or
      file, and abort at the first entry stat cannot inspect. */
  function ListFrom(prefix: string, names: seq<string>, w: World): World
    decreases |names|
  {
    if names == [] then Emit(w, Text("\n"))
    else if names[0] == "." || names[0] == ".." then ListFrom(prefix, names[1..], w)
    else
      var path := prefix + names[0];
      if !Exists(w, path) then Report(w, OsError("ls"))
      else ListFrom(prefix, names[1..], Emit(w, Listed(names[0], path in w.dirs)))
  }

  /** The specification of shell_ls: the directory is "." or the first
      argument; any further arguments are ignored. */
  function ListAll(args: seq<string>, w: World): World {
    var dir := if args == [] then "." else args[0];
    if dir !in w.dirs then Report(w, OsError("ls"))
    else ListFrom(if args == [] then "" else args[0] + "/", w.dirs[dir], w)
  }

  /** shell_ls: the readdir loop. */
  method List(args: seq<string>, w: World) returns (r: Reply)
    ensures r == Reply(Continue, ListAll(args, w))
  {
    var dir := if args == [] then "." else args[0];
    if dir !in w.dirs {
      return Reply(Continue, Report(w, OsError("ls")));
    }
    var prefix := if args == [] then "" else args[0] + "/";
    var entries := w.dirs[dir];
    var cur := w;
    var i := 0;
    while i < |entries|
      invariant 0 <= i <= |entries|
      invariant cur.files == w.files && cur.dirs == w.dirs
      invariant ListFrom(prefix, entries[i..], cur) == ListAll(args, w)
    {
      assert entries[i..][1..] == entries[i + 1..];
      var name := entries[i];
      i := i + 1;
      if name != "." && name != ".." {
        var path := prefix + name;
        if !Exists(cur, path) {
          return Reply(Continue, Report(cur, OsError("ls")));
        }
        cur := Emit(cur, Listed(name, path in cur.dirs));
      }
    }
    r := Reply(Continue, Emit(cur, Text("\n")));
  }

  /** ls changes nothing but the two output streams, never lists "." or
      "..", and reports at most one error. */
  lemma {:induction false} ListOnlyPrints(prefix: string, names: seq<string>, w: World)
    ensures var w' := ListFrom(prefix, names, w);
      w' == w.(out := w'.out, err := w'.err) &&
      |w.out| <= |w'.out| && w'.out[..|w.out|] == w.out &&
      (forall i :: |w.out| <= i < |w'.out| && w'.out[i].Listed? ==>
         w'.out[i].name in names && w'.out[i].name != "." && w'.out[i].name != "..") &&
      (w'.err == w.err || w'.err == w.err + [OsError("ls")])
    decreases |names|
  {
    if names != [] {
      var w1 := if names[0] == "." || names[0] == ".." then w else Emit(w, Listed(names[0], prefix + names[0] in w.dirs));
      if names[0] == "." || names[0] == ".." || Exists(w, prefix + names[0]) {
        ListOnlyPrints(prefix, names[1..], w1);
        var w' := ListFrom(prefix, names, w);
        assert w'.out[..|w1.out|] == w1.out;
        forall i | |w.out| <= i < |w'.out| && w'.out[i].Listed?
          ensures w'.out[i].name in names && w'.out[i].name != "." && w'.out[i].name != ".."
        {
          if i < |w1.out| {
            assert w'.out[i] == w1.out[i];
          } else {
            assert w'.out[i].name in names[1..];
          }
        }
      }
    }
  }

  // ---------------------------------------------------------------------
  // cp

  const ChunkSize: nat := 4096

  /** fread(buffer, 1, buffer.Length, src) at read position pos. */
  method ReadChunk(buffer: array<Byte>, src: seq<Byte>, pos: nat) returns (n: nat)
    requires pos <= |src|
    modifies buffer
    ensures n == if |src| - pos < buffer.Length then |src| - pos else buffer.Length
    ensures buffer[..n] == src[pos..pos + n]
  {
    n := if |src| - pos < buffer.Length then |src| - pos else buffer.Length;
    var j := 0;
    while j < n
      invariant 0 <= j <= n
      invariant buffer[..j] == src[pos..pos + j]
    {
      buffer[j] := src[pos + j];
      j := j + 1;
      assert buffer[..j] == buffer[..j - 1] + [buffer[j - 1]];
    }
  }

  /** The fread/fwrite loop of shell_cp: copy through a 4096-byte buffer
      until a read returns nothing. */
  method CopyStream(src: seq<Byte>) returns (dst: seq<Byte>)
    ensures dst == src
  {
    var buffer := new Byte[ChunkSize];
    dst := [];
    var pos: nat := 0;
    var n := ReadChunk(buffer, src, pos);
    while n > 0
      invariant 0 <= pos <= pos + n <= |src| && n <= buffer.Length
      invariant dst == src[..pos]
      invariant buffer[..n] == src[pos..pos + n]
      invariant n == 0 ==> pos == |src|
      decreases |src| - pos
    {
      dst := dst + buffer[..n];
      pos := pos + n;
      n := ReadChunk(buffer, src, pos);
    }
    assert src[..pos] == src;
  }

  /** The specification of shell_cp. The destination is opened (created or
      truncated) only after the source opened, and the copy reads the source
      as it is after that truncation. A directory opens for reading but
      yields no byte, so copying one leaves the destination empty. */
  function CopyFile(args: seq<string>, w: World): World {
    if |args| != 2 then Refuse(Cp, w).world
    else if !Exists(w, args[0]) then Report(w, OsError("cp"))
    else if args[1] !in w.writable then Report(w, OsError("cp"))
    else
      var truncated := w.files[args[1] := []];
      var bytes := if args[0] in truncated then truncated[args[0]] else [];
      w.(files := truncated[args[1] := bytes])
  }

  /** shell_cp. */
  method Copy(args: seq<string>, w: World) returns (r: Reply)
    ensures r == Reply(Continue, CopyFile(args, w))
  {
    if |args| != 2 {
      return Refuse(Cp, w);
    }
    var src, dst := args[0], args[1];
    if !Exists(w, src) {
      return Reply(Continue, Report(w, OsError("cp")));
    }
    if dst !in w.writable {
      return Reply(Continue, Report(w, OsError("cp")));
    }
    var truncated := w.files[dst := []];
    var source := if src in truncated then truncated[src] else [];
    var bytes := CopyStream(source);
    r := Reply(Continue, w.(files := truncated[dst := bytes]));
  }

  /** cp src dst with a source that cannot be opened: the destination is
      neither created nor changed; only the error is reported. */
  lemma CopyWithoutSource(args: seq<string>, w: World)
    requires |args| == 2 && !Exists(w, args[0])
    ensures CopyFile(args, w) == Report(w, OsError("cp"))
    ensures CopyFile(args, w).files == w.files
  {
  }

  /** cp src dst with both files opened: dst holds exactly the bytes of
      src, and no other file changes. */
  lemma CopyCopies(args: seq<string>, w: World)
    requires |args| == 2 && args[0] != args[1]
    requires args[0] in w.files && args[1] in w.writable
    ensures var w' := CopyFile(args, w);
      w' == w.(files := w'.files) &&
      args[1] in w'.files && w'.files[args[1]] == w.files[args[0]] &&
      forall p :: p != args[1] ==> (p in w'.files <==> p in w.files) && (p in w.files ==> w'.files[p] == w.files[p])
  {
  }

  /** cp d dst with d a directory: fread yields nothing at once, so dst is
      created or truncated empty and no error is reported. */
  lemma CopyFromDirectoryEmpties(args: seq<string>, w: World)
    requires |args| == 2 && args[0] != args[1]
    requires args[0] in w.dirs && args[0] !in w.files && args[1] in w.writable
    ensures CopyFile(args, w) == w.(files := w.files[args[1] := []])
  {
  }

  /** cp f f truncates f before reading it, so f ends up empty. */
  lemma CopyOntoItselfEmpties(args: seq<string>, w: World)
    requires |args| == 2 && args[0] == args[1]
    requires args[0] in w.files && args[1] in w.writable
    ensures CopyFile(args, w).files == w.files[args[0] := []]
  {
  }
}
