/**
 * The operating system the shell runs on, seen as a value.
 *
 * Every system call the shell makes (fopen, chdir, rename, opendir, stat,
 * getenv, the free-space query, process creation) is answered from this
 * state, and everything the shell writes to its standard streams is
 * appended to it. Directories open for reading like files, but yield no
 * byte. Paths are opaque keys: the model does not resolve
 * relative paths, links or permissions beyond what the sets below say.
 */
module Host {
  import opened Wrappers

  /** One byte of a file; a C `char` is modelled as a Dafny `char` below 256. */
  type Byte = c: char | c as int < 256 witness 'a'

  /** What reaches standard output. Text is literal; the rest stand for
      cosmetic output whose exact characters are not modelled. */
  datatype Output =
    | Text(text: string)
    | Listed(name: string, isDir: bool)   // one `ls` entry (column layout and colour left out)
    | HelpScreen                          // the static text of `help`
    | ClearScreen                         // the escape sequence of `clear`
    | DiskSpace(bytes: nat)               // the report of `df`

  /** What reaches standard error. */
  datatype Diag =
    | TooManyArguments(cmd: string)
    | WrongNumberOfArguments(cmd: string)
    | OsError(cmd: string)                // `<cmd>: ` followed by strerror(errno)
    | ForkError

  /** The text of a diagnostic line; the strerror text of an OsError is not modelled. */
  function Message(d: Diag): (m: string)
    ensures d.ForkError? ==> m == "fork error"
    ensures !d.ForkError? ==> |m| >= |d.cmd| + 2 && m[..|d.cmd| + 2] == d.cmd + ": "
  {
    match d
    case TooManyArguments(cmd) => cmd + ": too many arguments"
    case WrongNumberOfArguments(cmd) => cmd + ": wrong number of arguments"
    case OsError(cmd) => cmd + ": "
    case ForkError => "fork error"
  }

  datatype World = World(
    files: map<string, seq<Byte>>,    // regular files that can be opened for reading, with their bytes
    dirs: map<string, seq<string>>,   // directories, with the names readdir yields (including "." and "..")
    writable: set<string>,            // paths that fopen may open for writing or appending
    cwd: string,                      // the working directory
    home: Option<string>,             // getenv("HOME")
    available: nat,                   // free bytes on the root file system
    out: seq<Output>,                 // standard output so far
    err: seq<Diag>,                   // standard error so far
    launched: seq<seq<string>>)       // argument vectors of the child processes created so far

  function Emit(w: World, o: Output): World {
    w.(out := w.out + [o])
  }

  function Report(w: World, d: Diag): World {
    w.(err := w.err + [d])
  }

  /** The paths that open for reading: the files, and the directories too
      (opening a directory read-only succeeds; reading from it yields nothing). */
  function Readable(w: World): set<string> {
    w.files.Keys + w.dirs.Keys
  }

  /** stat() succeeds on every path that opens for reading. */
  predicate Exists(w: World, path: string) {
    path in Readable(w)
  }
}
