/**
 * shellLaunch: fork, execvp in the child, waitpid in the parent.
 * Process creation is an oracle: the caller supplies what the OS does
 * with this argument vector, and the model maps it to the status the
 * launcher returns.
 */
module Launcher {
  import opened Host

  /** What happens to a launch request. */
  datatype ChildOutcome =
    | ForkFailed              // fork() returned a negative pid
    | ExecFailed              // execvp() returned in the child, which then abort()s
    | Exited(code: int)       // the program called exit(code)
    | Signalled               // the program was killed by a signal

  /** The failure sentinel of shellLaunch. */
  const LaunchFailed: int := -1

  /** What waitpid reports to the parent: WEXITSTATUS keeps the low 8 bits
      of the exit code; a child that did not exit normally (abort() after a
      failed execvp included) yields the sentinel. */
  function WaitStatus(child: ChildOutcome): (status: int)
    requires !child.ForkFailed?
    ensures status == LaunchFailed <==> !child.Exited?
    ensures child.Exited? ==> 0 <= status < 256
  {
    match child
    case Exited(code) => code % 256
    case ExecFailed => LaunchFailed
    case Signalled => LaunchFailed
  }

  /** shellLaunch on argument vector argv: the status it returns and the
      world afterwards. A child process exists unless fork failed. */
  function Launch(argv: seq<string>, child: ChildOutcome, w: World): (r: (int, World))
    ensures r.0 == LaunchFailed <==> !child.Exited?
    ensures child.Exited? ==> 0 <= r.0 < 256 && (child.code - r.0) % 256 == 0
    ensures child.ForkFailed? ==> r.1 == Report(w, ForkError)
    ensures !child.ForkFailed? ==> r.1 == w.(launched := w.launched + [argv])
  {
    if child.ForkFailed? then (LaunchFailed, Report(w, ForkError))
    else (WaitStatus(child), w.(launched := w.launched + [argv]))
  }

  /** A program that exits with status 255 (or with -1, which the kernel
      truncates to 255) is not reported as a launch failure: the sentinel
      -1 lies outside the range of WEXITSTATUS. */
  lemma ExitStatus255IsNotFailure(argv: seq<string>, w: World, code: int)
    requires code == 255 || code == -1
    ensures Launch(argv, Exited(code), w).0 == 255 != LaunchFailed
  {
  }
}
