/** How a child process started with `subprocess.run(..., capture_output=True,
    text=True, timeout=...)` can end, as the scripts see it. */
module Subprocess {

  /** It exits with a return code and its captured output, it runs past
      its time limit (`TimeoutExpired`), or it cannot be started (the
      exception's text, e.g. when the program is not installed). */
  datatype ProcessOutcome =
    | Exited(code: int, stdout: string, stderr: string)
    | TimedOut
    | LaunchFailed(message: string)
}
