/** What the command and the engine's interrupt wrapper make of the error the wrapped
    runner returns (cmd/takt/cmd.go wrapInterrupt, pkg/engine/wrapper.go Run): a
    process that a signal ended is the user's interrupt and counts as a clean stop;
    anything else is wrapped. */
module Interrupts {
  import opened TaktTypes

  /** The error is an *execx.ExitStatus whose process was ended by a signal. Only the
      step error itself has that dynamic type; a wrapped one does not. */
  predicate Signalled(err: Option<Error>) {
    err.Some? && err.value.StepFailed? && err.value.cause.ExitStatus? && err.value.cause.signaled
  }

  /** nil for nil and for a signalled exit; every other error comes back wrapped in
      "runner exited with error", and unwrapping it gives the runner's error back. */
  function Classify(err: Option<Error>): (r: Option<Error>)
    ensures r.None? <==> err.None? || Signalled(err)
    ensures r.Some? ==> r.value.Wrapped? && r.value.msg == "runner exited with error" && r.value.inner == err.value
  {
    if Signalled(err) then None else Wrap(err, "runner exited with error")
  }
}
