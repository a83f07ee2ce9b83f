/** Values shared by every revision of the takt engine: task definitions as the
    task-file loader hands them over, the errors the engine returns, and the
    completion notification that flows along each dependency edge. */
module TaktTypes {

  datatype Option<+T> = None | Some(value: T)

  /** One task of a takt file. The loader (not part of this model) fills it in. */
  datatype TaskDef = TaskDef(steps: seq<string>, depends: seq<string>, tags: seq<string>)

  /** A takt file: task name to task definition. */
  type Takt = map<string, TaskDef>

  /** What the process step runner can report. An exit status carries whether the
      process was terminated by a signal. */
  datatype StepError = ExitStatus(signaled: bool, code: int) | StartFailed(reason: string)

  /** Errors of the engine. `Wrapped` is errors.Wrap from github.com/pkg/errors. */
  datatype Error =
    | StepFailed(cause: StepError)
    | DependencyNotFulfilled
    | TaskNotFound
    | NoTaktFilePath
    | LoadFailed(reason: string)
    | Wrapped(msg: string, inner: Error)

  /** errors.Wrap keeps nil as nil and wraps anything else. */
  function Wrap(err: Option<Error>, msg: string): (r: Option<Error>)
    ensures r.None? <==> err.None?
    ensures r.Some? ==> r.value == Wrapped(msg, err.value)
  {
    match err
    case None => None
    case Some(e) => Some(Wrapped(msg, e))
  }

  /** The message a finished unit sends to each of its dependents. */
  datatype Notification = Notification(ok: bool, name: string)

  /** How a unit settled: skipped because a dependency did not succeed, or ran its
      steps and succeeded or failed. */
  datatype Outcome = Skipped | Succeeded | Failed(err: StepError)

  predicate NoDup<T(==)>(s: seq<T>) {
    forall i, j :: 0 <= i < j < |s| ==> s[i] != s[j]
  }
}
