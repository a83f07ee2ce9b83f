/** What both runners do once they know which file to read (pkg/engine/engine.go
    Run after the path check, cmd/takt/cmd.go taktRunner.Run): open and parse the
    file, build the graph, label every unit, run them all and wait. Opening and
    parsing are the parameter `Loaded`; the map iteration orders, the completion
    order and the step results are parameters as in the build and the scheduler. */
module Pipeline {
  import opened TaktTypes
  import opened Wiring
  import opened Scheduler
  import opened TaskOperations

  /** What opening and parsing the task file gave. */
  datatype Loaded = OpenFailed(reason: string) | ParseFailed(reason: string) | Parsed(takt: Takt)

  /** The declared dependency names of the tasks, listed in `order`. */
  function DependsIn(takt: Takt, order: seq<string>): (r: seq<seq<string>>)
    requires forall k :: k in order ==> k in takt
    ensures |r| == |order| && forall i :: 0 <= i < |order| ==> r[i] == takt[order[i]].depends
  {
    seq(|order|, i requires 0 <= i < |order| => takt[order[i]].depends)
  }

  /** The parameters a run over `takt` takes: `order` visits the file's map once per
      task, `mapOrder` visits the name map, one step result per task, and when the
      graph is complete a completion order in which every task follows the tasks it
      names (the only order in which the blocking receives let the units complete). */
  ghost predicate Plan(takt: Takt, order: seq<string>, mapOrder: seq<string>, sched: seq<nat>, pos: seq<nat>,
                       exec: seq<Option<StepError>>)
  {
    && NoDup(order) && (forall k :: k in order <==> k in takt)
    && IsOrderOf(mapOrder, order)
    && |exec| == |order|
    && Schedule(|order|, sched, pos)
    && (!Unknown(takt) ==> NamedBefore(order, DependsIn(takt, order), pos))
  }

  /** What the runner returns for a loaded file: the open error wrapped in "failed to
      open file", the parse error as it is, the unknown-dependency error wrapped in
      "failed to resolve dependencies", or the join of a run of every task. */
  ghost predicate Outcomes(loaded: Loaded, order: seq<string>, exec: seq<Option<StepError>>, err: Option<Error>) {
    match loaded
    case OpenFailed(reason) => err == Some(Wrapped("failed to open file", LoadFailed(reason)))
    case ParseFailed(reason) => err == Some(LoadFailed(reason))
    case Parsed(takt) =>
      if Unknown(takt) then err == Some(Wrapped("failed to resolve dependencies", TaskNotFound))
      else
        && (forall k :: k in order ==> k in takt) && |exec| == |order|
        && exists outcomes :: Ran(order, DependsIn(takt, order), exec, outcomes, err)
  }
}
