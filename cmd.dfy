/** cmd/takt/cmd.go: the command of the middle revision. Its runner holds the task
    file path, which defaults to ".takt.yaml" and which the --file (-f) flag
    overrides; running it loads the file, builds the graph with pkg/task's FromTakt,
    labels every unit and runs them all; the command classifies what the runner
    returns the way the interrupt wrapper does. */
module Command {
  import opened TaktTypes
  import opened Wiring
  import opened Mailboxes
  import TaskOperations
  import Operations
  import opened Scheduler
  import opened Pipeline
  import opened Interrupts
  import opened Presentation

  const DefaultTaktfile: string := ".takt.yaml"

  /** taktRunner. Its output streams are not part of the model. */
  class TaktRunner {
    var taktfilePath: string

    /** The runner newCmd starts from: the default path. */
    constructor()
      ensures taktfilePath == DefaultTaktfile
    {
      taktfilePath := DefaultTaktfile;
    }

    /** What the --file/-f flag binding does when the flag is given. */
    method SetFile(path: string)
      modifies this
      ensures taktfilePath == path
    {
      taktfilePath := path;
    }

    /** taktRunner.Run: load the file at the path (there is no check for an empty
        path here: opening it fails), build the graph, label every unit, run them all
        and wait. `prefixes` and `colors` are what each unit's logger is given. */
    method Run(fs: string -> Loaded, order: seq<string>, mapOrder: seq<string>,
               sched: seq<nat>, ghost pos: seq<nat>, exec: seq<Option<StepError>>, hash: string -> uint32)
      returns (err: Option<Error>, prefixes: seq<string>, colors: seq<Color>)
      requires fs(taktfilePath).Parsed? ==> Plan(fs(taktfilePath).takt, order, mapOrder, sched, pos, exec)
      ensures Outcomes(fs(taktfilePath), order, exec, err)
      ensures prefixes == [] || (|prefixes| == |order| && forall i :: 0 <= i < |order| ==> prefixes[i] == Prefix(order[i], MaxLen(order)))
      ensures |colors| == |prefixes| && forall i :: 0 <= i < |colors| ==> colors[i] == DetermineColor(hash, order[i])
    {
      prefixes, colors := [], [];
      match fs(taktfilePath)
      case OpenFailed(reason) =>
        err := Some(Wrapped("failed to open file", LoadFailed(reason)));
      case ParseFailed(reason) =>
        err := Some(LoadFailed(reason));
      case Parsed(takt) =>
        var ops, made;
        ops, err, made := Build(takt, order, mapOrder);
        if err.None? {
          prefixes, colors := Labels(order, hash);
          ghost var outcomes;
          err, outcomes := RunWired(ops, order, DependsIn(takt, order), mapOrder, made, sched, pos, exec);
        }
    }
  }

  /** task.FromTakt(*takt) over fresh channels, with what it builds stated by name. */
  method Build(takt: Takt, order: seq<string>, mapOrder: seq<string>)
    returns (ops: seq<Operations.Operation>, err: Option<Error>, made: nat)
    requires NoDup(order) && (forall k :: k in order <==> k in takt) && IsOrderOf(mapOrder, order)
    ensures err.Some? <==> TaskOperations.Unknown(takt)
    ensures err.Some? ==> err == Some(Wrapped("failed to resolve dependencies", TaskNotFound))
    ensures err.None? ==>
      && Operations.Names(ops) == order && Operations.Dependencies(ops) == DependsIn(takt, order)
      && Wired(Operations.Statuses(ops), order, DependsIn(takt, order), mapOrder, 0, made)
  {
    var channels := new Channels();
    ops, err := TaskOperations.FromTakt(takt, order, mapOrder, channels);
    made := channels.made;
    if err.None? {
      assert Operations.Names(ops) == order && Operations.Dependencies(ops) == DependsIn(takt, order) by {
        forall i | 0 <= i < |ops| ensures ops[i].task.depends == takt[order[i]].depends {
          assert ops[i].name == order[i];
        }
      }
    }
  }

  /** newCmd and its RunE: a runner with the default path, the flag's value put in
      its place when the flag is given, and the runner's result classified. */
  method Execute(fileFlag: Option<string>, fs: string -> Loaded, order: seq<string>, mapOrder: seq<string>,
                 sched: seq<nat>, ghost pos: seq<nat>, exec: seq<Option<StepError>>, hash: string -> uint32)
    returns (err: Option<Error>, ghost inner: Option<Error>)
    requires var path := if fileFlag.Some? then fileFlag.value else DefaultTaktfile;
      fs(path).Parsed? ==> Plan(fs(path).takt, order, mapOrder, sched, pos, exec)
    ensures var path := if fileFlag.Some? then fileFlag.value else DefaultTaktfile;
      Outcomes(fs(path), order, exec, inner)
    ensures err == Classify(inner)
  {
    var runner := new TaktRunner();
    if fileFlag.Some? {
      runner.SetFile(fileFlag.value);
    }
    var result, prefixes, colors := runner.Run(fs, order, mapOrder, sched, pos, exec, hash);
    inner := result;
    err := Classify(result);
  }
}
