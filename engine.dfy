/** pkg/engine: the runner behind the command in its latest revision (engine.go) and
    the wrapper that turns an interrupt into a clean stop (wrapper.go). */
module Engine {
  import opened TaktTypes
  import opened Wiring
  import opened Mailboxes
  import opened OptionFold
  import Operations
  import TaskOperations
  import opened Scheduler
  import opened Pipeline
  import opened Interrupts
  import opened Presentation

  // ---------------------------------------------------------------------------
  // Options

  /** The engine's `option` struct. */
  datatype EngineSettings = EngineSettings(taktfilePath: string, tagOnlyList: seq<string>)

  /** An engine `Option`: a change to the settings. */
  type EngineOption = EngineSettings -> EngineSettings

  /** WithOnlyTags(): no tags gives the option that changes nothing; otherwise the
      option replaces the tag list and leaves the file path alone. */
  function WithOnlyTags(tags: seq<string>): (r: EngineOption)
    ensures |tags| == 0 ==> forall o :: r(o) == o
    ensures |tags| > 0 ==> forall o :: r(o).tagOnlyList == tags && r(o).taktfilePath == o.taktfilePath
  {
    if |tags| == 0 then (o: EngineSettings) => o else (o: EngineSettings) => o.(tagOnlyList := tags)
  }

  /** The settings Run works with: every option applied in order to the zero value. */
  ghost function EngineSettingsOf(opts: seq<EngineOption>): EngineSettings {
    ApplyAll(EngineSettings("", []), opts)
  }

  /** Options that never touch the file path (tag options among them) leave it
      empty, so a runner given only those reports that no file is configured. */
  lemma {:induction false} NoPathOptions(opts: seq<EngineOption>)
    requires forall j, o :: 0 <= j < |opts| ==> opts[j](o).taktfilePath == o.taktfilePath
    ensures EngineSettingsOf(opts).taktfilePath == ""
    decreases |opts|
  {
    if opts != [] {
      NoPathOptions(opts[..|opts| - 1]);
    }
  }

  /** What the engine runner returns: the missing-path error for an empty path, and
      otherwise what the file at the path comes to. The tag list plays no part. */
  ghost predicate EngineBehaves(opts: seq<EngineOption>, fs: string -> Loaded, order: seq<string>,
                                exec: seq<Option<StepError>>, err: Option<Error>)
  {
    var path := EngineSettingsOf(opts).taktfilePath;
    if path == "" then err == Some(NoTaktFilePath) else Outcomes(fs(path), order, exec, err)
  }

  /** The parameters a run takes once the path is set and the file parses. */
  ghost predicate EnginePlan(opts: seq<EngineOption>, fs: string -> Loaded, order: seq<string>, mapOrder: seq<string>,
                             sched: seq<nat>, pos: seq<nat>, exec: seq<Option<StepError>>)
  {
    var path := EngineSettingsOf(opts).taktfilePath;
    path != "" && fs(path).Parsed? ==> Plan(fs(path).takt, order, mapOrder, sched, pos, exec)
  }

  // ---------------------------------------------------------------------------
  // runner.Run

  /** The loggers were given nothing, or one label per task in `order`: the padded
      name and the colour of its hash. */
  ghost predicate Labelled(order: seq<string>, hash: string -> uint32, prefixes: seq<string>, colors: seq<Color>) {
    && |prefixes| == |colors|
    && (prefixes == [] || |prefixes| == |order|)
    && forall i :: 0 <= i < |prefixes| ==>
         i < |order| && prefixes[i] == Prefix(order[i], MaxLen(order)) && colors[i] == DetermineColor(hash, order[i])
  }

  /** runner.Run: fold the options; refuse an empty path before touching the file
      system (`fs` is not consulted then); load the file; build the graph with
      operation.FromTakt, passing no option, so every task is built whatever tags
      were asked for; label every operation; run them all and wait. `prefixes` and
      `colors` are what each operation's logger is given. */
  method Run(opts: seq<EngineOption>, fs: string -> Loaded, order: seq<string>, mapOrder: seq<string>,
             sched: seq<nat>, ghost pos: seq<nat>, exec: seq<Option<StepError>>, hash: string -> uint32)
    returns (err: Option<Error>, prefixes: seq<string>, colors: seq<Color>)
    requires EnginePlan(opts, fs, order, mapOrder, sched, pos, exec)
    ensures EngineBehaves(opts, fs, order, exec, err)
    ensures Labelled(order, hash, prefixes, colors)
  {
    var o := Fold(EngineSettings("", []), opts);
    prefixes, colors := [], [];
    if o.taktfilePath == "" {
      err := Some(NoTaktFilePath);
    } else {
      match fs(o.taktfilePath)
      case OpenFailed(reason) =>
        err := Some(Wrapped("failed to open file", LoadFailed(reason)));
      case ParseFailed(reason) =>
        err := Some(LoadFailed(reason));
      case Parsed(takt) =>
        err, prefixes, colors := RunParsed(takt, order, mapOrder, sched, pos, exec, hash);
    }
  }

  /** The part of Run after the file parsed. */
  method RunParsed(takt: Takt, order: seq<string>, mapOrder: seq<string>,
                   sched: seq<nat>, ghost pos: seq<nat>, exec: seq<Option<StepError>>, hash: string -> uint32)
    returns (err: Option<Error>, prefixes: seq<string>, colors: seq<Color>)
    requires Plan(takt, order, mapOrder, sched, pos, exec)
    ensures Outcomes(Parsed(takt), order, exec, err)
    ensures Labelled(order, hash, prefixes, colors)
  {
    var ops, made;
    ops, err, made := Build(takt, order, mapOrder);
    if err.Some? {
      return err, [], [];
    }
    prefixes, colors := Labels(order, hash);
    ghost var outcomes;
    err, outcomes := RunWired(ops, order, DependsIn(takt, order), mapOrder, made, sched, pos, exec);
  }

  /** operation.FromTakt(*takt) with no option, over fresh channels: the error iff
      some task names a task the file does not have; otherwise one operation per
      task in `order`, wired by the names they declare. */
  method Build(takt: Takt, order: seq<string>, mapOrder: seq<string>)
    returns (ops: seq<Operations.Operation>, err: Option<Error>, made: nat)
    requires NoDup(order) && (forall k :: k in order <==> k in takt) && IsOrderOf(mapOrder, order)
    ensures err.Some? <==> TaskOperations.Unknown(takt)
    ensures err.Some? ==> err == Some(Wrapped("failed to resolve dependencies", TaskNotFound))
    ensures err.None? ==>
      && Operations.Names(ops) == order && Operations.Dependencies(ops) == DependsIn(takt, order)
      && Wired(Operations.Statuses(ops), order, DependsIn(takt, order), mapOrder, 0, made)
  {
    var channels := new Channels();
    ghost var kept := Operations.KeptNames(takt, order, Operations.SettingsOf([]));
    assert kept == order by {
      assert Operations.SettingsOf([]) == Operations.Settings([]);
      TaskOperations.NoFilterKeepsAll(takt, order);
    }
    assert Operations.Dangling(takt, Operations.SettingsOf([])) <==> TaskOperations.Unknown(takt) by {
      assert Operations.SettingsOf([]) == Operations.Settings([]);
      TaskOperations.NoFilterDangling(takt);
    }
    ops, err := Operations.FromTakt(takt, order, mapOrder, [], channels);
    made := channels.made;
    if err.None? {
      assert Operations.Names(ops) == order && Operations.Dependencies(ops) == DependsIn(takt, order) by {
        forall i | 0 <= i < |ops| ensures ops[i].task.depends == takt[order[i]].depends {
          assert ops[i].name == order[i];
        }
      }
    }
  }

  // ---------------------------------------------------------------------------
  // wrapper.go

  /** The implementations of the Runner interface: the engine's runner, and the
      wrapper around another runner. */
  datatype Runner = EngineRunner | Interrupting(original: Runner)

  /** WrapInterrupt(r): a runner whose `original` is r itself. */
  function WrapInterrupt(r: Runner): (w: Runner)
    ensures w.Interrupting? && w.original == r
  {
    Interrupting(r)
  }

  /** What a runner returns when run with `opts`: the engine's result, or the
      classification of what the original runner returns with the same options. */
  ghost predicate Behaves(r: Runner, opts: seq<EngineOption>, fs: string -> Loaded, order: seq<string>,
                          exec: seq<Option<StepError>>, err: Option<Error>)
    decreases r
  {
    match r
    case EngineRunner => EngineBehaves(opts, fs, order, exec, err)
    case Interrupting(original) => exists inner :: Behaves(original, opts, fs, order, exec, inner) && err == Classify(inner)
  }

  /** Runner.Run on either implementation. wrappedRunner.Run hands the caller's
      options to the original runner unchanged and classifies its error. */
  method RunRunner(r: Runner, opts: seq<EngineOption>, fs: string -> Loaded, order: seq<string>, mapOrder: seq<string>,
                   sched: seq<nat>, ghost pos: seq<nat>, exec: seq<Option<StepError>>, hash: string -> uint32)
    returns (err: Option<Error>)
    requires EnginePlan(opts, fs, order, mapOrder, sched, pos, exec)
    ensures Behaves(r, opts, fs, order, exec, err)
    decreases r
  {
    match r
    case EngineRunner =>
      var prefixes, colors;
      err, prefixes, colors := Run(opts, fs, order, mapOrder, sched, pos, exec, hash);
    case Interrupting(original) =>
      var inner := RunRunner(original, opts, fs, order, mapOrder, sched, pos, exec, hash);
      err := Classify(inner);
  }
}
