# takt's dependency engine, modelled in Dafny

takt is a task runner. A task file names tasks, each with shell steps, dependency
names and tags. takt builds a graph with one unit per task. Every dependency edge is
one unbuffered channel, and every unit runs in its own goroutine. A unit waits for a
notification from each of its dependencies. It runs its steps only if all of them
succeeded, and then notifies each of its dependents exactly once. The repository
holds successive revisions of this core:

- `main.go`: the first prototype, with a fixed list of five tasks and shell commands.
- `pkg/task`: the `Task` record and the first `FromTakt`/`Operation`.
- `pkg/operation`: the latest build, with a tag filter.
- `cmd/takt/cmd.go` and `pkg/engine`: the command-line runners around it.

This project models every revision. It proves what each one promises: its build,
its wait-and-notify protocol, its run, and the helpers that label output and
classify interrupts.

How the model is laid out:

- **Channels.** A channel is a number handed out by a `Channels` counter
  (`make(chan ...)`). At run time each number indexes an array of one-shot
  mailboxes (`Option<Notification>`).
  - A receive requires its mailbox to be full; in Go it waits for the send.
  - A send requires its mailbox to be empty, and it never waits: the mailbox holds
    the message until it is received. A send on Go's unbuffered channel waits until
    the receiver takes the message (see "## Findings").
  - The scheduler proves both, so every mailbox is written exactly once, before it is read.
- **Map iteration orders.** Go's map iteration order is arbitrary, so it is a
  parameter (`order`, `mapOrder`) that must list every key once.
- **Build.** The build is specified by value-level functions in `Wiring`
  (`Link`, `WireDeps`, `WireAll`). The imperative loops, which append to the
  channel lists of `Operation`/`Task` objects, are proved equal to them.
  The graph properties are proved on the functions:
  - one channel per declared name;
  - one producer and one consumer per channel;
  - failure exactly when a name is unknown;
  - independence from the visiting order.
- **Goroutines.** `eg.Go` for each unit followed by `eg.Wait` becomes a
  sequential run in a completion order `sched` (inverse `pos`). In that order
  every unit follows the producers of its inbound channels. The blocking receives
  allow no other order. Because sends never wait, every such order runs to the end.
- **Unbuffered channels.** Module `Rendezvous` states Go's semantics of the run:
  a send and its receive happen together. It shows a graph without a cycle on
  which that semantics blocks every goroutine, while the one-slot run settles
  every unit.
- **Run rule.** Every unit settles by
  `Settle(all producers succeeded, step result)`. The step runner's result is an
  input (`exec`). For given step results, the outcomes do not depend on the
  completion order (`OutcomesUnique`). `main.go` cancels a shared context on any error, a skip
  included. A cancelled context makes every later process start fail.
- **Runners.** File opening and parsing are a parameter
  (`fs: string -> Loaded`), and so is the FNV hash.

## Model

| member | source | states |
|---|---|---|
| Mailboxes.Channels.Make | pkg/operation/operation.go:112 | each call hands out the next unused channel number, so channels made one after another are all different |
| Mailboxes.ReceiveAll | pkg/operation/operation.go:118-125 | one message is taken from every channel in list order, with no early exit; the result is true iff every message says ok, and true when there is no channel |
| Mailboxes.SendAll | pkg/operation/operation.go:145-150 | every listed mailbox ends up holding the notification, and every other mailbox is unchanged |
| OptionFold.Fold | pkg/operation/operation.go:66-69 | applying the options one after another in the loop gives the same settings as composing them in the order given |
| OptionFold.ApplyAllConcat | pkg/engine/engine.go:43-46 | applying a list of options in two parts is applying the second part to the result of the first |
| Operations.WithOnlyTags | pkg/operation/operation.go:56-63 | with no tags the option changes nothing; otherwise it sets the tag list to exactly the given tags |
| Operations.LastTagsWin | pkg/operation/operation.go:67-69 | when later options leave the tag list alone, the tag list of the last option that sets it wins |
| Operations.NoTagOptions | pkg/operation/operation.go:65-69 | options that never touch the tag list leave it empty, so no task is filtered out |
| Operations.Available | pkg/operation/operation.go:36-50 | true iff the tag list is empty or one of the task's tags equals one listed tag, so with a non-empty list a task without tags is excluded |
| Operations.Operation.DependsOn | pkg/operation/operation.go:111-115 | one fresh channel is appended to the depended-on unit's outbound list and to this unit's inbound list; nothing else changes |
| Operations.Operation.WaitDependencies | pkg/operation/operation.go:117-131 | every inbound channel is received in order; the not-fulfilled error is returned iff some notification is not ok, and nil when there are no dependencies |
| Operations.Operation.Run | pkg/operation/operation.go:133-167 | the outcome is Skipped when a dependency did not succeed (the step is not consulted), and otherwise the step's result; every outbound mailbox gets exactly one notification carrying the unit's name, ok iff it succeeded; a skip returns nil and a step error is returned unchanged |
| Operations.Settle | pkg/operation/operation.go:134-142 | Skipped iff some dependency did not succeed; Succeeded iff all did and the step succeeded; Failed iff all did and the step failed |
| Operations.Reported | pkg/operation/operation.go:144-166 | Run returns an error iff the unit failed |
| Operations.NameMap | pkg/operation/operation.go:93-96 | the name map has exactly the units' names as keys, and each name maps to the last unit carrying it |
| Operations.DependsOnWithin | pkg/operation/operation.go:104 | seen on the whole unit list, one dependsOn call changes the channel lists exactly as the value-level Link does for the fresh channel |
| Operations.LinkDeps | pkg/operation/operation.go:99-105 | the inner loop links the unit to each named unit in declaration order and stops at the first unknown name; on success the lists are what WireDeps gives |
| Operations.ResolveDeps | pkg/operation/operation.go:92-109 | "task not found" iff the value-level build over the name map fails; on success the channel lists are exactly what it builds |
| Operations.KeptNames | pkg/operation/operation.go:72-77 | the names kept by the tag filter, in visiting order: a name is in the list iff it is a task and the settings keep it, with no name twice |
| Operations.NewOperations | pkg/operation/operation.go:72-83 | one new unit per kept task, named by its key, carrying that task's definition, with empty channel lists |
| Operations.FromTakt | pkg/operation/operation.go:65-90 | the wrapped "task not found" error and no units iff some kept task names a task that is not kept (unknown or filtered out); otherwise one new unit per kept task, each with one inbound channel per declared name, coming from the unit that name denotes, and every channel has one sender and one receiver |
| Operations.SelectionBuild | pkg/operation/operation.go:85-87 | the build over the kept tasks succeeds iff no kept task names a task that is not kept, and a successful build is wired as FromTakt promises |
| Operations.ResolvableIffSelected | pkg/operation/operation.go:98-103 | every dependency name of every visited unit is in the name map iff it names a kept task |
| Wiring.Positions | pkg/operation/operation.go:93-96 | the name map's keys are exactly the units' names, and each key maps to a unit carrying that name |
| Wiring.PositionsLast | main.go:60-64 | a later entry with the same name replaces an earlier one in the name map |
| Wiring.PositionsOfDistinct | pkg/operation/operation.go:94-95 | without duplicate names, each unit's name maps back to that unit |
| Wiring.Link | pkg/operation/operation.go:111-115 | the fresh channel is appended to the producer's outbound list and to the consumer's inbound list; every other unit is untouched |
| Wiring.WireDepsDefined | pkg/operation/operation.go:99-103 | one unit's dependencies resolve iff every name it declares is in the map |
| Wiring.WireAllDefined | pkg/operation/operation.go:98-106 | the whole build succeeds iff every visited unit's dependency names are all in the map |
| Wiring.WireAllChannels | pkg/operation/operation.go:98-106 | the channels the build allocates are, as multisets, exactly the ones appended to the outbound lists and exactly the ones appended to the inbound lists |
| Wiring.WireAllResolves | pkg/operation/operation.go:98-106 | after the build, every visited unit has one inbound channel per declared name, and its k-th inbound channel is an outbound channel of the unit its k-th name denotes |
| Wiring.WireAllFan | pkg/operation/operation.go:111-115 | every unit gets one outbound channel per declared name, over the visited units, that denotes it |
| Wiring.WireAllCount | pkg/operation/operation.go:111-112 | the build allocates exactly one channel per declared dependency name |
| Wiring.BuildFromScratch | pkg/operation/operation.go:92-109 | from empty lists, the build fails iff a visited unit names an unknown task; otherwise each channel has exactly one producer and one consumer, so the outbound and inbound totals agree, and every unit's inbound channels come from the units its names denote |
| Wiring.OrderIndependent | pkg/operation/operation.go:98 | two visiting orders of the name map both succeed or both fail, allocate the same number of channels, give every unit the same number of outbound channels, and connect every inbound channel to the same producing unit |
| Wiring.SameSuccess | pkg/operation/operation.go:98-103 | two visiting orders of the same keys both succeed or both fail |
| Wiring.SameCounts | pkg/operation/operation.go:98-106 | two visiting orders allocate the same number of channels and give every unit the same number of outbound channels |
| Wiring.SameInbound | pkg/operation/operation.go:98-106 | under two visiting orders, a unit gets the same number of inbound channels, each from the same producing unit |
| Wiring.BuildWired | pkg/operation/operation.go:92-106 | for distinct names visited in a map order, the build succeeds iff every visited unit's names are all known, and a successful build is wired: one inbound channel per name, from the right producer, and each channel made is listed once as outbound and once as inbound |
| TaskOperations.NoFilterKeepsAll | pkg/task/operation.go:28-36 | the earlier revision keeps every task: with no tag filter the kept names are the visiting order itself |
| TaskOperations.NoFilterDangling | pkg/task/operation.go:51-56 | with no tag filter, a name dangles iff some task names a task that the file does not have |
| TaskOperations.NewAll | pkg/task/operation.go:27-36 | one new unit per task of the file, named by its key, with that task's definition and empty channel lists |
| TaskOperations.FromTakt | pkg/task/operation.go:26-43 | the wrapped "task not found" error and no units iff some task names a task the file does not have; otherwise one unit per task, in visiting order, wired by the names they declare |
| Tasks.Task.DependsOn | pkg/task/task.go:22-26 | the same fresh channel is appended to the depended-on task's outbound list and to this task's inbound list; called k times it adds k distinct channels, since each is new to both lists; name, command and dependency names never change |
| Tasks.Task.WaitDependencies | pkg/task/task.go:28-41 | every inbound channel is received in order without stopping early; the not-fulfilled error iff some notification is not ok, nil when there are none; the task is not modified |
| Scheduler.WiredProducers | pkg/operation/operation.go:111-115 | over a wired build each channel has exactly one producer, and each unit's k-th inbound channel is produced by the unit its k-th dependency name denotes |
| Scheduler.ByName | pkg/operation/operation.go:99-104 | "the producers of my inbound channels succeeded" is "the units my dependency names denote succeeded", and a completion order that puts named units first is topological |
| Scheduler.SkipsPropagate | pkg/operation/operation.go:135-137 | a unit with an inbound channel from a unit that did not succeed is Skipped, whatever its step would have done |
| Scheduler.OutcomesUnique | pkg/engine/engine.go:80-92 | two outcome assignments that both follow the rule over a topological order, for the same step results, are equal: for given step results the completion order cannot change how any unit settles |
| Scheduler.StepReady | pkg/operation/operation.go:120-121 | when a unit's turn comes, every inbound mailbox is full (its producers have sent) and every outbound mailbox is still empty, and the oks it will receive say exactly whether its producers succeeded |
| Scheduler.RunStep | pkg/operation/operation.go:133-167 | running the next unit settles it by the rule and fills exactly its outbound mailboxes, so the run invariants extend by one step |
| Scheduler.RunAll | pkg/engine/engine.go:80-92 | every unit settles by the rule; every mailbox is written exactly once, by its producer, saying whether the producer succeeded; the join is nil iff no unit failed, and otherwise a failed unit's error |
| Scheduler.RunWired | pkg/engine/engine.go:70-92 | over fresh mailboxes for a wired graph, every unit is skipped unless all the units it names succeeded and otherwise settles as its step; the join is nil iff no step failed |
| Scheduler.SettledByName | pkg/operation/operation.go:134-142 | the rule every unit settled by, restated with dependency names instead of channels |
| MainProgram.BuiltInWellFormed | main.go:32-58 | five differently named tasks; every dependency name is the name of an earlier task, so the graph is acyclic: task1 first, task2 and task3 after task1, task4 and task5 after both |
| MainProgram.NewTasks | main.go:61-63 | one new task per list entry, a copy of it, with no channels |
| MainProgram.TaskMap | main.go:60-64 | each name maps to the task of the last entry carrying it |
| MainProgram.DependsOnWithin | main.go:72 | one DependsOn call changes the task list's channel lists exactly as Link does |
| MainProgram.LinkDeps | main.go:67-73 | one task is linked to the task each of its names denotes, in order, stopping at the first unknown name |
| MainProgram.LinkAll | main.go:66-74 | "task not found" iff the value-level build over the task map fails; otherwise the channel lists are exactly what it builds |
| MainProgram.KnownIffResolvable | main.go:66-71 | the linking fails iff some task of the list names a task that is not in the list |
| MainProgram.BuildTasks | main.go:32-74 | "task not found" iff some dependency name is unknown, before anything runs; otherwise one task per entry, with one inbound channel per name, from the task it denotes, and each channel with one sender |
| MainProgram.Context.Cancel | main.go:117 | cancel() leaves the context cancelled for good |
| MainProgram.Started | main.go:104-109 | a process is started and its result used only while the context is not cancelled; once cancelled, starting it fails |
| MainProgram.RunTask | main.go:85-139 | the outcome is Skipped when a dependency did not succeed (no process starts), and otherwise the start-and-wait result; the context is cancelled on any error, a skip included; every outbound mailbox gets ok iff the task succeeded; a skip returns nil and a command failure its error |
| MainProgram.RunTaskStep | main.go:85-139 | running the next task settles it by the rule with the cancellation it sees, and extends the run invariants by one step |
| MainProgram.RunTasks | main.go:82-146 | every task settles by the rule; a task sees the context cancelled iff a task that finished before it did not succeed; every mailbox is written once; the context ends cancelled iff some task did not succeed; the join is nil iff no task failed |
| MainProgram.RunProgram | main.go:31-147 | an unknown dependency name gives "task not found" and nothing runs; otherwise each task is skipped unless all the tasks it names succeeded, its command fails to start once an earlier task did not succeed, and the result is nil iff no command failed |
| Rendezvous.Meet | pkg/operation/operation.go:117-167 | a send and the receive on the same channel happen together: two different goroutines each move past one action, and no other goroutine moves |
| Rendezvous.ExampleIndex | pkg/operation/operation.go:93-96 | the name map of the units q, p, y maps each name to its own position |
| Rendezvous.ExampleVisitY | pkg/operation/operation.go:98-114 | visiting y first links it to p on channel 0 and then to q on channel 1 |
| Rendezvous.ExampleOrder | pkg/operation/operation.go:120-121 | q, p, y is a completion order in which every task follows the tasks it names, as the blocking receives require |
| Rendezvous.ExampleBuild | pkg/operation/operation.go:98-114 | for tasks q: [], p: [q], y: [p, q], visiting y, then p, then q, the build gives q the outbound channels 1 then 2, p the outbound channel 0 and the inbound channel 2, and y the inbound channels 0 then 1 |
| Rendezvous.ExampleBlocked | pkg/operation/operation.go:117-167 | on that wiring, before any channel action, some goroutine has not returned and no two goroutines can meet, so `eg.Wait` never returns |
| Rendezvous.AcyclicDeadlock | pkg/operation/operation.go:92-167 | for that input the build succeeds and is wired, and q, p, y puts every task after the tasks it names, so the one-slot run settles every unit; yet with unbuffered channels the same build blocks every goroutine |
| Presentation.ColorIndex | pkg/engine/engine.go:113-119 | the colour index is the hash's residue modulo the number of colours, so it is always below the length of the colour list (the same function is in pkg/engine/wrapper.go and cmd/takt/cmd.go) |
| Presentation.MaxLen | pkg/engine/engine.go:72-77 | at least every name's length, equal to one of them, and 0 when there are no names |
| Presentation.LongestName | cmd/takt/cmd.go:117-122 | the loop computes the length of the longest name |
| Presentation.Prefix | pkg/engine/engine.go:83 | the name followed by spaces, max+1 wide, with at least one space after the name |
| Presentation.Labels | pkg/engine/engine.go:72-85 | every unit's label has the same width, one more than the longest name, starts with the name followed by a space, and its colour is a function of the name |
| Interrupts.Classify | pkg/engine/wrapper.go:42-47 | nil iff the runner returned nil or an exit status of a signalled process; otherwise the runner's error wrapped in "runner exited with error", which unwraps to it (cmd/takt/cmd.go:67-72 is the same) |
| Engine.WithOnlyTags | pkg/engine/engine.go:95-102 | with no tags the option changes nothing; otherwise it sets the tag list to the tags and leaves the file path alone |
| Engine.NoPathOptions | pkg/engine/engine.go:43-52 | options that never set the file path, tag options among them, leave it empty |
| Engine.Run | pkg/engine/engine.go:42-93 | an empty path gives "No Takt file path configured" without consulting the file system; otherwise an open error wrapped in "failed to open file", a parse error as is, the wrapped "task not found", or the join of the run; the tag list plays no part in any of these |
| Engine.RunParsed | pkg/engine/engine.go:65-92 | after parsing: the unknown-dependency error, or every task is run with its label and the join is returned |
| Engine.Build | pkg/engine/engine.go:65-68 | operation.FromTakt with no option keeps every task: the error iff a name is unknown, and otherwise one unit per task, wired by name |
| Engine.WrapInterrupt | pkg/engine/wrapper.go:20-24 | the wrapper's original runner is exactly the given runner |
| Engine.RunRunner | pkg/engine/wrapper.go:26-48 | the wrapper's result is the classification of what its original runner returns when given the same options |
| Command.TaktRunner.constructor | cmd/takt/cmd.go:26-29 | the task file path starts as ".takt.yaml" |
| Command.TaktRunner.SetFile | cmd/takt/cmd.go:41 | the --file/-f flag replaces the path |
| Command.TaktRunner.Run | cmd/takt/cmd.go:98-138 | an open error wrapped in "failed to open file", a parse error as is, the wrapped "task not found", or the join of running every task; every label is the name padded to the longest name's length plus one |
| Command.Build | cmd/takt/cmd.go:110-113 | task.FromTakt: the error iff a name is unknown, otherwise one unit per task, wired by name |
| Command.Execute | cmd/takt/cmd.go:25-74 | the runner reads ".takt.yaml" unless the flag gives another path, and the command returns the classification of what it returns |

## Left out

- Goroutines, the errgroup and the wait for all units are a sequential run in a
  completion order given as a parameter. It is required to put every unit after
  the units it names, the only order the blocking receives allow.
- A dependency cycle or self-dependency makes the Go program block for ever. So
  can the order of the sends on a graph without a cycle (see "## Findings"). The
  run in the model cannot block: it requires a completion order that puts named
  units first, which no cycle has, and its sends never wait.
- Mailboxes.SendAll: a mailbox holds one message, so a send never waits for its
  receiver. A send on Go's unbuffered channel waits until the receiver takes it,
  and a unit sends to its dependents one after another, in list order.
- Scheduler.RunAll: because its sends never wait, it settles every unit for every
  order that puts producers first. Go's run can block for ever on such a graph
  (Rendezvous.AcyclicDeadlock).
- Scheduler.RunWired: returns the join for every wired graph with such an order,
  with the same gap as Scheduler.RunAll.
- Engine.RunParsed: returns the join of the run for every graph with such an
  order, with the same gap as Scheduler.RunAll.
- Engine.Run: returns the join of the run for every parsed file whose graph has
  such an order, with the same gap as Scheduler.RunAll.
- Command.TaktRunner.Run: returns the join of the run for every parsed file whose
  graph has such an order, while `eg.Wait()` (cmd/takt/cmd.go:137) can block for
  ever there, the same gap as Scheduler.RunAll.
- MainProgram.RunProgram: main.go's sends are unbuffered too. Its five built-in
  tasks cannot block this way, since task4 and task5 both name task2 before
  task3, but other lists can, the same gap as Scheduler.RunAll.
- Scheduler.OutcomesUnique: the engine and the command run the units under
  `errgroup.WithContext` (pkg/engine/engine.go:70, cmd/takt/cmd.go:115). The first
  unit to return an error cancels the context, and every step started later gets
  the cancelled context. Which steps that reaches depends on timing. The model
  takes the step results `exec` as given, with any effect of that cancellation
  already in them. So the outcomes are unique for given step results only.
- Scheduler.RunAll: `eg.Wait` returns the error of the first goroutine to fail in
  real time. The model returns the first failure in the completion order.
- MainProgram.RunTasks: the context is only a flag. Cancelling it makes later
  process starts fail; a process already running that the cancellation kills shows
  up as its step result. The 50-second timeout (main.go:76) is not modelled.
- MainProgram.RunProgram: the whole build and run, MainProgram.BuildTasks included,
  require distinct task names, as main.go's list has. Only MainProgram.TaskMap and
  MainProgram.LinkAll handle duplicates (the later entry wins). With duplicates,
  the Go program links and runs only the map's values, while the model would link
  and run every list entry.
- main.go reads `t.Waiting`, while pkg/task/task.go declares the field `waiting`;
  the two files come from different revisions. The model uses the inbound list
  `waiting`.
- pkg/task/operation.go's `Operation`, `dependsOn`, `waitDependecies` and `Run` do
  what pkg/operation's do, statement for statement. Only names differ: the exported
  `TaskNotification` and `DependencyNotFulfilledErr` of package task, the
  unexported `execute` it calls, and the logger parameter's name. They are
  modelled once, by Operations.Operation.
- Process execution (`task.Execute`, `execx.CommandContext`, `sh -c`) is an input:
  one step result per unit, either success or a step error. A step error may be an
  exit status that a signal caused.
- Output and logging (logstreamer, `log.New`, `fmt.Printf`, the debug print in
  main.go) are left out. The labels a logger would be given are returned as values.
- The FNV-32 hash in determineColor is a function parameter, and the colours are
  names, not terminal escape codes.
- Presentation.LongestName counts characters, while Go's `len` counts UTF-8 bytes.
  The two agree on ASCII names.
- Reading the task file (`os.Open`, `task.Parse`) is a parameter that gives the open
  error, the parse error or the parsed tasks. Cobra's command wiring and
  cmd/takt/main.go are not part of this model.
- The signal-listening goroutine and `context.WithCancel` in the interrupt wrappers
  are left out. Only the classification of the result is modelled.
- errors.New/errors.Wrap from github.com/pkg/errors are constructors of an error
  datatype. Wrap keeps nil as nil.
- The engine's options that set the file path are not defined in pkg/engine/engine.go.
  Options are arbitrary functions on the settings.
- The engine collects `tagOnlyList` but never passes it to `operation.FromTakt`
  (pkg/engine/engine.go:65). The model does the same: every task is built whatever
  tags were asked for.

## Findings

| source | as written | input that shows it | evidently intended | confidence | as-written member | corrected member |
|---|---|---|---|---|---|---|
| pkg/operation/operation.go:112 | every dependency edge is an unbuffered channel, and a unit sends to its dependents one after another in the order the edges were made, which follows the map iteration order of resolveDeps (pkg/task/operation.go:65 and pkg/task/task.go:23 are the same) | tasks q: [], p: [q], y: [p, q], with the name map visiting y before p: q first sends to y, y first waits for p, and p waits for q's second send, so `eg.Wait()` never returns | every unit runs once the units it names have finished, whatever the map order; a channel with a one-message buffer gives that | not executed; the wait-for cycle is proved on the model of the wiring | Rendezvous.AcyclicDeadlock | Scheduler.RunWired |
