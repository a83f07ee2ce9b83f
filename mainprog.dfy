/** main.go: the first prototype. A fixed list of five tasks is put in a name map,
    each task is linked to the tasks it depends on, and every task then runs in its
    own goroutine: it waits for a notification from each dependency, runs its shell
    command unless some dependency did not succeed, cancels the shared context on
    any error (a skip included) and notifies its dependents. The first error of any
    goroutine is the result. */
module MainProgram {
  import opened TaktTypes
  import opened Wiring
  import opened Mailboxes
  import opened Tasks
  import opened Scheduler
  import Operations

  // ---------------------------------------------------------------------------
  // The task list

  /** A `task.Task` literal: the name, the shell command and the dependency names. */
  datatype TaskSpec = TaskSpec(name: string, command: string, depends: seq<string>)

  function SpecNames(specs: seq<TaskSpec>): (r: seq<string>)
    ensures |r| == |specs| && forall i :: 0 <= i < |specs| ==> r[i] == specs[i].name
  {
    seq(|specs|, i requires 0 <= i < |specs| => specs[i].name)
  }

  function SpecDepends(specs: seq<TaskSpec>): (r: seq<seq<string>>)
    ensures |r| == |specs| && forall i :: 0 <= i < |specs| ==> r[i] == specs[i].depends
  {
    seq(|specs|, i requires 0 <= i < |specs| => specs[i].depends)
  }

  /** The built-in task list: task1 first; task2 and task3 after task1; task4 and
      task5 after both task2 and task3. */
  function BuiltInTasks(): seq<TaskSpec> {
    [ TaskSpec("task1", "echo task1; sleep 2; echo done", []),
      TaskSpec("task2", "echo task2; sleep 2; echo done", ["task1"]),
      TaskSpec("task3", "echo task3", ["task1"]),
      TaskSpec("task4", "while true; do echo test; sleep 1s; done", ["task2", "task3"]),
      TaskSpec("task5", "while true; do echo test; sleep 1s; done", ["task2", "task3"]) ]
  }

  /** The built-in list has five differently named tasks, and every dependency name
      is the name of a task listed before it, so the graph has no cycle and no
      name is unknown. */
  lemma BuiltInWellFormed()
    ensures |BuiltInTasks()| == 5 && NoDup(SpecNames(BuiltInTasks()))
    ensures forall i, k :: 0 <= i < 5 && 0 <= k < |BuiltInTasks()[i].depends| ==>
      exists j :: 0 <= j < i && BuiltInTasks()[j].name == BuiltInTasks()[i].depends[k]
  {
    var ts := BuiltInTasks();
    assert ts[1].depends[0] == ts[0].name;
    assert ts[2].depends[0] == ts[0].name;
    assert ts[3].depends[0] == ts[1].name && ts[3].depends[1] == ts[2].name;
    assert ts[4].depends[0] == ts[1].name && ts[4].depends[1] == ts[2].name;
  }

  /** `for _, tsk := range tasks { tsk := tsk; ... &tsk }`: one new Task per list entry,
      a copy of it, with no channels yet. */
  method NewTasks(specs: seq<TaskSpec>) returns (ts: seq<Task>)
    ensures TaskNames(ts) == SpecNames(specs) && TaskDepends(ts) == SpecDepends(specs)
    ensures forall i :: 0 <= i < |ts| ==> fresh(ts[i]) && ts[i].command == specs[i].command
    ensures DistinctTasks(ts)
    ensures TaskStatuses(ts) == Empty(|ts|)
  {
    ts := [];
    for i := 0 to |specs|
      invariant |ts| == i
      invariant forall j :: 0 <= j < i ==>
        && fresh(ts[j]) && ts[j].name == specs[j].name
        && ts[j].command == specs[j].command && ts[j].depends == specs[j].depends
        && ts[j].doneNotification == [] && ts[j].waiting == []
      invariant DistinctTasks(ts)
    {
      var t := new Task(specs[i].name, specs[i].command, specs[i].depends);
      ts := ts + [t];
    }
    assert TaskStatuses(ts) == Empty(|ts|);
  }

  /** `taskMap[tsk.Name] = &tsk` over the list: each name maps to the task of the last
      entry carrying it, so a later entry with the same name replaces an earlier one. */
  method TaskMap(ts: seq<Task>) returns (taskMap: map<string, Task>, ghost index: map<string, nat>)
    ensures index == Positions(TaskNames(ts))
    ensures taskMap.Keys == index.Keys
    ensures forall k :: k in taskMap ==> taskMap[k] == ts[index[k]]
  {
    ghost var names := TaskNames(ts);
    taskMap := map[];
    index := map[];
    for i := 0 to |ts|
      invariant index == Positions(names[..i])
      invariant taskMap.Keys == index.Keys
      invariant forall k :: k in taskMap ==> index[k] < |ts| && taskMap[k] == ts[index[k]]
    {
      PositionsSnoc(names, i);
      taskMap := taskMap[ts[i].name := ts[i]];
      index := index[ts[i].name := i];
    }
    assert names[..|ts|] == names;
  }

  // ---------------------------------------------------------------------------
  // Linking the tasks

  /** `t.DependsOn(d)` seen on the whole task list: the lists become Link's result
      for the fresh channel, and every other task is untouched. */
  method DependsOnWithin(ts: seq<Task>, t: Task, ghost ti: nat, d: Task, ghost di: nat, channels: Channels)
    requires DistinctTasks(ts) && ti < |ts| && di < |ts| && ts[ti] == t && ts[di] == d
    modifies ts, channels
    ensures channels.made == old(channels.made) + 1
    ensures TaskStatuses(ts) == Link(old(TaskStatuses(ts)), ti, di, old(channels.made))
  {
    ghost var linked := Link(TaskStatuses(ts), ti, di, channels.made);
    t.DependsOn(d, channels);
    forall i | 0 <= i < |ts| ensures TaskStatuses(ts)[i] == linked[i] {
      if i != ti && i != di {
        assert ts[i] != t && ts[i] != d;
      }
    }
  }

  /** The inner loop of the linking for task `t` (at position ti): link it to the task
      each dependency name denotes, in order; false at the first unknown name. On
      success the lists are exactly WireDeps's result. */
  method LinkDeps(ts: seq<Task>, taskMap: map<string, Task>, ghost index: map<string, nat>,
                  t: Task, ghost ti: nat, channels: Channels)
    returns (ok: bool)
    requires DistinctTasks(ts) && ti < |ts| && ts[ti] == t
    requires IndexOk(index, |ts|) && taskMap.Keys == index.Keys
    requires forall k :: k in taskMap ==> taskMap[k] == ts[index[k]]
    modifies ts, channels
    ensures var w := WireDeps(old(TaskStatuses(ts)), index, ti, t.depends, old(channels.made));
      && (ok <==> w.Some?)
      && (w.Some? ==> TaskStatuses(ts) == w.value.0 && channels.made == w.value.1)
  {
    ghost var st := TaskStatuses(ts);
    ghost var next := channels.made;
    var deps := t.depends;
    for k := 0 to |deps|
      invariant WireDeps(st, index, ti, deps[..k], next) == Some((TaskStatuses(ts), channels.made))
    {
      var dependedTaskName := deps[k];
      if dependedTaskName !in taskMap {
        WireDepsDefined(st, index, ti, deps, next);
        return false;
      }
      var dependedTask := taskMap[dependedTaskName];
      ghost var before, c := TaskStatuses(ts), channels.made;
      DependsOnWithin(ts, t, ti, dependedTask, index[dependedTaskName], channels);
      WireDepsStep(st, index, ti, deps, k, next, (before, c));
    }
    assert deps[..|deps|] == deps;
    return true;
  }

  /** The linking loop of run(): visiting the task map in `mapOrder`, link each task
      to the task each of its dependency names denotes; stop with "task not found"
      at the first unknown name. On success the channel lists are exactly the wiring
      function's result; on failure that result does not exist. */
  method LinkAll(ts: seq<Task>, taskMap: map<string, Task>, ghost index: map<string, nat>,
                 mapOrder: seq<string>, channels: Channels)
    returns (err: Option<Error>)
    requires DistinctTasks(ts) && index == Positions(TaskNames(ts))
    requires taskMap.Keys == index.Keys && forall k :: k in taskMap ==> taskMap[k] == ts[index[k]]
    requires IsOrderOf(mapOrder, TaskNames(ts))
    modifies ts, channels
    ensures var w := WireAll(old(TaskStatuses(ts)), index, TaskDepends(ts), mapOrder, old(channels.made));
      && (err.None? <==> w.Some?)
      && (err.Some? ==> err.value == TaskNotFound)
      && (w.Some? ==> TaskStatuses(ts) == w.value.0 && channels.made == w.value.1)
  {
    ghost var depsOf := TaskDepends(ts);
    ghost var st0 := TaskStatuses(ts);
    ghost var next0 := channels.made;
    for p := 0 to |mapOrder|
      invariant WireAll(st0, index, depsOf, mapOrder[..p], next0) == Some((TaskStatuses(ts), channels.made))
    {
      WireAllStep(st0, index, depsOf, mapOrder, p, next0, (TaskStatuses(ts), channels.made));
      var t := taskMap[mapOrder[p]];
      ghost var wp, np := TaskStatuses(ts), channels.made;
      var ok := LinkDeps(ts, taskMap, index, t, index[mapOrder[p]], channels);
      if !ok {
        WireAllFailsAt(st0, index, depsOf, mapOrder, p, next0, (wp, np));
        return Some(TaskNotFound);
      }
    }
    assert mapOrder[..|mapOrder|] == mapOrder;
    return None;
  }

  // ---------------------------------------------------------------------------
  // Running the tasks

  /** The context shared by the goroutines; `cancel()` marks it done for good. */
  class Context {
    var cancelled: bool

    constructor()
      ensures !cancelled
    {
      cancelled := false;
    }

    method Cancel()
      modifies this
      ensures cancelled
    {
      cancelled := true;
    }
  }

  /** What starting and waiting for a task's command yields: once the context is
      cancelled, starting fails with the context's error; otherwise it is the
      command's own result `exec`. */
  function Started(cancelled: bool, exec: Option<StepError>): (r: Option<StepError>)
    ensures r.None? <==> !cancelled && exec.None?
    ensures cancelled ==> r.Some? && r.value.StartFailed?
  {
    if cancelled then Some(StartFailed("context canceled")) else exec
  }

  /** Some unit that ran in the first s steps did not succeed, so by then some
      goroutine has cancelled the context. */
  ghost predicate CancelledBy(outcomes: seq<Outcome>, pos: seq<nat>, s: nat)
    requires |pos| == |outcomes|
  {
    exists j :: 0 <= j < |outcomes| && pos[j] < s && outcomes[j] != Succeeded
  }

  /** Settling the unit of step pos[u] does not change what had happened before it,
      and the context is cancelled after it iff it was before or the unit did not
      succeed. */
  lemma CancelNext(outcomes: seq<Outcome>, pos: seq<nat>, sched: seq<nat>, u: nat, o: Outcome)
    requires Schedule(|outcomes|, sched, pos) && u < |outcomes|
    ensures forall t :: t <= pos[u] ==> CancelledBy(outcomes[u := o], pos, t) == CancelledBy(outcomes, pos, t)
    ensures CancelledBy(outcomes[u := o], pos, pos[u] + 1) == (CancelledBy(outcomes, pos, pos[u]) || o != Succeeded)
  {
    var next := outcomes[u := o];
    forall t | t <= pos[u] ensures CancelledBy(next, pos, t) == CancelledBy(outcomes, pos, t) {
      if CancelledBy(next, pos, t) {
        var j :| 0 <= j < |next| && pos[j] < t && next[j] != Succeeded;
        assert j != u;
      }
      if CancelledBy(outcomes, pos, t) {
        var j :| 0 <= j < |outcomes| && pos[j] < t && outcomes[j] != Succeeded;
        assert j != u;
      }
    }
    if CancelledBy(next, pos, pos[u] + 1) && !CancelledBy(outcomes, pos, pos[u]) {
      var j :| 0 <= j < |next| && pos[j] < pos[u] + 1 && next[j] != Succeeded;
      assert j == u;
    }
  }

  /** One goroutine of run(): receive from every inbound channel; unless all said ok,
      the error is "dependency not fulfilled"; otherwise start the command and wait
      for it. On any error, cancel the shared context and send a not-ok notification
      on every outbound channel, then return nil for a skip and the error otherwise;
      on success send ok notifications and return nil. */
  method RunTask(t: Task, ctx: Context, boxes: array<Option<Notification>>, exec: Option<StepError>)
    returns (err: Option<Error>, ghost outcome: Outcome)
    requires AllFull(boxes, t.waiting)
    requires AllEmpty(boxes, t.doneNotification) && NoDup(t.doneNotification)
    modifies boxes, ctx
    ensures outcome == Operations.Settle(old(AllOk(boxes, t.waiting)), Started(old(ctx.cancelled), exec))
    ensures ctx.cancelled == (old(ctx.cancelled) || outcome != Succeeded)
    ensures forall k :: 0 <= k < |t.doneNotification| ==>
      boxes[t.doneNotification[k]] == Some(Notification(outcome == Succeeded, t.name))
    ensures forall c :: 0 <= c < boxes.Length && c !in t.doneNotification ==> boxes[c] == old(boxes[c])
    ensures err == Operations.Reported(outcome)
  {
    var okToGo, _ := ReceiveAll(boxes, t.waiting);
    var runErr: Option<Error>;
    if !okToGo {
      runErr := Some(DependencyNotFulfilled);
      outcome := Skipped;
    } else {
      var result := Started(ctx.cancelled, exec);
      if result.Some? {
        runErr := Some(StepFailed(result.value));
        outcome := Failed(result.value);
      } else {
        runErr := None;
        outcome := Succeeded;
      }
    }

    if runErr.Some? {
      ctx.Cancel();
      SendAll(boxes, t.doneNotification, Notification(false, t.name));
      if runErr.value == DependencyNotFulfilled {
        return None, outcome;
      }
      return runErr, outcome;
    }

    SendAll(boxes, t.doneNotification, Notification(true, t.name));
    return None, outcome;
  }

  /** The step results after step s: each task that has run saw the context
      cancelled iff some task before it did not succeed. */
  ghost predicate StartedUpTo(outcomes: seq<Outcome>, pos: seq<nat>, eff: seq<Option<StepError>>, exec: seq<Option<StepError>>, s: nat)
    requires |pos| == |outcomes| && |eff| == |outcomes| && |exec| == |outcomes|
  {
    forall i :: 0 <= i < |outcomes| && pos[i] < s ==> eff[i] == Started(CancelledBy(outcomes, pos, pos[i]), exec[i])
  }

  lemma StartedNext(outcomes: seq<Outcome>, next: seq<Outcome>, sched: seq<nat>, pos: seq<nat>,
                    eff: seq<Option<StepError>>, eff2: seq<Option<StepError>>, exec: seq<Option<StepError>>, s: nat)
    requires Schedule(|outcomes|, sched, pos) && s < |outcomes|
    requires |next| == |outcomes| && |eff| == |outcomes| && |exec| == |outcomes|
    requires next == outcomes[sched[s] := next[sched[s]]]
    requires eff2 == eff[sched[s] := Started(CancelledBy(outcomes, pos, s), exec[sched[s]])]
    requires forall t: nat :: t <= s ==> CancelledBy(next, pos, t) == CancelledBy(outcomes, pos, t)
    requires StartedUpTo(outcomes, pos, eff, exec, s)
    ensures StartedUpTo(next, pos, eff2, exec, s + 1)
  {
    forall i | 0 <= i < |outcomes| && pos[i] < s + 1
      ensures eff2[i] == Started(CancelledBy(next, pos, pos[i]), exec[i])
    {
      if i != sched[s] {
        assert pos[i] != s;
      }
    }
  }

  /** One step of the joined run: the task scheduled at step s runs, with the
      context cancelled iff some earlier task did not succeed. */
  method RunTaskStep(ts: seq<Task>, sched: seq<nat>, boxes: array<Option<Notification>>, exec: seq<Option<StepError>>,
                     ctx: Context, ghost prod: seq<nat>, ghost pos: seq<nat>,
                     ghost outcomes: seq<Outcome>, ghost eff: seq<Option<StepError>>, s: nat)
    returns (e: Option<Error>, ghost next: seq<Outcome>, ghost eff2: seq<Option<StepError>>)
    requires |exec| == |ts| && |outcomes| == |ts| && |eff| == |ts| && s < |ts|
    requires Producers(TaskStatuses(ts), prod) && Schedule(|ts|, sched, pos) && Topological(TaskStatuses(ts), prod, pos)
    requires boxes.Length == |prod|
    requires SettledUpTo(TaskStatuses(ts), prod, pos, eff, outcomes, s)
    requires Sent(boxes[..], TaskNames(ts), prod, pos, outcomes, s)
    requires ctx.cancelled == CancelledBy(outcomes, pos, s)
    modifies boxes, ctx
    ensures pos[sched[s]] == s && |next| == |outcomes| && next == outcomes[sched[s] := next[sched[s]]]
    ensures eff2 == eff[sched[s] := Started(CancelledBy(outcomes, pos, s), exec[sched[s]])]
    ensures e == Operations.Reported(next[sched[s]])
    ensures SettledUpTo(TaskStatuses(ts), prod, pos, eff2, next, s + 1)
    ensures Sent(boxes[..], TaskNames(ts), prod, pos, next, s + 1)
    ensures ctx.cancelled == CancelledBy(next, pos, s + 1)
    ensures forall t: nat :: t <= s ==> CancelledBy(next, pos, t) == CancelledBy(outcomes, pos, t)
  {
    ghost var st := TaskStatuses(ts);
    ghost var before := boxes[..];
    var u := sched[s];
    assert st[u] == Status(ts[u].doneNotification, ts[u].waiting);
    StepReady(st, prod, sched, pos, before, TaskNames(ts), outcomes, s);
    assert AllFull(boxes, ts[u].waiting) && AllEmpty(boxes, ts[u].doneNotification);
    assert AllOk(boxes, ts[u].waiting) == DepsSucceeded(st, prod, outcomes, u);
    eff2 := eff[u := Started(ctx.cancelled, exec[u])];
    ExecFrame(st, prod, pos, eff, eff2, outcomes, s);
    ghost var outcome;
    e, outcome := RunTask(ts[u], ctx, boxes, exec[u]);
    SettleNext(st, prod, pos, eff2, outcomes, u);
    SentNext(before, boxes[..], TaskNames(ts), prod, pos, outcomes, u, ts[u].doneNotification, outcome);
    CancelNext(outcomes, pos, sched, u, outcome);
    next := outcomes[u := outcome];
  }

  /** `eg.Go` for every task of the map, then `eg.Wait()`: every task runs once, in
      schedule order. A task settles by the rule, where its command's result is
      `exec[i]` unless some task that ran before it did not succeed, in which case
      the context is cancelled and its command fails to start. The result is nil iff
      no task failed, and otherwise the error of a failed one; the context ends up
      cancelled iff some task did not succeed. */
  method RunTasks(ts: seq<Task>, sched: seq<nat>, boxes: array<Option<Notification>>, exec: seq<Option<StepError>>,
                  ctx: Context, ghost prod: seq<nat>, ghost pos: seq<nat>)
    returns (err: Option<Error>, ghost outcomes: seq<Outcome>, ghost eff: seq<Option<StepError>>)
    requires |exec| == |ts|
    requires Producers(TaskStatuses(ts), prod) && Schedule(|ts|, sched, pos) && Topological(TaskStatuses(ts), prod, pos)
    requires boxes.Length == |prod| && forall c :: 0 <= c < boxes.Length ==> boxes[c].None?
    requires !ctx.cancelled
    modifies boxes, ctx
    ensures |outcomes| == |ts| && |eff| == |ts|
    ensures forall i :: 0 <= i < |ts| ==> eff[i] == Started(CancelledBy(outcomes, pos, pos[i]), exec[i])
    ensures forall i :: 0 <= i < |ts| ==> Settled(TaskStatuses(ts), prod, eff, outcomes, i)
    ensures forall c :: 0 <= c < boxes.Length ==>
      boxes[c] == Some(Notification(outcomes[prod[c]] == Succeeded, ts[prod[c]].name))
    ensures err.None? <==> forall i :: 0 <= i < |ts| ==> !outcomes[i].Failed?
    ensures err.Some? ==> exists i :: 0 <= i < |ts| && outcomes[i].Failed? && err == Some(StepFailed(outcomes[i].err))
    ensures ctx.cancelled <==> exists i :: 0 <= i < |ts| && outcomes[i] != Succeeded
  {
    outcomes := seq(|ts|, _ => Skipped);
    eff := exec;
    err := None;
    for s := 0 to |ts|
      invariant |outcomes| == |ts| && |eff| == |ts|
      invariant SettledUpTo(TaskStatuses(ts), prod, pos, eff, outcomes, s)
      invariant Sent(boxes[..], TaskNames(ts), prod, pos, outcomes, s)
      invariant ctx.cancelled == CancelledBy(outcomes, pos, s)
      invariant StartedUpTo(outcomes, pos, eff, exec, s)
      invariant FirstError(err, outcomes, pos, s)
    {
      var e;
      ghost var next, eff2;
      e, next, eff2 := RunTaskStep(ts, sched, boxes, exec, ctx, prod, pos, outcomes, eff, s);
      StartedNext(outcomes, next, sched, pos, eff, eff2, exec, s);
      FirstErrorNext(err, e, outcomes, next, sched, pos, s);
      outcomes, eff := next, eff2;
      if err.None? && e.Some? {
        err := e;
      }
    }
    FirstErrorAll(err, outcomes, sched, pos);
    SettledAll(TaskStatuses(ts), prod, sched, pos, eff, outcomes);
    assert forall i :: 0 <= i < |ts| ==> pos[i] < |ts|;
    assert forall c :: 0 <= c < boxes.Length ==> boxes[c] == boxes[..][c];
  }

  // ---------------------------------------------------------------------------
  // run()

  /** Some task declares a dependency name that no listed task carries. */
  ghost predicate UnknownDependency(specs: seq<TaskSpec>) {
    exists i, k :: 0 <= i < |specs| && 0 <= k < |specs[i].depends| && specs[i].depends[k] !in SpecNames(specs)
  }

  /** The linking visits every name, so it resolves every name iff no dependency
      name is unknown. */
  lemma KnownIffResolvable(specs: seq<TaskSpec>, mapOrder: seq<string>)
    requires NoDup(SpecNames(specs)) && IsOrderOf(mapOrder, SpecNames(specs))
    ensures forall p :: 0 <= p < |mapOrder| ==> mapOrder[p] in Positions(SpecNames(specs))
    ensures (forall p :: 0 <= p < |mapOrder| ==>
               Resolvable(Positions(SpecNames(specs)), SpecDepends(specs)[Positions(SpecNames(specs))[mapOrder[p]]]))
        <==> !UnknownDependency(specs)
  {
    var names := SpecNames(specs);
    var index := Positions(names);
    PositionsOfDistinct(names);
    if UnknownDependency(specs) {
      var i, k :| 0 <= i < |specs| && 0 <= k < |specs[i].depends| && specs[i].depends[k] !in names;
      assert names[i] in names;
      var p :| 0 <= p < |mapOrder| && mapOrder[p] == names[i];
      assert !Resolvable(index, SpecDepends(specs)[index[mapOrder[p]]]);
    }
  }

  /** The build half of run(): one task per list entry, the name map, and the
      linking, visiting the map in `mapOrder`, with channels made from 0 on. It fails
      with "task not found" iff some dependency name is unknown; otherwise the `made`
      channels 0..made-1 each have one owner, and each task's k-th inbound channel
      is owned by the task its k-th dependency name denotes. */
  method BuildTasks(specs: seq<TaskSpec>, mapOrder: seq<string>)
    returns (ts: seq<Task>, err: Option<Error>, made: nat)
    requires NoDup(SpecNames(specs)) && IsOrderOf(mapOrder, SpecNames(specs))
    ensures err.Some? <==> UnknownDependency(specs)
    ensures err.Some? ==> err.value == TaskNotFound
    ensures TaskNames(ts) == SpecNames(specs) && DistinctTasks(ts)
    ensures err.None? ==>
      && ChannelsOnce(TaskStatuses(ts), 0, made)
      && Producers(TaskStatuses(ts), Owners(TaskStatuses(ts), made))
      && Denotes(TaskStatuses(ts), Owners(TaskStatuses(ts), made), SpecNames(specs), SpecDepends(specs))
  {
    ghost var names := SpecNames(specs);
    ghost var depsOf := SpecDepends(specs);
    ts := NewTasks(specs);
    var taskMap, index := TaskMap(ts);
    var channels := new Channels();
    assert TaskStatuses(ts) == Empty(|names|) && index == Positions(names) && TaskDepends(ts) == depsOf;
    err := LinkAll(ts, taskMap, index, mapOrder, channels);
    made := channels.made;
    BuildWired(names, depsOf, mapOrder, 0);
    KnownIffResolvable(specs, mapOrder);
    if err.None? {
      ghost var w := WireAll(Empty(|names|), Positions(names), depsOf, mapOrder, 0);
      assert TaskStatuses(ts) == w.value.0 && made == w.value.1;
      assert Wired(TaskStatuses(ts), names, depsOf, mapOrder, 0, made);
      WiredProducers(TaskStatuses(ts), names, depsOf, mapOrder, made);
    }
  }

  /** The rule on channels, read on names. */
  lemma NamedRule(st: seq<Status>, prod: seq<nat>, names: seq<string>, depsOf: seq<seq<string>>, pos: seq<nat>,
                  exec: seq<Option<StepError>>, eff: seq<Option<StepError>>, outcomes: seq<Outcome>)
    requires Producers(st, prod) && Denotes(st, prod, names, depsOf)
    requires |pos| == |st| && |exec| == |st| && |eff| == |st| && |outcomes| == |st|
    requires forall i :: 0 <= i < |st| ==> Settled(st, prod, eff, outcomes, i)
    requires forall i :: 0 <= i < |st| ==> eff[i] == Started(CancelledBy(outcomes, pos, pos[i]), exec[i])
    ensures forall i :: 0 <= i < |st| ==>
      outcomes[i] == Operations.Settle(NamedDepsSucceeded(names, depsOf, outcomes, i), Started(CancelledBy(outcomes, pos, pos[i]), exec[i]))
  {
    ByName(st, prod, names, depsOf, pos, outcomes);
    forall i | 0 <= i < |st|
      ensures outcomes[i] == Operations.Settle(NamedDepsSucceeded(names, depsOf, outcomes, i), Started(CancelledBy(outcomes, pos, pos[i]), exec[i]))
    {
      assert Settled(st, prod, eff, outcomes, i);
    }
  }

  /** run(): build one task per list entry, map them by name, link each to the tasks
      it depends on (visiting the map in `mapOrder`), then run every task and wait for
      all of them (completing in the order `sched`, whose inverse is `pos`; every
      task comes after the tasks it names, the only order the blocking receives
      allow, and sends never wait, as in module Scheduler). With an unknown
      dependency name the result is "task not found" and nothing runs.
      Otherwise every task settles by the rule, where its command's result is
      `exec[i]` unless a task that completed before it did not succeed, which
      cancelled the context; the result is nil iff no task failed, and otherwise
      the error of a failed task. */
  method RunProgram(specs: seq<TaskSpec>, mapOrder: seq<string>, sched: seq<nat>, ghost pos: seq<nat>,
                    exec: seq<Option<StepError>>)
    returns (err: Option<Error>, ghost outcomes: seq<Outcome>)
    requires NoDup(SpecNames(specs)) && IsOrderOf(mapOrder, SpecNames(specs))
    requires |exec| == |specs| && Schedule(|specs|, sched, pos) && NamedBefore(SpecNames(specs), SpecDepends(specs), pos)
    ensures UnknownDependency(specs) ==> err == Some(TaskNotFound) && outcomes == []
    ensures !UnknownDependency(specs) ==>
      && |outcomes| == |specs|
      && (forall i :: 0 <= i < |specs| ==>
            outcomes[i] == Operations.Settle(NamedDepsSucceeded(SpecNames(specs), SpecDepends(specs), outcomes, i),
                                             Started(CancelledBy(outcomes, pos, pos[i]), exec[i])))
      && (err.None? <==> forall i :: 0 <= i < |specs| ==> !outcomes[i].Failed?)
      && (err.Some? ==> exists i :: 0 <= i < |specs| && outcomes[i].Failed? && err == Some(StepFailed(outcomes[i].err)))
  {
    var ts, made;
    ts, err, made := BuildTasks(specs, mapOrder);
    if err.Some? {
      return err, [];
    }
    var boxes := new Option<Notification>[made](_ => None);
    var ctx := new Context();
    ghost var st := TaskStatuses(ts);
    ghost var prod := Owners(st, made);
    ByName(st, prod, SpecNames(specs), SpecDepends(specs), pos, seq(|ts|, _ => Skipped));
    ghost var eff;
    err, outcomes, eff := RunTasks(ts, sched, boxes, exec, ctx, prod, pos);
    assert TaskStatuses(ts) == st;
    NamedRule(st, prod, SpecNames(specs), SpecDepends(specs), pos, exec, eff, outcomes);
  }
}
