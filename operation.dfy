/** pkg/operation/operation.go: the tag filter, the build of one Operation per
    selected task with its dependency channels, and the per-operation protocol
    "wait for every dependency, then skip or execute, then notify every dependent". */
module Operations {
  import opened TaktTypes
  import opened Wiring
  import opened Mailboxes
  import opened OptionFold

  // ---------------------------------------------------------------------------
  // Options and the tag filter

  /** The `option` struct. */
  datatype Settings = Settings(tagOnlyList: seq<string>)

  /** An `Option`: a change to the settings. */
  type OptionFunc = Settings -> Settings

  /** WithOnlyTags(): no tags gives the option that changes nothing; otherwise the
      option replaces the tag list by the given tags. */
  function WithOnlyTags(tags: seq<string>): (r: OptionFunc)
    ensures |tags| == 0 ==> forall o :: r(o) == o
    ensures |tags| > 0 ==> forall o :: r(o).tagOnlyList == tags
  {
    if |tags| == 0 then (o: Settings) => o else (o: Settings) => o.(tagOnlyList := tags)
  }

  /** The settings FromTakt works with: every option applied in order to the zero value. */
  ghost function SettingsOf(opts: seq<OptionFunc>): Settings {
    ApplyAll(Settings([]), opts)
  }

  /** When a later option does not touch the tag list, the last option that sets it wins. */
  lemma {:induction false} LastTagsWin(opts: seq<OptionFunc>, k: nat, tags: seq<string>)
    requires k < |opts|
    requires forall o :: opts[k](o).tagOnlyList == tags
    requires forall j, o :: k < j < |opts| ==> opts[j](o).tagOnlyList == o.tagOnlyList
    ensures SettingsOf(opts).tagOnlyList == tags
    decreases |opts|
  {
    if k < |opts| - 1 {
      LastTagsWin(opts[..|opts| - 1], k, tags);
    }
  }

  /** Options that never touch the tag list leave it empty. */
  lemma {:induction false} NoTagOptions(opts: seq<OptionFunc>)
    requires forall j, o :: 0 <= j < |opts| ==> opts[j](o).tagOnlyList == o.tagOnlyList
    ensures SettingsOf(opts).tagOnlyList == []
    decreases |opts|
  {
    if opts != [] {
      NoTagOptions(opts[..|opts| - 1]);
    }
  }

  /** option.available: with no tag list every task is selected; otherwise a task is
      selected iff one of its tags equals one of the listed tags. */
  ghost predicate Kept(o: Settings, t: TaskDef) {
    |o.tagOnlyList| == 0 ||
    exists i, j :: 0 <= i < |o.tagOnlyList| && 0 <= j < |t.tags| && o.tagOnlyList[i] == t.tags[j]
  }

  method Available(o: Settings, t: TaskDef) returns (r: bool)
    ensures r == Kept(o, t)
    ensures |o.tagOnlyList| == 0 ==> r
    ensures |o.tagOnlyList| > 0 && |t.tags| == 0 ==> !r
  {
    if |o.tagOnlyList| > 0 {
      for i := 0 to |o.tagOnlyList|
        invariant forall i', j :: 0 <= i' < i && 0 <= j < |t.tags| ==> o.tagOnlyList[i'] != t.tags[j]
      {
        var only := o.tagOnlyList[i];
        for j := 0 to |t.tags|
          invariant forall j' :: 0 <= j' < j ==> only != t.tags[j']
        {
          if only == t.tags[j] {
            return true;
          }
        }
      }
      return false;
    }
    return true;
  }

  // ---------------------------------------------------------------------------
  // Operation

  /** One unit of the graph. The task definition and the name never change after
      construction; the two channel lists are appended to while the graph is built. */
  class Operation {
    const name: string
    const task: TaskDef
    var doneNotification: seq<nat>
    var waiting: seq<nat>

    constructor (name: string, task: TaskDef)
      ensures this.name == name && this.task == task
      ensures doneNotification == [] && waiting == []
    {
      this.name := name;
      this.task := task;
      doneNotification := [];
      waiting := [];
    }

    /** t.dependsOn(dependedTask): one fresh channel, appended to the depended-on
        operation's outbound list and to this operation's inbound list. */
    method DependsOn(dependedTask: Operation, channels: Channels)
      modifies this, dependedTask, channels
      ensures channels.made == old(channels.made) + 1
      ensures dependedTask.doneNotification == old(dependedTask.doneNotification) + [old(channels.made)]
      ensures waiting == old(waiting) + [old(channels.made)]
      ensures this != dependedTask ==>
        doneNotification == old(doneNotification) && dependedTask.waiting == old(dependedTask.waiting)
    {
      var c := channels.Make();
      dependedTask.doneNotification := dependedTask.doneNotification + [c];
      waiting := waiting + [c];
    }

    /** waitDependecies: receive from every inbound channel (all of them, even after
        a not-ok one); the dependency-not-fulfilled error iff some notification is
        not ok. With no inbound channel nothing is received and the result is nil. */
    method WaitDependencies(boxes: array<Option<Notification>>)
      returns (err: Option<Error>, ghost received: seq<Notification>)
      requires AllFull(boxes, waiting)
      ensures |received| == |waiting|
      ensures forall k :: 0 <= k < |waiting| ==> received[k] == boxes[waiting[k]].value
      ensures err.None? <==> AllOk(boxes, waiting)
      ensures err.Some? ==> err.value == DependencyNotFulfilled
      ensures waiting == [] ==> err.None?
    {
      var okToGo;
      okToGo, received := ReceiveAll(boxes, waiting);
      if !okToGo {
        return Some(DependencyNotFulfilled), received;
      }
      return None, received;
    }

    /** Operation.Run: wait, then execute the task (its result is `exec`, consulted
        only when every dependency succeeded), then send one notification carrying
        this name on every outbound channel, ok only on success. A skip returns nil;
        an execution error is returned as it is. `outcome` records how it settled. */
    method Run(boxes: array<Option<Notification>>, exec: Option<StepError>)
      returns (err: Option<Error>, ghost outcome: Outcome)
      requires AllFull(boxes, waiting)
      requires AllEmpty(boxes, doneNotification) && NoDup(doneNotification)
      modifies boxes
      ensures outcome == Settle(old(AllOk(boxes, waiting)), exec)
      ensures forall k :: 0 <= k < |doneNotification| ==>
        boxes[doneNotification[k]] == Some(Notification(outcome == Succeeded, name))
      ensures forall c :: 0 <= c < boxes.Length && c !in doneNotification ==> boxes[c] == old(boxes[c])
      ensures err == Reported(outcome)
    {
      var runErr: Option<Error>;
      var waitErr, _ := WaitDependencies(boxes);
      if waitErr.Some? {
        runErr := waitErr;
        outcome := Skipped;
      } else if exec.Some? {
        runErr := Some(StepFailed(exec.value));
        outcome := Failed(exec.value);
      } else {
        runErr := None;
        outcome := Succeeded;
      }

      if runErr.Some? {
        SendAll(boxes, doneNotification, Notification(false, name));
        if runErr.value == DependencyNotFulfilled {
          return None, outcome;
        }
        return runErr, outcome;
      }

      SendAll(boxes, doneNotification, Notification(true, name));
      return None, outcome;
    }
  }

  /** How a unit settles: skipped unless every dependency succeeded; otherwise the
      step runner's result decides. */
  function Settle(depsOk: bool, exec: Option<StepError>): (o: Outcome)
    ensures o == Skipped <==> !depsOk
    ensures o == Succeeded <==> depsOk && exec.None?
    ensures o.Failed? <==> depsOk && exec.Some?
  {
    if !depsOk then Skipped
    else if exec.None? then Succeeded
    else Failed(exec.value)
  }

  /** What Run returns for an outcome: nil for a skip and a success, the step error for a failure. */
  function Reported(o: Outcome): (r: Option<Error>)
    ensures r.Some? <==> o.Failed?
  {
    match o
    case Failed(e) => Some(StepFailed(e))
    case _ => None
  }

  // ---------------------------------------------------------------------------
  // Building the graph

  /** The names of a list of operations, in list order. */
  function Names(ops: seq<Operation>): (r: seq<string>)
    ensures |r| == |ops| && forall i :: 0 <= i < |ops| ==> r[i] == ops[i].name
  {
    seq(|ops|, i requires 0 <= i < |ops| => ops[i].name)
  }

  /** The declared dependency names of a list of operations, in list order. */
  function Dependencies(ops: seq<Operation>): (r: seq<seq<string>>)
    ensures |r| == |ops| && forall i :: 0 <= i < |ops| ==> r[i] == ops[i].task.depends
  {
    seq(|ops|, i requires 0 <= i < |ops| => ops[i].task.depends)
  }

  /** The channel lists of a list of operations, as values. */
  ghost function Statuses(ops: seq<Operation>): (r: seq<Status>)
    reads ops
    ensures |r| == |ops|
  {
    seq(|ops|, i reads ops requires 0 <= i < |ops| => Status(ops[i].doneNotification, ops[i].waiting))
  }

  predicate Distinct(ops: seq<Operation>) {
    forall i, j :: 0 <= i < j < |ops| ==> ops[i] != ops[j]
  }

  /** The first loop of resolveDeps, `opMap[op.Name] = op`: the map sends each name to
      the last operation carrying it, which is the one `Positions` names. */
  method NameMap(ops: seq<Operation>) returns (opMap: map<string, Operation>, ghost index: map<string, nat>)
    ensures index == Positions(Names(ops))
    ensures opMap.Keys == index.Keys
    ensures forall k :: k in opMap ==> opMap[k] == ops[index[k]]
  {
    ghost var names := Names(ops);
    opMap := map[];
    index := map[];
    for i := 0 to |ops|
      invariant index == Positions(names[..i])
      invariant opMap.Keys == index.Keys
      invariant forall k :: k in opMap ==> index[k] < |ops| && opMap[k] == ops[index[k]]
    {
      PositionsSnoc(names, i);
      opMap := opMap[ops[i].name := ops[i]];
      index := index[ops[i].name := i];
    }
    assert names[..|ops|] == names;
  }

  /** `t.dependsOn(d)` seen on the whole operation list: the lists become Link's
      result for the fresh channel, and every other operation is untouched. */
  method DependsOnWithin(ops: seq<Operation>, t: Operation, ghost ti: nat, d: Operation, ghost di: nat, channels: Channels)
    requires Distinct(ops) && ti < |ops| && di < |ops| && ops[ti] == t && ops[di] == d
    modifies ops, channels
    ensures channels.made == old(channels.made) + 1
    ensures Statuses(ops) == Link(old(Statuses(ops)), ti, di, old(channels.made))
  {
    ghost var linked := Link(Statuses(ops), ti, di, channels.made);
    t.DependsOn(d, channels);
    forall i | 0 <= i < |ops| ensures Statuses(ops)[i] == linked[i] {
      if i != ti && i != di {
        assert ops[i] != t && ops[i] != d;
      }
    }
  }

  /** The inner loop of resolveDeps for operation `t` (at position ti): link it to the
      operation each dependency name denotes, in order; false at the first unknown
      name. On success the lists are exactly WireDeps's result. */
  method LinkDeps(ops: seq<Operation>, opMap: map<string, Operation>, ghost index: map<string, nat>,
                  t: Operation, ghost ti: nat, channels: Channels)
    returns (ok: bool)
    requires Distinct(ops) && ti < |ops| && ops[ti] == t
    requires IndexOk(index, |ops|) && opMap.Keys == index.Keys
    requires forall k :: k in opMap ==> opMap[k] == ops[index[k]]
    modifies ops, channels
    ensures var w := WireDeps(old(Statuses(ops)), index, ti, t.task.depends, old(channels.made));
      && (ok <==> w.Some?)
      && (w.Some? ==> Statuses(ops) == w.value.0 && channels.made == w.value.1)
  {
    ghost var st := Statuses(ops);
    ghost var next := channels.made;
    var deps := t.task.depends;
    for k := 0 to |deps|
      invariant WireDeps(st, index, ti, deps[..k], next) == Some((Statuses(ops), channels.made))
    {
      var dependedTaskName := deps[k];
      if dependedTaskName !in opMap {
        WireDepsDefined(st, index, ti, deps, next);
        return false;
      }
      var dependedTask := opMap[dependedTaskName];
      ghost var before, c := Statuses(ops), channels.made;
      DependsOnWithin(ops, t, ti, dependedTask, index[dependedTaskName], channels);
      WireDepsStep(st, index, ti, deps, k, next, (before, c));
    }
    assert deps[..|deps|] == deps;
    return true;
  }

  /** resolveDeps: put every operation in a name map, then, visiting the map in
      `mapOrder`, link each operation to the operation each of its dependency names
      denotes, in declaration order; stop with "task not found" at the first name
      that is not in the map. On success the channel lists are exactly the wiring
      function's result; on failure that result does not exist (the partly linked
      lists are discarded by the caller). */
  method ResolveDeps(ops: seq<Operation>, mapOrder: seq<string>, channels: Channels) returns (err: Option<Error>)
    requires Distinct(ops)
    requires IsOrderOf(mapOrder, Names(ops))
    modifies ops, channels
    ensures forall p :: 0 <= p < |mapOrder| ==> mapOrder[p] in Positions(Names(ops))
    ensures var w := WireAll(old(Statuses(ops)), Positions(Names(ops)), Dependencies(ops), mapOrder, old(channels.made));
      && (err.None? <==> w.Some?)
      && (err.Some? ==> err.value == TaskNotFound)
      && (w.Some? ==> Statuses(ops) == w.value.0 && channels.made == w.value.1)
  {
    ghost var depsOf := Dependencies(ops);
    ghost var st0 := Statuses(ops);
    ghost var next0 := channels.made;
    var opMap, index := NameMap(ops);

    for p := 0 to |mapOrder|
      invariant WireAll(st0, index, depsOf, mapOrder[..p], next0) == Some((Statuses(ops), channels.made))
    {
      WireAllStep(st0, index, depsOf, mapOrder, p, next0, (Statuses(ops), channels.made));
      var t := opMap[mapOrder[p]];
      ghost var wp, np := Statuses(ops), channels.made;
      var ok := LinkDeps(ops, opMap, index, t, index[mapOrder[p]], channels);
      if !ok {
        WireAllFailsAt(st0, index, depsOf, mapOrder, p, next0, (wp, np));
        return Some(TaskNotFound);
      }
    }
    assert mapOrder[..|mapOrder|] == mapOrder;
    return None;
  }

  /** A task is selected when it is in the takt file and the settings keep it. */
  ghost predicate Selected(takt: Takt, o: Settings, name: string) {
    name in takt && Kept(o, takt[name])
  }

  /** The selected names of `order`, in that order. */
  ghost function KeptNames(takt: Takt, order: seq<string>, o: Settings): (r: seq<string>)
    ensures forall k :: k in r <==> k in order && Selected(takt, o, k)
    ensures NoDup(order) ==> NoDup(r)
    decreases |order|
  {
    if order == [] then []
    else
      var init := KeptNames(takt, order[..|order| - 1], o);
      var last := order[|order| - 1];
      assert forall k :: k in order[..|order| - 1] ==> k in order;
      if Selected(takt, o, last) then init + [last] else init
  }

  /** Some selected task declares a dependency name that is not a selected task:
      unknown, or filtered out by the tags. */
  ghost predicate Dangling(takt: Takt, o: Settings) {
    exists k, m :: Selected(takt, o, k) && 0 <= m < |takt[k].depends| && !Selected(takt, o, takt[k].depends[m])
  }

  /** The first loop of FromTakt: visiting the takt file's map in `order`, one new
      operation with empty channel lists per task the settings keep, in that order. */
  method NewOperations(takt: Takt, order: seq<string>, o: Settings) returns (ops: seq<Operation>)
    requires forall k :: k in order ==> k in takt
    ensures Names(ops) == KeptNames(takt, order, o)
    ensures Distinct(ops)
    ensures forall i :: 0 <= i < |ops| ==> fresh(ops[i]) && ops[i].name in takt && ops[i].task == takt[ops[i].name]
    ensures Statuses(ops) == Empty(|ops|)
  {
    ops := [];
    for p := 0 to |order|
      invariant Names(ops) == KeptNames(takt, order[..p], o)
      invariant Distinct(ops)
      invariant forall i :: 0 <= i < |ops| ==> fresh(ops[i]) && ops[i].name in takt && ops[i].task == takt[ops[i].name]
      invariant forall i :: 0 <= i < |ops| ==> ops[i].doneNotification == [] && ops[i].waiting == []
    {
      assert order[..p + 1][..p] == order[..p];
      var name := order[p];
      var keep := Available(o, takt[name]);
      if keep {
        var op := new Operation(name, takt[name]);
        ops := ops + [op];
      }
    }
    assert order[..|order|] == order;
    assert Statuses(ops) == Empty(|ops|);
  }

  /** FromTakt: fold the options, create one operation per selected task (visiting the
      takt file's map in `order`), then resolve the dependencies visiting the name map
      in `mapOrder`. It fails, returning no operations and the wrapped "task not
      found", exactly when some selected task names a task that is not selected.
      Otherwise the operations are new, one per selected task in visiting order, each
      with its own task definition; each has one inbound channel per declared name,
      coming from the operation of that name; every new channel has exactly one
      sender and one receiver. */
  method FromTakt(takt: Takt, order: seq<string>, mapOrder: seq<string>, opts: seq<OptionFunc>, channels: Channels)
    returns (ops: seq<Operation>, err: Option<Error>)
    requires NoDup(order) && forall k :: k in order <==> k in takt
    requires IsOrderOf(mapOrder, KeptNames(takt, order, SettingsOf(opts)))
    modifies channels
    ensures err.Some? <==> Dangling(takt, SettingsOf(opts))
    ensures err.Some? ==> ops == [] && err.value == Wrapped("failed to resolve dependencies", TaskNotFound)
    ensures err.None? ==>
      && Names(ops) == KeptNames(takt, order, SettingsOf(opts))
      && Distinct(ops)
      && (forall i :: 0 <= i < |ops| ==> fresh(ops[i]) && ops[i].name in takt && ops[i].task == takt[ops[i].name])
      && Wired(Statuses(ops), Names(ops), Dependencies(ops), mapOrder, old(channels.made), channels.made)
  {
    var o := Fold(Settings([]), opts);
    ops := NewOperations(takt, order, o);

    ghost var next := channels.made;
    err := ResolveDeps(ops, mapOrder, channels);
    SelectionBuild(takt, order, o, Names(ops), Dependencies(ops), mapOrder, next);
    if err.Some? {
      return [], Wrap(err, "failed to resolve dependencies");
    }
  }

  /** What resolving the dependencies of a selection yields, from fresh operations. */
  lemma SelectionBuild(takt: Takt, order: seq<string>, o: Settings, names: seq<string>, depsOf: seq<seq<string>>,
                       mapOrder: seq<string>, next: nat)
    requires NoDup(order) && (forall k :: k in order <==> k in takt) && names == KeptNames(takt, order, o)
    requires |depsOf| == |names| && forall i :: 0 <= i < |names| ==> names[i] in takt && depsOf[i] == takt[names[i]].depends
    requires IsOrderOf(mapOrder, names)
    ensures forall p :: 0 <= p < |mapOrder| ==> mapOrder[p] in Positions(names)
    ensures var w := WireAll(Empty(|names|), Positions(names), depsOf, mapOrder, next);
      && (w.Some? <==> !Dangling(takt, o))
      && (w.Some? ==> Wired(w.value.0, names, depsOf, mapOrder, next, w.value.1))
  {
    ResolvableIffSelected(takt, o, names, depsOf, mapOrder);
    BuildWired(names, depsOf, mapOrder, next);
  }

  /** Resolving every visited name succeeds exactly when no selected task names a
      task that is not selected. */
  lemma ResolvableIffSelected(takt: Takt, o: Settings, names: seq<string>, depsOf: seq<seq<string>>, mapOrder: seq<string>)
    requires |depsOf| == |names| && forall i :: 0 <= i < |names| ==> names[i] in takt && depsOf[i] == takt[names[i]].depends
    requires forall k :: k in names <==> Selected(takt, o, k)
    requires forall k :: k in mapOrder <==> k in names
    ensures (forall p :: 0 <= p < |mapOrder| ==> mapOrder[p] in Positions(names))
    ensures (forall p :: 0 <= p < |mapOrder| ==>
               Resolvable(Positions(names), depsOf[Positions(names)[mapOrder[p]]]))
        <==> !Dangling(takt, o)
  {
    var index := Positions(names);
    if Dangling(takt, o) {
      var k, m :| Selected(takt, o, k) && 0 <= m < |takt[k].depends| && !Selected(takt, o, takt[k].depends[m]);
      var p :| 0 <= p < |mapOrder| && mapOrder[p] == k;
      assert !Resolvable(index, depsOf[index[mapOrder[p]]]);
    } else {
      forall p | 0 <= p < |mapOrder| ensures Resolvable(index, depsOf[index[mapOrder[p]]]) {
        var k := mapOrder[p];
        assert Selected(takt, o, k);
        assert depsOf[index[k]] == takt[k].depends;
      }
    }
  }
}
