/** pkg/task/operation.go: the earlier revision of the build, with no tag filter.
    Its Operation type, dependsOn, waitDependecies and Run do what pkg/operation's
    do, statement for statement; only names differ (the exported TaskNotification
    and DependencyNotFulfilledErr of package task, the unexported `execute` it
    calls, the logger parameter's name). So they are the class
    Operations.Operation; what is its own is FromTakt, which keeps every task. */
module TaskOperations {
  import opened TaktTypes
  import opened Wiring
  import opened Mailboxes
  import opened Operations

  /** Some task declares a dependency name that is not a task of the file. */
  ghost predicate Unknown(takt: Takt) {
    exists k, m :: k in takt && 0 <= m < |takt[k].depends| && takt[k].depends[m] !in takt
  }

  /** The settings that filter nothing keep every task, in visiting order. */
  lemma {:induction false} NoFilterKeepsAll(takt: Takt, order: seq<string>)
    requires forall k :: k in order ==> k in takt
    ensures KeptNames(takt, order, Settings([])) == order
    decreases |order|
  {
    if order != [] {
      var init := order[..|order| - 1];
      assert forall k :: k in init ==> k in order;
      NoFilterKeepsAll(takt, init);
      assert Selected(takt, Settings([]), order[|order| - 1]);
      assert init + [order[|order| - 1]] == order;
    }
  }

  /** With nothing filtered, a dependency name dangles iff it is not a task. */
  lemma NoFilterDangling(takt: Takt)
    ensures Dangling(takt, Settings([])) <==> Unknown(takt)
  {
    if Unknown(takt) {
      var k, m :| k in takt && 0 <= m < |takt[k].depends| && takt[k].depends[m] !in takt;
      assert Selected(takt, Settings([]), k) && !Selected(takt, Settings([]), takt[k].depends[m]);
    }
  }

  /** The first loop of FromTakt: one new operation with empty channel lists per
      task, visiting the takt file's map in `order`. */
  method NewAll(takt: Takt, order: seq<string>) returns (ops: seq<Operation>)
    requires forall k :: k in order ==> k in takt
    ensures Names(ops) == order
    ensures Distinct(ops)
    ensures forall i :: 0 <= i < |ops| ==> fresh(ops[i]) && ops[i].name in takt && ops[i].task == takt[ops[i].name]
    ensures Statuses(ops) == Empty(|ops|)
  {
    ops := [];
    for p := 0 to |order|
      invariant Names(ops) == order[..p]
      invariant Distinct(ops)
      invariant forall i :: 0 <= i < |ops| ==> fresh(ops[i]) && ops[i].name in takt && ops[i].task == takt[ops[i].name]
      invariant forall i :: 0 <= i < |ops| ==> ops[i].doneNotification == [] && ops[i].waiting == []
    {
      var name := order[p];
      var op := new Operation(name, takt[name]);
      ops := ops + [op];
      assert Names(ops) == order[..p] + [name];
    }
    assert order[..|order|] == order;
    assert Statuses(ops) == Empty(|ops|);
  }

  /** FromTakt: one operation per task (visiting the map in `order`), then resolve
      the dependencies visiting the name map in `mapOrder`. It fails, with "task not
      found" wrapped in "failed to resolve dependencies", exactly when some task
      declares a name that is not a task. Otherwise there is one new operation per
      task, each with its own definition, wired as in pkg/operation. */
  method FromTakt(takt: Takt, order: seq<string>, mapOrder: seq<string>, channels: Channels)
    returns (ops: seq<Operation>, err: Option<Error>)
    requires NoDup(order) && forall k :: k in order <==> k in takt
    requires IsOrderOf(mapOrder, order)
    modifies channels
    ensures err.Some? <==> Unknown(takt)
    ensures err.Some? ==> ops == [] && err.value == Wrapped("failed to resolve dependencies", TaskNotFound)
    ensures err.None? ==>
      && Names(ops) == order
      && Distinct(ops)
      && (forall i :: 0 <= i < |ops| ==> fresh(ops[i]) && ops[i].task == takt[ops[i].name])
      && Wired(Statuses(ops), Names(ops), Dependencies(ops), mapOrder, old(channels.made), channels.made)
  {
    ops := NewAll(takt, order);
    NoFilterKeepsAll(takt, order);
    NoFilterDangling(takt);

    ghost var next := channels.made;
    err := ResolveDeps(ops, mapOrder, channels);
    SelectionBuild(takt, order, Settings([]), Names(ops), Dependencies(ops), mapOrder, next);
    if err.Some? {
      return [], Wrap(err, "failed to resolve dependencies");
    }
  }
}
