/** The goroutines of a run as Go executes them, over unbuffered channels. A unit's
    goroutine performs a fixed sequence of channel actions: it receives on each of its
    inbound channels in list order (waitDependecies), and then, whatever it reports,
    sends on each of its outbound channels in list order (either notify loop of Run).
    Its step runs in between and touches no channel. On an unbuffered channel a send
    and the matching receive happen together: the two goroutines meet, and a goroutine
    whose next action finds no partner waits. The rest of the model runs the units
    over one-slot mailboxes, where a send never waits; this module shows a graph
    without a cycle, built by the model's own wiring, on which the meeting semantics
    blocks every goroutine while the one-slot run accepts it. */
module Rendezvous {
  import opened TaktTypes
  import opened Wiring
  import opened Scheduler

  datatype Action = Recv(c: nat) | Send(c: nat)

  /** The channel action a unit's goroutine performs after its first `pc` ones;
      None once it has returned. */
  function NextAction(s: Status, pc: nat): Option<Action> {
    if pc < |s.waiting| then Some(Recv(s.waiting[pc]))
    else if pc - |s.waiting| < |s.doneNotification| then Some(Send(s.doneNotification[pc - |s.waiting|]))
    else None
  }

  /** Goroutine u is at a send on some channel and goroutine v at the receive on the
      same channel, so the two can meet. */
  predicate CanMeet(st: seq<Status>, pcs: seq<nat>, u: nat, v: nat)
    requires |pcs| == |st|
  {
    && u < |st| && v < |st|
    && NextAction(st[u], pcs[u]).Some? && NextAction(st[u], pcs[u]).value.Send?
    && NextAction(st[v], pcs[v]) == Some(Recv(NextAction(st[u], pcs[u]).value.c))
  }

  /** The meeting of u and v: both move past the action. */
  function Meet(st: seq<Status>, pcs: seq<nat>, u: nat, v: nat): (next: seq<nat>)
    requires |pcs| == |st| && CanMeet(st, pcs, u, v)
    ensures u != v
    ensures |next| == |pcs| && next[u] == pcs[u] + 1 && next[v] == pcs[v] + 1
    ensures forall w :: 0 <= w < |pcs| && w != u && w != v ==> next[w] == pcs[w]
  {
    pcs[u := pcs[u] + 1][v := pcs[v] + 1]
  }

  /** Every goroutine has returned, so `eg.Wait` returns. */
  predicate Finished(st: seq<Status>, pcs: seq<nat>)
    requires |pcs| == |st|
  {
    forall u :: 0 <= u < |st| ==> NextAction(st[u], pcs[u]).None?
  }

  /** Some goroutine has not returned and no two goroutines can meet: every one of
      them waits for ever, and so does `eg.Wait`. */
  predicate Blocked(st: seq<Status>, pcs: seq<nat>)
    requires |pcs| == |st|
  {
    !Finished(st, pcs) && forall u, v :: 0 <= u < |st| && 0 <= v < |st| ==> !CanMeet(st, pcs, u, v)
  }

  // ---------------------------------------------------------------------------
  // A graph without a cycle that blocks

  /** Tasks q (no dependencies), p (depends on q) and y (depends on p, then q). */
  const ExampleNames: seq<string> := ["q", "p", "y"]
  const ExampleDepends: seq<seq<string>> := [[], ["q"], ["p", "q"]]

  /** One iteration order of the name map: y, then p, then q. */
  const ExampleMapOrder: seq<string> := ["y", "p", "q"]

  /** What the wiring gives: y links to p on channel 0 and to q on channel 1, then
      p links to q on channel 2. */
  const ExampleWiring: seq<Status> := [Status([1, 2], []), Status([0], [2]), Status([], [0, 1])]

  lemma ExampleIndex()
    ensures Positions(ExampleNames) == map["q" := 0, "p" := 1, "y" := 2]
  {
    var names := ExampleNames;
    assert names[..2][..1] == ["q"];
    assert ["q"][..0] == [];
    assert Positions(["q"]) == map["q" := 0];
    assert Positions(names[..2]) == map["q" := 0, "p" := 1];
  }

  /** Visiting y first links it to p on channel 0 and to q on channel 1. */
  lemma ExampleVisitY()
    ensures WireAll(Empty(3), Positions(ExampleNames), ExampleDepends, ExampleMapOrder[..1], 0)
         == Some(([Status([1], []), Status([0], []), Status([], [0, 1])], 2))
  {
    ExampleIndex();
    var index := Positions(ExampleNames);
    var d := ["p", "q"];
    assert d[..1][..0] == [];
    var y1 := Link(Empty(3), 2, 1, 0);
    assert y1 == [Status([], []), Status([0], []), Status([], [0])] by {
      assert y1[0] == Status([], []) && y1[1] == Status([0], []) && y1[2] == Status([], [0]);
    }
    assert WireDeps(Empty(3), index, 2, d[..1], 0) == Some((y1, 1));
    var y2 := Link(y1, 2, 0, 1);
    assert y2 == [Status([1], []), Status([0], []), Status([], [0, 1])] by {
      assert y2[0] == Status([1], []) && y2[1] == Status([0], []) && y2[2] == Status([], [0, 1]);
    }
    assert WireDeps(Empty(3), index, 2, d, 0) == Some((y2, 2));
    assert ExampleMapOrder[..1][..0] == [];
  }

  /** Resolving the dependencies of y, p and q in that order yields ExampleWiring. */
  lemma ExampleBuild()
    ensures WireAll(Empty(3), Positions(ExampleNames), ExampleDepends, ExampleMapOrder, 0) == Some((ExampleWiring, 3))
  {
    ExampleIndex();
    ExampleVisitY();
    var index := Positions(ExampleNames);
    var depsOf, mapOrder := ExampleDepends, ExampleMapOrder;
    var y2 := [Status([1], []), Status([0], []), Status([], [0, 1])];
    var p1 := Link(y2, 1, 0, 2);
    assert p1 == ExampleWiring by {
      assert p1[0] == Status([1, 2], []) && p1[1] == Status([0], [2]) && p1[2] == Status([], [0, 1]);
    }
    assert ["q"][..0] == [];
    assert WireDeps(y2, index, 1, ["q"], 2) == Some((p1, 3));
    assert mapOrder[..2][..1] == mapOrder[..1];
    assert WireAll(Empty(3), index, depsOf, mapOrder[..2], 0) == Some((p1, 3));
    assert mapOrder[..3][..2] == mapOrder[..2];
    assert mapOrder[..3] == mapOrder;
  }

  /** Before any channel action, q is at its send on channel 1, whose receiver y is
      at its receive on channel 0, whose sender p is at its receive on channel 2,
      whose sender is q: no two goroutines can meet. */
  lemma ExampleBlocked()
    ensures Blocked(ExampleWiring, [0, 0, 0])
  {
    var st, pcs := ExampleWiring, [0, 0, 0];
    assert NextAction(st[0], 0) == Some(Send(1));
    assert NextAction(st[1], 0) == Some(Recv(2));
    assert NextAction(st[2], 0) == Some(Recv(0));
    assert !Finished(st, pcs);
    forall u, v | 0 <= u < 3 && 0 <= v < 3 ensures !CanMeet(st, pcs, u, v) {
      assert u == 0 || u == 1 || u == 2;
    }
  }

  /** q, p, y is a completion order in which every task follows the tasks it names. */
  lemma ExampleOrder()
    ensures Schedule(3, [0, 1, 2], [0, 1, 2]) && NamedBefore(ExampleNames, ExampleDepends, [0, 1, 2])
  {
    ExampleIndex();
    var depsOf := ExampleDepends;
    assert depsOf[1] == ["q"] && depsOf[2] == ["p", "q"];
  }

  /** The example's build succeeds and is wired, and the completion order q, p, y
      puts every task after the tasks it names, so the one-slot run
      (Scheduler.RunWired) settles all three tasks. With unbuffered channels the
      same build blocks every goroutine before any channel action, so `eg.Wait`
      never returns. */
  lemma AcyclicDeadlock()
    ensures NoDup(ExampleNames) && IsOrderOf(ExampleMapOrder, ExampleNames)
    ensures var w := WireAll(Empty(3), Positions(ExampleNames), ExampleDepends, ExampleMapOrder, 0);
      && w.Some? && Wired(w.value.0, ExampleNames, ExampleDepends, ExampleMapOrder, 0, w.value.1)
      && Blocked(w.value.0, [0, 0, 0])
    ensures Schedule(3, [0, 1, 2], [0, 1, 2]) && NamedBefore(ExampleNames, ExampleDepends, [0, 1, 2])
  {
    ExampleIndex();
    assert NoDup(ExampleNames);
    assert IsOrderOf(ExampleMapOrder, ExampleNames);
    BuildWired(ExampleNames, ExampleDepends, ExampleMapOrder, 0);
    ExampleBuild();
    ExampleBlocked();
    ExampleOrder();
  }
}
