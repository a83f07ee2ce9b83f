/** A sequential stand-in for running every unit in its own goroutine and joining
    them (`eg.Go` for each unit, then `eg.Wait`). The units run one after another
    in a schedule `sched` in which every unit comes after the producers of all its
    inbound channels; goroutines that block on their inbound channels can only
    complete in such an order, when they complete at all. Sends go to one-slot
    mailboxes and never wait, so every such schedule runs to the end; with Go's
    unbuffered channels some acyclic graphs block instead (module Rendezvous). The
    value-level part (which unit sends on which channel, what a unit's dependencies
    reported) is shared by every revision of the engine. */
module Scheduler {
  import opened TaktTypes
  import opened Wiring
  import opened Mailboxes
  import opened Operations

  // ---------------------------------------------------------------------------
  // Channel owners and schedules, on values

  /** prod[c] is the one unit that sends on channel c; every channel a unit sends on
      or waits on is one of 0..|prod|-1; no unit lists an outbound channel twice. */
  ghost predicate Producers(st: seq<Status>, prod: seq<nat>) {
    && (forall c :: 0 <= c < |prod| ==> prod[c] < |st| && c in st[prod[c]].doneNotification)
    && (forall j, k :: 0 <= j < |st| && 0 <= k < |st[j].doneNotification| ==>
          st[j].doneNotification[k] < |prod| && prod[st[j].doneNotification[k]] == j)
    && (forall j :: 0 <= j < |st| ==> NoDup(st[j].doneNotification))
    && (forall i, k :: 0 <= i < |st| && 0 <= k < |st[i].waiting| ==> st[i].waiting[k] < |prod|)
  }

  /** The unit that sends on channel c, when the channels 0..hi-1 were each made
      for exactly one dependency edge. */
  ghost function Owner(st: seq<Status>, hi: nat, c: nat): (j: nat)
    requires ChannelsOnce(st, 0, hi) && c < hi
    ensures j < |st| && c in st[j].doneNotification
  {
    assert Listed(Dones(st), c);
    var j :| 0 <= j < |st| && c in Dones(st)[j];
    j
  }

  /** The owner of every channel 0..hi-1. */
  ghost function Owners(st: seq<Status>, hi: nat): (prod: seq<nat>)
    requires ChannelsOnce(st, 0, hi)
    ensures |prod| == hi && forall c :: 0 <= c < hi ==> prod[c] == Owner(st, hi, c)
  {
    seq(hi, c requires 0 <= c < hi => Owner(st, hi, c))
  }

  /** A finished build, whose channels are 0..hi-1 each made once, has a producer
      table: its owners. */
  lemma OwnersAreProducers(st: seq<Status>, hi: nat)
    requires ChannelsOnce(st, 0, hi)
    ensures Producers(st, Owners(st, hi))
  {
    var prod := Owners(st, hi);
    var ds := Dones(st);
    forall j, k | 0 <= j < |st| && 0 <= k < |st[j].doneNotification|
      ensures st[j].doneNotification[k] < |prod| && prod[st[j].doneNotification[k]] == j
    {
      var c := st[j].doneNotification[k];
      assert c in ds[j];
      assert c < hi;
      assert c in ds[prod[c]];
    }
    forall j | 0 <= j < |st| ensures NoDup(st[j].doneNotification) {
      assert ds[j] == st[j].doneNotification;
    }
    forall i, k | 0 <= i < |st| && 0 <= k < |st[i].waiting| ensures st[i].waiting[k] < |prod| {
      assert st[i].waiting[k] in Waits(st)[i];
    }
  }

  /** Unit i's k-th inbound channel is sent on by the unit its k-th dependency name
      denotes, and it has one inbound channel per name. */
  ghost predicate Denotes(st: seq<Status>, prod: seq<nat>, names: seq<string>, depsOf: seq<seq<string>>)
    requires Producers(st, prod)
  {
    && |st| == |names| == |depsOf|
    && (forall i :: 0 <= i < |st| ==> |st[i].waiting| == |depsOf[i]|)
    && (forall i, k :: 0 <= i < |st| && 0 <= k < |depsOf[i]| ==>
          && k < |st[i].waiting| && depsOf[i][k] in Positions(names)
          && prod[st[i].waiting[k]] == Positions(names)[depsOf[i][k]])
  }

  /** In a wired build over distinct names whose channels are 0..hi-1, each channel's
      owner is the unit the corresponding dependency name denotes. */
  lemma WiredProducers(st: seq<Status>, names: seq<string>, depsOf: seq<seq<string>>, mapOrder: seq<string>, hi: nat)
    requires NoDup(names) && IsOrderOf(mapOrder, names) && Wired(st, names, depsOf, mapOrder, 0, hi)
    ensures Producers(st, Owners(st, hi))
    ensures Denotes(st, Owners(st, hi), names, depsOf)
  {
    OwnersAreProducers(st, hi);
    var index := Positions(names);
    var prod := Owners(st, hi);
    PositionsOfDistinct(names);
    forall i, k | 0 <= i < |st| && 0 <= k < |depsOf[i]|
      ensures k < |st[i].waiting| && depsOf[i][k] in index && prod[st[i].waiting[k]] == index[depsOf[i][k]]
    {
      assert names[i] in names;
      var p :| 0 <= p < |mapOrder| && mapOrder[p] == names[i];
      assert index[mapOrder[p]] == i;
      assert Resolved(st, index, i, depsOf[i]);
      var c := st[i].waiting[k];
      var j := index[depsOf[i][k]];
      assert c in st[j].doneNotification;
      var m :| 0 <= m < |st[j].doneNotification| && st[j].doneNotification[m] == c;
    }
  }

  /** Every unit that unit i's dependency names denote succeeded. */
  ghost predicate NamedDepsSucceeded(names: seq<string>, depsOf: seq<seq<string>>, outcomes: seq<Outcome>, i: nat)
    requires |depsOf| == |names| == |outcomes| && i < |names|
  {
    forall k :: 0 <= k < |depsOf[i]| ==>
      depsOf[i][k] in Positions(names) && outcomes[Positions(names)[depsOf[i][k]]] == Succeeded
  }

  /** Every unit comes, in the schedule with positions pos, after the units its
      dependency names denote. */
  ghost predicate NamedBefore(names: seq<string>, depsOf: seq<seq<string>>, pos: seq<nat>)
    requires |depsOf| == |names| == |pos|
  {
    forall i, k :: 0 <= i < |names| && 0 <= k < |depsOf[i]| && depsOf[i][k] in Positions(names) ==>
      pos[Positions(names)[depsOf[i][k]]] < pos[i]
  }

  /** Over such a build, "the producers of my inbound channels succeeded" is "the
      units my dependency names denote succeeded", and a schedule in which every
      unit follows the units it names runs every producer before its consumers. */
  lemma ByName(st: seq<Status>, prod: seq<nat>, names: seq<string>, depsOf: seq<seq<string>>, pos: seq<nat>, outcomes: seq<Outcome>)
    requires Producers(st, prod) && Denotes(st, prod, names, depsOf) && |pos| == |st| && |outcomes| == |st|
    ensures forall i :: 0 <= i < |st| ==> DepsSucceeded(st, prod, outcomes, i) == NamedDepsSucceeded(names, depsOf, outcomes, i)
    ensures NamedBefore(names, depsOf, pos) ==> Topological(st, prod, pos)
  {
    forall i | 0 <= i < |st| ensures DepsSucceeded(st, prod, outcomes, i) == NamedDepsSucceeded(names, depsOf, outcomes, i) {
      assert |st[i].waiting| == |depsOf[i]|;
    }
    if NamedBefore(names, depsOf, pos) {
      forall i, k | 0 <= i < |st| && 0 <= k < |st[i].waiting| ensures pos[prod[st[i].waiting[k]]] < pos[i] {
        assert k < |depsOf[i]|;
      }
    }
  }

  /** sched lists the units 0..n-1 once each, and pos is its inverse: unit i runs
      at step pos[i]. */
  ghost predicate Schedule(n: nat, sched: seq<nat>, pos: seq<nat>) {
    && |sched| == n && |pos| == n
    && (forall s :: 0 <= s < n ==> sched[s] < n && pos[sched[s]] == s)
    && (forall i :: 0 <= i < n ==> pos[i] < n && sched[pos[i]] == i)
  }

  /** Every unit runs after the producers of all its inbound channels. */
  ghost predicate Topological(st: seq<Status>, prod: seq<nat>, pos: seq<nat>)
    requires Producers(st, prod) && |pos| == |st|
  {
    forall i, k :: 0 <= i < |st| && 0 <= k < |st[i].waiting| ==> pos[prod[st[i].waiting[k]]] < pos[i]
  }

  /** Every unit that sends on one of unit i's inbound channels succeeded. */
  ghost predicate DepsSucceeded(st: seq<Status>, prod: seq<nat>, outcomes: seq<Outcome>, i: nat)
    requires Producers(st, prod) && i < |st| && |outcomes| == |st|
  {
    forall k :: 0 <= k < |st[i].waiting| ==> outcomes[prod[st[i].waiting[k]]] == Succeeded
  }

  /** The rule every unit follows: it is skipped unless all its dependencies
      succeeded, and otherwise its step runner's result decides. */
  ghost predicate Settled(st: seq<Status>, prod: seq<nat>, exec: seq<Option<StepError>>, outcomes: seq<Outcome>, i: nat)
    requires Producers(st, prod) && i < |st| && |outcomes| == |st| && |exec| == |st|
  {
    outcomes[i] == Settle(DepsSucceeded(st, prod, outcomes, i), exec[i])
  }

  /** The units of the first s steps have settled by the rule. */
  ghost predicate SettledUpTo(st: seq<Status>, prod: seq<nat>, pos: seq<nat>, exec: seq<Option<StepError>>, outcomes: seq<Outcome>, s: nat)
    requires Producers(st, prod) && |pos| == |st| && |outcomes| == |st| && |exec| == |st|
  {
    forall i :: 0 <= i < |st| && pos[i] < s ==> Settled(st, prod, exec, outcomes, i)
  }

  /** Settling the unit of step s keeps every earlier unit settled: their
      dependencies all ran before them, so none of those is the unit just run. */
  lemma SettleNext(st: seq<Status>, prod: seq<nat>, pos: seq<nat>, exec: seq<Option<StepError>>, outcomes: seq<Outcome>, u: nat)
    requires Producers(st, prod) && |pos| == |st| && Topological(st, prod, pos)
    requires |outcomes| == |st| && |exec| == |st| && u < |st|
    requires forall i :: 0 <= i < |st| && i != u ==> pos[i] != pos[u]
    requires SettledUpTo(st, prod, pos, exec, outcomes, pos[u])
    ensures var o := Settle(DepsSucceeded(st, prod, outcomes, u), exec[u]);
      && DepsSucceeded(st, prod, outcomes[u := o], u) == DepsSucceeded(st, prod, outcomes, u)
      && SettledUpTo(st, prod, pos, exec, outcomes[u := o], pos[u] + 1)
  {
    var o := Settle(DepsSucceeded(st, prod, outcomes, u), exec[u]);
    var next := outcomes[u := o];
    forall i | 0 <= i < |st| && pos[i] < pos[u]
      ensures DepsSucceeded(st, prod, next, i) == DepsSucceeded(st, prod, outcomes, i)
    {
      assert forall k :: 0 <= k < |st[i].waiting| ==> pos[prod[st[i].waiting[k]]] < pos[i];
    }
    assert forall k :: 0 <= k < |st[u].waiting| ==> pos[prod[st[u].waiting[k]]] < pos[u];
  }

  /** Settling depends only on the step results of the units settled so far. */
  lemma ExecFrame(st: seq<Status>, prod: seq<nat>, pos: seq<nat>, exec: seq<Option<StepError>>, exec2: seq<Option<StepError>>,
                  outcomes: seq<Outcome>, s: nat)
    requires Producers(st, prod) && |pos| == |st| && |outcomes| == |st| && |exec| == |st| && |exec2| == |st|
    requires forall i :: 0 <= i < |st| && pos[i] < s ==> exec2[i] == exec[i]
    requires SettledUpTo(st, prod, pos, exec, outcomes, s)
    ensures SettledUpTo(st, prod, pos, exec2, outcomes, s)
  {
  }

  /** What the run tells about skips: when a unit that sends on one of unit i's
      inbound channels did not succeed, unit i is skipped whatever its step would
      have done. */
  lemma SkipsPropagate(st: seq<Status>, prod: seq<nat>, exec: seq<Option<StepError>>, outcomes: seq<Outcome>, i: nat, k: nat)
    requires Producers(st, prod) && i < |st| && |outcomes| == |st| && |exec| == |st|
    requires Settled(st, prod, exec, outcomes, i)
    requires k < |st[i].waiting| && outcomes[prod[st[i].waiting[k]]] != Succeeded
    ensures outcomes[i] == Skipped
    ensures forall e :: outcomes[i] == Settle(DepsSucceeded(st, prod, outcomes, i), e)
  {
  }

  /** Two outcome assignments that both follow the rule agree on the units of the
      first s steps of a topological schedule. */
  lemma {:induction false} AgreeUpTo(st: seq<Status>, prod: seq<nat>, sched: seq<nat>, pos: seq<nat>,
                                     exec: seq<Option<StepError>>, o1: seq<Outcome>, o2: seq<Outcome>, s: nat)
    requires Producers(st, prod) && Schedule(|st|, sched, pos) && Topological(st, prod, pos) && s <= |st|
    requires |o1| == |st| && |o2| == |st| && |exec| == |st|
    requires forall i :: 0 <= i < |st| ==> Settled(st, prod, exec, o1, i) && Settled(st, prod, exec, o2, i)
    ensures forall i :: 0 <= i < |st| && pos[i] < s ==> o1[i] == o2[i]
    decreases s
  {
    if s > 0 {
      AgreeUpTo(st, prod, sched, pos, exec, o1, o2, s - 1);
      var u := sched[s - 1];
      assert forall k :: 0 <= k < |st[u].waiting| ==> pos[prod[st[u].waiting[k]]] < s - 1;
      assert DepsSucceeded(st, prod, o1, u) == DepsSucceeded(st, prod, o2, u);
      assert Settled(st, prod, exec, o1, u) && Settled(st, prod, exec, o2, u);
    }
  }

  /** The rule has one solution when the dependency graph has a topological
      schedule: for given step results, the outcomes do not depend on the order in
      which the concurrent units happened to complete. */
  lemma OutcomesUnique(st: seq<Status>, prod: seq<nat>, sched: seq<nat>, pos: seq<nat>,
                       exec: seq<Option<StepError>>, o1: seq<Outcome>, o2: seq<Outcome>)
    requires Producers(st, prod) && Schedule(|st|, sched, pos) && Topological(st, prod, pos)
    requires |o1| == |st| && |o2| == |st| && |exec| == |st|
    requires forall i :: 0 <= i < |st| ==> Settled(st, prod, exec, o1, i) && Settled(st, prod, exec, o2, i)
    ensures o1 == o2
  {
    AgreeUpTo(st, prod, sched, pos, exec, o1, o2, |st|);
  }

  // ---------------------------------------------------------------------------
  // Running the operations of pkg/operation (and of pkg/task/operation.go)

  /** What the mailboxes hold after the first s steps: a channel has been sent on
      iff its producer ran, and then it carries the producer's name and whether it
      succeeded. */
  ghost predicate Sent(boxes: seq<Option<Notification>>, names: seq<string>, prod: seq<nat>, pos: seq<nat>, outcomes: seq<Outcome>, s: nat)
    requires |boxes| == |prod| && |outcomes| == |names| && |pos| == |names|
    requires forall c :: 0 <= c < |prod| ==> prod[c] < |names|
  {
    forall c :: 0 <= c < |prod| ==>
      boxes[c] == (if pos[prod[c]] < s then Some(Notification(outcomes[prod[c]] == Succeeded, names[prod[c]])) else None)
  }

  /** Running unit u at step pos[u], which sends `n` on exactly the channels it
      produces and touches no other mailbox, moves the mailboxes from the state
      after pos[u] steps to the state after pos[u] + 1. */
  lemma SentNext(b0: seq<Option<Notification>>, b1: seq<Option<Notification>>, names: seq<string>, prod: seq<nat>,
                 pos: seq<nat>, outcomes: seq<Outcome>, u: nat, done: seq<nat>, outcome: Outcome)
    requires |b0| == |prod| && |b1| == |prod| && |outcomes| == |names| && |pos| == |names|
    requires forall c :: 0 <= c < |prod| ==> prod[c] < |names|
    requires u < |names| && forall i :: 0 <= i < |names| && i != u ==> pos[i] != pos[u]
    requires Sent(b0, names, prod, pos, outcomes, pos[u])
    requires forall c :: 0 <= c < |prod| ==> (c in done <==> prod[c] == u)
    requires forall k :: 0 <= k < |done| ==> done[k] < |b1| && b1[done[k]] == Some(Notification(outcome == Succeeded, names[u]))
    requires forall c :: 0 <= c < |b1| && c !in done ==> b1[c] == b0[c]
    ensures Sent(b1, names, prod, pos, outcomes[u := outcome], pos[u] + 1)
  {
    forall c | 0 <= c < |prod|
      ensures b1[c] == (if pos[prod[c]] < pos[u] + 1 then Some(Notification(outcomes[u := outcome][prod[c]] == Succeeded, names[prod[c]])) else None)
    {
      if prod[c] == u {
        var k :| 0 <= k < |done| && done[k] == c;
      }
    }
  }

  /** Before step s, the unit u = sched[s] finds every inbound mailbox full and
      every outbound one empty; its notifications are all ok iff its dependencies
      all succeeded; it is the producer of exactly its outbound channels. */
  lemma StepReady(st: seq<Status>, prod: seq<nat>, sched: seq<nat>, pos: seq<nat>, b: seq<Option<Notification>>,
                  names: seq<string>, outcomes: seq<Outcome>, s: nat)
    requires Producers(st, prod) && Schedule(|st|, sched, pos) && Topological(st, prod, pos) && s < |st|
    requires |b| == |prod| && |names| == |st| && |outcomes| == |st|
    requires Sent(b, names, prod, pos, outcomes, s)
    ensures var u := sched[s];
      && u < |st| && pos[u] == s
      && (forall i :: 0 <= i < |st| && i != u ==> pos[i] != pos[u])
      && (forall k :: 0 <= k < |st[u].waiting| ==> st[u].waiting[k] < |b| && b[st[u].waiting[k]].Some?)
      && (forall k :: 0 <= k < |st[u].doneNotification| ==> st[u].doneNotification[k] < |b| && b[st[u].doneNotification[k]].None?)
      && NoDup(st[u].doneNotification)
      && (forall c :: 0 <= c < |prod| ==> (c in st[u].doneNotification <==> prod[c] == u))
      && ((forall k :: 0 <= k < |st[u].waiting| ==> b[st[u].waiting[k]].value.ok) <==> DepsSucceeded(st, prod, outcomes, u))
  {
    var u := sched[s];
    forall k | 0 <= k < |st[u].doneNotification|
      ensures st[u].doneNotification[k] < |b| && b[st[u].doneNotification[k]].None?
    {
      var c := st[u].doneNotification[k];
      assert c < |prod| && prod[c] == u;
    }
    assert forall k :: 0 <= k < |st[u].waiting| ==> pos[prod[st[u].waiting[k]]] < pos[u];
  }

  /** The error of the joined run after the first s steps: nil iff none of those
      units failed, and otherwise the error of one of them that failed. */
  ghost predicate FirstError(err: Option<Error>, outcomes: seq<Outcome>, pos: seq<nat>, s: nat)
    requires |pos| == |outcomes|
  {
    && (err.None? <==> forall i :: 0 <= i < |outcomes| && pos[i] < s ==> !outcomes[i].Failed?)
    && (err.Some? ==> exists i :: 0 <= i < |outcomes| && pos[i] < s && outcomes[i].Failed? && err == Some(StepFailed(outcomes[i].err)))
  }

  /** The group keeps the first error returned: after the unit of step s returned
      `e`, the group's error is still the first one. */
  lemma FirstErrorNext(err: Option<Error>, e: Option<Error>, outcomes: seq<Outcome>, next: seq<Outcome>,
                       sched: seq<nat>, pos: seq<nat>, s: nat)
    requires Schedule(|outcomes|, sched, pos) && s < |outcomes| && |next| == |outcomes|
    requires next == outcomes[sched[s] := next[sched[s]]] && e == Reported(next[sched[s]])
    requires FirstError(err, outcomes, pos, s)
    ensures FirstError(if err.None? && e.Some? then e else err, next, pos, s + 1)
  {
    var u := sched[s];
    assert forall i :: 0 <= i < |outcomes| && pos[i] < s ==> next[i] == outcomes[i];
    assert forall i :: 0 <= i < |outcomes| && pos[i] < s + 1 ==> pos[i] < s || i == u;
  }

  /** After every step, the group's error speaks about all units. */
  lemma FirstErrorAll(err: Option<Error>, outcomes: seq<Outcome>, sched: seq<nat>, pos: seq<nat>)
    requires Schedule(|outcomes|, sched, pos) && FirstError(err, outcomes, pos, |outcomes|)
    ensures err.None? <==> forall i :: 0 <= i < |outcomes| ==> !outcomes[i].Failed?
    ensures err.Some? ==> exists i :: 0 <= i < |outcomes| && outcomes[i].Failed? && err == Some(StepFailed(outcomes[i].err))
  {
  }

  /** After every step, every unit has settled. */
  lemma SettledAll(st: seq<Status>, prod: seq<nat>, sched: seq<nat>, pos: seq<nat>, exec: seq<Option<StepError>>, outcomes: seq<Outcome>)
    requires Producers(st, prod) && Schedule(|st|, sched, pos) && |outcomes| == |st| && |exec| == |st|
    requires SettledUpTo(st, prod, pos, exec, outcomes, |st|)
    ensures forall i :: 0 <= i < |st| ==> Settled(st, prod, exec, outcomes, i)
  {
  }

  /** One step of the joined run: the operation scheduled at step s runs, finds its
      inbound mailboxes filled by its producers, settles by the rule, and fills its
      outbound mailboxes. Its error is what Run reports for its outcome. */
  method RunStep(ops: seq<Operation>, sched: seq<nat>, boxes: array<Option<Notification>>,
                 exec: seq<Option<StepError>>, ghost prod: seq<nat>, ghost pos: seq<nat>,
                 ghost outcomes: seq<Outcome>, s: nat)
    returns (e: Option<Error>, ghost next: seq<Outcome>)
    requires |exec| == |ops| && |outcomes| == |ops| && s < |ops|
    requires Producers(Statuses(ops), prod) && Schedule(|ops|, sched, pos) && Topological(Statuses(ops), prod, pos)
    requires boxes.Length == |prod|
    requires SettledUpTo(Statuses(ops), prod, pos, exec, outcomes, s)
    requires Sent(boxes[..], Names(ops), prod, pos, outcomes, s)
    modifies boxes
    ensures pos[sched[s]] == s && |next| == |outcomes| && next == outcomes[sched[s] := next[sched[s]]]
    ensures e == Reported(next[sched[s]])
    ensures SettledUpTo(Statuses(ops), prod, pos, exec, next, s + 1)
    ensures Sent(boxes[..], Names(ops), prod, pos, next, s + 1)
  {
    ghost var st := Statuses(ops);
    ghost var before := boxes[..];
    var u := sched[s];
    assert st[u] == Status(ops[u].doneNotification, ops[u].waiting);
    StepReady(st, prod, sched, pos, before, Names(ops), outcomes, s);
    assert AllFull(boxes, ops[u].waiting) && AllEmpty(boxes, ops[u].doneNotification);
    assert AllOk(boxes, ops[u].waiting) == DepsSucceeded(st, prod, outcomes, u);
    ghost var outcome;
    e, outcome := ops[u].Run(boxes, exec[u]);
    SettleNext(st, prod, pos, exec, outcomes, u);
    SentNext(before, boxes[..], Names(ops), prod, pos, outcomes, u, ops[u].doneNotification, outcome);
    next := outcomes[u := outcome];
  }

  /** The joined run: every operation runs once, in schedule order, with its step
      runner's result exec[i]; the first error any of them returns is the result.
      Every mailbox ends up written exactly once, by its producer, before its one
      consumer reads it; every operation settles by the rule; the result is nil
      iff no operation failed, and otherwise the error of a failed one. */
  method RunAll(ops: seq<Operation>, sched: seq<nat>, boxes: array<Option<Notification>>,
                exec: seq<Option<StepError>>, ghost prod: seq<nat>, ghost pos: seq<nat>)
    returns (err: Option<Error>, ghost outcomes: seq<Outcome>)
    requires |exec| == |ops|
    requires Producers(Statuses(ops), prod) && Schedule(|ops|, sched, pos) && Topological(Statuses(ops), prod, pos)
    requires boxes.Length == |prod| && forall c :: 0 <= c < boxes.Length ==> boxes[c].None?
    modifies boxes
    ensures |outcomes| == |ops|
    ensures forall i :: 0 <= i < |ops| ==> Settled(Statuses(ops), prod, exec, outcomes, i)
    ensures forall c :: 0 <= c < boxes.Length ==>
      boxes[c] == Some(Notification(outcomes[prod[c]] == Succeeded, ops[prod[c]].name))
    ensures err.None? <==> forall i :: 0 <= i < |ops| ==> !outcomes[i].Failed?
    ensures err.Some? ==> exists i :: 0 <= i < |ops| && outcomes[i].Failed? && err == Some(StepFailed(outcomes[i].err))
  {
    outcomes := seq(|ops|, _ => Skipped);
    err := None;
    for s := 0 to |ops|
      invariant |outcomes| == |ops|
      invariant SettledUpTo(Statuses(ops), prod, pos, exec, outcomes, s)
      invariant Sent(boxes[..], Names(ops), prod, pos, outcomes, s)
      invariant FirstError(err, outcomes, pos, s)
    {
      var e;
      ghost var next;
      e, next := RunStep(ops, sched, boxes, exec, prod, pos, outcomes, s);
      FirstErrorNext(err, e, outcomes, next, sched, pos, s);
      outcomes := next;
      if err.None? && e.Some? {
        err := e;
      }
    }
    FirstErrorAll(err, outcomes, sched, pos);
    SettledAll(Statuses(ops), prod, sched, pos, exec, outcomes);
    assert forall c :: 0 <= c < boxes.Length ==> boxes[c] == boxes[..][c];
  }

  // ---------------------------------------------------------------------------
  // The run phase of a built graph, by name

  /** What running a graph of units named `names` (unit i declaring the names
      depsOf[i]) with step results `exec` comes to: each unit is skipped unless every
      unit it names succeeded, and otherwise settles as its step does; the join
      reports nil iff no step failed, and otherwise the error of a failed step. */
  ghost predicate Ran(names: seq<string>, depsOf: seq<seq<string>>, exec: seq<Option<StepError>>,
                      outcomes: seq<Outcome>, err: Option<Error>)
    requires |depsOf| == |names| == |exec|
  {
    && |outcomes| == |names|
    && (forall i :: 0 <= i < |names| ==> outcomes[i] == Settle(NamedDepsSucceeded(names, depsOf, outcomes, i), exec[i]))
    && (err.None? <==> forall i :: 0 <= i < |names| ==> !outcomes[i].Failed?)
    && (err.Some? ==> exists i :: 0 <= i < |names| && outcomes[i].Failed? && err == Some(StepFailed(outcomes[i].err)))
  }

  /** The run phase shared by the engine runner and the command: over fresh mailboxes,
      one per channel made while the graph was wired, run every operation and wait for
      all of them. Nothing the caller holds changes. */
  method RunWired(ops: seq<Operation>, ghost names: seq<string>, ghost depsOf: seq<seq<string>>, mapOrder: seq<string>,
                  made: nat, sched: seq<nat>, ghost pos: seq<nat>, exec: seq<Option<StepError>>)
    returns (err: Option<Error>, ghost outcomes: seq<Outcome>)
    requires Names(ops) == names && Dependencies(ops) == depsOf
    requires NoDup(names) && IsOrderOf(mapOrder, names) && Wired(Statuses(ops), names, depsOf, mapOrder, 0, made)
    requires |exec| == |ops| && Schedule(|ops|, sched, pos) && NamedBefore(names, depsOf, pos)
    ensures Ran(names, depsOf, exec, outcomes, err)
  {
    ghost var st := Statuses(ops);
    ghost var prod := Owners(st, made);
    WiredProducers(st, names, depsOf, mapOrder, made);
    ByName(st, prod, names, depsOf, pos, seq(|ops|, _ => Skipped));
    var boxes := new Option<Notification>[made](_ => None);
    err, outcomes := RunAll(ops, sched, boxes, exec, prod, pos);
    assert Statuses(ops) == st;
    SettledByName(st, prod, names, depsOf, exec, outcomes);
  }

  /** The rule every unit settled by, restated with dependency names. */
  lemma SettledByName(st: seq<Status>, prod: seq<nat>, names: seq<string>, depsOf: seq<seq<string>>,
                      exec: seq<Option<StepError>>, outcomes: seq<Outcome>)
    requires Producers(st, prod) && Denotes(st, prod, names, depsOf)
    requires |exec| == |st| && |outcomes| == |st|
    requires forall i :: 0 <= i < |st| ==> Settled(st, prod, exec, outcomes, i)
    ensures forall i :: 0 <= i < |st| ==> outcomes[i] == Settle(NamedDepsSucceeded(names, depsOf, outcomes, i), exec[i])
  {
    ByName(st, prod, names, depsOf, seq(|st|, _ => 0), outcomes);
    forall i | 0 <= i < |st|
      ensures outcomes[i] == Settle(NamedDepsSucceeded(names, depsOf, outcomes, i), exec[i])
    {
      assert Settled(st, prod, exec, outcomes, i);
    }
  }
}
