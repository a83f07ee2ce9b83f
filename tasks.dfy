/** pkg/task/task.go: the Task record of the first revision, which carries its own
    channel lists, and its two methods. The command and the dependency names never
    change; the channel lists grow while the graph is built. */
module Tasks {
  import opened TaktTypes
  import opened Wiring
  import opened Mailboxes

  class Task {
    const name: string
    const command: string
    const depends: seq<string>
    var doneNotification: seq<nat>
    var waiting: seq<nat>

    /** A task literal: no channels yet. */
    constructor(name: string, command: string, depends: seq<string>)
      ensures this.name == name && this.command == command && this.depends == depends
      ensures doneNotification == [] && waiting == []
    {
      this.name := name;
      this.command := command;
      this.depends := depends;
      doneNotification := [];
      waiting := [];
    }

    /** Every channel this task lists was made before `made`. */
    ghost predicate MadeBefore(made: nat)
      reads this
    {
      (forall k :: 0 <= k < |doneNotification| ==> doneNotification[k] < made) &&
      (forall k :: 0 <= k < |waiting| ==> waiting[k] < made)
    }

    /** t.DependsOn(d): one fresh channel, appended to d's outbound list and to this
        task's inbound list. The fresh channel is new to both lists, so a task that
        depends on another k times gets k distinct channels from it. */
    method DependsOn(dependedTask: Task, channels: Channels)
      modifies this, dependedTask, channels
      ensures channels.made == old(channels.made) + 1
      ensures dependedTask.doneNotification == old(dependedTask.doneNotification) + [old(channels.made)]
      ensures waiting == old(waiting) + [old(channels.made)]
      ensures this != dependedTask ==>
        doneNotification == old(doneNotification) && dependedTask.waiting == old(dependedTask.waiting)
      ensures old(MadeBefore(channels.made)) && old(dependedTask.MadeBefore(channels.made)) ==>
        && old(channels.made) !in old(dependedTask.doneNotification) && old(channels.made) !in old(waiting)
        && MadeBefore(channels.made) && dependedTask.MadeBefore(channels.made)
    {
      var c := channels.Make();
      dependedTask.doneNotification := dependedTask.doneNotification + [c];
      waiting := waiting + [c];
    }

    /** WaitDependecies: receive from every inbound channel, all of them even after a
        not-ok one; the dependency-not-fulfilled error iff some notification is not
        ok, and nil with no inbound channel. It models the method of
        pkg/task/task.go only: main.go never calls it, its goroutines repeat the same
        loop inline (MainProgram.RunTask). */
    method WaitDependencies(boxes: array<Option<Notification>>)
      returns (err: Option<Error>, ghost received: seq<Notification>)
      requires AllFull(boxes, waiting)
      ensures |received| == |waiting|
      ensures forall k :: 0 <= k < |waiting| ==> received[k] == boxes[waiting[k]].value
      ensures err.None? <==> AllOk(boxes, waiting)
      ensures err.Some? ==> err.value == DependencyNotFulfilled
      ensures waiting == [] ==> err.None?
    {
      var okToGo;
      okToGo, received := ReceiveAll(boxes, waiting);
      if !okToGo {
        return Some(DependencyNotFulfilled), received;
      }
      return None, received;
    }
  }

  /** The names of a list of tasks, in list order. */
  function TaskNames(ts: seq<Task>): (r: seq<string>)
    ensures |r| == |ts| && forall i :: 0 <= i < |ts| ==> r[i] == ts[i].name
  {
    seq(|ts|, i requires 0 <= i < |ts| => ts[i].name)
  }

  /** The dependency names of a list of tasks, in list order. */
  function TaskDepends(ts: seq<Task>): (r: seq<seq<string>>)
    ensures |r| == |ts| && forall i :: 0 <= i < |ts| ==> r[i] == ts[i].depends
  {
    seq(|ts|, i requires 0 <= i < |ts| => ts[i].depends)
  }

  /** The channel lists of a list of tasks, as values. */
  ghost function TaskStatuses(ts: seq<Task>): (r: seq<Status>)
    reads ts
    ensures |r| == |ts|
  {
    seq(|ts|, i reads ts requires 0 <= i < |ts| => Status(ts[i].doneNotification, ts[i].waiting))
  }

  predicate DistinctTasks(ts: seq<Task>) {
    forall i, j :: 0 <= i < j < |ts| ==> ts[i] != ts[j]
  }
}
