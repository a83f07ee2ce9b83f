/** Channels of taskNotification, modelled as one-shot mailboxes. Building the graph
    only allocates channel numbers (`make(chan ...)`); running it uses one array of
    mailboxes, indexed by channel number, that starts all empty. Each channel carries
    exactly one message. A receive requires its mailbox full (in Go it waits for the
    send) and a send requires it empty; the sequential scheduler proves both. A
    mailbox holds its message, so a send here never waits for its receiver, where a
    send on Go's unbuffered channel does: module Rendezvous states that difference
    and shows a graph on which it matters. */
module Mailboxes {
  import opened TaktTypes

  /** The allocator behind `make(chan taskNotification)`: hands out fresh channel numbers. */
  class Channels {
    var made: nat

    constructor ()
      ensures made == 0
    {
      made := 0;
    }

    method Make() returns (c: nat)
      modifies this
      ensures c == old(made) && made == old(made) + 1
    {
      c := made;
      made := made + 1;
    }
  }

  /** Every channel of chans has a mailbox and has been sent on. */
  predicate AllFull(boxes: array<Option<Notification>>, chans: seq<nat>)
    reads boxes
  {
    forall k :: 0 <= k < |chans| ==> chans[k] < boxes.Length && boxes[chans[k]].Some?
  }

  /** Every channel of chans has a mailbox and has not been sent on yet. */
  predicate AllEmpty(boxes: array<Option<Notification>>, chans: seq<nat>)
    reads boxes
  {
    forall k :: 0 <= k < |chans| ==> chans[k] < boxes.Length && boxes[chans[k]].None?
  }

  /** Every notification received on chans says ok. */
  predicate AllOk(boxes: array<Option<Notification>>, chans: seq<nat>)
    reads boxes
    requires AllFull(boxes, chans)
  {
    forall k :: 0 <= k < |chans| ==> boxes[chans[k]].value.ok
  }

  /** The wait loop: receive from every channel in order, with no early exit, and
      remember whether any notification said not ok. `received` is the sequence of
      messages taken, one per channel, in list order. */
  method ReceiveAll(boxes: array<Option<Notification>>, chans: seq<nat>)
    returns (okToGo: bool, ghost received: seq<Notification>)
    requires AllFull(boxes, chans)
    ensures |received| == |chans|
    ensures forall k :: 0 <= k < |chans| ==> received[k] == boxes[chans[k]].value
    ensures okToGo <==> AllOk(boxes, chans)
    ensures chans == [] ==> okToGo
  {
    okToGo := true;
    received := [];
    for k := 0 to |chans|
      invariant |received| == k
      invariant forall m :: 0 <= m < k ==> received[m] == boxes[chans[m]].value
      invariant okToGo <==> forall m :: 0 <= m < k ==> boxes[chans[m]].value.ok
    {
      var notification := boxes[chans[k]].value;
      received := received + [notification];
      if !notification.ok {
        okToGo := notification.ok;
      }
    }
  }

  /** The notify loop: send the same notification on every channel of chans. Each
      send completes at once, as on a channel with a one-message buffer. */
  method SendAll(boxes: array<Option<Notification>>, chans: seq<nat>, n: Notification)
    requires AllEmpty(boxes, chans) && NoDup(chans)
    modifies boxes
    ensures forall k :: 0 <= k < |chans| ==> boxes[chans[k]] == Some(n)
    ensures forall c :: 0 <= c < boxes.Length && c !in chans ==> boxes[c] == old(boxes[c])
  {
    for k := 0 to |chans|
      invariant forall m :: 0 <= m < k ==> boxes[chans[m]] == Some(n)
      invariant forall m :: k <= m < |chans| ==> boxes[chans[m]].None?
      invariant forall c :: 0 <= c < boxes.Length && c !in chans ==> boxes[c] == old(boxes[c])
    {
      boxes[chans[k]] := Some(n);
    }
  }
}
