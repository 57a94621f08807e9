/**
  Properties of a sequence of status updates on one stored order. By the
  contract of Shop.UpdateStatus, updating the order under one id with the
  payloads `ps`, one call after another, leaves Run(o, ps) stored there, where
  `o` is the order stored before the first call: a refused update writes
  nothing back.
 */
module StatusRuns {
  import opened Wrappers
  import opened OrderService

  /** The order after each payload in turn has been applied to it. */
  ghost function Run(o: Order, ps: seq<StatusPayload>): Order
    decreases |ps|
  {
    if ps == [] then o
    else
      var r := Transition(o, ps[0]);
      Run(if r.Ok? then r.value else o, ps[1..])
  }

  /** How many of the payloads are accepted along the way. */
  ghost function Accepted(o: Order, ps: seq<StatusPayload>): nat
    decreases |ps|
  {
    if ps == [] then 0
    else
      var r := Transition(o, ps[0]);
      (if r.Ok? then 1 else 0) + Accepted(if r.Ok? then r.value else o, ps[1..])
  }

  /** The most transitions that can still be taken from a status. */
  function StepsLeft(status: string): (n: nat)
    ensures n == 0 <==> !Allowed(status, Cancelled)
  {
    if status == Placed then 2 else if status == Dispatched then 1 else 0
  }

  /** The statuses the table can lead to from `current`, in any number of steps. */
  predicate Reachable(current: string, later: string)
  {
    || current == later
    || Allowed(current, later)
    || (current == Placed && later == Completed)
  }

  /** Every accepted transition brings the order one step closer to a terminal status. */
  lemma TransitionUsesAStep(o: Order, p: StatusPayload)
    requires Transition(o, p).Ok?
    ensures StepsLeft(Transition(o, p).value.orderStatus) < StepsLeft(o.orderStatus)
    ensures Reachable(o.orderStatus, Transition(o, p).value.orderStatus)
  {
  }

  /** Status updates never touch what placement decided: id, product, value, quantity, premium flag. */
  lemma {:induction false} RunKeepsPlacement(o: Order, ps: seq<StatusPayload>)
    ensures Run(o, ps).id == o.id
    ensures Run(o, ps).productId == o.productId
    ensures Run(o, ps).orderValue == o.orderValue
    ensures Run(o, ps).prodQuantity == o.prodQuantity
    ensures Run(o, ps).isPremium == o.isPremium
    decreases |ps|
  {
    if ps != [] {
      var r := Transition(o, ps[0]);
      RunKeepsPlacement(if r.Ok? then r.value else o, ps[1..]);
    }
  }

  /**
    An order whose status is neither Placed nor Dispatched never changes
    again: Completed and Cancelled are terminal, and so is any status the
    placement request carried that the table does not know, the empty one
    included.
   */
  lemma {:induction false} RunFromTerminal(o: Order, ps: seq<StatusPayload>)
    requires o.orderStatus != Placed && o.orderStatus != Dispatched
    ensures Run(o, ps) == o
    ensures Accepted(o, ps) == 0
    decreases |ps|
  {
    if ps != [] {
      RunFromTerminal(o, ps[1..]);
    }
  }

  /** However many updates arrive, at most two are accepted, and only from Placed. */
  lemma {:induction false} AcceptedBounded(o: Order, ps: seq<StatusPayload>)
    ensures Accepted(o, ps) <= StepsLeft(o.orderStatus)
    ensures StepsLeft(Run(o, ps).orderStatus) + Accepted(o, ps) <= StepsLeft(o.orderStatus)
    decreases |ps|
  {
    if ps != [] {
      var r := Transition(o, ps[0]);
      if r.Ok? {
        TransitionUsesAStep(o, ps[0]);
      }
      AcceptedBounded(if r.Ok? then r.value else o, ps[1..]);
    }
  }

  /** The status after any run is one the table can reach from the status before it. */
  lemma {:induction false} RunStaysReachable(o: Order, ps: seq<StatusPayload>)
    ensures Reachable(o.orderStatus, Run(o, ps).orderStatus)
    decreases |ps|
  {
    if ps != [] {
      var r := Transition(o, ps[0]);
      var next := if r.Ok? then r.value else o;
      RunStaysReachable(next, ps[1..]);
      if r.Ok? {
        TransitionUsesAStep(o, ps[0]);
      }
    }
  }

  /**
    The dispatch date changes only through an accepted Dispatched update, so
    an order whose status was not Placed keeps the date it had.
   */
  lemma {:induction false} RunKeepsDateUnlessPlaced(o: Order, ps: seq<StatusPayload>)
    requires o.orderStatus != Placed
    ensures Run(o, ps).dispatchDate == o.dispatchDate
    decreases |ps|
  {
    if ps != [] {
      var r := Transition(o, ps[0]);
      if r.Ok? {
        assert r.value.orderStatus != Placed;
        assert r.value.dispatchDate == o.dispatchDate;
      }
      RunKeepsDateUnlessPlaced(if r.Ok? then r.value else o, ps[1..]);
    }
  }
}
