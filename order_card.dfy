/**
 * The order card (`src/components/orders/OrderCard.tsx`): which actions a
 * card offers for an order's status, when they are disabled, and what the
 * card shows for the lines and the total.
 */
module OrderCard {
  import opened Wrappers
  import opened Orders
  import OrderForm

  /** A button on the card. */
  datatype Action = Edit | SetStatus(to: Status) | Delete

  datatype Button = Button(action: Action, disabled: bool)

  /** The buttons the card renders for a status, in the order they appear. */
  function Actions(status: Status): (r: seq<Action>)
    ensures |r| >= 1 && r[0] == Edit
  {
    [Edit] +
    (if status != Cancelled && status != Served then [SetStatus(Cancelled)] else []) +
    (if status == Pending then [SetStatus(Preparing)] else []) +
    (if status == Preparing then [SetStatus(Served)] else []) +
    (if status == Served then [Delete] else []) +
    (if status == Cancelled then [Delete] else [])
  }

  /** `isUpdating`: every button is disabled while the store is updating this order. */
  function Buttons(order: Order, updatingId: Option<string>): (r: seq<Button>)
    ensures |r| == |Actions(order.body.status)|
    ensures forall i :: 0 <= i < |r| ==> r[i].action == Actions(order.body.status)[i]
  {
    var actions := Actions(order.body.status);
    seq(|actions|, i requires 0 <= i < |actions| => Button(actions[i], updatingId == Some(order.id)))
  }

  /** The status changes the kitchen workflow allows: forward one step, or cancel while not finished. */
  predicate Allowed(from: Status, to: Status) {
    match from
    case Pending => to == Preparing || to == Cancelled
    case Preparing => to == Served || to == Cancelled
    case Served => false
    case Cancelled => false
  }

  /** The card offers a status change exactly when the workflow allows it. */
  lemma TransitionsMatchWorkflow(from: Status, to: Status)
    ensures SetStatus(to) in Actions(from) <==> Allowed(from, to)
  {
    var a := Actions(from);
    if SetStatus(to) in a {
      var i :| 0 <= i < |a| && a[i] == SetStatus(to);
    }
  }

  /** Cancel is offered unless the order is cancelled or served; Delete exactly when it is. */
  lemma CancelAndDelete(status: Status)
    ensures SetStatus(Cancelled) in Actions(status) <==> status != Cancelled && status != Served
    ensures Delete in Actions(status) <==> status == Served || status == Cancelled
    ensures Delete in Actions(status) ==> forall to :: SetStatus(to) !in Actions(status)
  {
    TransitionsMatchWorkflow(status, Cancelled);
    forall to | Delete in Actions(status)
      ensures SetStatus(to) !in Actions(status)
    {
      TransitionsMatchWorkflow(status, to);
    }
  }

  /** Start Preparing exactly for a pending order; Mark Served exactly for one being prepared. */
  lemma ForwardSteps(status: Status)
    ensures SetStatus(Preparing) in Actions(status) <==> status == Pending
    ensures SetStatus(Served) in Actions(status) <==> status == Preparing
  {
    TransitionsMatchWorkflow(status, Preparing);
    TransitionsMatchWorkflow(status, Served);
  }

  /** Every button, Edit included, is disabled exactly while this order is being updated. */
  lemma DisabledWhileUpdating(order: Order, updatingId: Option<string>)
    ensures forall b :: b in Buttons(order, updatingId) ==> (b.disabled <==> updatingId == Some(order.id))
  {
  }

  /** What a click asks for; Cancel and Delete go ahead only after the confirmation dialog. */
  datatype Request = EditOrder(order: Order) | UpdateStatus(id: string, to: Status) | DeleteOrder(id: string) | NoRequest

  function Click(order: Order, a: Action, confirmed: bool): (r: Request)
    ensures a == SetStatus(Cancelled) || a == Delete ==> (r.NoRequest? <==> !confirmed)
    ensures r.UpdateStatus? ==> r.id == order.id && a == SetStatus(r.to)
    ensures r.DeleteOrder? ==> r.id == order.id && a == Delete
  {
    match a
    case Edit => EditOrder(order)
    case SetStatus(to) => if to == Cancelled && !confirmed then NoRequest else UpdateStatus(order.id, to)
    case Delete => if confirmed then DeleteOrder(order.id) else NoRequest
  }

  /** A click on an offered button never asks for a change the workflow forbids. */
  lemma ClicksFollowWorkflow(order: Order, i: nat, confirmed: bool)
    requires i < |Actions(order.body.status)|
    ensures var r := Click(order, Actions(order.body.status)[i], confirmed);
            r.UpdateStatus? ==> Allowed(order.body.status, r.to)
  {
    var r := Click(order, Actions(order.body.status)[i], confirmed);
    if r.UpdateStatus? {
      TransitionsMatchWorkflow(order.body.status, r.to);
    }
  }

  /** The line amounts the card shows: `item.price * item.quantity`. */
  function LineAmounts(items: seq<LineItem>): (r: seq<int>)
    ensures |r| == |items|
  {
    seq(|items|, i requires 0 <= i < |items| => items[i].price * items[i].quantity)
  }

  function Sum(xs: seq<int>): int {
    if xs == [] then 0 else xs[0] + Sum(xs[1..])
  }

  /** The shown line amounts add up to the form's total of the same lines. */
  lemma {:induction false} AmountsSumToTotal(items: seq<LineItem>)
    ensures Sum(LineAmounts(items)) == OrderForm.Total(items)
  {
    if items != [] {
      assert LineAmounts(items)[1..] == LineAmounts(items[1..]);
      AmountsSumToTotal(items[1..]);
    }
  }

  /**
   * The card shows the stored `total`, not a sum of its own: it agrees with
   * the shown line amounts for an order as the form submitted it, and not
   * for every order.
   */
  lemma ShownTotalIsStored(lines: seq<LineItem>)
    requires lines != []
    ensures var r := OrderForm.Submission(lines, None);
            r.AddOrder? && r.body.total == Sum(LineAmounts(r.body.items))
    ensures var o := OrderBody(lines, OrderForm.Total(lines) + 1, Pending);
            o.total != Sum(LineAmounts(o.items))
  {
    AmountsSumToTotal(lines);
  }
}
