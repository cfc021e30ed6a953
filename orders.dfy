/**
 * The order store (`src/stores/orderStore.ts`): the shared record-store
 * protocol over orders, with the order messages, the `ORD-` id prefix and
 * the one check only orders have — an order that is being prepared may not
 * lose any of its line items through an update.
 */
module Orders {
  import opened Wrappers
  import opened DocDb
  import opened RecordStore

  datatype Status = Pending | Preparing | Served | Cancelled

  /** One line of an order; prices are exact amounts in minor currency units. */
  datatype LineItem = LineItem(id: string, name: string, price: int, quantity: int)

  /** The fields an order has besides its id, key, revision and timestamps. */
  datatype OrderBody = OrderBody(items: seq<LineItem>, total: int, status: Status)

  type Order = Doc<OrderBody>

  /** The order fields of a `Partial<Order>`. */
  datatype OrderFields = OrderFields(items: Option<seq<LineItem>>, total: Option<int>, status: Option<Status>)

  type OrderUpdate = Patch<OrderFields>

  function MergeFields(b: OrderBody, q: OrderFields): OrderBody {
    OrderBody(q.items.GetOr(b.items), q.total.GetOr(b.total), q.status.GetOr(b.status))
  }

  predicate HasItem(items: seq<LineItem>, itemId: string) {
    exists i :: 0 <= i < |items| && items[i].id == itemId
  }

  /** The current lines whose id no longer appears among the new lines. */
  function RemovedItems(current: seq<LineItem>, next: seq<LineItem>): (r: seq<LineItem>)
    ensures forall x :: x in r <==> x in current && !HasItem(next, x.id)
  {
    if current == [] then []
    else if HasItem(next, current[0].id) then RemovedItems(current[1..], next)
    else [current[0]] + RemovedItems(current[1..], next)
  }

  const PreparingMessage := "Cannot remove items while order is being prepared"

  /** The check `updateOrder` makes before touching anything. */
  function PreparingGuard(o: Order, p: OrderUpdate): Option<string> {
    if o.body.status == Preparing && p.body.items.Some? && |RemovedItems(o.body.items, p.body.items.value)| > 0
    then Some(PreparingMessage)
    else None
  }

  const OrderMessages := Messages("Order not found", "Failed to load orders", "Failed to create order",
                                  "Failed to update order", "Failed to delete order")

  const OrderConfig: Config<OrderBody, OrderFields> := Config("ORD-", OrderMessages, MergeFields, PreparingGuard)

  /** The store as the application creates it: empty, over the `orders` database. */
  method NewOrderStore(db: Db<Order>) returns (s: Store<OrderBody, OrderFields>)
    ensures fresh(s) && s.db == db && s.cfg == OrderConfig
    ensures s.Current() == View([], false, None, None)
  {
    s := new Store(db, OrderConfig);
  }

  /**
   * An update is refused exactly when the order is being prepared, the
   * update replaces the items, and some current line's id is missing from
   * the new items; adding lines or changing quantities passes.
   */
  lemma PreparingGuardExact(o: Order, p: OrderUpdate)
    ensures PreparingGuard(o, p).Some? <==>
              o.body.status == Preparing && p.body.items.Some? &&
              exists i :: 0 <= i < |o.body.items| && !HasItem(p.body.items.value, o.body.items[i].id)
    ensures PreparingGuard(o, p).Some? ==> PreparingGuard(o, p) == Some(PreparingMessage)
  {
    if o.body.status == Preparing && p.body.items.Some? {
      var removed := RemovedItems(o.body.items, p.body.items.value);
      if exists i :: 0 <= i < |o.body.items| && !HasItem(p.body.items.value, o.body.items[i].id) {
        var i :| 0 <= i < |o.body.items| && !HasItem(p.body.items.value, o.body.items[i].id);
        assert o.body.items[i] in removed;
      }
      if |removed| > 0 {
        assert removed[0] in removed;
      }
    }
  }

  /** Updating an id that is not cached sets "Order not found", settles, and calls nothing. */
  lemma UpdateUnknownOrder(v: View<OrderBody>, db: DbState<Order>, id: string, p: OrderUpdate, now: string)
    requires forall i :: 0 <= i < |v.records| ==> v.records[i].id != id
    ensures AfterUpdate(OrderConfig, v, db, id, p, now) ==
            (v.(error := Some("Order not found"), loading := false, updatingId := None), db)
  {
  }

  /**
   * Dropping a line from an order that is being prepared is refused before
   * the list or the database is touched.
   */
  lemma RemovalWhilePreparingRefused(v: View<OrderBody>, db: DbState<Order>, id: string, p: OrderUpdate, now: string, k: nat)
    requires FindById(v.records, id).Some?
    requires var o := FindById(v.records, id).value;
             o.body.status == Preparing && p.body.items.Some? &&
             k < |o.body.items| && !HasItem(p.body.items.value, o.body.items[k].id)
    ensures AfterUpdate(OrderConfig, v, db, id, p, now) ==
            (v.(error := Some(PreparingMessage), loading := false, updatingId := None), db)
  {
    PreparingGuardExact(FindById(v.records, id).value, p);
  }

  /**
   * Keeping every current line (possibly adding more) while the order is
   * being prepared is not refused: the update runs and saves, reverts, or
   * is left optimistic.
   */
  lemma AdditionWhilePreparingProceeds(v: View<OrderBody>, db: DbState<Order>, id: string, p: OrderUpdate, now: string)
    requires FindById(v.records, id).Some? && p.id.GetOr(id) == id
    requires var o := FindById(v.records, id).value;
             p.body.items.Some? &&
             forall i :: 0 <= i < |o.body.items| ==> HasItem(p.body.items.value, o.body.items[i].id)
    ensures var (v2, db2) := AfterUpdate(OrderConfig, v, db, id, p, now);
            (exists d :: SavedAs(v.records, id, d, v2, db2)) ||
            (v2.records == v.records && v2.error == Some("Failed to update order") && Settled(v2)) ||
            (v2.loading && v2.updatingId == Some(id))
  {
    PreparingGuardExact(FindById(v.records, id).value, p);
    UpdateOutcomes(OrderConfig, v, db, id, p, now);
  }
}
