/**
 * The order form (`src/components/orders/OrderForm.tsx`): the lines picked
 * so far, the handlers that change them, their total, and the request the
 * form hands to the order store on submit.
 */
module OrderForm {
  import opened Wrappers
  import opened RecordStore
  import opened Orders
  import Menu

  /**
   * `selectedItems.reduce((total, item) => total + item.price * item.quantity, 0)`;
   * on exact numbers the order of the additions does not matter.
   */
  function Total(lines: seq<LineItem>): int {
    if lines == [] then 0 else lines[0].price * lines[0].quantity + Total(lines[1..])
  }

  /** The total of a concatenation is the sum of the totals. */
  lemma {:induction false} TotalAppend(a: seq<LineItem>, b: seq<LineItem>)
    ensures Total(a + b) == Total(a) + Total(b)
  {
    if a == [] {
      assert a + b == b;
    } else {
      assert (a + b)[0] == a[0] && (a + b)[1..] == a[1..] + b;
      TotalAppend(a[1..], b);
    }
  }

  /** No two lines share an id. */
  predicate UniqueIds(lines: seq<LineItem>) {
    forall i, j :: 0 <= i < j < |lines| ==> lines[i].id != lines[j].id
  }

  /** The line for a menu item picked for the first time. */
  function NewLine(m: Menu.MenuItem): LineItem {
    LineItem(m.id, m.body.name, m.body.price, 1)
  }

  /** `handleAddItem(menuItemId)`: a known menu item adds one to its line, or gets a new line at the end. */
  function AddedItem(lines: seq<LineItem>, menu: seq<Menu.MenuItem>, menuItemId: string): (r: seq<LineItem>)
    ensures FindById(menu, menuItemId).None? ==> r == lines
    ensures FindById(menu, menuItemId).Some? && HasItem(lines, menuItemId) ==>
              |r| == |lines| &&
              forall i :: 0 <= i < |lines| ==>
                if lines[i].id == menuItemId then r[i] == lines[i].(quantity := lines[i].quantity + 1) else r[i] == lines[i]
    ensures FindById(menu, menuItemId).Some? && !HasItem(lines, menuItemId) ==>
              r == lines + [NewLine(FindById(menu, menuItemId).value)] && r[|lines|].id == menuItemId
  {
    var m := FindById(menu, menuItemId);
    if m.None? then lines
    else if HasItem(lines, menuItemId) then Incremented(lines, menuItemId)
    else lines + [NewLine(m.value)]
  }

  /** `selectedItems.map(item => item.id === id ? { ...item, quantity: item.quantity + 1 } : item)`. */
  function Incremented(lines: seq<LineItem>, itemId: string): (r: seq<LineItem>)
    ensures |r| == |lines|
    ensures forall i :: 0 <= i < |lines| ==>
              r[i] == if lines[i].id == itemId then lines[i].(quantity := lines[i].quantity + 1) else lines[i]
  {
    seq(|lines|, i requires 0 <= i < |lines| =>
      if lines[i].id == itemId then lines[i].(quantity := lines[i].quantity + 1) else lines[i])
  }

  /** `selectedItems.filter(item => item.id !== itemId)`. */
  function WithoutLine(lines: seq<LineItem>, itemId: string): (r: seq<LineItem>)
    ensures |r| <= |lines|
    ensures forall x :: x in r <==> x in lines && x.id != itemId
  {
    if lines == [] then []
    else if lines[0].id == itemId then WithoutLine(lines[1..], itemId)
    else [lines[0]] + WithoutLine(lines[1..], itemId)
  }

  /** True when the form edits an order that is being prepared. */
  predicate Locked(order: Option<Order>) {
    order.Some? && order.value.body.status == Preparing
  }

  /** `handleRemoveItem(itemId)`: nothing while the edited order is being prepared. */
  function RemovedLine(lines: seq<LineItem>, order: Option<Order>, itemId: string): seq<LineItem> {
    if Locked(order) then lines else WithoutLine(lines, itemId)
  }

  /** `handleQuantityChange(itemId, quantity)`: zero or less removes the line; otherwise sets its quantity. */
  function QuantitySet(lines: seq<LineItem>, order: Option<Order>, itemId: string, quantity: int): (r: seq<LineItem>)
    ensures quantity <= 0 ==> r == RemovedLine(lines, order, itemId)
    ensures quantity > 0 ==>
              |r| == |lines| &&
              forall i :: 0 <= i < |lines| ==>
                r[i] == if lines[i].id == itemId then lines[i].(quantity := quantity) else lines[i]
  {
    if quantity <= 0 then RemovedLine(lines, order, itemId)
    else seq(|lines|, i requires 0 <= i < |lines| => if lines[i].id == itemId then lines[i].(quantity := quantity) else lines[i])
  }

  /** What a submit asks of the order store. */
  datatype Request = NoRequest | UpdateOrder(id: string, updates: OrderUpdate) | AddOrder(body: OrderBody)

  /**
   * `handleSubmit`: nothing for an empty selection; an edit sends the lines,
   * their total and the order's own status; a new order is `Pending`.
   */
  function Submission(lines: seq<LineItem>, order: Option<Order>): (r: Request)
    ensures lines == [] <==> r.NoRequest?
    ensures r.UpdateOrder? ==> order.Some? && r.id == order.value.id &&
                               r.updates.body == OrderFields(Some(lines), Some(Total(lines)), Some(order.value.body.status)) &&
                               r.updates.id.None? && r.updates.docId.None? && r.updates.rev.None? && r.updates.createdAt.None?
    ensures r.AddOrder? ==> order.None? && r.body == OrderBody(lines, Total(lines), Pending)
  {
    if lines == [] then NoRequest
    else if order.Some? then
      UpdateOrder(order.value.id, Patch(None, None, None, None, OrderFields(Some(lines), Some(Total(lines)), Some(order.value.body.status))))
    else AddOrder(OrderBody(lines, Total(lines), Pending))
  }

  /** The menu buttons: `items.filter(menuItem => menuItem.isAvailable !== false)`. */
  function Offered(menu: seq<Menu.MenuItem>): (r: seq<Menu.MenuItem>)
    ensures forall x :: x in r <==> x in menu && x.body.isAvailable
    ensures |r| <= |menu|
  {
    if menu == [] then []
    else if menu[0].body.isAvailable then [menu[0]] + Offered(menu[1..])
    else Offered(menu[1..])
  }

  /** Picking a known menu item raises the total by one unit of that line's price. */
  lemma {:induction false} AddedItemTotal(lines: seq<LineItem>, menu: seq<Menu.MenuItem>, menuItemId: string)
    requires UniqueIds(lines) && FindById(menu, menuItemId).Some?
    ensures Total(AddedItem(lines, menu, menuItemId)) ==
            Total(lines) + if HasItem(lines, menuItemId) then LinePrice(lines, menuItemId) else FindById(menu, menuItemId).value.body.price
  {
    if HasItem(lines, menuItemId) {
      IncrementTotal(lines, menuItemId);
    } else {
      TotalAppend(lines, [NewLine(FindById(menu, menuItemId).value)]);
    }
  }

  /** The price on the (first) line with an id. */
  function LinePrice(lines: seq<LineItem>, itemId: string): int
    requires HasItem(lines, itemId)
  {
    if lines[0].id == itemId then lines[0].price else LinePrice(lines[1..], itemId)
  }

  lemma {:induction false} IncrementTotal(lines: seq<LineItem>, itemId: string)
    requires UniqueIds(lines) && HasItem(lines, itemId)
    ensures Total(Incremented(lines, itemId)) == Total(lines) + LinePrice(lines, itemId)
  {
    var r := Incremented(lines, itemId);
    assert r[1..] == Incremented(lines[1..], itemId);
    if lines[0].id == itemId {
      assert !HasItem(lines[1..], itemId);
      IncrementAbsent(lines[1..], itemId);
    } else {
      assert HasItem(lines[1..], itemId) by {
        var k :| 0 <= k < |lines| && lines[k].id == itemId;
        assert lines[1..][k - 1].id == itemId;
      }
      IncrementTotal(lines[1..], itemId);
    }
  }

  /** Adding one to the lines with an id that no line has changes nothing. */
  lemma {:induction false} IncrementAbsent(lines: seq<LineItem>, itemId: string)
    requires !HasItem(lines, itemId)
    ensures Incremented(lines, itemId) == lines
  {
  }

  /** Picking an item keeps line ids unique. */
  lemma AddedItemUnique(lines: seq<LineItem>, menu: seq<Menu.MenuItem>, menuItemId: string)
    requires UniqueIds(lines)
    ensures UniqueIds(AddedItem(lines, menu, menuItemId))
  {
  }

  /** Removing a line, or setting a quantity, keeps line ids unique. */
  lemma {:induction false} WithoutLineUnique(lines: seq<LineItem>, itemId: string)
    requires UniqueIds(lines)
    ensures UniqueIds(WithoutLine(lines, itemId))
  {
    if lines != [] {
      WithoutLineUnique(lines[1..], itemId);
      var rest := WithoutLine(lines[1..], itemId);
      forall i | 0 <= i < |rest|
        ensures rest[i].id != lines[0].id
      {
        assert rest[i] in lines[1..];
      }
    }
  }

  /** Changing a quantity, including down to a removal, keeps line ids unique. */
  lemma QuantitySetUnique(lines: seq<LineItem>, order: Option<Order>, itemId: string, quantity: int)
    requires UniqueIds(lines)
    ensures UniqueIds(QuantitySet(lines, order, itemId, quantity))
  {
    if quantity <= 0 && !Locked(order) {
      WithoutLineUnique(lines, itemId);
    }
  }

  /** Removing a line lowers the total by that line's amount when ids are unique. */
  lemma {:induction false} WithoutLineTotal(lines: seq<LineItem>, itemId: string)
    requires UniqueIds(lines)
    ensures Total(WithoutLine(lines, itemId)) ==
            Total(lines) - if HasItem(lines, itemId) then LineAmount(lines, itemId) else 0
  {
    if lines != [] {
      WithoutLineTotal(lines[1..], itemId);
      if lines[0].id == itemId {
        assert !HasItem(lines[1..], itemId);
      } else {
        assert ([lines[0]] + WithoutLine(lines[1..], itemId))[1..] == WithoutLine(lines[1..], itemId);
        if HasItem(lines, itemId) {
          var k :| 0 <= k < |lines| && lines[k].id == itemId;
          assert lines[1..][k - 1].id == itemId;
        }
      }
    }
  }

  /** `price * quantity` of the (first) line with an id. */
  function LineAmount(lines: seq<LineItem>, itemId: string): int
    requires HasItem(lines, itemId)
  {
    if lines[0].id == itemId then lines[0].price * lines[0].quantity else LineAmount(lines[1..], itemId)
  }

  /** Every line of the order being edited is still selected. */
  predicate KeepsLines(order: Order, lines: seq<LineItem>) {
    forall i :: 0 <= i < |order.body.items| ==> HasItem(lines, order.body.items[i].id)
  }

  /**
   * An edit submitted while the order is being prepared keeps all its lines,
   * so the store's preparing check lets it through.
   */
  lemma LockedEditPasses(lines: seq<LineItem>, order: Option<Order>)
    requires Locked(order) && KeepsLines(order.value, lines) && lines != []
    ensures Submission(lines, order).UpdateOrder?
    ensures PreparingGuard(order.value, Submission(lines, order).updates).None?
  {
    PreparingGuardExact(order.value, Submission(lines, order).updates);
  }

  class Form {
    var selectedItems: seq<LineItem>
    const order: Option<Order>

    /** While a preparing order is edited no line can be lost. */
    predicate Valid()
      reads this
    {
      Locked(order) ==> KeepsLines(order.value, selectedItems)
    }

    /** `useState(order?.items || [])`. */
    constructor (order: Option<Order>)
      ensures this.order == order
      ensures selectedItems == if order.Some? then order.value.body.items else []
      ensures Valid()
    {
      this.order := order;
      selectedItems := if order.Some? then order.value.body.items else [];
      new;
      if order.Some? {
        forall i | 0 <= i < |order.value.body.items|
          ensures HasItem(selectedItems, order.value.body.items[i].id)
        {
          assert selectedItems[i].id == order.value.body.items[i].id;
        }
      }
    }

    method HandleAddItem(menu: seq<Menu.MenuItem>, menuItemId: string)
      requires Valid()
      modifies this
      ensures Valid()
      ensures selectedItems == AddedItem(old(selectedItems), menu, menuItemId)
    {
      var before := selectedItems;
      assert Locked(order) ==> KeepsLines(order.value, before);
      selectedItems := AddedItem(selectedItems, menu, menuItemId);
      if Locked(order) {
        forall i | 0 <= i < |order.value.body.items|
          ensures HasItem(selectedItems, order.value.body.items[i].id)
        {
          assert HasItem(before, order.value.body.items[i].id);
          var k :| 0 <= k < |before| && before[k].id == order.value.body.items[i].id;
          assert selectedItems[k].id == before[k].id;
        }
      }
    }

    method HandleRemoveItem(itemId: string)
      requires Valid()
      modifies this
      ensures Valid()
      ensures selectedItems == RemovedLine(old(selectedItems), order, itemId)
    {
      selectedItems := RemovedLine(selectedItems, order, itemId);
    }

    method HandleQuantityChange(itemId: string, quantity: int)
      requires Valid()
      modifies this
      ensures Valid()
      ensures selectedItems == QuantitySet(old(selectedItems), order, itemId, quantity)
    {
      if quantity <= 0 {
        HandleRemoveItem(itemId);
        return;
      }
      var before := selectedItems;
      assert Locked(order) ==> KeepsLines(order.value, before);
      selectedItems := QuantitySet(selectedItems, order, itemId, quantity);
      if Locked(order) {
        forall i | 0 <= i < |order.value.body.items|
          ensures HasItem(selectedItems, order.value.body.items[i].id)
        {
          assert HasItem(before, order.value.body.items[i].id);
          var k :| 0 <= k < |before| && before[k].id == order.value.body.items[i].id;
          assert selectedItems[k].id == before[k].id;
        }
      }
    }

    /** The request `handleSubmit` makes; the form itself does not change. */
    method HandleSubmit() returns (r: Request)
      requires Valid()
      ensures r == Submission(selectedItems, order)
      ensures Locked(order) && r.UpdateOrder? ==> PreparingGuard(order.value, r.updates).None?
    {
      r := Submission(selectedItems, order);
      if Locked(order) && r.UpdateOrder? {
        LockedEditPasses(selectedItems, order);
      }
    }
  }
}
