/**
 * The orders page (`src/pages/OrdersManagement.tsx`): the list shown for the
 * selected tab and search term, and the counts on the tabs.
 */
module OrdersManagement {
  import Text
  import opened Wrappers
  import opened Orders

  datatype Tab = All | Active | Completed | CancelledTab

  predicate InTab(tab: Tab, o: Order) {
    match tab
    case All => true
    case Active => o.body.status == Pending || o.body.status == Preparing
    case Completed => o.body.status == Served
    case CancelledTab => o.body.status == Cancelled
  }

  /** The first filter of the effect: by tab, `all` keeping the list as it is. */
  function ByTab(orders: seq<Order>, tab: Tab): (r: seq<Order>)
    ensures forall o :: o in r <==> o in orders && InTab(tab, o)
    ensures |r| <= |orders|
  {
    if tab == All then orders
    else if orders == [] then []
    else if InTab(tab, orders[0]) then [orders[0]] + ByTab(orders[1..], tab)
    else ByTab(orders[1..], tab)
  }

  /** The id, or the name of some line, contains the term, ignoring case. */
  predicate Matches(o: Order, term: string) {
    Text.Includes(Text.Lower(o.id), Text.Lower(term)) ||
    exists i :: 0 <= i < |o.body.items| && Text.Includes(Text.Lower(o.body.items[i].name), Text.Lower(term))
  }

  /** The term's case does not matter, and an exact occurrence in the id or a line name is found. */
  lemma SearchIgnoresCase(o: Order, term: string)
    ensures Matches(o, term) <==> Matches(o, Text.Lower(term))
    ensures Text.Includes(o.id, term) ==> Matches(o, term)
    ensures forall i :: 0 <= i < |o.body.items| && Text.Includes(o.body.items[i].name, term) ==> Matches(o, term)
  {
    Text.LowerIdempotent(term);
    if Text.Includes(o.id, term) {
      Text.IncludesLower(o.id, term);
    }
    forall i | 0 <= i < |o.body.items| && Text.Includes(o.body.items[i].name, term)
      ensures Matches(o, term)
    {
      Text.IncludesLower(o.body.items[i].name, term);
    }
  }

  /** The second filter, applied only for a non-empty term. */
  function BySearch(orders: seq<Order>, term: string): (r: seq<Order>)
    ensures forall o :: o in r <==> o in orders && Matches(o, term)
    ensures |r| <= |orders|
  {
    if orders == [] then []
    else if Matches(orders[0], term) then [orders[0]] + BySearch(orders[1..], term)
    else BySearch(orders[1..], term)
  }

  /** `filteredOrders` for the current orders, tab and search term. */
  function Filtered(orders: seq<Order>, tab: Tab, term: string): (r: seq<Order>)
    ensures forall o :: o in r <==> o in orders && InTab(tab, o) && (term != "" ==> Matches(o, term))
    ensures tab == All && term == "" ==> r == orders
  {
    var byTab := ByTab(orders, tab);
    if term != "" then BySearch(byTab, term) else byTab
  }

  /** Whether an order is in the shown list. */
  predicate Shown(o: Order, tab: Tab, term: string) {
    InTab(tab, o) && (term != "" ==> Matches(o, term))
  }

  /** The two filters of the effect as one. */
  function Keep(orders: seq<Order>, tab: Tab, term: string): seq<Order> {
    if orders == [] then []
    else if Shown(orders[0], tab, term) then [orders[0]] + Keep(orders[1..], tab, term)
    else Keep(orders[1..], tab, term)
  }

  /** Filtering by tab and then by search term is filtering once by both. */
  lemma {:induction false} TwoFiltersAreOne(orders: seq<Order>, tab: Tab, term: string)
    ensures Filtered(orders, tab, term) == Keep(orders, tab, term)
  {
    if orders != [] {
      TwoFiltersAreOne(orders[1..], tab, term);
      var h, t := orders[0], orders[1..];
      var byTab := ByTab(orders, tab);
      if InTab(tab, h) {
        assert byTab == [h] + ByTab(t, tab) by {
          if tab == All {
            assert [h] + t == orders;
          }
        }
        assert byTab[0] == h && byTab[1..] == ByTab(t, tab);
      } else {
        assert byTab == ByTab(t, tab);
      }
    }
  }

  /** The kept orders are a subsequence of the list. */
  lemma {:induction false} KeepSubsequence(orders: seq<Order>, tab: Tab, term: string)
    ensures Subsequence(Keep(orders, tab, term), orders)
  {
    if orders != [] {
      KeepSubsequence(orders[1..], tab, term);
      var k := Keep(orders, tab, term);
      if Shown(orders[0], tab, term) {
        assert k[0] == orders[0] && k[1..] == Keep(orders[1..], tab, term);
      }
    }
  }

  /** The shown list keeps the orders' order: it is a subsequence of `orders`. */
  lemma FilteredSubsequence(orders: seq<Order>, tab: Tab, term: string)
    ensures Subsequence(Filtered(orders, tab, term), orders)
  {
    TwoFiltersAreOne(orders, tab, term);
    KeepSubsequence(orders, tab, term);
  }

  /** `getStatusCount(status)`, over all orders whatever the search term. */
  function StatusCount(orders: seq<Order>, status: Status): nat {
    if orders == [] then 0
    else (if orders[0].body.status == status then 1 else 0) + StatusCount(orders[1..], status)
  }

  /** The number on a tab. */
  function TabCount(orders: seq<Order>, tab: Tab): nat {
    match tab
    case All => |orders|
    case Active => StatusCount(orders, Pending) + StatusCount(orders, Preparing)
    case Completed => StatusCount(orders, Served)
    case CancelledTab => StatusCount(orders, Cancelled)
  }

  /** With no search term, each tab shows as many orders as its label counts. */
  lemma {:induction false} TabCountIsShown(orders: seq<Order>, tab: Tab)
    ensures |Filtered(orders, tab, "")| == TabCount(orders, tab)
  {
    if tab != All && orders != [] {
      TabCountIsShown(orders[1..], tab);
    }
  }

  /** Every order has exactly one status, so the four status counts add up to the list. */
  lemma {:induction false} StatusCountsPartition(orders: seq<Order>)
    ensures StatusCount(orders, Pending) + StatusCount(orders, Preparing) +
            StatusCount(orders, Served) + StatusCount(orders, Cancelled) == |orders|
  {
    if orders != [] {
      StatusCountsPartition(orders[1..]);
    }
  }
}
