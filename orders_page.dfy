/** The admin order console: the status filter and search over the live order
    list, the status dropdown, the per-order columns and the four counters. */
module OrdersPage {
  import opened Js
  import opened Text
  import opened Seqs
  import opened OrderStore
  import OrderSchema

  // ---------------------------------------------------------------------------
  // Filter and search

  /** `order.status === statusFilter`, skipped for 'all'. */
  predicate StatusMatches(o: StoredOrder, statusFilter: string) {
    statusFilter == "all" || o.status == Some(statusFilter)
  }

  /** `field?.toLowerCase().includes(search.toLowerCase())`; a missing field never matches. */
  predicate FieldMatches(field: Option<string>, search: string) {
    field.Some? && Contains(Lower(field.value), Lower(search))
  }

  /** Search by customer name or document id, skipped for an empty search. */
  predicate SearchMatches(o: StoredOrder, search: string) {
    search == "" || FieldMatches(o.customerName, search) || FieldMatches(o.id, search)
  }

  predicate Visible(o: StoredOrder, search: string, statusFilter: string) {
    StatusMatches(o, statusFilter) && SearchMatches(o, search)
  }

  /** The orders the table shows: those passing both tests, in list order. */
  function Filtered(orders: seq<StoredOrder>, search: string, statusFilter: string): (r: seq<StoredOrder>)
    ensures forall o :: o in r <==> o in orders && Visible(o, search, statusFilter)
  {
    var r := Filter(orders, (o: StoredOrder) => Visible(o, search, statusFilter));
    forall o ensures o in r <==> o in orders && Visible(o, search, statusFilter) {
      FilterMembership(orders, (x: StoredOrder) => Visible(x, search, statusFilter), o);
    }
    r
  }

  /** The effect filters in two steps, first by status and then by search; the
      result is the single filter by both tests. */
  lemma StepwiseFilterIsFiltered(orders: seq<StoredOrder>, search: string, statusFilter: string)
    ensures var byStatus := if statusFilter != "all" then Filter(orders, (o: StoredOrder) => o.status == Some(statusFilter)) else orders;
      var bySearch := if search != "" then
        Filter(byStatus, (o: StoredOrder) => FieldMatches(o.customerName, search) || FieldMatches(o.id, search)) else byStatus;
      bySearch == Filtered(orders, search, statusFilter)
  {
    var visible := (o: StoredOrder) => Visible(o, search, statusFilter);
    var st := (o: StoredOrder) => o.status == Some(statusFilter);
    var se := (o: StoredOrder) => FieldMatches(o.customerName, search) || FieldMatches(o.id, search);
    if statusFilter != "all" && search != "" {
      FilterThenFilter(orders, st, se, visible);
    } else if statusFilter != "all" {
      FilterCongruent(orders, st, visible);
    } else if search != "" {
      FilterCongruent(orders, se, visible);
    } else {
      FilterAll(orders, visible);
    }
  }

  /** Filtering the shown list again with the same settings changes nothing. */
  lemma FilteredIdempotent(orders: seq<StoredOrder>, search: string, statusFilter: string)
    ensures Filtered(Filtered(orders, search, statusFilter), search, statusFilter)
         == Filtered(orders, search, statusFilter)
  {
    FilterIdempotent(orders, (o: StoredOrder) => Visible(o, search, statusFilter));
  }

  /** With 'all' and an empty search every order is shown, in order. */
  lemma AllShowsEverything(orders: seq<StoredOrder>)
    ensures Filtered(orders, "", "all") == orders
  {
    FilterAll(orders, (o: StoredOrder) => Visible(o, "", "all"));
  }

  /** A status filter other than 'all' keeps exactly the orders with that status. */
  lemma StatusFilterExact(orders: seq<StoredOrder>, statusFilter: string)
    requires statusFilter != "all"
    ensures forall o :: o in Filtered(orders, "", statusFilter) <==> o in orders && o.status == Some(statusFilter)
  {
  }

  /** A non-empty search matches by a case-insensitive substring of the name or
      the id, and never matches an order with neither. */
  lemma SearchRules(o: StoredOrder, search: string)
    requires search != ""
    ensures SearchMatches(o, search) <==>
      (o.customerName.Some? && exists i :: OccursAt(Lower(o.customerName.value), Lower(search), i))
      || (o.id.Some? && exists i :: OccursAt(Lower(o.id.value), Lower(search), i))
    ensures o.customerName.None? && o.id.None? ==> !SearchMatches(o, search)
  {
    if o.customerName.Some? { ContainsIff(Lower(o.customerName.value), Lower(search)); }
    if o.id.Some? { ContainsIff(Lower(o.id.value), Lower(search)); }
  }

  // ---------------------------------------------------------------------------
  // Per-order columns and counters

  /** `item.qty` as a term of the sum; a missing `qty` is `undefined`. */
  function QtyTerm(item: StoredItem): real {
    if item.qty.Some? then item.qty.value else 0.0
  }

  /** `items.reduce((sum, item) => sum + item.qty, 0)`: adding `undefined`
      makes the sum NaN, and NaN stays NaN. */
  function QtySum(items: seq<StoredItem>): (r: JsNumber)
    ensures r.NaN? <==> exists i :: 0 <= i < |items| && items[i].qty.None?
    ensures r.Finite? ==> r.n == SumOf(items, QtyTerm)
  {
    if items == [] then Finite(0.0)
    else
      var init, last := items[..|items| - 1], items[|items| - 1];
      assert items == init + [last];
      SumOfAppend(init, [last], QtyTerm);
      assert forall i :: 0 <= i < |init| ==> init[i] == items[i];
      if last.qty.None? then NaN else QtySum(init).Plus(last.qty.value)
  }

  /** The quantity column: `order.items?.reduce(...) || 0`. */
  function TotalQuantity(o: StoredOrder): (r: real)
    ensures o.items.None? ==> r == 0.0
    ensures o.items.Some? && (exists i :: 0 <= i < |o.items.value| && o.items.value[i].qty.None?) ==> r == 0.0
    ensures o.items.Some? && (forall i :: 0 <= i < |o.items.value| ==> o.items.value[i].qty.Some?) ==>
              r == SumOf(o.items.value, QtyTerm)
  {
    if o.items.None? then 0.0 else QtySum(o.items.value).OrZero()
  }

  /** Stored schema items carry `quantity` and no `qty`, so the column reads 0
      for every order the checkout writes, whatever it holds. */
  lemma SchemaOrdersShowZeroQuantity(docId: string, o: OrderSchema.Order)
    ensures TotalQuantity(StoredOrderOf(docId, o)) == 0.0
  {
    var items := StoredItems(o.items);
    if items != [] {
      assert items[0].qty.None?;
    }
  }

  /** `item.quantity || item.qty || 0` as a term of the sum. */
  function QuantityTerm(item: StoredItem): real {
    OrNum(item.quantity, OrNum(item.qty, 0.0))
  }

  /** The quantity column as intended: the schema's `quantity`, falling back to
      the older `qty`, with a missing item list as 0. */
  function TotalQuantityIntended(o: StoredOrder): (r: real)
    ensures o.items.None? ==> r == 0.0
  {
    if o.items.None? then 0.0 else SumOf(o.items.value, QuantityTerm)
  }

  function ItemQuantity(item: OrderSchema.OrderItem): real {
    item.quantity
  }

  /** For a stored schema order the intended column is the sum of the item
      quantities the order holds. */
  lemma IntendedQuantityOfSchemaOrder(docId: string, o: OrderSchema.Order)
    ensures TotalQuantityIntended(StoredOrderOf(docId, o)) == SumOf(o.items, ItemQuantity)
  {
    var items := StoredItems(o.items);
    forall i | 0 <= i < |items| ensures QuantityTerm(items[i]) == ItemQuantity(o.items[i]) {
      assert items[i].quantity == Some(o.items[i].quantity);
    }
    SumOfCongruent(items, QuantityTerm, o.items, ItemQuantity);
  }

  /** The Order ID column: `order.id?.slice(-8) || 'N/A'`. */
  function IdSuffix(id: Option<string>): (r: string)
    ensures !TruthyStr(id) ==> r == "N/A"
    ensures TruthyStr(id) && |id.value| <= 8 ==> r == id.value
    ensures TruthyStr(id) && |id.value| > 8 ==> |r| == 8 && id.value == id.value[..|id.value| - 8] + r
  {
    if !TruthyStr(id) then "N/A"
    else if |id.value| <= 8 then id.value
    else id.value[|id.value| - 8..]
  }

  /** `order.status || 'Pending'`: the status badge and the dropdown value. */
  function DisplayStatus(o: StoredOrder): (r: string)
    ensures TruthyStr(o.status) ==> r == o.status.value
    ensures !TruthyStr(o.status) ==> r == "Pending"
  {
    OrStr(o.status, "Pending")
  }

  /** `orders.filter((o: StoredOrder) => o.status === status).length`: at most
      the number of orders, 0 exactly when no order has that status and all of
      them exactly when every order has it. */
  function StatusCount(orders: seq<StoredOrder>, status: string): (r: nat)
    ensures r <= |orders|
    ensures r == 0 <==> forall i :: 0 <= i < |orders| ==> orders[i].status != Some(status)
    ensures r == |orders| <==> forall i :: 0 <= i < |orders| ==> orders[i].status == Some(status)
  {
    var matches := (o: StoredOrder) => o.status == Some(status);
    CountExtremes(orders, matches);
    Count(orders, matches)
  }

  /** The three status counters count exact matches on the unfiltered list, so
      together they never exceed the total. */
  lemma CountersBounded(orders: seq<StoredOrder>)
    ensures StatusCount(orders, "Pending") + StatusCount(orders, "Dispatched")
            + StatusCount(orders, "Delivered") <= |orders|
  {
    CountDisjoint3(orders, (o: StoredOrder) => o.status == Some("Pending"), (o: StoredOrder) => o.status == Some("Dispatched"),
                   (o: StoredOrder) => o.status == Some("Delivered"));
  }

  /** An order with no status is shown as Pending but not counted as Pending. */
  lemma MissingStatusNotCounted(orders: seq<StoredOrder>, o: StoredOrder)
    requires o.status.None?
    ensures DisplayStatus(o) == "Pending"
    ensures StatusCount(orders + [o], "Pending") == StatusCount(orders, "Pending")
  {
    var p := (x: StoredOrder) => x.status == Some("Pending");
    FilterAppend(orders, [o], p);
    assert Filter([o], p) == [];
  }

  // ---------------------------------------------------------------------------
  // The component

  class OrdersView {
    var orders: seq<StoredOrder>
    var filteredOrders: seq<StoredOrder>
    var search: string
    var statusFilter: string
    var loading: bool

    /** After every render the filter effect has run. */
    predicate Valid()
      reads this
    {
      filteredOrders == Filtered(orders, search, statusFilter)
    }

    constructor ()
      ensures Valid()
      ensures orders == [] && filteredOrders == [] && search == "" && statusFilter == "all" && loading
    {
      orders := [];
      filteredOrders := [];
      search := "";
      statusFilter := "all";
      loading := true;
    }

    /** The filter-and-search effect. */
    method ApplyFilters()
      modifies this
      ensures Valid()
      ensures orders == old(orders) && search == old(search) && statusFilter == old(statusFilter)
      ensures loading == old(loading)
    {
      var filtered := orders;
      var sf, s := statusFilter, search;
      if sf != "all" {
        filtered := Filter(filtered, (o: StoredOrder) => o.status == Some(sf));
      }
      if s != "" {
        filtered := Filter(filtered, (o: StoredOrder) => FieldMatches(o.customerName, s) || FieldMatches(o.id, s));
      }
      StepwiseFilterIsFiltered(orders, s, sf);
      filteredOrders := filtered;
    }

    /** A snapshot from the subscription: the list is replaced, loading ends and
        the filter effect runs again because `orders` changed. */
    method ReceiveSnapshot(orderList: seq<StoredOrder>)
      modifies this
      ensures Valid()
      ensures orders == orderList && !loading
      ensures search == old(search) && statusFilter == old(statusFilter)
    {
      orders := orderList;
      filteredOrders := orderList;
      loading := false;
      ApplyFilters();
    }

    method SetSearch(value: string)
      modifies this
      ensures Valid()
      ensures search == value && orders == old(orders) && statusFilter == old(statusFilter)
      ensures loading == old(loading)
    {
      search := value;
      ApplyFilters();
    }

    method SetStatusFilter(value: string)
      modifies this
      ensures Valid()
      ensures statusFilter == value && orders == old(orders) && search == old(search)
      ensures loading == old(loading)
    {
      statusFilter := value;
      ApplyFilters();
    }

    /** `handleStatusUpdate`: writes whatever status was picked, with no
        transition check; a failure is only logged. The console's own state is
        untouched either way; the new status arrives with the next snapshot. */
    method HandleStatusUpdate(store: OrderCollection, orderId: Option<string>, newStatus: string, writeOk: bool)
      requires store.Valid()
      modifies store
      ensures store.Valid()
      ensures orders == old(orders) && filteredOrders == old(filteredOrders)
      ensures writeOk && orderId.Some? && orderId.value in old(store.docs) ==>
        store.docs == old(store.docs)[orderId.value := old(store.docs)[orderId.value].(status := Some(newStatus))]
      ensures !(writeOk && orderId.Some? && orderId.value in old(store.docs)) ==> store.docs == old(store.docs)
    {
      var _ := store.UpdateOrderStatus(orderId, newStatus, writeOk);
    }
  }
}
