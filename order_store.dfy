/** The orders collection of the remote document store, reduced to the
    operations the storefront and the console call: `addOrder` and
    `updateOrderStatus`. Whether a write reaches the store is a parameter. */
module OrderStore {
  import opened Js
  import OrderSchema

  /** An order item as the console reads it back: `qty`, the field the console
      sums, and `quantity`, the field the schema writes. */
  datatype StoredItem = StoredItem(qty: Option<real>, quantity: Option<real>)

  /** An order document as `getOrders` lists it: the document id spread
      together with the stored fields the console reads. */
  datatype StoredOrder = StoredOrder(
    id: Option<string>, customerName: Option<string>, status: Option<string>,
    deliveryStatus: Option<string>, items: Option<seq<StoredItem>>)

  /** A schema order item as stored: it carries `quantity` and no `qty`. */
  function StoredItemOf(item: OrderSchema.OrderItem): StoredItem {
    StoredItem(None, Some(item.quantity))
  }

  function StoredItems(items: seq<OrderSchema.OrderItem>): (r: seq<StoredItem>)
    ensures |r| == |items|
    ensures forall i :: 0 <= i < |items| ==> r[i].qty.None? && r[i].quantity == Some(items[i].quantity)
  {
    if items == [] then [] else [StoredItemOf(items[0])] + StoredItems(items[1..])
  }

  /** The document a schema order becomes under the id the store assigned. */
  function StoredOrderOf(docId: string, o: OrderSchema.Order): StoredOrder {
    StoredOrder(Some(docId), Some(o.customerName), Some(o.status), Some(o.deliveryStatus),
                Some(StoredItems(o.items)))
  }

  class OrderCollection {
    var docs: map<string, StoredOrder>

    /** Every document is listed under its own id, and no id is empty. */
    predicate Valid()
      reads this
    {
      forall k :: k in docs ==> k != "" && docs[k].id == Some(k)
    }

    constructor ()
      ensures Valid() && docs == map[]
    {
      docs := map[];
    }

    /** `addOrder`: `addDoc` under a fresh id chosen by the store. The wrapper
        returns nothing; a failed write surfaces as an exception (`thrown`). */
    method AddOrder(o: OrderSchema.Order, freshId: string, writeOk: bool) returns (thrown: bool)
      requires Valid() && freshId != "" && freshId !in docs
      modifies this
      ensures Valid()
      ensures thrown <==> !writeOk
      ensures writeOk ==> docs == old(docs)[freshId := StoredOrderOf(freshId, o)]
      ensures !writeOk ==> docs == old(docs)
    {
      thrown := !writeOk;
      if writeOk {
        docs := docs[freshId := StoredOrderOf(freshId, o)];
      }
    }

    /** `updateOrderStatus`: `updateDoc(..., { status })`. Only `status` is
        written; `deliveryStatus` keeps its old value. A missing id or document
        makes the update fail and leaves the store unchanged. There is no
        transition check: any status is written. */
    method UpdateOrderStatus(orderId: Option<string>, status: string, writeOk: bool) returns (thrown: bool)
      requires Valid()
      modifies this
      ensures Valid()
      ensures thrown <==> !(writeOk && orderId.Some? && orderId.value in old(docs))
      ensures !thrown ==> docs == old(docs)[orderId.value := old(docs)[orderId.value].(status := Some(status))]
      ensures !thrown ==> docs[orderId.value].deliveryStatus == old(docs)[orderId.value].deliveryStatus
      ensures thrown ==> docs == old(docs)
    {
      if writeOk && orderId.Some? && orderId.value in docs {
        var k := orderId.value;
        docs := docs[k := docs[k].(status := Some(status))];
        thrown := false;
      } else {
        thrown := true;
      }
    }
  }

  /** An order as `createOrderObject` builds it is stored with `deliveryStatus`
      equal to `status`; a status update to a different value leaves the two
      fields disagreeing. */
  lemma StatusUpdateDivergesFromDeliveryStatus(docId: string, o: OrderSchema.Order, next: string)
    requires o.deliveryStatus == o.status && next != o.status
    ensures StoredOrderOf(docId, o).status == StoredOrderOf(docId, o).deliveryStatus
    ensures var d := StoredOrderOf(docId, o).(status := Some(next)); d.status != d.deliveryStatus
  {
  }
}
