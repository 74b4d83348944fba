/** Purchase orders, their items and goods receipts (purchases/models.py).
    Prices are `DecimalField(decimal_places=2)`, held here as integer cents,
    so every total is exact. */
module PurchaseModels {
  import opened Base

  /** `PurchaseOrder.STATUS_CHOICES`: the status can only be one of these. */
  datatype Status = Draft | Sent | Partial | Received | Cancelled

  /** A PurchaseOrder row. Dates are day numbers. */
  datatype PurchaseOrder = PurchaseOrder(
    number: string,
    supplier: nat,
    location: nat,
    status: Status,
    orderDate: int,
    expectedDelivery: Option<int>,
    actualDelivery: Option<int>,
    notes: string,
    createdBy: Option<nat>)

  /** A PurchaseOrderItem row; `order` is the primary key of its purchase order. */
  datatype OrderItem = OrderItem(
    order: nat,
    product: nat,
    quantity: int,
    unitPrice: int,
    received: int)

  /** A GoodsReceipt row; `order` is the purchase order it was taken against. */
  datatype GoodsReceipt = GoodsReceipt(
    number: string,
    order: nat,
    receivedDate: int,
    receivedBy: Option<nat>,
    notes: string)

  /** A GoodsReceiptItem row: `quantity` units of item `item` on receipt `receipt`. */
  datatype ReceiptLine = ReceiptLine(receipt: nat, item: nat, quantity: int)

  /** Longest `po_number` / `receipt_number` the columns hold. */
  const NumberLength: nat := 50

  /** A purchase order as first saved: DRAFT by default, not yet delivered. */
  function NewOrder(number: string, supplier: nat, location: nat, orderDate: int,
                    expectedDelivery: Option<int>, notes: string, createdBy: Option<nat>): (po: PurchaseOrder)
    ensures po.status == Draft && po.actualDelivery == None
    ensures po.number == number && po.supplier == supplier && po.location == location
    ensures po.orderDate == orderDate && po.expectedDelivery == expectedDelivery
    ensures po.notes == notes && po.createdBy == createdBy
  {
    PurchaseOrder(number, supplier, location, Draft, orderDate, expectedDelivery, None, notes, createdBy)
  }

  /** A new item, as its form admits it: the ordered quantity must be at
      least 1 (`MinValueValidator(1)`) and nothing has been received. */
  function NewItem(order: nat, product: nat, quantity: int, unitPrice: int): (r: Option<OrderItem>)
    ensures r.Some? <==> quantity >= 1
    ensures r.Some? ==>
      && r.value.received == 0 && r.value.order == order && r.value.product == product
      && r.value.quantity == quantity && r.value.unitPrice == unitPrice
  {
    if quantity >= 1 then Some(OrderItem(order, product, quantity, unitPrice, 0)) else None
  }

  /** `pending_quantity`: what is still to come; zero or less once the item
      is fully received, negative when more arrived than was ordered. */
  function Pending(item: OrderItem): (p: int)
    ensures p <= 0 <==> item.received >= item.quantity
    ensures p < 0 <==> item.received > item.quantity
    ensures p + item.received == item.quantity
  {
    item.quantity - item.received
  }

  /** A new item still awaits all of its (positive) ordered quantity. */
  lemma NewItemPending(order: nat, product: nat, quantity: int, unitPrice: int)
    requires NewItem(order, product, quantity, unitPrice).Some?
    ensures Pending(NewItem(order, product, quantity, unitPrice).value) == quantity
    ensures Pending(NewItem(order, product, quantity, unitPrice).value) >= 1
  {
  }

  /** `PurchaseOrderItem.total_cost`, in cents. */
  function ItemTotal(item: OrderItem): int {
    item.quantity * item.unitPrice
  }

  /** `PurchaseOrder.total_cost`: the sum over the order's items, 0 for none. */
  function OrderTotal(items: seq<OrderItem>): (total: int)
    ensures items == [] ==> total == 0
    ensures (forall i :: 0 <= i < |items| ==> items[i].quantity >= 1 && items[i].unitPrice >= 0) ==> total >= 0
  {
    if items == [] then 0 else ItemTotal(items[0]) + OrderTotal(items[1..])
  }

  /** One item's share of the total is its quantity times its unit price;
      with `OrderTotalAppend` this fixes the total of every list. */
  lemma OrderTotalSingle(item: OrderItem)
    ensures OrderTotal([item]) == item.quantity * item.unitPrice
  {
  }

  /** The total of a list is the sum of the totals of its parts, so it does
      not depend on how the items are grouped. */
  lemma {:induction false} OrderTotalAppend(a: seq<OrderItem>, b: seq<OrderItem>)
    ensures OrderTotal(a + b) == OrderTotal(a) + OrderTotal(b)
    decreases |a|
  {
    if a == [] {
      assert a + b == b;
    } else {
      assert (a + b)[1..] == a[1..] + b;
      OrderTotalAppend(a[1..], b);
    }
  }

  /** Receiving goods changes no total: `received` does not enter the cost. */
  lemma {:induction false} OrderTotalIgnoresReceipts(items: seq<OrderItem>, after: seq<OrderItem>)
    requires |after| == |items|
    requires forall i :: 0 <= i < |items| ==> after[i] == items[i].(received := after[i].received)
    ensures OrderTotal(after) == OrderTotal(items)
    decreases |items|
  {
    if items != [] {
      OrderTotalIgnoresReceipts(items[1..], after[1..]);
    }
  }
}
