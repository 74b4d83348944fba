/** The purchase-order workflow of purchases/views.py: sending, cancelling
    and editing an order under a status guard, and taking a goods receipt,
    which raises each item's received quantity, records one PURCHASE per
    received line in the stock ledger and recomputes the order's status.

    Every view acts on a `Store` and returns a reply with the new store. The
    views are not wrapped in a database transaction, so a request that fails
    half-way keeps what it wrote before the failure (`ServerError`). */
module PurchaseViews {
  import opened Base
  import opened StockModels
  import opened Transactions
  import opened PurchaseModels
  import Audit

  /** The tables the purchase views read and write. Items are keyed by their
      primary key; `nextItem` is the next key the database hands out.
      Receipts and receipt lines are keyed by their position. */
  datatype Store = Store(
    orders: map<nat, PurchaseOrder>,
    items: map<nat, OrderItem>,
    nextItem: nat,
    receipts: seq<GoodsReceipt>,
    lines: seq<ReceiptLine>,
    ledger: Ledger,
    audit: seq<Audit.Entry>)

  /** What a view answers: 404, 405, a redirect with an error message, the
      (re)displayed form, a redirect after success, or an uncaught exception. */
  datatype Reply = NotFound | MethodNotAllowed | Refused | FormShown | FormErrors | Done | ServerError

  /** The request: who sent it, the headers `log_activity` reads, its method. */
  datatype Request = Request(actor: nat, meta: Audit.Meta, verb: HttpMethod)

  /** `log` grew by exactly one entry by `actor` with the given fields. */
  predicate Audited(log: seq<Audit.Entry>, after: seq<Audit.Entry>, actor: nat, action: Audit.Action,
                    modelName: string, objectId: int, repr: string, description: string) {
    && |after| == |log| + 1 && after[..|log|] == log
    && after[|log|].user == Some(actor) && after[|log|].action == action
    && after[|log|].modelName == modelName && after[|log|].objectId == Some(objectId)
    && after[|log|].objectRepr == repr && after[|log|].description == description
  }

  /** Only purchase order `pk` and the audit log differ between `s` and `r`. */
  predicate OnlyOrderChanged(s: Store, r: Store, pk: nat) {
    && r.items == s.items && r.nextItem == s.nextItem && r.receipts == s.receipts
    && r.lines == s.lines && r.ledger == s.ledger
    && r.orders.Keys == s.orders.Keys
    && (forall j :: j in s.orders && j != pk ==> r.orders[j] == s.orders[j])
  }

  /** Records one UPDATE of purchase order `pk` with the given description. */
  function LogOrderUpdate(s: Store, pk: nat, number: string, description: string, req: Request): seq<Audit.Entry> {
    Audit.LogActivity(s.audit, Some(req.actor), Audit.Update, "PurchaseOrder", Some(pk), number, description, Some(req.meta))
  }

  /** `purchase_order_send`: a POST moves a DRAFT order to SENT; from any
      other status the order is left as it is. */
  function Send(s: Store, pk: nat, req: Request): (out: (Reply, Store))
    ensures out.0 == NotFound <==> pk !in s.orders
    ensures out.0 != Done ==> out.1 == s
    ensures out.0 == Done <==> pk in s.orders && req.verb == Post && s.orders[pk].status == Draft
    ensures out.0 == Refused <==> pk in s.orders && req.verb == Post && s.orders[pk].status != Draft
    ensures out.0 == Done ==>
      && OnlyOrderChanged(s, out.1, pk)
      && out.1.orders[pk] == s.orders[pk].(status := Sent)
      && Audited(s.audit, out.1.audit, req.actor, Audit.Update, "PurchaseOrder", pk, s.orders[pk].number,
                 "Sent purchase order " + s.orders[pk].number + " to supplier")
  {
    if pk !in s.orders then (NotFound, s)
    else if req.verb != Post then (MethodNotAllowed, s)
    else
      var po := s.orders[pk];
      if po.status == Draft then
        (Done, s.(orders := s.orders[pk := po.(status := Sent)],
                  audit := LogOrderUpdate(s, pk, po.number, "Sent purchase order " + po.number + " to supplier", req)))
      else (Refused, s)
  }

  predicate Cancellable(status: Status) {
    status == Draft || status == Sent
  }

  /** `purchase_order_cancel`: a POST moves a DRAFT or SENT order to
      CANCELLED; PARTIAL, RECEIVED and CANCELLED orders are left as they are. */
  function Cancel(s: Store, pk: nat, req: Request): (out: (Reply, Store))
    ensures out.0 == NotFound <==> pk !in s.orders
    ensures out.0 != Done ==> out.1 == s
    ensures out.0 == Done <==> pk in s.orders && req.verb == Post && s.orders[pk].status in {Draft, Sent}
    ensures out.0 == Refused <==> pk in s.orders && req.verb == Post && s.orders[pk].status in {Partial, Received, Cancelled}
    ensures out.0 == Done ==>
      && OnlyOrderChanged(s, out.1, pk)
      && out.1.orders[pk] == s.orders[pk].(status := Cancelled)
      && Audited(s.audit, out.1.audit, req.actor, Audit.Update, "PurchaseOrder", pk, s.orders[pk].number,
                 "Cancelled purchase order " + s.orders[pk].number)
  {
    if pk !in s.orders then (NotFound, s)
    else if req.verb != Post then (MethodNotAllowed, s)
    else
      var po := s.orders[pk];
      if Cancellable(po.status) then
        (Done, s.(orders := s.orders[pk := po.(status := Cancelled)],
                  audit := LogOrderUpdate(s, pk, po.number, "Cancelled purchase order " + po.number, req)))
      else (Refused, s)
  }

  /** One form of the item formset: an existing item of the order edited or
      deleted, or an extra form filled in for a new item. */
  datatype ItemEdit =
    | Change(id: nat, product: nat, quantity: int, unitPrice: int)
    | Remove(id: nat)
    | Add(product: nat, quantity: int, unitPrice: int)

  /** The posted order form (header fields; `orderDate` None when missing)
      and its item formset. */
  datatype OrderEdit = OrderEdit(
    number: string,
    supplier: nat,
    location: nat,
    orderDate: Option<int>,
    expectedDelivery: Option<int>,
    notes: string,
    itemEdits: seq<ItemEdit>)

  /** Every item key is below `next`: the database has not handed `next` out yet. */
  predicate KeysBelow(items: map<nat, OrderItem>, next: nat) {
    forall id :: id in items ==> id < next
  }

  /** The item formset saved against order `pk`: edited items keep their
      order and what was received, deleted ones go, new ones start at 0 and
      take the keys from `next` on. Items of other orders are not touched. */
  function SaveItems(items: map<nat, OrderItem>, next: nat, pk: nat, edits: seq<ItemEdit>): (r: (map<nat, OrderItem>, nat))
    ensures r.1 >= next
    ensures KeysBelow(items, next) ==>
      && KeysBelow(r.0, r.1)
      && (forall id :: id in r.0 && id !in items ==> next <= id && r.0[id].order == pk && r.0[id].received == 0)
      && (forall id :: id in items && items[id].order != pk ==> id in r.0 && r.0[id] == items[id])
      && (forall id :: id in items && id in r.0 ==> r.0[id].order == items[id].order && r.0[id].received == items[id].received)
    decreases |edits|
  {
    if edits == [] then (items, next)
    else
      match edits[0]
      case Change(id, product, quantity, unitPrice) =>
        var items' := if id in items && items[id].order == pk
          then items[id := items[id].(product := product, quantity := quantity, unitPrice := unitPrice)]
          else items;
        SaveItems(items', next, pk, edits[1..])
      case Remove(id) =>
        var items' := if id in items && items[id].order == pk then items - {id} else items;
        SaveItems(items', next, pk, edits[1..])
      case Add(product, quantity, unitPrice) =>
        SaveItems(items[next := OrderItem(pk, product, quantity, unitPrice, 0)], next + 1, pk, edits[1..])
  }

  /** The receipt lines left once the items in `gone` are deleted:
      `GoodsReceiptItem.po_item` cascades, so their lines go with them and
      every other line stays, in its order. */
  function DropLinesOf(lines: seq<ReceiptLine>, gone: set<nat>): (r: seq<ReceiptLine>)
    ensures |r| <= |lines|
    ensures forall i :: 0 <= i < |r| ==> r[i] in lines && r[i].item !in gone
    ensures forall i :: 0 <= i < |lines| && lines[i].item !in gone ==> lines[i] in r
    ensures (forall i :: 0 <= i < |lines| ==> lines[i].item !in gone) ==> r == lines
    decreases |lines|
  {
    if lines == [] then []
    else
      var rest := DropLinesOf(lines[1..], gone);
      assert forall i :: 1 <= i < |lines| ==> lines[i] == lines[1..][i - 1];
      if lines[0].item in gone then rest else [lines[0]] + rest
  }

  /** Whether `po_number` is taken by an order other than `pk`. */
  predicate NumberTaken(orders: map<nat, PurchaseOrder>, pk: nat, number: string) {
    exists j :: j in orders && j != pk && orders[j].number == number
  }

  /** The formset's own checks: edited and deleted forms are items of this
      order, every quantity is at least 1, and at least one item remains. */
  predicate ItemEditsValid(s: Store, pk: nat, edits: seq<ItemEdit>) {
    && (forall i :: 0 <= i < |edits| && !edits[i].Add? ==> edits[i].id in s.items && s.items[edits[i].id].order == pk)
    && (forall i :: 0 <= i < |edits| && !edits[i].Remove? ==> edits[i].quantity >= 1)
    && var saved := SaveItems(s.items, s.nextItem, pk, edits).0;
       exists id :: id in saved && saved[id].order == pk
  }

  /** `form.is_valid() and formset.is_valid()` for an order edit. */
  predicate OrderEditValid(s: Store, pk: nat, e: OrderEdit) {
    && e.number != [] && |e.number| <= NumberLength && !NumberTaken(s.orders, pk, e.number)
    && e.orderDate.Some?
    && ItemEditsValid(s, pk, e.itemEdits)
  }

  /** `purchase_order_update`: only a DRAFT or SENT order may be edited,
      whatever the method; a valid POST saves the header and the items and
      leaves the status alone. Deleting an item deletes its receipt lines.
      `edit` is None when the forms do not parse. */
  function Update(s: Store, pk: nat, req: Request, edit: Option<OrderEdit>): (out: (Reply, Store))
    ensures out.0 == NotFound <==> pk !in s.orders
    ensures out.0 == Refused <==> pk in s.orders && !Cancellable(s.orders[pk].status)
    ensures out.0 != Done ==> out.1 == s
    ensures out.0 == Done <==>
      pk in s.orders && Cancellable(s.orders[pk].status) && req.verb == Post
      && edit.Some? && OrderEditValid(s, pk, edit.value)
    ensures out.0 == Done ==>
      && out.1.orders.Keys == s.orders.Keys
      && (forall j :: j in s.orders && j != pk ==> out.1.orders[j] == s.orders[j])
      && var e := edit.value;
         out.1.orders[pk] == s.orders[pk].(number := e.number, supplier := e.supplier, location := e.location,
                                           orderDate := e.orderDate.value, expectedDelivery := e.expectedDelivery,
                                           notes := e.notes)
    ensures out.0 == Done ==>
      && out.1.orders[pk].status == s.orders[pk].status
      && out.1.receipts == s.receipts && out.1.ledger == s.ledger
      && out.1.nextItem >= s.nextItem
      && (forall i :: 0 <= i < |out.1.lines| ==>
            out.1.lines[i] in s.lines && (out.1.lines[i].item in out.1.items || out.1.lines[i].item !in s.items))
      && (forall i :: 0 <= i < |s.lines| && s.lines[i].item in out.1.items ==> s.lines[i] in out.1.lines)
    ensures out.0 == Done && KeysBelow(s.items, s.nextItem) ==>
      && KeysBelow(out.1.items, out.1.nextItem)
      && (forall id :: id in out.1.items && id !in s.items ==>
            s.nextItem <= id && out.1.items[id].order == pk && out.1.items[id].received == 0)
      && (forall id :: id in s.items && s.items[id].order != pk ==> id in out.1.items && out.1.items[id] == s.items[id])
      && (forall id :: id in s.items && id in out.1.items ==>
            out.1.items[id].order == s.items[id].order && out.1.items[id].received == s.items[id].received)
    ensures out.0 == Done ==>
      && Audited(s.audit, out.1.audit, req.actor, Audit.Update, "PurchaseOrder", pk, edit.value.number,
                 "Updated purchase order " + edit.value.number)
  {
    if pk !in s.orders then (NotFound, s)
    else
      var po := s.orders[pk];
      if !Cancellable(po.status) then (Refused, s)
      else if req.verb != Post then (FormShown, s)
      else if edit.None? || !OrderEditValid(s, pk, edit.value) then (FormErrors, s)
      else
        var e := edit.value;
        var po' := po.(number := e.number, supplier := e.supplier, location := e.location,
                       orderDate := e.orderDate.value, expectedDelivery := e.expectedDelivery, notes := e.notes);
        var saved := SaveItems(s.items, s.nextItem, pk, e.itemEdits);
        var lines := DropLinesOf(s.lines, s.items.Keys - saved.0.Keys);
        (Done, s.(orders := s.orders[pk := po'], items := saved.0, nextItem := saved.1, lines := lines,
                  audit := LogOrderUpdate(s, pk, e.number, "Updated purchase order " + e.number, req)))
  }
}
