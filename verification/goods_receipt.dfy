/** `goods_receipt_create` (purchases/views.py): taking a goods receipt
    against a purchase order. After the receipt is saved, every posted field
    named `item_<id>` with a positive quantity adds a receipt line, raises
    the received quantity of item `<id>` and records a PURCHASE in the stock
    ledger at the order's location; then the order's status is recomputed
    from its items. The item is looked up by key alone, so a line may name
    an item of another order. */
module GoodsReceipts {
  import opened Base
  import opened StockModels
  import opened Transactions
  import opened PurchaseModels
  import opened PurchaseViews
  import Audit

  /** The posted GoodsReceiptForm; `date` is None when missing or unparsable. */
  datatype ReceiptForm = ReceiptForm(number: string, date: Option<int>, notes: string)

  /** `form.is_valid()`: a non-empty number that fits the column and is not
      used by any receipt yet, and a date. */
  predicate ReceiptFormValid(f: ReceiptForm, receipts: seq<GoodsReceipt>) {
    && f.number != [] && |f.number| <= NumberLength
    && (forall i :: 0 <= i < |receipts| ==> receipts[i].number != f.number)
    && f.date.Some?
  }

  /** A posted value as `int(quantity) if quantity else 0` reads it. */
  datatype Entered = Blank | Number(n: int) | NotANumber

  /** One posted field. A name starting with `item_` carries the integer the
      rest of the name parses to (None when `int()` would raise); every other
      field is ignored by the loop. */
  datatype PostField = ItemField(id: Option<int>, entered: Entered) | OtherField

  /** The quantity a parsed line takes in: blank reads as 0. */
  function Amount(e: Entered): int {
    if e.Number? then e.n else 0
  }

  /** A field the loop acts on: an item line with a positive quantity. */
  predicate Takes(f: PostField) {
    f.ItemField? && f.id.Some? && !f.entered.NotANumber? && Amount(f.entered) > 0
  }

  /** A field the loop survives: not an item line, or one whose name and
      value parse and whose item exists when the quantity is positive. */
  predicate Parses(f: PostField, items: map<nat, OrderItem>) {
    f.ItemField? ==>
      && f.id.Some? && !f.entered.NotANumber?
      && (Amount(f.entered) > 0 ==> f.id.value >= 0 && f.id.value as nat in items)
  }

  predicate AllParse(fields: seq<PostField>, items: map<nat, OrderItem>) {
    forall i :: 0 <= i < |fields| ==> Parses(fields[i], items)
  }

  /** What the loop changes: items, receipt lines and the ledger. */
  datatype LoopState = LoopState(items: map<nat, OrderItem>, lines: seq<ReceiptLine>, ledger: Ledger)

  /** Where the loop stopped: at the end, or at an exception. */
  datatype Processed = Processed(state: LoopState, crashed: bool)

  /** The PURCHASE recorded for `q` units of `item` on the receipt numbered
      `receiptNumber` for order `po`. */
  function ReceiptTx(item: OrderItem, q: int, po: PurchaseOrder, receiptNumber: string, actor: nat): (t: Transaction)
    ensures t.kind == Purchase && t.location == po.location && t.product == item.product
    ensures t.quantity == q && t.unitPrice == Some(item.unitPrice) && t.reference == receiptNumber
  {
    Transaction(Purchase, item.product, po.location, q, Some(item.unitPrice), receiptNumber,
                "Goods received from PO " + po.number, Some(actor))
  }

  /** One line taken in: a receipt line for `q` units of item `id`, the
      item's received quantity raised by `q`, and the PURCHASE recorded. */
  function Take(st: LoopState, id: nat, q: int, receipt: nat, receiptNumber: string, po: PurchaseOrder, actor: nat): (st': LoopState)
    requires id in st.items
    ensures st'.items.Keys == st.items.Keys
    ensures st'.items[id] == st.items[id].(received := st.items[id].received + q)
    ensures forall j :: j in st.items && j != id ==> st'.items[j] == st.items[j]
    ensures st'.lines == st.lines + [ReceiptLine(receipt, id, q)]
    ensures st'.ledger == Record(st.ledger, ReceiptTx(st.items[id], q, po, receiptNumber, actor))
  {
    var item := st.items[id];
    LoopState(
      st.items[id := item.(received := item.received + q)],
      st.lines + [ReceiptLine(receipt, id, q)],
      Record(st.ledger, ReceiptTx(item, q, po, receiptNumber, actor)))
  }

  /** The loop over `request.POST.items()`, in order. */
  function ProcessLines(st: LoopState, receipt: nat, receiptNumber: string, po: PurchaseOrder,
                        fields: seq<PostField>, actor: nat): (p: Processed)
    ensures p.state.items.Keys == st.items.Keys
    ensures p.crashed <==> !AllParse(fields, st.items)
    ensures |p.state.lines| >= |st.lines| && p.state.lines[..|st.lines|] == st.lines
    ensures |p.state.ledger.log| - |st.ledger.log| == |p.state.lines| - |st.lines|
    decreases |fields|
  {
    if fields == [] then Processed(st, false)
    else
      var f := fields[0];
      var p :=
        if !f.ItemField? then ProcessLines(st, receipt, receiptNumber, po, fields[1..], actor)
        else if f.id.None? || f.entered.NotANumber? then Processed(st, true)
        else if Amount(f.entered) <= 0 then ProcessLines(st, receipt, receiptNumber, po, fields[1..], actor)
        else if f.id.value < 0 || f.id.value as nat !in st.items then Processed(st, true)
        else
          var st' := Take(st, f.id.value as nat, Amount(f.entered), receipt, receiptNumber, po, actor);
          ProcessLines(st', receipt, receiptNumber, po, fields[1..], actor);
      assert AllParse(fields, st.items) <==> Parses(f, st.items) && AllParse(fields[1..], st.items) by {
        assert forall i :: 1 <= i < |fields| ==> fields[i] == fields[1..][i - 1];
      }
      p
  }

  /** Every item of order `pk` has received at least what was ordered
      (vacuously so when the order has no items). */
  predicate AllReceived(items: map<nat, OrderItem>, pk: nat) {
    forall id :: id in items && items[id].order == pk ==> items[id].received >= items[id].quantity
  }

  /** Some item of order `pk` has received something. */
  predicate AnyReceived(items: map<nat, OrderItem>, pk: nat) {
    exists id :: id in items && items[id].order == pk && items[id].received > 0
  }

  /** The status step after the loop: RECEIVED (delivered `today`) when every
      item of the order is complete, else PARTIAL when any item has received
      something, else the order as it was. */
  function Recompute(po: PurchaseOrder, items: map<nat, OrderItem>, pk: nat, today: int): PurchaseOrder {
    if AllReceived(items, pk) then po.(status := Received, actualDelivery := Some(today))
    else if AnyReceived(items, pk) then po.(status := Partial)
    else po
  }

  /** `goods_receipt_create` for order `pk`, on day `today`. */
  function Receive(s: Store, pk: nat, req: Request, form: ReceiptForm, fields: seq<PostField>, today: int): (out: (Reply, Store))
    ensures out.0 == NotFound <==> pk !in s.orders
    ensures out.0 == Refused <==> pk in s.orders && s.orders[pk].status == Cancelled
    ensures out.0 !in {Done, ServerError} ==> out.1 == s
    ensures out.0 in {Done, ServerError} <==>
      pk in s.orders && s.orders[pk].status != Cancelled && req.verb == Post && ReceiptFormValid(form, s.receipts)
    ensures out.0 in {Done, ServerError} ==>
      && out.1.receipts == s.receipts + [GoodsReceipt(form.number, pk, form.date.value, Some(req.actor), form.notes)]
      && out.1.items.Keys == s.items.Keys
      && out.1.orders.Keys == s.orders.Keys
      && (forall j :: j in s.orders && j != pk ==> out.1.orders[j] == s.orders[j])
      && out.1.nextItem == s.nextItem
    ensures out.0 == ServerError <==> out.0 in {Done, ServerError} && !AllParse(fields, s.items)
    ensures out.0 == ServerError ==> out.1.orders == s.orders && out.1.audit == s.audit
    ensures out.0 == Done ==>
      Audited(s.audit, out.1.audit, req.actor, Audit.Create, "GoodsReceipt", |s.receipts|, form.number,
              "Received goods for PO " + s.orders[pk].number)
  {
    if pk !in s.orders then (NotFound, s)
    else
      var po := s.orders[pk];
      if po.status == Cancelled then (Refused, s)
      else if req.verb != Post then (FormShown, s)
      else if !ReceiptFormValid(form, s.receipts) then (FormErrors, s)
      else
        var receipt := |s.receipts|;
        var receipts := s.receipts + [GoodsReceipt(form.number, pk, form.date.value, Some(req.actor), form.notes)];
        var p := ProcessLines(LoopState(s.items, s.lines, s.ledger), receipt, form.number, po, fields, req.actor);
        var s' := s.(receipts := receipts, items := p.state.items, lines := p.state.lines, ledger := p.state.ledger);
        if p.crashed then (ServerError, s')
        else
          var audit := Audit.LogActivity(s.audit, Some(req.actor), Audit.Create, "GoodsReceipt", Some(receipt),
                                         form.number, "Received goods for PO " + po.number, Some(req.meta));
          (Done, s'.(orders := s.orders[pk := Recompute(po, p.state.items, pk, today)], audit := audit))
  }
}
