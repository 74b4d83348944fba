/** A consistency invariant of the purchase tables that every purchase view
    keeps, and what follows from it for goods receipts: an order that is
    PARTIAL or RECEIVED never goes back, and RECEIVED stays RECEIVED. */
module StoreInvariant {
  import opened Base
  import opened StockModels
  import opened Transactions
  import opened PurchaseModels
  import opened PurchaseViews
  import opened GoodsReceipts
  import opened ReceiptProperties

  /** `receipt_number` is unique. */
  predicate ReceiptNumbersUnique(receipts: seq<GoodsReceipt>) {
    forall i, j :: 0 <= i < j < |receipts| ==> receipts[i].number != receipts[j].number
  }

  /** `po_number` is unique. */
  predicate OrderNumbersUnique(orders: map<nat, PurchaseOrder>) {
    forall a, b :: a in orders && b in orders && a != b ==> orders[a].number != orders[b].number
  }

  /** A RECEIVED order has all its items complete and a delivery date; a
      PARTIAL one has received something. */
  predicate StatusMatchesItems(s: Store) {
    && (forall pk :: pk in s.orders && s.orders[pk].status == Received ==>
          AllReceived(s.items, pk) && s.orders[pk].actualDelivery.Some?)
    && (forall pk :: pk in s.orders && s.orders[pk].status == Partial ==> AnyReceived(s.items, pk))
  }

  /** Every receipt line takes in at least one unit and belongs to a saved receipt. */
  predicate LinesValid(s: Store) {
    forall i :: 0 <= i < |s.lines| ==> s.lines[i].quantity >= 1 && s.lines[i].receipt < |s.receipts|
  }

  predicate Consistent(s: Store) {
    && KeysBelow(s.items, s.nextItem)
    && StatusMatchesItems(s)
    && ReceiptNumbersUnique(s.receipts)
    && OrderNumbersUnique(s.orders)
    && LinesValid(s)
  }

  /** `after` differs from `items` only in received quantities, which grew. */
  predicate OnlyReceivedGrew(items: map<nat, OrderItem>, after: map<nat, OrderItem>) {
    && after.Keys == items.Keys
    && forall id :: id in items ==>
         after[id] == items[id].(received := after[id].received) && after[id].received >= items[id].received
  }

  /** Growth in received quantities keeps an order complete, and keeps it
      having received something. */
  lemma GrowthKeepsProgress(items: map<nat, OrderItem>, after: map<nat, OrderItem>, pk: nat)
    requires OnlyReceivedGrew(items, after)
    ensures AllReceived(items, pk) ==> AllReceived(after, pk)
    ensures AnyReceived(items, pk) ==> AnyReceived(after, pk)
  {
    if AnyReceived(items, pk) {
      var id :| id in items && items[id].order == pk && items[id].received > 0;
      assert after[id].order == pk && after[id].received > 0;
    }
  }

  /** Growth in received quantities keeps every order's status consistent. */
  lemma GrowthKeepsStatuses(s: Store, r: Store)
    requires StatusMatchesItems(s)
    requires r.orders == s.orders && OnlyReceivedGrew(s.items, r.items)
    ensures StatusMatchesItems(r)
  {
    forall pk | pk in s.orders {
      GrowthKeepsProgress(s.items, r.items, pk);
    }
  }

  lemma SendKeepsConsistent(s: Store, pk: nat, req: Request)
    requires Consistent(s)
    ensures Consistent(Send(s, pk, req).1)
  {
  }

  lemma CancelKeepsConsistent(s: Store, pk: nat, req: Request)
    requires Consistent(s)
    ensures Consistent(Cancel(s, pk, req).1)
  {
  }

  /** Editing touches only a DRAFT or SENT order's own items, so no other
      order's recorded status loses its footing; the new number is free. */
  lemma UpdateKeepsConsistent(s: Store, pk: nat, req: Request, edit: Option<OrderEdit>)
    requires Consistent(s)
    ensures Consistent(Update(s, pk, req, edit).1)
  {
    var out := Update(s, pk, req, edit);
    if out.0 == Done {
      var r := out.1;
      forall j | j in s.orders && j != pk
        ensures AllReceived(s.items, j) ==> AllReceived(r.items, j)
        ensures AnyReceived(s.items, j) ==> AnyReceived(r.items, j)
      {
        if AnyReceived(s.items, j) {
          var id :| id in s.items && s.items[id].order == j && s.items[id].received > 0;
          assert r.items[id] == s.items[id];
        }
      }
      assert OrderNumbersUnique(r.orders);
    }
  }

  /** A receipt keeps the tables consistent, whether it completes or fails
      half-way through its lines. */
  lemma ReceiveKeepsConsistent(s: Store, pk: nat, req: Request, form: ReceiptForm, fields: seq<PostField>, today: int)
    requires Consistent(s)
    ensures Consistent(Receive(s, pk, req, form, fields, today).1)
  {
    var out := Receive(s, pk, req, form, fields, today);
    if out.0 in {Done, ServerError} {
      var r := out.1;
      var po := s.orders[pk];
      var st := LoopState(s.items, s.lines, s.ledger);
      LinesRaiseReceived(st, |s.receipts|, form.number, po, fields, req.actor);
      assert OnlyReceivedGrew(s.items, r.items);
      GrowthKeepsStatuses(s, r.(orders := s.orders));
      GrowthKeepsProgress(s.items, r.items, pk);
      ReceiveKeepsLinesValid(s, pk, req, form, fields, today);
    }
  }

  /** The lines a receipt appends take in at least one unit each and belong
      to the receipt just saved. */
  lemma ReceiveKeepsLinesValid(s: Store, pk: nat, req: Request, form: ReceiptForm, fields: seq<PostField>, today: int)
    requires LinesValid(s)
    requires Receive(s, pk, req, form, fields, today).0 in {Done, ServerError}
    ensures LinesValid(Receive(s, pk, req, form, fields, today).1)
  {
    var r := Receive(s, pk, req, form, fields, today).1;
    var po := s.orders[pk];
    var st := LoopState(s.items, s.lines, s.ledger);
    LinesMatchPurchases(st, |s.receipts|, form.number, po, fields, req.actor);
    forall i | 0 <= i < |r.lines|
      ensures r.lines[i].quantity >= 1 && r.lines[i].receipt < |r.receipts|
    {
      if i >= |s.lines| {
        assert LineMatches(st, LoopState(r.items, r.lines, r.ledger), i, |s.receipts|, form.number, po);
      } else {
        assert r.lines[i] == s.lines[i];
      }
    }
  }

  /** Deleting an item in an edit takes its receipt lines with it: no line
      is left naming an item that existed before and is gone now. */
  lemma RemovedItemLinesGo(s: Store, pk: nat, req: Request, edit: Option<OrderEdit>, id: nat)
    requires Update(s, pk, req, edit).0 == Done
    requires id in s.items && id !in Update(s, pk, req, edit).1.items
    ensures forall i :: 0 <= i < |Update(s, pk, req, edit).1.lines| ==> Update(s, pk, req, edit).1.lines[i].item != id
  {
  }

  /** Receipts only move an order forward: PARTIAL or RECEIVED never returns
      to DRAFT or SENT, and RECEIVED stays RECEIVED. */
  lemma ReceiveNoRegression(s: Store, pk: nat, req: Request, form: ReceiptForm, fields: seq<PostField>, today: int)
    requires Consistent(s) && pk in s.orders
    ensures var r := Receive(s, pk, req, form, fields, today).1;
      && (s.orders[pk].status in {Partial, Received} ==> r.orders[pk].status in {Partial, Received})
      && (s.orders[pk].status == Received ==> r.orders[pk].status == Received)
  {
    var out := Receive(s, pk, req, form, fields, today);
    if out.0 in {Done, ServerError} {
      var st := LoopState(s.items, s.lines, s.ledger);
      LinesRaiseReceived(st, |s.receipts|, form.number, s.orders[pk], fields, req.actor);
      GrowthKeepsProgress(s.items, out.1.items, pk);
    }
  }

  /** `all()` over no items is true: a valid receipt for an order without
      items, posting no item lines, marks it RECEIVED. */
  lemma EmptyOrderReceived(s: Store, pk: nat, req: Request, form: ReceiptForm, today: int)
    requires pk in s.orders && s.orders[pk].status != Cancelled
    requires forall id :: id in s.items ==> s.items[id].order != pk
    requires req.verb == Post && ReceiptFormValid(form, s.receipts)
    ensures var out := Receive(s, pk, req, form, [], today);
      out.0 == Done && out.1.orders[pk].status == Received && out.1.orders[pk].actualDelivery == Some(today)
  {
  }

  /** A DRAFT order, never sent, accepts a receipt. */
  lemma DraftAcceptsReceipt(s: Store, pk: nat, req: Request, form: ReceiptForm, today: int)
    requires pk in s.orders && s.orders[pk].status == Draft
    requires req.verb == Post && ReceiptFormValid(form, s.receipts)
    ensures Receive(s, pk, req, form, [], today).0 == Done
  {
  }

  /** A line naming an item of ANOTHER order is taken in: that item's
      received quantity rises and the PURCHASE is booked at THIS order's
      location. */
  lemma OtherOrdersItemTaken(s: Store, pk: nat, req: Request, form: ReceiptForm, today: int, id: nat, q: int)
    requires pk in s.orders && s.orders[pk].status != Cancelled
    requires req.verb == Post && ReceiptFormValid(form, s.receipts)
    requires id in s.items && s.items[id].order != pk && q > 0
    ensures var out := Receive(s, pk, req, form, [ItemField(Some(id), Number(q))], today);
      && out.0 == Done
      && out.1.items[id].received == s.items[id].received + q
      && out.1.ledger.log == s.ledger.log + [ReceiptTx(s.items[id], q, s.orders[pk], form.number, req.actor)]
      && out.1.ledger.log[|s.ledger.log|].location == s.orders[pk].location
  {
    var fields := [ItemField(Some(id), Number(q))];
    var st := LoopState(s.items, s.lines, s.ledger);
    ProcessStep(st, |s.receipts|, form.number, s.orders[pk], fields, req.actor);
    assert fields[1..] == [];
  }
}
