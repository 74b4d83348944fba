/** What a goods receipt does to items, the ledger and the order status,
    and the store invariant every purchase view keeps. */
module ReceiptProperties {
  import opened Base
  import opened StockModels
  import opened Transactions
  import opened PurchaseModels
  import opened PurchaseViews
  import opened GoodsReceipts

  /** Reference definition: the total the posted lines take in for item `id`. */
  function ReceivedFor(fields: seq<PostField>, id: nat): int
    decreases |fields|
  {
    if fields == [] then 0
    else
      var f := fields[0];
      (if Takes(f) && f.id.value == id then Amount(f.entered) else 0) + ReceivedFor(fields[1..], id)
  }

  /** The loop changes nothing of an item but its received quantity, which
      never drops; when the loop completes, each item has gained exactly the
      sum of the positive quantities posted for it. */
  lemma {:induction false} LinesRaiseReceived(st: LoopState, receipt: nat, number: string, po: PurchaseOrder,
                                              fields: seq<PostField>, actor: nat)
    ensures var p := ProcessLines(st, receipt, number, po, fields, actor);
      forall id :: id in st.items ==>
        && p.state.items[id] == st.items[id].(received := p.state.items[id].received)
        && p.state.items[id].received >= st.items[id].received
    ensures var p := ProcessLines(st, receipt, number, po, fields, actor);
      !p.crashed ==> forall id :: id in st.items ==>
        p.state.items[id].received == st.items[id].received + ReceivedFor(fields, id)
    decreases |fields|
  {
    if fields != [] {
      var f := fields[0];
      var rest := fields[1..];
      if !f.ItemField? || (f.id.Some? && !f.entered.NotANumber? && Amount(f.entered) <= 0) {
        LinesRaiseReceived(st, receipt, number, po, rest, actor);
      } else if f.id.Some? && !f.entered.NotANumber? && f.id.value >= 0 && f.id.value as nat in st.items {
        var st' := Take(st, f.id.value as nat, Amount(f.entered), receipt, number, po, actor);
        LinesRaiseReceived(st', receipt, number, po, rest, actor);
      }
    }
  }

  /** One step of the loop, unfolded: the first field decides whether the
      loop stops, skips it or takes it in. */
  lemma ProcessStep(st: LoopState, receipt: nat, number: string, po: PurchaseOrder, fields: seq<PostField>, actor: nat)
    requires fields != []
    ensures var f := fields[0];
      var p := ProcessLines(st, receipt, number, po, fields, actor);
      && (!Parses(f, st.items) ==> p == Processed(st, true))
      && (Parses(f, st.items) && !Takes(f) ==> p == ProcessLines(st, receipt, number, po, fields[1..], actor))
      && (Parses(f, st.items) && Takes(f) ==>
            p == ProcessLines(Take(st, f.id.value as nat, Amount(f.entered), receipt, number, po, actor),
                              receipt, number, po, fields[1..], actor))
  {
  }

  /** The ledger after the loop is the ledger before it with the appended
      transactions applied in order. */
  lemma {:induction false} LinesApplyToLedger(st: LoopState, receipt: nat, number: string, po: PurchaseOrder,
                                              fields: seq<PostField>, actor: nat)
    ensures var p := ProcessLines(st, receipt, number, po, fields, actor).state;
      p.ledger == ApplyAll(st.ledger, p.ledger.log[|st.ledger.log|..])
    decreases |fields|
  {
    var p := ProcessLines(st, receipt, number, po, fields, actor).state;
    if fields == [] {
      assert p.ledger.log[|st.ledger.log|..] == [];
    } else {
      var f := fields[0];
      ProcessStep(st, receipt, number, po, fields, actor);
      if !Parses(f, st.items) {
        assert p.ledger.log[|st.ledger.log|..] == [];
      } else if !Takes(f) {
        LinesApplyToLedger(st, receipt, number, po, fields[1..], actor);
      } else {
        var st' := Take(st, f.id.value as nat, Amount(f.entered), receipt, number, po, actor);
        var t := ReceiptTx(st.items[f.id.value as nat], Amount(f.entered), po, number, actor);
        LinesApplyToLedger(st', receipt, number, po, fields[1..], actor);
        var tail := p.ledger.log[|st'.ledger.log|..];
        assert p.ledger.log[|st.ledger.log|..] == [t] + tail;
        ApplyAllCons(st.ledger, t, tail);
      }
    }
  }

  /** Appended line `i` of the loop and the transaction at the same offset
      in the log: one PURCHASE per receipt line, of that line's quantity (at
      least 1) and product, at the order's location, referencing the receipt. */
  predicate LineMatches(st: LoopState, p: LoopState, i: int, receipt: nat, number: string, po: PurchaseOrder)
    requires |st.lines| <= i < |p.lines|
    requires |p.ledger.log| - |st.ledger.log| == |p.lines| - |st.lines|
  {
    var line := p.lines[i];
    var t := p.ledger.log[|st.ledger.log| + (i - |st.lines|)];
    && line.receipt == receipt && line.quantity >= 1 && line.item in st.items
    && t.kind == Purchase && t.location == po.location && t.reference == number
    && t.quantity == line.quantity && t.product == st.items[line.item].product
  }

  /** Every receipt line the loop appends is matched by its PURCHASE. */
  lemma {:induction false} LinesMatchPurchases(st: LoopState, receipt: nat, number: string, po: PurchaseOrder,
                                               fields: seq<PostField>, actor: nat)
    ensures var p := ProcessLines(st, receipt, number, po, fields, actor).state;
      && |p.ledger.log| >= |st.ledger.log|
      && p.ledger.log[..|st.ledger.log|] == st.ledger.log
      && forall i :: |st.lines| <= i < |p.lines| ==> LineMatches(st, p, i, receipt, number, po)
    decreases |fields|
  {
    var p := ProcessLines(st, receipt, number, po, fields, actor).state;
    if fields != [] {
      var f := fields[0];
      ProcessStep(st, receipt, number, po, fields, actor);
      if Parses(f, st.items) && !Takes(f) {
        LinesMatchPurchases(st, receipt, number, po, fields[1..], actor);
      } else if Parses(f, st.items) && Takes(f) {
        var id := f.id.value as nat;
        var st' := Take(st, id, Amount(f.entered), receipt, number, po, actor);
        LinesMatchPurchases(st', receipt, number, po, fields[1..], actor);
        forall i | |st.lines| <= i < |p.lines|
          ensures LineMatches(st, p, i, receipt, number, po)
        {
          if i == |st.lines| {
            assert p.lines[i] == st'.lines[i];
            assert p.ledger.log[|st.ledger.log|] == st'.ledger.log[|st.ledger.log|];
          } else {
            assert LineMatches(st', p, i, receipt, number, po);
          }
        }
      }
    }
  }

  /** A receipt that gets past its checks stores what the loop over the
      posted fields left: items, receipt lines and ledger. */
  lemma ReceiveRunsLoop(s: Store, pk: nat, req: Request, form: ReceiptForm, fields: seq<PostField>, today: int)
    requires Receive(s, pk, req, form, fields, today).0 in {Done, ServerError}
    ensures var r := Receive(s, pk, req, form, fields, today).1;
      var p := ProcessLines(LoopState(s.items, s.lines, s.ledger), |s.receipts|, form.number, s.orders[pk], fields, req.actor);
      && r.items == p.state.items && r.lines == p.state.lines && r.ledger == p.state.ledger
      && (Receive(s, pk, req, form, fields, today).0 == Done <==> !p.crashed)
  {
  }

  /** What a loop that runs to the end does: each item gains what was posted
      for it, the ledger only grows, by PURCHASEs of at least 1 at the
      order's location, and the stock at `k` rises by their sum. */
  lemma LoopEffects(st: LoopState, receipt: nat, number: string, po: PurchaseOrder,
                    fields: seq<PostField>, actor: nat, k: Key)
    requires !ProcessLines(st, receipt, number, po, fields, actor).crashed
    ensures var p := ProcessLines(st, receipt, number, po, fields, actor).state;
      && (forall id :: id in st.items ==>
            p.items[id] == st.items[id].(received := st.items[id].received + ReceivedFor(fields, id)))
      && p.ledger.log[..|st.ledger.log|] == st.ledger.log
      && (forall i :: |st.ledger.log| <= i < |p.ledger.log| ==>
            p.ledger.log[i].kind == Purchase && p.ledger.log[i].location == po.location
            && p.ledger.log[i].quantity >= 1)
      && Quantity(p.ledger, k) == Quantity(st.ledger, k) + NetDelta(p.ledger.log[|st.ledger.log|..], k)
  {
    var p := ProcessLines(st, receipt, number, po, fields, actor).state;
    LinesRaiseReceived(st, receipt, number, po, fields, actor);
    LinesApplyToLedger(st, receipt, number, po, fields, actor);
    LinesMatchPurchases(st, receipt, number, po, fields, actor);
    var added := p.ledger.log[|st.ledger.log|..];
    forall i | |st.ledger.log| <= i < |p.ledger.log|
      ensures p.ledger.log[i].kind == Purchase && p.ledger.log[i].location == po.location && p.ledger.log[i].quantity >= 1
    {
      var j := |st.lines| + (i - |st.ledger.log|);
      assert LineMatches(st, p, j, receipt, number, po);
    }
    assert NoAdjustmentAt(added, k) by {
      forall i | 0 <= i < |added| ensures added[i].kind != Adjustment {
        assert added[i] == p.ledger.log[|st.ledger.log| + i];
      }
    }
    MovementsSum(st.ledger, added, k);
  }

  /** Reading for order `pk`: a receipt that completes raises each item by
      what was posted for it, and the stock at every (product, location) ends
      at its old value plus the appended PURCHASEs there. */
  lemma ReceiveEffects(s: Store, pk: nat, req: Request, form: ReceiptForm, fields: seq<PostField>, today: int, k: Key)
    requires Receive(s, pk, req, form, fields, today).0 == Done
    ensures var r := Receive(s, pk, req, form, fields, today).1;
      && (forall id :: id in s.items ==>
            r.items[id] == s.items[id].(received := s.items[id].received + ReceivedFor(fields, id)))
      && r.ledger.log[..|s.ledger.log|] == s.ledger.log
      && (forall i :: |s.ledger.log| <= i < |r.ledger.log| ==>
            r.ledger.log[i].kind == Purchase && r.ledger.log[i].location == s.orders[pk].location
            && r.ledger.log[i].quantity >= 1)
      && Quantity(r.ledger, k) == Quantity(s.ledger, k) + NetDelta(r.ledger.log[|s.ledger.log|..], k)
  {
    ReceiveRunsLoop(s, pk, req, form, fields, today);
    LoopEffects(LoopState(s.items, s.lines, s.ledger), |s.receipts|, form.number, s.orders[pk], fields, req.actor, k);
  }

  /** After a completed receipt the order's status is decided by its items
      alone: RECEIVED (delivered today) when every item is complete, else
      PARTIAL when some item has received anything, else unchanged. */
  lemma ReceiveStatus(s: Store, pk: nat, req: Request, form: ReceiptForm, fields: seq<PostField>, today: int)
    requires Receive(s, pk, req, form, fields, today).0 == Done
    ensures var r := Receive(s, pk, req, form, fields, today).1;
      && (AllReceived(r.items, pk) ==> r.orders[pk] == s.orders[pk].(status := Received, actualDelivery := Some(today)))
      && (!AllReceived(r.items, pk) && AnyReceived(r.items, pk) ==> r.orders[pk] == s.orders[pk].(status := Partial))
      && (!AllReceived(r.items, pk) && !AnyReceived(r.items, pk) ==> r.orders[pk] == s.orders[pk])
  {
  }
}
