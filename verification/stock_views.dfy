/** The stock views with logic of their own (stock/views.py): the manual
    adjustment of one Stock row, resolving an alert, and the low-stock filter
    of the stock list. */
module StockViews {
  import opened Base
  import opened StockModels
  import opened Transactions

  /** The posted StockAdjustmentForm, as submitted: `quantity` is None when
      the field is missing or not an integer. */
  datatype AdjustmentForm = AdjustmentForm(mode: string, quantity: Option<int>, notes: string)

  /** The three `ADJUSTMENT_CHOICES`. */
  predicate IsMode(mode: string) {
    mode == "set" || mode == "add" || mode == "subtract"
  }

  /** `form.is_valid()`: a listed choice and an integer of at least 0. */
  predicate FormValid(f: AdjustmentForm) {
    IsMode(f.mode) && f.quantity.Some? && f.quantity.value >= 0
  }

  datatype AdjustReply = StockNotFound | FormShown | FormErrors | Adjusted

  /** The transaction a valid form records for the row at `key`. */
  function AdjustmentTx(key: Key, f: AdjustmentForm, actor: nat): (t: Transaction)
    requires FormValid(f)
    ensures KeyOf(t) == key && t.quantity == f.quantity.value && t.user == Some(actor)
    ensures f.mode == "subtract" <==> t.kind == Damage
    ensures f.mode != "subtract" <==> t.kind == Adjustment
  {
    var q: nat := f.quantity.value;
    var shown := NatToString(q);
    if f.mode == "set" then
      Transaction(Adjustment, key.product, key.location, q, None, "", "Stock adjusted to " + shown + ". " + f.notes, Some(actor))
    else if f.mode == "add" then
      Transaction(Adjustment, key.product, key.location, q, None, "", "Added " + shown + " units. " + f.notes, Some(actor))
    else
      Transaction(Damage, key.product, key.location, q, None, "", "Removed " + shown + " units. " + f.notes, Some(actor))
  }

  /** `stock_adjustment` on the Stock row at `key`, by the signed-in user
      `actor`. Mode "set" records an ADJUSTMENT and then writes the row again
      from the copy the view loaded at the start. */
  function Adjust(l: Ledger, key: Key, verb: HttpMethod, f: AdjustmentForm, actor: nat): (out: (AdjustReply, Ledger))
    ensures out.0 == StockNotFound <==> key !in l.stock
    ensures out.0 != Adjusted ==> out.1 == l
    ensures out.0 == Adjusted <==> key in l.stock && verb == Post && FormValid(f)
    ensures out.0 == Adjusted ==>
      && |out.1.log| == |l.log| + 1 && out.1.log[..|l.log|] == l.log
      && out.1.log[|l.log|] == AdjustmentTx(key, f, actor)
      && key in out.1.stock && out.1.stock[key].reserved == l.stock[key].reserved
      && (f.mode == "subtract" ==> Quantity(out.1, key) == Quantity(l, key) - f.quantity.value)
      && (f.mode != "subtract" ==> Quantity(out.1, key) == f.quantity.value)
      && out.1.stock.Keys == l.stock.Keys
      && (forall j :: j in l.stock && j != key ==> out.1.stock[j] == l.stock[j])
  {
    if key !in l.stock then (StockNotFound, l)
    else if verb != Post then (FormShown, l)
    else if !FormValid(f) then (FormErrors, l)
    else
      var loaded := l.stock[key];
      var l' := Record(l, AdjustmentTx(key, f, actor));
      if f.mode == "set" then
        (Adjusted, l'.(stock := l'.stock[key := loaded.(quantity := f.quantity.value)]))
      else (Adjusted, l')
  }

  /** Mode "add" does not add: from any row that held something, adding `q`
      does not leave `prior + q` but `q`. */
  lemma AddModeDoesNotAdd(l: Ledger, key: Key, q: nat, notes: string, actor: nat)
    requires key in l.stock && l.stock[key].quantity != 0
    ensures var out := Adjust(l, key, Post, AdjustmentForm("add", Some(q), notes), actor);
      out.0 == Adjusted && Quantity(out.1, key) != Quantity(l, key) + q
  {
  }

  /** Modes "set" and "add" of the same quantity leave the same stock table. */
  lemma SetAndAddAgree(l: Ledger, key: Key, q: nat, notes: string, actor: nat)
    requires key in l.stock
    ensures Adjust(l, key, Post, AdjustmentForm("set", Some(q), notes), actor).1.stock
         == Adjust(l, key, Post, AdjustmentForm("add", Some(q), notes), actor).1.stock
  {
  }

  /** The adjustment as its labels describe it ("Add Quantity", notes
      "Added q units"): mode "add" records an ADJUSTMENT to the prior
      quantity plus `q`. Modes "set" and "subtract" are as in `Adjust`. */
  function AdjustAsIntended(l: Ledger, key: Key, verb: HttpMethod, f: AdjustmentForm, actor: nat): (out: (AdjustReply, Ledger))
    ensures out.0 == Adjust(l, key, verb, f, actor).0
    ensures out.0 != Adjusted ==> out.1 == l
    ensures out.0 == Adjusted ==>
      && |out.1.log| == |l.log| + 1 && out.1.log[..|l.log|] == l.log
      && out.1.log[|l.log|].kind == (if f.mode == "subtract" then Damage else Adjustment)
      && (f.mode == "add" ==> Quantity(out.1, key) == Quantity(l, key) + f.quantity.value)
      && (f.mode == "set" ==> Quantity(out.1, key) == f.quantity.value)
      && (f.mode == "subtract" ==> Quantity(out.1, key) == Quantity(l, key) - f.quantity.value)
      && out.1.stock.Keys == l.stock.Keys
      && (forall j :: j in l.stock && j != key ==> out.1.stock[j] == l.stock[j])
  {
    if f.mode == "add" && key in l.stock && verb == Post && FormValid(f) then
      var t := AdjustmentTx(key, f, actor);
      (Adjusted, Record(l, t.(quantity := l.stock[key].quantity + f.quantity.value)))
    else Adjust(l, key, verb, f, actor)
  }

  /** The corrected "add" does add, and differs from the recorded behaviour
      exactly when the row held something. */
  lemma AddAsIntendedAdds(l: Ledger, key: Key, q: nat, notes: string, actor: nat)
    requires key in l.stock
    ensures var f := AdjustmentForm("add", Some(q), notes);
      && Quantity(AdjustAsIntended(l, key, Post, f, actor).1, key) == Quantity(l, key) + q
      && (Quantity(AdjustAsIntended(l, key, Post, f, actor).1, key) == Quantity(Adjust(l, key, Post, f, actor).1, key)
          <==> Quantity(l, key) == 0)
  {
  }

  datatype ResolveReply = AlertNotFound | MethodNotAllowed | Resolved

  /** `resolve_alert(pk)` at time `now`: a POST marks the alert resolved and
      stamps it; any other method answers 405 and changes nothing. */
  function ResolveAlert(alerts: map<nat, StockAlert>, pk: nat, verb: HttpMethod, now: int): (out: (ResolveReply, map<nat, StockAlert>))
    ensures out.0 == AlertNotFound <==> pk !in alerts
    ensures out.0 != Resolved ==> out.1 == alerts
    ensures out.0 == Resolved <==> pk in alerts && verb == Post
    ensures out.0 == Resolved ==>
      && out.1.Keys == alerts.Keys
      && out.1[pk].resolved && out.1[pk].resolvedAt == Some(now)
      && out.1[pk].product == alerts[pk].product && out.1[pk].location == alerts[pk].location
      && out.1[pk].kind == alerts[pk].kind
      && (forall j :: j in alerts && j != pk ==> out.1[j] == alerts[j])
  {
    if pk !in alerts then (AlertNotFound, alerts)
    else if verb != Post then (MethodNotAllowed, alerts)
    else (Resolved, alerts[pk := alerts[pk].(resolved := true, resolvedAt := Some(now))])
  }

  /** Resolving twice keeps the alert resolved; only the timestamp moves. */
  lemma ResolveAgain(alerts: map<nat, StockAlert>, pk: nat, t1: int, t2: int)
    requires pk in alerts
    ensures var once := ResolveAlert(alerts, pk, Post, t1).1;
      var twice := ResolveAlert(once, pk, Post, t2).1;
      twice[pk].resolved && twice == ResolveAlert(alerts, pk, Post, t2).1
  {
  }

  /** The stock-list predicate `quantity <= product.reorder_point`. */
  predicate IsLow(row: StockRow, reorderPoint: int) {
    row.quantity <= reorderPoint
  }

  /** The `low_stock` filter of `stock_list`: with `low_stock=true` only the
      rows at or below their product's reorder point remain, in their order;
      any other value of the parameter leaves the list as it is. */
  method LowStockFilter(rows: seq<(Key, StockRow)>, reorderPoint: nat -> int, lowStock: Option<string>)
    returns (kept: seq<(Key, StockRow)>)
    ensures lowStock != Some("true") ==> kept == rows
    ensures lowStock == Some("true") ==>
      && (forall e :: e in kept <==> e in rows && IsLow(e.1, reorderPoint(e.0.product)))
      && |kept| <= |rows|
      && Subsequence(kept, rows)
  {
    if lowStock != Some("true") {
      return rows;
    }
    kept := [];
    var i := 0;
    var picked: seq<nat> := [];
    while i < |rows|
      invariant 0 <= i <= |rows|
      invariant forall e :: e in kept <==> e in rows[..i] && IsLow(e.1, reorderPoint(e.0.product))
      invariant |kept| == |picked| <= i
      invariant forall m :: 0 <= m < |picked| ==> picked[m] < i && kept[m] == rows[picked[m]]
      invariant forall m, n :: 0 <= m < n < |picked| ==> picked[m] < picked[n]
    {
      var e := rows[i];
      if IsLow(e.1, reorderPoint(e.0.product)) {
        kept := kept + [e];
        picked := picked + [i];
      }
      assert rows[..i + 1] == rows[..i] + [e];
      i := i + 1;
    }
    assert rows[..i] == rows;
    assert Witness(kept, rows, picked);
  }

  /** `picked` lists, in increasing order, the positions in `whole` that make up `part`. */
  predicate Witness<T(==)>(part: seq<T>, whole: seq<T>, picked: seq<nat>) {
    && |picked| == |part|
    && (forall m :: 0 <= m < |picked| ==> picked[m] < |whole| && part[m] == whole[picked[m]])
    && (forall m, n :: 0 <= m < n < |picked| ==> picked[m] < picked[n])
  }

  /** `part` is `whole` with some elements dropped and the rest in order. */
  ghost predicate Subsequence<T>(part: seq<T>, whole: seq<T>) {
    exists picked: seq<nat> :: Witness(part, whole, picked)
  }
}
