/** The stock ledger (transactions/models.py): an append-only log of
    transactions, each of which, when first saved, rewrites the quantity of
    the Stock row for its own (product, location). */
module Transactions {
  import opened Base
  import opened StockModels

  /** `TransactionType`. */
  datatype TxType = Purchase | Sale | Adjustment | ReturnIn | ReturnOut | Transfer | Damage

  /** A Transaction row; `unitPrice` is in cents, `user` is the nullable actor. */
  datatype Transaction = Transaction(
    kind: TxType,
    product: nat,
    location: nat,
    quantity: int,
    unitPrice: Option<int>,
    reference: string,
    notes: string,
    user: Option<nat>)

  function KeyOf(t: Transaction): Key {
    Key(t.product, t.location)
  }

  /** The stock table together with the transaction log (primary key = index). */
  datatype Ledger = Ledger(stock: StockTable, log: seq<Transaction>)

  /** The row `get_or_create` yields: the stored one, or a new one at 0. */
  function RowOrNew(stock: StockTable, k: Key): StockRow {
    if k in stock then stock[k] else NewStockRow()
  }

  /** The on-hand quantity at `k`, reading a missing row as 0. */
  function Quantity(l: Ledger, k: Key): int {
    RowOrNew(l.stock, k).quantity
  }

  predicate Inbound(kind: TxType) {
    kind == Purchase || kind == ReturnIn
  }

  predicate Outbound(kind: TxType) {
    kind == Sale || kind == ReturnOut || kind == Damage
  }

  /** The branch chain of `Transaction.save`; TRANSFER matches no branch. */
  function Apply(current: int, kind: TxType, q: int): int {
    if Inbound(kind) then current + q
    else if Outbound(kind) then current - q
    else if kind == Adjustment then q
    else current
  }

  /** Saving a NEW transaction: the record is appended, the row for its own
      (product, location) is fetched or created at 0 and rewritten; every
      other row is left alone. There is no floor at zero. */
  function Record(l: Ledger, t: Transaction): (r: Ledger)
    ensures r.log == l.log + [t]
    ensures KeyOf(t) in r.stock
    ensures r.stock[KeyOf(t)].reserved == RowOrNew(l.stock, KeyOf(t)).reserved
    ensures Inbound(t.kind) ==> Quantity(r, KeyOf(t)) == Quantity(l, KeyOf(t)) + t.quantity
    ensures Outbound(t.kind) ==> Quantity(r, KeyOf(t)) == Quantity(l, KeyOf(t)) - t.quantity
    ensures t.kind == Adjustment ==> Quantity(r, KeyOf(t)) == t.quantity
    ensures t.kind == Transfer ==> Quantity(r, KeyOf(t)) == Quantity(l, KeyOf(t))
    ensures forall j :: j != KeyOf(t) ==> (j in r.stock <==> j in l.stock)
    ensures forall j :: j != KeyOf(t) && j in l.stock ==> r.stock[j] == l.stock[j]
  {
    var k := KeyOf(t);
    var row := RowOrNew(l.stock, k);
    Ledger(l.stock[k := row.(quantity := Apply(row.quantity, t.kind, t.quantity))], l.log + [t])
  }

  /** `Transaction.save` in general: `pk` is the primary key the instance
      already has. Only a new record (`pk` None) touches stock; re-saving an
      existing one rewrites its log entry and nothing else. */
  function Save(l: Ledger, t: Transaction, pk: Option<nat>): (r: Ledger)
    requires pk.Some? ==> pk.value < |l.log|
    ensures pk.None? ==> |r.log| == |l.log| + 1 && r.log[|l.log|] == t
    ensures pk.None? ==> Quantity(r, KeyOf(t)) == Apply(Quantity(l, KeyOf(t)), t.kind, t.quantity)
    ensures pk.Some? ==> r.stock == l.stock && |r.log| == |l.log| && r.log[pk.value] == t
    ensures forall i :: 0 <= i < |l.log| && pk != Some(i) ==> r.log[i] == l.log[i]
  {
    if pk.None? then Record(l, t) else l.(log := l.log[pk.value := t])
  }

  /** Read off `Record`'s frame at a single key other than its own. */
  lemma RecordFrame(l: Ledger, t: Transaction, k: Key)
    requires k != KeyOf(t)
    ensures k in Record(l, t).stock <==> k in l.stock
    ensures k in l.stock ==> Record(l, t).stock[k] == l.stock[k]
  {
  }

  /** One new transaction moves the quantity at `k` by its signed delta,
      unless it is an ADJUSTMENT of `k` itself. */
  lemma RecordDelta(l: Ledger, t: Transaction, k: Key)
    requires KeyOf(t) == k ==> t.kind != Adjustment
    ensures Quantity(Record(l, t), k)
         == Quantity(l, k) + (if KeyOf(t) == k then SignedDelta(t.kind, t.quantity) else 0)
  {
    if KeyOf(t) != k {
      RecordFrame(l, t, k);
    } else if Inbound(t.kind) {
    } else if Outbound(t.kind) {
    } else {
      assert t.kind == Transfer;
    }
  }

  /** Saving a sequence of new transactions in order. */
  function ApplyAll(l: Ledger, ts: seq<Transaction>): (r: Ledger)
    ensures r.log == l.log + ts
    decreases |ts|
  {
    if ts == [] then l else Record(ApplyAll(l, ts[..|ts| - 1]), ts[|ts| - 1])
  }

  /** The signed change a movement makes: + inbound, - outbound, 0 otherwise. */
  function SignedDelta(kind: TxType, q: int): int {
    if Inbound(kind) then q else if Outbound(kind) then -q else 0
  }

  /** Sum of the signed deltas of the transactions in `ts` that hit `k`. */
  function NetDelta(ts: seq<Transaction>, k: Key): int
    decreases |ts|
  {
    if ts == [] then 0
    else
      var t := ts[|ts| - 1];
      NetDelta(ts[..|ts| - 1], k) + (if KeyOf(t) == k then SignedDelta(t.kind, t.quantity) else 0)
  }

  predicate NoAdjustmentAt(ts: seq<Transaction>, k: Key) {
    forall i :: 0 <= i < |ts| && KeyOf(ts[i]) == k ==> ts[i].kind != Adjustment
  }

  /** Without an ADJUSTMENT at `k`, the ledger at `k` is the starting
      quantity plus the sum of the signed deltas, in insertion order. */
  lemma {:induction false} MovementsSum(l: Ledger, ts: seq<Transaction>, k: Key)
    requires NoAdjustmentAt(ts, k)
    ensures Quantity(ApplyAll(l, ts), k) == Quantity(l, k) + NetDelta(ts, k)
    decreases |ts|
  {
    if ts != [] {
      var init := ts[..|ts| - 1];
      assert NoAdjustmentAt(init, k) by {
        forall i | 0 <= i < |init| && KeyOf(init[i]) == k
          ensures init[i].kind != Adjustment
        {
          assert init[i] == ts[i];
        }
      }
      MovementsSum(l, init, k);
      RecordDelta(ApplyAll(l, init), ts[|ts| - 1], k);
    }
  }

  /** A fresh (product, location) starts from 0: its final quantity is
      exactly the sum of the signed deltas. */
  lemma FreshPairSum(l: Ledger, ts: seq<Transaction>, k: Key)
    requires k !in l.stock
    requires NoAdjustmentAt(ts, k)
    ensures Quantity(ApplyAll(l, ts), k) == NetDelta(ts, k)
  {
    MovementsSum(l, ts, k);
    assert Quantity(l, k) == 0;
  }

  lemma {:induction false} ApplyAllConcat(l: Ledger, a: seq<Transaction>, b: seq<Transaction>)
    ensures ApplyAll(l, a + b) == ApplyAll(ApplyAll(l, a), b)
    decreases |b|
  {
    if b == [] {
      assert a + b == a;
    } else {
      var b' := b[..|b| - 1];
      assert (a + b)[..|a + b| - 1] == a + b';
      assert (a + b)[|a + b| - 1] == b[|b| - 1];
      ApplyAllConcat(l, a, b');
    }
  }

  /** Saving `t` and then `rest` is saving `[t] + rest`. */
  lemma ApplyAllCons(l: Ledger, t: Transaction, rest: seq<Transaction>)
    ensures ApplyAll(l, [t] + rest) == ApplyAll(Record(l, t), rest)
  {
    ApplyAllConcat(l, [t], rest);
    assert [t][..0] == [];
  }

  /** An ADJUSTMENT overrides all history: after the last adjustment at `k`,
      the quantity is its value plus the later signed deltas. */
  lemma LastAdjustmentWins(l: Ledger, ts: seq<Transaction>, j: nat, k: Key)
    requires j < |ts| && ts[j].kind == Adjustment && KeyOf(ts[j]) == k
    requires NoAdjustmentAt(ts[j + 1..], k)
    ensures Quantity(ApplyAll(l, ts), k) == ts[j].quantity + NetDelta(ts[j + 1..], k)
  {
    assert ts == ts[..j + 1] + ts[j + 1..];
    ApplyAllConcat(l, ts[..j + 1], ts[j + 1..]);
    assert ts[..j + 1][..j] == ts[..j];
    MovementsSum(ApplyAll(l, ts[..j + 1]), ts[j + 1..], k);
  }

  /** Applying the same adjustment twice leaves the stock table as once. */
  lemma AdjustmentIdempotent(l: Ledger, t: Transaction)
    requires t.kind == Adjustment
    ensures Record(Record(l, t), t).stock == Record(l, t).stock
  {
  }

  /** Rows at keys no transaction in `ts` names are untouched. */
  lemma {:induction false} UntouchedKeys(l: Ledger, ts: seq<Transaction>, k: Key)
    requires forall i :: 0 <= i < |ts| ==> KeyOf(ts[i]) != k
    ensures k in ApplyAll(l, ts).stock <==> k in l.stock
    ensures k in l.stock ==> ApplyAll(l, ts).stock[k] == l.stock[k]
    decreases |ts|
  {
    if ts != [] {
      UntouchedKeys(l, ts[..|ts| - 1], k);
      RecordFrame(ApplyAll(l, ts[..|ts| - 1]), ts[|ts| - 1], k);
    }
  }

  /** A sale larger than what is on hand is not refused: stock goes negative. */
  lemma SaleHasNoFloor(l: Ledger, t: Transaction)
    requires t.kind == Sale && t.quantity > Quantity(l, KeyOf(t))
    ensures Quantity(Record(l, t), KeyOf(t)) < 0
  {
  }
}
