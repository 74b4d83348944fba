/** The stock table (stock/models.py): one row per (product, location) with an
    on-hand and a reserved quantity, plus low-stock alerts. */
module StockModels {
  import opened Base

  /** The `unique_together = ('product', 'location')` key of a Stock row. */
  datatype Key = Key(product: nat, location: nat)

  /** A Stock row. Both quantities are plain `IntegerField`s: no lower bound. */
  datatype StockRow = StockRow(quantity: int, reserved: int)

  /** Keying the table by (product, location) makes "at most one row per
      pair" hold by construction. */
  type StockTable = map<Key, StockRow>

  /** A row as `get_or_create` makes it: both fields at their default 0. */
  function NewStockRow(): (r: StockRow)
    ensures r.quantity == 0 && r.reserved == 0
  {
    StockRow(0, 0)
  }

  /** `available_quantity`: what is on hand and not promised to an order. */
  function Available(s: StockRow): (a: int)
    ensures a + s.reserved == s.quantity
    ensures a <= s.quantity <==> s.reserved >= 0
  {
    s.quantity - s.reserved
  }

  /** A new row has nothing on hand and nothing reserved, so nothing available. */
  lemma NewRowAvailableZero()
    ensures Available(NewStockRow()) == 0
  {
  }

  /** Nothing bounds the fields, so a row can promise more than it holds. */
  lemma AvailableCanBeNegative()
    ensures exists s: StockRow :: Available(s) < 0
  {
    assert Available(StockRow(1, 2)) < 0;
  }

  datatype AlertType = LowStock | OutOfStock | Overstock

  /** A StockAlert; `resolvedAt` is the resolution timestamp, `None` while open. */
  datatype StockAlert = StockAlert(
    product: nat,
    location: Option<nat>,
    kind: AlertType,
    resolved: bool,
    resolvedAt: Option<int>)

  /** A freshly created alert is open and carries no resolution time. */
  function NewAlert(product: nat, location: Option<nat>, kind: AlertType): (a: StockAlert)
    ensures !a.resolved && a.resolvedAt == None
    ensures a.product == product && a.location == location && a.kind == kind
  {
    StockAlert(product, location, kind, false, None)
  }
}
