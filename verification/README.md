# pandoo6.0 inventory core, modelled in Dafny

This project models the logic at the centre of the pandoo6.0 Django inventory
application:

- the **stock ledger**: each new `Transaction` rewrites the quantity of the
  `Stock` row for its own (product, location);
- the **purchase-order workflow**: send, cancel and edit under a status guard,
  and taking a goods receipt, which raises received quantities, books PURCHASE
  transactions and recomputes the order status;
- the **manual stock adjustment**, alert resolution and the low-stock filter;
- the **role/capability table** of `UserProfile`, with the
  `permission_required` / `role_required` view decorators and the audit trail
  they write;
- the **password rule** of `UserForm`, and the avatar upload path.

The whole model is pure functions over immutable datatypes. Each view takes
the tables it reads and returns a reply together with the new tables. A
database table is a `map` keyed by primary key, or a `seq` when rows are only
ever appended. Prices are integer cents.

The model has one module per component:

| file | module | models |
|---|---|---|
| base.dfy | Base | `Option`, HTTP method, decimal rendering of integers in messages |
| stock_models.dfy | StockModels | `Stock`, `StockAlert` |
| transactions.dfy | Transactions | `TransactionType`, `Transaction.save`, the ledger |
| roles.dfy | Roles | `UserRole`, the `can_*` table, profile signal, `user_avatar_path` |
| audit.dfy | Audit | `log_activity`, `AuditLog` |
| gates.dfy | Gates | `permission_required`, `role_required` |
| stock_views.dfy | StockViews | `stock_adjustment`, `resolve_alert`, the `low_stock` filter |
| purchase_models.dfy | PurchaseModels | `PurchaseOrder`, `PurchaseOrderItem`, `GoodsReceipt(Item)` |
| purchase_views.dfy | PurchaseViews | `purchase_order_send`, `_cancel`, `_update` |
| goods_receipt.dfy | GoodsReceipts | `goods_receipt_create` |
| receipt_properties.dfy | ReceiptProperties | what a receipt does to items, ledger and status |
| store_invariant.dfy | StoreInvariant | the consistency invariant every purchase view keeps |
| gated_views.dfy | GatedViews | the four purchase views behind their `permission_required` gates |
| user_forms.dfy | UserForms | `UserForm` password fields and `clean` |

Behaviour is modelled as the code has it, including these points:

- A PURCHASE or RETURN_IN adds to the stock row; a SALE, RETURN_OUT or DAMAGE
  subtracts with no floor; an ADJUSTMENT sets the quantity absolutely. A
  TRANSFER matches no branch, but its row is still created at 0.
- The receipt loop fetches each item by key alone, so a line may raise an
  item of another purchase order. The PURCHASE is then booked at *this*
  order's location (`StoreInvariant.OtherOrdersItemTaken`).
- Receipts are refused only for CANCELLED orders. A DRAFT order that was never
  sent accepts one (`StoreInvariant.DraftAcceptsReceipt`).
- Each receipt that finds all items complete stamps `actual_delivery` again
  with the current day, even when the order was already RECEIVED.
- `goods_receipt_create` runs without a database transaction. An exception in
  the loop (an unparsable `item_` name or quantity, or a missing item) leaves
  the receipt and the lines already taken in place. It writes no status
  change and no audit entry (`ServerError`).
- Deleting an item in the order edit also deletes its goods-receipt lines (`on_delete=CASCADE`), including lines of another order's receipt.
- `stock_adjustment` checks no capability: any signed-in user may adjust.
- `Stock.available_quantity` can be negative, because neither field is bounded.

## Model

| member | source | states |
|---|---|---|
| StockModels.NewStockRow | stock/models.py:21-22 | a new Stock row holds 0 and reserves 0 |
| StockModels.Available | stock/models.py:32-34 | available quantity is the quantity less the reservation, so it is at most the quantity exactly when the reservation is non-negative |
| StockModels.NewRowAvailableZero | stock/models.py:21-34 | a new row has nothing available |
| StockModels.AvailableCanBeNegative | stock/models.py:21-34 | nothing bounds the fields, so some row has a negative available quantity |
| StockModels.NewAlert | stock/models.py:44-49 | a new alert starts unresolved, with no resolution time, for the given product, location and type |
| Transactions.Record | transactions/models.py:45-60 | saving a new transaction appends it to the log and creates its row if missing. Inbound kinds add the quantity, outbound kinds subtract it, ADJUSTMENT sets it and TRANSFER keeps it. The reservation and every other row are unchanged |
| Transactions.Save | transactions/models.py:39-60 | only a record without a primary key touches stock; re-saving an existing one rewrites its log entry and leaves every stock row as it was |
| Transactions.RecordFrame | transactions/models.py:47-51 | a new transaction neither creates nor changes a row at any other (product, location) |
| Transactions.RecordDelta | transactions/models.py:53-56 | a non-ADJUSTMENT transaction moves the quantity at any key by its signed delta at its own key and by 0 elsewhere |
| Transactions.ApplyAll | transactions/models.py:39-60 | the log is append-only: saving a sequence appends exactly that sequence |
| Transactions.MovementsSum | transactions/models.py:47-58 | with no ADJUSTMENT at a key, the final quantity there is the starting quantity plus the sum of signed deltas, in insertion order |
| Transactions.FreshPairSum | transactions/models.py:47-58 | for a (product, location) with no row yet, the final quantity is exactly the sum of signed deltas |
| Transactions.ApplyAllConcat | transactions/models.py:39-60 | saving two sequences one after the other is saving their concatenation |
| Transactions.LastAdjustmentWins | transactions/models.py:57-58 | after the last ADJUSTMENT at a key, the quantity is its value plus the later signed deltas; all earlier history is forgotten |
| Transactions.AdjustmentIdempotent | transactions/models.py:57-58 | applying the same ADJUSTMENT twice leaves the same stock table as once |
| Transactions.UntouchedKeys | transactions/models.py:47-60 | a row at a key no transaction names is neither created nor changed |
| Transactions.SaleHasNoFloor | transactions/models.py:55-56 | a SALE larger than the stock on hand is accepted and leaves it negative |
| Roles.Allowed | core/models.py:107-179 | each capability is held exactly by the roles at or above its least senior role |
| Roles.Nested | core/models.py:107-179 | capability sets are nested: VIEWER within WAREHOUSE_STAFF within MANAGER within ADMIN |
| Roles.AdminHoldsEverything | core/models.py:107-179 | ADMIN holds every capability |
| Roles.ViewerHoldsExactlyViews | core/models.py:107-179 | VIEWER holds exactly the four view capabilities |
| Roles.AdminOnly | core/models.py:114-176 | managing users and the three deletions are ADMIN only |
| Roles.CapabilityNamed | core/decorators.py:52 | looking up a method name yields only a capability whose method has that name |
| Roles.NameRoundTrip | core/decorators.py:52 | every permission method is found again by its own name |
| Roles.HasPermissionMeaning | core/decorators.py:52 | a name is granted exactly when it is the method of a capability the role holds; a name the profile has no attribute for is denied (other profile attributes are not modelled) |
| Roles.HasPermissionAgrees | core/decorators.py:52 | checking by name agrees with the table for every real method |
| Roles.UserSaved | core/models.py:186-201 | creating a user adds exactly one profile with role VIEWER and no avatar and keeps the others; re-saving changes nothing |
| Roles.Extension | core/models.py:81 | the extension has no '.' and is a suffix of the file name |
| Roles.ExtensionAfterLastDot | core/models.py:81 | a name without '.' is its own extension; otherwise a '.' precedes the extension, so it is the text after the last '.' |
| Roles.ExtensionOfDotted | core/models.py:81 | appending '.' and a dot-free extension to any name reads that extension back |
| Roles.AvatarPathShape | core/models.py:77-83 | the avatar path lies under `avatars/user_<id>/` and keeps the uploaded file's extension |
| Audit.FirstField | core/decorators.py:83 | the first comma-separated field is a comma-free prefix that stops at the first ',' |
| Audit.FirstFieldOfList | core/decorators.py:83 | a comma-free first entry followed by ',' and anything is read back exactly |
| Audit.ClientIp | core/decorators.py:79-85 | a non-empty X-Forwarded-For yields the text up to its first comma (all of it when there is none); otherwise the address is REMOTE_ADDR |
| Audit.ClientIpOfChain | core/decorators.py:79-85 | a chain "client,proxies" yields exactly the comma-free client address |
| Audit.StoredIp | core/models.py:32 | the address column never holds the empty text: it is stored as NULL, any other address as computed |
| Audit.LeadingCommaStoredNull | core/decorators.py:79-85 | a forwarded header starting with "," yields the empty address, which is stored as NULL rather than falling back to REMOTE_ADDR |
| Audit.LogActivity | core/decorators.py:72-98 | each call appends exactly one entry with the given fields and the stored form of the client address; without a request there is no address and an empty user agent |
| Gates.PermissionRequired | core/decorators.py:40-69 | anonymous users are sent to login and nothing is logged. A granted user runs the view unchanged. Anyone else is sent to the dashboard with exactly one VIEW entry on "Permission Denied" |
| Gates.RoleRequired | core/decorators.py:8-37 | as above, admitting exactly the users whose role code is in the list |
| Gates.UnknownPermissionDenied | core/decorators.py:52 | a name that is no attribute of the profile is refused for every signed-in user |
| Gates.PermissionGateFollowsTable | core/decorators.py:52-67 | a view guarded by a capability's method runs exactly for the roles the table grants it to |
| Gates.RoleRequiredSingle | core/decorators.py:20-35 | a single-role guard admits exactly that role |
| Gates.RoleCodeInjective | core/models.py:70-74 | distinct roles have distinct stored codes |
| StockViews.AdjustmentTx | stock/views.py:75-106 | a valid form yields one transaction of the entered quantity at the row's (product, location), by the actor; DAMAGE for "subtract", ADJUSTMENT otherwise |
| StockViews.Adjust | stock/views.py:62-115 | a missing row is a 404. A GET or an invalid form changes nothing. A valid POST records exactly one transaction: "set" and "add" leave the entered quantity, "subtract" leaves prior minus quantity. The reservation and all other rows are kept |
| StockViews.AddModeDoesNotAdd | stock/views.py:87-96 | mode "add" on a row holding anything does not leave prior plus quantity |
| StockViews.SetAndAddAgree | stock/views.py:75-96 | modes "set" and "add" of the same quantity leave the same stock table |
| StockViews.AdjustAsIntended | stock/views.py:87-96 | corrected adjustment: "add" leaves prior plus quantity, the other modes and all error paths are unchanged |
| StockViews.AddAsIntendedAdds | stock/views.py:87-96 | the corrected "add" adds, and agrees with the recorded behaviour exactly when the row held 0 |
| StockViews.ResolveAlert | stock/views.py:167-184 | a missing alert is a 404; a non-POST is a 405 and changes nothing; a POST marks only that alert resolved and stamps it |
| StockViews.ResolveAgain | stock/views.py:171-175 | resolving twice keeps the alert resolved; only the timestamp moves |
| StockViews.LowStockFilter | stock/views.py:28-31 | with `low_stock=true` exactly the rows at or below their product's reorder point remain, in their order; otherwise all rows remain |
| PurchaseModels.NewOrder | purchases/models.py:18-21 | a new purchase order is DRAFT and undelivered, with the given header |
| PurchaseModels.NewItem | purchases/models.py:41-43 | an item is admitted exactly when its quantity is at least 1, and starts with nothing received |
| PurchaseModels.Pending | purchases/models.py:53-55 | pending is at most 0 exactly when fully received, negative exactly on over-receipt, and adds up with received to the ordered quantity |
| PurchaseModels.NewItemPending | purchases/models.py:41-55 | a new item still awaits its whole ordered quantity, at least 1 |
| PurchaseModels.OrderTotal | purchases/models.py:34-35 | an order with no items totals 0, and positive quantities at non-negative prices never total below 0 |
| PurchaseModels.OrderTotalSingle | purchases/models.py:34-35 | one item contributes its quantity times its unit price; with the append law this fixes the total of every list |
| PurchaseModels.OrderTotalAppend | purchases/models.py:34-35 | the total of a list of items is the sum of the totals of its parts |
| PurchaseModels.OrderTotalIgnoresReceipts | purchases/models.py:34-51 | receiving goods changes no order total |
| PurchaseViews.Send | purchases/views.py:162-189 | a POST moves a DRAFT order to SENT with one audit entry and nothing else changed; any other status is refused unchanged; other methods get 405 |
| PurchaseViews.Cancel | purchases/views.py:191-218 | a POST moves a DRAFT or SENT order to CANCELLED with one audit entry; PARTIAL, RECEIVED and CANCELLED orders are refused unchanged |
| PurchaseViews.SaveItems | purchases/views.py:128-134 | saving the item formset keeps every other order's items, keeps what each edited item received, and gives new items fresh keys with nothing received |
| PurchaseViews.DropLinesOf | purchases/models.py:72 | deleting items removes exactly the receipt lines that name them and keeps every other line |
| PurchaseViews.Update | purchases/views.py:119-160 | only a DRAFT or SENT order can be edited, whatever the method. A valid POST sets the six header fields to the posted values and keeps the status. It saves the items with the formset frame (other orders' items and every received quantity kept, fresh keys for new items) and drops exactly the receipt lines of deleted items. Receipts and the ledger are untouched, and one audit entry is written |
| GoodsReceipts.ReceiptTx | purchases/views.py:259-268 | a received line books a PURCHASE of its quantity for the item's product at the order's location, at the item's price, referencing the receipt |
| GoodsReceipts.Take | purchases/views.py:245-268 | taking a line adds one receipt line, raises only that item's received quantity, and records one PURCHASE |
| GoodsReceipts.ProcessLines | purchases/views.py:239-268 | the loop fails exactly when some item field does not parse or names a missing item with a positive quantity; lines and transactions are only appended, one each per taken line |
| GoodsReceipts.Receive | purchases/views.py:220-315 | a missing order is a 404; a CANCELLED one is refused unchanged; a valid POST saves exactly one receipt; a failing line leaves the order and audit untouched; success writes one audit entry |
| ReceiptProperties.LinesRaiseReceived | purchases/views.py:239-256 | the loop never lowers a received quantity or changes anything else of an item; when it completes, each item gains exactly the sum of the positive quantities posted for it |
| ReceiptProperties.ProcessStep | purchases/views.py:239-268 | a field that does not parse stops the loop; a blank, zero or negative line is skipped; a positive one is taken |
| ReceiptProperties.LinesApplyToLedger | purchases/views.py:258-268 | the ledger after the loop is the old ledger with the appended transactions applied in order |
| ReceiptProperties.LinesMatchPurchases | purchases/views.py:244-268 | every appended receipt line takes in at least 1 and is matched by one PURCHASE of that quantity and product at the order's location |
| ReceiptProperties.ReceiveRunsLoop | purchases/views.py:229-268 | a receipt past its checks keeps the items, lines and ledger the loop left, and completes exactly when the loop does not fail |
| ReceiptProperties.LoopEffects | purchases/views.py:239-268 | a loop that runs to the end raises each item by what was posted for it and only appends PURCHASEs of at least 1 at the order's location, by which stock rises |
| ReceiptProperties.ReceiveEffects | purchases/views.py:239-268 | after a successful receipt every item has risen by what was posted for it, the new transactions are PURCHASEs of at least 1 at the order's location, and stock rose by their sum |
| ReceiptProperties.ReceiveStatus | purchases/views.py:270-281 | after a receipt the status follows from the items alone: RECEIVED (delivered today) when all are complete, else PARTIAL when any received, else unchanged |
| StoreInvariant.GrowthKeepsProgress | purchases/views.py:255-273 | growing received quantities keep an order complete and keep it having received something |
| StoreInvariant.SendKeepsConsistent | purchases/views.py:167-170 | sending keeps the store consistent |
| StoreInvariant.CancelKeepsConsistent | purchases/views.py:196-199 | cancelling keeps the store consistent |
| StoreInvariant.UpdateKeepsConsistent | purchases/views.py:124-134 | editing keeps the store consistent: unique order numbers, fresh item keys, other orders' statuses still true to their items |
| StoreInvariant.ReceiveKeepsConsistent | purchases/views.py:229-281 | a receipt keeps receipt numbers unique, every line at 1 or more, and RECEIVED/PARTIAL true to the items, even when it fails half-way |
| StoreInvariant.RemovedItemLinesGo | purchases/models.py:72 | after an edit no receipt line names an item the edit deleted |
| StoreInvariant.ReceiveKeepsLinesValid | purchases/views.py:239-268 | every line a receipt appends takes in at least one unit and belongs to the saved receipt |
| StoreInvariant.ReceiveNoRegression | purchases/views.py:270-281 | a PARTIAL or RECEIVED order never returns to DRAFT or SENT through a receipt, and RECEIVED stays RECEIVED |
| StoreInvariant.EmptyOrderReceived | purchases/views.py:271-277 | an order without items is marked RECEIVED by a valid receipt |
| StoreInvariant.DraftAcceptsReceipt | purchases/views.py:225-236 | a DRAFT order accepts a receipt |
| StoreInvariant.OtherOrdersItemTaken | purchases/views.py:245-268 | a line naming another order's item raises that item and books the PURCHASE at this order's location |
| GatedViews.Guard | core/decorators.py:40-69 | behind a capability's gate: anonymous users go to login with nothing changed, users holding the capability run the view unchanged, and others go to the dashboard with one "Permission Denied" entry and every table but the audit log untouched |
| GatedViews.GatedSend | purchases/views.py:163-189 | sending runs exactly for holders of `can_approve_purchase_orders`, and otherwise changes no table but the audit log |
| GatedViews.GatedCancel | purchases/views.py:192-218 | cancelling runs exactly for holders of `can_delete_purchase_orders`, and otherwise changes no table but the audit log |
| GatedViews.GatedUpdate | purchases/views.py:120-160 | editing runs exactly for holders of `can_edit_purchase_orders`, and otherwise changes no table but the audit log |
| GatedViews.GatedReceive | purchases/views.py:221-315 | a goods receipt runs exactly for holders of `can_receive_goods`, and otherwise changes no table but the audit log |
| GatedViews.OnlyAdminCancels | purchases/views.py:192 | no user but an ADMIN changes any order by cancelling; a signed-in non-ADMIN is sent to the dashboard |
| GatedViews.ViewerChangesNoPurchase | purchases/views.py:120-222 | a VIEWER can send, cancel, edit or receive nothing: only the audit log changes |
| GatedViews.GatedSendKeepsConsistent | purchases/views.py:163-170 | the gated send keeps the store consistent |
| GatedViews.GatedCancelKeepsConsistent | purchases/views.py:192-199 | the gated cancel keeps the store consistent |
| GatedViews.GatedUpdateKeepsConsistent | purchases/views.py:120-134 | the gated edit keeps the store consistent |
| GatedViews.GatedReceiveKeepsConsistent | purchases/views.py:221-281 | the gated goods receipt keeps the store consistent |
| UserForms.CleanChar | users/forms.py:6-20 | a cleaned field is the stripped text; it has an error (and is dropped) exactly when it is required and blank, or holds a NUL |
| UserForms.SeparatorIsBlank | users/forms.py:6-20 | a required field holding only the 0x1F separator is blank, as `str.strip()` removes it |
| UserForms.MatchError | users/forms.py:53-55 | the mismatch error is raised exactly when a non-empty password differs from the cleaned confirmation |
| UserForms.ValidatePasswords | users/forms.py:47-64 | the fields are required exactly for a new user and refuse NUL. A field with an error is dropped, `clean` adds the mismatch check on what remains, and the cleaned data come back unchanged |
| UserForms.ValidExactly | users/forms.py:47-64 | the form is valid exactly when the user exists or both fields are filled, neither holds a NUL, and the password is empty or equals the confirmation |
| UserForms.EmptyPasswordNotCompared | users/forms.py:53 | an empty password skips the match check whatever the confirmation holds |
| UserForms.MismatchRefused | users/forms.py:53-55 | a non-empty password differing from its confirmation is refused: with "Passwords do not match!" when it is NUL-free, otherwise by its own field error with no mismatch error |
| UserForms.RequiredOnlyForNewUsers | users/forms.py:59-64 | editing a user fails on a password field only when it holds a NUL; creating one fails on a blank or NUL password |
| UserForms.NulPasswordRefused | users/forms.py:6-20 | equal passwords holding a NUL are refused, for a new and for an existing user |

## Findings

| source | as written | input that shows it | evidently intended | confidence | as-written member | corrected member |
|---|---|---|---|---|---|---|
| stock/views.py:87-96 | mode "add" records an ADJUSTMENT of the entered quantity, and the ledger applies ADJUSTMENT absolutely | a row holding 10, "add" 5: the row ends at 5 while the notes say "Added 5 units" | the row ends at prior plus the entered quantity (15) | high, not executed | StockViews.AddModeDoesNotAdd | StockViews.AddAsIntendedAdds |

## Left out

- `purchase_order_create`, the list and detail views, and the user, product and supplier CRUD views: they only persist forms. `PurchaseModels.NewOrder` and `PurchaseModels.NewItem` hold the defaults these views rely on.
- `StockTransfer`: it is a record only and never touches stock.
- Locking and concurrency: `select_for_update` and `atomic` are one sequential step here.
- The random `PO-` and `GR-` numbers of the empty forms. Uniqueness is checked on submission, which is modelled.
- Parsing: the `item_<id>` names and quantities arrive pre-classified (`GoodsReceipts.PostField`). The form fields arrive as integers, dates as day numbers, and a missing or unparsable value as None. Foreign-key choices (supplier, location, product) are taken as valid keys.
- `UserForms.Strip`: it removes the ASCII characters `str.strip()` treats as whitespace, including 0x1C to 0x1F. It does not remove the non-ASCII ones, such as 0x85, 0xA0 or U+2003.
- `Roles.HasPermissionMeaning`: `getattr(profile, name, None)` also finds profile attributes that are not permission methods. `__str__` and `get_role_display` would grant access, `delete` would delete the profile, and `role` would raise. The model reads every name other than a `can_*` method as absent. Every decorated view passes a `can_*` name.
- `Gates.UnknownPermissionDenied`: its premise also excludes other profile attributes, for the same reason.
- Stock rows are addressed by their (product, location), which is unique, not by their primary key.
- Timestamps and clocks: the current day and time are parameters (`today`, `now`). `created_at`, `updated_at` and `AuditLog.changes` are not modelled.
- Messages, redirects, HTMX headers, templates, pagination, and the search and location filters of `stock_list`.
- `login_required` is modelled only through `Gates` (anonymous users are sent to login). The purchase views are modelled bare in `PurchaseViews` and `GoodsReceipts`, which take a signed-in actor. `GatedViews` puts each one behind its `permission_required` gate: `can_edit_purchase_orders` (purchases/views.py:120), `can_approve_purchase_orders` (:163), `can_delete_purchase_orders` (:192) and `can_receive_goods` (:221).
- `PurchaseViews.Update`, `GoodsReceipts.Receive`, `StockViews.Adjust`: the posted text fields (order and receipt numbers, notes) arrive as the `CharField` would clean them, i.e. stripped and NUL-free. Stripping and the NUL check are modelled only for the password fields (`UserForms.CleanChar`). So a number of blanks, or "GR-1 " beside "GR-1", is taken at face value.
- `GoodsReceipts.ReceiptFormValid`, `PurchaseViews.OrderEditValid`, `StockViews.FormValid`: they check the cleaned text, for the same reason.
- `StockViews.AdjustmentTx`: its notes are the cleaned notes, for the same reason.
- `Transactions.Record`: `Stock.quantity` and `Transaction.quantity` are `IntegerField`s, unbounded here. A value outside the database's integer range would fail at `stock.save()` after the transaction row was written, leaving the log entry without its stock change.
- `StockViews.Adjust`: the adjustment quantity has no upper bound in the form (`min_value=0` only), so the same overflow applies. It is not modelled.
- `GoodsReceipts.Take`: `received_quantity` and `quantity_received` are `IntegerField`s, unbounded here. An out-of-range posted quantity would be one more failure half-way through the loop.
- `Audit.LogActivity`: `GenericIPAddressField` also rewrites an IPv6 address into its normalised form before storing it. Only the empty-text-to-NULL rule is modelled.
- `DecimalField(max_digits=10)` on prices: cents are unbounded integers here.
- Avatar file storage: only the path is modelled.
- `StockViews.LowStockFilter`: the order-preservation clause says the kept rows appear in the input in the same order. It does not state that a low row repeated in the input is kept every time.
- `PurchaseViews.SaveItems`: it states the frame and fresh keys only, not the product, quantity and price an edit or addition writes.
- `PurchaseViews.Update`: the contract states the header values, the guard and the item frame. It does not give the new product, quantity and price of each edited or added item, because `PurchaseViews.SaveItems` states only its frame.
