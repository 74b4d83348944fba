/** The purchase views as they are routed: each sits behind
    `permission_required` with its own capability (purchases/views.py):
    editing needs `can_edit_purchase_orders`, sending
    `can_approve_purchase_orders`, cancelling `can_delete_purchase_orders`
    and taking a goods receipt `can_receive_goods`. A user without the
    capability is sent to the dashboard with one audit entry, and the view
    does not run. */
module GatedViews {
  import opened Base
  import opened Roles
  import opened Gates
  import Audit
  import opened PurchaseViews
  import opened GoodsReceipts
  import opened StoreInvariant

  /** `view` behind `permission_required(<c's method name>)`, on the store `s`:
      the refusal's audit entry is written into the store's audit log. */
  function Guard(s: Store, c: Capability, user: User, meta: Audit.Meta, path: string,
                 view: Store -> (Reply, Store)): (out: (Gated<Reply>, Store))
    ensures user.Anonymous? ==> out == (ToLogin, s)
    ensures user.SignedIn? && Allowed(user.role, c) ==> out == (Ran(view(s).0), view(s).1)
    ensures user.SignedIn? && !Allowed(user.role, c) ==>
      && out.0 == ToDashboard
      && out.1 == s.(audit := out.1.audit)
      && |out.1.audit| == |s.audit| + 1 && out.1.audit[..|s.audit|] == s.audit
      && out.1.audit[|s.audit|].user == Some(user.id)
      && out.1.audit[|s.audit|].action == Audit.View
      && out.1.audit[|s.audit|].modelName == "Permission Denied"
      && out.1.audit[|s.audit|].description == "Attempted to " + MethodName(c) + " at " + path
  {
    HasPermissionAgrees(if user.SignedIn? then user.role else Viewer, c);
    var g := PermissionRequired(MethodName(c), user, path, meta, s.audit, view, s);
    match g.0
    case ToLogin => (ToLogin, s)
    case ToDashboard => (ToDashboard, s.(audit := g.1))
    case Ran(r) => (Ran(r.0), r.1)
  }

  /** The signed-in user's id, as the views read `request.user`. */
  function ActorOf(user: User): nat {
    if user.SignedIn? then user.id else 0
  }

  /** Whether `user` passes the gate of capability `c`. */
  predicate Admitted(user: User, c: Capability) {
    user.SignedIn? && Allowed(user.role, c)
  }

  /** `purchase_order_send` as routed. */
  function GatedSend(s: Store, pk: nat, user: User, meta: Audit.Meta, verb: HttpMethod, path: string): (out: (Gated<Reply>, Store))
    ensures out.0.Ran? <==> Admitted(user, ApprovePurchaseOrders)
    ensures out.0.Ran? ==> var r := Send(s, pk, Request(ActorOf(user), meta, verb)); out == (Ran(r.0), r.1)
    ensures !out.0.Ran? ==> out.1 == s.(audit := out.1.audit)
  {
    Guard(s, ApprovePurchaseOrders, user, meta, path, (st: Store) => Send(st, pk, Request(ActorOf(user), meta, verb)))
  }

  /** `purchase_order_cancel` as routed. */
  function GatedCancel(s: Store, pk: nat, user: User, meta: Audit.Meta, verb: HttpMethod, path: string): (out: (Gated<Reply>, Store))
    ensures out.0.Ran? <==> Admitted(user, DeletePurchaseOrders)
    ensures out.0.Ran? ==> var r := Cancel(s, pk, Request(ActorOf(user), meta, verb)); out == (Ran(r.0), r.1)
    ensures !out.0.Ran? ==> out.1 == s.(audit := out.1.audit)
  {
    Guard(s, DeletePurchaseOrders, user, meta, path, (st: Store) => Cancel(st, pk, Request(ActorOf(user), meta, verb)))
  }

  /** `purchase_order_update` as routed. */
  function GatedUpdate(s: Store, pk: nat, user: User, meta: Audit.Meta, verb: HttpMethod, path: string,
                       edit: Option<OrderEdit>): (out: (Gated<Reply>, Store))
    ensures out.0.Ran? <==> Admitted(user, EditPurchaseOrders)
    ensures out.0.Ran? ==> var r := Update(s, pk, Request(ActorOf(user), meta, verb), edit); out == (Ran(r.0), r.1)
    ensures !out.0.Ran? ==> out.1 == s.(audit := out.1.audit)
  {
    Guard(s, EditPurchaseOrders, user, meta, path, (st: Store) => Update(st, pk, Request(ActorOf(user), meta, verb), edit))
  }

  /** `goods_receipt_create` as routed. */
  function GatedReceive(s: Store, pk: nat, user: User, meta: Audit.Meta, verb: HttpMethod, path: string,
                        form: ReceiptForm, fields: seq<PostField>, today: int): (out: (Gated<Reply>, Store))
    ensures out.0.Ran? <==> Admitted(user, ReceiveGoods)
    ensures out.0.Ran? ==>
      var r := Receive(s, pk, Request(ActorOf(user), meta, verb), form, fields, today); out == (Ran(r.0), r.1)
    ensures !out.0.Ran? ==> out.1 == s.(audit := out.1.audit)
  {
    Guard(s, ReceiveGoods, user, meta, path,
          (st: Store) => Receive(st, pk, Request(ActorOf(user), meta, verb), form, fields, today))
  }

  /** Only an ADMIN can cancel: for anyone else no order changes, and a
      signed-in user is sent to the dashboard. */
  lemma OnlyAdminCancels(s: Store, pk: nat, user: User, meta: Audit.Meta, verb: HttpMethod, path: string)
    requires !(user.SignedIn? && user.role == Admin)
    ensures GatedCancel(s, pk, user, meta, verb, path).1.orders == s.orders
    ensures user.SignedIn? ==> GatedCancel(s, pk, user, meta, verb, path).0 == ToDashboard
  {
    if user.SignedIn? {
      AdminOnly(user.role);
    }
  }

  /** A VIEWER can run none of the four purchase views: every table but the
      audit log stays as it was. */
  lemma ViewerChangesNoPurchase(s: Store, pk: nat, id: nat, meta: Audit.Meta, verb: HttpMethod, path: string,
                                edit: Option<OrderEdit>, form: ReceiptForm, fields: seq<PostField>, today: int)
    ensures GatedSend(s, pk, SignedIn(id, Viewer), meta, verb, path).1 == s.(audit := GatedSend(s, pk, SignedIn(id, Viewer), meta, verb, path).1.audit)
    ensures GatedCancel(s, pk, SignedIn(id, Viewer), meta, verb, path).1 == s.(audit := GatedCancel(s, pk, SignedIn(id, Viewer), meta, verb, path).1.audit)
    ensures GatedUpdate(s, pk, SignedIn(id, Viewer), meta, verb, path, edit).1
         == s.(audit := GatedUpdate(s, pk, SignedIn(id, Viewer), meta, verb, path, edit).1.audit)
    ensures GatedReceive(s, pk, SignedIn(id, Viewer), meta, verb, path, form, fields, today).1
         == s.(audit := GatedReceive(s, pk, SignedIn(id, Viewer), meta, verb, path, form, fields, today).1.audit)
  {
    ViewerHoldsExactlyViews(ApprovePurchaseOrders);
    ViewerHoldsExactlyViews(DeletePurchaseOrders);
    ViewerHoldsExactlyViews(EditPurchaseOrders);
    ViewerHoldsExactlyViews(ReceiveGoods);
  }

  /** The gates keep the store consistent: a refusal only adds to the audit
      log, and an admitted user runs a view that keeps it. */
  lemma GatedSendKeepsConsistent(s: Store, pk: nat, user: User, meta: Audit.Meta, verb: HttpMethod, path: string)
    requires Consistent(s)
    ensures Consistent(GatedSend(s, pk, user, meta, verb, path).1)
  {
    SendKeepsConsistent(s, pk, Request(ActorOf(user), meta, verb));
  }

  lemma GatedCancelKeepsConsistent(s: Store, pk: nat, user: User, meta: Audit.Meta, verb: HttpMethod, path: string)
    requires Consistent(s)
    ensures Consistent(GatedCancel(s, pk, user, meta, verb, path).1)
  {
    CancelKeepsConsistent(s, pk, Request(ActorOf(user), meta, verb));
  }

  lemma GatedUpdateKeepsConsistent(s: Store, pk: nat, user: User, meta: Audit.Meta, verb: HttpMethod, path: string,
                                   edit: Option<OrderEdit>)
    requires Consistent(s)
    ensures Consistent(GatedUpdate(s, pk, user, meta, verb, path, edit).1)
  {
    UpdateKeepsConsistent(s, pk, Request(ActorOf(user), meta, verb), edit);
  }

  lemma GatedReceiveKeepsConsistent(s: Store, pk: nat, user: User, meta: Audit.Meta, verb: HttpMethod, path: string,
                                    form: ReceiptForm, fields: seq<PostField>, today: int)
    requires Consistent(s)
    ensures Consistent(GatedReceive(s, pk, user, meta, verb, path, form, fields, today).1)
  {
    ReceiveKeepsConsistent(s, pk, Request(ActorOf(user), meta, verb), form, fields, today);
  }
}
