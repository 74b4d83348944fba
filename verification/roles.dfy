/** Users, roles and the capability table (core/models.py): four roles, a
    fixed set of `can_*` predicates on the profile, a profile created with
    every new user, and the upload path of a profile's avatar. */
module Roles {
  import opened Base

  /** `UserRole`. */
  datatype Role = Admin | Manager | WarehouseStaff | Viewer

  /** The stored value of each role, as compared by `role_required`. */
  function RoleCode(r: Role): string {
    match r
    case Admin => "ADMIN"
    case Manager => "MANAGER"
    case WarehouseStaff => "WAREHOUSE_STAFF"
    case Viewer => "VIEWER"
  }

  /** One constructor per `can_*` method of `UserProfile`. */
  datatype Capability =
    | CreateProducts | EditProducts | DeleteProducts | ViewProducts
    | CreatePurchaseOrders | EditPurchaseOrders | DeletePurchaseOrders
    | ApprovePurchaseOrders | ReceiveGoods
    | RecordTransactions | ViewTransactions
    | AdjustStock | ViewStock
    | CreateSuppliers | EditSuppliers | DeleteSuppliers | ViewSuppliers
    | ManageLocations
    | ViewReports | ExportReports
    | ManageUsers | ViewActivityLogs

  /** The table of `UserProfile.can_*`, one case per method, as role lists. */
  function Allowed(role: Role, c: Capability): (ok: bool)
    ensures ok <==> Rank(role) >= Rank(MinimumRole(c))
  {
    match c
    case CreateProducts => role in {Admin, Manager}
    case EditProducts => role in {Admin, Manager}
    case DeleteProducts => role == Admin
    case ViewProducts => true
    case CreatePurchaseOrders => role in {Admin, Manager}
    case EditPurchaseOrders => role in {Admin, Manager}
    case DeletePurchaseOrders => role == Admin
    case ApprovePurchaseOrders => role in {Admin, Manager}
    case ReceiveGoods => role in {Admin, Manager, WarehouseStaff}
    case RecordTransactions => role in {Admin, Manager, WarehouseStaff}
    case ViewTransactions => true
    case AdjustStock => role in {Admin, Manager, WarehouseStaff}
    case ViewStock => true
    case CreateSuppliers => role in {Admin, Manager}
    case EditSuppliers => role in {Admin, Manager}
    case DeleteSuppliers => role == Admin
    case ViewSuppliers => true
    case ManageLocations => role in {Admin, Manager}
    case ViewReports => role in {Admin, Manager}
    case ExportReports => role in {Admin, Manager}
    case ManageUsers => role == Admin
    case ViewActivityLogs => role in {Admin, Manager}
  }

  /** Seniority of a role; every capability is held from some role upward. */
  function Rank(r: Role): nat {
    match r
    case Viewer => 0
    case WarehouseStaff => 1
    case Manager => 2
    case Admin => 3
  }

  /** Reference definition: the least senior role holding each capability. */
  function MinimumRole(c: Capability): Role {
    match c
    case ViewProducts | ViewTransactions | ViewStock | ViewSuppliers => Viewer
    case ReceiveGoods | RecordTransactions | AdjustStock => WarehouseStaff
    case DeleteProducts | DeletePurchaseOrders | DeleteSuppliers | ManageUsers => Admin
    case _ => Manager
  }

  /** Capabilities are nested: a more senior role holds all a junior one does. */
  lemma Nested(junior: Role, senior: Role, c: Capability)
    requires Rank(junior) <= Rank(senior)
    requires Allowed(junior, c)
    ensures Allowed(senior, c)
  {
  }

  lemma AdminHoldsEverything(c: Capability)
    ensures Allowed(Admin, c)
  {
  }

  predicate IsViewCapability(c: Capability) {
    c in {ViewProducts, ViewTransactions, ViewStock, ViewSuppliers}
  }

  /** A VIEWER holds exactly the four view capabilities and nothing else. */
  lemma ViewerHoldsExactlyViews(c: Capability)
    ensures Allowed(Viewer, c) <==> IsViewCapability(c)
  {
  }

  /** Only an ADMIN may manage users or delete anything. */
  lemma AdminOnly(r: Role)
    ensures Allowed(r, ManageUsers) <==> r == Admin
    ensures Allowed(r, DeleteProducts) <==> r == Admin
    ensures Allowed(r, DeletePurchaseOrders) <==> r == Admin
    ensures Allowed(r, DeleteSuppliers) <==> r == Admin
  {
  }

  /** The Python name of each capability's method. */
  function MethodName(c: Capability): string {
    match c
    case CreateProducts => "can_create_products"
    case EditProducts => "can_edit_products"
    case DeleteProducts => "can_delete_products"
    case ViewProducts => "can_view_products"
    case CreatePurchaseOrders => "can_create_purchase_orders"
    case EditPurchaseOrders => "can_edit_purchase_orders"
    case DeletePurchaseOrders => "can_delete_purchase_orders"
    case ApprovePurchaseOrders => "can_approve_purchase_orders"
    case ReceiveGoods => "can_receive_goods"
    case RecordTransactions => "can_record_transactions"
    case ViewTransactions => "can_view_transactions"
    case AdjustStock => "can_adjust_stock"
    case ViewStock => "can_view_stock"
    case CreateSuppliers => "can_create_suppliers"
    case EditSuppliers => "can_edit_suppliers"
    case DeleteSuppliers => "can_delete_suppliers"
    case ViewSuppliers => "can_view_suppliers"
    case ManageLocations => "can_manage_locations"
    case ViewReports => "can_view_reports"
    case ExportReports => "can_export_reports"
    case ManageUsers => "can_manage_users"
    case ViewActivityLogs => "can_view_activity_logs"
  }

  /** `getattr(profile, name, ...)` restricted to the permission methods:
      the capability whose method is called `name`, if there is one. The
      length of `name` and its two letters after "can_" single out the only
      method it can be; the full names are then compared. */
  function CapabilityNamed(name: string): (r: Option<Capability>)
    ensures r.Some? ==> MethodName(r.value) == name
  {
    match Candidate(name)
    case None => None
    case Some(c) => if MethodName(c) == name then Some(c) else None
  }

  function Candidate(name: string): Option<Capability> {
    if |name| < 6 then None
    else
      var n, a, b := |name|, name[4], name[5];
      if n == 19 && a == 'c' then Some(CreateProducts)
      else if n == 17 && a == 'e' then Some(EditProducts)
      else if n == 19 && a == 'd' then Some(DeleteProducts)
      else if n == 17 && a == 'v' then Some(ViewProducts)
      else if n == 26 && a == 'c' then Some(CreatePurchaseOrders)
      else if n == 24 && a == 'e' then Some(EditPurchaseOrders)
      else if n == 26 && a == 'd' then Some(DeletePurchaseOrders)
      else if n == 27 && a == 'a' then Some(ApprovePurchaseOrders)
      else if n == 17 && a == 'r' then Some(ReceiveGoods)
      else if n == 23 && a == 'r' then Some(RecordTransactions)
      else if n == 21 && a == 'v' then Some(ViewTransactions)
      else if n == 16 && a == 'a' then Some(AdjustStock)
      else if n == 14 && a == 'v' then Some(ViewStock)
      else if n == 20 && a == 'c' then Some(CreateSuppliers)
      else if n == 18 && a == 'e' && b == 'd' then Some(EditSuppliers)
      else if n == 20 && a == 'd' then Some(DeleteSuppliers)
      else if n == 18 && a == 'v' then Some(ViewSuppliers)
      else if n == 20 && a == 'm' then Some(ManageLocations)
      else if n == 16 && a == 'v' then Some(ViewReports)
      else if n == 18 && a == 'e' && b == 'x' then Some(ExportReports)
      else if n == 16 && a == 'm' then Some(ManageUsers)
      else if n == 22 && a == 'v' then Some(ViewActivityLogs)
      else None
  }

  /** Looking a capability up by its own method name finds it again. */
  lemma NameRoundTrip(c: Capability)
    ensures CapabilityNamed(MethodName(c)) == Some(c)
  {
    if c in {CreateProducts, EditProducts, DeleteProducts, ViewProducts} {
      ProductNamesRoundTrip(c);
    } else if c in {CreatePurchaseOrders, EditPurchaseOrders, DeletePurchaseOrders, ApprovePurchaseOrders, ReceiveGoods} {
      OrderNamesRoundTrip(c);
    } else if c in {RecordTransactions, ViewTransactions, AdjustStock, ViewStock} {
      StockNamesRoundTrip(c);
    } else if c in {CreateSuppliers, EditSuppliers, DeleteSuppliers, ViewSuppliers, ManageLocations} {
      SupplierNamesRoundTrip(c);
    } else {
      AdminNamesRoundTrip(c);
    }
  }

  lemma ProductNamesRoundTrip(c: Capability)
    requires c in {CreateProducts, EditProducts, DeleteProducts, ViewProducts}
    ensures CapabilityNamed(MethodName(c)) == Some(c)
  {
  }

  lemma OrderNamesRoundTrip(c: Capability)
    requires c in {CreatePurchaseOrders, EditPurchaseOrders, DeletePurchaseOrders, ApprovePurchaseOrders, ReceiveGoods}
    ensures CapabilityNamed(MethodName(c)) == Some(c)
  {
  }

  lemma StockNamesRoundTrip(c: Capability)
    requires c in {RecordTransactions, ViewTransactions, AdjustStock, ViewStock}
    ensures CapabilityNamed(MethodName(c)) == Some(c)
  {
  }

  lemma SupplierNamesRoundTrip(c: Capability)
    requires c in {CreateSuppliers, EditSuppliers, DeleteSuppliers, ViewSuppliers, ManageLocations}
    ensures CapabilityNamed(MethodName(c)) == Some(c)
  {
  }

  lemma AdminNamesRoundTrip(c: Capability)
    requires c in {ViewReports, ExportReports, ManageUsers, ViewActivityLogs}
    ensures CapabilityNamed(MethodName(c)) == Some(c)
  {
  }

  /** The string-dispatched check over the permission-method names, which
      are all the decorators are ever given: a name that is no attribute of
      the profile falls back to the default `lambda: False`, i.e. is denied.
      The profile's other attributes (`__str__`, `get_role_display`, `role`,
      ...) are not modelled and read as denied here. */
  function HasPermission(role: Role, name: string): bool {
    match CapabilityNamed(name)
    case None => false
    case Some(c) => Allowed(role, c)
  }

  /** Among permission-method names and names the profile lacks: granted
      exactly when `name` is the method of a capability the role holds. */
  lemma HasPermissionMeaning(role: Role, name: string)
    ensures HasPermission(role, name) <==> exists c: Capability :: MethodName(c) == name && Allowed(role, c)
  {
    if c: Capability :| MethodName(c) == name && Allowed(role, c) {
      NameRoundTrip(c);
    } else {
      match CapabilityNamed(name)
      case None =>
      case Some(c) =>
        assert MethodName(c) == name;
    }
  }

  /** The string check agrees with the table on every real method name. */
  lemma HasPermissionAgrees(role: Role, c: Capability)
    ensures HasPermission(role, MethodName(c)) == Allowed(role, c)
  {
    NameRoundTrip(c);
  }

  /** A `UserProfile`; `avatar` is the stored upload path, if any. */
  datatype Profile = Profile(
    role: Role,
    phone: string,
    department: string,
    avatar: Option<string>,
    active: bool)

  /** The post-save signals on User: a created user gets exactly one new
      profile, with the default role VIEWER; a re-saved user keeps the
      profile it has. `profiles` is keyed by user id (a one-to-one field). */
  function UserSaved(profiles: map<nat, Profile>, user: nat, created: bool): (r: map<nat, Profile>)
    requires created ==> user !in profiles
    ensures created ==> r.Keys == profiles.Keys + {user} && r[user].role == Viewer && r[user].avatar == None
    ensures created ==> forall u :: u in profiles ==> r[u] == profiles[u]
    ensures !created ==> r == profiles
  {
    if created then profiles[user := Profile(Viewer, "", "", None, true)] else profiles
  }

  predicate NoDot(s: string) {
    forall i :: 0 <= i < |s| ==> s[i] != '.'
  }

  /** `filename.split('.')[-1]`: the text after the last '.', or the whole
      name when it has no '.'. */
  function Extension(filename: string): (ext: string)
    ensures NoDot(ext) && |ext| <= |filename|
    ensures ext == filename[|filename| - |ext|..]
    decreases |filename|
  {
    if filename == [] then []
    else if filename[|filename| - 1] == '.' then []
    else Extension(filename[..|filename| - 1]) + [filename[|filename| - 1]]
  }

  /** A name without a '.' is its own extension; otherwise the extension is
      preceded by a '.', so it is what follows the last one. */
  lemma {:induction false} ExtensionAfterLastDot(filename: string)
    ensures NoDot(filename) ==> Extension(filename) == filename
    ensures !NoDot(filename) ==>
      var ext := Extension(filename);
      |ext| < |filename| && filename[|filename| - |ext| - 1] == '.'
    decreases |filename|
  {
    if filename != [] && filename[|filename| - 1] != '.' {
      var init := filename[..|filename| - 1];
      var last := filename[|filename| - 1];
      ExtensionAfterLastDot(init);
      var e := Extension(init);
      assert Extension(filename) == e + [last];
      if NoDot(filename) {
        assert NoDot(init);
        assert init + [last] == filename;
      } else {
        assert !NoDot(init) by {
          var i :| 0 <= i < |filename| && filename[i] == '.';
          assert i < |init| && init[i] == '.';
        }
        assert filename[|filename| - |e| - 2] == init[|init| - |e| - 1];
      }
    }
  }

  /** `user_avatar_path`: `avatars/user_<id>/<username>_<id>.<ext>`. */
  function AvatarPath(userId: nat, username: string, filename: string): string {
    var id := NatToString(userId);
    "avatars/user_" + id + "/" + username + "_" + id + "." + Extension(filename)
  }

  /** Appending "." and a dot-free extension: the extension is read back. */
  lemma {:induction false} ExtensionOfDotted(prefix: string, ext: string)
    requires NoDot(ext)
    ensures Extension(prefix + "." + ext) == ext
    decreases |ext|
  {
    var s := prefix + "." + ext;
    if ext == [] {
      assert s[|s| - 1] == '.';
    } else {
      var e' := ext[..|ext| - 1];
      assert s[..|s| - 1] == prefix + "." + e';
      assert s[|s| - 1] == ext[|ext| - 1];
      ExtensionOfDotted(prefix, e');
      assert e' + [ext[|ext| - 1]] == ext;
    }
  }

  /** The stored avatar keeps the uploaded file's extension, and lives in
      the per-user directory `avatars/user_<id>/`. */
  lemma AvatarPathShape(userId: nat, username: string, filename: string)
    ensures var path := AvatarPath(userId, username, filename);
      var dir := "avatars/user_" + NatToString(userId) + "/";
      Extension(path) == Extension(filename) && dir <= path
  {
    var id := NatToString(userId);
    var ext := Extension(filename);
    ExtensionOfDotted("avatars/user_" + id + "/" + username + "_" + id, ext);
  }
}
