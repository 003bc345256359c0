/**
 * The role/permission catalogue, the static role-to-permission matrix, the three
 * decision functions over it and the navigation table with its per-role filter
 * (src/lib/permissions.ts).
 */
module Permissions {
  import opened Wrappers
  import Seqs

  datatype UserRole = MASTER | ADMIN | USER | GUEST

  datatype Permission =
    | DashboardView
    | CampaignView | CampaignCreate | CampaignEdit | CampaignDelete
    | LeadsView | LeadsExport | LeadsDelete
    | LeadCreate
    | BotView | BotConfigure
    | ChannelsView | ChannelsCreate | ChannelsEdit | ChannelsDelete
    | ReportsView | ReportsAdvanced
    | SettingsView | SettingsCompany | SettingsUsers | SettingsBilling
    | SystemAdmin | SystemLogs | SystemDatabase | SystemBackup
    | EmulatorView | EmulatorCreate | EmulatorDelete | EmulatorRefresh | EmulatorEdit
    | SystemMaintenance

  /** The identifier a permission has in the code, e.g. `'campaign.create'`. */
  function Id(p: Permission): string {
    match p
    case DashboardView => "dashboard.view"
    case CampaignView => "campaign.view"
    case CampaignCreate => "campaign.create"
    case CampaignEdit => "campaign.edit"
    case CampaignDelete => "campaign.delete"
    case LeadsView => "leads.view"
    case LeadsExport => "leads.export"
    case LeadsDelete => "leads.delete"
    case LeadCreate => "lead.create"
    case BotView => "bot.view"
    case BotConfigure => "bot.configure"
    case ChannelsView => "channels.view"
    case ChannelsCreate => "channels.create"
    case ChannelsEdit => "channels.edit"
    case ChannelsDelete => "channels.delete"
    case ReportsView => "reports.view"
    case ReportsAdvanced => "reports.advanced"
    case SettingsView => "settings.view"
    case SettingsCompany => "settings.company"
    case SettingsUsers => "settings.users"
    case SettingsBilling => "settings.billing"
    case SystemAdmin => "system.admin"
    case SystemLogs => "system.logs"
    case SystemDatabase => "system.database"
    case SystemBackup => "system.backup"
    case EmulatorView => "emulator.view"
    case EmulatorCreate => "emulator.create"
    case EmulatorDelete => "emulator.delete"
    case EmulatorRefresh => "emulator.refresh"
    case EmulatorEdit => "emulator.edit"
    case SystemMaintenance => "system.maintenance"
  }

  /** A permission of the `system.*` namespace. */
  predicate IsSystem(p: Permission) {
    "system." <= Id(p)
  }

  /** The key a role has in `ROLE_PERMISSIONS`. */
  function RoleName(r: UserRole): string {
    match r
    case MASTER => "MASTER"
    case ADMIN => "ADMIN"
    case USER => "USER"
    case GUEST => "GUEST"
  }

  /** `ROLE_PERMISSIONS[name]` is defined only for the four role keys. */
  function LookupRole(name: string): (r: Option<UserRole>)
    ensures forall role :: r == Some(role) <==> name == RoleName(role)
  {
    if name == "MASTER" then Some(MASTER)
    else if name == "ADMIN" then Some(ADMIN)
    else if name == "USER" then Some(USER)
    else if name == "GUEST" then Some(GUEST)
    else None
  }

  /** The permission groups the matrix is written in, one per area. */
  function CampaignAll(): seq<Permission> { [CampaignView, CampaignCreate, CampaignEdit, CampaignDelete] }
  function LeadsAll(): seq<Permission> { [LeadsView, LeadsExport, LeadsDelete] }
  function BotAll(): seq<Permission> { [BotView, BotConfigure] }
  function ChannelsAll(): seq<Permission> { [ChannelsView, ChannelsCreate, ChannelsEdit, ChannelsDelete] }
  function ReportsAll(): seq<Permission> { [ReportsView, ReportsAdvanced] }
  function SettingsAll(): seq<Permission> { [SettingsView, SettingsCompany, SettingsUsers, SettingsBilling] }
  function SystemAll(): seq<Permission> { [SystemAdmin, SystemLogs, SystemDatabase, SystemBackup, SystemMaintenance] }

  /** `ROLE_PERMISSIONS`: each role's permission list, in the order it is written. */
  function RolePermissions(r: UserRole): (ps: seq<Permission>)
    ensures |ps| >= 1 && ps[0] == DashboardView
    ensures LeadCreate !in ps
  {
    match r
    case MASTER =>
      [DashboardView] + CampaignAll() + LeadsAll() + BotAll() + ChannelsAll() + ReportsAll() + SettingsAll()
      + SystemAll() + [EmulatorView, EmulatorCreate, EmulatorDelete, EmulatorEdit, EmulatorRefresh]
    case ADMIN =>
      [DashboardView] + CampaignAll() + LeadsAll() + BotAll() + ChannelsAll() + ReportsAll() + SettingsAll()
      + [EmulatorView, EmulatorRefresh]
    case USER => [
      DashboardView,
      CampaignView, CampaignEdit,
      LeadsView,
      ChannelsView,
      ReportsView,
      SettingsView,
      EmulatorView, EmulatorRefresh]
    case GUEST => [DashboardView]
  }

  /** `hasPermission(role, p)`: `ROLE_PERMISSIONS[role].includes(p)`. */
  predicate HasPermission(r: UserRole, p: Permission) {
    p in RolePermissions(r)
  }

  /** `hasAllPermissions(role, ps)`: `ps.every(p => hasPermission(role, p))`. */
  predicate HasAllPermissions(r: UserRole, ps: seq<Permission>)
    ensures HasAllPermissions(r, ps) <==> forall i :: 0 <= i < |ps| ==> HasPermission(r, ps[i])
  {
    ps == [] || (HasPermission(r, ps[0]) && HasAllPermissions(r, ps[1..]))
  }

  /** `hasAnyPermission(role, ps)`: `ps.some(p => hasPermission(role, p))`. */
  predicate HasAnyPermission(r: UserRole, ps: seq<Permission>)
    ensures HasAnyPermission(r, ps) <==> exists i :: 0 <= i < |ps| && HasPermission(r, ps[i])
  {
    ps != [] && (HasPermission(r, ps[0]) || HasAnyPermission(r, ps[1..]))
  }

  /** Over the empty list, the all-of check grants and the any-of check denies, for every role. */
  lemma EmptyRequirement(r: UserRole)
    ensures HasAllPermissions(r, []) && !HasAnyPermission(r, [])
  {
  }

  /** For a non-empty list, all-of implies any-of. */
  lemma AllImpliesAny(r: UserRole, ps: seq<Permission>)
    requires ps != []
    ensures HasAllPermissions(r, ps) ==> HasAnyPermission(r, ps)
  {
    if HasAllPermissions(r, ps) {
      assert HasPermission(r, ps[0]);
    }
  }

  // ---------------------------------------------------------------------------
  // The matrix is a chain GUEST <= USER <= ADMIN <= MASTER
  // ---------------------------------------------------------------------------

  /** Privilege rank: the position of a role in the chain. */
  function Rank(r: UserRole): nat {
    match r
    case GUEST => 0
    case USER => 1
    case ADMIN => 2
    case MASTER => 3
  }

  /**
   * An independent statement of the matrix: the least-privileged role that holds each
   * permission, or `None` for a permission no role holds.
   */
  function LeastRole(p: Permission): Option<UserRole> {
    match p
    case DashboardView => Some(GUEST)
    case CampaignView | CampaignEdit | LeadsView | ChannelsView | ReportsView
      | SettingsView | EmulatorView | EmulatorRefresh => Some(USER)
    case CampaignCreate | CampaignDelete | LeadsExport | LeadsDelete | BotView | BotConfigure
      | ChannelsCreate | ChannelsEdit | ChannelsDelete | ReportsAdvanced
      | SettingsCompany | SettingsUsers | SettingsBilling => Some(ADMIN)
    case SystemAdmin | SystemLogs | SystemDatabase | SystemBackup | SystemMaintenance
      | EmulatorCreate | EmulatorDelete | EmulatorEdit => Some(MASTER)
    case LeadCreate => None
  }

  /** A role holds a permission exactly when it ranks at least as high as the permission's least role. */
  lemma HasPermissionByRank(r: UserRole, p: Permission)
    ensures HasPermission(r, p) <==> LeastRole(p).Some? && Rank(LeastRole(p).value) <= Rank(r)
  {
    if LeastRole(p).Some? && Rank(LeastRole(p).value) <= Rank(r) {
      match r
      case GUEST => GuestHoldsUpToRank(p);
      case USER => UserHoldsUpToRank(p);
      case ADMIN => AdminHoldsUpToRank(p);
      case MASTER => MasterHoldsUpToRank(p);
    } else {
      match r
      case GUEST => GuestLacksAboveRank(p);
      case USER => UserLacksAboveRank(p);
      case ADMIN => AdminLacksAboveRank(p);
      case MASTER => MasterLacksAboveRank(p);
    }
  }

  lemma GuestHoldsUpToRank(p: Permission)
    requires LeastRole(p).Some? && Rank(LeastRole(p).value) <= Rank(GUEST)
    ensures HasPermission(GUEST, p)
  {
    match p
    case DashboardView =>
    case CampaignView =>
    case CampaignCreate =>
    case CampaignEdit =>
    case CampaignDelete =>
    case LeadsView =>
    case LeadsExport =>
    case LeadsDelete =>
    case LeadCreate =>
    case BotView =>
    case BotConfigure =>
    case ChannelsView =>
    case ChannelsCreate =>
    case ChannelsEdit =>
    case ChannelsDelete =>
    case ReportsView =>
    case ReportsAdvanced =>
    case SettingsView =>
    case SettingsCompany =>
    case SettingsUsers =>
    case SettingsBilling =>
    case SystemAdmin =>
    case SystemLogs =>
    case SystemDatabase =>
    case SystemBackup =>
    case EmulatorView =>
    case EmulatorCreate =>
    case EmulatorDelete =>
    case EmulatorRefresh =>
    case EmulatorEdit =>
    case SystemMaintenance =>
  }

  lemma GuestLacksAboveRank(p: Permission)
    requires LeastRole(p).None? || Rank(LeastRole(p).value) > Rank(GUEST)
    ensures !HasPermission(GUEST, p)
  {
  }

  lemma UserHoldsUpToRank(p: Permission)
    requires LeastRole(p).Some? && Rank(LeastRole(p).value) <= Rank(USER)
    ensures HasPermission(USER, p)
  {
    match p
    case DashboardView =>
    case CampaignView =>
    case CampaignCreate =>
    case CampaignEdit =>
    case CampaignDelete =>
    case LeadsView =>
    case LeadsExport =>
    case LeadsDelete =>
    case LeadCreate =>
    case BotView =>
    case BotConfigure =>
    case ChannelsView =>
    case ChannelsCreate =>
    case ChannelsEdit =>
    case ChannelsDelete =>
    case ReportsView =>
    case ReportsAdvanced =>
    case SettingsView =>
    case SettingsCompany =>
    case SettingsUsers =>
    case SettingsBilling =>
    case SystemAdmin =>
    case SystemLogs =>
    case SystemDatabase =>
    case SystemBackup =>
    case EmulatorView =>
    case EmulatorCreate =>
    case EmulatorDelete =>
    case EmulatorRefresh =>
    case EmulatorEdit =>
    case SystemMaintenance =>
  }

  lemma UserLacksAboveRank(p: Permission)
    requires LeastRole(p).None? || Rank(LeastRole(p).value) > Rank(USER)
    ensures !HasPermission(USER, p)
  {
  }

  lemma AdminHoldsUpToRank(p: Permission)
    requires LeastRole(p).Some? && Rank(LeastRole(p).value) <= Rank(ADMIN)
    ensures HasPermission(ADMIN, p)
  {
    AdminPermissionsByGroup(p);
  }

  lemma AdminLacksAboveRank(p: Permission)
    requires LeastRole(p).None? || Rank(LeastRole(p).value) > Rank(ADMIN)
    ensures !HasPermission(ADMIN, p)
  {
    AdminPermissionsByGroup(p);
  }

  /** ADMIN's list, read group by group. */
  lemma AdminPermissionsByGroup(p: Permission)
    ensures HasPermission(ADMIN, p) <==>
      p == DashboardView || p in CampaignAll() || p in LeadsAll() || p in BotAll() || p in ChannelsAll()
      || p in ReportsAll() || p in SettingsAll() || p == EmulatorView || p == EmulatorRefresh
  {
  }

  lemma MasterHoldsUpToRank(p: Permission)
    requires LeastRole(p).Some? && Rank(LeastRole(p).value) <= Rank(MASTER)
    ensures HasPermission(MASTER, p)
  {
    MasterPermissionsByGroup(p);
  }

  lemma MasterLacksAboveRank(p: Permission)
    requires LeastRole(p).None? || Rank(LeastRole(p).value) > Rank(MASTER)
    ensures !HasPermission(MASTER, p)
  {
    MasterPermissionsByGroup(p);
  }

  /** MASTER's list, read group by group. */
  lemma MasterPermissionsByGroup(p: Permission)
    ensures HasPermission(MASTER, p) <==>
      p == DashboardView || p in CampaignAll() || p in LeadsAll() || p in BotAll() || p in ChannelsAll()
      || p in ReportsAll() || p in SettingsAll() || p in SystemAll()
      || p in [EmulatorView, EmulatorCreate, EmulatorDelete, EmulatorEdit, EmulatorRefresh]
  {
  }

  /** Every permission a role holds is held by every higher-ranked role. */
  lemma MatrixIsChain(lower: UserRole, higher: UserRole, p: Permission)
    requires Rank(lower) <= Rank(higher)
    ensures HasPermission(lower, p) ==> HasPermission(higher, p)
  {
    HasPermissionByRank(lower, p);
    HasPermissionByRank(higher, p);
  }

  /** `lead.create` is declared but no role holds it. */
  lemma LeadCreateGrantedToNobody(r: UserRole)
    ensures !HasPermission(r, LeadCreate)
  {
    HasPermissionByRank(r, LeadCreate);
  }

  /** GUEST holds `dashboard.view` and nothing else. */
  lemma GuestHoldsOnlyDashboardView(p: Permission)
    ensures HasPermission(GUEST, p) <==> p == DashboardView
  {
  }

  /** MASTER holds every permission except `lead.create`. */
  lemma MasterHoldsAllButLeadCreate(p: Permission)
    ensures HasPermission(MASTER, p) <==> p != LeadCreate
  {
    HasPermissionByRank(MASTER, p);
  }

  /** The `system.*` namespace is exactly the five system permissions. */
  lemma SystemNamespace(p: Permission)
    ensures IsSystem(p) <==> p in {SystemAdmin, SystemLogs, SystemDatabase, SystemBackup, SystemMaintenance}
  {
    if p !in {SystemAdmin, SystemLogs, SystemDatabase, SystemBackup, SystemMaintenance} {
      OutsideSystemNamespace(p);
    }
  }

  lemma OutsideSystemNamespace(p: Permission)
    requires p !in {SystemAdmin, SystemLogs, SystemDatabase, SystemBackup, SystemMaintenance}
    ensures !IsSystem(p)
  {
    match p
    case DashboardView => assert Id(p)[0] != "system."[0];
    case CampaignView => assert Id(p)[0] != "system."[0];
    case CampaignCreate => assert Id(p)[0] != "system."[0];
    case CampaignEdit => assert Id(p)[0] != "system."[0];
    case CampaignDelete => assert Id(p)[0] != "system."[0];
    case LeadsView => assert Id(p)[0] != "system."[0];
    case LeadsExport => assert Id(p)[0] != "system."[0];
    case LeadsDelete => assert Id(p)[0] != "system."[0];
    case LeadCreate => assert Id(p)[0] != "system."[0];
    case BotView => assert Id(p)[0] != "system."[0];
    case BotConfigure => assert Id(p)[0] != "system."[0];
    case ChannelsView => assert Id(p)[0] != "system."[0];
    case ChannelsCreate => assert Id(p)[0] != "system."[0];
    case ChannelsEdit => assert Id(p)[0] != "system."[0];
    case ChannelsDelete => assert Id(p)[0] != "system."[0];
    case ReportsView => assert Id(p)[0] != "system."[0];
    case ReportsAdvanced => assert Id(p)[0] != "system."[0];
    case SettingsView => assert Id(p)[1] != "system."[1];
    case SettingsCompany => assert Id(p)[1] != "system."[1];
    case SettingsUsers => assert Id(p)[1] != "system."[1];
    case SettingsBilling => assert Id(p)[1] != "system."[1];
    case EmulatorView => assert Id(p)[0] != "system."[0];
    case EmulatorCreate => assert Id(p)[0] != "system."[0];
    case EmulatorDelete => assert Id(p)[0] != "system."[0];
    case EmulatorRefresh => assert Id(p)[0] != "system."[0];
    case EmulatorEdit => assert Id(p)[0] != "system."[0];
    case SystemAdmin | SystemLogs | SystemDatabase | SystemBackup | SystemMaintenance =>
  }

  /** Every `system.*` permission is held by MASTER and by no other role. */
  lemma SystemPermissionsAreMasterOnly(r: UserRole, p: Permission)
    requires IsSystem(p)
    ensures HasPermission(r, p) <==> r == MASTER
  {
    SystemNamespace(p);
    HasPermissionByRank(r, p);
  }

  /** `system.admin`, the permission of the system area, is MASTER's alone. */
  lemma SystemAdminHeldByMasterOnly(r: UserRole)
    ensures HasPermission(r, SystemAdmin) <==> r == MASTER
  {
    match r
    case MASTER => MasterPermissionsByGroup(SystemAdmin);
    case ADMIN => AdminPermissionsByGroup(SystemAdmin);
    case USER =>
    case GUEST =>
  }

  // ---------------------------------------------------------------------------
  // Navigation
  // ---------------------------------------------------------------------------

  datatype NavSubItem = NavSubItem(title: string, url: string, requiredPermissions: seq<Permission>)

  datatype NavItem = NavItem(
    title: string,
    url: string,
    icon: string,
    isActive: Option<bool>,
    requiredPermissions: seq<Permission>,
    items: Option<seq<NavSubItem>>)

  /** `NAVIGATION_CONFIG`, in menu order (the commented-out settings entry is not part of it). */
  function NavigationConfig(): seq<NavItem> {
    [
      NavItem("Dashboard", "/intern/dashboard", "LayoutDashboard", Some(true), [DashboardView], None),
      NavItem("Campanha", "/intern/dashboard/campaign", "Megaphone", None, [CampaignView], None),
      NavItem("Leads", "/intern/dashboard/leads", "Users", None, [LeadsView], None),
      NavItem("Bot", "/intern/dashboard/bot", "Bot", None, [BotView], None),
      NavItem("Canais", "/intern/dashboard/emulators", "Share2", None, [ChannelsView], None),
      NavItem("Relatórios", "/intern/dashboard/reports", "BarChart2", None, [ReportsView], None),
      NavItem("Sistema", "/intern/dashboard/system", "Shield", None, [SystemAdmin], None)
    ]
  }

  /** The test `item => hasAllPermissions(role, item.requiredPermissions)`. */
  function Visible(r: UserRole): NavItem -> bool {
    (item: NavItem) => HasAllPermissions(r, item.requiredPermissions)
  }

  /** The test `subItem => hasAllPermissions(role, subItem.requiredPermissions)`. */
  function SubVisible(r: UserRole): NavSubItem -> bool {
    (sub: NavSubItem) => HasAllPermissions(r, sub.requiredPermissions)
  }

  /** `item => ({ ...item, items: item.items?.filter(...) })`. */
  function Restrict(r: UserRole): NavItem -> NavItem {
    (item: NavItem) => item.(items := match item.items
      case None => None
      case Some(subs) => Some(Seqs.Filter(subs, SubVisible(r))))
  }

  /** The filter-then-map of `getFilteredNavigation`, over any navigation table. */
  function FilterNavigation(r: UserRole, config: seq<NavItem>): seq<NavItem> {
    Seqs.Map(Seqs.Filter(config, Visible(r)), Restrict(r))
  }

  /** `getFilteredNavigation(role)`: the order-preserving subsequence of the menu the role may see. */
  function GetFilteredNavigation(r: UserRole): (menu: seq<NavItem>)
    ensures Seqs.IsSubsequence(menu, NavigationConfig())
    ensures forall e :: e in menu <==> e in NavigationConfig() && HasAllPermissions(r, e.requiredPermissions)
  {
    ConfigIsFlat();
    FilterFlatNavigation(r, NavigationConfig());
    FilterNavigation(r, NavigationConfig())
  }

  /** The entry with its sub-items dropped: what the filter must keep unchanged. */
  function Header(item: NavItem): NavItem {
    item.(items := None)
  }

  function Headers(items: seq<NavItem>): seq<NavItem> {
    Seqs.Map(items, Header)
  }

  /**
   * Over any table: the entries, sub-items aside, form a subsequence of the table; each is a
   * table entry whose permissions are all held; every such table entry appears; and the
   * sub-items of each are the held ones of that entry's sub-items, an absent list staying absent.
   */
  lemma FilterNavigationSpec(r: UserRole, config: seq<NavItem>)
    ensures Seqs.IsSubsequence(Headers(FilterNavigation(r, config)), Headers(config))
    ensures forall k :: 0 <= k < |FilterNavigation(r, config)| ==>
      exists e :: e in config && HasAllPermissions(r, e.requiredPermissions) && FilterNavigation(r, config)[k] == Restrict(r)(e)
    ensures forall e :: e in config && HasAllPermissions(r, e.requiredPermissions) ==> Restrict(r)(e) in FilterNavigation(r, config)
  {
    FilteredHeaders(r, config);
    FilteredEntriesComeFromTable(r, config);
    VisibleEntriesAreKept(r, config);
  }

  lemma FilteredHeaders(r: UserRole, config: seq<NavItem>)
    ensures Seqs.IsSubsequence(Headers(FilterNavigation(r, config)), Headers(config))
  {
    var kept := Seqs.Filter(config, Visible(r));
    var result := Seqs.Map(kept, Restrict(r));
    assert Headers(result) == Headers(kept) by {
      assert forall i :: 0 <= i < |kept| ==> Header(Restrict(r)(kept[i])) == Header(kept[i]);
    }
    Seqs.MapSubsequence(kept, config, Header);
  }

  lemma FilteredEntriesComeFromTable(r: UserRole, config: seq<NavItem>)
    ensures forall k :: 0 <= k < |FilterNavigation(r, config)| ==>
      exists e :: e in config && HasAllPermissions(r, e.requiredPermissions) && FilterNavigation(r, config)[k] == Restrict(r)(e)
  {
    var kept := Seqs.Filter(config, Visible(r));
    var result := Seqs.Map(kept, Restrict(r));
    forall k | 0 <= k < |result|
      ensures exists e :: e in config && HasAllPermissions(r, e.requiredPermissions) && result[k] == Restrict(r)(e)
    {
      assert result[k] == Restrict(r)(kept[k]);
      assert kept[k] in config && Visible(r)(kept[k]);
    }
    assert result == FilterNavigation(r, config);
  }

  lemma VisibleEntriesAreKept(r: UserRole, config: seq<NavItem>)
    ensures forall e :: e in config && HasAllPermissions(r, e.requiredPermissions) ==> Restrict(r)(e) in FilterNavigation(r, config)
  {
    var kept := Seqs.Filter(config, Visible(r));
    var result := Seqs.Map(kept, Restrict(r));
    forall e | e in config && HasAllPermissions(r, e.requiredPermissions)
      ensures Restrict(r)(e) in result
    {
      var j :| 0 <= j < |config| && config[j] == e;
      assert config[j] in kept;
      var i :| 0 <= i < |kept| && kept[i] == e;
      assert result[i] == Restrict(r)(e);
    }
  }

  /** Filtering a table whose entries have no `items` yields a true subsequence of the table. */
  lemma {:induction false} FilterFlatNavigation(r: UserRole, config: seq<NavItem>)
    requires forall i :: 0 <= i < |config| ==> config[i].items.None?
    ensures FilterNavigation(r, config) == Seqs.Filter(config, Visible(r))
    ensures Seqs.IsSubsequence(FilterNavigation(r, config), config)
    ensures forall e :: e in FilterNavigation(r, config) <==> e in config && HasAllPermissions(r, e.requiredPermissions)
  {
    var kept := Seqs.Filter(config, Visible(r));
    assert forall i :: 0 <= i < |kept| ==> kept[i].items.None? by {
      forall i | 0 <= i < |kept| ensures kept[i].items.None? {
        assert kept[i] in config;
      }
    }
    assert Seqs.Map(kept, Restrict(r)) == kept by {
      assert forall i :: 0 <= i < |kept| ==> Restrict(r)(kept[i]) == kept[i];
    }
    forall e | e in config && HasAllPermissions(r, e.requiredPermissions) ensures e in kept {
      var j :| 0 <= j < |config| && config[j] == e;
      assert Visible(r)(config[j]);
    }
  }

  /** Filtering a flat table that a role may wholly see returns the table. */
  lemma FilterNavigationKeepsAll(r: UserRole, config: seq<NavItem>)
    requires forall i :: 0 <= i < |config| ==> config[i].items.None? && Visible(r)(config[i])
    ensures FilterNavigation(r, config) == config
  {
    FilterFlatNavigation(r, config);
    Seqs.FilterKeepsAll(config, Visible(r));
  }

  /** No entry of the menu has sub-items. */
  lemma ConfigIsFlat()
    ensures forall i :: 0 <= i < |NavigationConfig()| ==> NavigationConfig()[i].items.None?
  {
  }

  /** The permission each menu entry requires, in menu order. */
  function EntryPermission(i: nat): Permission
    requires i < 7
  {
    [DashboardView, CampaignView, LeadsView, BotView, ChannelsView, ReportsView, SystemAdmin][i]
  }

  /**
   * The rank each menu entry needs, in menu order: Dashboard for everyone; Campanha, Leads,
   * Canais and Relatórios from USER up; Bot from ADMIN up; Sistema for MASTER only.
   */
  function EntryRank(i: nat): nat
    requires i < 7
  {
    [0, 1, 1, 2, 1, 1, 3][i]
  }

  /** A table shaped like the menu: seven flat entries, entry `i` requiring `EntryPermission(i)` alone. */
  predicate MenuShaped(config: seq<NavItem>) {
    |config| == 7 &&
    forall i :: 0 <= i < 7 ==> config[i].items.None? && config[i].requiredPermissions == [EntryPermission(i)]
  }

  lemma ConfigShape()
    ensures MenuShaped(NavigationConfig())
  {
  }

  /** An entry's permission is held exactly by the roles ranking at least as high as the entry needs. */
  lemma EntryPermissionByRank(r: UserRole, i: nat)
    requires i < 7
    ensures HasPermission(r, EntryPermission(i)) <==> EntryRank(i) <= Rank(r)
  {
    HasPermissionByRank(r, EntryPermission(i));
  }

  /** In a menu-shaped table, entry `i` is visible exactly when the role ranks high enough for it. */
  lemma EntryVisibleByRank(r: UserRole, config: seq<NavItem>, i: nat)
    requires MenuShaped(config) && i < 7
    ensures Visible(r)(config[i]) <==> EntryRank(i) <= Rank(r)
  {
    var p := EntryPermission(i);
    assert HasAllPermissions(r, [p]) <==> HasPermission(r, p);
    EntryPermissionByRank(r, i);
  }

  /** A menu entry is shown to a role exactly when the role ranks at least as high as the entry needs. */
  lemma MenuMembership(r: UserRole, i: nat)
    requires i < |NavigationConfig()|
    ensures NavigationConfig()[i] in GetFilteredNavigation(r) <==> EntryRank(i) <= Rank(r)
  {
    ConfigShape();
    MenuMembershipIn(r, NavigationConfig(), i);
  }

  lemma MenuMembershipIn(r: UserRole, config: seq<NavItem>, i: nat)
    requires MenuShaped(config) && i < 7
    ensures config[i] in FilterNavigation(r, config) <==> EntryRank(i) <= Rank(r)
  {
    FilterFlatNavigation(r, config);
    EntryVisibleByRank(r, config, i);
    assert config[i] in config;
  }

  /** GUEST's menu holds the "Dashboard" entry and nothing else. */
  lemma GuestSeesOnlyDashboard(e: NavItem)
    ensures e in GetFilteredNavigation(GUEST) <==> e == NavigationConfig()[0]
  {
    ConfigShape();
    GuestSeesOnlyFirst(NavigationConfig(), e);
  }

  lemma GuestSeesOnlyFirst(config: seq<NavItem>, e: NavItem)
    requires MenuShaped(config)
    ensures e in FilterNavigation(GUEST, config) <==> e == config[0]
  {
    FilterFlatNavigation(GUEST, config);
    forall i | 0 <= i < 7 ensures Visible(GUEST)(config[i]) <==> i == 0 {
      EntryVisibleByRank(GUEST, config, i);
      OnlyFirstEntryRanksZero(i);
    }
    assert config[0] in config;
    if e in config {
      var i :| 0 <= i < |config| && config[i] == e;
      assert Visible(GUEST)(config[i]) <==> i == 0;
    }
  }

  lemma OnlyFirstEntryRanksZero(i: nat)
    requires i < 7
    ensures EntryRank(i) == 0 <==> i == 0
  {
  }

  /** The top-ranked role (MASTER) sees the whole menu, in its declared order. */
  lemma TopRankSeesEverything(r: UserRole)
    requires Rank(r) == Rank(MASTER)
    ensures GetFilteredNavigation(r) == NavigationConfig()
  {
    ConfigShape();
    TopRankSeesAllOf(r, NavigationConfig());
  }

  lemma TopRankSeesAllOf(r: UserRole, config: seq<NavItem>)
    requires Rank(r) == Rank(MASTER) && MenuShaped(config)
    ensures FilterNavigation(r, config) == config
  {
    forall i | 0 <= i < |config| ensures config[i].items.None? && Visible(r)(config[i]) {
      EntryVisibleByRank(r, config, i);
    }
    FilterNavigationKeepsAll(r, config);
  }

  /** A higher-ranked role's menu contains a lower-ranked role's menu, in the same order. */
  lemma MenusGrowWithRank(lower: UserRole, higher: UserRole)
    requires Rank(lower) <= Rank(higher)
    ensures Seqs.IsSubsequence(GetFilteredNavigation(lower), GetFilteredNavigation(higher))
  {
    ConfigShape();
    MenusGrowIn(lower, higher, NavigationConfig());
  }

  lemma MenusGrowIn(lower: UserRole, higher: UserRole, config: seq<NavItem>)
    requires Rank(lower) <= Rank(higher) && MenuShaped(config)
    ensures Seqs.IsSubsequence(FilterNavigation(lower, config), FilterNavigation(higher, config))
  {
    FilterFlatNavigation(lower, config);
    FilterFlatNavigation(higher, config);
    forall i | 0 <= i < |config| && Visible(lower)(config[i]) ensures Visible(higher)(config[i]) {
      EntryVisibleByRank(lower, config, i);
      EntryVisibleByRank(higher, config, i);
    }
    Seqs.FilterMonotone(config, Visible(lower), Visible(higher));
  }
}
