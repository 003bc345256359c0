# Folheto Digital dashboard: access control and form logic in Dafny

This project models the decision logic of the Folheto Digital intern dashboard, a Next.js and
React front end, and proves properties of it. It covers:

- **The role-based access control engine.** This is the closed set of roles (MASTER, ADMIN,
  USER, GUEST) and of permissions, and the static matrix from roles to permission lists. It
  includes `hasPermission`, `hasAllPermissions` and `hasAnyPermission`, the per-role
  navigation filter, and the `usePermissions` hook that binds the checks to the signed-in
  user's role string. It also covers the two guards: `PermissionGuard` renders children or a
  fallback; `RouteGuard` renders the page or a spinner, and on denial toasts and then
  redirects.
- **Redirect decisions.** These are the request middleware (path prefix and `accessToken`
  cookie), the login target and `checkUserStatus` of the auth context, and
  `DashboardProtectedRoute`'s hold on a guest without a company.
- **Small utilities inside components and hooks:**
  - the phone mask and validation chain of the "new emulator" dialog;
  - the role badge and initials of the sidebar's user menu;
  - the tag picker's search, toggle and remove;
  - the emulator summary cards;
  - the emulator and campaign query keys, `enabled` rules, paging defaults and cache-list
    updaters;
  - the date-time picker's slot table and `HH:MM` check;
  - the company hooks' retry rule and company derivations;
  - the leads table's search.

One Dafny module models each source file. The modules share these helpers:

- `Wrappers`: `Option`.
- `Seqs`: `Filter`, `Map`, subsequences.
- `Text`: digits, ASCII case mapping, substring search and JavaScript whitespace.
- `Ui`: what a component renders (`View`). It also holds the `EffectLog` class. Toasts (`toast.*`)
  and navigations (`router.push`) are appended to it in the order the code issues them.
- `Queries`: react-query keys as sequences, and prefix selection of keys.

Component state the source updates with `useState` setters is a class whose methods change its
fields. These are the emulator form, the picker's date and time, the tag picker's popover and
search text, and the auth provider's user and loading flag. Handlers are modelled as if each
setter took effect at once; handlers read only values from before their own updates, so this
changes nothing observable. Pure expressions become functions, and the properties are lemmas
about those functions.

The signed-in user is passed in as a snapshot (`Option<User>`, with `companyId` and `role`
optional). A permission check on a role string that is not one of the four keys is modelled as
`Throws`. The hook does not validate the role, so `ROLE_PERMISSIONS[role]` is `undefined` and
`.includes` on it raises a TypeError. Over an empty list, `every` and `some` never make the
call, so those checks return even for an unknown role.

Two consequences of the code are worth stating on their own:

- **Unknown roles.** An unknown role string is not mapped to GUEST. Only a missing or empty role is (`UsePermissions.UserRoleName`), and a check on any other string throws (`UsePermissions.UnknownRoleChecks`).
- **No loading state.** `RouteGuard` does not read `isLoading`. With no user yet it decides as GUEST. On a page guarded by any permission other than `dashboard.view`, it shows the spinner and redirects (`RouteGuard.SignedOutIsRedirected`).

## Model

| member | source | states |
|---|---|---|
| Permissions.LookupRole | src/lib/permissions.ts:39-160 | a role string finds an entry exactly when it is one of the four role keys, and then the role with that key |
| Permissions.RolePermissions | src/lib/permissions.ts:39-160 | every role's list starts with `dashboard.view`, and no list contains `lead.create` |
| Permissions.HasAllPermissions | src/lib/permissions.ts:235-237 | the all-of check holds exactly when every listed permission is held |
| Permissions.HasAnyPermission | src/lib/permissions.ts:240-242 | the any-of check holds exactly when some listed permission is held |
| Permissions.EmptyRequirement | src/lib/permissions.ts:235-242 | over the empty list, all-of grants and any-of denies, for every role |
| Permissions.AllImpliesAny | src/lib/permissions.ts:235-242 | for a non-empty list, all-of implies any-of |
| Permissions.HasPermissionByRank | src/lib/permissions.ts:39-160 | `hasPermission` agrees with an independent table giving each permission the least role that holds it (none for `lead.create`): a role holds a permission exactly when it ranks at least that high |
| Permissions.AdminPermissionsByGroup | src/lib/permissions.ts:90-128 | ADMIN's list holds exactly dashboard view, the campaign, leads, bot, channels, reports and settings groups, and emulator view and refresh |
| Permissions.MasterPermissionsByGroup | src/lib/permissions.ts:40-88 | MASTER's list holds exactly every group including the system group, and the five emulator permissions |
| Permissions.MatrixIsChain | src/lib/permissions.ts:39-160 | the matrix is a chain: what a role holds, every higher-ranked role holds (GUEST, USER, ADMIN, MASTER) |
| Permissions.LeadCreateGrantedToNobody | src/lib/permissions.ts:14 | `lead.create` is declared but held by no role |
| Permissions.GuestHoldsOnlyDashboardView | src/lib/permissions.ts:156-159 | GUEST holds `dashboard.view` and nothing else |
| Permissions.MasterHoldsAllButLeadCreate | src/lib/permissions.ts:40-88 | MASTER holds every permission except `lead.create` |
| Permissions.SystemNamespace | src/lib/permissions.ts:27-36 | the permissions whose id starts with `system.` are exactly the five system permissions |
| Permissions.SystemPermissionsAreMasterOnly | src/lib/permissions.ts:75-80 | every `system.*` permission is held by MASTER and by no other role |
| Permissions.SystemAdminHeldByMasterOnly | src/lib/permissions.ts:76 | `system.admin` is held exactly by MASTER |
| Permissions.FilterNavigationSpec | src/lib/permissions.ts:245-254 | over any table, the kept entries (sub-items aside) are a subsequence of the table; each is a table entry whose permissions are all held, with its sub-items filtered by the same rule; every such entry is kept |
| Permissions.FilterFlatNavigation | src/lib/permissions.ts:245-254 | for a table without sub-items, the result is the order-preserving subsequence of entries whose permissions are all held, and an entry is in it exactly when it qualifies |
| Permissions.FilterNavigationKeepsAll | src/lib/permissions.ts:245-254 | a flat table a role may wholly see is returned unchanged |
| Permissions.ConfigIsFlat | src/lib/permissions.ts:176-226 | no menu entry has sub-items, so every `items` stays undefined |
| Permissions.GetFilteredNavigation | src/lib/permissions.ts:245-254 | `getFilteredNavigation(role)` is the order-preserving subsequence of the menu whose required permissions the role holds |
| Permissions.ConfigShape | src/lib/permissions.ts:176-226 | the menu has seven flat entries, each requiring one permission, in menu order |
| Permissions.EntryPermissionByRank | src/lib/permissions.ts:176-226 | a menu entry's permission is held exactly by the roles ranking at least as high as the entry needs |
| Permissions.EntryVisibleByRank | src/lib/permissions.ts:246-247 | in a menu-shaped table an entry is visible exactly when the role ranks high enough |
| Permissions.MenuMembership | src/lib/permissions.ts:176-226 | menu entry i is shown to a role exactly when its rank is at least the entry's: Dashboard for all, Bot from ADMIN, Sistema for MASTER only, the rest from USER |
| Permissions.GuestSeesOnlyDashboard | src/lib/permissions.ts:176-183 | GUEST's menu contains the Dashboard entry and nothing else |
| Permissions.TopRankSeesEverything | src/lib/permissions.ts:176-226 | MASTER's menu is the whole menu, in order |
| Permissions.MenusGrowWithRank | src/lib/permissions.ts:245-249 | a higher-ranked role's menu contains a lower-ranked role's menu as a subsequence |
| UsePermissions.UserRoleName | src/hooks/usePermissions.ts:15 | no user, no role or an empty role reads GUEST; any other role string is kept unchanged, known or not |
| UsePermissions.CheckPermission | src/hooks/usePermissions.ts:23 | the bound check throws exactly for a role string that is not one of the four keys, and otherwise answers `hasPermission` for that role |
| UsePermissions.CheckAll | src/hooks/usePermissions.ts:24 | `every` throws exactly for an unknown role and a non-empty list |
| UsePermissions.CheckAny | src/hooks/usePermissions.ts:25 | `some` throws exactly for an unknown role and a non-empty list |
| UsePermissions.BoundChecksAgree | src/hooks/usePermissions.ts:23-25 | for one of the four roles, the bound all-of and any-of checks return what the library checks say |
| UsePermissions.UnknownRoleChecks | src/hooks/usePermissions.ts:23-25 | for any other role string a single check throws, and a list check throws unless the list is empty |
| UsePermissions.UnknownRoleIsNotGuest | src/hooks/usePermissions.ts:15 | a non-empty unknown role is not mapped to GUEST, and its checks throw |
| UsePermissions.NoUserIsGuest | src/hooks/usePermissions.ts:15 | a signed-out visitor is checked as GUEST |
| UsePermissions.GetUserPermissions | src/hooks/usePermissions.ts:31 | an unknown role gets the empty list; a permission is in the list exactly when the user's check grants it |
| UsePermissions.UserPermissionsMatchChecks | src/hooks/usePermissions.ts:31 | the permission list a user gets (empty for an unknown role) contains exactly what their checks grant |
| UsePermissions.FilteredNavigation | src/hooks/usePermissions.ts:28 | the hook's filtered menu returns exactly for a known role and throws otherwise |
| UsePermissions.Can | src/hooks/usePermissions.ts:34-52 | a `can*` helper throws exactly for an unknown role, and grants exactly when the role holds the helper's permission |
| UsePermissions.CreateLeadNeverGranted | src/hooks/usePermissions.ts:45 | `canCreateLead()` never returns true |
| UsePermissions.AccessSystemIffMaster | src/hooks/usePermissions.ts:40 | `canAccessSystem()` returns true exactly for the role MASTER |
| UsePermissions.ConfigureBotIffMasterOrAdmin | src/hooks/usePermissions.ts:37 | `canConfigureBot()` returns true exactly for MASTER and ADMIN |
| UsePermissions.ExactlyOneRoleTest | src/hooks/usePermissions.ts:56-59 | for a known role exactly one of the four role tests holds, the one naming it (each role stated on its own); for any other string none does |
| PermissionGuard.ScalarIgnoresRequireAll | src/components/PermissionGuard.tsx:45-51 | a single permission is decided by `hasPermission` alone, whatever `requireAll` is |
| PermissionGuard.Access | src/components/PermissionGuard.tsx:45-51 | the dispatch throws exactly for an unknown role and a requirement other than the empty array; the empty array gives `requireAll` itself |
| PermissionGuard.AccessForKnownRole | src/components/PermissionGuard.tsx:45-51 | for a known role the dispatch never throws, and an array is judged all-of when `requireAll` holds and any-of otherwise |
| PermissionGuard.EmptyArrayAccess | src/components/PermissionGuard.tsx:46-48 | an empty array passes under all-of and fails under any-of, for every role string |
| PermissionGuard.Render | src/components/PermissionGuard.tsx:35-58 | the children show exactly when access is granted, and the fallback (default null) exactly when it is denied |
| PermissionGuard.Defaults | src/components/PermissionGuard.tsx:38-39 | leaving out `requireAll` means true, and leaving out `fallback` means null |
| PermissionGuard.EmptyArrayRender | src/components/PermissionGuard.tsx:46-48 | an empty array shows the children under all-of (also by default) and the fallback under any-of |
| PermissionGuard.RenderForKnownRole | src/components/PermissionGuard.tsx:53-57 | for a known role the guard never throws and shows the children exactly when the role qualifies |
| RouteGuard.Render | src/components/RouteGuard.tsx:72-90 | the page shows exactly when access is granted and the spinner exactly when it is denied |
| RouteGuard.Decision | src/components/RouteGuard.tsx:51-57 | the decision throws exactly for an unknown role and a non-empty requirement, and never for a signed-out visitor |
| RouteGuard.DenialEffects | src/components/RouteGuard.tsx:59-68 | a denial is the error toast naming the role (when `showToast`, default true) followed by the push to `redirectTo` (default the dashboard), and nothing else |
| RouteGuard.RunEffect | src/components/RouteGuard.tsx:48-69 | one effect run appends exactly the denial effects (or none when granted, or none when a check throws) to the log |
| RouteGuard.EffectMatchesRender | src/components/RouteGuard.tsx:49-57 | the effect and the render use the same decision: no effects exactly when the page shows, some exactly when the spinner shows |
| RouteGuard.DenialEffectsShape | src/components/RouteGuard.tsx:59-68 | a denial pushes once, as its last effect, to `redirectTo`, and toasts once first exactly when `showToast` holds |
| RouteGuard.DefaultDenial | src/components/RouteGuard.tsx:41-43 | with the defaults, a denial toasts "Acesso negado" and then goes to `/intern/dashboard` |
| RouteGuard.SignedOutIsGuest | src/components/RouteGuard.tsx:45 | with no user the decision is whether GUEST qualifies, and it never throws |
| RouteGuard.SignedOutIsRedirected | src/components/RouteGuard.tsx:45-80 | with no user, a page guarded by any single permission other than `dashboard.view` shows the spinner and the effect redirects |
| Middleware.RootGoesToLogin | middleware.ts:7-9 | `/` goes to `/auth/login`, token or not |
| Middleware.Middleware | middleware.ts:3-27 | the answer is pass-through or a redirect to login or to `/dashboard`; the dashboard redirect needs a token, and a login redirect happens only at the root or without a token |
| Middleware.ProtectedWithoutToken | middleware.ts:17-19 | a path under `/dashboard` or `/intern` without a non-empty token goes to `/auth/login` |
| Middleware.AuthPageWithToken | middleware.ts:22-24 | the login or register page with a token goes to `/dashboard` |
| Middleware.Decision | middleware.ts:3-27 | the redirect to login, the redirect to the dashboard and pass-through each happen exactly under their own condition, so one rule fires at most |
| Middleware.AuthRoutesNotProtected | middleware.ts:11-14 | no auth page is a protected path |
| Middleware.PrefixNotSegment | middleware.ts:17 | the protected test is a raw prefix: `/internal` and `/dashboard-old` are protected |
| Middleware.EmptyTokenIsNoToken | middleware.ts:4 | an empty cookie behaves as a missing one |
| Middleware.MatchedPaths | middleware.ts:29-37 | every path the matcher runs on is an auth page or protected, and the root is not matched |
| Middleware.MatchedDecision | middleware.ts:17-24 | on matched paths, login redirects are exactly tokenless non-auth visits and dashboard redirects exactly signed-in auth-page visits |
| AuthContext.LoginTarget | src/contexts/AuthContext.tsx:86-90 | a login goes to `/intern/pending-company` exactly for a GUEST with a missing or empty company id, and to `/intern/dashboard` otherwise |
| AuthContext.StatusRedirect | src/contexts/AuthContext.tsx:127-138 | a status redirect needs a user, goes where that user's login would land, and never to the page already shown |
| AuthContext.NoUserNoRedirect | src/contexts/AuthContext.tsx:128 | without a user the status check never navigates |
| AuthContext.StatusRedirectCases | src/contexts/AuthContext.tsx:127-138 | a guest without a company off the pending page is sent there; anyone else on it is sent to the dashboard; nobody else moves |
| AuthContext.StatusRedirectSettles | src/contexts/AuthContext.tsx:127-138 | after following a status redirect, the status check is quiet |
| AuthContext.LoginTargetIsSettled | src/contexts/AuthContext.tsx:86-90 | the page a login lands on is one the status check leaves alone |
| AuthContext.LoginErrorMessage | src/contexts/AuthContext.tsx:93 | the login error text is the server's non-empty message, else "Erro ao fazer login" |
| AuthContext.LoginEffectsShape | src/contexts/AuthContext.tsx:83-94 | a successful login toasts success and then navigates once; a failed one only toasts the error |
| AuthContext.AuthProvider.constructor | src/contexts/AuthContext.tsx:37-38 | the provider starts with no user and loading |
| AuthContext.AuthProvider.Login | src/contexts/AuthContext.tsx:74-97 | success stores the fetched user and logs the login effects; failure keeps the user and reports the message |
| AuthContext.AuthProvider.CheckUserStatus | src/contexts/AuthContext.tsx:127-138 | the log gains exactly the status redirect, if any |
| AuthContext.AuthProvider.Logout | src/contexts/AuthContext.tsx:140-150 | the user becomes null (not authenticated), and the log gains the push to `/auth/login` and then the info toast |
| DashboardProtectedRoute.Render | src/components/DashboardProtectedRoute.tsx:25-37 | the spinner exactly while loading, nothing exactly for a loaded guest without a company, the page otherwise |
| DashboardProtectedRoute.RunEffect | src/components/DashboardProtectedRoute.tsx:14-23 | the effect appends its events, a push to the pending page for a held-back guest, to the log |
| DashboardProtectedRoute.EffectMatchesRender | src/components/DashboardProtectedRoute.tsx:14-35 | the effect navigates, once, exactly when the render shows nothing |
| DashboardProtectedRoute.SignedOutSeesPage | src/components/DashboardProtectedRoute.tsx:37 | without a user the page shows once loading ends |
| DashboardProtectedRoute.AgreesWithStatusCheck | src/components/DashboardProtectedRoute.tsx:16 | the held-back guest is the same one the auth context's status check sends to the pending page |
| CreateEmulator.FormatLength | src/components/emulators/CreateEmulator.tsx:95-107 | the masked text never exceeds the field's `maxLength` of 15 |
| CreateEmulator.Mask | src/components/emulators/CreateEmulator.tsx:100-106 | the mask is at most 15 characters, empty exactly for no digits, and otherwise opens with `(` |
| CreateEmulator.FormatPhoneInput | src/components/emulators/CreateEmulator.tsx:95-107 | the formatted text fits the 15-character field and is empty exactly when the input has no digits |
| CreateEmulator.MaskDigits | src/components/emulators/CreateEmulator.tsx:100-106 | the digits of the mask are the first (at most eleven) digits it was given |
| CreateEmulator.MaskTruncate | src/components/emulators/CreateEmulator.tsx:105 | digits after the eleventh do not change the mask |
| CreateEmulator.FormatDigits | src/components/emulators/CreateEmulator.tsx:97-106 | the digits of the formatted text are the first min(n, 11) digits typed |
| CreateEmulator.FormatIdempotent | src/components/emulators/CreateEmulator.tsx:95-107 | formatting formatted text changes nothing |
| CreateEmulator.FullPhoneIsMasked | src/components/emulators/CreateEmulator.tsx:105 | ten or eleven digits are written `(DD) DDDDD-DDDD` with digits everywhere but the separators |
| CreateEmulator.FullPhoneMaskIsFixed | src/components/emulators/CreateEmulator.tsx:95-107 | a complete masked phone is left exactly as it is |
| CreateEmulator.Validate | src/components/emulators/CreateEmulator.tsx:69-89 | a form is accepted exactly when the name and phone are not blank, a company is chosen and the phone has 10 or 11 digits; a rejection carries one of the four messages |
| CreateEmulator.ValidationChain | src/components/emulators/CreateEmulator.tsx:69-89 | each message is shown exactly when the checks before it pass and its own fails, and nothing is shown exactly when the form is accepted |
| CreateEmulator.BlankPhoneHasNoDigits | src/components/emulators/CreateEmulator.tsx:74-86 | a blank phone has no digits, so the blank check only chooses which message shows |
| CreateEmulator.MaskedPhoneLengthCheck | src/components/emulators/CreateEmulator.tsx:85-89 | on masked text, the length check fails only for fewer than ten typed digits |
| CreateEmulator.ErrorDetail | src/components/emulators/CreateEmulator.tsx:56-59 | the detail is the non-empty server message, else the non-empty error message, else "Erro desconhecido ao criar emulador" |
| CreateEmulator.CreateErrorMessage | src/components/emulators/CreateEmulator.tsx:55-60 | the error toast is the fixed prefix, then the server message, else the error's message, else a fixed text |
| CreateEmulator.CreateEmulatorModal.constructor | src/components/emulators/CreateEmulator.tsx:30-34 | the form starts empty with the default company, and the phone field is masked |
| CreateEmulator.CreateEmulatorModal.ResetOnOpen | src/components/emulators/CreateEmulator.tsx:37-45 | opening clears the form back to the default company; closing changes nothing |
| CreateEmulator.CreateEmulatorModal.SetName | src/components/emulators/CreateEmulator.tsx:132 | typing a name changes only the name, and the phone stays masked |
| CreateEmulator.CreateEmulatorModal.SetCompany | src/components/emulators/CreateEmulator.tsx:157 | choosing a company changes only the company, and the phone stays masked |
| CreateEmulator.CreateEmulatorModal.HandlePhoneChange | src/components/emulators/CreateEmulator.tsx:109-112 | the phone becomes the masked input and stays masked; the other fields are kept |
| CreateEmulator.CreateEmulatorModal.HandleCreateEmulator | src/components/emulators/CreateEmulator.tsx:65-93 | the form is submitted exactly when it validates, and the log gains exactly the first failing check's toast |
| CreateEmulator.CreateEmulatorModal.OnCreated | src/components/emulators/CreateEmulator.tsx:49-54 | success toasts the new emulator's name, hands `false` to `onOpenChange`, clears the whole form, company included, and calls `onSuccess` exactly when it was passed |
| CreateEmulator.CreateEmulatorModal.OnCreateFailed | src/components/emulators/CreateEmulator.tsx:55-62 | failure toasts the error message |
| NavUser.GetRoleInfo | src/components/sidebar/nav-user.tsx:58-82 | a missing or empty role gives "Usuário" in gray; a known role in any case gives its label and colour; an unknown role gives its own text in gray |
| NavUser.RoleInfoIgnoresCase | src/components/sidebar/nav-user.tsx:65-67 | letter case does not change a known role's badge |
| NavUser.RoleColorsDistinct | src/components/sidebar/nav-user.tsx:59-80 | no role colour is the default gray, and no two roles share a label or a colour |
| NavUser.RoleNameBadge | src/components/sidebar/nav-user.tsx:59-80 | each exact role name gets its role's badge |
| NavUser.MissingRoleLabelIsNotUserBadge | src/components/sidebar/nav-user.tsx:65-66 | a missing role reads "Usuário" like USER but keeps the gray colour |
| NavUser.Split | src/components/sidebar/nav-user.tsx:89 | `split(' ')` gives at least one piece, and no piece contains a space |
| NavUser.JoinSplit | src/components/sidebar/nav-user.tsx:89 | joining the pieces of `split(' ')` with spaces gives back the name |
| NavUser.SplitPiecesHaveNoSpace | src/components/sidebar/nav-user.tsx:89 | no piece of the split contains a space |
| NavUser.HeadsAreWordStarts | src/components/sidebar/nav-user.tsx:89-91 | the first characters of the pieces are exactly the characters that start a word |
| NavUser.GetInitials | src/components/sidebar/nav-user.tsx:87-94 | the initials are the first two (or fewer) word starts, upper-cased |
| NavUser.InitialsAreUpperCase | src/components/sidebar/nav-user.tsx:92 | the initials are upper case |
| NavUser.WordStartsConcat | src/components/sidebar/nav-user.tsx:89-91 | the word starts of a concatenation are those of its halves, the second read from where the first ended |
| NavUser.DoubleSpaceAddsNothing | src/components/sidebar/nav-user.tsx:89-91 | two spaces give the same initials as one: an empty word adds no character |
| MultiSelectTags.FilteredOptions | src/components/ui/multi-select-tags.tsx:32-40 | the shown options are a subsequence of the options, and an option shows exactly when its lower case contains the lower-cased search |
| MultiSelectTags.EmptySearchShowsAll | src/components/ui/multi-select-tags.tsx:33 | the empty-search shortcut agrees with filtering: every option contains "" |
| MultiSelectTags.SearchIgnoresCase | src/components/ui/multi-select-tags.tsx:38 | the search ignores letter case |
| MultiSelectTags.NarrowingSearch | src/components/ui/multi-select-tags.tsx:35-39 | a longer search shows a subsequence of what the shorter one shows |
| MultiSelectTags.HandleRemove | src/components/ui/multi-select-tags.tsx:49-51 | removal keeps the other tags in order and drops every copy of the option |
| MultiSelectTags.HandleSelect | src/components/ui/multi-select-tags.tsx:42-47 | an absent option is appended at the end of the selection; a selected option is removed as `handleRemove` removes it, so the other tags keep their order |
| MultiSelectTags.SelectKeepsNoDuplicates | src/components/ui/multi-select-tags.tsx:42-46 | toggling keeps a duplicate-free selection duplicate-free |
| MultiSelectTags.SelectTwiceRestores | src/components/ui/multi-select-tags.tsx:42-46 | selecting an absent tag twice restores the selection |
| MultiSelectTags.RemoveIsDeselect | src/components/ui/multi-select-tags.tsx:42-51 | removing a selected tag is what selecting it does |
| MultiSelectTags.TagPicker.constructor | src/components/ui/multi-select-tags.tsx:29-30 | the popover starts closed with an empty search |
| MultiSelectTags.TagPicker.SetOpen | src/components/ui/multi-select-tags.tsx:29 | opening or closing keeps the search text |
| MultiSelectTags.TagPicker.SetSearchValue | src/components/ui/multi-select-tags.tsx:30 | typing keeps the popover state |
| MetricCards.CountWithStatus | src/components/emulators/metric-cards.tsx:22-23 | a status count is at most the total |
| MetricCards.CountsAddUp | src/components/emulators/metric-cards.tsx:10-23 | over the component's declared two statuses, the connected and disconnected counts add up to the total |
| MetricCards.LatestFrom | src/components/emulators/metric-cards.tsx:25-28 | the `reduce` never goes below its starting instant |
| MetricCards.LatestFromIsMaximum | src/components/emulators/metric-cards.tsx:25-28 | the fold gives at least its start and every parseable timestamp, and is the start or one of them |
| MetricCards.NotAvailableIff | src/components/emulators/metric-cards.tsx:30-33 | "N/A" shows exactly when no emulator has a parseable timestamp after the epoch (the empty list included) |
| MetricCards.FormattedLastUpdate | src/components/emulators/metric-cards.tsx:30-33 | "N/A" exactly when the latest instant is the epoch; any shown instant is the latest and after the epoch |
| MetricCards.ShownInstantIsLatest | src/components/emulators/metric-cards.tsx:25-33 | a shown instant is one emulator's timestamp, and none is later |
| UseEmulators.KeyHierarchy | src/hooks/emulators/useEmulators.ts:55-61 | `all` selects every key; `lists()` selects each list key and no detail key; `details()` selects each detail key and no list key |
| UseEmulators.KeysSeparate | src/hooks/emulators/useEmulators.ts:58-60 | different companies and ids give different keys |
| UseEmulators.ByCompanyQuery | src/hooks/emulators/useEmulators.ts:132-138 | enabled exactly when not switched off and the company id is non-empty, under `lists()` |
| UseEmulators.ByIdQuery | src/hooks/emulators/useEmulators.ts:153-158 | enabled exactly when not switched off and the id is present and non-empty, under `details()` |
| UseEmulators.MissingIdIsDisabled | src/hooks/emulators/useEmulators.ts:154-156 | a missing id and an empty one share a key, and neither query runs |
| UseEmulators.StaleTimeDefault | src/hooks/emulators/useEmulators.ts:137 | a missing stale time is five minutes, and an explicit 0 is kept |
| UseEmulators.Toggle | src/hooks/emulators/useEmulators.ts:335-338 | the new status is ONLINE or OFFLINE, and OFFLINE exactly when the status was ONLINE |
| UseEmulators.ToggleTwice | src/hooks/emulators/useEmulators.ts:335-338 | toggling twice restores ONLINE and OFFLINE; ERROR and UNKNOWN end up OFFLINE |
| UseEmulators.ToggleRequest | src/hooks/emulators/useEmulators.ts:339 | the request names the emulator and always changes its status |
| UseEmulators.UpdateList | src/hooks/emulators/useEmulators.ts:204-211 | no cached list stays none; otherwise the length is kept, every entry with the id is replaced and the others stay |
| UseEmulators.DeleteList | src/hooks/emulators/useEmulators.ts:273-278 | no cached list stays none; otherwise the entries with the id go and the rest keep their order |
| UseEmulators.UpdateIdempotent | src/hooks/emulators/useEmulators.ts:240-247 | applying the same update twice is applying it once |
| UseEmulators.DeleteIdempotent | src/hooks/emulators/useEmulators.ts:273-278 | deleting twice is deleting once |
| UseEmulators.DeleteAfterUpdate | src/hooks/emulators/useEmulators.ts:204-278 | after an update that keeps the id, deleting it leaves what deleting alone would |
| UseCampaign.ListKeys | src/hooks/campaign/useCampaign.tsx:58-61 | `list(f)` extends `lists()`, which extends `all`, and list keys differ exactly when the filters do |
| UseCampaign.ScopedKeysOutsideLists | src/hooks/campaign/useCampaign.tsx:62-66 | the company, emulator, tag, status and detail keys start with `all` but not with `lists()`, and select only their own scope and id |
| UseCampaign.ListQuery | src/hooks/campaign/useCampaign.tsx:173-179 | the list query is always enabled, with five minutes' stale time, under `lists()` |
| UseCampaign.NoFiltersIsEmptyFilters | src/hooks/campaign/useCampaign.tsx:174 | no filters share the cache entry of the empty filter object |
| UseCampaign.FetchCampaignsParams | src/hooks/campaign/useCampaign.tsx:79-80 | the page and limit sent are never 0 |
| UseCampaign.PagingDefaults | src/hooks/campaign/useCampaign.tsx:76-85 | page 1 and limit 10 exactly when the value is missing or 0, the value otherwise; the search is passed on |
| UseCampaign.Returned | src/hooks/campaign/useCampaign.tsx:279-282 | without data the hook gives no campaigns, total 0, page 1 and limit 10; with data, its campaigns and total |
| UseCampaign.ReturnedPaging | src/hooks/campaign/useCampaign.tsx:281-282 | a response's page and limit are kept unless 0 |
| UseCampaign.CampaignQuery | src/hooks/campaign/useCampaign.tsx:322-328 | enabled exactly when not switched off and the id is present and non-empty |
| UseCampaign.ScopedQuery | src/hooks/campaign/useCampaign.tsx:343-412 | the company, emulator and tag queries need a non-empty id; the status query runs whenever not switched off |
| UseCampaign.StatusQueryNeedsNoIdCheck | src/hooks/campaign/useCampaign.tsx:406-412 | for the three status strings the status query's rule agrees with the id rule |
| UseCompanies.RetryRule | src/hooks/companies/useCompanies.tsx:90-94 | a 401 is never retried; anything else is retried exactly for counts below 3 |
| UseCompanies.Retry | src/hooks/companies/useCompanies.tsx:90-94 | the query is retried exactly when the failure is not a 401 and fewer than three failures came before |
| UseCompanies.RetryGivesUpForGood | src/hooks/companies/useCompanies.tsx:90-94 | once the retry rule refuses, it refuses for every later count |
| UseCompanies.CompanyIdOf | src/hooks/companies/useCompanies.tsx:133-136 | the company id is present exactly when `hasCompany`, and is then the user's non-empty id |
| UseCompanies.CompaniesOptions | src/hooks/companies/useCompanies.tsx:151-169 | no option without a company, else exactly one carrying the company id |
| UseCompanies.Companies | src/hooks/companies/useCompanies.tsx:172-186 | no company without a company id, else exactly one with that id |
| UseCompanies.UserCompany | src/hooks/companies/useCompanies.tsx:202-214 | the company is null exactly when there is no company id, and otherwise has that id |
| UseCompanies.DerivationsAgree | src/hooks/companies/useCompanies.tsx:151-214 | the options carry the companies, and both lists hold the user's company |
| Calendar20.PaddedTimeAccepted | src/components/ui/calendar-20.tsx:35 | every time of day written as padded pairs passes the check and reads back as itself |
| Calendar20.SlotIsClockTime | src/components/ui/calendar-20.tsx:31-36 | slot i passes the custom-time check and names 09:00 plus 15 times i minutes |
| Calendar20.TimeSlotsTable | src/components/ui/calendar-20.tsx:31-36 | 37 slots from "09:00" to "18:00", all valid times, strictly increasing |
| Calendar20.ClockTimeInDay | src/components/ui/calendar-20.tsx:58 | an accepted time has an hour below 24 and a minute below 60 |
| Calendar20.TimeSlots | src/components/ui/calendar-20.tsx:31-36 | 37 slots, slot i a valid time naming 09:00 plus 15 times i minutes |
| Calendar20.IsClockTime | src/components/ui/calendar-20.tsx:58 | an accepted time is four or five characters, a colon third from the end and digits everywhere else |
| Calendar20.Picker.constructor | src/components/ui/calendar-20.tsx:24-29 | the date defaults to 12 June 2025 and a missing or empty time to none; the custom field starts closed and empty |
| Calendar20.Picker.HandleDateSelect | src/components/ui/calendar-20.tsx:43-46 | the new date is stored, the rest kept |
| Calendar20.Picker.HandleTimeSelect | src/components/ui/calendar-20.tsx:48-53 | the slot becomes the time, the custom field closes and clears, the slot is reported, and a slot is a valid time |
| Calendar20.Picker.HandleCustomTimeChange | src/components/ui/calendar-20.tsx:55-62 | the text is always kept; it becomes the time and is reported exactly when the check accepts it; a well-formed time stays well formed |
| Calendar20.Picker.ToggleCustomTime | src/components/ui/calendar-20.tsx:64-69 | visibility flips, and the text clears only when the field was open |
| LeadsTable.FilteredLeads | src/components/tables/leads-table.tsx:19-25 | the shown leads are a subsequence, and a lead shows exactly when its name, company, tag or status contains the term, ignoring case |
| LeadsTable.EmptyTermKeepsAll | src/components/tables/leads-table.tsx:19-25 | an empty term keeps every lead |
| LeadsTable.DependsOnLowerTermOnly | src/components/tables/leads-table.tsx:21-24 | only the term's lower case matters |
| LeadsTable.LongerTermNarrows | src/components/tables/leads-table.tsx:19-25 | typing more never brings a lead back |

## Left out

- HTTP, axios and react-query. The model leaves out fetching, mutations, cache writes, invalidation and the retry loop itself. It keeps the keys, the `enabled` and stale-time options, the retry predicate and the cache-list updaters as values.
- Object parts of query keys are compared by equality. react-query's partial matching of objects inside keys is not modelled, and no key in this model relies on it.
- The session and token lifecycle is not modelled: `checkAuth`, localStorage, cookies, and the `setTimeout` that runs `checkUserStatus` after `getMe`. The user is a snapshot passed in. `isLoading` is changed only by that lifecycle, so the provider's methods keep it.
- `register` is not modelled. It only calls the backend, toasts and navigates.
- Toasts and `router.push` are modelled only as entries in the effect log. The model leaves out how and when React runs effects, and the `duration` option of the toast.
- The callbacks `onDateSelect` and `onTimeSelect`, and the emulator dialog's `onOpenChange` and `onSuccess`, are modelled only as what the handlers hand them (`reported`, `closeWith`, `notified`). What the parent component does with them is not modelled.
- Stale closures are not modelled. The code reads state values from the render that created the handler, and the model takes each handler's reads from the current fields.
- Presentation-only markup is not modelled, nor are the components that only compose others.
- Dates are not parsed or formatted. A timestamp is an integer count of milliseconds, and an unparseable `updatedAt` is `None`. `format(..., "dd/MM/yyyy HH:mm")` is not modelled: the card's instant is the integer.
- Case mapping is ASCII only, and there is no Unicode case folding.
- Strings are sequences of Unicode scalar values, while JavaScript indexes UTF-16 code units. A character outside the Basic Multilingual Plane is one element here and two code units there. `NavUser.GetInitials` therefore differs on such characters: for "😀 Ana", `n[0]` takes a lone high surrogate and the source gives "\uD83DA", while the model gives "😀A". `.slice(0, 2)` and the field's `maxLength` also count code units.
- The `\D` pattern and the `HH:MM` pattern are written as character predicates.
- In the tag picker, options are strings, so the `typeof option !== 'string'` branch cannot arise.
- Inherited object keys and lookups under them are not modelled: `roleMap["constructor"]` and `ROLE_PERMISSIONS["toString"]`. Only the four role names are keys.
- `console.log` and `console.error` calls are not modelled.
- The type mismatch between the emulator form and `CreateEmulatorInput` is not modelled. The form record is passed on as it is.
- `bookedDates` in the date-time picker is not modelled. It only decorates the calendar.
- The middleware's root rule (`/` goes to the login page) is modelled, but the matcher never runs the middleware on `/` (`Middleware.MatchedPaths`).
- `retry: 3` on the campaign queries is not modelled, nor are the queries' `refetchInterval` options.
- `UseCampaign.ScopedQuery` models the company, emulator, tag and status queries. The detail query is `UseCampaign.CampaignQuery`.
- MetricCards.CountsAddUp: states the counts only over the component's declared status type (`CONNECTED` or `DISCONNECTED`, metric-cards.tsx:10). Both pages that render the cards pass emulators whose status is typed ONLINE, OFFLINE, ERROR or UNKNOWN (the `useEmulators` data). An emulator with such a status matches neither filter, so as the dashboard runs both status cards show 0. The model does not show strings outside the declared type.
