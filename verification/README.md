# Role-based permissions of the AlmaMedical web client, in Dafny

This project models the role-based access control of the AlmaMedical clinic
web client (a Blazor application) and proves properties of it. It has three
parts, one module each:

- `RolePermissions` (`role_permissions.dfy`) is the permission matrix. It holds
  the closed enumeration of 38 permissions and the read-only table from role
  name (`SuperAdmin`, `TenantAdmin`, `Professional`, `Receptionist`,
  `Customer`) to the list of permissions that role is granted. On top of the
  table sit the queries `HasPermission`, `HasAnyPermission`,
  `HasAllPermissions`, `GetRolePermissions` and `GetPermissionDescription`.
  The table never changes after construction, so the module is made of
  values and functions.
- `CurrentUser` (`current_user.dfy`) is the per-session user holder, a class
  with mutable fields. It has the identity fields, the role, and the
  `OnRoleChanged` invocation list. `SetRole` notifies subscribers only when
  the role actually changes. Subscribers are objects of class
  `RoleChangedHandler`; object identity plays the part of delegate equality.
- `AuthorizedComponent` (`authorized_component.dfy`) is the base class of
  permission-aware pages. It registers its callback on initialisation and
  removes it on disposal. It counts one re-render request per notification.
  Its permission checks delegate to the matrix using the role the session
  holds at call time.

`wrappers.dfy` holds the `Option` type used for the nullable tenant id.

Of the 38 permissions, 19 have a Spanish label. The other 19 are described by
their enum name (`Unlabelled` in the model).

## Model

| member | source | states |
|---|---|---|
| RolePermissions.AllPermissionsEnumerates | Services/RolePermissionService.cs:6-67 | every permission value occurs in the enumeration that SuperAdmin's list is built from |
| RolePermissions.OrdinalIndexesEnumeration | Services/RolePermissionService.cs:6-61 | each permission sits in the enumeration at the position of its declaration |
| RolePermissions.AllPermissionsDistinct | Services/RolePermissionService.cs:6-67 | no permission occurs twice in the enumeration SuperAdmin's list is built from |
| RolePermissions.Ordinal | Services/RolePermissionService.cs:6-61 | the implicit underlying value of each enum constant is its declaration position, below 38 |
| RolePermissions.PermissionName | Services/RolePermissionService.cs:228 | `ToString()` of a permission is its enum constant's name, never empty |
| RolePermissions.GetRolePermissions | Services/RolePermissionService.cs:197-202 | an unknown role gets the empty list without failing; each of the five known roles gets a non-empty list; SuperAdmin's list is the full enumeration |
| RolePermissions.HasPermission | Services/RolePermissionService.cs:176-182 | true exactly when the permission occurs in the role's listed permissions; always false for an unknown role |
| RolePermissions.HasAnyPermission | Services/RolePermissionService.cs:185-188 | true exactly when some element of the list is granted to the role; false for an empty list |
| RolePermissions.HasAllPermissions | Services/RolePermissionService.cs:191-194 | true exactly when every element of the list is granted to the role; true for an empty list |
| RolePermissions.GetPermissionDescription | Services/RolePermissionService.cs:205-229 | total and never empty; for each of the 19 unlabelled permissions it is the enum name |
| RolePermissions.SuperAdminGrantedEverything | Services/RolePermissionService.cs:67 | SuperAdmin is granted every permission value |
| RolePermissions.SuperAdminHasAnyOfNonEmpty | Services/RolePermissionService.cs:185-188 | for SuperAdmin, HasAnyPermission holds exactly for non-empty lists |
| RolePermissions.UnknownRoleGrantedNothing | Services/RolePermissionService.cs:176-202 | a role outside the table is granted no permission, lists nothing and has an empty granted set |
| RolePermissions.HasAllImpliesHasAny | Services/RolePermissionService.cs:185-194 | for a non-empty list, holding all of it implies holding some of it |
| RolePermissions.CustomerGrantedExactly | Services/RolePermissionService.cs:167-172 | Customer's granted set is exactly {ViewAppointments, CreateAppointment} |
| RolePermissions.TenantAdminGrantedAllButPlans | Services/RolePermissionService.cs:69-109 | TenantAdmin is granted a permission exactly when it is not ManagePlans |
| RolePermissions.GrantedSetsNest | Services/RolePermissionService.cs:64-173 | Customer ⊆ Receptionist ⊆ Professional ⊆ TenantAdmin ⊆ SuperAdmin as granted sets |
| RolePermissions.DescriptionFallsBackExactlyWhenUnlabelled | Services/RolePermissionService.cs:205-229 | the description equals the enum name exactly for the 19 permissions the switch does not list |
| RolePermissions.DescriptionExamples | Services/RolePermissionService.cs:209-228 | ViewDashboard is described as "Ver panel principal"; EditAppointment falls back to "EditAppointment" |
| CurrentUser.RoleChangedHandler.Invoke | Base/AuthorizedComponentBase.cs:22-28 | one invocation of a role-change callback is counted once and records the role the session holds at that moment |
| CurrentUser.RemoveLast | Base/AuthorizedComponentBase.cs:45 | removing a callback takes one registration of it out of the invocation list (as a multiset), shortens the list by one, and leaves a list without it unchanged |
| CurrentUser.RemoveLastIsLastOccurrence | Base/AuthorizedComponentBase.cs:45 | the registration removed is the last occurrence of the callback, and the callbacks before and after it keep their order |
| CurrentUser.SubscribeThenUnsubscribe | Base/AuthorizedComponentBase.cs:14-46 | adding a callback and removing it again restores the invocation list |
| CurrentUser.UnsubscribeOnceRegistered | Base/AuthorizedComponentBase.cs:43-46 | a callback registered once is absent after one removal, and a second removal changes nothing |
| CurrentUser.CurrentUserService.constructor | Services/CurrentUserService.cs:6-27 | the initial role is "Professional", the sample identity is set, the tenant id is present and there are no subscribers |
| CurrentUser.CurrentUserService.FullName | Services/CurrentUserService.cs:29 | the full name is the first name, one space, then the last name |
| CurrentUser.CurrentUserService.Subscribe | Services/CurrentUserService.cs:6 | `+=` appends the callback to the invocation list |
| CurrentUser.CurrentUserService.Unsubscribe | Services/CurrentUserService.cs:6 | `-=` removes the last registration of the callback |
| CurrentUser.CurrentUserService.SetRole | Services/CurrentUserService.cs:14-35 | afterwards the role is the argument; identity fields and the list are unchanged; an equal role touches no callback; a different role is written first, then each callback is invoked once per registration and reads the new role from the session |
| CurrentUser.CurrentUserService.SetUserId | Services/CurrentUserService.cs:8 | sets the user id and nothing else, so no callback runs |
| CurrentUser.CurrentUserService.SetEmail | Services/CurrentUserService.cs:9 | sets the email and nothing else |
| CurrentUser.CurrentUserService.SetFirstName | Services/CurrentUserService.cs:10 | sets the first name and nothing else |
| CurrentUser.CurrentUserService.SetLastName | Services/CurrentUserService.cs:11 | sets the last name and nothing else |
| CurrentUser.CurrentUserService.SetTenantId | Services/CurrentUserService.cs:27 | sets the tenant id, possibly to none, and nothing else |
| AuthorizedComponent.AuthorizedComponentBase.constructor | Base/AuthorizedComponentBase.cs:8-12 | the component is bound to the injected session and has made no render request |
| AuthorizedComponent.AuthorizedComponentBase.OnInitialized | Base/AuthorizedComponentBase.cs:14-19 | the component's callback is appended to the session's invocation list |
| AuthorizedComponent.AuthorizedComponentBase.HasPermission | Base/AuthorizedComponentBase.cs:31-34 | true exactly when the permission is listed for the role the session holds now |
| AuthorizedComponent.AuthorizedComponentBase.HasAnyPermission | Base/AuthorizedComponentBase.cs:37-40 | true exactly when some requested permission passes the component's live-role check |
| AuthorizedComponent.AuthorizedComponentBase.Dispose | Base/AuthorizedComponentBase.cs:43-47 | removes the component's callback; a component registered at most once is no longer subscribed |
| AuthorizedComponent.ComponentLifecycle | Base/AuthorizedComponentBase.cs:14-46 | a role change gives one render request; the same role or an identity change gives none; checks follow the live role; after disposal a role change gives none |
| AuthorizedComponent.TwoComponents | Services/CurrentUserService.cs:19-22 | a role change reaches each subscribed component exactly once; after one is disposed, only the other is notified |

## Left out

- `Program.cs` is host set-up only: service registration, the HTTP pipeline and `app.Run()`. It is not modelled.
- The Blazor rendering machinery is not modelled. `InvokeAsync` dispatch and `StateHasChanged` are represented only by a per-component count of render requests.
- `GC.SuppressFinalize` in `Dispose` is runtime plumbing and is not modelled.
- `Guid.NewGuid()` for the initial tenant id is random. The constructor takes the generated value as a parameter.
- Threads, marshalling onto the UI context and concurrent event delivery are not modelled. The model is single-threaded and synchronous.
- A subscriber that throws would stop the remaining callbacks from running. Subscribers here cannot fail, so this is not modelled.
- RolePermissions.GetRolePermissions: the source hands out the internal list by reference, so a caller could mutate the table. The model returns an immutable sequence and does not capture that aliasing.
