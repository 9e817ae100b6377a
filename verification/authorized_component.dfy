/**
 * The base of every page that shows or hides controls by permission. It
 * registers its role-change callback on the session when initialised, asks
 * for one re-render per notification, checks permissions against the role the
 * session holds at call time, and removes its callback when disposed.
 */
module AuthorizedComponent {
  import opened RolePermissions
  import opened CurrentUser

  class AuthorizedComponentBase {
    /** The injected session. */
    const currentUser: CurrentUserService

    /**
     * The OnUserRoleChanged callback bound to this component. Each invocation
     * enqueues exactly one re-render, so its call count is the number of
     * re-render requests this component has made.
     */
    const onUserRoleChanged: RoleChangedHandler

    constructor (currentUser: CurrentUserService)
      ensures this.currentUser == currentUser
      ensures fresh(onUserRoleChanged) && onUserRoleChanged.calls == 0
    {
      this.currentUser := currentUser;
      onUserRoleChanged := new RoleChangedHandler();
    }

    /** The number of re-render requests made so far. */
    function RenderRequests(): nat
      reads onUserRoleChanged
    {
      onUserRoleChanged.calls
    }

    /** Whether this component's callback is on the session's invocation list. */
    predicate Subscribed()
      reads currentUser
    {
      onUserRoleChanged in currentUser.onRoleChanged
    }

    /** Registers the role-change callback on the session. */
    method OnInitialized()
      modifies currentUser`onRoleChanged
      ensures Subscribed()
      ensures currentUser.onRoleChanged == old(currentUser.onRoleChanged) + [onUserRoleChanged]
    {
      currentUser.Subscribe(onUserRoleChanged);
    }

    /** Whether the session's role, read now, grants `permission`. */
    function HasPermission(permission: Permission): (granted: bool)
      reads currentUser
      ensures granted <==> permission in GetRolePermissions(currentUser.userRole)
    {
      RolePermissions.HasPermission(currentUser.userRole, permission)
    }

    /** Whether the session's role, read now, grants at least one of `permissions`. */
    function HasAnyPermission(permissions: seq<Permission>): (granted: bool)
      reads currentUser
      ensures granted <==> exists i :: 0 <= i < |permissions| && HasPermission(permissions[i])
    {
      RolePermissions.HasAnyPermission(currentUser.userRole, permissions)
    }

    /** Removes the callback from the session; a component registered once is then unsubscribed. */
    method Dispose()
      modifies currentUser`onRoleChanged
      ensures currentUser.onRoleChanged == RemoveLast(old(currentUser.onRoleChanged), onUserRoleChanged)
      ensures multiset(old(currentUser.onRoleChanged))[onUserRoleChanged] <= 1 ==> !Subscribed()
    {
      currentUser.Unsubscribe(onUserRoleChanged);
    }
  }

  /**
   * One component's life on a fresh session: a role change re-renders it once,
   * setting the same role or an identity field re-renders nothing, permission
   * checks follow the live role, and after disposal a role change no longer
   * reaches it.
   */
  method ComponentLifecycle(tenant: Guid)
    returns (afterChange: nat, afterSameRole: nat, afterRename: nat, afterDispose: nat,
             reportsBefore: bool, reportsAfter: bool, subscribedAfterDispose: bool)
    ensures reportsBefore && !reportsAfter
    ensures afterChange == 1 && afterSameRole == 1 && afterRename == 1 && afterDispose == 1
    ensures !subscribedAfterDispose
  {
    var session := new CurrentUserService(tenant);
    var page := new AuthorizedComponentBase(session);
    page.OnInitialized();
    reportsBefore := page.HasPermission(ViewReports);

    session.SetRole("Receptionist");
    afterChange := page.RenderRequests();
    reportsAfter := page.HasPermission(ViewReports);

    session.SetRole("Receptionist");
    afterSameRole := page.RenderRequests();

    session.SetFirstName("Dra. Ana");
    afterRename := page.RenderRequests();

    page.Dispose();
    subscribedAfterDispose := page.Subscribed();
    session.SetRole("Customer");
    afterDispose := page.RenderRequests();
  }

  /**
   * Two components on one session: a role change reaches each exactly once;
   * once the first is disposed, the next change reaches only the second.
   */
  method TwoComponents(tenant: Guid) returns (first: nat, second: nat)
    ensures first == 1 && second == 2
  {
    var session := new CurrentUserService(tenant);
    var a := new AuthorizedComponentBase(session);
    var b := new AuthorizedComponentBase(session);
    a.OnInitialized();
    b.OnInitialized();
    session.SetRole("TenantAdmin");
    assert a.RenderRequests() == 1 && b.RenderRequests() == 1;
    a.Dispose();
    session.SetRole("SuperAdmin");
    first, second := a.RenderRequests(), b.RenderRequests();
  }
}
