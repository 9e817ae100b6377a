/**
 * The per-session holder of the signed-in user's identity and role, with the
 * OnRoleChanged event. Only a change of role is observable by subscribers;
 * identity fields change silently.
 */
module CurrentUser {
  import opened Wrappers

  /** A tenant identifier (a 128-bit GUID). */
  type Guid = bv128

  /**
   * A callback registered on OnRoleChanged. Object identity stands for delegate
   * equality (same target, same method), which is what `-=` compares.
   * `calls` counts the invocations; `roleSeen` is the session's role as the
   * callback read it during its latest invocation.
   */
  class RoleChangedHandler {
    var calls: nat
    var roleSeen: Option<string>

    constructor ()
      ensures calls == 0 && roleSeen == None
    {
      calls := 0;
      roleSeen := None;
    }

    /** Runs the callback; it reads the session's role as it stands at that moment. */
    method Invoke(session: CurrentUserService)
      modifies this
      ensures calls == old(calls) + 1 && roleSeen == Some(session.userRole)
    {
      calls := calls + 1;
      roleSeen := Some(session.userRole);
    }
  }

  /**
   * The invocation list after removing `handler` with `-=`: its last
   * occurrence goes, the order of the rest is kept, and a handler that is not
   * registered leaves the list as it was.
   */
  function RemoveLast(handlers: seq<RoleChangedHandler>, handler: RoleChangedHandler): (rest: seq<RoleChangedHandler>)
    ensures multiset(rest) == multiset(handlers) - multiset{handler}
    ensures handler !in handlers ==> rest == handlers
    ensures handler in handlers ==> |rest| == |handlers| - 1
  {
    if handlers == [] then []
    else
      var last := |handlers| - 1;
      assert handlers == handlers[..last] + [handlers[last]];
      if handlers[last] == handler then handlers[..last]
      else RemoveLast(handlers[..last], handler) + [handlers[last]]
  }

  /**
   * The occurrence RemoveLast takes out is the last one, and the handlers
   * before and after it keep their order.
   */
  lemma {:induction false} RemoveLastIsLastOccurrence(handlers: seq<RoleChangedHandler>, handler: RoleChangedHandler)
    returns (k: nat)
    requires handler in handlers
    ensures k < |handlers| && handlers[k] == handler && handler !in handlers[k + 1..]
    ensures RemoveLast(handlers, handler) == handlers[..k] + handlers[k + 1..]
  {
    var last := |handlers| - 1;
    if handlers[last] == handler {
      k := last;
    } else {
      assert handlers == handlers[..last] + [handlers[last]];
      k := RemoveLastIsLastOccurrence(handlers[..last], handler);
      assert handlers[k + 1..] == handlers[..last][k + 1..] + [handlers[last]];
      assert handlers[..k] == handlers[..last][..k];
    }
  }

  /** Subscribing and then unsubscribing the same handler restores the invocation list. */
  lemma SubscribeThenUnsubscribe(handlers: seq<RoleChangedHandler>, handler: RoleChangedHandler)
    ensures RemoveLast(handlers + [handler], handler) == handlers
  {
    assert (handlers + [handler])[..|handlers|] == handlers;
  }

  /** A handler registered once is gone after one removal, and a second removal changes nothing. */
  lemma {:induction false} UnsubscribeOnceRegistered(handlers: seq<RoleChangedHandler>, handler: RoleChangedHandler)
    requires multiset(handlers)[handler] == 1
    ensures handler !in RemoveLast(handlers, handler)
    ensures RemoveLast(RemoveLast(handlers, handler), handler) == RemoveLast(handlers, handler)
  {
    var rest: seq<RoleChangedHandler> := RemoveLast(handlers, handler);
    assert multiset(rest)[handler] == 0;
  }

  class CurrentUserService {
    /** The OnRoleChanged invocation list, in subscription order. */
    var onRoleChanged: seq<RoleChangedHandler>

    var userId: string
    var email: string
    var firstName: string
    var lastName: string
    var userRole: string
    var tenantId: Option<Guid>

    /** A new session with the built-in sample identity; `tenant` stands for the freshly generated GUID. */
    constructor (tenant: Guid)
      ensures userRole == "Professional"
      ensures userId == "user-123" && email == "admin@clinica.com"
      ensures firstName == "Dr. Juan" && lastName == "Pérez"
      ensures tenantId == Some(tenant)
      ensures onRoleChanged == []
    {
      onRoleChanged := [];
      userId := "user-123";
      email := "admin@clinica.com";
      firstName := "Dr. Juan";
      lastName := "Pérez";
      userRole := "Professional";
      tenantId := Some(tenant);
    }

    /** The display name: first name, one space, last name. */
    function FullName(): (name: string)
      reads this
      ensures |name| == |firstName| + 1 + |lastName|
      ensures name[..|firstName|] == firstName && name[|firstName|] == ' '
      ensures name[|firstName| + 1..] == lastName
    {
      firstName + " " + lastName
    }

    /** `OnRoleChanged += handler`: appends to the invocation list. */
    method Subscribe(handler: RoleChangedHandler)
      modifies this`onRoleChanged
      ensures onRoleChanged == old(onRoleChanged) + [handler]
    {
      onRoleChanged := onRoleChanged + [handler];
    }

    /** `OnRoleChanged -= handler`: removes the last registration of the handler, if any. */
    method Unsubscribe(handler: RoleChangedHandler)
      modifies this`onRoleChanged
      ensures onRoleChanged == RemoveLast(old(onRoleChanged), handler)
    {
      onRoleChanged := RemoveLast(onRoleChanged, handler);
    }

    /**
     * Sets the role. Only when it differs from the current one is the field
     * updated and every registered handler invoked once per registration, in
     * order, each seeing the new role. Identity fields and the list itself are
     * untouched; an equal role changes nothing at all.
     */
    method SetRole(role: string)
      modifies this`userRole, onRoleChanged
      ensures userRole == role
      ensures userId == old(userId) && email == old(email) && tenantId == old(tenantId)
      ensures firstName == old(firstName) && lastName == old(lastName)
      ensures onRoleChanged == old(onRoleChanged)
      ensures old(userRole) == role ==> forall h :: h in onRoleChanged ==> unchanged(h)
      ensures old(userRole) != role ==> forall h :: h in onRoleChanged ==>
        h.calls == old(h.calls) + multiset(onRoleChanged)[h] && h.roleSeen == Some(role)
    {
      if userRole != role {
        userRole := role;
        var handlers := onRoleChanged;
        for i := 0 to |handlers|
          invariant userRole == role
          invariant forall h :: h in handlers ==> h.calls == old(h.calls) + multiset(handlers[..i])[h]
          invariant forall h :: h in handlers[..i] ==> h.roleSeen == Some(role)
        {
          assert handlers[..i + 1] == handlers[..i] + [handlers[i]];
          handlers[i].Invoke(this);
        }
        assert handlers[..|handlers|] == handlers;
      }
    }

    // The identity setters touch only their own field: no handler is invoked.

    method SetUserId(value: string)
      modifies this`userId
      ensures userId == value
    {
      userId := value;
    }

    method SetEmail(value: string)
      modifies this`email
      ensures email == value
    {
      email := value;
    }

    method SetFirstName(value: string)
      modifies this`firstName
      ensures firstName == value
    {
      firstName := value;
    }

    method SetLastName(value: string)
      modifies this`lastName
      ensures lastName == value
    {
      lastName := value;
    }

    method SetTenantId(value: Option<Guid>)
      modifies this`tenantId
      ensures tenantId == value
    {
      tenantId := value;
    }
  }
}
