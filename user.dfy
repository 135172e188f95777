/** A staff member and what their role allows (src/domain/entities/User.ts). */
module Users {
  import opened Wrappers
  import opened DomainTypes

  /** The mutable fields of a user, as a value. */
  datatype UserState = UserState(name: string, email: string, role: UserRole, isActive: bool, updatedAt: Time)

  /** The argument of `update`: `None` is a field left undefined. */
  datatype UserPatch = UserPatch(name: Option<string>, email: Option<string>, isActive: Option<bool>)

  predicate IsAdmin(role: UserRole) { role == ADMIN }
  predicate IsWaiter(role: UserRole) { role == WAITER }
  predicate IsChef(role: UserRole) { role == CHEF }

  /** `canManageOrders`: administrators and waiters. */
  predicate CanManageOrders(role: UserRole) { role == ADMIN || role == WAITER }

  /** `canPrepareOrders`: administrators and chefs. */
  predicate CanPrepareOrders(role: UserRole) { role == ADMIN || role == CHEF }

  /** Exactly one of the three role predicates holds. */
  lemma {:induction false} ExactlyOneRole(role: UserRole)
    ensures IsAdmin(role) || IsWaiter(role) || IsChef(role)
    ensures !(IsAdmin(role) && IsWaiter(role)) && !(IsAdmin(role) && IsChef(role))
    ensures !(IsWaiter(role) && IsChef(role))
  {
  }

  /**
   * The two permissions in terms of the roles: together they single out the administrator,
   * and every role has at least one of them.
   */
  lemma {:induction false} Permissions(role: UserRole)
    ensures CanManageOrders(role) && CanPrepareOrders(role) <==> IsAdmin(role)
    ensures CanManageOrders(role) || CanPrepareOrders(role)
    ensures !CanManageOrders(role) <==> IsChef(role)
    ensures !CanPrepareOrders(role) <==> IsWaiter(role)
  {
  }

  /** `update`: name and email when truthy, `isActive` when defined; the role never changes. */
  function UserUpdated(s: UserState, p: UserPatch, now: Time): (r: UserState)
    ensures r.role == s.role && r.updatedAt == now
    ensures r.name == (if p.name.Some? && p.name.value != "" then p.name.value else s.name)
    ensures r.email == (if p.email.Some? && p.email.value != "" then p.email.value else s.email)
    ensures r.isActive == p.isActive.GetOr(s.isActive)
  {
    var t := if p.name.Some? && p.name.value != "" then s.(name := p.name.value) else s;
    var t := if p.email.Some? && p.email.value != "" then t.(email := p.email.value) else t;
    var t := if p.isActive.Some? then t.(isActive := p.isActive.value) else t;
    t.(updatedAt := now)
  }

  /** Applying the same patch twice is applying it once. */
  lemma {:induction false} UserUpdateIdempotent(s: UserState, p: UserPatch, now: Time, later: Time)
    ensures UserUpdated(UserUpdated(s, p, now), p, later) == UserUpdated(s, p, later)
  {
  }

  class User {
    const id: string
    var name: string
    var email: string
    var role: UserRole
    var isActive: bool
    const createdAt: Time
    var updatedAt: Time

    function State(): UserState
      reads this
    {
      UserState(name, email, role, isActive, updatedAt)
    }

    constructor (id: string, name: string, email: string, role: UserRole, isActive: bool, now: Time)
      ensures this.id == id && createdAt == now
      ensures State() == UserState(name, email, role, isActive, now)
    {
      this.id := id;
      this.name := name;
      this.email := email;
      this.role := role;
      this.isActive := isActive;
      this.createdAt := now;
      this.updatedAt := now;
    }

    method Update(p: UserPatch, now: Time)
      modifies this
      ensures State() == UserUpdated(old(State()), p, now)
    {
      if p.name.Some? && p.name.value != "" {
        name := p.name.value;
      }
      if p.email.Some? && p.email.value != "" {
        email := p.email.value;
      }
      if p.isActive.Some? {
        isActive := p.isActive.value;
      }
      updatedAt := now;
    }
  }
}
