// The permission cache: the operations as one caller sees them, and the decision
// the middleware takes with them.
module RbacCache {
  import opened Events

  type Role = string

  datatype Entry = Entry(permissions: seq<string>, cachedAt: Instant)

  predicate Live(e: Entry, ttl: int, now: Instant) {
    now - e.cachedAt < ttl
  }

  // "" stands for every role.
  predicate Drops(dropped: Role, role: Role) {
    dropped == "" || dropped == role
  }

  function Without(entries: map<Role, Entry>, dropped: Role): (kept: map<Role, Entry>)
    ensures forall r :: r in kept <==> r in entries && !Drops(dropped, r)
    ensures forall r :: r in kept ==> kept[r] == entries[r]
  {
    map r | r in entries && !Drops(dropped, r) :: entries[r]
  }

  // What a lookup at an instant finds without asking the source.
  function FoundIn(entries: map<Role, Entry>, ttl: int, role: Role, now: Instant): Option<seq<string>> {
    if role in entries && Live(entries[role], ttl, now) then Some(entries[role].permissions) else None
  }

  datatype Decision = Unauthenticated | Forbidden | Unavailable | Passed

  datatype Claims = Claims(role: string, restaurantRole: Role)

  const SYSTEM_ADMIN := "system_admin"
  const RESTAURANT_USER := "restaurant_user"

  // Whom the middleware lets through, given what the cache would answer.
  predicate Allowed(claims: Option<Claims>, answer: Option<seq<string>>, permission: string) {
    && claims.Some?
    && (claims.value.role == SYSTEM_ADMIN
        || (claims.value.role == RESTAURANT_USER && answer.Some? && permission in answer.value))
  }

  method HasPermission(permissions: seq<string>, permission: string) returns (has: bool)
    ensures has <==> permission in permissions
  {
    for i := 0 to |permissions|
      invariant permission !in permissions[..i]
    {
      if permissions[i] == permission { return true; }
    }
    return false;
  }

  class Cache {
    var entries: map<Role, Entry>
    const ttl: int

    constructor (ttl: int)
      ensures entries == map[] && this.ttl == ttl
    {
      this.ttl := ttl;
      entries := map[];
    }

    function Hit(role: Role, now: Instant): Option<seq<string>>
      reads this
    {
      FoundIn(entries, ttl, role, now)
    }

    // The read, the fetch and the store of one call that nothing interleaves with;
    // fetched is what the source would answer, None if the fetch fails.
    method GetPermissions(role: Role, now: Instant, fetched: Option<seq<string>>, storedAt: Instant)
      returns (answer: Option<seq<string>>)
      modifies this
      ensures answer == if old(Hit(role, now)).Some? then old(Hit(role, now)) else fetched
      ensures entries == if old(Hit(role, now)).None? && fetched.Some?
                         then old(entries)[role := Entry(fetched.value, storedAt)] else old(entries)
      ensures if role in old(entries) && now - old(entries)[role].cachedAt < ttl
              then answer == Some(old(entries)[role].permissions) && entries == old(entries)
              else if fetched.Some?
              then answer == fetched && entries == old(entries)[role := Entry(fetched.value, storedAt)]
              else answer.None? && entries == old(entries)
    {
      if role in entries && now - entries[role].cachedAt < ttl {
        return Some(entries[role].permissions);
      }
      if fetched.None? { return None; }
      entries := entries[role := Entry(fetched.value, storedAt)];
      return fetched;
    }

    method Invalidate(role: Role)
      modifies this
      ensures entries == Without(old(entries), role)
      ensures forall r :: r in entries <==> r in old(entries) && role != "" && r != role
      ensures forall r :: r in entries ==> entries[r] == old(entries)[r]
    {
      if role == "" {
        entries := map[];
      } else {
        entries := entries - {role};
      }
    }

    method Require(claims: Option<Claims>, permission: string, now: Instant, fetched: Option<seq<string>>,
                   storedAt: Instant)
      returns (decision: Decision)
      modifies this
      ensures var answer := if claims.Some? && old(Hit(claims.value.restaurantRole, now)).Some?
                            then old(Hit(claims.value.restaurantRole, now)) else fetched;
              && (decision.Passed? <==> Allowed(claims, answer, permission))
              && (decision.Unauthenticated? <==> claims.None?)
              && (decision.Unavailable? <==> claims.Some? && claims.value.role == RESTAURANT_USER && answer.None?)
      ensures claims.None? || claims.value.role != RESTAURANT_USER ==> entries == old(entries)
      ensures claims.None? ==> decision == Unauthenticated
      ensures claims.Some? && claims.value.role == "system_admin" ==> decision == Passed
      ensures claims.Some? && claims.value.role != "system_admin" && claims.value.role != "restaurant_user" ==>
                decision == Forbidden
      ensures claims.Some? && claims.value.role == "restaurant_user" ==>
                var role := claims.value.restaurantRole;
                var list := if role in old(entries) && now - old(entries)[role].cachedAt < ttl
                            then Some(old(entries)[role].permissions) else fetched;
                decision == if list.None? then Unavailable else if permission in list.value then Passed else Forbidden
    {
      if claims.None? { return Unauthenticated; }
      if claims.value.role == SYSTEM_ADMIN { return Passed; }
      if claims.value.role != RESTAURANT_USER { return Forbidden; }
      var answer := GetPermissions(claims.value.restaurantRole, now, fetched, storedAt);
      if answer.None? { return Unavailable; }
      var has := HasPermission(answer.value, permission);
      if !has { return Forbidden; }
      return Passed;
    }
  }
}
