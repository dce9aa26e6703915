/**
 * The `usePermission` hook: membership tests of slugs against the logged-in user's permission
 * list, and the sublists of one permission type. A user without a `permissions` list holds
 * nothing (every test is false and every sublist empty).
 */
module UsePermission {
  import opened Wrappers
  import opened Seqs
  import opened AuthTypes

  /** `ps.some(p => p.slug === slug)`. */
  function SomeSlug(ps: seq<Permission>, slug: string): (b: bool)
    ensures b <==> exists p :: p in ps && p.slug == slug
  {
    if ps == [] then false
    else ps[0].slug == slug || SomeSlug(ps[1..], slug)
  }

  /** `auth.user?.permissions`, or nothing when there is no user or no list. */
  function PermissionsOf(user: Option<User>): Option<seq<Permission>> {
    if user.Some? then user.value.permissions else None
  }

  /** `hasPermission(slug)`. */
  function HasPermission(user: Option<User>, slug: string): (b: bool)
    ensures b <==> user.Some? && Holds(user.value, slug)
  {
    match PermissionsOf(user)
    case None => false
    case Some(ps) => SomeSlug(ps, slug)
  }

  /** `hasAnyPermission(slugs)`: `slugs.some(...)`. */
  function HasAnyPermission(user: Option<User>, slugs: seq<string>): (b: bool)
    ensures b <==> exists s :: s in slugs && HasPermission(user, s)
    ensures slugs == [] ==> !b
  {
    match PermissionsOf(user)
    case None => false
    case Some(ps) => AnyHeld(ps, slugs)
  }

  function AnyHeld(ps: seq<Permission>, slugs: seq<string>): (b: bool)
    ensures b <==> exists s :: s in slugs && SomeSlug(ps, s)
  {
    if slugs == [] then false
    else
      assert slugs[0] in slugs && forall s :: s in slugs <==> s == slugs[0] || s in slugs[1..];
      SomeSlug(ps, slugs[0]) || AnyHeld(ps, slugs[1..])
  }

  /** `hasAllPermissions(slugs)`: `slugs.every(...)`, which needs the list to exist. */
  function HasAllPermissions(user: Option<User>, slugs: seq<string>): (b: bool)
    ensures b <==> PermissionsOf(user).Some? && forall s :: s in slugs ==> HasPermission(user, s)
    ensures slugs == [] ==> (b <==> PermissionsOf(user).Some?)
  {
    match PermissionsOf(user)
    case None => false
    case Some(ps) => AllHeld(ps, slugs)
  }

  function AllHeld(ps: seq<Permission>, slugs: seq<string>): (b: bool)
    ensures b <==> forall s :: s in slugs ==> SomeSlug(ps, s)
  {
    if slugs == [] then true
    else
      assert slugs[0] in slugs && forall s :: s in slugs <==> s == slugs[0] || s in slugs[1..];
      SomeSlug(ps, slugs[0]) && AllHeld(ps, slugs[1..])
  }

  function OfKind(kind: PermissionKind): Permission -> bool {
    (p: Permission) => p.kind == kind
  }

  /** `getPermissionsByType(kind)`: the permissions of that kind, in their original order. */
  function PermissionsByType(user: Option<User>, kind: PermissionKind): (r: seq<Permission>)
    ensures PermissionsOf(user).None? ==> r == []
    ensures forall p :: p in r ==> p.kind == kind
    ensures PermissionsOf(user).Some? ==>
      Subsequence(r, PermissionsOf(user).value) &&
      forall p :: p in PermissionsOf(user).value && p.kind == kind ==> p in r
  {
    match PermissionsOf(user)
    case None => []
    case Some(ps) =>
      FilterSubsequence(ps, OfKind(kind));
      Filter(ps, OfKind(kind))
  }

  /** `getPagePermissions()`, `getComponentPermissions()`, `getActionPermissions()`. */
  function PagePermissions(user: Option<User>): (r: seq<Permission>)
    ensures forall p :: p in r ==> p.kind == Page
  {
    PermissionsByType(user, Page)
  }

  function ComponentPermissions(user: Option<User>): (r: seq<Permission>)
    ensures forall p :: p in r ==> p.kind == Component
  {
    PermissionsByType(user, Component)
  }

  function ActionPermissions(user: Option<User>): (r: seq<Permission>)
    ensures forall p :: p in r ==> p.kind == Action
  {
    PermissionsByType(user, Action)
  }

  /** The hook's `permissions` field: `auth.user?.permissions || []`. */
  function Permissions(user: Option<User>): (r: seq<Permission>)
    ensures PermissionsOf(user).Some? ==> r == PermissionsOf(user).value
    ensures PermissionsOf(user).None? ==> r == []
  {
    PermissionsOf(user).GetOr([])
  }

  predicate StandardKind(p: Permission) {
    p.kind == Page || p.kind == Component || p.kind == Action
  }

  /**
   * When every permission is of one of the three declared types, the three getters share the
   * list out: each permission lands in exactly one of them, as often as it occurs.
   */
  lemma KindsPartition(user: Option<User>)
    requires forall p :: p in Permissions(user) ==> StandardKind(p)
    ensures multiset(PagePermissions(user)) + multiset(ComponentPermissions(user)) +
      multiset(ActionPermissions(user)) == multiset(Permissions(user))
  {
    if PermissionsOf(user).Some? {
      FilterPartition(PermissionsOf(user).value);
    }
  }

  lemma {:induction false} FilterPartition(ps: seq<Permission>)
    requires forall p :: p in ps ==> StandardKind(p)
    ensures multiset(Filter(ps, OfKind(Page))) + multiset(Filter(ps, OfKind(Component))) +
      multiset(Filter(ps, OfKind(Action))) == multiset(ps)
  {
    if ps != [] {
      assert multiset(ps) == multiset{ps[0]} + multiset(ps[1..]) by {
        assert ps == [ps[0]] + ps[1..];
      }
      assert ps[0] in ps;
      FilterPartition(ps[1..]);
      KindCons(ps, Page);
      KindCons(ps, Component);
      KindCons(ps, Action);
    }
  }

  /** Filtering by kind a list with head `h`: the head's multiset counts once, under its kind. */
  lemma KindCons(ps: seq<Permission>, k: PermissionKind)
    requires ps != []
    ensures multiset(Filter(ps, OfKind(k))) ==
      (if ps[0].kind == k then multiset{ps[0]} else multiset{}) + multiset(Filter(ps[1..], OfKind(k)))
  {
  }
}
