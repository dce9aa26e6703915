/**
 * The authentication records the permission logic reads: a permission (`PermissionType`), the
 * logged-in user (`UserDataType`) and the auth context's `loading`/`user` pair.
 */
module AuthTypes {
  import opened Wrappers

  /** `type: 'page' | 'component' | 'action'`; a server may still send another string. */
  datatype PermissionKind = Page | Component | Action | OtherKind(name: string)

  datatype Permission = Permission(
    id: nat,
    name: string,
    slug: string,
    description: string,
    kind: PermissionKind,
    resource: string)

  /** Only the fields the permission logic reads; `permissions` is optional on the record. */
  datatype User = User(id: nat, name: string, email: string, permissions: Option<seq<Permission>>)

  datatype AuthState = AuthState(loading: bool, user: Option<User>)

  /** The user has a permissions list, and some permission in it has slug `slug`. */
  ghost predicate Holds(user: User, slug: string) {
    user.permissions.Some? && exists p :: p in user.permissions.value && p.slug == slug
  }

  /** `permissions.map(p => p.slug)`. */
  function Slugs(ps: seq<Permission>): (r: seq<string>)
    ensures |r| == |ps|
    ensures forall i :: 0 <= i < |ps| ==> r[i] == ps[i].slug
  {
    seq(|ps|, i requires 0 <= i < |ps| => ps[i].slug)
  }

  /** Some permission in the list has this slug exactly when the slug is among the slugs. */
  lemma SlugsMember(ps: seq<Permission>, s: string)
    ensures s in Slugs(ps) <==> exists p :: p in ps && p.slug == s
  {
    if s in Slugs(ps) {
      var i :| 0 <= i < |ps| && Slugs(ps)[i] == s;
      assert ps[i] in ps;
    }
  }
}
