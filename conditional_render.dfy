/**
 * `ConditionalRender`: shows its children when the access test passes and its `fallback`
 * (default `null`) otherwise. A non-empty `permission` prop decides alone; otherwise a
 * `permissions` list is tested with every-semantics under `requireAll` and some-semantics
 * without it; with neither prop there is no access.
 */
module ConditionalRender {
  import opened Wrappers
  import opened AuthTypes
  import opened UsePermission

  /** A React node, named; `None` stands for `null`/`undefined`. */
  datatype Element = Element(name: string)

  datatype Props = Props(
    permission: Option<string>,
    permissions: Option<seq<string>>,
    requireAll: bool,
    fallback: Option<Element>)

  datatype Rendered = RenderChildren | RenderFallback(node: Option<Element>)

  /** `if (permission)`: present and not the empty string. */
  predicate HasSinglePermission(props: Props) {
    props.permission.Some? && props.permission.value != ""
  }

  /** `hasAccess` as computed by the if/else chain. */
  function Access(user: Option<User>, props: Props): (b: bool)
    ensures HasSinglePermission(props) ==> (b <==> user.Some? && Holds(user.value, props.permission.value))
    ensures !HasSinglePermission(props) && props.permissions.None? ==> !b
    ensures !HasSinglePermission(props) && props.permissions.Some? && props.requireAll ==>
      (b <==> (PermissionsOf(user).Some? &&
                forall s :: s in props.permissions.value ==> user.Some? && Holds(user.value, s)))
    ensures !HasSinglePermission(props) && props.permissions.Some? && !props.requireAll ==>
      (b <==> exists s :: s in props.permissions.value && user.Some? && Holds(user.value, s))
  {
    if HasSinglePermission(props) then HasPermission(user, props.permission.value)
    else if props.permissions.Some? then
      if props.requireAll then HasAllPermissions(user, props.permissions.value)
      else HasAnyPermission(user, props.permissions.value)
    else false
  }

  /** The component's output: the children on access, the fallback otherwise. */
  function Render(user: Option<User>, props: Props): (r: Rendered)
    ensures r == RenderChildren <==> Access(user, props)
    ensures r != RenderChildren ==> r == RenderFallback(props.fallback)
  {
    if Access(user, props) then RenderChildren else RenderFallback(props.fallback)
  }

  /** A non-empty `permission` prop decides alone: the list and `requireAll` are ignored. */
  lemma SinglePermissionDecides(user: Option<User>, props: Props, others: Option<seq<string>>, all: bool)
    requires HasSinglePermission(props)
    ensures Access(user, props) == Access(user, props.(permissions := others, requireAll := all))
  {
  }

  /** Under `requireAll` an empty list grants access to any user with a permissions list. */
  lemma EmptyListRequireAll(user: Option<User>, props: Props)
    requires !HasSinglePermission(props) && props.permissions == Some([]) && props.requireAll
    ensures Access(user, props) <==> PermissionsOf(user).Some?
  {
  }

  /** Without `requireAll` an empty list grants nothing. */
  lemma EmptyListAny(user: Option<User>, props: Props)
    requires !HasSinglePermission(props) && props.permissions == Some([]) && !props.requireAll
    ensures !Access(user, props)
  {
  }

  /** Every-semantics is stricter than some-semantics on a non-empty list. */
  lemma AllImpliesAny(user: Option<User>, props: Props)
    requires !HasSinglePermission(props) && props.permissions.Some? && props.permissions.value != []
    requires Access(user, props.(requireAll := true))
    ensures Access(user, props.(requireAll := false))
  {
    assert props.permissions.value[0] in props.permissions.value;
  }
}
