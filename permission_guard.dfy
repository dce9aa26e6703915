/**
 * `PermissionGuard`: a loading view while authentication is pending, nothing (and a redirect
 * to /login) without a user, the children for a user holding the permission, and otherwise
 * the supplied fallback or the default access-denied card.
 */
module PermissionGuard {
  import opened Wrappers
  import opened AuthTypes
  import opened UsePermission
  import opened ConditionalRender

  datatype GuardView = LoadingView | NothingView | ChildrenView | FallbackView(node: Element) | AccessDenied

  /** The render decision. */
  function Guard(auth: AuthState, permission: string, fallback: Option<Element>): (v: GuardView)
    ensures auth.loading ==> v == LoadingView
    ensures v == NothingView <==> !auth.loading && auth.user.None?
    ensures v == ChildrenView <==> !auth.loading && auth.user.Some? && Holds(auth.user.value, permission)
    ensures v.FallbackView? ==> fallback == Some(v.node)
    ensures v == AccessDenied <==>
      !auth.loading && auth.user.Some? && !Holds(auth.user.value, permission) && fallback.None?
  {
    if auth.loading then LoadingView
    else if auth.user.None? then NothingView
    else if !HasPermission(auth.user, permission) then
      (if fallback.Some? then FallbackView(fallback.value) else AccessDenied)
    else ChildrenView
  }

  /** The effect's `router.replace`: only once loading is over and there is no user. */
  function Redirect(auth: AuthState): (target: Option<string>)
    ensures target.Some? <==> Guard(auth, "", None) == NothingView
    ensures target.Some? ==> target.value == "/login"
  {
    if !auth.loading && auth.user.None? then Some("/login") else None
  }

  /** The decision does not depend on the permission or fallback while loading or without a user. */
  lemma GuardBeforeUser(auth: AuthState, p1: string, p2: string, f1: Option<Element>, f2: Option<Element>)
    requires auth.loading || auth.user.None?
    ensures Guard(auth, p1, f1) == Guard(auth, p2, f2)
  {
  }

  /** The guard lets a user through exactly when `ConditionalRender` with that one permission would. */
  lemma GuardAgreesWithConditionalRender(auth: AuthState, permission: string, fallback: Option<Element>)
    requires !auth.loading && auth.user.Some? && permission != ""
    ensures Guard(auth, permission, fallback) == ChildrenView <==>
      Render(auth.user, Props(Some(permission), None, false, fallback)) == RenderChildren
  {
  }
}
