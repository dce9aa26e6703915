/**
 * The vertical navigation menu and `filterNavigationByPermissions`: an item is dropped when it
 * names a required permission the user lacks, and the children of every surviving group are
 * filtered by the same rule.
 */
module Navigation {
  import opened Wrappers
  import opened Seqs
  import opened AuthTypes

  /**
   * A menu entry: a link (`path`), a section title, or a group (`children`). Only a group has
   * a `children` list.
   */
  datatype NavItem = NavItem(
    title: string,
    icon: string,
    path: Option<string>,
    requiredPermission: Option<string>,
    children: NavChildren)

  /** `'children' in item && Array.isArray(item.children)`: the item is a group. */
  datatype NavChildren = NoChildren | Children(items: seq<NavItem>)

  /** `item.requiredPermission` is truthy: present and not the empty string. */
  predicate Required(item: NavItem) {
    item.requiredPermission.Some? && item.requiredPermission.value != ""
  }

  /** The filter's test: no truthy requirement, or the requirement is among the user's slugs. */
  predicate Allowed(item: NavItem, slugs: seq<string>) {
    !(Required(item) && item.requiredPermission.value !in slugs)
  }

  function AllowedBy(slugs: seq<string>): NavItem -> bool {
    (item: NavItem) => Allowed(item, slugs)
  }

  /** `filterItems`: keep the allowed items, and filter the children of each kept group. */
  function FilterItems(items: seq<NavItem>, slugs: seq<string>): (r: seq<NavItem>)
    ensures |r| <= |items|
    decreases items
  {
    if items == [] then []
    else
      var rest := FilterItems(items[1..], slugs);
      if Allowed(items[0], slugs) then [Prune(items[0], slugs)] + rest else rest
  }

  /** The `map` step on a kept item: a group gets its children filtered, anything else is kept. */
  function Prune(item: NavItem, slugs: seq<string>): (p: NavItem)
    ensures p.(children := item.children) == item
    ensures item.children.NoChildren? <==> p.children.NoChildren?
    decreases item
  {
    match item.children
    case NoChildren => item
    case Children(cs) => item.(children := Children(FilterItems(cs, slugs)))
  }

  /** `filterNavigationByPermissions(permissions)` over the menu `data`. */
  function FilterNavigation(permissions: Option<seq<Permission>>, data: seq<NavItem>): (r: seq<NavItem>)
    ensures permissions.None? || permissions.value == [] ==> r == []
    ensures |r| <= |data|
  {
    if permissions.None? || |permissions.value| == 0 then []
    else FilterItems(data, Slugs(permissions.value))
  }

  /** The menu of `navigationData()`. */
  function NavigationData(): seq<NavItem> {
    [ NavItem("AI Tools", "eos-icons:ai", None, None, Children([
        Link("Dashboards", "tabler:smart-home", "/dashboards", "view-dashboard"),
        Link("Post Generator", "iconoir:post", "/post-generator", "view-post-generator"),
        Link("CV Analyzer", "streamline:business-user-curriculum", "/cv-analyzer", "view-cv-analyzer"),
        Link("PDF Summarizer", "mdi:file-document-edit-outline", "/pdf-summarizer", "view-pdf-summarizer")])),
      NavItem("Configuración", "tabler:settings", None, Some("view-settings"), Children([
        Link("Roles", "tabler:shield-lock", "/settings/roles", "view-roles"),
        Link("Usuarios", "tabler:users", "/settings/users", "view-users"),
        Link("Permisos", "fluent-mdl2:permissions", "/settings/permissions", "view-permissions")]))
    ]
  }

  function Link(title: string, icon: string, path: string, permission: string): NavItem {
    NavItem(title, icon, Some(path), Some(permission), NoChildren)
  }

  // ---------------------------------------------------------------------------------------------
  // Properties
  // ---------------------------------------------------------------------------------------------

  /**
   * The result is the filter of the allowed items, in their original order, each pruned:
   * no item is added, and the i-th survivor is the i-th allowed item.
   */
  lemma {:induction false} FilterItemsSpec(items: seq<NavItem>, slugs: seq<string>)
    ensures |FilterItems(items, slugs)| == |Filter(items, AllowedBy(slugs))|
    ensures forall j :: 0 <= j < |FilterItems(items, slugs)| ==>
      FilterItems(items, slugs)[j] == Prune(Filter(items, AllowedBy(slugs))[j], slugs)
    ensures Subsequence(Filter(items, AllowedBy(slugs)), items)
  {
    FilterSubsequence(items, AllowedBy(slugs));
    if items != [] {
      FilterItemsSpec(items[1..], slugs);
      var f := Filter(items, AllowedBy(slugs));
      if Allowed(items[0], slugs) {
        assert f == [items[0]] + Filter(items[1..], AllowedBy(slugs));
      } else {
        assert f == Filter(items[1..], AllowedBy(slugs));
      }
    }
  }

  /** Filtering a concatenation filters each part. */
  lemma {:induction false} FilterItemsAppend(a: seq<NavItem>, b: seq<NavItem>, slugs: seq<string>)
    ensures FilterItems(a + b, slugs) == FilterItems(a, slugs) + FilterItems(b, slugs)
  {
    if a == [] {
      assert a + b == b;
    } else {
      assert (a + b)[0] == a[0];
      assert (a + b)[1..] == a[1..] + b;
      FilterItemsAppend(a[1..], b, slugs);
    }
  }

  /** An item survives (pruned) iff it is allowed: every allowed item's pruning is in the result. */
  lemma {:induction false} AllowedSurvives(items: seq<NavItem>, slugs: seq<string>, i: nat)
    requires i < |items| && Allowed(items[i], slugs)
    ensures Prune(items[i], slugs) in FilterItems(items, slugs)
  {
    if i > 0 {
      AllowedSurvives(items[1..], slugs, i - 1);
    }
  }

  /** ...and everything in the result is the pruning of an allowed item. */
  lemma {:induction false} SurvivorIsAllowed(items: seq<NavItem>, slugs: seq<string>, x: NavItem) returns (i: nat)
    requires x in FilterItems(items, slugs)
    ensures i < |items| && Allowed(items[i], slugs) && x == Prune(items[i], slugs)
  {
    var rest := FilterItems(items[1..], slugs);
    if Allowed(items[0], slugs) && x == Prune(items[0], slugs) {
      i := 0;
    } else {
      assert x in rest;
      var k := SurvivorIsAllowed(items[1..], slugs, x);
      i := k + 1;
    }
  }

  /**
   * A group that fails its own requirement vanishes with its whole subtree, whatever its
   * children are: the menu is filtered as if it were not there.
   */
  lemma RejectedGroupVanishes(before: seq<NavItem>, g: NavItem, after: seq<NavItem>, slugs: seq<string>)
    requires !Allowed(g, slugs)
    ensures FilterItems(before + [g] + after, slugs) == FilterItems(before, slugs) + FilterItems(after, slugs)
  {
    FilterItemsAppend(before + [g], after, slugs);
    FilterItemsAppend(before, [g], slugs);
    assert FilterItems([g], slugs) == [];
  }

  /** A kept group whose children all fail stays in the menu, with an empty children list. */
  lemma EmptyGroupKept(g: NavItem, slugs: seq<string>)
    requires Allowed(g, slugs) && g.children.Children?
    requires forall c :: c in g.children.items ==> !Allowed(c, slugs)
    ensures FilterItems([g], slugs) == [g.(children := Children([]))]
  {
    NoneAllowed(g.children.items, slugs);
  }

  lemma {:induction false} NoneAllowed(items: seq<NavItem>, slugs: seq<string>)
    requires forall c :: c in items ==> !Allowed(c, slugs)
    ensures FilterItems(items, slugs) == []
  {
    if items != [] {
      assert items[0] in items;
      NoneAllowed(items[1..], slugs);
    }
  }

  /** A user holding only `view-dashboard` sees the AI Tools group with the Dashboards link. */
  lemma DashboardOnly()
    ensures FilterItems(NavigationData(), ["view-dashboard"]) ==
      [NavigationData()[0].(children := Children([NavigationData()[0].children.items[0]]))]
  {
    var slugs := ["view-dashboard"];
    var d := NavigationData();
    var ai := d[0].children.items;
    NoneAllowed(ai[1..], slugs);
    assert Allowed(ai[0], slugs);
    assert FilterItems(ai, slugs) == [ai[0]];
    assert FilterItems(d[1..], slugs) == [] by {
      assert !Allowed(d[1], slugs);
    }
  }

  /** `view-roles` without `view-settings` shows no settings entry at all. */
  lemma RolesWithoutSettings()
    ensures FilterItems(NavigationData(), ["view-roles"]) ==
      [NavigationData()[0].(children := Children([]))]
  {
    var d := NavigationData();
    NoneAllowed(d[0].children.items, ["view-roles"]);
    assert !Allowed(d[1], ["view-roles"]);
  }
}
