/**
 * The permissions settings page: each role's list of permission ids, and an edit dialog that
 * works on a copy of one role's list. Toggling an id in the dialog removes it when present and
 * appends it otherwise; saving writes the copy back for the selected role only.
 */
module PermissionsView {
  import opened Wrappers
  import opened Seqs

  datatype Role = Role(id: nat, name: string, slug: string)

  /** The reply to `GET /role?includeSuperAdmin=true`: a failure, a `null` body, or the roles. */
  datatype RolesReply = RolesFailed | NullRoles | Roles(roles: seq<Role>)

  // ---------------------------------------------------------------------------------------------
  // The toggle
  // ---------------------------------------------------------------------------------------------

  function Without(ids: seq<nat>, id: nat): (r: seq<nat>)
    ensures id !in r
    ensures forall x :: x != id ==> (x in r <==> x in ids)
  {
    Filter(ids, (x: nat) => x != id)
  }

  /** `handlePermissionToggle`: drop every copy of a present id, append an absent one. */
  function Toggle(ids: seq<nat>, id: nat): (r: seq<nat>)
    ensures id in ids ==> id !in r
    ensures id !in ids ==> r == ids + [id]
    ensures forall x :: x != id ==> (x in r <==> x in ids)
  {
    if id in ids then Without(ids, id) else ids + [id]
  }

  /** Toggling twice restores the id's membership, and no toggle moves any other id. */
  lemma ToggleTwice(ids: seq<nat>, id: nat, x: nat)
    ensures x in Toggle(Toggle(ids, id), id) <==> x in ids
  {
  }

  /** Toggling an absent id twice gives back the very same list. */
  lemma ToggleAbsentTwice(ids: seq<nat>, id: nat)
    requires id !in ids
    ensures Toggle(Toggle(ids, id), id) == ids
  {
    var t := ids + [id];
    assert t[|ids|] == id;
    FilterAppend(ids, [id], (x: nat) => x != id);
    NoneFiltered(ids, id);
  }

  lemma {:induction false} NoneFiltered(ids: seq<nat>, id: nat)
    requires id !in ids
    ensures Filter(ids, (x: nat) => x != id) == ids
  {
    if ids != [] {
      NoneFiltered(ids[1..], id);
      assert ids == [ids[0]] + ids[1..];
    }
  }

  // ---------------------------------------------------------------------------------------------
  // loadData's per-role fallback
  // ---------------------------------------------------------------------------------------------

  /**
   * `rolePermsMap` after the loop over `roles`, where `replies[i]` is the outcome of
   * `GET /permissions/role/<roles[i].id>` (the permission ids, or `None` on failure).
   */
  function RolePermsMap(roles: seq<Role>, replies: seq<Option<seq<nat>>>): (m: map<nat, seq<nat>>)
    requires |replies| == |roles|
    ensures forall k :: k in m <==> exists i :: 0 <= i < |roles| && roles[i].id == k
  {
    if roles == [] then map[]
    else
      var n := |roles| - 1;
      RolePermsMap(roles[..n], replies[..n])[roles[n].id := replies[n].GetOr([])]
  }

  /**
   * A role whose id no other role shares gets exactly its own outcome: its ids, or the empty
   * list when its fetch failed, whatever happened to the other roles.
   */
  lemma {:induction false} RolePermsEntry(roles: seq<Role>, replies: seq<Option<seq<nat>>>, j: nat)
    requires |replies| == |roles| && j < |roles|
    requires forall i :: 0 <= i < |roles| && i != j ==> roles[i].id != roles[j].id
    ensures roles[j].id in RolePermsMap(roles, replies)
    ensures RolePermsMap(roles, replies)[roles[j].id] == replies[j].GetOr([])
  {
    var n := |roles| - 1;
    if j < n {
      RolePermsEntry(roles[..n], replies[..n], j);
    }
  }

  /** The loop of `loadData`, visiting the roles in order. */
  method LoadRolePermissions(roles: seq<Role>, replies: seq<Option<seq<nat>>>) returns (m: map<nat, seq<nat>>)
    requires |replies| == |roles|
    ensures m == RolePermsMap(roles, replies)
  {
    m := map[];
    var i := 0;
    while i < |roles|
      invariant 0 <= i <= |roles|
      invariant m == RolePermsMap(roles[..i], replies[..i])
    {
      assert roles[..i + 1][..i] == roles[..i];
      assert replies[..i + 1][..i] == replies[..i];
      m := m[roles[i].id := replies[i].GetOr([])];
      i := i + 1;
    }
    assert roles[..i] == roles && replies[..i] == replies;
  }

  // ---------------------------------------------------------------------------------------------
  // Type chips
  // ---------------------------------------------------------------------------------------------

  /** `getPermissionTypeColor(type)`: the chip's colour and label. */
  function TypeChip(kind: string): (r: (string, string))
    ensures r.0 == "default" <==> kind != "page" && kind != "component" && kind != "action"
    ensures r.0 == "default" ==> r.1 == "Otro"
  {
    if kind == "page" then ("primary", "📄 Página")
    else if kind == "component" then ("info", "🧩 Componente")
    else if kind == "action" then ("success", "⚡ Acción")
    else ("default", "Otro")
  }

  // ---------------------------------------------------------------------------------------------
  // The page state
  // ---------------------------------------------------------------------------------------------

  /** `!selectedRole`: no role, or role id 0. */
  predicate NoRole(selected: Option<nat>) {
    selected.None? || selected.value == 0
  }

  class Page {
    var roles: seq<Role>
    var rolePermissions: map<nat, seq<nat>>
    var selectedRole: Option<nat>
    var dialogOpen: bool
    var dialogPermissions: seq<nat>
    var loadFailed: bool

    constructor()
      ensures roles == [] && rolePermissions == map[] && selectedRole == None
      ensures !dialogOpen && dialogPermissions == [] && !loadFailed
    {
      roles := [];
      rolePermissions := map[];
      selectedRole := None;
      dialogOpen := false;
      dialogPermissions := [];
      loadFailed := false;
    }

    /**
     * `loadData`. A failed role list (or a failed permission catalogue, which is fetched
     * together with it) changes nothing but the error; a `null` list empties the
     * roles and then fails in the loop; otherwise every role gets its ids or, when its own fetch
     * failed, the empty list.
     */
    method LoadData(reply: RolesReply, replies: seq<Option<seq<nat>>>)
      requires reply.Roles? ==> |replies| == |reply.roles|
      modifies this`roles, this`rolePermissions, this`loadFailed
      ensures reply.RolesFailed? ==> roles == old(roles) && rolePermissions == old(rolePermissions) && loadFailed
      ensures reply.NullRoles? ==> roles == [] && rolePermissions == old(rolePermissions) && loadFailed
      ensures reply.Roles? ==>
        roles == reply.roles && rolePermissions == RolePermsMap(reply.roles, replies) && !loadFailed
    {
      loadFailed := false;
      match reply
      case RolesFailed =>
        loadFailed := true;
      case NullRoles =>
        roles := [];
        loadFailed := true;
      case Roles(rs) =>
        roles := rs;
        rolePermissions := LoadRolePermissions(rs, replies);
    }

    /** `handleOpenDialog(roleId, current)`: the dialog edits a copy of `current`. */
    method OpenDialog(roleId: nat, current: seq<nat>)
      modifies this`selectedRole, this`dialogPermissions, this`dialogOpen
      ensures selectedRole == Some(roleId) && dialogPermissions == current && dialogOpen
    {
      selectedRole := Some(roleId);
      dialogPermissions := current;
      dialogOpen := true;
    }

    /** The dialog opened from a role's button: its list, or `[]` when the role has none. */
    method OpenForRole(roleId: nat)
      modifies this`selectedRole, this`dialogPermissions, this`dialogOpen
      ensures selectedRole == Some(roleId) && dialogOpen
      ensures dialogPermissions == (if roleId in rolePermissions then rolePermissions[roleId] else [])
    {
      var current := if roleId in rolePermissions then rolePermissions[roleId] else [];
      OpenDialog(roleId, current);
    }

    /** `handleCloseDialog`. */
    method CloseDialog()
      modifies this`selectedRole, this`dialogPermissions, this`dialogOpen
      ensures selectedRole == None && dialogPermissions == [] && !dialogOpen
    {
      dialogOpen := false;
      selectedRole := None;
      dialogPermissions := [];
    }

    /** `handlePermissionToggle`: only the dialog's copy changes. */
    method TogglePermission(id: nat)
      modifies this`dialogPermissions
      ensures dialogPermissions == Toggle(old(dialogPermissions), id)
    {
      dialogPermissions := Toggle(dialogPermissions, id);
    }

    /**
     * `handleSavePermissions`, with the outcome of `POST /permissions/assign-to-role`. Without
     * a role nothing happens; a successful save replaces that role's entry and closes the
     * dialog; a failed one leaves everything as it was.
     */
    method SavePermissions(saved: bool)
      modifies this`rolePermissions, this`selectedRole, this`dialogPermissions, this`dialogOpen
      ensures NoRole(old(selectedRole)) || !saved ==>
        rolePermissions == old(rolePermissions) && selectedRole == old(selectedRole) &&
        dialogPermissions == old(dialogPermissions) && dialogOpen == old(dialogOpen)
      ensures !NoRole(old(selectedRole)) && saved ==>
        rolePermissions == old(rolePermissions)[old(selectedRole).value := old(dialogPermissions)] &&
        selectedRole == None && dialogPermissions == [] && !dialogOpen
    {
      if NoRole(selectedRole) || !saved {
        return;
      }
      rolePermissions := rolePermissions[selectedRole.value := dialogPermissions];
      CloseDialog();
    }
  }
}
