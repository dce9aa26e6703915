/**
 * The users settings page: the create/edit form, the update payload built from it, the
 * button gating, and the edit and delete dialogs with their selected user.
 */
module UsersView {
  import opened Wrappers

  datatype Role = Role(id: nat, name: string, slug: string, color: string)

  datatype User = User(id: nat, name: string, lastName: string, email: string, role: Option<Role>)

  /**
   * The form's `roleId`: `null` (the reset form, or a user without a role), the `''` the
   * "Sin rol" item of the role select stores, or a role's id.
   */
  datatype RoleChoice = NullRole | EmptyRole | RoleId(id: nat)

  datatype UserForm = UserForm(name: string, lastName: string, email: string, password: string, roleId: RoleChoice)

  /** The body of `PUT /users/<id>`: it has no password field. */
  datatype UpdatePayload = UpdatePayload(name: string, lastName: string, email: string, roleId: RoleChoice)

  /** One call of `handleFormChange(field, value)`. */
  datatype Change =
    | SetName(name: string)
    | SetLastName(lastName: string)
    | SetEmail(email: string)
    | SetPassword(password: string)
    | SetRoleId(roleId: RoleChoice)

  const EmptyForm := UserForm("", "", "", "", NullRole)

  /** `handleFormChange`: exactly the named field takes the value. */
  function FormChange(form: UserForm, change: Change): (r: UserForm)
    ensures change.SetName? ==> r == form.(name := change.name)
    ensures change.SetLastName? ==> r == form.(lastName := change.lastName)
    ensures change.SetEmail? ==> r == form.(email := change.email)
    ensures change.SetPassword? ==> r == form.(password := change.password)
    ensures change.SetRoleId? ==> r == form.(roleId := change.roleId)
  {
    match change
    case SetName(v) => form.(name := v)
    case SetLastName(v) => form.(lastName := v)
    case SetEmail(v) => form.(email := v)
    case SetPassword(v) => form.(password := v)
    case SetRoleId(v) => form.(roleId := v)
  }

  /** The create button: name, last name, email and password all non-empty. */
  function CreateEnabled(form: UserForm): (b: bool)
    ensures b <==> |form.name| > 0 && |form.lastName| > 0 && |form.email| > 0 && |form.password| > 0
  {
    form.name != "" && form.lastName != "" && form.email != "" && form.password != ""
  }

  /** The save button of the edit dialog: the password is not required. */
  function UpdateEnabled(form: UserForm): (b: bool)
    ensures b <==> |form.name| > 0 && |form.lastName| > 0 && |form.email| > 0
  {
    form.name != "" && form.lastName != "" && form.email != ""
  }

  /** Every form that may be created may also be saved; the converse fails on the password alone. */
  lemma CreateStricterThanUpdate(form: UserForm)
    ensures CreateEnabled(form) ==> UpdateEnabled(form)
    ensures UpdateEnabled(form) && !CreateEnabled(form) ==> form.password == ""
  {
  }

  /** `updateData`: the form's fields but the password. */
  function Payload(form: UserForm): (p: UpdatePayload)
    ensures p.name == form.name && p.lastName == form.lastName && p.email == form.email
    ensures p.roleId == form.roleId
  {
    UpdatePayload(form.name, form.lastName, form.email, form.roleId)
  }

  /** Whatever is typed as password never reaches the update request. */
  lemma PayloadIgnoresPassword(form: UserForm, password: string)
    ensures Payload(form.(password := password)) == Payload(form)
  {
  }

  /** `user.role?.id || null`: a missing role and role id 0 both give `null`, never `''`. */
  function RoleIdOf(user: User): (r: RoleChoice)
    ensures r != EmptyRole
    ensures r.RoleId? <==> user.role.Some? && user.role.value.id != 0
    ensures r.RoleId? ==> r.id == user.role.value.id
  {
    if user.role.Some? && user.role.value.id != 0 then RoleId(user.role.value.id) else NullRole
  }

  /**
   * The item the role select shows, `formData.roleId || ''`: `None` is the "Sin rol" item,
   * shown for `null`, for `''` and for role id 0 alike.
   */
  function SelectedItem(choice: RoleChoice): (item: Option<nat>)
    ensures item.Some? <==> choice.RoleId? && choice.id != 0
    ensures item.Some? ==> item.value == choice.id
  {
    if choice.RoleId? && choice.id != 0 then Some(choice.id) else None
  }

  /**
   * Picking "Sin rol" stores `''`, which the update then sends, while a user loaded without a
   * role sends `null`: the select shows the same item for both, the requests differ.
   */
  lemma NoRoleTwoWays(form: UserForm)
    ensures var picked := FormChange(form, SetRoleId(EmptyRole));
      SelectedItem(picked.roleId) == SelectedItem(form.(roleId := NullRole).roleId) &&
      Payload(picked).roleId == EmptyRole &&
      Payload(picked) != Payload(form.(roleId := NullRole))
  {
  }

  /** The form `handleOpenEditDialog` fills from a user. */
  function EditForm(user: User): (f: UserForm)
    ensures f.password == "" && !CreateEnabled(f)
    ensures f.name == user.name && f.lastName == user.lastName && f.email == user.email
    ensures f.roleId == RoleIdOf(user)
  {
    UserForm(user.name, user.lastName, user.email, "", RoleIdOf(user))
  }

  class Page {
    var users: seq<User>
    var roles: seq<Role>
    var form: UserForm
    var selectedUser: Option<User>
    var openDialog: bool
    var openEditDialog: bool
    var openDeleteDialog: bool

    constructor()
      ensures users == [] && roles == [] && form == EmptyForm && selectedUser == None
      ensures !openDialog && !openEditDialog && !openDeleteDialog
    {
      users := [];
      roles := [];
      form := EmptyForm;
      selectedUser := None;
      openDialog := false;
      openEditDialog := false;
      openDeleteDialog := false;
    }

    /** `fetchUsers`. */
    method FetchUsers(reply: Option<seq<User>>)
      modifies this`users
      ensures users == if reply.Some? then reply.value else old(users)
    {
      if reply.Some? {
        users := reply.value;
      }
    }

    /** `fetchRoles`: the global roles followed by the user's custom roles. */
    method FetchRoles(reply: Option<(seq<Role>, seq<Role>)>)
      modifies this`roles
      ensures reply.None? ==> roles == old(roles)
      ensures reply.Some? ==>
        |roles| == |reply.value.0| + |reply.value.1| &&
        roles[..|reply.value.0|] == reply.value.0 && roles[|reply.value.0|..] == reply.value.1
    {
      if reply.Some? {
        roles := reply.value.0 + reply.value.1;
      }
    }

    method OpenCreateDialog()
      modifies this`openDialog
      ensures openDialog
    {
      openDialog := true;
    }

    /** `handleCloseDialog`. */
    method CloseCreateDialog()
      modifies this`openDialog, this`form
      ensures !openDialog && form == EmptyForm
    {
      openDialog := false;
      form := EmptyForm;
    }

    /** `handleFormChange`. */
    method ChangeField(change: Change)
      modifies this`form
      ensures form == FormChange(old(form), change)
    {
      form := FormChange(form, change);
    }

    /** `handleCreateUser`: posts the whole form, password included. */
    method CreateUser(created: bool, refetch: Option<seq<User>>) returns (request: UserForm)
      modifies this`users, this`openDialog, this`form
      ensures request == old(form)
      ensures !created ==> users == old(users) && openDialog == old(openDialog) && form == old(form)
      ensures created ==> !openDialog && form == EmptyForm
      ensures created ==> users == if refetch.Some? then refetch.value else old(users)
    {
      request := form;
      if !created {
        return;
      }
      FetchUsers(refetch);
      CloseCreateDialog();
    }

    /** `handleOpenEditDialog(user)`. */
    method OpenEditDialog(user: User)
      modifies this`selectedUser, this`form, this`openEditDialog
      ensures selectedUser == Some(user) && form == EditForm(user) && openEditDialog
    {
      selectedUser := Some(user);
      form := EditForm(user);
      openEditDialog := true;
    }

    /** `handleCloseEditDialog`. */
    method CloseEditDialog()
      modifies this`selectedUser, this`form, this`openEditDialog
      ensures selectedUser == None && form == EmptyForm && !openEditDialog
    {
      openEditDialog := false;
      selectedUser := None;
      form := EmptyForm;
    }

    /** `handleUpdateUser`: nothing without a selection; the request carries the payload. */
    method UpdateUser(updated: bool, refetch: Option<seq<User>>) returns (request: Option<(nat, UpdatePayload)>)
      modifies this`users, this`selectedUser, this`form, this`openEditDialog
      ensures old(selectedUser).None? ==> request == None
      ensures old(selectedUser).Some? ==> request == Some((old(selectedUser).value.id, Payload(old(form))))
      ensures old(selectedUser).None? || !updated ==>
        users == old(users) && selectedUser == old(selectedUser) && form == old(form) &&
        openEditDialog == old(openEditDialog)
      ensures old(selectedUser).Some? && updated ==>
        selectedUser == None && form == EmptyForm && !openEditDialog
      ensures old(selectedUser).Some? && updated ==>
        users == if refetch.Some? then refetch.value else old(users)
    {
      if selectedUser.None? {
        return None;
      }
      request := Some((selectedUser.value.id, Payload(form)));
      if !updated {
        return;
      }
      FetchUsers(refetch);
      CloseEditDialog();
    }

    method OpenDeleteDialog(user: User)
      modifies this`selectedUser, this`openDeleteDialog
      ensures selectedUser == Some(user) && openDeleteDialog
    {
      selectedUser := Some(user);
      openDeleteDialog := true;
    }

    /** `handleCloseDeleteDialog`: the form is left as it is. */
    method CloseDeleteDialog()
      modifies this`selectedUser, this`openDeleteDialog
      ensures selectedUser == None && !openDeleteDialog
    {
      openDeleteDialog := false;
      selectedUser := None;
    }

    /** `handleDeleteUser`: nothing without a selection or when the DELETE fails. */
    method DeleteUser(deleted: bool, refetch: Option<seq<User>>) returns (request: Option<nat>)
      modifies this`users, this`selectedUser, this`openDeleteDialog
      ensures old(selectedUser).None? ==> request == None
      ensures old(selectedUser).Some? ==> request == Some(old(selectedUser).value.id)
      ensures old(selectedUser).None? || !deleted ==>
        users == old(users) && selectedUser == old(selectedUser) && openDeleteDialog == old(openDeleteDialog)
      ensures old(selectedUser).Some? && deleted ==> selectedUser == None && !openDeleteDialog
      ensures old(selectedUser).Some? && deleted ==>
        users == if refetch.Some? then refetch.value else old(users)
    {
      if selectedUser.None? {
        return None;
      }
      request := Some(selectedUser.value.id);
      if !deleted {
        return;
      }
      FetchUsers(refetch);
      CloseDeleteDialog();
    }
  }
}
