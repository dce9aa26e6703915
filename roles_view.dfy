/**
 * The roles settings page: the create/edit form, whose `slug` follows the `name` as it is
 * typed, and the edit and delete dialogs with their selected role.
 */
module RolesView {
  import opened Wrappers
  import opened Seqs
  import opened Text

  datatype Role = Role(id: nat, name: string, slug: string, color: string)

  datatype RoleForm = RoleForm(name: string, slug: string, color: string)

  /** The form fields `handleFormChange` is called with. */
  datatype Field = NameField | SlugField | ColorField

  const DefaultColor := "#2196F3"
  const EmptyForm := RoleForm("", "", DefaultColor)

  // ---------------------------------------------------------------------------------------------
  // The slug
  // ---------------------------------------------------------------------------------------------

  predicate IsUpper(c: char) { 'A' <= c <= 'Z' }

  function LowerChar(c: char): (d: char)
    ensures !IsUpper(d)
    ensures !IsUpper(c) ==> d == c
  {
    if IsUpper(c) then (c as int + 32) as char else c
  }

  /** `toLowerCase()` on the letters A–Z. */
  function Lower(s: string): (r: string)
    ensures |r| == |s|
    ensures forall i :: 0 <= i < |s| ==> r[i] == LowerChar(s[i])
  {
    seq(|s|, i requires 0 <= i < |s| => LowerChar(s[i]))
  }

  /** `replace(/\s+/g, '-')`: every maximal whitespace run becomes one '-'. */
  function DashSpaces(s: string): (r: string)
    ensures forall i :: 0 <= i < |r| ==> !IsSpace(r[i])
    ensures |r| <= |s|
    decreases |s|
  {
    if s == [] then []
    else if IsSpace(s[0]) then
      TrimStartShrinks(s);
      PrintableNotSpace('-');
      "-" + DashSpaces(TrimStart(s))
    else [s[0]] + DashSpaces(s[1..])
  }

  predicate IsSlugChar(c: char) {
    ('a' <= c <= 'z') || ('0' <= c <= '9') || c == '-'
  }

  function SlugCharTest(): char -> bool {
    (c: char) => IsSlugChar(c)
  }

  /** The slug derived from a name. */
  function Slug(name: string): (slug: string)
    ensures forall i :: 0 <= i < |slug| ==> IsSlugChar(slug[i])
    ensures |slug| <= |name|
  {
    Filter(DashSpaces(Lower(name)), SlugCharTest())
  }

  /** A string already made of slug characters is its own slug. */
  lemma SlugOfSlugChars(s: string)
    requires forall i :: 0 <= i < |s| ==> IsSlugChar(s[i])
    ensures Slug(s) == s
  {
    assert Lower(s) == s;
    forall i | 0 <= i < |s| ensures !IsSpace(s[i]) {
      PrintableNotSpace(s[i]);
    }
    DashSpacesNoSpace(s);
    FilterAll(s);
  }

  /** Deriving a slug twice changes nothing more. */
  lemma SlugIdempotent(name: string)
    ensures Slug(Slug(name)) == Slug(name)
  {
    SlugOfSlugChars(Slug(name));
  }

  lemma {:induction false} DashSpacesNoSpace(s: string)
    requires forall i :: 0 <= i < |s| ==> !IsSpace(s[i])
    ensures DashSpaces(s) == s
  {
    if s != [] {
      assert !IsSpace(s[0]);
      DashSpacesNoSpace(s[1..]);
    }
  }

  /** A whole run of whitespace, however long, becomes a single '-'. */
  lemma DashSpacesRun(run: string, rest: string)
    requires run != [] && IsBlank(run)
    requires rest == [] || !IsSpace(rest[0])
    ensures DashSpaces(run + rest) == "-" + DashSpaces(rest)
  {
    TrimBlankPrefix(run, rest);
    assert (run + rest)[0] == run[0];
  }

  lemma {:induction false} TrimBlankPrefix(run: string, rest: string)
    requires IsBlank(run)
    requires rest == [] || !IsSpace(rest[0])
    ensures TrimStart(run + rest) == rest
  {
    if run == [] {
      assert run + rest == rest;
    } else {
      assert (run + rest)[0] == run[0];
      assert (run + rest)[1..] == run[1..] + rest;
      TrimBlankPrefix(run[1..], rest);
    }
  }

  lemma {:induction false} FilterAll(s: string)
    requires forall i :: 0 <= i < |s| ==> IsSlugChar(s[i])
    ensures Filter(s, SlugCharTest()) == s
  {
    if s != [] {
      FilterAll(s[1..]);
      assert s == [s[0]] + s[1..];
    }
  }

  lemma {:induction false} FilterNone(s: string)
    requires forall i :: 0 <= i < |s| ==> !IsSlugChar(s[i])
    ensures Filter(s, SlugCharTest()) == []
  {
    if s != [] {
      FilterNone(s[1..]);
    }
  }

  // ---------------------------------------------------------------------------------------------
  // The form
  // ---------------------------------------------------------------------------------------------

  /**
   * `handleFormChange(field, value)`: the field takes the value; editing the name also sets the
   * slug derived from it, while a hand-typed slug is kept as typed.
   */
  function FormChange(form: RoleForm, field: Field, value: string): (r: RoleForm)
    ensures field == NameField ==> r.name == value && r.slug == Slug(value) && r.color == form.color
    ensures field == SlugField ==> r == form.(slug := value)
    ensures field == ColorField ==> r == form.(color := value)
  {
    match field
    case NameField => form.(name := value, slug := Slug(value))
    case SlugField => form.(slug := value)
    case ColorField => form.(color := value)
  }

  /** `disabled={!formData.name || !formData.slug}` on the create and save buttons. */
  function SubmitEnabled(form: RoleForm): (b: bool)
    ensures b <==> |form.name| > 0 && |form.slug| > 0
  {
    form.name != "" && form.slug != ""
  }

  /** After a name edit the buttons are enabled exactly when the name's slug is non-empty. */
  lemma NameEditEnables(form: RoleForm, value: string)
    ensures SubmitEnabled(FormChange(form, NameField, value)) <==> value != "" && Slug(value) != ""
  {
  }

  /**
   * A name made only of characters that are neither upper-case letters, whitespace nor slug
   * characters (punctuation, for instance) has an empty slug, so typing it keeps both buttons
   * disabled. This rests on the ASCII-only `toLowerCase` of `LowerChar`: JavaScript lowercases
   * some non-ASCII capitals, such as 'İ', to text that keeps an ASCII letter.
   */
  lemma PunctuationNameDisables(form: RoleForm, value: string)
    requires forall i :: 0 <= i < |value| ==> !IsUpper(value[i]) && !IsSpace(value[i]) && !IsSlugChar(value[i])
    ensures Slug(value) == ""
    ensures !SubmitEnabled(FormChange(form, NameField, value))
  {
    assert Lower(value) == value;
    DashSpacesNoSpace(value);
    FilterNone(value);
  }

  // ---------------------------------------------------------------------------------------------
  // The page state
  // ---------------------------------------------------------------------------------------------

  class Page {
    var roles: seq<Role>
    var myRoles: seq<Role>
    var form: RoleForm
    var selectedRole: Option<Role>
    var openDialog: bool
    var openEditDialog: bool
    var openDeleteDialog: bool

    constructor()
      ensures roles == [] && myRoles == [] && form == EmptyForm && selectedRole == None
      ensures !openDialog && !openEditDialog && !openDeleteDialog
    {
      roles := [];
      myRoles := [];
      form := EmptyForm;
      selectedRole := None;
      openDialog := false;
      openEditDialog := false;
      openDeleteDialog := false;
    }

    /** `fetchRoles`: both lists are replaced only when both requests succeed. */
    method FetchRoles(reply: Option<(seq<Role>, seq<Role>)>)
      modifies this`roles, this`myRoles
      ensures reply.None? ==> roles == old(roles) && myRoles == old(myRoles)
      ensures reply.Some? ==> roles == reply.value.0 && myRoles == reply.value.1
    {
      if reply.Some? {
        roles := reply.value.0;
        myRoles := reply.value.1;
      }
    }

    method OpenCreateDialog()
      modifies this`openDialog
      ensures openDialog
    {
      openDialog := true;
    }

    /** `handleCloseDialog`: closes and resets the form. */
    method CloseCreateDialog()
      modifies this`openDialog, this`form
      ensures !openDialog && form == EmptyForm
    {
      openDialog := false;
      form := EmptyForm;
    }

    /** `handleFormChange`. */
    method ChangeField(field: Field, value: string)
      modifies this`form
      ensures form == FormChange(old(form), field, value)
    {
      form := FormChange(form, field, value);
    }

    /** `handleCreateRole`, with the outcome of the POST and of the refetch that follows it. */
    method CreateRole(created: bool, refetch: Option<(seq<Role>, seq<Role>)>) returns (request: RoleForm)
      modifies this`roles, this`myRoles, this`openDialog, this`form
      ensures request == old(form)
      ensures !created ==>
        roles == old(roles) && myRoles == old(myRoles) && openDialog == old(openDialog) && form == old(form)
      ensures created ==> !openDialog && form == EmptyForm
      ensures created && refetch.Some? ==> roles == refetch.value.0 && myRoles == refetch.value.1
      ensures created && refetch.None? ==> roles == old(roles) && myRoles == old(myRoles)
    {
      request := form;
      if !created {
        return;
      }
      FetchRoles(refetch);
      CloseCreateDialog();
    }

    /** `handleOpenEditDialog(role)`: the form takes the role's name, slug and colour. */
    method OpenEditDialog(role: Role)
      modifies this`selectedRole, this`form, this`openEditDialog
      ensures selectedRole == Some(role) && openEditDialog
      ensures form == RoleForm(role.name, role.slug, role.color)
    {
      selectedRole := Some(role);
      form := RoleForm(role.name, role.slug, role.color);
      openEditDialog := true;
    }

    /** `handleCloseEditDialog`. */
    method CloseEditDialog()
      modifies this`selectedRole, this`form, this`openEditDialog
      ensures selectedRole == None && form == EmptyForm && !openEditDialog
    {
      openEditDialog := false;
      selectedRole := None;
      form := EmptyForm;
    }

    /** `handleUpdateRole`: nothing without a selection or when the PUT fails. */
    method UpdateRole(updated: bool, refetch: Option<(seq<Role>, seq<Role>)>) returns (request: Option<(nat, RoleForm)>)
      modifies this`roles, this`myRoles, this`selectedRole, this`form, this`openEditDialog
      ensures old(selectedRole).None? ==> request == None
      ensures old(selectedRole).Some? ==> request == Some((old(selectedRole).value.id, old(form)))
      ensures old(selectedRole).None? || !updated ==>
        roles == old(roles) && myRoles == old(myRoles) && selectedRole == old(selectedRole) &&
        form == old(form) && openEditDialog == old(openEditDialog)
      ensures old(selectedRole).Some? && updated ==>
        selectedRole == None && form == EmptyForm && !openEditDialog
      ensures old(selectedRole).Some? && updated && refetch.Some? ==>
        roles == refetch.value.0 && myRoles == refetch.value.1
      ensures old(selectedRole).Some? && updated && refetch.None? ==>
        roles == old(roles) && myRoles == old(myRoles)
    {
      if selectedRole.None? {
        return None;
      }
      request := Some((selectedRole.value.id, form));
      if !updated {
        return;
      }
      FetchRoles(refetch);
      CloseEditDialog();
    }

    method OpenDeleteDialog(role: Role)
      modifies this`selectedRole, this`openDeleteDialog
      ensures selectedRole == Some(role) && openDeleteDialog
    {
      selectedRole := Some(role);
      openDeleteDialog := true;
    }

    /** `handleCloseDeleteDialog`: the form is left as it is. */
    method CloseDeleteDialog()
      modifies this`selectedRole, this`openDeleteDialog
      ensures selectedRole == None && !openDeleteDialog
    {
      openDeleteDialog := false;
      selectedRole := None;
    }

    /** `handleDeleteRole`: nothing without a selection or when the DELETE fails. */
    method DeleteRole(deleted: bool, refetch: Option<(seq<Role>, seq<Role>)>) returns (request: Option<nat>)
      modifies this`roles, this`myRoles, this`selectedRole, this`openDeleteDialog
      ensures old(selectedRole).None? ==> request == None
      ensures old(selectedRole).Some? ==> request == Some(old(selectedRole).value.id)
      ensures old(selectedRole).None? || !deleted ==>
        roles == old(roles) && myRoles == old(myRoles) && selectedRole == old(selectedRole) &&
        openDeleteDialog == old(openDeleteDialog)
      ensures old(selectedRole).Some? && deleted ==> selectedRole == None && !openDeleteDialog
      ensures old(selectedRole).Some? && deleted && refetch.Some? ==>
        roles == refetch.value.0 && myRoles == refetch.value.1
      ensures old(selectedRole).Some? && deleted && refetch.None? ==>
        roles == old(roles) && myRoles == old(myRoles)
    {
      if selectedRole.None? {
        return None;
      }
      request := Some(selectedRole.value.id);
      if !deleted {
        return;
      }
      FetchRoles(refetch);
      CloseDeleteDialog();
    }
  }
}
