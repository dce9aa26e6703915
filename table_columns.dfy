/**
 * The table cell helpers: the colour a role slug hashes to (with JavaScript's 32-bit shift),
 * the boolean chip, the status, type and action chips with their fallbacks, the product
 * avatar's URL rule and the role labels.
 */
module TableColumns {
  import opened Wrappers
  import opened Text

  datatype Chip = Chip(text: string, color: string, icon: string)

  // ---------------------------------------------------------------------------------------------
  // getRoleColor
  // ---------------------------------------------------------------------------------------------

  const TwoTo32: int := 0x1_0000_0000
  const TwoTo31: int := 0x8000_0000

  /** JavaScript's ToInt32: the value modulo 2^32, read as a signed 32-bit integer. */
  function ToInt32(x: int): (r: int)
    ensures -TwoTo31 <= r < TwoTo31
    ensures (r - x) % TwoTo32 == 0
  {
    var m := x % TwoTo32;
    if m >= TwoTo31 then m - TwoTo32 else m
  }

  /** `hash << 5`: the operand is taken to 32 bits, shifted, and the result read back as 32 bits. */
  function ShiftLeft5(hash: int): (r: int)
    ensures -TwoTo31 <= r < TwoTo31
  {
    ToInt32(ToInt32(hash) * 32)
  }

  /** One turn of the loop: `hash = code + ((hash << 5) - hash)`, the `-` and `+` exact. */
  function HashStep(hash: int, c: char): int {
    c as int + (ShiftLeft5(hash) - hash)
  }

  /** The hash of a slug, folding its characters from the left. */
  function RoleHash(slug: string): int
    decreases |slug|
  {
    if slug == [] then 0 else HashStep(RoleHash(slug[..|slug| - 1]), slug[|slug| - 1])
  }

  const MuiColors: seq<string> := ["primary", "success", "info", "warning", "error", "secondary"]

  function Abs(x: int): (r: nat)
    ensures r == x || r == -x
  {
    if x < 0 then -x else x
  }

  /** The loop of `getRoleColor` over the slug's characters. */
  method ComputeRoleHash(slug: string) returns (hash: int)
    ensures hash == RoleHash(slug)
  {
    hash := 0;
    for i := 0 to |slug|
      invariant hash == RoleHash(slug[..i])
    {
      assert slug[..i + 1][..i] == slug[..i];
      hash := HashStep(hash, slug[i]);
    }
    assert slug[..|slug|] == slug;
  }

  /** `getRoleColor(slug)`: `muiColors[Math.abs(hash) % 6]`. */
  method RoleColor(slug: string) returns (color: string)
    ensures color == MuiColors[Abs(RoleHash(slug)) % 6]
    ensures color in MuiColors
  {
    var hash := ComputeRoleHash(slug);
    color := MuiColors[Abs(hash) % |MuiColors|];
  }

  /** The empty slug hashes to 0, whose colour is 'primary'; "a" hashes to 97, giving 'success'. */
  lemma RoleColorExamples()
    ensures RoleHash("") == 0 && MuiColors[Abs(RoleHash("")) % 6] == "primary"
    ensures RoleHash("a") == 97 && MuiColors[Abs(RoleHash("a")) % 6] == "success"
  {
    assert "a"[..0] == "";
  }

  /** A 32-bit value is its own ToInt32. */
  lemma ToInt32Small(x: int)
    requires -TwoTo31 <= x < TwoTo31
    ensures ToInt32(x) == x
  {
    if x < 0 {
      assert x % TwoTo32 == x + TwoTo32;
    }
  }

  /** While the hash stays within 2^26 in size, the shift is exact: each step is `31 * hash + code`. */
  lemma HashStepExact(hash: int, c: char)
    requires -0x400_0000 <= hash < 0x400_0000
    ensures HashStep(hash, c) == 31 * hash + c as int
  {
    ToInt32Small(hash);
    ToInt32Small(hash * 32);
  }

  /** A large hash wraps: once the shift overflows 32 bits, the hash differs from exact arithmetic. */
  lemma ShiftWraps()
    ensures ShiftLeft5(0x4000_0000) == 0
    ensures ShiftLeft5(-1) == -32
  {
  }

  // ---------------------------------------------------------------------------------------------
  // Chips
  // ---------------------------------------------------------------------------------------------

  /** A `number | boolean` cell value. */
  datatype CellValue = Num(n: int) | Bool(b: bool)

  /** `chipBoolean`: only the number 1 and `true` count as true. */
  function ChipBoolean(value: CellValue, labelTrue: string, labelFalse: string, colorTrue: string, colorFalse: string): (c: Chip)
    ensures (value == Num(1) || value == Bool(true)) ==> c == Chip(labelTrue, colorTrue, "tabler:check")
    ensures !(value == Num(1) || value == Bool(true)) ==> c == Chip(labelFalse, colorFalse, "tabler:x")
  {
    var isOk := value == Num(1) || value == Bool(true);
    if isOk then Chip(labelTrue, colorTrue, "tabler:check") else Chip(labelFalse, colorFalse, "tabler:x")
  }

  /** With the default labels and colours. */
  function ChipBooleanDefault(value: CellValue): (c: Chip)
    ensures c.color == "success" <==> value == Num(1) || value == Bool(true)
  {
    ChipBoolean(value, "Sí", "No", "success", "warning")
  }

  /** The `statusConfig` of `labelUserStatus`. */
  function UserStatusConfig(status: string): Option<Chip> {
    if status == "active" then Some(Chip("Activo", "success", "tabler:check"))
    else if status == "inactive" then Some(Chip("Inactivo", "error", "clarity:remove-solid"))
    else if status == "trial" then Some(Chip("Prueba", "warning", "tabler:clock"))
    else if status == "suspended" then Some(Chip("Suspendido", "error", "clarity:remove-solid"))
    else None
  }

  /** `labelUserStatus`: an unknown status falls back to the inactive chip. */
  function LabelUserStatus(status: string): (c: Chip)
    ensures UserStatusConfig(status).Some? ==> c == UserStatusConfig(status).value
    ensures UserStatusConfig(status).None? ==> c == UserStatusConfig("inactive").value
  {
    UserStatusConfig(status).GetOr(Chip("Inactivo", "error", "clarity:remove-solid"))
  }

  /** The `statusConfig` of `labelType`. */
  function TypeConfig(kind: string): Option<Chip> {
    if kind == "venta" then Some(Chip("Venta", "success", "tabler:check"))
    else if kind == "ingreso" then Some(Chip("Ingreso", "info", "tabler:plus"))
    else if kind == "gasto" then Some(Chip("Gasto", "error", "tabler:receipt"))
    else if kind == "retiro" then Some(Chip("Retiro", "warning", "tabler:minus"))
    else None
  }

  /** `labelType`: an unknown type falls back to the venta chip. */
  function LabelType(kind: string): (c: Chip)
    ensures TypeConfig(kind).Some? ==> c == TypeConfig(kind).value
    ensures TypeConfig(kind).None? ==> c == TypeConfig("venta").value
  {
    TypeConfig(kind).GetOr(Chip("Venta", "success", "tabler:check"))
  }

  /** `actionChip`: create, edit and remove get Spanish labels; anything else keeps its text. */
  function ActionChip(action: string): (c: Chip)
    ensures action == "create" ==> c.color == "success" && c.text == "Crear"
    ensures action == "edit" ==> c.color == "info" && c.text == "Editar"
    ensures action == "remove" ==> c.color == "error" && c.text == "Eliminar"
    ensures action != "create" && action != "edit" && action != "remove" ==>
      c == Chip(action, "info", "tabler:circle")
  {
    if action == "create" then Chip("Crear", "success", "tabler:plus")
    else if action == "edit" then Chip("Editar", "info", "tabler:edit")
    else if action == "remove" then Chip("Eliminar", "error", "tabler:trash")
    else Chip(action, "info", "tabler:circle")
  }

  // ---------------------------------------------------------------------------------------------
  // AvatarProduct
  // ---------------------------------------------------------------------------------------------

  /** `/^https?:\/\//.test(image)`. */
  predicate IsAbsoluteUrl(image: string) {
    StartsWith(image, "http://") || StartsWith(image, "https://")
  }

  /**
   * The URL `AvatarProduct` shows (`api` is `constants.api`): absolute URLs and empty values
   * are kept, any other path is served from the API's object store.
   */
  function AvatarUrl(api: string, image: Option<string>): (url: Option<string>)
    ensures image.None? ==> url.None?
    ensures image.Some? && (image.value == "" || IsAbsoluteUrl(image.value)) ==> url == image
    ensures image.Some? && image.value != "" && !IsAbsoluteUrl(image.value) ==>
      url == Some(api + "/minio/" + image.value)
  {
    if image.Some? && image.value != "" && !IsAbsoluteUrl(image.value) then Some(api + "/minio/" + image.value)
    else image
  }

  /** The avatar shows a picture exactly when the image is a non-empty string. */
  lemma AvatarShowsPicture(api: string, image: Option<string>)
    ensures (AvatarUrl(api, image).Some? && AvatarUrl(api, image).value != "") <==>
      (image.Some? && image.value != "")
  {
  }

  /** A rewritten URL keeps the original path as its suffix. */
  lemma AvatarKeepsPath(api: string, image: string)
    requires image != "" && !IsAbsoluteUrl(image)
    ensures var url := AvatarUrl(api, Some(image)).value;
      |url| >= |image| && url[|url| - |image|..] == image
  {
  }

  // ---------------------------------------------------------------------------------------------
  // Role labels
  // ---------------------------------------------------------------------------------------------

  datatype RoleInfo = RoleInfo(name: string, slug: string, color: Option<string>)
  datatype UserRole = UserRole(role: Option<RoleInfo>)

  /** `labelRole`: the first user role's role, coloured by its colour or 'primary'. */
  function LabelRole(userRoles: Option<seq<UserRole>>): (c: Option<Chip>)
    ensures c.None? <==> userRoles.None? || userRoles.value == [] || userRoles.value[0].role.None?
    ensures c.Some? ==> c.value.text == userRoles.value[0].role.value.name
    ensures c.Some? ==> var color := userRoles.value[0].role.value.color;
      (color.Some? && color.value != "" ==> c.value.color == color.value) &&
      (color.None? || color.value == "" ==> c.value.color == "primary")
  {
    if userRoles.None? || userRoles.value == [] || userRoles.value[0].role.None? then None
    else
      var role := userRoles.value[0].role.value;
      Some(Chip(role.name, if role.color.Some? && role.color.value != "" then role.color.value else "primary", ""))
  }

  /** `labelUserRoles`: nothing for a non-array (`None`) or an empty list. */
  method LabelUserRoles(roles: Option<seq<RoleInfo>>) returns (chips: Option<seq<Chip>>)
    ensures chips.None? <==> roles.None? || roles.value == []
    ensures chips.Some? ==> |chips.value| == |roles.value|
    ensures chips.Some? ==> forall i :: 0 <= i < |roles.value| ==>
      chips.value[i].text == roles.value[i].name &&
      chips.value[i].color == MuiColors[Abs(RoleHash(roles.value[i].slug)) % 6]
  {
    if roles.None? || roles.value == [] {
      return None;
    }
    var rs := roles.value;
    var out: seq<Chip> := [];
    for i := 0 to |rs|
      invariant |out| == i
      invariant forall j :: 0 <= j < i ==>
        out[j].text == rs[j].name && out[j].color == MuiColors[Abs(RoleHash(rs[j].slug)) % 6]
    {
      var color := RoleColor(rs[i].slug);
      if color !in MuiColors {
        color := "info";
      }
      out := out + [Chip(rs[i].name, color, "")];
    }
    chips := Some(out);
  }
}
