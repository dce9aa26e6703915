/**
 * The trial notification dialog: how the number of trial days left selects the progress
 * colour, the alert severity, the title icon, the message, the days chip and the contact button.
 * The days are whole numbers and may be zero or negative once the trial has ended.
 */
module TrialDialog {
  import opened Text

  /** The four ranges the dialog distinguishes, from most to least days left. */
  datatype Band = Active | Ending | Urgent | Expired

  /** The reference classification: more than 20, 11 to 20, 1 to 10, none left. */
  function BandOf(days: int): (b: Band)
    ensures b == Active <==> days > 20
    ensures b == Ending <==> 10 < days <= 20
    ensures b == Urgent <==> 0 < days <= 10
    ensures b == Expired <==> days <= 0
  {
    if days > 20 then Active else if days > 10 then Ending else if days > 0 then Urgent else Expired
  }

  /** How pressing a band is: 0 for an active trial up to 3 for an expired one. */
  function Urgency(b: Band): (n: nat)
    ensures n <= 3
  {
    match b
    case Active => 0
    case Ending => 1
    case Urgent => 2
    case Expired => 3
  }

  /** Fewer days left never make the dialog less urgent. */
  lemma UrgencyMonotone(fewer: int, more: int)
    requires fewer <= more
    ensures Urgency(BandOf(fewer)) >= Urgency(BandOf(more))
  {
  }

  /** `getProgressColor`: three colours, the last two bands sharing 'error'. */
  function ProgressColor(days: int): (c: string)
    ensures c == "success" <==> BandOf(days) == Active
    ensures c == "warning" <==> BandOf(days) == Ending
    ensures c == "error" <==> BandOf(days) == Urgent || BandOf(days) == Expired
  {
    if days > 20 then "success" else if days > 10 then "warning" else "error"
  }

  /** `getSeverity`: the alert follows the same three ranges as the progress colour. */
  function Severity(days: int): (s: string)
    ensures s == "info" <==> BandOf(days) == Active
    ensures s == "warning" <==> BandOf(days) == Ending
    ensures s == "error" <==> BandOf(days) == Urgent || BandOf(days) == Expired
  {
    if days > 20 then "info" else if days > 10 then "warning" else "error"
  }

  /** The alert and the progress bar always agree: only the first range is named differently. */
  lemma SeverityMatchesProgress(days: int)
    ensures Severity(days) == (if ProgressColor(days) == "success" then "info" else ProgressColor(days))
  {
  }

  /** `getIcon`: one icon per band. */
  function IconName(days: int): (i: string)
    ensures BandOf(days) == Active ==> i == "tabler:calendar-check"
    ensures BandOf(days) == Ending ==> i == "tabler:calendar-exclamation"
    ensures BandOf(days) == Urgent ==> i == "tabler:calendar-x"
    ensures BandOf(days) == Expired ==> i == "tabler:calendar-off"
  {
    if days > 20 then "tabler:calendar-check"
    else if days > 10 then "tabler:calendar-exclamation"
    else if days > 0 then "tabler:calendar-x"
    else "tabler:calendar-off"
  }

  /** Distinct bands show distinct icons, so the icon alone tells the band. */
  lemma IconDeterminesBand(a: int, b: int)
    requires IconName(a) == IconName(b)
    ensures BandOf(a) == BandOf(b)
  {
  }

  /** The title icon's colour: orange while days remain, red once none do. */
  function IconColor(days: int): (c: string)
    ensures c == "#ed6c02" <==> days > 0
  {
    if days > 0 then "#ed6c02" else "#d32f2f"
  }

  predicate EndsWith(s: string, q: string) {
    |q| <= |s| && s[|s| - |q|..] == q
  }

  /** `${n}` for any integer. */
  function IntToString(n: int): (s: string)
    ensures s != []
    ensures n >= 0 ==> s == NatToString(n)
  {
    if n < 0 then "-" + NatToString(-n) else NatToString(n)
  }

  const ExpiredMessage: string :=
    "Tu período de prueba ha expirado. Contacta con el administrador para continuar."

  const ActiveOpening: string := "Tu período de prueba está activo. Tienes "
  const EndingOpening: string := "Tu período de prueba está llegando a su fin. Quedan "
  const UrgentOpening: string := "¡Atención! Tu período de prueba expira muy pronto. Solo quedan "

  /** `getMessage`: one opening per band, then the number of days. */
  function Message(days: int): (m: string)
    ensures days <= 0 ==> m == ExpiredMessage
    ensures days > 20 ==> StartsWith(m, ActiveOpening)
    ensures 10 < days <= 20 ==> StartsWith(m, EndingOpening)
    ensures 0 < days <= 10 ==> StartsWith(m, UrgentOpening)
    ensures days > 0 ==> exists pre, post :: m == pre + NatToString(days) + post
    ensures 0 < days <= 10 ==> (EndsWith(m, "días.") <==> days > 1)
  {
    if days > 20 then
      Mention(ActiveOpening, days,
        " días para explorar todas las funcionalidades.")
    else if days > 10 then
      Mention(EndingOpening, days, " días.")
    else if days > 0 then UrgentMessage(days)
    else ExpiredMessage
  }

  /** The message of the last ten days, with "día" in the plural unless one day is left. */
  function UrgentMessage(days: nat): (m: string)
    requires 0 < days
    ensures StartsWith(m, UrgentOpening)
    ensures exists pre, post :: m == pre + NatToString(days) + post
    ensures EndsWith(m, "días.") <==> days > 1
  {
    var post := " día" + (if days > 1 then "s" else "") + ".";
    var m := Mention(UrgentOpening, days, post);
    assert m[|m| - 5] == post[|post| - 5];
    assert days > 1 ==> m[|m| - 5..] == post[1..] == "días.";
    m
  }

  /** A sentence that names the number of days between `pre` and `post`. */
  function Mention(pre: string, days: nat, post: string): (m: string)
    ensures StartsWith(m, pre)
    ensures exists p, q :: m == p + NatToString(days) + q
    ensures EndsWith(m, post)
  {
    var m := pre + NatToString(days) + post;
    assert m[|m| - |post|..] == post;
    m
  }

  /** The chip: `"<d> día restante"`, with both words in the plural exactly when d is not 1. */
  function DaysLabel(days: int): (l: string)
    ensures StartsWith(l, IntToString(days))
    ensures EndsWith(l, "restantes") <==> days != 1
    ensures EndsWith(l, "restante") <==> days == 1
  {
    var s := if days != 1 then "s" else "";
    var l := IntToString(days) + " día" + s + " restante" + s;
    assert l[|l| - 1] == (if days != 1 then 's' else 'e');
    assert days != 1 ==> l[|l| - 9..] == "restantes";
    assert days == 1 ==> l[|l| - 8..] == "restante";
    l
  }

  /** The upgrade note and the "Contactar Soporte" button are shown together. */
  predicate ShowsContact(days: int) {
    days <= 10 && days > 0
  }

  /**
   * The contact offer appears exactly in the last ten days of a running trial: the urgent band,
   * which is where the progress colour is 'error' but the icon is still orange.
   */
  lemma ContactOnlyWhenUrgent(days: int)
    ensures ShowsContact(days) <==> BandOf(days) == Urgent
    ensures ShowsContact(days) <==> ProgressColor(days) == "error" && IconColor(days) == "#ed6c02"
  {
  }
}
