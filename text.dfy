/**
 * The string operations the views rely on, with JavaScript's meaning: the `\s` character
 * class, `trim`, `split(/\s+/).filter(Boolean)`, `join`, `includes`, `startsWith` and the
 * decimal form of a number (`${n}` and `Number(digits)`).
 */
module Text {

  // ---------------------------------------------------------------------------------------------
  // Whitespace and trim
  // ---------------------------------------------------------------------------------------------

  /**
   * JavaScript's `\s` (also what `trim` strips): tab, line feed, vertical tab, form feed,
   * carriage return, space, and the Unicode space separators, line and paragraph separators
   * and the byte order mark.
   */
  const SpaceRanges: seq<(int, int)> := [
    (0x20, 0x20), (0x09, 0x0D), (0xA0, 0xA0), (0x1680, 0x1680), (0x2000, 0x200A),
    (0x2028, 0x2029), (0x202F, 0x202F), (0x205F, 0x205F), (0x3000, 0x3000), (0xFEFF, 0xFEFF)
  ]

  predicate IsSpace(c: char) {
    InRanges(c as int, SpaceRanges)
  }

  /** `n` lies in one of the inclusive ranges. */
  predicate InRanges(n: int, ranges: seq<(int, int)>) {
    ranges != [] && (ranges[0].0 <= n <= ranges[0].1 || InRanges(n, ranges[1..]))
  }

  lemma {:induction false} OutsideRanges(n: int, ranges: seq<(int, int)>)
    requires forall i :: 0 <= i < |ranges| ==> !(ranges[i].0 <= n <= ranges[i].1)
    ensures !InRanges(n, ranges)
  {
    if ranges != [] {
      OutsideRanges(n, ranges[1..]);
    }
  }

  /** No printable ASCII character other than the space is whitespace. */
  lemma PrintableNotSpace(c: char)
    requires 0x21 <= c as int <= 0x7E
    ensures !IsSpace(c)
  {
    OutsideRanges(c as int, SpaceRanges);
  }

  /** Every character is whitespace (the strings for which `!s.trim()` holds). */
  predicate IsBlank(s: string) {
    forall i :: 0 <= i < |s| ==> IsSpace(s[i])
  }

  /** A non-empty run without whitespace: what `split(/\s+/).filter(Boolean)` yields. */
  predicate IsWord(w: string) {
    w != [] && forall i :: 0 <= i < |w| ==> !IsSpace(w[i])
  }

  /** `s.trimStart()`: a suffix of `s`; what was cut off is whitespace and what remains does not start with any. */
  function TrimStart(s: string): (r: string)
    ensures |r| <= |s|
    ensures r == [] || !IsSpace(r[0])
    ensures forall i :: 0 <= i < |s| - |r| ==> IsSpace(s[i])
  {
    if s != [] && IsSpace(s[0]) then TrimStart(s[1..]) else s
  }

  /** `s.trimEnd()`: a prefix of `s`; what was cut off is whitespace and what remains does not end with any. */
  function TrimEnd(s: string): (r: string)
    ensures |r| <= |s|
    ensures r == [] || !IsSpace(r[|r| - 1])
    ensures forall i :: |r| <= i < |s| ==> IsSpace(s[i])
  {
    if s != [] && IsSpace(s[|s| - 1]) then TrimEnd(s[..|s| - 1]) else s
  }

  /** `trimStart` keeps a suffix. */
  lemma {:induction false} TrimStartSuffix(s: string)
    ensures TrimStart(s) == s[|s| - |TrimStart(s)|..]
    decreases |s|
  {
    if s != [] && IsSpace(s[0]) {
      TrimStartSuffix(s[1..]);
    }
  }

  /** `trimEnd` keeps a prefix. */
  lemma {:induction false} TrimEndPrefix(s: string)
    ensures TrimEnd(s) == s[..|TrimEnd(s)|]
    decreases |s|
  {
    if s != [] && IsSpace(s[|s| - 1]) {
      TrimEndPrefix(s[..|s| - 1]);
    }
  }

  /** A leading whitespace character is always cut off. */
  lemma TrimStartShrinks(s: string)
    requires s != [] && IsSpace(s[0])
    ensures TrimStart(s) == TrimStart(s[1..]) && |TrimStart(s)| < |s|
  {
  }

  /** `s.trim()`. */
  function Trim(s: string): (r: string) {
    TrimEnd(TrimStart(s))
  }

  /** `!s.trim()` holds exactly for the blank strings. */
  lemma TrimEmptyIffBlank(s: string)
    ensures Trim(s) == [] <==> IsBlank(s)
  {
    var t := TrimStart(s);
    TrimStartSuffix(s);
    if Trim(s) == [] {
      forall i | 0 <= i < |s| ensures IsSpace(s[i]) {
        if i >= |s| - |t| {
          assert s[i] == t[i - (|s| - |t|)];
        }
      }
    }
  }

  // ---------------------------------------------------------------------------------------------
  // Words and join
  // ---------------------------------------------------------------------------------------------

  /** The longest prefix of `s` without whitespace. */
  function TakeWord(s: string): (w: string)
    ensures |w| <= |s| && w == s[..|w|]
    ensures forall i :: 0 <= i < |w| ==> !IsSpace(w[i])
    ensures |w| == |s| || IsSpace(s[|w|])
    ensures s != [] && !IsSpace(s[0]) ==> w != []
  {
    if s == [] || IsSpace(s[0]) then [] else [s[0]] + TakeWord(s[1..])
  }

  /** `s.split(/\s+/).filter(Boolean)`: the maximal whitespace-free runs of `s`, in order. */
  function Words(s: string): (ws: seq<string>)
    ensures forall i :: 0 <= i < |ws| ==> IsWord(ws[i])
    decreases |s|
  {
    var t := TrimStart(s);
    if t == [] then []
    else
      var w := TakeWord(t);
      var rest := Words(t[|w|..]);
      assert IsWord(w);
      assert forall i :: 0 < i <= |rest| ==> ([w] + rest)[i] == rest[i - 1];
      [w] + rest
  }

  /** `xs.join(sep)`. */
  function Join(xs: seq<string>, sep: string): string {
    if xs == [] then []
    else if |xs| == 1 then xs[0]
    else xs[0] + sep + Join(xs[1..], sep)
  }

  /**
   * `s.replace(/\s+/g, ' ').trim()`: every whitespace run becomes one space and the ends are
   * trimmed, which leaves the words of `s` separated by single spaces.
   */
  function Normalize(s: string): string {
    Join(Words(s), " ")
  }

  lemma TakeWordOf(w: string, x: string)
    requires forall i :: 0 <= i < |w| ==> !IsSpace(w[i])
    requires x == [] || IsSpace(x[0])
    ensures TakeWord(w + x) == w
  {
    if w != [] {
      assert (w + x)[1..] == w[1..] + x;
      TakeWordOf(w[1..], x);
    } else {
      assert w + x == x;
    }
  }

  lemma WordsSkipSpace(s: string)
    requires s != [] && IsSpace(s[0])
    ensures Words(s) == Words(s[1..])
  {
    assert TrimStart(s) == TrimStart(s[1..]);
  }

  lemma WordsOfWord(w: string, rest: string)
    requires IsWord(w)
    requires rest == [] || IsSpace(rest[0])
    ensures Words(w + rest) == [w] + Words(rest)
  {
    var s := w + rest;
    assert s[0] == w[0];
    assert TrimStart(s) == s;
    TakeWordOf(w, rest);
    assert s[|w|..] == rest;
  }

  lemma JoinCons(w: string, ws: seq<string>, sep: string)
    requires ws != []
    ensures Join([w] + ws, sep) == w + (sep + Join(ws, sep))
  {
    assert ([w] + ws)[1..] == ws;
  }

  lemma WordsOfJoinCons(w: string, ws: seq<string>)
    requires IsWord(w) && ws != []
    requires Words(Join(ws, " ")) == ws
    ensures Words(Join([w] + ws, " ")) == [w] + ws
  {
    var spaced := " " + Join(ws, " ");
    JoinCons(w, ws, " ");
    assert IsSpace(spaced[0]);
    WordsOfWord(w, spaced);
    WordsSkipSpace(spaced);
    assert spaced[1..] == Join(ws, " ");
  }

  /** Splitting the space-joined words again gives back the same words. */
  lemma {:induction false} WordsOfJoin(ws: seq<string>)
    requires forall i :: 0 <= i < |ws| ==> IsWord(ws[i])
    ensures Words(Join(ws, " ")) == ws
  {
    if ws == [] {
      assert TrimStart([]) == [];
    } else if |ws| == 1 {
      WordsOfWord(ws[0], []);
      assert ws[0] + [] == ws[0];
      assert TrimStart([]) == [];
      assert ws == [ws[0]];
    } else {
      WordsOfJoin(ws[1..]);
      WordsOfJoinCons(ws[0], ws[1..]);
      assert ws == [ws[0]] + ws[1..];
    }
  }

  /** `Words` returns nothing exactly for blank text. */
  lemma {:induction false} WordsEmptyIffBlank(s: string)
    ensures Words(s) == [] <==> IsBlank(s)
  {
    var t := TrimStart(s);
    TrimStartSuffix(s);
    if t != [] {
      assert s[|s| - |t|] == t[0];
    }
  }

  /** A space-joined list of words is empty exactly when the list is. */
  lemma JoinEmpty(ws: seq<string>)
    requires forall i :: 0 <= i < |ws| ==> IsWord(ws[i])
    ensures Join(ws, " ") == [] <==> ws == []
  {
    if |ws| > 1 {
      assert |Join(ws, " ")| >= |ws[0]|;
    }
  }

  // ---------------------------------------------------------------------------------------------
  // includes / startsWith
  // ---------------------------------------------------------------------------------------------

  /** `s.startsWith(p)`. */
  predicate StartsWith(s: string, p: string) {
    p <= s
  }

  /** `s.includes(sub)`: `sub` occurs in `s` at some index. */
  predicate Includes(s: string, sub: string) {
    exists i :: 0 <= i <= |s| - |sub| && OccursAt(s, sub, i)
  }

  /** `sub` occurs in `s` starting at index `i`. */
  predicate OccursAt(s: string, sub: string, i: int) {
    0 <= i && i + |sub| <= |s| && s[i..i + |sub|] == sub
  }

  // ---------------------------------------------------------------------------------------------
  // Decimal numerals
  // ---------------------------------------------------------------------------------------------

  predicate IsDigit(c: char) {
    '0' <= c <= '9'
  }

  predicate AllDigits(s: string) {
    forall i :: 0 <= i < |s| ==> IsDigit(s[i])
  }

  function DigitChar(d: nat): (c: char)
    requires d < 10
    ensures IsDigit(c)
  {
    (48 + d) as char
  }

  /** `${n}` for a non-negative integer. */
  function NatToString(n: nat): (s: string)
    ensures s != [] && AllDigits(s)
  {
    if n < 10 then [DigitChar(n)] else NatToString(n / 10) + [DigitChar(n % 10)]
  }

  /** `Number(s)` for a string of decimal digits. */
  function ParseNat(s: string): nat
    requires AllDigits(s)
  {
    if s == [] then 0 else ParseNat(s[..|s| - 1]) * 10 + (s[|s| - 1] as int - 48)
  }

  /** Reading back the decimal form of a number gives the number. */
  lemma {:induction false} ParseNatToString(n: nat)
    ensures ParseNat(NatToString(n)) == n
  {
    if n >= 10 {
      var s := NatToString(n);
      assert s[..|s| - 1] == NatToString(n / 10);
      ParseNatToString(n / 10);
    }
  }
}
