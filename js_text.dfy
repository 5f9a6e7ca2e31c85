/** The few JavaScript value operations the dashboard leans on, stated over
    Dafny strings: `textContent || fallback`, `String.prototype.includes`,
    `startsWith`, `toLowerCase`, the decimal rendering of a whole number
    inside a template literal, and `Response.ok`. */
module JsText {

  datatype Option<+T> = None | Some(value: T) {
    function GetOr(default: T): T {
      match this
      case Some(v) => v
      case None => default
    }
  }

  /** A queried text is truthy when the element exists and its text is not
      empty; `undefined`, `null` and `''` are all falsy. */
  predicate Truthy(text: Option<string>) {
    text.Some? && text.value != ""
  }

  /** `text || fallback` */
  function OrDefault(text: Option<string>, fallback: string): string {
    if Truthy(text) then text.value else fallback
  }

  /** `text || null` */
  function OrNull(text: Option<string>): Option<string> {
    if Truthy(text) then text else None
  }

  /** `response.ok` of a fetch Response: a status from 200 to 299. */
  predicate IsOk(status: nat) {
    200 <= status <= 299
  }

  /** Lower-casing of one character; only the ASCII letters are folded. */
  function LowerChar(c: char): char {
    if 'A' <= c <= 'Z' then (c as int + 32) as char else c
  }

  /** `s.toLowerCase()` */
  function ToLower(s: string): (r: string)
    ensures |r| == |s|
    ensures forall i :: 0 <= i < |s| ==> r[i] == LowerChar(s[i])
  {
    if s == [] then [] else [LowerChar(s[0])] + ToLower(s[1..])
  }

  /** `s.startsWith(prefix)` */
  predicate StartsWith(s: string, prefix: string) {
    |prefix| <= |s| && s[..|prefix|] == prefix
  }

  /** `s.includes(part)`, scanning from the left as the built-in does. */
  predicate Includes(s: string, part: string)
    decreases |s|
  {
    StartsWith(s, part) || (|s| > 0 && Includes(s[1..], part))
  }

  /** `part` occurs in `s` starting at offset `i`. */
  predicate OccursAt(s: string, part: string, i: int) {
    0 <= i <= |s| - |part| && s[i..i + |part|] == part
  }

  /** `Includes` holds exactly when `part` occurs at some offset of `s`. */
  lemma {:induction false} IncludesIffOccurs(s: string, part: string)
    ensures Includes(s, part) <==> exists i :: OccursAt(s, part, i)
    decreases |s|
  {
    if StartsWith(s, part) {
      assert OccursAt(s, part, 0);
    } else if |s| == 0 {
    } else {
      IncludesIffOccurs(s[1..], part);
      if exists i :: OccursAt(s, part, i) {
        var i :| OccursAt(s, part, i);
        assert i != 0;
        assert s[1..][i - 1..i - 1 + |part|] == s[i..i + |part|];
        assert OccursAt(s[1..], part, i - 1);
      }
      if Includes(s[1..], part) {
        var j :| OccursAt(s[1..], part, j);
        assert s[1..][j..j + |part|] == s[j + 1..j + 1 + |part|];
        assert OccursAt(s, part, j + 1);
      }
    }
  }

  function DigitChar(d: nat): char
    requires d < 10
  {
    "0123456789"[d]
  }

  /** The decimal text JavaScript gives a whole number in `${n}`. */
  function NatToString(n: nat): (r: string)
    ensures |r| >= 1
    ensures forall i :: 0 <= i < |r| ==> '0' <= r[i] <= '9'
    ensures n > 0 ==> r[0] != '0'
    decreases n
  {
    if n < 10 then [DigitChar(n)] else NatToString(n / 10) + [DigitChar(n % 10)]
  }

  /** The value of a string of decimal digits. */
  function DigitsValue(s: string): nat
    requires forall i :: 0 <= i < |s| ==> '0' <= s[i] <= '9'
  {
    if s == [] then 0
    else DigitsValue(s[..|s| - 1]) * 10 + (s[|s| - 1] as int - '0' as int)
  }

  /** Reading the decimal text back gives the number. */
  lemma {:induction false} NatToStringRoundTrip(n: nat)
    ensures DigitsValue(NatToString(n)) == n
    decreases n
  {
    var r := NatToString(n);
    DigitCharValue(n % 10);
    if n >= 10 {
      NatToStringRoundTrip(n / 10);
      var prefix := NatToString(n / 10);
      assert r == prefix + [DigitChar(n % 10)];
      assert r[..|r| - 1] == prefix;
      assert n == n / 10 * 10 + n % 10;
    }
  }

  lemma DigitCharValue(d: nat)
    requires d < 10
    ensures DigitChar(d) as int - '0' as int == d
  {
  }
}
