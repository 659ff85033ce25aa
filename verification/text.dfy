/** String helpers with the JavaScript semantics the client relies on:
    ASCII lower-casing, `String.prototype.includes`, `Array.prototype.join`,
    decimal digits, the white space `parseFloat` skips, and `length` in
    UTF-16 code units. */
module Text {
  import opened Wrappers

  predicate IsUpper(c: char) { 'A' <= c <= 'Z' }
  predicate IsLower(c: char) { 'a' <= c <= 'z' }
  predicate IsDigit(c: char) { '0' <= c <= '9' }

  function LowerChar(c: char): char {
    if IsUpper(c) then (c as int + 32) as char else c
  }

  /** `toLowerCase` restricted to ASCII. */
  function ToLower(s: string): (r: string)
    ensures |r| == |s|
    ensures forall i :: 0 <= i < |s| ==> !IsUpper(r[i])
    ensures forall i :: 0 <= i < |s| && !IsUpper(s[i]) ==> r[i] == s[i]
    ensures forall i :: 0 <= i < |s| && IsUpper(s[i]) ==> r[i] as int == s[i] as int + 32
  {
    seq(|s|, i requires 0 <= i < |s| => LowerChar(s[i]))
  }

  /** Reference meaning of `hay.includes(needle)`: the needle occurs at some offset. */
  ghost predicate OccursAt(hay: string, needle: string, i: int) {
    0 <= i && i + |needle| <= |hay| && hay[i..i + |needle|] == needle
  }

  /** `hay.includes(needle)`, by a left-to-right scan. */
  function Includes(hay: string, needle: string): bool
    decreases |hay|
  {
    if |needle| > |hay| then false
    else if hay[..|needle|] == needle then true
    else Includes(hay[1..], needle)
  }

  lemma {:induction false} IncludesMeansOccurs(hay: string, needle: string)
    ensures Includes(hay, needle) <==> exists i :: OccursAt(hay, needle, i)
    decreases |hay|
  {
    if |needle| > |hay| {
    } else if hay[..|needle|] == needle {
      assert OccursAt(hay, needle, 0);
    } else {
      IncludesMeansOccurs(hay[1..], needle);
      if Includes(hay[1..], needle) {
        var i :| OccursAt(hay[1..], needle, i);
        assert hay[i + 1..i + 1 + |needle|] == hay[1..][i..i + |needle|];
        assert OccursAt(hay, needle, i + 1);
      }
      if exists i :: OccursAt(hay, needle, i) {
        var i :| OccursAt(hay, needle, i);
        assert i != 0;
        assert hay[1..][i - 1..i - 1 + |needle|] == hay[i..i + |needle|];
        assert OccursAt(hay[1..], needle, i - 1);
      }
    }
  }

  /** Case-insensitive containment as the listing filters use it. */
  predicate ContainsIgnoringCase(hay: string, needle: string) {
    Includes(ToLower(hay), ToLower(needle))
  }

  /** `parts.join(sep)`. */
  function Join(parts: seq<string>, sep: string): (r: string)
    ensures |parts| == 0 ==> r == ""
    ensures |parts| == 1 ==> r == parts[0]
    ensures |parts| > 1 ==> r == parts[0] + sep + Join(parts[1..], sep)
  {
    if |parts| == 0 then ""
    else if |parts| == 1 then parts[0]
    else parts[0] + sep + Join(parts[1..], sep)
  }

  function DigitChar(d: nat): char
    requires d < 10
  {
    ('0' as int + d) as char
  }

  /** The value of a decimal digit; other characters count as 0. */
  function DigitValue(c: char): nat {
    if IsDigit(c) then c as int - '0' as int else 0
  }

  /** `String(n)` for a natural number: its decimal digits, most significant first. */
  function NatToString(n: nat): (r: string)
    ensures |r| > 0
    ensures forall i :: 0 <= i < |r| ==> IsDigit(r[i])
  {
    if n < 10 then [DigitChar(n)] else NatToString(n / 10) + [DigitChar(n % 10)]
  }

  /** Value of a string of decimal digits. */
  function DigitsValue(ds: string): nat {
    if |ds| == 0 then 0 else DigitsValue(ds[..|ds| - 1]) * 10 + DigitValue(ds[|ds| - 1])
  }

  /** Length of the run of decimal digits that starts `s`. */
  function LeadingDigits(s: string): (k: nat)
    ensures k <= |s|
    ensures forall i :: 0 <= i < k ==> IsDigit(s[i])
    ensures k < |s| ==> !IsDigit(s[k])
  {
    if |s| == 0 || !IsDigit(s[0]) then 0 else 1 + LeadingDigits(s[1..])
  }

  /** The white space and line terminators `parseFloat` skips: tab, the line
      breaks, vertical tab, form feed, space, no-break space, the byte order
      mark and the Unicode space separators. */
  predicate IsSpace(c: char) {
    || c == '\t' || c == '\n' || c == '\U{B}' || c == '\U{C}' || c == '\r' || c == ' '
    || c == '\U{A0}' || c == '\U{1680}' || '\U{2000}' <= c <= '\U{200A}'
    || c == '\U{2028}' || c == '\U{2029}' || c == '\U{202F}' || c == '\U{205F}'
    || c == '\U{3000}' || c == '\U{FEFF}'
  }

  function TrimStart(s: string): (r: string)
    ensures |r| <= |s| && r == s[|s| - |r|..]
    ensures |r| > 0 ==> !IsSpace(r[0])
  {
    if |s| > 0 && IsSpace(s[0]) then TrimStart(s[1..]) else s
  }

  lemma {:induction false} DigitsOfNat(n: nat)
    ensures DigitsValue(NatToString(n)) == n
  {
    if n >= 10 {
      var prefix := NatToString(n / 10);
      var s := prefix + [DigitChar(n % 10)];
      assert s[..|s| - 1] == prefix;
      DigitsOfNat(n / 10);
    }
  }

  /** Appending a digit multiplies the value by ten and adds the digit. */
  lemma DigitsValueSnoc(ds: string, d: nat)
    requires d < 10
    ensures DigitsValue(ds + [DigitChar(d)]) == DigitsValue(ds) * 10 + d
  {
    var s := ds + [DigitChar(d)];
    assert s[..|s| - 1] == ds;
  }

  /** A run of digits followed by a non-digit is read up to the non-digit. */
  lemma {:induction false} LeadingDigitsConcat(ds: string, rest: string)
    requires forall i :: 0 <= i < |ds| ==> IsDigit(ds[i])
    requires |rest| == 0 || !IsDigit(rest[0])
    ensures LeadingDigits(ds + rest) == |ds|
    decreases |ds|
  {
    if |ds| > 0 {
      assert (ds + rest)[1..] == ds[1..] + rest;
      LeadingDigitsConcat(ds[1..], rest);
    }
  }

  lemma NoLeadingSpace(s: string)
    requires |s| > 0 && !IsSpace(s[0])
    ensures TrimStart(s) == s
  {
  }

  /** `s.length`: the number of UTF-16 code units, where a character above
      U+FFFF takes two. */
  function Utf16Length(s: string): (n: nat)
    ensures n >= |s|
    ensures (forall i :: 0 <= i < |s| ==> s[i] as int <= 0xFFFF) ==> n == |s|
  {
    if |s| == 0 then 0 else (if s[0] as int > 0xFFFF then 2 else 1) + Utf16Length(s[1..])
  }
}
