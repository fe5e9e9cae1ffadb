/** The string operations the pages use, in ASCII: `toLowerCase`, `includes`
    and `parseInt` with no radix, together with a decimal rendering that
    `parseInt` inverts. */
module Text {
  import opened Seqs

  predicate IsUpper(c: char) { 'A' <= c <= 'Z' }

  /** ASCII lower-casing of one character. */
  function LowerChar(c: char): (r: char)
    ensures !IsUpper(r)
    ensures !IsUpper(c) ==> r == c
    ensures IsUpper(c) ==> 'a' <= r <= 'z' && r as int - c as int == 'a' as int - 'A' as int
  {
    if IsUpper(c) then (c as int - 'A' as int + 'a' as int) as char else c
  }

  /** `s.toLowerCase()`, restricted to ASCII letters. */
  function Lower(s: string): (r: string)
    ensures |r| == |s|
    ensures forall i :: 0 <= i < |s| ==> r[i] == LowerChar(s[i])
  {
    if s == [] then [] else [LowerChar(s[0])] + Lower(s[1..])
  }

  /** `pattern` occurs in `text` starting at position `i`. */
  predicate OccursAt(text: string, pattern: string, i: nat) {
    i + |pattern| <= |text| && text[i..i + |pattern|] == pattern
  }

  /** `text.includes(pattern)`: `pattern` occurs in `text` at some position. */
  function Includes(text: string, pattern: string): (r: bool)
    ensures r <==> exists i: nat :: OccursAt(text, pattern, i)
    decreases |text|
  {
    if |pattern| > |text| then false
    else if text[..|pattern|] == pattern then assert OccursAt(text, pattern, 0); true
    else
      var r := Includes(text[1..], pattern);
      assert forall i: nat :: OccursAt(text[1..], pattern, i) <==> OccursAt(text, pattern, i + 1);
      assert !OccursAt(text, pattern, 0);
      assert forall i: nat :: OccursAt(text, pattern, i) ==> i >= 1 && OccursAt(text[1..], pattern, i - 1);
      r
  }

  // ---- parseInt ----

  predicate IsDigit(c: char) { '0' <= c <= '9' }

  /** The white space `parseInt` skips before the number: the ECMAScript
      WhiteSpace characters (tab, vertical tab, form feed, the byte order mark
      and every space separator of Unicode category Zs) and the LineTerminator
      characters. */
  predicate IsSpace(c: char) {
    if c < '\U{00A0}' then
      c == ' ' || '\t' <= c <= '\r'   // tab, line feed, vertical tab, form feed, carriage return
    else
      c == '\U{00A0}' || c == '\U{1680}' || '\U{2000}' <= c <= '\U{200A}' ||
      c == '\U{2028}' || c == '\U{2029}' || c == '\U{202F}' || c == '\U{205F}' ||
      c == '\U{3000}' || c == '\U{FEFF}'
  }

  function TrimStart(s: string): (r: string)
    ensures r != [] ==> !IsSpace(r[0])
  {
    if s != [] && IsSpace(s[0]) then TrimStart(s[1..]) else s
  }

  /** The longest prefix of `s` made of decimal digits. */
  function LeadingDigits(s: string): (r: string)
    ensures |r| <= |s| && r == s[..|r|]
    ensures forall i :: 0 <= i < |r| ==> IsDigit(r[i])
    ensures |r| < |s| ==> !IsDigit(s[|r|])
  {
    if s != [] && IsDigit(s[0]) then [s[0]] + LeadingDigits(s[1..]) else []
  }

  /** The value of a decimal numeral, most significant digit first. */
  function DigitsValue(ds: string): (v: int)
    requires forall i :: 0 <= i < |ds| ==> IsDigit(ds[i])
    ensures v >= 0
  {
    if ds == [] then 0
    else
      assert IsDigit(ds[|ds| - 1]);
      DigitsValue(ds[..|ds| - 1]) * 10 + (ds[|ds| - 1] as int - '0' as int)
  }

  /** `parseInt(s)`: skip white space, read an optional sign and the digits that
      follow; `None` stands for `NaN`, when no digit follows. */
  function ParseInt(s: string): (r: Option<int>)
    ensures r.None? <==> LeadingDigits(Unsigned(TrimStart(s))) == []
  {
    var t := TrimStart(s);
    var ds := LeadingDigits(Unsigned(t));
    if ds == [] then None
    else if t[0] == '-' then Some(0 - DigitsValue(ds))
    else Some(DigitsValue(ds))
  }

  /** White space of any kind before the text does not change what
      `parseInt` reads. */
  lemma ParseSkipsSpace(c: char, s: string)
    requires IsSpace(c)
    ensures ParseInt([c] + s) == ParseInt(s)
  {
    TrimSkipsSpace(c, s);
  }

  lemma TrimSkipsSpace(c: char, s: string)
    requires IsSpace(c)
    ensures TrimStart([c] + s) == TrimStart(s)
  {
    assert ([c] + s)[1..] == s;
  }

  /** Some white space `parseInt` skips beyond ASCII, and a look-alike it
      does not skip: the zero-width space is not white space. */
  lemma UnicodeSpaces()
    ensures IsSpace('\U{3000}') && IsSpace('\U{2028}') && IsSpace('\U{1680}') && IsSpace('\U{00A0}')
    ensures !IsSpace('\U{200B}')
  {
  }

  /** After an ideographic space, `parseInt` still reads the number. */
  lemma ParseAfterIdeographicSpace(n: int)
    ensures ParseInt(['\U{3000}'] + ShowInt(n)) == Some(n)
  {
    ParseSkipsSpace('\U{3000}', ShowInt(n));
    ParseShowRoundTrip(n);
  }

  /** What follows an optional leading sign. */
  function Unsigned(t: string): (r: string)
    ensures r == if t != [] && (t[0] == '-' || t[0] == '+') then t[1..] else t
  {
    if t != [] && (t[0] == '-' || t[0] == '+') then t[1..] else t
  }

  function DigitChar(d: nat): (c: char)
    requires d < 10
    ensures IsDigit(c) && c as int - '0' as int == d
  {
    (d + '0' as int) as char
  }

  /** `String(n)` for a natural number. */
  function ShowNat(n: nat): (r: string)
    ensures r != []
    ensures forall i :: 0 <= i < |r| ==> IsDigit(r[i])
  {
    if n < 10 then [DigitChar(n)] else ShowNat(n / 10) + [DigitChar(n % 10)]
  }

  /** `String(n)` for an integer. */
  function ShowInt(n: int): string {
    if n < 0 then "-" + ShowNat(-n) else ShowNat(n)
  }

  lemma {:induction false} DigitsValueOfShowNat(n: nat)
    ensures DigitsValue(ShowNat(n)) == n
  {
    if n >= 10 {
      DigitsValueOfShowNat(n / 10);
      var s := ShowNat(n);
      assert s[..|s| - 1] == ShowNat(n / 10);
    }
  }

  lemma {:induction false} LeadingDigitsOfDigits(s: string)
    requires forall i :: 0 <= i < |s| ==> IsDigit(s[i])
    ensures LeadingDigits(s) == s
  {
    if s != [] {
      LeadingDigitsOfDigits(s[1..]);
    }
  }

  /** Parsing the decimal rendering of any integer gives that integer back. */
  lemma ParseShowRoundTrip(n: int)
    ensures ParseInt(ShowInt(n)) == Some(n)
  {
    var m: nat := if n < 0 then -n else n;
    var s := ShowInt(n);
    var digits := ShowNat(m);
    assert IsDigit(digits[0]);
    assert s[0] == '-' || s[0] == digits[0];
    NotSpace(s[0]);
    assert TrimStart(s) == s;
    assert Unsigned(s) == digits;
    LeadingDigitsOfDigits(digits);
    DigitsValueOfShowNat(m);
  }

  lemma NotSpace(c: char)
    requires c == '-' || IsDigit(c)
    ensures !IsSpace(c)
  {
  }
}
