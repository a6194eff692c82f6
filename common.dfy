/** Values and text helpers shared by every module of the model: optional
    values, results with an error side, decimal and hexadecimal rendering
    with their parsers, whitespace trimming, splitting on a separator and
    the integer parser that Python's int() applies to a string. */
module Common {

  datatype Option<T> = None | Some(value: T)

  datatype Result<T, E> = Ok(value: T) | Err(error: E)

  /** A member of a JSON request body: absent, null, a string or an integer. */
  datatype Field = Missing | Null | Text(text: string) | Number(number: int)

  /** Python truthiness of the member: a non-empty string or a non-zero
      integer. */
  predicate Truthy(f: Field) { (f.Text? && f.text != "") || (f.Number? && f.number != 0) }

  /** Python's str() of a string or integer member, as an f-string shows it. */
  function FieldText(f: Field): (s: string)
    requires f.Text? || f.Number?
    ensures f.Text? ==> s == f.text
  {
    if f.Text? then f.text else IntToString(f.number)
  }

  // ---------------------------------------------------------------------
  // Characters

  predicate IsDigit(c: char) { '0' <= c <= '9' }

  /** ASCII whitespace: space, tab, line feed, vertical tab, form feed, carriage return. */
  predicate IsSpace(c: char) {
    c == ' ' || c == '\t' || c == '\n' || c == '\U{B}' || c == '\U{C}' || c == '\r'
  }

  predicate AllDigits(s: string) { forall i :: 0 <= i < |s| ==> IsDigit(s[i]) }

  function DigitChar(d: nat): (c: char)
    requires d < 10
    ensures IsDigit(c)
  {
    (d + '0' as int) as char
  }

  function DigitValue(c: char): (d: nat)
    requires IsDigit(c)
    ensures d < 10 && DigitChar(d) == c
  {
    c as int - '0' as int
  }

  /** Letters a-z become A-Z; every other character is kept. */
  function UpperChar(c: char): (u: char)
    ensures 'a' <= c <= 'z' ==> 'A' <= u <= 'Z'
    ensures !('a' <= c <= 'z') ==> u == c
  {
    if 'a' <= c <= 'z' then (c as int - 32) as char else c
  }

  function ToUpper(s: string): (u: string)
    ensures |u| == |s|
    ensures forall i :: 0 <= i < |s| ==> u[i] == UpperChar(s[i])
  {
    if s == [] then [] else [UpperChar(s[0])] + ToUpper(s[1..])
  }

  // ---------------------------------------------------------------------
  // Decimal numbers

  /** The value of a string of decimal digits, most significant first. */
  function DigitsValue(s: string): nat
    requires AllDigits(s)
  {
    if s == [] then 0 else DigitsValue(s[..|s| - 1]) * 10 + DigitValue(s[|s| - 1])
  }

  /** Decimal rendering without leading zeros, as str(n) and `${n}` give it. */
  function NatToString(n: nat): (s: string)
    ensures |s| > 0 && AllDigits(s)
    ensures |s| > 1 ==> s[0] != '0'
  {
    if n < 10 then [DigitChar(n)] else NatToString(n / 10) + [DigitChar(n % 10)]
  }

  lemma {:induction false} NatToStringValue(n: nat)
    ensures DigitsValue(NatToString(n)) == n
  {
    if n >= 10 {
      var s := NatToString(n);
      assert s[..|s| - 1] == NatToString(n / 10);
      NatToStringValue(n / 10);
    }
  }

  /** Decimal rendering of an integer with a leading '-' when negative. */
  function IntToString(i: int): (s: string)
    ensures |s| > 0
  {
    if i < 0 then "-" + NatToString(-i) else NatToString(i)
  }

  /** Two-digit zero-padded rendering, as '%02d' gives it for 0..99. */
  function Pad2(n: nat): (s: string)
    requires n < 100
    ensures |s| == 2 && AllDigits(s) && DigitsValue(s) == n
  {
    var s := [DigitChar(n / 10), DigitChar(n % 10)];
    assert s[..1] == [DigitChar(n / 10)] && s[..1][..0] == [];
    assert DigitsValue(s[..1]) == n / 10;
    s
  }

  // ---------------------------------------------------------------------
  // Trimming, splitting, searching

  function TrimLeft(s: string): (t: string)
    ensures |t| <= |s|
    decreases |s|
  {
    if s != [] && IsSpace(s[0]) then TrimLeft(s[1..]) else s
  }

  function TrimRight(s: string): (t: string)
    ensures |t| <= |s|
    decreases |s|
  {
    if s != [] && IsSpace(s[|s| - 1]) then TrimRight(s[..|s| - 1]) else s
  }

  /** Whitespace stripped from both ends, as Python's str.strip() and JavaScript's trim(). */
  function Trim(s: string): (t: string)
    ensures |t| <= |s|
  {
    TrimRight(TrimLeft(s))
  }

  lemma {:induction false} TrimLeftAllSpace(s: string)
    requires forall i :: 0 <= i < |s| ==> IsSpace(s[i])
    ensures TrimLeft(s) == []
    decreases |s|
  {
    if s != [] { TrimLeftAllSpace(s[1..]); }
  }

  /** Left trimming stops at the first character that is not whitespace. */
  lemma {:induction false} TrimLeftStops(s: string, k: nat)
    requires k < |s| && !IsSpace(s[k])
    ensures TrimLeft(s) != [] && !IsSpace(TrimLeft(s)[0])
    decreases |s|
  {
    if IsSpace(s[0]) {
      TrimLeftStops(s[1..], k - 1);
    }
  }

  /** Right trimming keeps everything up to a character that is not whitespace. */
  lemma {:induction false} TrimRightKeeps(s: string, k: nat)
    requires k < |s| && !IsSpace(s[k])
    ensures |TrimRight(s)| > k
    decreases |s|
  {
    if IsSpace(s[|s| - 1]) {
      TrimRightKeeps(s[..|s| - 1], k);
    }
  }

  /** Trimming leaves nothing exactly when the string is all whitespace. */
  lemma TrimAllSpace(s: string)
    ensures Trim(s) == [] <==> forall i :: 0 <= i < |s| ==> IsSpace(s[i])
  {
    if forall i :: 0 <= i < |s| ==> IsSpace(s[i]) {
      TrimLeftAllSpace(s);
    } else {
      var k :| 0 <= k < |s| && !IsSpace(s[k]);
      TrimLeftStops(s, k);
      TrimRightKeeps(TrimLeft(s), 0);
    }
  }

  /** Python's str.split(sep) for a one-character separator. */
  function SplitOn(s: string, sep: char): (parts: seq<string>)
    ensures |parts| >= 1
    ensures forall i :: 0 <= i < |parts| ==> sep !in parts[i]
  {
    if s == [] then [""]
    else
      var rest := SplitOn(s[1..], sep);
      if s[0] == sep then [""] + rest else [[s[0]] + rest[0]] + rest[1..]
  }

  function JoinWith(parts: seq<string>, sep: char): string
    requires |parts| >= 1
  {
    if |parts| == 1 then parts[0] else parts[0] + [sep] + JoinWith(parts[1..], sep)
  }

  /** Texts joined by a separator text, as Python's str.join. */
  function JoinedBy(parts: seq<string>, sep: string): string {
    if parts == [] then "" else if |parts| == 1 then parts[0] else parts[0] + sep + JoinedBy(parts[1..], sep)
  }

  lemma {:induction false} SplitJoin(s: string, sep: char)
    ensures JoinWith(SplitOn(s, sep), sep) == s
  {
    if s != [] {
      var rest := SplitOn(s[1..], sep);
      SplitJoin(s[1..], sep);
      if s[0] != sep {
        var parts := SplitOn(s, sep);
        if |rest| > 1 {
          assert parts[1..] == rest[1..];
        }
      }
    }
  }

  lemma {:induction false} SplitNoSep(s: string, sep: char)
    requires sep !in s
    ensures SplitOn(s, sep) == [s]
  {
    if s != [] {
      SplitNoSep(s[1..], sep);
      assert [s[0]] + s[1..] == s;
    }
  }

  /** Splitting a string that begins with a separator-free part. */
  lemma {:induction false} SplitPrefix(a: string, r: string, sep: char)
    requires sep !in a
    ensures SplitOn(a + [sep] + r, sep) == [a] + SplitOn(r, sep)
  {
    if a == [] {
      assert a + [sep] + r == [sep] + r;
      assert ([sep] + r)[1..] == r;
    } else {
      assert (a + [sep] + r)[1..] == a[1..] + [sep] + r;
      SplitPrefix(a[1..], r, sep);
      assert [a[0]] + a[1..] == a;
    }
  }

  /** Joining separator-free parts and splitting again gives the parts back. */
  lemma {:induction false} JoinSplit(parts: seq<string>, sep: char)
    requires |parts| >= 1
    requires forall i :: 0 <= i < |parts| ==> sep !in parts[i]
    ensures SplitOn(JoinWith(parts, sep), sep) == parts
    decreases |parts|
  {
    if |parts| == 1 {
      SplitNoSep(parts[0], sep);
    } else {
      JoinSplit(parts[1..], sep);
      SplitPrefix(parts[0], JoinWith(parts[1..], sep), sep);
      assert [parts[0]] + parts[1..] == parts;
    }
  }

  /** A character in no part and other than the separator is not in the join. */
  lemma {:induction false} JoinAvoids(parts: seq<string>, sep: char, c: char)
    requires |parts| >= 1 && c != sep
    requires forall i :: 0 <= i < |parts| ==> c !in parts[i]
    ensures c !in JoinWith(parts, sep)
    decreases |parts|
  {
    if |parts| > 1 {
      JoinAvoids(parts[1..], sep, c);
    }
  }

  /** A string of digits holds no character other than a digit. */
  lemma DigitsAvoid(s: string, c: char)
    requires AllDigits(s) && !IsDigit(c)
    ensures c !in s
  {
  }

  lemma SplitAround(a: string, b: string, sep: char)
    requires sep !in a && sep !in b
    ensures SplitOn(a + [sep] + b, sep) == [a, b]
  {
    JoinSplit([a, b], sep);
    assert JoinWith([a, b], sep) == a + [sep] + JoinWith([b], sep);
  }

  predicate StartsWith(s: string, prefix: string) {
    |prefix| <= |s| && s[..|prefix|] == prefix
  }

  /** JavaScript's String.prototype.includes and Python's `in` on strings. */
  predicate Contains(s: string, needle: string)
    decreases |s|
  {
    StartsWith(s, needle) || (s != [] && Contains(s[1..], needle))
  }

  lemma {:induction false} ContainsAt(s: string, needle: string, k: nat)
    requires k + |needle| <= |s| && s[k..k + |needle|] == needle
    ensures Contains(s, needle)
    decreases k
  {
    if k > 0 {
      assert s[1..][k - 1..k - 1 + |needle|] == needle;
      ContainsAt(s[1..], needle, k - 1);
    }
  }

  /** A string that holds a needle holds the needle's first character. */
  lemma {:induction false} ContainsFirst(s: string, needle: string)
    requires needle != [] && Contains(s, needle)
    ensures needle[0] in s
    decreases |s|
  {
    if !StartsWith(s, needle) {
      ContainsFirst(s[1..], needle);
    } else {
      assert s[0] == needle[0];
    }
  }

  // ---------------------------------------------------------------------
  // Python's int() on a string

  /** A run of digits in which single underscores may separate digits. */
  predicate DigitGroups(s: string) {
    |s| > 0 && IsDigit(s[0]) && IsDigit(s[|s| - 1]) &&
    (forall i :: 0 <= i < |s| ==> IsDigit(s[i]) || s[i] == '_') &&
    (forall i :: 0 <= i < |s| - 1 ==> !(s[i] == '_' && s[i + 1] == '_'))
  }

  function DropUnderscores(s: string): (d: string)
    requires forall i :: 0 <= i < |s| ==> IsDigit(s[i]) || s[i] == '_'
    ensures AllDigits(d)
  {
    if s == [] then [] else (if s[0] == '_' then [] else [s[0]]) + DropUnderscores(s[1..])
  }

  lemma {:induction false} DropUnderscoresOfDigits(s: string)
    requires AllDigits(s)
    ensures DropUnderscores(s) == s
  {
    if s != [] { DropUnderscoresOfDigits(s[1..]); }
  }

  /** Python's int(text): surrounding whitespace, an optional sign, then
      decimal digits possibly grouped by single underscores. Anything else
      raises ValueError, which is None here. */
  function ParseInt(text: string): (r: Option<int>)
  {
    var t := Trim(text);
    if t == [] then None
    else
      var neg := t[0] == '-';
      var body := if t[0] == '-' || t[0] == '+' then t[1..] else t;
      if DigitGroups(body) then
        var v: int := DigitsValue(DropUnderscores(body));
        Some(if neg then -v else v)
      else None
  }

  lemma ParseIntOfDigits(s: string)
    requires |s| > 0 && AllDigits(s)
    ensures ParseInt(s) == Some(DigitsValue(s))
  {
    assert !IsSpace(s[0]) && !IsSpace(s[|s| - 1]);
    assert TrimLeft(s) == s;
    assert TrimRight(s) == s;
    assert Trim(s) == s;
    assert s[0] != '-' && s[0] != '+';
    assert DigitGroups(s) by {
      assert forall i :: 0 <= i < |s| - 1 ==> s[i] != '_';
    }
    DropUnderscoresOfDigits(s);
  }

  /** Rendering then parsing a natural number gives it back. */
  lemma ParseIntOfNatToString(n: nat)
    ensures ParseInt(NatToString(n)) == Some(n)
  {
    ParseIntOfDigits(NatToString(n));
    NatToStringValue(n);
  }

  // ---------------------------------------------------------------------
  // Hexadecimal

  predicate IsUpperHex(c: char) { IsDigit(c) || 'A' <= c <= 'F' }

  function HexChar(d: nat): (c: char)
    requires d < 16
    ensures IsUpperHex(c)
  {
    if d < 10 then DigitChar(d) else (d - 10 + 'A' as int) as char
  }

  function HexValue(c: char): (d: nat)
    requires IsUpperHex(c)
    ensures d < 16 && HexChar(d) == c
  {
    if IsDigit(c) then DigitValue(c) else c as int - 'A' as int + 10
  }

  predicate IsByte(b: nat) { b < 256 }

  /** Upper-case hexadecimal of a byte string: secrets.token_hex(n).upper(). */
  function HexUpper(bytes: seq<nat>): (s: string)
    requires forall i :: 0 <= i < |bytes| ==> IsByte(bytes[i])
    ensures |s| == 2 * |bytes|
    ensures forall i :: 0 <= i < |s| ==> IsUpperHex(s[i])
  {
    if bytes == [] then []
    else
      assert IsByte(bytes[0]);
      [HexChar(bytes[0] / 16), HexChar(bytes[0] % 16)] + HexUpper(bytes[1..])
  }

  function HexDecode(s: string): (bytes: seq<nat>)
    requires |s| % 2 == 0
    requires forall i :: 0 <= i < |s| ==> IsUpperHex(s[i])
    ensures |bytes| == |s| / 2
  {
    if s == [] then [] else [HexValue(s[0]) * 16 + HexValue(s[1])] + HexDecode(s[2..])
  }

  lemma {:induction false} HexRoundTrip(bytes: seq<nat>)
    requires forall i :: 0 <= i < |bytes| ==> IsByte(bytes[i])
    ensures HexDecode(HexUpper(bytes)) == bytes
  {
    if bytes != [] {
      var s := HexUpper(bytes);
      assert s[2..] == HexUpper(bytes[1..]);
      HexRoundTrip(bytes[1..]);
    }
  }

  // ---------------------------------------------------------------------
  // Division

  /** Quotient and remainder are the only pair with 0 <= r < d. */
  lemma DivModUnique(x: int, d: nat, q: int, r: int)
    requires d > 0 && 0 <= r < d && x == q * d + r
    ensures x / d == q && x % d == r
  {
    var q0, r0 := x / d, x % d;
    assert x == q0 * d + r0;
    if q0 > q {
      MulMono(q + 1, q0, d);
    } else if q0 < q {
      MulMono(q0 + 1, q, d);
    }
  }

  lemma MulMono(a: int, b: int, d: nat)
    requires a <= b
    ensures a * d <= b * d
  {
  }
}
