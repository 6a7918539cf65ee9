/** The string operations of Go's `strings`, `strconv` and `regexp` packages that the injector relies on. */
module Text {
  import opened Wrappers

  // ----- Character filters -------------------------------------------------------------------

  predicate IsDigit(c: char) { '0' <= c <= '9' }

  predicate IsLetter(c: char) { 'a' <= c <= 'z' || 'A' <= c <= 'Z' }

  /** The characters outside the class `[^0-9A-Za-z_#:-]` that every handler strips. */
  predicate IsNameChar(c: char) { IsDigit(c) || IsLetter(c) || c in "_#:-" }

  /** `ReplaceAllString(s, "")` for the complement of a character class. */
  function Filter(s: string, allowed: char -> bool): string {
    if s == [] then []
    else if allowed(s[0]) then [s[0]] + Filter(s[1..], allowed)
    else Filter(s[1..], allowed)
  }

  predicate AllOf(s: string, allowed: char -> bool) { forall i :: 0 <= i < |s| ==> allowed(s[i]) }

  function KeepName(s: string): string { Filter(s, IsNameChar) }

  function KeepDigits(s: string): string { Filter(s, IsDigit) }

  lemma {:induction false} FilterYieldsAllowed(s: string, allowed: char -> bool)
    ensures AllOf(Filter(s, allowed), allowed)
  {
    if s != [] { FilterYieldsAllowed(s[1..], allowed); }
  }

  lemma {:induction false} FilterKeepsAllowed(s: string, allowed: char -> bool)
    requires AllOf(s, allowed)
    ensures Filter(s, allowed) == s
  {
    if s != [] {
      FilterKeepsAllowed(s[1..], allowed);
      assert s == [s[0]] + s[1..];
    }
  }

  /** Filtering changes nothing exactly when every character is allowed. */
  lemma FilterFixpoint(s: string, allowed: char -> bool)
    ensures Filter(s, allowed) == s <==> AllOf(s, allowed)
  {
    FilterYieldsAllowed(s, allowed);
    if AllOf(s, allowed) { FilterKeepsAllowed(s, allowed); }
  }

  lemma FilterIdempotent(s: string, allowed: char -> bool)
    ensures Filter(Filter(s, allowed), allowed) == Filter(s, allowed)
  {
  }

  /** Filtering goes through a text character by character. */
  lemma {:induction false} FilterBoth(s: string, t: string, allowed: char -> bool)
    ensures Filter(s + t, allowed) == Filter(s, allowed) + Filter(t, allowed)
  {
    if s == [] {
      assert s + t == t;
    } else {
      assert (s + t)[1..] == s[1..] + t;
      FilterBoth(s[1..], t, allowed);
    }
  }

  /** Apart from digits and letters, names keep four characters. */
  lemma NameAlphabet(c: char)
    ensures KeepName([c]) ==
            if '0' <= c <= '9' || 'A' <= c <= 'Z' || 'a' <= c <= 'z' || c == '_' || c == '#' || c == ':' || c == '-' then [c]
            else []
  {
    assert [c][1..] == [] && Filter([c][1..], IsNameChar) == [];
    var others := "_#:-";
    assert c in others <==> c == others[0] || c == others[1] || c == others[2] || c == others[3];
  }

  // ----- Searching and splitting -------------------------------------------------------------

  predicate HasPrefix(s: string, prefix: string) { prefix <= s }

  /** The position of the first occurrence of `sep`. */
  function IndexOf(s: string, sep: string): (r: Option<nat>)
    ensures r.Some? ==> r.value + |sep| <= |s| && sep <= s[r.value..]
  {
    if sep <= s then Some(0)
    else if s == [] then None
    else
      match IndexOf(s[1..], sep)
      case None => None
      case Some(i) => assert s[i + 1..] == s[1..][i..]; Some(i + 1)
  }

  /** `strings.Split` for a non-empty separator. */
  function Split(s: string, sep: string): (r: seq<string>)
    requires sep != []
    ensures r != []
  {
    match IndexOf(s, sep)
    case None => [s]
    case Some(i) => [s[..i]] + Split(s[i + |sep|..], sep)
  }

  /** A separator whose first character does not occur in `a` is first met right after `a`. */
  lemma {:induction false} IndexOfAfter(a: string, sep: string, b: string)
    requires sep != [] && sep[0] !in a
    ensures IndexOf(a + sep + b, sep) == Some(|a|)
  {
    var s := a + sep + b;
    if a == [] {
      assert sep <= s;
    } else {
      assert s[0] == a[0];
      assert s[1..] == a[1..] + sep + b;
      IndexOfAfter(a[1..], sep, b);
    }
  }

  lemma {:induction false} IndexOfNone(a: string, sep: string)
    requires sep != [] && sep[0] !in a
    ensures IndexOf(a, sep) == None
  {
  }

  /** The first occurrence is found, and nothing exactly if there is none. */
  lemma {:induction false} IndexOfExactly(s: string, sep: string)
    ensures IndexOf(s, sep).Some? <==> exists i :: 0 <= i <= |s| && sep <= s[i..]
    ensures IndexOf(s, sep).Some? ==> forall i :: 0 <= i < IndexOf(s, sep).value ==> !(sep <= s[i..])
  {
    assert s[0..] == s;
    if !(sep <= s) && s != [] {
      IndexOfExactly(s[1..], sep);
      assert forall i :: 0 < i <= |s| ==> s[i..] == s[1..][i - 1..];
      if IndexOf(s[1..], sep).Some? { assert sep <= s[IndexOf(s, sep).value..]; }
    }
  }

  /** A character that occurs is first met by `IndexOf`. */
  lemma {:induction false} IndexOfChar(s: string, c: char)
    ensures IndexOf(s, [c]).None? <==> c !in s
    ensures IndexOf(s, [c]).Some? ==> c !in s[..IndexOf(s, [c]).value] && s[IndexOf(s, [c]).value] == c
  {
    if s != [] {
      IndexOfChar(s[1..], c);
      assert s == [s[0]] + s[1..];
      if IndexOf(s, [c]).Some? {
        var i := IndexOf(s, [c]).value;
        assert i > 0 ==> s[..i] == [s[0]] + s[1..][..i - 1];
      }
    }
  }

  /** The text around the first occurrence of a character. */
  lemma FirstOccurrenceOf(s: string, c: char) returns (a: string, b: string)
    requires c in s
    ensures s == a + [c] + b && c !in a
  {
    IndexOfChar(s, c);
    var i := IndexOf(s, [c]).value;
    a, b := s[..i], s[i + 1..];
  }

  lemma SplitAfter(a: string, sep: string, b: string)
    requires sep != [] && sep[0] !in a
    ensures Split(a + sep + b, sep) == [a] + Split(b, sep)
  {
    var s := a + sep + b;
    IndexOfAfter(a, sep, b);
    assert s[..|a|] == a;
    assert s[|a| + |sep|..] == b;
  }

  lemma SplitNone(a: string, sep: string)
    requires sep != [] && sep[0] !in a
    ensures Split(a, sep) == [a]
  {
  }

  // ----- Trimming ----------------------------------------------------------------------------

  /** The Latin-1 part of `unicode.IsSpace`. */
  predicate IsSpace(c: char) {
    c == ' ' || '\t' <= c <= '\r' || c == '\U{85}' || c == '\U{a0}'
  }

  function TrimLeft(s: string): string {
    if s != [] && IsSpace(s[0]) then TrimLeft(s[1..]) else s
  }

  function TrimRight(s: string): string {
    if s != [] && IsSpace(s[|s| - 1]) then TrimRight(s[..|s| - 1]) else s
  }

  function TrimSpace(s: string): string { TrimRight(TrimLeft(s)) }

  /** Trimming takes spaces off both ends, and all of them. */
  lemma TrimmedExactly(s: string) returns (a: string, b: string)
    ensures s == a + TrimSpace(s) + b && AllOf(a, IsSpace) && AllOf(b, IsSpace)
    ensures TrimSpace(s) != "" ==> !IsSpace(TrimSpace(s)[0]) && !IsSpace(TrimSpace(s)[|TrimSpace(s)| - 1])
  {
    a := LeftSpaces(s);
    b := RightSpaces(TrimLeft(s));
    assert s == a + (TrimSpace(s) + b);
    assert TrimSpace(s) != "" ==> TrimSpace(s)[0] == TrimLeft(s)[0];
  }

  lemma {:induction false} LeftSpaces(s: string) returns (a: string)
    ensures s == a + TrimLeft(s) && AllOf(a, IsSpace)
    ensures TrimLeft(s) != "" ==> !IsSpace(TrimLeft(s)[0])
  {
    a := "";
    if s != [] && IsSpace(s[0]) {
      var rest := LeftSpaces(s[1..]);
      a := [s[0]] + rest;
      assert s == [s[0]] + s[1..];
    }
  }

  lemma {:induction false} RightSpaces(s: string) returns (b: string)
    ensures s == TrimRight(s) + b && AllOf(b, IsSpace)
    ensures TrimRight(s) != "" ==> !IsSpace(TrimRight(s)[|TrimRight(s)| - 1])
  {
    b := "";
    if s != [] && IsSpace(s[|s| - 1]) {
      var rest := RightSpaces(s[..|s| - 1]);
      b := rest + [s[|s| - 1]];
      assert s == s[..|s| - 1] + [s[|s| - 1]];
    }
  }

  function Spaces(n: nat): string { seq(n, _ => ' ') }

  // ----- Decimal numbers ---------------------------------------------------------------------

  const MAX_INT64 := 0x7fff_ffff_ffff_ffff
  const MIN_INT64 := -0x8000_0000_0000_0000
  const MAX_UINT64 := 0xffff_ffff_ffff_ffff

  predicate IsDecimal(s: string) { s != [] && AllOf(s, IsDigit) }

  function DigitChar(d: nat): char
    requires d < 10
  {
    '0' + d as char
  }

  function DigitValue(c: char): nat
    requires IsDigit(c)
  {
    (c - '0') as nat
  }

  /** `%d` for a natural number. */
  function PrintNat(n: nat): string {
    if n < 10 then [DigitChar(n)] else PrintNat(n / 10) + [DigitChar(n % 10)]
  }

  /** `%d`, `strconv.FormatInt(i, 10)`. */
  function PrintInt(i: int): string {
    if i < 0 then "-" + PrintNat(-i) else PrintNat(i)
  }

  /** The value of a string of digits. */
  function DecimalValue(s: string): nat
    requires AllOf(s, IsDigit)
  {
    if s == [] then 0 else 10 * DecimalValue(s[..|s| - 1]) + DigitValue(s[|s| - 1])
  }

  lemma {:induction false} PrintNatDecimal(n: nat)
    ensures IsDecimal(PrintNat(n)) && DecimalValue(PrintNat(n)) == n
  {
    var p := PrintNat(n);
    if n < 10 {
      assert p[..0] == [];
    } else {
      PrintNatDecimal(n / 10);
      assert p[..|p| - 1] == PrintNat(n / 10);
    }
  }

  /** Distinct numbers have distinct decimals. */
  lemma PrintNatInjective(m: nat, n: nat)
    ensures PrintNat(m) == PrintNat(n) <==> m == n
  {
    PrintNatDecimal(m);
    PrintNatDecimal(n);
  }

  datatype Uint = Value(n: nat) | SyntaxError | RangeError

  /** `strconv.ParseUint(s, 10, 64)` after the digits read so far amount to `n`: a range error is reported at
      the digit that overflows, before any later character is looked at. */
  function ParseDigits(s: string, n: nat): Uint {
    if s == [] then Value(n)
    else if !IsDigit(s[0]) then SyntaxError
    else
      var next := 10 * n + DigitValue(s[0]);
      if next > MAX_UINT64 then RangeError else ParseDigits(s[1..], next)
  }

  function ParseUint(s: string): Uint {
    if s == [] then SyntaxError else ParseDigits(s, 0)
  }

  /** The value `strconv.ParseInt(s, 10, 64)` returns beside its error: zero for a malformed number, the nearest
      bound for a number out of range. */
  function ParseInt64(s: string): int {
    var negative := s != [] && s[0] == '-';
    var digits := if s != [] && s[0] in "+-" then s[1..] else s;
    match ParseUint(digits)
    case SyntaxError => 0
    case RangeError => if negative then MIN_INT64 else MAX_INT64
    case Value(n) =>
      if negative then (if n > -MIN_INT64 then MIN_INT64 else 0 - n)
      else if n > MAX_INT64 then MAX_INT64 else n
  }

  /** `strconv.Atoi`, with an error for a malformed number and for one out of range. */
  function Atoi(s: string): Option<int> {
    var negative := s != [] && s[0] == '-';
    var digits := if s != [] && s[0] in "+-" then s[1..] else s;
    match ParseUint(digits)
    case SyntaxError => None
    case RangeError => None
    case Value(n) =>
      var i := if negative then 0 - n else n;
      if MIN_INT64 <= i <= MAX_INT64 then Some(i) else None
  }

  lemma {:induction false} DecimalValueAppend(s: string, t: string)
    requires AllOf(s, IsDigit) && AllOf(t, IsDigit)
    ensures AllOf(s + t, IsDigit) && DecimalValue(s + t) >= DecimalValue(s)
    decreases |t|
  {
    if t == [] {
      assert s + t == s;
    } else {
      var u := s + t;
      assert u[..|u| - 1] == s + t[..|t| - 1];
      DecimalValueAppend(s, t[..|t| - 1]);
    }
  }

  /** What is read of digits `d` and a rest that starts with none, after the digits `done`. */
  lemma {:induction false} ParseDigitsReads(done: string, d: string, rest: string)
    requires AllOf(done, IsDigit) && AllOf(d, IsDigit) && AllOf(done + d, IsDigit)
    requires rest != "" ==> !IsDigit(rest[0])
    requires DecimalValue(done) <= MAX_UINT64
    ensures ParseDigits(d + rest, DecimalValue(done)) ==
            if DecimalValue(done + d) > MAX_UINT64 then RangeError
            else if rest != "" then SyntaxError else Value(DecimalValue(done + d))
    decreases |d|
  {
    if d == [] {
      assert done + d == done && d + rest == rest;
    } else {
      var done' := done + [d[0]];
      assert done'[..|done'| - 1] == done;
      assert DecimalValue(done') == 10 * DecimalValue(done) + DigitValue(d[0]);
      assert done' + d[1..] == done + d;
      assert (d + rest)[1..] == d[1..] + rest;
      DecimalValueAppend(done', d[1..]);
      if DecimalValue(done') <= MAX_UINT64 { ParseDigitsReads(done', d[1..], rest); }
    }
  }

  /** Text that starts with the digits `d` and goes on with `rest`. */
  lemma ParseUintExactly(d: string, rest: string)
    requires AllOf(d, IsDigit) && (rest != "" ==> !IsDigit(rest[0]))
    ensures ParseUint(d + rest) ==
            if DecimalValue(d) > MAX_UINT64 then RangeError
            else if d == "" || rest != "" then SyntaxError else Value(DecimalValue(d))
  {
    var none := d[..0];
    assert none + d == d && AllOf(none, IsDigit) && DecimalValue(none) == 0;
    ParseDigitsReads(none, d, rest);
  }

  lemma ParseDecimal(s: string)
    requires IsDecimal(s) && DecimalValue(s) <= MAX_UINT64
    ensures ParseUint(s) == Value(DecimalValue(s))
  {
    ParseUintExactly(s, "");
    assert s + "" == s;
  }

  /** The 64-bit integer nearest to a number. */
  function Nearest64(x: int): int { if x < MIN_INT64 then MIN_INT64 else if x > MAX_INT64 then MAX_INT64 else x }

  /** How the sign of a text is taken off. */
  lemma SignIsTaken(sign: string, rest: string)
    requires sign in ["", "+", "-"] && (sign == "" && rest != "" ==> rest[0] !in "+-")
    ensures var s := sign + rest;
      && (s != [] && s[0] == '-' <==> sign == "-")
      && (if s != [] && s[0] in "+-" then s[1..] else s) == rest
  {
    var s := sign + rest;
    if sign == "" {
      assert s == rest;
    } else {
      assert s[0] == sign[0] && s[1..] == rest;
    }
  }

  /** Every text is a sign, or none, digits, or none, and a rest that starts with neither. */
  predicate IsSigned(sign: string, d: string, rest: string) {
    && sign in ["", "+", "-"] && AllOf(d, IsDigit) && (rest != "" ==> !IsDigit(rest[0]))
    && (sign == "" && d == "" && rest != "" ==> rest[0] !in "+-")
  }

  function Signed(sign: string, n: nat): int { if sign == "-" then 0 - n else n }

  /** What `ParseInt64` and `Atoi` find behind the sign. */
  lemma BehindSign(sign: string, d: string, rest: string, s: string)
    requires IsSigned(sign, d, rest) && s == sign + d + rest
    ensures s != [] && s[0] == '-' <==> sign == "-"
    ensures ParseUint(if s != [] && s[0] in "+-" then s[1..] else s) ==
            if DecimalValue(d) > MAX_UINT64 then RangeError
            else if d == "" || rest != "" then SyntaxError else Value(DecimalValue(d))
  {
    ParseUintExactly(d, rest);
    assert s == sign + (d + rest);
    if sign == "" && d != "" { assert IsDigit(d[0]) && (d + rest)[0] == d[0]; }
    SignIsTaken(sign, d + rest);
  }

  /** A number is its digits alone, or more of them than 64 bits can hold; it is cut to the nearest 64-bit integer, and
      anything else reads as zero. */
  lemma ParseInt64Exactly(sign: string, d: string, rest: string)
    requires IsSigned(sign, d, rest)
    ensures ParseInt64(sign + d + rest) ==
            if (d != "" && rest == "") || DecimalValue(d) > MAX_UINT64 then Nearest64(Signed(sign, DecimalValue(d))) else 0
  {
    BehindSign(sign, d, rest, sign + d + rest);
  }

  /** `Atoi` accepts exactly the numbers that fit. */
  lemma AtoiExactly(sign: string, d: string, rest: string)
    requires IsSigned(sign, d, rest)
    ensures var n := Signed(sign, DecimalValue(d));
      Atoi(sign + d + rest) == if d != "" && rest == "" && Nearest64(n) == n then Some(n) else None
  {
    BehindSign(sign, d, rest, sign + d + rest);
  }

  lemma DecimalHasNoSign(s: string)
    requires IsDecimal(s)
    ensures s[0] !in "+-"
  {
  }

  /** Printing a 64-bit integer and parsing it back is the identity. */
  lemma ParsePrint(i: int)
    requires MIN_INT64 <= i <= MAX_INT64
    ensures ParseInt64(PrintInt(i)) == i && Atoi(PrintInt(i)) == Some(i)
  {
    var n: nat := if i < 0 then -i else i;
    PrintNatDecimal(n);
    ParseDecimal(PrintNat(n));
    DecimalHasNoSign(PrintNat(n));
    assert ("-" + PrintNat(n))[1..] == PrintNat(n);
  }

  /** Two's-complement wrap-around of a 64-bit sum. */
  function Wrap64(x: int): (r: int)
    ensures MIN_INT64 <= r <= MAX_INT64
    ensures MIN_INT64 <= x <= MAX_INT64 ==> r == x
  {
    (x - MIN_INT64) % 0x1_0000_0000_0000_0000 + MIN_INT64
  }

  /** Wrapping a partial sum does not change the wrapped sum. */
  lemma WrapAdd(a: int, b: int)
    ensures Wrap64(Wrap64(a) + b) == Wrap64(a + b)
  {
  }
}
