/** The string operations of Go's standard library that the service relies on. */
module Text {
  /** unicode.IsSpace. */
  predicate IsSpace(c: char) {
    || '\t' <= c <= '\r' || c == ' '
    || c == '\U{85}' || c == '\U{A0}' || c == '\U{1680}'
    || '\U{2000}' <= c <= '\U{200A}'
    || c == '\U{2028}' || c == '\U{2029}' || c == '\U{202F}' || c == '\U{205F}' || c == '\U{3000}'
  }

  function TrimLeft(s: string): string {
    if s != "" && IsSpace(s[0]) then TrimLeft(s[1..]) else s
  }

  function TrimRight(s: string): string {
    if s != "" && IsSpace(s[|s| - 1]) then TrimRight(s[..|s| - 1]) else s
  }

  /** strings.TrimSpace. */
  function TrimSpace(s: string): string {
    TrimRight(TrimLeft(s))
  }

  predicate AllSpace(s: string) {
    forall i :: 0 <= i < |s| ==> IsSpace(s[i])
  }

  lemma {:induction false} LeftCut(s: string) returns (i: nat)
    ensures i <= |s| && TrimLeft(s) == s[i..] && AllSpace(s[..i]) && (i < |s| ==> !IsSpace(s[i]))
  {
    if s != "" && IsSpace(s[0]) {
      var n := LeftCut(s[1..]);
      i := n + 1;
      assert s[1..][n..] == s[i..];
      assert forall k :: 1 <= k < i ==> s[k] == s[1..][..n][k - 1];
    } else {
      i := 0;
    }
  }

  lemma {:induction false} RightCut(s: string) returns (j: nat)
    ensures j <= |s| && TrimRight(s) == s[..j] && AllSpace(s[j..]) && (j > 0 ==> !IsSpace(s[j - 1]))
  {
    if s != "" && IsSpace(s[|s| - 1]) {
      var n := |s| - 1;
      j := RightCut(s[..n]);
      assert s[..n][..j] == s[..j];
      assert s[j..] == s[..n][j..] + [s[n]];
    } else {
      j := |s|;
    }
  }

  /** Trimming takes away white space at both ends, all of it and nothing else. */
  lemma TrimSpaceExactly(s: string) returns (i: nat, j: nat)
    ensures i <= j <= |s| && TrimSpace(s) == s[i..j] && AllSpace(s[..i]) && AllSpace(s[j..])
    ensures i < j ==> !IsSpace(s[i]) && !IsSpace(s[j - 1])
  {
    i := LeftCut(s);
    var n := RightCut(s[i..]);
    j := i + n;
    assert s[i..][..n] == s[i..j] && s[i..][n..] == s[j..];
  }

  // ------------------------------------------------------------------ text as bytes

  /** The UTF-8 encodings of white space, each byte written as the character of its value. */
  predicate EncodesSpace(b: string) {
    || (|b| == 1 && ('\t' <= b[0] <= '\r' || b[0] == ' '))
    || b == "\U{C2}\U{85}" || b == "\U{C2}\U{A0}" || b == "\U{E1}\U{9A}\U{80}"
    || (|b| == 3 && b[0] == '\U{E2}' && b[1] == '\U{80}'
        && ('\U{80}' <= b[2] <= '\U{8A}' || b[2] == '\U{A8}' || b[2] == '\U{A9}' || b[2] == '\U{AF}'))
    || b == "\U{E2}\U{81}\U{9F}" || b == "\U{E3}\U{80}\U{80}"
  }

  /** The number of bytes of the white space that s starts with, or 0. */
  function LeadingSpace(s: string): (n: nat)
    ensures n <= |s|
  {
    if |s| >= 1 && EncodesSpace(s[..1]) then 1
    else if |s| >= 2 && EncodesSpace(s[..2]) then 2
    else if |s| >= 3 && EncodesSpace(s[..3]) then 3
    else 0
  }

  /** The number of bytes of the white space that s ends with, or 0. */
  function TrailingSpace(s: string): (n: nat)
    ensures n <= |s|
  {
    if |s| >= 1 && EncodesSpace(s[|s| - 1..]) then 1
    else if |s| >= 2 && EncodesSpace(s[|s| - 2..]) then 2
    else if |s| >= 3 && EncodesSpace(s[|s| - 3..]) then 3
    else 0
  }

  function TrimBytesLeft(s: string): string
    decreases |s|
  {
    if LeadingSpace(s) > 0 then TrimBytesLeft(s[LeadingSpace(s)..]) else s
  }

  function TrimBytesRight(s: string): string
    decreases |s|
  {
    if TrailingSpace(s) > 0 then TrimBytesRight(s[..|s| - TrailingSpace(s)]) else s
  }

  /** strings.TrimSpace of a string given by its bytes. */
  function TrimBytes(s: string): string {
    TrimBytesRight(TrimBytesLeft(s))
  }

  /** What starts no white space starts none when it is cut short. */
  lemma LeadingOfPrefix(s: string, n: nat)
    requires n <= |s| && LeadingSpace(s) == 0
    ensures LeadingSpace(s[..n]) == 0
  {
    assert n >= 1 ==> s[..n][..1] == s[..1];
    assert n >= 2 ==> s[..n][..2] == s[..2];
    assert n >= 3 ==> s[..n][..3] == s[..3];
  }

  lemma {:induction false} TrimmedLeft(s: string)
    ensures LeadingSpace(TrimBytesLeft(s)) == 0
    decreases |s|
  {
    if LeadingSpace(s) > 0 {
      TrimmedLeft(s[LeadingSpace(s)..]);
    }
  }

  lemma {:induction false} TrimmedRight(s: string)
    ensures var t := TrimBytesRight(s); |t| <= |s| && t == s[..|t|] && TrailingSpace(t) == 0
    decreases |s|
  {
    if TrailingSpace(s) > 0 {
      TrimmedRight(s[..|s| - TrailingSpace(s)]);
    }
  }

  /** Trimming leaves no white space at either end, and leaves alone exactly what has none. */
  lemma BytesAreTrimmed(s: string)
    ensures var t := TrimBytes(s); LeadingSpace(t) == 0 && TrailingSpace(t) == 0
    ensures TrimBytes(s) == s <==> LeadingSpace(s) == 0 && TrailingSpace(s) == 0
  {
    hide LeadingSpace, TrailingSpace;
    TrimmedLeft(s);
    TrimmedRight(TrimBytesLeft(s));
    LeadingOfPrefix(TrimBytesLeft(s), |TrimBytes(s)|);
  }

  /** White space and nothing else. */
  predicate Spaces(b: string)
    decreases |b|
  {
    b == "" || exists n :: 0 < n <= |b| && EncodesSpace(b[..n]) && Spaces(b[n..])
  }

  lemma NoSpaces()
    ensures Spaces("")
  {
  }

  lemma {:induction false} SpacesAppend(a: string, b: string)
    requires Spaces(a) && b != "" && EncodesSpace(b)
    ensures Spaces(a + b)
    decreases |a|
  {
    hide EncodesSpace;
    if a == "" {
      assert a + b == b && b[..|b|] == b && b[|b|..] == "";
    } else {
      var n :| 0 < n <= |a| && EncodesSpace(a[..n]) && Spaces(a[n..]);
      SpacesAppend(a[n..], b);
      assert (a + b)[..n] == a[..n] && (a + b)[n..] == a[n..] + b;
    }
  }

  lemma {:induction false} LeftBytesCut(s: string) returns (i: nat)
    ensures i <= |s| && TrimBytesLeft(s) == s[i..] && Spaces(s[..i])
    decreases |s|
  {
    hide EncodesSpace;
    var n := LeadingSpace(s);
    if n > 0 {
      var k := LeftBytesCut(s[n..]);
      i := n + k;
      assert s[n..][k..] == s[i..] && s[..i][..n] == s[..n] && s[..i][n..] == s[n..][..k];
    } else {
      i := 0;
    }
  }

  lemma {:induction false} RightBytesCut(s: string) returns (j: nat)
    ensures j <= |s| && TrimBytesRight(s) == s[..j] && Spaces(s[j..])
    decreases |s|
  {
    hide EncodesSpace, Spaces;
    var n := TrailingSpace(s);
    if n > 0 {
      var front := s[..|s| - n];
      j := RightBytesCut(front);
      SpacesAppend(front[j..], s[|s| - n..]);
      assert front[..j] == s[..j] && s[j..] == front[j..] + s[|s| - n..];
    } else {
      j := |s|;
      NoSpaces();
      assert s[j..] == "";
    }
  }

  lemma NoSpaceAtEnds(s: string, n: nat)
    requires n <= |s|
    ensures n > 0 && LeadingSpace(s) == 0 ==> !EncodesSpace(s[..n])
    ensures n < |s| && TrailingSpace(s) == 0 ==> !EncodesSpace(s[n..])
  {
    if n > 0 && EncodesSpace(s[..n]) {
      assert n <= 3;
    }
    if n < |s| && EncodesSpace(s[n..]) {
      assert |s| - n <= 3 && s[n..] == s[|s| - (|s| - n)..];
    }
  }

  /** Trimming bytes takes away encoded white space at both ends, all of it and nothing else. */
  lemma TrimBytesExactly(s: string) returns (i: nat, j: nat)
    ensures i <= j <= |s| && TrimBytes(s) == s[i..j] && Spaces(s[..i]) && Spaces(s[j..])
    ensures forall n :: i < n <= j ==> !EncodesSpace(s[i..n])
    ensures forall n :: i <= n < j ==> !EncodesSpace(s[n..j])
  {
    hide LeadingSpace, TrailingSpace, Spaces, EncodesSpace;
    i := LeftBytesCut(s);
    var n := RightBytesCut(s[i..]);
    j := i + n;
    assert s[i..][..n] == s[i..j] && s[i..][n..] == s[j..];
    BytesAreTrimmed(s);
    forall n | i < n <= j
      ensures !EncodesSpace(s[i..n])
    {
      NoSpaceAtEnds(s[i..j], n - i);
      assert s[i..j][..n - i] == s[i..n];
    }
    forall n | i <= n < j
      ensures !EncodesSpace(s[n..j])
    {
      NoSpaceAtEnds(s[i..j], n - i);
      assert s[i..j][n - i..] == s[n..j];
    }
  }

  function Byte(n: int): char
    requires 0 <= n < 0x100
  {
    n as char
  }

  /** The UTF-8 encoding of a character of the basic multilingual plane, as in section 3 of RFC 3629. */
  function Utf8(c: char): string
    requires c as int < 0x1_0000
  {
    var n := c as int;
    if n < 0x80 then [c]
    else if n < 0x800 then [Byte(0xC0 + n / 0x40), Byte(0x80 + n % 0x40)]
    else [Byte(0xE0 + n / 0x1000), Byte(0x80 + n / 0x40 % 0x40), Byte(0x80 + n % 0x40)]
  }

  lemma SpaceDecodes(b: string) returns (c: char)
    requires EncodesSpace(b)
    ensures IsSpace(c) && c as int < 0x1_0000 && b == Utf8(c)
  {
    if |b| == 1 {
      c := b[0];
    } else if |b| == 2 {
      c := b[1];
    } else {
      var n := (b[0] as int - 0xE0) * 0x1000 + (b[1] as int - 0x80) * 0x40 + (b[2] as int - 0x80);
      c := n as char;
    }
  }

  lemma SpaceEncodes(c: char)
    requires IsSpace(c)
    ensures c as int < 0x1_0000 && EncodesSpace(Utf8(c))
  {
  }

  /** The two notions of white space are one. */
  lemma EncodesSpaceExactly(b: string)
    ensures EncodesSpace(b) <==> exists c: char :: IsSpace(c) && c as int < 0x1_0000 && b == Utf8(c)
  {
    hide IsSpace, EncodesSpace, Utf8;
    if EncodesSpace(b) {
      var _ := SpaceDecodes(b);
    }
    if c: char :| IsSpace(c) && c as int < 0x1_0000 && b == Utf8(c) {
      SpaceEncodes(c);
    }
  }

  function Digit(d: nat): char
    requires d < 10
  {
    '0' + d as char
  }

  predicate IsDigit(c: char) {
    '0' <= c <= '9'
  }

  /** fmt's %d of a non-negative number. */
  function Decimal(n: nat): (s: string)
    ensures |s| > 0 && forall i :: 0 <= i < |s| ==> IsDigit(s[i])
  {
    if n < 10 then [Digit(n)] else Decimal(n / 10) + [Digit(n % 10)]
  }

  /** The number a numeral stands for, read from its last digit. */
  function Value(s: string): int {
    if s == "" then 0 else 10 * Value(s[..|s| - 1]) + (s[|s| - 1] as int - '0' as int)
  }

  /** A numeral stands for its number, and does not begin with a zero unless it is one. */
  lemma {:induction false} DecimalReadsBack(n: nat)
    ensures Value(Decimal(n)) == n && (Decimal(n)[0] == '0' ==> n == 0)
  {
    if n >= 10 {
      DecimalReadsBack(n / 10);
      assert Decimal(n)[..|Decimal(n)| - 1] == Decimal(n / 10);
    } else {
      assert Decimal(n)[..0] == "";
    }
  }

  /** Numerals determine their numbers. */
  lemma {:induction false} DecimalInjective(m: nat, n: nat)
    requires Decimal(m) == Decimal(n)
    ensures m == n
  {
    var s := Decimal(m);
    if m < 10 && n < 10 {
      assert s[0] == Digit(m) == Digit(n);
    } else if m < 10 || n < 10 {
      assert false;
    } else {
      assert s == Decimal(m / 10) + [Digit(m % 10)] == Decimal(n / 10) + [Digit(n % 10)];
      assert s[|s| - 1] == Digit(m % 10) == Digit(n % 10);
      assert Decimal(m / 10) == s[..|s| - 1] == Decimal(n / 10);
      DecimalInjective(m / 10, n / 10);
    }
  }

  /** fmt's %d. */
  function Integer(n: int): string {
    if n < 0 then "-" + Decimal(-n) else Decimal(n)
  }

  lemma SignIsFirst(n: int)
    ensures Integer(n) != "" && (Integer(n)[0] == '-' <==> n < 0)
  {
  }

  lemma IntegerInjective(m: int, n: int)
    requires Integer(m) == Integer(n)
    ensures m == n
  {
    SignIsFirst(m);
    SignIsFirst(n);
    if m < 0 && n < 0 {
      assert Decimal(-m) == Integer(m)[1..] == Integer(n)[1..] == Decimal(-n);
      DecimalInjective(-m, -n);
    } else if m >= 0 && n >= 0 {
      DecimalInjective(m, n);
    }
  }

  /** strings.Split by one character. */
  function Split(s: string, sep: char): (parts: seq<string>)
    ensures |parts| > 0
    ensures forall i :: 0 <= i < |parts| ==> sep !in parts[i]
  {
    if s == "" then [""]
    else
      var rest := Split(s[1..], sep);
      if s[0] == sep then [""] + rest else [[s[0]] + rest[0]] + rest[1..]
  }

  /** strings.Join with one character between the parts. */
  function Join(parts: seq<string>, sep: char): string {
    if parts == [] then ""
    else if |parts| == 1 then parts[0]
    else parts[0] + [sep] + Join(parts[1..], sep)
  }

  /** Splitting undoes joining when no part contains the separator. */
  lemma {:induction false} SplitJoin(parts: seq<string>, sep: char)
    requires |parts| > 0 && forall i :: 0 <= i < |parts| ==> sep !in parts[i]
    ensures Split(Join(parts, sep), sep) == parts
  {
    if |parts| == 1 {
      SplitWhole(parts[0], sep);
    } else {
      SplitJoin(parts[1..], sep);
      SplitFirst(parts[0], Join(parts[1..], sep), sep);
      assert parts == [parts[0]] + parts[1..];
    }
  }

  lemma {:induction false} SplitWhole(s: string, sep: char)
    requires sep !in s
    ensures Split(s, sep) == [s]
  {
    if s != "" {
      SplitWhole(s[1..], sep);
      assert s == [s[0]] + s[1..];
    }
  }

  lemma {:induction false} SplitFirst(s: string, rest: string, sep: char)
    requires sep !in s
    ensures Split(s + [sep] + rest, sep) == [s] + Split(rest, sep)
  {
    var whole := s + [sep] + rest;
    if s == "" {
      assert whole[1..] == rest;
    } else {
      assert whole[1..] == s[1..] + [sep] + rest;
      SplitFirst(s[1..], rest, sep);
      assert s == [s[0]] + s[1..];
    }
  }

  /** A separator that the first part lacks marks where the first part ends. */
  lemma CutUnique(a: string, u: string, b: string, v: string, sep: char)
    requires a + [sep] + u == b + [sep] + v && sep !in a && sep !in b
    ensures a == b && u == v
  {
    var x := a + [sep] + u;
    assert x[|a|] == sep && x[|b|] == sep;
    assert forall i :: 0 <= i < |a| ==> x[i] == a[i];
    assert forall i :: 0 <= i < |b| ==> x[i] == b[i];
    assert |a| == |b|;
    assert a == x[..|a|] && b == x[..|b|] && u == x[|a| + 1..] && v == x[|b| + 1..];
  }
}
