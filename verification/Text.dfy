/** The string operations the broker relies on: trimming, case folding and the byte-wise order
    of Go strings (which, for valid UTF-8, is the order of code points). */
module Text {

  /** Go's unicode.IsSpace. */
  predicate IsSpace(c: char) {
    || '\t' <= c <= '\r' || c == ' ' || c == '\U{85}' || c == '\U{A0}' || c == '\U{1680}'
    || '\U{2000}' <= c <= '\U{200A}' || c == '\U{2028}' || c == '\U{2029}' || c == '\U{202F}'
    || c == '\U{205F}' || c == '\U{3000}'
  }

  /** The code points of the Unicode property White_Space. */
  lemma SpaceOutright(c: char)
    ensures IsSpace(c) <==>
              || c as int in {0x20, 0x85, 0xA0, 0x1680, 0x2028, 0x2029, 0x202F, 0x205F, 0x3000}
              || 0x09 <= c as int <= 0x0D || 0x2000 <= c as int <= 0x200A
  {}

  /** No space at either end. */
  predicate Trimmed(s: string) {
    s != "" ==> !IsSpace(s[0]) && !IsSpace(s[|s| - 1])
  }

  function TrimLeft(s: string): (t: string)
    ensures t != "" ==> !IsSpace(t[0])
  {
    if s != "" && IsSpace(s[0]) then TrimLeft(s[1..]) else s
  }

  function TrimRight(s: string): (t: string)
    ensures t <= s
    ensures t != "" ==> !IsSpace(t[|t| - 1])
  {
    if s != "" && IsSpace(s[|s| - 1]) then TrimRight(s[..|s| - 1]) else s
  }

  /** strings.TrimSpace. */
  function Trim(s: string): (t: string)
    ensures Trimmed(t)
    ensures Trimmed(s) <==> t == s
  {
    TrimRight(TrimLeft(s))
  }

  predicate AllSpace(s: string) {
    forall i :: 0 <= i < |s| ==> IsSpace(s[i])
  }

  lemma {:induction false} LeftStrips(a: string, s: string)
    requires AllSpace(a)
    ensures TrimLeft(a + s) == TrimLeft(s)
  {
    if a == "" {
      assert a + s == s;
    } else {
      assert (a + s)[0] == a[0] && (a + s)[1..] == a[1..] + s;
      LeftStrips(a[1..], s);
    }
  }

  lemma {:induction false} RightStrips(s: string, b: string)
    requires AllSpace(b)
    ensures TrimRight(s + b) == TrimRight(s)
  {
    if b == "" {
      assert s + b == s;
    } else {
      var n := |s + b|;
      assert (s + b)[n - 1] == b[|b| - 1] && (s + b)[..n - 1] == s + b[..|b| - 1];
      RightStrips(s, b[..|b| - 1]);
    }
  }

  /** Trimming removes exactly the space around a text that has none at its ends. */
  lemma TrimStrips(a: string, t: string, b: string)
    requires AllSpace(a) && AllSpace(b) && Trimmed(t)
    ensures Trim(a + t + b) == t
  {
    LeftStrips(a, t + b);
    assert a + t + b == a + (t + b);
    if t == "" {
      assert t + b == b + "";
      LeftStrips(b, "");
    } else {
      assert TrimLeft(t + b) == t + b by { assert (t + b)[0] == t[0]; }
      RightStrips(t, b);
    }
  }

  /** Every text is its trimmed text between space. */
  lemma TrimShape(s: string) returns (a: string, b: string)
    ensures AllSpace(a) && AllSpace(b) && s == a + Trim(s) + b
  {
    a := LeftShape(s);
    b := RightShape(TrimLeft(s));
  }

  lemma {:induction false} LeftShape(s: string) returns (a: string)
    ensures AllSpace(a) && s == a + TrimLeft(s)
  {
    a := "";
    if s != "" && IsSpace(s[0]) {
      a := LeftShape(s[1..]);
      a := [s[0]] + a;
    }
  }

  lemma {:induction false} RightShape(s: string) returns (b: string)
    ensures AllSpace(b) && s == TrimRight(s) + b
  {
    b := "";
    if s != "" && IsSpace(s[|s| - 1]) {
      b := RightShape(s[..|s| - 1]);
      b := b + [s[|s| - 1]];
    }
  }

  /** The text carries no visible character. */
  predicate Blank(s: string) {
    Trim(s) == ""
  }

  /** The bytes of a character in UTF-8 (section 3 of RFC 3629). */
  function Width(c: char): (n: nat)
    ensures 1 <= n <= 4
  {
    if c < '\U{80}' then 1 else if c < '\U{800}' then 2 else if c < '\U{10000}' then 3 else 4
  }

  lemma WidthOutright(c: char)
    ensures Width(c) == 1 <==> c as int <= 0x7F
    ensures Width(c) == 2 <==> 0x80 <= c as int <= 0x7FF
    ensures Width(c) == 3 <==> 0x800 <= c as int <= 0xFFFF
    ensures Width(c) == 4 <==> 0x10000 <= c as int
  {}

  /** Go's len of a text. */
  function ByteLength(s: string): nat {
    if s == "" then 0 else Width(s[0]) + ByteLength(s[1..])
  }

  function LowerChar(c: char): char {
    if 'A' <= c <= 'Z' then (c as int + 32) as char
    else if c == '\U{130}' then 'i'
    else if c == '\U{212A}' then 'k'
    else c
  }

  /** strings.ToLower, exact for every character whose lower case is an ASCII character. */
  function Lower(s: string): (t: string)
    ensures |t| == |s|
  {
    seq(|s|, i requires 0 <= i < |s| => LowerChar(s[i]))
  }

  /** Lowering changes exactly the capitals: of the ASCII letters all, of other characters the two with an ASCII
      lower case. */
  lemma LowerAt(s: string, i: nat)
    requires i < |s|
    ensures 'A' <= s[i] <= 'Z' ==> Lower(s)[i] as int == s[i] as int + 32
    ensures s[i] < '\U{80}' && !('A' <= s[i] <= 'Z') ==> Lower(s)[i] == s[i]
  {}

  function FoldChar(c: char): char {
    if 'A' <= c <= 'Z' then (c as int + 32) as char else c
  }

  function Fold(s: string): (t: string)
    ensures |t| == |s|
  {
    seq(|s|, i requires 0 <= i < |s| => FoldChar(s[i]))
  }

  /** strings.EqualFold where one side is hexadecimal: no hexadecimal digit has a non-ASCII case partner. */
  predicate EqualFold(a: string, b: string) {
    Fold(a) == Fold(b)
  }

  /** An ASCII letter or digit. */
  predicate IsAlphanumeric(c: char) {
    'A' <= c <= 'Z' || 'a' <= c <= 'z' || '0' <= c <= '9'
  }

  predicate IsHexChar(c: char) {
    '0' <= c <= '9' || 'a' <= c <= 'f'
  }

  /** Folding a text and lowering it make the same of ASCII, so equality up to case is equality of the lowered texts. */
  lemma FoldsAsLowered(a: string, b: string)
    requires (forall i :: 0 <= i < |a| ==> a[i] < '\U{80}') && (forall i :: 0 <= i < |b| ==> b[i] < '\U{80}')
    ensures EqualFold(a, b) <==> Lower(a) == Lower(b)
  {
    assert Fold(a) == Lower(a) && Fold(b) == Lower(b);
  }

  predicate IsHexDigest(s: string) {
    |s| == 64 && forall i :: 0 <= i < |s| ==> IsHexChar(s[i])
  }

  lemma HexOutright(s: string)
    ensures IsHexDigest(s) <==>
              |s| == 64 && forall i :: 0 <= i < |s| ==>
                0x30 <= s[i] as int <= 0x39 || 0x61 <= s[i] as int <= 0x66
  {}

  /** What hex.EncodeToString returns for a SHA-256 sum: 64 lower-case hexadecimal digits. */
  type HexDigest = s: string | IsHexDigest(s) witness seq(64, _ => '0')

  lemma HexIsTrimmed(d: HexDigest)
    ensures Trimmed(d) && Lower(d) == d && Fold(d) == d && !Blank(d)
  {
    assert IsHexChar(d[0]) && IsHexChar(d[|d| - 1]);
  }

  /** The order of Go strings. */
  predicate Leq(a: string, b: string) {
    a == "" || (b != "" && (a[0] < b[0] || (a[0] == b[0] && Leq(a[1..], b[1..]))))
  }

  lemma {:induction false} LeqTotal(a: string, b: string)
    ensures Leq(a, b) || Leq(b, a)
  {
    if a != "" && b != "" && a[0] == b[0] {
      LeqTotal(a[1..], b[1..]);
    }
  }

  lemma {:induction false} LeqAntisymmetric(a: string, b: string)
    requires Leq(a, b) && Leq(b, a)
    ensures a == b
  {
    if a != "" && b != "" {
      LeqAntisymmetric(a[1..], b[1..]);
      assert a == [a[0]] + a[1..] && b == [b[0]] + b[1..];
    }
  }

  lemma {:induction false} LeqTransitive(a: string, b: string, c: string)
    requires Leq(a, b) && Leq(b, c)
    ensures Leq(a, c)
  {
    if a != "" && a[0] == b[0] && b[0] == c[0] {
      LeqTransitive(a[1..], b[1..], c[1..]);
    }
  }
}
