/** Text as the bytes of a Go string: what cutting it at a byte limit leaves, and what JSON makes of the rest. */
module Bytes {
  import opened Text

  /** A Go string is a list of characters and of stray bytes, which belong to no character. */
  datatype Unit = Scalar(c: char) | Stray

  type GoText = seq<Unit>

  function Units(s: string): (t: GoText)
    ensures |t| == |s|
  {
    seq(|s|, i requires 0 <= i < |s| => Scalar(s[i]))
  }

  function UnitWidth(u: Unit): nat {
    if u.Scalar? then Width(u.c) else 1
  }

  function Size(t: GoText): nat {
    if t == [] then 0 else UnitWidth(t[0]) + Size(t[1..])
  }

  function Strays(n: nat): (t: GoText)
    ensures |t| == n
  {
    seq(n, _ => Stray)
  }

  /** No stray bytes. */
  predicate Whole(t: GoText) {
    forall i :: 0 <= i < |t| ==> t[i].Scalar?
  }

  /** The first `limit` bytes of a text, or all of it. A cut inside a character keeps its leading bytes as strays. */
  function Truncate(value: string, limit: nat): GoText {
    if value == "" then []
    else if Width(value[0]) <= limit then [Scalar(value[0])] + Truncate(value[1..], limit - Width(value[0]))
    else Strays(limit)
  }

  lemma {:induction false} StraysSize(n: nat)
    ensures Size(Strays(n)) == n
  {
    if n > 0 {
      assert Strays(n)[1..] == Strays(n - 1);
      StraysSize(n - 1);
    }
  }

  /** Exactly that many bytes. */
  lemma {:induction false} TruncateSize(value: string, limit: nat)
    ensures Size(Truncate(value, limit)) == if ByteLength(value) < limit then ByteLength(value) else limit
  {
    if value != "" {
      if Width(value[0]) <= limit {
        TruncateSize(value[1..], limit - Width(value[0]));
        assert Truncate(value, limit)[1..] == Truncate(value[1..], limit - Width(value[0]));
      } else {
        StraysSize(limit);
      }
    }
  }

  /** They are bytes of the text itself: whole characters from its start, then fewer strays than the next one is
      wide. */
  lemma {:induction false} TruncateKeeps(value: string, limit: nat) returns (k: nat, m: nat)
    ensures k <= |value| && Truncate(value, limit) == Units(value[..k]) + Strays(m)
    ensures if k < |value| then m < Width(value[k]) else m == 0
    ensures ByteLength(value[..k]) + m == if ByteLength(value) < limit then ByteLength(value) else limit
  {
    if value == "" {
      k, m := 0, 0;
    } else if Width(value[0]) <= limit {
      k, m := TruncateKeeps(value[1..], limit - Width(value[0]));
      k := k + 1;
      assert value[..k][1..] == value[1..][..k - 1];
      assert Units(value[..k]) == [Scalar(value[0])] + Units(value[1..][..k - 1]);
    } else {
      k, m := 0, limit;
      assert value[..0] == "";
    }
  }

  /** The byte limit falls between two characters, or past the end. */
  predicate OnBoundary(value: string, limit: nat) {
    ByteLength(value) <= limit || exists k :: 0 <= k <= |value| && ByteLength(value[..k]) == limit
  }

  lemma {:induction false} PrefixLength(value: string, k: nat)
    requires k < |value|
    ensures ByteLength(value[..k + 1]) == ByteLength(value[..k]) + Width(value[k])
  {
    if k > 0 {
      PrefixLength(value[1..], k - 1);
      assert value[..k + 1][1..] == value[1..][..k] && value[..k][1..] == value[1..][..k - 1];
    } else {
      assert value[..0] == "" && value[..1][1..] == "";
    }
  }

  lemma {:induction false} PrefixesGrow(value: string, j: nat, k: nat)
    requires j <= k <= |value|
    ensures ByteLength(value[..j]) <= ByteLength(value[..k])
    ensures j < k ==> ByteLength(value[..j]) + Width(value[j]) <= ByteLength(value[..k])
  {
    if j < k {
      PrefixesGrow(value, j, k - 1);
      PrefixLength(value, k - 1);
    }
  }

  /** A cut text is whole exactly when the limit does not split a character. */
  lemma WholeIffOnBoundary(value: string, limit: nat)
    ensures Whole(Truncate(value, limit)) <==> OnBoundary(value, limit)
  {
    var k, m := TruncateKeeps(value, limit);
    assert value[..|value|] == value;
    if m == 0 {
      PrefixesGrow(value, k, |value|);
    } else {
      assert (Units(value[..k]) + Strays(m))[k] == Stray;
      forall j | 0 <= j <= |value| ensures ByteLength(value[..j]) != limit {
        if j <= k { PrefixesGrow(value, j, k); } else { PrefixesGrow(value, k, j); }
      }
      PrefixesGrow(value, k, |value|);
    }
  }

  predicate Ascii(s: string) {
    forall i :: 0 <= i < |s| ==> s[i] < '\U{80}'
  }

  lemma {:induction false} AsciiLength(s: string)
    requires Ascii(s)
    ensures ByteLength(s) == |s|
  {
    if s != "" { AsciiLength(s[1..]); }
  }

  /** No limit splits an ASCII text. */
  lemma AsciiOnBoundary(value: string, limit: nat)
    requires Ascii(value)
    ensures OnBoundary(value, limit)
  {
    AsciiLength(value);
    if limit < |value| {
      AsciiLength(value[..limit]);
    }
  }

  /** What encoding to JSON and decoding again makes of a text: every stray byte becomes the replacement character. The
      encoder spells the two differently (`\ufffd` against the character itself), so their encodings differ. */
  function Reread(t: GoText): (r: GoText)
    ensures Whole(r)
    ensures r == t <==> Whole(t)
  {
    var r := seq(|t|, i requires 0 <= i < |t| => if t[i].Scalar? then t[i] else Scalar('\U{FFFD}'));
    assert Whole(t) ==> r == t;
    r
  }
}
