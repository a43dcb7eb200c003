/** Text as bytes, and where it may be cut: RFC 3629, section 3. */
module Utf8 {
  import opened Text

  type byte = x: int | 0 <= x < 256

  /** The bytes after the first one of a character. */
  predicate IsContinuation(b: byte) {
    0x80 <= b < 0xc0
  }

  /** How many bytes a character has that begins with `b`, or none if none begins so. */
  function LeadLen(b: byte): (n: nat)
    ensures n <= 4
  {
    if b < 0x80 then 1
    else if 0xc0 <= b < 0xe0 then 2
    else if 0xe0 <= b < 0xf0 then 3
    else if 0xf0 <= b < 0xf8 then 4
    else 0
  }

  predicate CharAhead(t: seq<byte>)
  {
    && t != [] && 1 <= LeadLen(t[0]) <= |t|
    && forall i | 1 <= i < LeadLen(t[0]) :: IsContinuation(t[i])
  }

  /** Nothing but whole characters. */
  predicate Chars(t: seq<byte>)
    decreases |t|
  {
    t == [] || (CharAhead(t) && Chars(t[LeadLen(t[0])..]))
  }

  predicate Boundary(t: seq<byte>, k: nat) {
    k == 0 || k == |t| || (k < |t| && !IsContinuation(t[k]))
  }

  lemma {:induction false} CharsConcat(a: seq<byte>, b: seq<byte>)
    requires Chars(a) && Chars(b)
    ensures Chars(a + b)
    decreases |a|
  {
    if a == [] {
      assert a + b == b;
    } else {
      var n := LeadLen(a[0]);
      CharsConcat(a[n..], b);
      assert (a + b)[0] == a[0] && (a + b)[n..] == a[n..] + b;
      assert forall i | 1 <= i < n :: (a + b)[i] == a[i];
    }
  }

  /** Cut at a boundary, both parts are whole characters. */
  lemma {:induction false} CutChars(t: seq<byte>, k: nat)
    requires Chars(t) && k <= |t| && Boundary(t, k)
    ensures Chars(t[..k]) && Chars(t[k..])
    decreases |t|
  {
    if k == 0 {
      assert t[k..] == t;
    } else if k == |t| {
      assert t[..k] == t;
    } else {
      var n := LeadLen(t[0]);
      assert k >= n;
      assert Boundary(t[n..], k - n);
      CutChars(t[n..], k - n);
      assert t[..k][n..] == t[n..][..k - n] && t[k..] == t[n..][k - n..];
    }
  }

  /** The longest prefix of whole characters within `limit` bytes. */
  function PrefixLen(t: seq<byte>, limit: nat): (n: nat)
    ensures n <= limit && n <= |t| && Boundary(t, n)
    ensures forall k | n < k <= limit && k <= |t| :: !Boundary(t, k)
    decreases limit
  {
    if limit > |t| then PrefixLen(t, |t|)
    else if Boundary(t, limit) then limit
    else PrefixLen(t, limit - 1)
  }

  /** No character has more than four bytes: the prefix ends within three bytes of the limit. */
  lemma {:induction false} PrefixIsLong(t: seq<byte>, limit: nat)
    requires Chars(t)
    ensures PrefixLen(t, limit) == |t| || PrefixLen(t, limit) + 3 >= limit
    ensures PrefixLen(t, limit) == 0 <==> t == [] || limit < LeadLen(t[0])
    decreases |t|
  {
    var n := PrefixLen(t, limit);
    if t != [] {
      var first := LeadLen(t[0]);
      assert Boundary(t, first) by {
        if first < |t| {
          assert t[first] == t[first..][0];
        }
      }
      if limit >= first {
        var rest := t[first..];
        PrefixIsLong(rest, limit - first);
        var m := PrefixLen(rest, limit - first);
        assert Boundary(t, first + m) by {
          if 0 < m < |rest| {
            assert t[first + m] == rest[m];
          }
        }
        assert n >= first + m;
      }
    }
  }

  /** The bytes of a character. */
  function Encode(c: char): (t: seq<byte>)
    ensures |t| == Utf8Len(c) && CharAhead(t) && LeadLen(t[0]) == |t|
  {
    var n := c as int;
    if n < 0x80 then [n]
    else if n < 0x800 then [0xc0 + n / 0x40, 0x80 + n % 0x40]
    else if n < 0x1_0000 then [0xe0 + n / 0x1000, 0x80 + n / 0x40 % 0x40, 0x80 + n % 0x40]
    else [0xf0 + n / 0x4_0000, 0x80 + n / 0x1000 % 0x40, 0x80 + n / 0x40 % 0x40, 0x80 + n % 0x40]
  }

  function EncodeText(s: string): seq<byte> {
    if s == "" then [] else Encode(s[0]) + EncodeText(s[1..])
  }

  /** Cutting the bytes of a text at a boundary cuts the text between two characters. */
  lemma {:induction false} CutText(s: string, k: nat) returns (j: nat)
    requires k <= |EncodeText(s)| && Boundary(EncodeText(s), k)
    ensures j <= |s| && EncodeText(s)[..k] == EncodeText(s[..j])
  {
    j := 0;
    if k > 0 {
      var n := |Encode(s[0])|;
      CutAfterFirst(s, k);
      j := CutText(s[1..], k - n);
      Prefix(Encode(s[0]), EncodeText(s[1..]), k);
      EncodeFirst(s, j);
      j := j + 1;
    }
  }

  lemma Prefix(a: seq<byte>, b: seq<byte>, k: nat)
    requires |a| <= k <= |a| + |b|
    ensures (a + b)[..k] == a + b[..k - |a|]
  {
  }

  lemma EncodeFirst(s: string, j: nat)
    requires j < |s|
    ensures EncodeText(s[..j + 1]) == Encode(s[0]) + EncodeText(s[1..][..j])
  {
    assert s[..j + 1][0] == s[0] && s[..j + 1][1..] == s[1..][..j];
  }

  lemma CutAfterFirst(s: string, k: nat)
    requires s != "" && 0 < k <= |EncodeText(s)| && Boundary(EncodeText(s), k)
    ensures k >= |Encode(s[0])| && Boundary(EncodeText(s[1..]), k - |Encode(s[0])|)
  {
    var first, rest, t := Encode(s[0]), EncodeText(s[1..]), EncodeText(s);
    assert forall i | 1 <= i < |first| :: t[i] == first[i] && IsContinuation(t[i]);
    if |first| < k < |t| {
      assert t[k] == rest[k - |first|];
    }
  }

  lemma {:induction false} EncodeConcat(a: string, b: string)
    ensures EncodeText(a + b) == EncodeText(a) + EncodeText(b)
  {
    if a == "" {
      assert a + b == b;
    } else {
      assert (a + b)[0] == a[0] && (a + b)[1..] == a[1..] + b;
      EncodeConcat(a[1..], b);
    }
  }

  lemma {:induction false} TextIsChars(s: string)
    ensures Chars(EncodeText(s)) && |EncodeText(s)| == ByteLen(s)
  {
    if s != "" {
      TextIsChars(s[1..]);
      var t := EncodeText(s);
      assert t[0] == Encode(s[0])[0] && t[|Encode(s[0])|..] == EncodeText(s[1..]);
      assert forall i | 1 <= i < |Encode(s[0])| :: t[i] == Encode(s[0])[i];
    }
  }
}
