/** Characters, and measures that add up over pieces of text. */
module Text {

  datatype Option<+T> = None | Some(value: T)

  /** A measure of text that is additive over pieces: the sum of the measure of each character. */
  function Measure(m: char -> nat, s: string): nat
  {
    if s == "" then 0 else m(s[0]) + Measure(m, s[1..])
  }

  lemma {:induction false} MeasureConcat(m: char -> nat, a: string, b: string)
    ensures Measure(m, a + b) == Measure(m, a) + Measure(m, b)
  {
    if a == "" {
      assert a + b == b;
    } else {
      assert (a + b)[0] == a[0] && (a + b)[1..] == a[1..] + b;
      MeasureConcat(m, a[1..], b);
    }
  }

  /** The number of bytes of a character in UTF-8. */
  function Utf8Len(c: char): (n: nat)
    ensures 1 <= n <= 4
  {
    if c as int < 0x80 then 1
    else if c as int < 0x800 then 2
    else if c as int < 0x1_0000 then 3
    else 4
  }

  function ByteLen(s: string): nat
  {
    Measure(Utf8Len, s)
  }

  lemma {:induction false} ByteLenAtMost(text: string)
    ensures ByteLen(text) <= 4 * |text|
  {
    if text != "" {
      ByteLenAtMost(text[1..]);
    }
  }

  /** General category Cc. */
  predicate IsControl(c: char) {
    c as int < 0x20 || 0x7f <= c as int < 0xa0
  }

  /** The Unicode property White_Space. */
  predicate IsWhitespace(c: char) {
    var n := c as int;
    || 0x9 <= n <= 0xd || n == 0x20 || n == 0x85 || n == 0xa0 || n == 0x1680
    || 0x2000 <= n <= 0x200a || n == 0x2028 || n == 0x2029 || n == 0x202f || n == 0x205f || n == 0x3000
  }

  predicate IsDigit(c: char) {
    '0' <= c <= '9'
  }

  predicate IsHexDigit(c: char) {
    IsDigit(c) || 'a' <= c <= 'f' || 'A' <= c <= 'F'
  }

  function ToUpper(c: char): char {
    if 'a' <= c <= 'z' then (c as int - 32) as char else c
  }

  function Spaces(n: nat): (s: string)
    ensures |s| == n && forall i | 0 <= i < n :: s[i] == ' '
  {
    seq(n, _ => ' ')
  }

  function Flatten(pieces: seq<string>): string
  {
    if pieces == [] then "" else pieces[0] + Flatten(pieces[1..])
  }
}
