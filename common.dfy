// Shared value types and the few Python string operations the backend relies on.

module Common {

  datatype Option<+T> = None | Some(value: T)

  /** A call that either returns a value or raises an exception carrying a message. */
  datatype Result<+T, +E> = Ok(value: T) | Err(error: E)

  /** Python's `s.startswith(prefix)`. */
  predicate StartsWith(s: string, prefix: string)
  {
    |prefix| <= |s| && s[..|prefix|] == prefix
  }

  /** Python's `needle in s` on strings: `needle` occurs somewhere in `s`. */
  predicate Contains(s: string, needle: string)
    decreases |s|
  {
    StartsWith(s, needle) || (|s| > 0 && Contains(s[1..], needle))
  }

  /** Python's truthiness of a string: only the empty string is false. */
  predicate Truthy(s: string)
  {
    s != ""
  }

  function DigitChar(d: nat): char
    requires d < 10
  {
    "0123456789"[d]
  }

  function NatToString(n: nat): (r: string)
    ensures |r| > 0
    ensures forall i :: 0 <= i < |r| ==> '0' <= r[i] <= '9'
    decreases n
  {
    if n < 10 then [DigitChar(n)] else NatToString(n / 10) + [DigitChar(n % 10)]
  }

  /** Python's `str(i)` for an integer, as used in f-strings. */
  function IntToString(i: int): (r: string)
    ensures |r| > 0
  {
    if i < 0 then "-" + NatToString(-i) else NatToString(i)
  }

  /** Python's `str.isspace()` for one character, the set `str.strip()` removes: the
      ASCII controls 0x09-0x0D and 0x1C-0x1F, the space, NEL, the no-break space and
      the Unicode space and line and paragraph separators. */
  predicate IsSpace(c: char)
  {
    || '\t' <= c <= '\r'
    || '\U{001C}' <= c <= ' '
    || c == '\U{0085}' || c == '\U{00A0}' || c == '\U{1680}'
    || '\U{2000}' <= c <= '\U{200A}'
    || c == '\U{2028}' || c == '\U{2029}' || c == '\U{202F}' || c == '\U{205F}' || c == '\U{3000}'
  }

  function StripLeft(s: string): (r: string)
    ensures |r| <= |s| && r == s[|s| - |r|..]
    ensures forall i :: 0 <= i < |s| - |r| ==> IsSpace(s[i])
    ensures r == [] || !IsSpace(r[0])
  {
    if s != [] && IsSpace(s[0]) then StripLeft(s[1..]) else s
  }

  function StripRight(s: string): (r: string)
    ensures |r| <= |s| && r == s[..|r|]
    ensures forall i :: |r| <= i < |s| ==> IsSpace(s[i])
    ensures r == [] || !IsSpace(r[|r| - 1])
  {
    if s != [] && IsSpace(s[|s| - 1]) then StripRight(s[..|s| - 1]) else s
  }

  /** Leading whitespace does not change what `lstrip()` leaves. */
  lemma {:induction false} StripLeftSkipsSpaces(pre: string, s: string)
    requires forall i :: 0 <= i < |pre| ==> IsSpace(pre[i])
    ensures StripLeft(pre + s) == StripLeft(s)
    decreases |pre|
  {
    if pre == [] {
      assert pre + s == s;
    } else {
      assert (pre + s)[1..] == pre[1..] + s;
      StripLeftSkipsSpaces(pre[1..], s);
    }
  }

  /** Trailing whitespace does not change what `rstrip()` leaves. */
  lemma {:induction false} StripRightSkipsSpaces(s: string, post: string)
    requires forall i :: 0 <= i < |post| ==> IsSpace(post[i])
    ensures StripRight(s + post) == StripRight(s)
    decreases |post|
  {
    if post == [] {
      assert s + post == s;
    } else {
      var init := post[..|post| - 1];
      assert (s + post)[..|s + post| - 1] == s + init;
      StripRightSkipsSpaces(s, init);
    }
  }

  /** How many whitespace characters `s.strip()` removes from the front of `s`. */
  function LeadingSpaces(s: string): (n: nat)
    ensures n <= |s|
    ensures forall i :: 0 <= i < n ==> IsSpace(s[i])
    ensures n == |s| || !IsSpace(s[n])
  {
    |s| - |StripLeft(s)|
  }

  /** Python's `s.strip()`: `r` is the part of `s` that starts at its first
      non-whitespace character and ends at its last one. */
  function Strip(s: string): (r: string)
    ensures r == [] || (!IsSpace(r[0]) && !IsSpace(r[|r| - 1]))
    ensures LeadingSpaces(s) + |r| <= |s|
    ensures s[LeadingSpaces(s)..LeadingSpaces(s) + |r|] == r
    ensures forall i :: LeadingSpaces(s) + |r| <= i < |s| ==> IsSpace(s[i])
  {
    StripRight(StripLeft(s))
  }

  /** Python's `s.split(",")[0]`: the text before the first comma, or all of `s`. */
  function BeforeFirstComma(s: string): (r: string)
    ensures ',' !in r
    ensures |r| <= |s| && r == s[..|r|]
    ensures |r| == |s| || s[|r|] == ','
  {
    if s == [] || s[0] == ',' then [] else [s[0]] + BeforeFirstComma(s[1..])
  }
}
