/** `truncate` from `src/lib/utils.ts`: text longer than the limit is cut to the limit, trimmed
    of surrounding white space, and followed by "...". Strings are sequences of characters;
    `String.prototype.slice` and `trim` are modelled as the ECMAScript standard defines them. */
module TextUtils {

  /** ECMAScript `WhiteSpace` and `LineTerminator` code points, which `trim` removes
      (sections 12.2 and 12.3 of ECMA-262): tab, vertical tab, form feed, space, no-break
      space, byte order mark, the other `Zs` space separators, line feed, carriage return,
      line separator and paragraph separator. */
  predicate IsWhitespace(c: char) {
    var n := c as int;
    (0x9 <= n <= 0xD)                      // tab, line feed, vertical tab, form feed, carriage return
    || n == 0x20 || n == 0xA0 || n == 0x1680
    || (0x2000 <= n <= 0x200A)              // en quad through hair space
    || n == 0x2028 || n == 0x2029           // line and paragraph separators
    || n == 0x202F || n == 0x205F || n == 0x3000 || n == 0xFEFF
  }

  predicate AllWhitespace(s: string) {
    forall k :: 0 <= k < |s| ==> IsWhitespace(s[k])
  }

  /** Neither the first nor the last character is white space. */
  predicate Trimmed(s: string) {
    s == [] || (!IsWhitespace(s[0]) && !IsWhitespace(s[|s| - 1]))
  }

  /** The index of the first character at or after `i` that is not white space, or `|s|`. */
  function FirstNonSpace(s: string, i: nat): (n: nat)
    requires i <= |s|
    ensures i <= n <= |s|
    ensures forall k :: i <= k < n ==> IsWhitespace(s[k])
    ensures n < |s| ==> !IsWhitespace(s[n])
    decreases |s| - i
  {
    if i == |s| || !IsWhitespace(s[i]) then i else FirstNonSpace(s, i + 1)
  }

  /** The end of `s[lo..j]` once its trailing white space is dropped. */
  function TrimmedEnd(s: string, lo: nat, j: nat): (e: nat)
    requires lo <= j <= |s|
    ensures lo <= e <= j
    ensures forall k :: e <= k < j ==> IsWhitespace(s[k])
    ensures lo < e ==> !IsWhitespace(s[e - 1])
    decreases j - lo
  {
    if j == lo || !IsWhitespace(s[j - 1]) then j else TrimmedEnd(s, lo, j - 1)
  }

  /** `String.prototype.trim`: `s` without its leading and trailing white space. */
  function Trim(s: string): (r: string)
    ensures |r| <= |s|
    ensures Trimmed(r)
  {
    var i := FirstNonSpace(s, 0);
    var j := TrimmedEnd(s, i, |s|);
    s[i..j]
  }

  /** `trim` returns a contiguous stretch of its input with only white space on either side. */
  lemma TrimSlice(s: string)
    ensures var i := FirstNonSpace(s, 0);
            var j := TrimmedEnd(s, i, |s|);
            Trim(s) == s[i..j] && AllWhitespace(s[..i]) && AllWhitespace(s[j..])
  {
    var i := FirstNonSpace(s, 0);
    var j := TrimmedEnd(s, i, |s|);
    forall k | 0 <= k < i ensures IsWhitespace(s[..i][k]) {
      assert s[..i][k] == s[k];
    }
    forall k | 0 <= k < |s| - j ensures IsWhitespace(s[j..][k]) {
      assert s[j..][k] == s[j + k];
    }
  }

  /** `FirstNonSpace` is the only index with its postcondition. */
  lemma FirstNonSpaceIs(s: string, i: nat, n: nat)
    requires i <= n <= |s|
    requires forall k :: i <= k < n ==> IsWhitespace(s[k])
    requires n < |s| ==> !IsWhitespace(s[n])
    ensures FirstNonSpace(s, i) == n
  {
  }

  /** `TrimmedEnd` is the only index with its postcondition. */
  lemma TrimmedEndIs(s: string, lo: nat, j: nat, e: nat)
    requires lo <= e <= j <= |s|
    requires forall k :: e <= k < j ==> IsWhitespace(s[k])
    requires lo < e ==> !IsWhitespace(s[e - 1])
    ensures TrimmedEnd(s, lo, j) == e
  {
  }

  /** White space at the ends is the only thing `trim` removes: for any split of a string into
      white space, a trimmed middle and white space, `trim` returns that middle. */
  lemma TrimUnique(a: string, m: string, b: string)
    requires AllWhitespace(a) && AllWhitespace(b) && Trimmed(m)
    ensures Trim(a + m + b) == m
  {
    var s := a + m + b;
    assert forall k :: 0 <= k < |a| ==> s[k] == a[k];
    assert forall k :: |a| <= k < |a| + |m| ==> s[k] == m[k - |a|];
    assert forall k :: |a| + |m| <= k < |s| ==> s[k] == b[k - |a| - |m|];
    if m == [] {
      FirstNonSpaceIs(s, 0, |s|);
      TrimmedEndIs(s, |s|, |s|, |s|);
    } else {
      FirstNonSpaceIs(s, 0, |a|);
      TrimmedEndIs(s, |a|, |s|, |a| + |m|);
      assert s[|a|..|a| + |m|] == m;
    }
  }

  /** Trimming twice is trimming once. */
  lemma TrimIdempotent(s: string)
    ensures Trim(Trim(s)) == Trim(s)
  {
    var m := Trim(s);
    TrimUnique([], m, []);
    assert [] + m + [] == m;
  }

  /** The end index `String.prototype.slice(0, n)` uses for a string of length `len` and an
      integral `n`: a negative `n` counts from the end, and the result is clamped to the string. */
  function SliceEnd(len: nat, n: int): (e: nat)
    ensures e <= len
    ensures 0 <= n ==> e == if n <= len then n else len
    ensures n < 0 ==> e == if len + n < 0 then 0 else len + n
  {
    if n < 0 then (if len + n < 0 then 0 else len + n) else if n <= len then n else len
  }

  const Ellipsis: string := "..."

  /** `truncate(text, length)`: when it cuts, for any limit, the result ends with "..." and is
      at most three characters longer than the part `slice` keeps. */
  function Truncate(text: string, length: int): (r: string)
    ensures |text| > length ==> |r| >= 3 && r[|r| - 3..] == Ellipsis
                                && |r| <= SliceEnd(|text|, length) + 3
  {
    if |text| <= length then text
    else
      var core := Trim(text[..SliceEnd(|text|, length)]);
      assert (core + Ellipsis)[|core|..] == Ellipsis;
      core + Ellipsis
  }

  /** When `truncate` cuts, the result ends with "...", is at most three characters longer than
      the limit, and what precedes "..." is a white-space-free-ended stretch of the first
      `length` characters, with only white space around it in that prefix. */
  lemma TruncateShape(text: string, length: nat)
    requires |text| > length
    ensures var r := Truncate(text, length);
            |r| >= 3 && r[|r| - 3..] == "..." && |r| <= length + 3
    ensures exists i, j :: 0 <= i <= j <= length
                           && Truncate(text, length) == text[i..j] + "..."
                           && Trimmed(text[i..j])
                           && AllWhitespace(text[..i]) && AllWhitespace(text[j..length])
  {
    var p := text[..length];
    TrimSlice(p);
    var core := Trim(p);
    var i := FirstNonSpace(p, 0);
    var j := TrimmedEnd(p, i, |p|);
    assert text[i..j] == core;
    assert text[..i] == p[..i];
    assert text[j..length] == p[j..];
    var r := core + Ellipsis;
    assert r[|r| - 3..] == Ellipsis;
  }

  /** Text within the limit is returned unchanged, so `truncate` never alters short text. */
  lemma TruncateShortIdentity(text: string, length: int)
    requires |text| <= length
    ensures Truncate(text, length) == text
  {
  }
}
