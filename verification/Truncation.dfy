/** Truncation of alert text by bytes, at character boundaries, over UTF-8 (RFC 3629, section 3). */
module Truncation {

  /** The number of bytes of a character in UTF-8. */
  function Width(c: char): (w: nat)
    ensures 1 <= w <= 4
  {
    if c as int < 0x80 then 1 else if c as int < 0x800 then 2 else if c as int < 0x1_0000 then 3 else 4
  }

  /** What `w` bytes can encode: seven bits in one byte; otherwise six in each byte but the first, and `7 - w` in
      that. */
  function Capacity(w: nat): nat
    requires 1 <= w <= 4
  {
    if w == 1 then 0x80
    else if w == 2 then 0x20 * 0x40
    else if w == 3 then 0x10 * 0x40 * 0x40
    else 0x08 * 0x40 * 0x40 * 0x40
  }

  /** The width of a character is that of its shortest encoding. */
  lemma WidthIsShortest(c: char)
    ensures c as int < Capacity(Width(c))
    ensures forall w :: 1 <= w < Width(c) ==> Capacity(w) <= c as int
  {
  }

  function ByteLen(s: string): nat {
    if s == [] then 0 else ByteLen(s[..|s| - 1]) + Width(s[|s| - 1])
  }

  const ELLIPSIS: char := '\U{2026}'

  /** How many characters start before byte offset `limit`. */
  function CharsBefore(s: string, limit: nat): (n: nat)
    ensures n <= |s|
  {
    if s == [] then 0
    else if ByteLen(s[..|s| - 1]) < limit then |s|
    else CharsBefore(s[..|s| - 1], limit)
  }

  /** Cuts after the last character that starts before `maxLen - 3` bytes, and appends the ellipsis. */
  function Truncate(s: string, maxLen: nat): string
    requires maxLen >= 3
  {
    if ByteLen(s) <= maxLen then s else s[..CharsBefore(s, maxLen - 3)] + [ELLIPSIS]
  }

  lemma ByteLenAppend(s: string, c: char)
    ensures ByteLen(s + [c]) == ByteLen(s) + Width(c)
  {
    assert (s + [c])[..|s|] == s;
  }

  lemma {:induction false} PrefixIsShorter(s: string, i: nat, j: nat)
    requires i <= j <= |s|
    ensures ByteLen(s[..i]) + (j - i) <= ByteLen(s[..j]) <= ByteLen(s[..i]) + 4 * (j - i)
    decreases j - i
  {
    if i < j {
      PrefixIsShorter(s, i, j - 1);
      assert s[..j][..j - 1] == s[..j - 1];
    }
  }

  /** The cut is the first character boundary at or after the limit. */
  lemma {:induction false} CutIsFirstBoundary(s: string, limit: nat)
    requires ByteLen(s) >= limit
    ensures ByteLen(s[..CharsBefore(s, limit)]) >= limit
    ensures forall k :: 0 <= k < CharsBefore(s, limit) ==> ByteLen(s[..k]) < limit
  {
    if s != [] {
      var front := s[..|s| - 1];
      if ByteLen(front) < limit {
        assert s[..|s|] == s;
        forall k | 0 <= k < |s| ensures ByteLen(s[..k]) < limit {
          PrefixIsShorter(s, k, |s| - 1);
        }
      } else {
        CutIsFirstBoundary(front, limit);
        assert forall k :: 0 <= k <= |front| ==> front[..k] == s[..k];
      }
    }
  }

  /** The text ends within three bytes after the limit, and before its end if it is longer than that. */
  lemma CutIsClose(s: string, limit: nat)
    requires ByteLen(s) >= limit
    ensures var n := CharsBefore(s, limit);
      && limit <= ByteLen(s[..n]) <= limit + 3
      && (ByteLen(s) > limit + 3 ==> n < |s|)
  {
    var n := CharsBefore(s, limit);
    CutIsFirstBoundary(s, limit);
    if n == |s| { assert s[..n] == s; }
    if n > 0 {
      assert s[..n][..n - 1] == s[..n - 1];
      assert ByteLen(s[..n - 1]) < limit;
    }
    hide CharsBefore;
  }

  lemma TruncatedLength(s: string, maxLen: nat)
    requires maxLen >= 3 && ByteLen(s) > maxLen
    ensures ByteLen(Truncate(s, maxLen)) == ByteLen(s[..CharsBefore(s, maxLen - 3)]) + 3
  {
    ByteLenAppend(s[..CharsBefore(s, maxLen - 3)], ELLIPSIS);
    hide ByteLen;
    hide CharsBefore;
  }

  /** A text that fits is unchanged. A longer one becomes a character prefix and the ellipsis; the prefix ends at the
      first boundary that is not below `maxLen - 3` bytes, and the result has at least `maxLen` and at most
      `maxLen + 3` bytes. */
  lemma TruncateMeaning(s: string, maxLen: nat)
    requires maxLen >= 3
    ensures ByteLen(s) <= maxLen ==> Truncate(s, maxLen) == s
    ensures ByteLen(s) > maxLen ==>
      exists n :: 0 <= n < |s| && Truncate(s, maxLen) == s[..n] + [ELLIPSIS]
        && ByteLen(s[..n]) >= maxLen - 3
        && (forall k :: 0 <= k < n ==> ByteLen(s[..k]) < maxLen - 3)
    ensures ByteLen(s) > maxLen ==> maxLen <= ByteLen(Truncate(s, maxLen)) <= maxLen + 3
  {
    hide ByteLen;
    hide CharsBefore;
    if ByteLen(s) > maxLen {
      var n := CharsBefore(s, maxLen - 3);
      CutIsFirstBoundary(s, maxLen - 3);
      CutIsClose(s, maxLen - 3);
      TruncatedLength(s, maxLen);
    }
  }

  /** The documented limit of `maxLen` bytes is kept exactly when the text fits anyway or a character ends exactly at
      `maxLen - 3` bytes. */
  lemma LimitIsKeptExactlyWhen(s: string, maxLen: nat)
    requires maxLen >= 3
    ensures ByteLen(Truncate(s, maxLen)) <= maxLen
      <==> ByteLen(s) <= maxLen || exists n :: 0 <= n <= |s| && ByteLen(s[..n]) == maxLen - 3
  {
    hide ByteLen;
    hide CharsBefore;
    if ByteLen(s) > maxLen {
      var n := CharsBefore(s, maxLen - 3);
      CutIsClose(s, maxLen - 3);
      TruncatedLength(s, maxLen);
      hide Truncate;
      if k :| 0 <= k <= |s| && ByteLen(s[..k]) == maxLen - 3 {
        CutIsFirstBoundary(s, maxLen - 3);
        PrefixIsShorter(s, n, k);
      }
    }
  }

  ghost predicate IsAscii(s: string) { forall i :: 0 <= i < |s| ==> s[i] as int < 0x80 }

  lemma {:induction false} AsciiLength(s: string)
    requires IsAscii(s)
    ensures ByteLen(s) == |s|
  {
    if s != [] { AsciiLength(s[..|s| - 1]); }
  }

  /** Truncated ASCII is exactly `maxLen` bytes: the first `maxLen - 3` characters and the ellipsis. */
  lemma AsciiIsExact(s: string, maxLen: nat)
    requires maxLen >= 3 && IsAscii(s) && |s| > maxLen
    ensures Truncate(s, maxLen) == s[..maxLen - 3] + [ELLIPSIS] && ByteLen(Truncate(s, maxLen)) == maxLen
  {
    AsciiLength(s);
    var n := CharsBefore(s, maxLen - 3);
    CutIsFirstBoundary(s, maxLen - 3);
    AsciiLength(s[..n]);
    AsciiLength(s[..maxLen - 3]);
    assert n == maxLen - 3;
    ByteLenAppend(s[..n], ELLIPSIS);
  }

  /** The overshoot of three bytes is reached: a four-byte character that starts just below the limit. */
  lemma OvershootIsReached(s: string, maxLen: nat, wide: char)
    requires maxLen >= 4 && IsAscii(s) && |s| == maxLen - 4 && Width(wide) == 4
    ensures ByteLen(Truncate(s + [wide, 'x'], maxLen)) == maxLen + 3
  {
    AsciiLength(s);
    var w := s + [wide];
    ByteLenAppend(s, wide);
    ByteLenAppend(w, 'x');
    assert s + [wide, 'x'] == w + ['x'];
    assert (w + ['x'])[..|w|] == w && w[..|s|] == s;
    assert CharsBefore(w, maxLen - 3) == |w|;
    assert CharsBefore(w + ['x'], maxLen - 3) == |w|;
    ByteLenAppend(w, ELLIPSIS);
  }
}
