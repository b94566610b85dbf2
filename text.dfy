/** The string operations the session engine applies to chat text: Python's
    `in` on strings, `str.lower()`, `str.strip()` and the slice `s[:n]`. */
module Text {

  /** `p` occurs at the very start of `s`. */
  predicate IsPrefix(p: string, s: string) {
    |p| <= |s| && s[..|p|] == p
  }

  /** Python's `p in s` on strings. */
  predicate Contains(s: string, p: string)
    decreases |s|
  {
    IsPrefix(p, s) || (|s| > 0 && Contains(s[1..], p))
  }

  /** Python's `any(p in s for p in ps)`. */
  predicate ContainsAny(s: string, ps: seq<string>) {
    exists p | p in ps :: Contains(s, p)
  }

  /** An occurrence of `p` at any position makes `s` contain `p`. */
  lemma {:induction false} ContainsAt(s: string, p: string, i: nat)
    requires i + |p| <= |s| && s[i..i + |p|] == p
    ensures Contains(s, p)
  {
    if i > 0 {
      assert s[1..][i - 1..i - 1 + |p|] == s[i..i + |p|];
      ContainsAt(s[1..], p, i - 1);
    }
  }

  /** Every character of a contained pattern occurs in the string; used to
      show that a pattern is absent. */
  lemma {:induction false} ContainedCharsOccur(s: string, p: string, k: nat)
    requires Contains(s, p) && k < |p|
    ensures p[k] in s
    decreases |s|
  {
    if IsPrefix(p, s) {
      assert s[k] == p[k];
    } else {
      ContainedCharsOccur(s[1..], p, k);
    }
  }

  /** A string contains every piece it is concatenated from. */
  lemma ContainsPiece(a: string, p: string, b: string)
    ensures Contains(a + p + b, p)
  {
    assert (a + p + b)[|a|..|a| + |p|] == p;
    ContainsAt(a + p + b, p, |a|);
  }

  // ---------------------------------------------------------------------------
  // Lower-casing

  /** The upper-case letters `str.lower()` is modelled on: ASCII A-Z and the
      Turkish capitals Ç, Ğ, Ö, Ş, Ü. */
  predicate IsUpper(c: char) {
    ('A' <= c <= 'Z') || c == 'Ç' || c == 'Ğ' || c == 'Ö' || c == 'Ş' || c == 'Ü'
  }

  /** The characters `LowerChar` produces from an upper-case letter. */
  predicate IsLowered(c: char) {
    ('a' <= c <= 'z') || c == 'ç' || c == 'ğ' || c == 'ö' || c == 'ş' || c == 'ü'
  }

  function LowerChar(c: char): (d: char)
    ensures IsUpper(c) <==> d != c
    ensures d != c ==> IsLowered(d)
  {
    if 'A' <= c <= 'Z' then (c as int + 32) as char
    else if c == 'Ç' then 'ç'
    else if c == 'Ğ' then 'ğ'
    else if c == 'Ö' then 'ö'
    else if c == 'Ş' then 'ş'
    else if c == 'Ü' then 'ü'
    else c
  }

  function Lower(s: string): (r: string)
    ensures |r| == |s|
  {
    seq(|s|, i requires 0 <= i < |s| => LowerChar(s[i]))
  }

  /** Lower-casing twice is lower-casing once. */
  lemma LowerIdempotent(s: string)
    ensures Lower(Lower(s)) == Lower(s)
  {
  }

  /** A character that lower-casing neither changes nor produces. */
  predicate Caseless(c: char) {
    !IsUpper(c) && !IsLowered(c)
  }

  /** Lower-casing the text does not change whether it contains a pattern made
      only of caseless characters (digits, emoji, keycap marks). */
  lemma {:induction false} LowerKeepsCaseless(s: string, p: string)
    requires forall k :: 0 <= k < |p| ==> Caseless(p[k])
    ensures Contains(Lower(s), p) <==> Contains(s, p)
  {
    if |p| <= |s| {
      forall k | 0 <= k < |p| ensures Lower(s)[k] == p[k] <==> s[k] == p[k] {
        assert LowerChar(s[k]) == p[k] ==> s[k] == p[k];
      }
      assert IsPrefix(p, Lower(s)) <==> IsPrefix(p, s) by {
        if IsPrefix(p, s) {
          assert forall k :: 0 <= k < |p| ==> Lower(s)[..|p|][k] == p[k];
        }
        if IsPrefix(p, Lower(s)) {
          assert forall k :: 0 <= k < |p| ==> s[..|p|][k] == p[k];
        }
      }
    }
    if |s| > 0 {
      assert Lower(s)[1..] == Lower(s[1..]);
      LowerKeepsCaseless(s[1..], p);
    }
  }

  // ---------------------------------------------------------------------------
  // Stripping

  /** The characters `str.strip()` removes, restricted in this model to the
      ASCII ones: tab, line feed, the vertical tab, form feed, carriage return,
      the separators U+001C to U+001F, and space. */
  predicate IsSpace(c: char) {
    c == ' ' || c == '\t' || c == '\n' || c == '\r' || c == '\U{B}' || c == '\U{C}'
    || ('\U{1C}' <= c <= '\U{1F}')
  }

  function TrimStart(s: string): (r: string)
    ensures r == [] || !IsSpace(r[0])
    ensures |r| <= |s|
  {
    if |s| > 0 && IsSpace(s[0]) then TrimStart(s[1..]) else s
  }

  function TrimEnd(s: string): (r: string)
    ensures r == [] || !IsSpace(r[|r| - 1])
    ensures |r| <= |s|
  {
    if |s| > 0 && IsSpace(s[|s| - 1]) then TrimEnd(s[..|s| - 1]) else s
  }

  /** Python's `str.strip()`. */
  function Strip(s: string): (r: string)
    ensures |r| <= |s|
  {
    TrimEnd(TrimStart(s))
  }

  /** A pattern whose first and last characters are not whitespace. */
  predicate Trimmed(p: string) {
    |p| > 0 && !IsSpace(p[0]) && !IsSpace(p[|p| - 1])
  }

  lemma {:induction false} TrimStartKeeps(s: string, p: string)
    requires Trimmed(p)
    ensures Contains(TrimStart(s), p) <==> Contains(s, p)
  {
    if |s| > 0 && IsSpace(s[0]) {
      assert !IsPrefix(p, s);
      TrimStartKeeps(s[1..], p);
    }
  }

  /** Text followed by whitespace contains a trimmed pattern only where the
      text alone does. */
  lemma {:induction false} DropSpacesAfter(t: string, w: string, p: string)
    requires Trimmed(p)
    requires forall k :: 0 <= k < |w| ==> IsSpace(w[k])
    ensures Contains(t + w, p) <==> Contains(t, p)
    decreases |t| + |w|
  {
    if |t| == 0 {
      assert t + w == w;
      if |w| > 0 {
        assert !IsPrefix(p, w);
        assert [] + w[1..] == w[1..];
        DropSpacesAfter([], w[1..], p);
      }
    } else {
      assert IsPrefix(p, t + w) <==> IsPrefix(p, t) by {
        if |p| <= |t| {
          assert (t + w)[..|p|] == t[..|p|];
        }
      }
      assert (t + w)[1..] == t[1..] + w;
      DropSpacesAfter(t[1..], w, p);
    }
  }

  lemma {:induction false} TrimEndKeeps(s: string, p: string)
    requires Trimmed(p)
    ensures Contains(TrimEnd(s), p) <==> Contains(s, p)
    decreases |s|
  {
    if |s| > 0 && IsSpace(s[|s| - 1]) {
      var t := s[..|s| - 1];
      assert s == t + [s[|s| - 1]];
      DropSpacesAfter(t, [s[|s| - 1]], p);
      TrimEndKeeps(t, p);
    }
  }

  /** Stripping surrounding whitespace never changes whether the text contains
      a pattern that itself starts and ends with a non-space character. */
  lemma StripKeepsTrimmed(s: string, p: string)
    requires Trimmed(p)
    ensures Contains(Strip(s), p) <==> Contains(s, p)
  {
    TrimStartKeeps(s, p);
    TrimEndKeeps(TrimStart(s), p);
  }

  // ---------------------------------------------------------------------------
  // Removing

  /** Python's `s.replace(p, "")` for a non-empty `p`: the occurrences of `p`
      found scanning left to right, without overlap, are removed. */
  function RemoveAll(s: string, p: string): (r: string)
    requires p != []
    ensures |r| <= |s|
    ensures !Contains(s, p) ==> r == s
    decreases |s|
  {
    if IsPrefix(p, s) then RemoveAll(s[|p|..], p)
    else if s == [] then []
    else [s[0]] + RemoveAll(s[1..], p)
  }

  /** Removing a piece from text that is just that piece, repeated, leaves
      nothing. */
  lemma {:induction false} RemoveAllRepeated(p: string, n: nat)
    requires p != []
    ensures RemoveAll(Repeat(p, n), p) == []
  {
    if n > 0 {
      assert Repeat(p, n)[|p|..] == Repeat(p, n - 1);
      RemoveAllRepeated(p, n - 1);
    }
  }

  /** `p * n` in Python. */
  function Repeat(p: string, n: nat): (r: string)
    ensures |r| == n * |p|
  {
    if n == 0 then [] else p + Repeat(p, n - 1)
  }

  // ---------------------------------------------------------------------------
  // Slicing

  /** Python's `s[:n]` for a non-negative `n`. */
  function Take(s: string, n: nat): (r: string)
    ensures |r| == if |s| < n then |s| else n
    ensures IsPrefix(r, s)
  {
    if |s| <= n then s else s[..n]
  }

  /** Python's `str(n)` for a natural number. */
  function NatToString(n: nat): string
    decreases n
  {
    var digit := ['0' + (n % 10) as char];
    if n < 10 then digit else NatToString(n / 10) + digit
  }

  /** Python's `sep.join(parts)`. */
  function Join(sep: string, parts: seq<string>): string
    decreases |parts|
  {
    if |parts| == 0 then ""
    else if |parts| == 1 then parts[0]
    else parts[0] + sep + Join(sep, parts[1..])
  }

  /** Text in front of a string keeps what it contains. */
  lemma {:induction false} ContainsAfter(a: string, s: string, p: string)
    requires Contains(s, p)
    ensures Contains(a + s, p)
    decreases |a|
  {
    if a == [] {
      assert a + s == s;
    } else {
      assert (a + s)[1..] == a[1..] + s;
      ContainsAfter(a[1..], s, p);
    }
  }

  /** Text after a string keeps what it contains. */
  lemma {:induction false} ContainsBefore(s: string, b: string, p: string)
    requires Contains(s, p)
    ensures Contains(s + b, p)
    decreases |s|
  {
    if IsPrefix(p, s) {
      assert (s + b)[..|p|] == s[..|p|];
    } else {
      assert (s + b)[1..] == s[1..] + b;
      ContainsBefore(s[1..], b, p);
    }
  }

  /** `sep.join(parts)` contains each of its parts. */
  lemma {:induction false} JoinKeepsParts(sep: string, parts: seq<string>, k: nat)
    requires k < |parts|
    ensures Contains(Join(sep, parts), parts[k])
    decreases |parts|
  {
    if |parts| == 1 {
      ContainsPiece([], parts[0], []);
      assert [] + parts[0] + [] == parts[0];
    } else if k == 0 {
      ContainsPiece([], parts[0], sep + Join(sep, parts[1..]));
      assert [] + parts[0] + (sep + Join(sep, parts[1..])) == Join(sep, parts);
    } else {
      JoinKeepsParts(sep, parts[1..], k - 1);
      ContainsAfter(parts[0] + sep, Join(sep, parts[1..]), parts[k]);
      assert parts[0] + sep + Join(sep, parts[1..]) == Join(sep, parts);
    }
  }
}
