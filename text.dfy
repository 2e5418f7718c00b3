/** The two JavaScript string operations the terminal applies to what the user
    typed before matching it: `String.prototype.toLowerCase` and
    `String.prototype.trim`. */
module Text {

  /** JavaScript's WhiteSpace and LineTerminator code points: exactly what
      `trim` strips from both ends. */
  predicate IsWhitespace(c: char) {
    c == '\t' || c == '\n' || c == '\U{000B}' || c == '\U{000C}' || c == '\r' || c == ' '
    || c == '\U{00A0}' || c == '\U{1680}' || ('\U{2000}' <= c <= '\U{200A}')
    || c == '\U{2028}' || c == '\U{2029}' || c == '\U{202F}' || c == '\U{205F}'
    || c == '\U{3000}' || c == '\U{FEFF}'
  }

  /** Lower-casing of one character. Besides 'A'..'Z', the KELVIN SIGN is the one
      code point whose lower case is an ASCII letter ('k'); every other
      upper-case letter lowers to a non-ASCII character, which can never take
      part in a match against the terminal's ASCII tables, so leaving it
      unchanged gives the same matches. */
  function LowerChar(c: char): (r: char)
    ensures IsWhitespace(r) <==> IsWhitespace(c)
    ensures 'A' <= c <= 'Z' ==> 'a' <= r <= 'z' && r as int - c as int == 32
    ensures c == '\U{212A}' ==> r == 'k'
    ensures !('A' <= c <= 'Z') && c != '\U{212A}' ==> r == c
  {
    if 'A' <= c <= 'Z' then (c as int + 32) as char
    else if c == '\U{212A}' then 'k'
    else c
  }

  /** `s.toLowerCase()`, one character at a time. */
  function Lower(s: string): (r: string)
    ensures |r| == |s|
  {
    if s == [] then [] else [LowerChar(s[0])] + Lower(s[1..])
  }

  /** Each character of `Lower(s)` is the lower case of the character of `s`
      at the same position. */
  lemma {:induction false} LowerIsPointwise(s: string)
    ensures forall i :: 0 <= i < |s| ==> Lower(s)[i] == LowerChar(s[i])
    decreases |s|
  {
    if s != [] {
      LowerIsPointwise(s[1..]);
    }
  }

  /** `s` with its leading whitespace removed: a suffix of `s` that does not
      start with whitespace, everything cut off being whitespace. */
  function TrimStart(s: string): (r: string)
    ensures |r| <= |s| && r == s[|s| - |r|..]
    ensures r != [] ==> !IsWhitespace(r[0])
  {
    if s != [] && IsWhitespace(s[0]) then
      var r := TrimStart(s[1..]);
      assert s[1..][|s| - 1 - |r|..] == s[|s| - |r|..];
      r
    else s
  }

  /** Everything `TrimStart` cuts off is whitespace. */
  lemma {:induction false} TrimStartCutsWhitespace(s: string)
    ensures forall k :: 0 <= k < |s| - |TrimStart(s)| ==> IsWhitespace(s[k])
    decreases |s|
  {
    if s != [] && IsWhitespace(s[0]) {
      TrimStartCutsWhitespace(s[1..]);
      assert forall k :: 1 <= k < |s| ==> s[k] == s[1..][k - 1];
    }
  }

  /** `s` with its trailing whitespace removed: a prefix of `s` that does not
      end with whitespace, everything cut off being whitespace. */
  function TrimEnd(s: string): (r: string)
    ensures |r| <= |s| && r == s[..|r|]
    ensures r != [] ==> !IsWhitespace(r[|r| - 1])
  {
    if s != [] && IsWhitespace(s[|s| - 1]) then
      var r := TrimEnd(s[..|s| - 1]);
      assert s[..|s| - 1][..|r|] == s[..|r|];
      r
    else s
  }

  /** Everything `TrimEnd` cuts off is whitespace. */
  lemma {:induction false} TrimEndCutsWhitespace(s: string)
    ensures forall k :: |TrimEnd(s)| <= k < |s| ==> IsWhitespace(s[k])
    decreases |s|
  {
    if s != [] && IsWhitespace(s[|s| - 1]) {
      TrimEndCutsWhitespace(s[..|s| - 1]);
      assert forall k :: 0 <= k < |s| - 1 ==> s[k] == s[..|s| - 1][k];
    }
  }

  /** `s.trim()`. */
  function Trim(s: string): (r: string)
    ensures r != [] ==> !IsWhitespace(r[0]) && !IsWhitespace(r[|r| - 1])
  {
    TrimEnd(TrimStart(s))
  }

  /** `s.toLowerCase().trim()`, the normalisation both terminals apply to a
      submitted line. */
  function Normalize(s: string): (r: string)
    ensures |r| <= |s|
    ensures r != [] ==> !IsWhitespace(r[0]) && !IsWhitespace(r[|r| - 1])
  {
    Trim(Lower(s))
  }

  /** `TrimStart` removes exactly the leading run of whitespace: if the
      first `n` characters are whitespace and the next one is not, the result
      is what follows them. */
  lemma {:induction false} TrimStartExactly(s: string, n: nat)
    requires n <= |s|
    requires forall k :: 0 <= k < n ==> IsWhitespace(s[k])
    requires n < |s| ==> !IsWhitespace(s[n])
    ensures TrimStart(s) == s[n..]
    decreases n
  {
    if n > 0 {
      TrimStartExactly(s[1..], n - 1);
      assert s[1..][n - 1..] == s[n..];
    }
  }

  /** `TrimEnd` removes exactly the trailing run of whitespace. */
  lemma {:induction false} TrimEndExactly(s: string, n: nat)
    requires n <= |s|
    requires forall k :: n <= k < |s| ==> IsWhitespace(s[k])
    requires n > 0 ==> !IsWhitespace(s[n - 1])
    ensures TrimEnd(s) == s[..n]
    decreases |s| - n
  {
    if n < |s| {
      TrimEndExactly(s[..|s| - 1], n);
      assert s[..|s| - 1][..n] == s[..n];
    }
  }

  /** Trimming a trimmed string changes nothing. */
  lemma {:induction false} TrimIdempotent(s: string)
    ensures Trim(Trim(s)) == Trim(s)
  {
    var t := Trim(s);
    assert t == TrimStart(s)[..|t|];
    assert t != [] ==> t[0] == TrimStart(s)[0];
    TrimStartExactly(t, 0);
    TrimEndExactly(t, |t|);
  }

  lemma {:induction false} LowerTail(s: string)
    requires s != []
    ensures Lower(s)[1..] == Lower(s[1..])
  {
  }

  lemma {:induction false} LowerPrefix(s: string, n: nat)
    requires n <= |s|
    ensures Lower(s)[..n] == Lower(s[..n])
  {
    LowerIsPointwise(s);
    LowerIsPointwise(s[..n]);
  }

  lemma {:induction false} TrimStartLower(s: string)
    ensures TrimStart(Lower(s)) == Lower(TrimStart(s))
    decreases |s|
  {
    if s != [] {
      if IsWhitespace(s[0]) {
        LowerTail(s);
        TrimStartLower(s[1..]);
      }
    }
  }

  lemma {:induction false} TrimEndLower(s: string)
    ensures TrimEnd(Lower(s)) == Lower(TrimEnd(s))
    decreases |s|
  {
    LowerIsPointwise(s);
    if s != [] {
      if IsWhitespace(s[|s| - 1]) {
        LowerPrefix(s, |s| - 1);
        TrimEndLower(s[..|s| - 1]);
      }
    }
  }

  /** Lower-casing and trimming commute, so the order in which the terminal
      applies them does not matter. */
  lemma {:induction false} NormalizeCommutes(s: string)
    ensures Normalize(s) == Lower(Trim(s))
  {
    TrimStartLower(s);
    TrimEndLower(TrimStart(s));
  }

  /** Lower-casing twice is lower-casing once. */
  lemma {:induction false} LowerIdempotent(s: string)
    ensures Lower(Lower(s)) == Lower(s)
    decreases |s|
  {
    if s != [] {
      LowerTail(s);
      LowerIdempotent(s[1..]);
    }
  }

  /** Normalising twice is normalising once. */
  lemma {:induction false} NormalizeIdempotent(s: string)
    ensures Normalize(Normalize(s)) == Normalize(s)
  {
    NormalizeCommutes(s);
    LowerIdempotent(Trim(s));
    NormalizeCommutes(Trim(s));
    TrimIdempotent(s);
  }
}
