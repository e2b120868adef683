/**
 * The JavaScript `String.prototype` operations that the helpers and the form
 * validators call: `trim`, `length`, `split`, `lastIndexOf`, `substring`,
 * `toLowerCase`, and the character class behind `\s`/`\S` in a RegExp.
 */
module JsString {
  import opened Wrappers

  /** An optional string in a JavaScript condition: present and non-empty. */
  predicate Truthy(s: Option<string>)
  {
    s.Some? && s.value != ""
  }

  /**
   * ECMAScript WhiteSpace and LineTerminator code points: exactly what
   * `trim()` strips and what the RegExp class `\s` matches (`\S` is its
   * complement).
   */
  predicate IsWs(c: char)
    // none of the characters the e-mail pattern and the file names rely on is whitespace
    ensures IsWs(c) ==> c != '@' && c != '.' && !('0' <= c <= '9') && !('A' <= c <= 'Z') && !('a' <= c <= 'z')
  {
    || c == '\t' || c == '\n' || c == '\U{000B}' || c == '\U{000C}' || c == '\r'
    || c == ' ' || c == '\U{00A0}' || c == '\U{1680}'
    || ('\U{2000}' <= c <= '\U{200A}')
    || c == '\U{2028}' || c == '\U{2029}' || c == '\U{202F}' || c == '\U{205F}'
    || c == '\U{3000}' || c == '\U{FEFF}'
  }

  /** No character of `s` is whitespace: `s` is a run of `\S`. */
  predicate NoWs(s: string)
  {
    forall i :: 0 <= i < |s| ==> !IsWs(s[i])
  }

  /** Every character of `s` is whitespace (the empty string included). */
  predicate AllWs(s: string)
  {
    forall i :: 0 <= i < |s| ==> IsWs(s[i])
  }

  /** The number of whitespace characters `s` starts with. */
  function LeadingWs(s: string): (n: nat)
    ensures n <= |s|
    ensures forall i :: 0 <= i < n ==> IsWs(s[i])
    ensures n == |s| || !IsWs(s[n])
  {
    if s != [] && IsWs(s[0]) then 1 + LeadingWs(s[1..]) else 0
  }

  /** The number of whitespace characters `s` ends with. */
  function TrailingWs(s: string): (n: nat)
    ensures n <= |s|
    ensures forall i :: |s| - n <= i < |s| ==> IsWs(s[i])
    ensures n == |s| || !IsWs(s[|s| - 1 - n])
  {
    if s != [] && IsWs(s[|s| - 1]) then 1 + TrailingWs(s[..|s| - 1]) else 0
  }

  /** `s.trimStart()`: drops the leading whitespace. */
  function TrimStart(s: string): (r: string)
    ensures r == s[LeadingWs(s)..]
    ensures |r| <= |s| && r == s[|s| - |r|..] && AllWs(s[..|s| - |r|])
    ensures r == [] || !IsWs(r[0])
  {
    s[LeadingWs(s)..]
  }

  /** `s.trimEnd()`: drops the trailing whitespace. */
  function TrimEnd(s: string): (r: string)
    ensures r == s[..|s| - TrailingWs(s)]
    ensures |r| <= |s| && r == s[..|r|] && AllWs(s[|r|..])
    ensures r == [] || !IsWs(r[|r| - 1])
  {
    s[..|s| - TrailingWs(s)]
  }

  /**
   * `s.trim()`: `s` without its leading and its trailing whitespace; what is
   * left neither starts nor ends with whitespace.
   */
  function Trim(s: string): (r: string)
    ensures var a := LeadingWs(s); a + |r| <= |s| && r == s[a..a + |r|]
    ensures forall i :: 0 <= i < LeadingWs(s) ==> IsWs(s[i])
    ensures forall i :: LeadingWs(s) + |r| <= i < |s| ==> IsWs(s[i])
    ensures r == [] || (!IsWs(r[0]) && !IsWs(r[|r| - 1]))
  {
    TrimEnd(TrimStart(s))
  }

  /** `!s.trim()` holds exactly when `s` is empty or only whitespace. */
  lemma TrimEmptyIffAllWs(s: string)
    ensures Trim(s) == [] <==> AllWs(s)
  {
    var r := Trim(s);
    if r != [] {
      assert s[LeadingWs(s)] == r[0];
    }
  }

  /**
   * `s.length`: the number of UTF-16 code units, so a code point above
   * U+FFFF (an emoji, say) counts twice.
   */
  function Utf16Length(s: string): (n: nat)
    ensures |s| <= n <= 2 * |s|
    ensures n == 0 <==> s == []
  {
    if s == [] then 0
    else (if s[0] as int > 0xFFFF then 2 else 1) + Utf16Length(s[1..])
  }

  /** `s.lastIndexOf(c)` for a one-character search string: the last index, or -1. */
  function LastIndexOf(s: string, c: char): (i: int)
    ensures -1 <= i < |s|
    ensures i >= 0 ==> s[i] == c
    ensures c !in s[i + 1..]
    ensures i == -1 <==> c !in s
  {
    if s == [] then -1
    else if s[|s| - 1] == c then |s| - 1
    else
      var i := LastIndexOf(s[..|s| - 1], c);
      assert s[i + 1..] == s[..|s| - 1][i + 1..] + [s[|s| - 1]];
      i
  }

  /** Clamping an index argument of `substring` into `[0, len]`. */
  function ClampIndex(i: int, len: nat): (r: nat)
    ensures r <= len
    ensures 0 <= i <= len ==> r == i
    ensures i < 0 ==> r == 0
    ensures len < i ==> r == len
  {
    if i < 0 then 0 else if i > len then len else i
  }

  /**
   * `s.substring(start, end)`: both arguments are clamped into `[0, |s|]`
   * (a negative one becomes 0) and swapped when the first is the larger.
   */
  function Substring(s: string, start: int, end: int): (r: string)
    ensures 0 <= start <= end <= |s| ==> r == s[start..end]
    ensures end <= 0 && start <= 0 ==> r == []
    ensures 0 <= end <= start <= |s| ==> r == s[end..start]
    ensures var a, b := ClampIndex(start, |s|), ClampIndex(end, |s|);
      r == if a <= b then s[a..b] else s[b..a]
  {
    var a := ClampIndex(start, |s|);
    var b := ClampIndex(end, |s|);
    if a <= b then s[a..b] else s[b..a]
  }

  /** A negative end becomes 0 and is then swapped below the start: the prefix up to `start`. */
  lemma SubstringNegativeEnd(s: string, start: int, end: int)
    requires end < 0 <= start <= |s|
    ensures Substring(s, start, end) == s[..start]
  {
  }

  /** An end past the string stops at its end: the suffix from `start`. */
  lemma SubstringEndPastLength(s: string, start: int, end: int)
    requires 0 <= start <= |s| < end
    ensures Substring(s, start, end) == s[start..]
  {
  }

  /** `c.toLowerCase()` on one ASCII character. */
  function LowerChar(c: char): (d: char)
    ensures 'A' <= c <= 'Z' ==> d as int == c as int + 32
    ensures !('A' <= c <= 'Z') ==> d == c
    ensures !('A' <= d <= 'Z')
  {
    if 'A' <= c <= 'Z' then (c as int + 32) as char else c
  }

  /** `s.toLowerCase()`, character by character (ASCII letters only). */
  function ToLower(s: string): (r: string)
    ensures |r| == |s|
    ensures forall i :: 0 <= i < |s| ==> r[i] == LowerChar(s[i])
  {
    if s == [] then [] else [LowerChar(s[0])] + ToLower(s[1..])
  }

  /** Lower-casing is idempotent. */
  lemma ToLowerIdempotent(s: string)
    ensures ToLower(ToLower(s)) == ToLower(s)
  {
  }

  /** Lower-casing neither adds nor removes a non-letter such as '.'. */
  lemma ToLowerKeepsNonLetter(s: string, c: char)
    requires !('A' <= c <= 'Z' || 'a' <= c <= 'z')
    ensures c in ToLower(s) <==> c in s
  {
    if c in s {
      var i :| 0 <= i < |s| && s[i] == c;
      assert ToLower(s)[i] == c;
    }
    if c in ToLower(s) {
      var i :| 0 <= i < |s| && ToLower(s)[i] == c;
      assert s[i] == c;
    }
  }

  /**
   * `s.split(sep)` for a one-character separator: the pieces between the
   * separators, so there is always one more piece than separators. Built
   * here from the right: the last piece is what follows the last separator.
   */
  function Split(s: string, sep: char): (parts: seq<string>)
    ensures |parts| >= 1
    ensures |parts| == 1 <==> sep !in s
    ensures forall j :: 0 <= j < |parts| ==> sep !in parts[j]
    decreases |s|
  {
    var l := LastIndexOf(s, sep);
    if l == -1 then [s]
    else Split(s[..l], sep) + [s[l + 1..]]
  }

  /** Joining pieces with the separator between each two of them. */
  function Join(parts: seq<string>, sep: char): (r: string)
    ensures |parts| == 1 ==> r == parts[0]
    // the result ends with the last piece, after a separator when there are several
    ensures parts != [] ==> |parts[|parts| - 1]| <= |r| && r[|r| - |parts[|parts| - 1]|..] == parts[|parts| - 1]
    ensures |parts| >= 2 ==> |parts[|parts| - 1]| < |r| && r[|r| - |parts[|parts| - 1]| - 1] == sep
  {
    if |parts| <= 1 then (if parts == [] then "" else parts[0])
    else Join(parts[..|parts| - 1], sep) + [sep] + parts[|parts| - 1]
  }

  /** Appending a piece to at least one piece adds a separator and the piece. */
  lemma JoinSnoc(init: seq<string>, last: string, sep: char)
    requires init != []
    ensures Join(init + [last], sep) == Join(init, sep) + [sep] + last
  {
    var parts := init + [last];
    assert parts[..|parts| - 1] == init;
  }

  /** A string is what comes before index `l`, the character there, and what comes after. */
  lemma Around(s: string, l: nat)
    requires l < |s|
    ensures s == s[..l] + [s[l]] + s[l + 1..]
  {
  }

  /** `s.split(sep).join(sep) == s`: splitting loses nothing but the separators. */
  lemma {:induction false} SplitJoin(s: string, sep: char)
    ensures Join(Split(s, sep), sep) == s
    decreases |s|
  {
    var l := LastIndexOf(s, sep);
    if l != -1 {
      var init := Split(s[..l], sep);
      assert Split(s, sep) == init + [s[l + 1..]];
      SplitJoin(s[..l], sep);
      JoinSnoc(init, s[l + 1..], sep);
      Around(s, l);
    }
  }
}
