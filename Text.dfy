/** The few Python `str` and `bytes` operations the core relies on, written out
    so that their edge cases are explicit: `strip`, `upper`, `lower`, `in`,
    `startswith`, `endswith`, slicing with `[:n]`, `split` and `join`. */
module Text {

  /** One element of a Python `bytes` value. */
  newtype byte = x: int | 0 <= x < 256

  /** The characters for which Python's `str.isspace()` holds: what `strip()`
      with no argument removes. */
  const Whitespace: set<char> :=
    {' ', '\t', '\n', '\U{0b}', '\U{0c}', '\r', '\U{1c}', '\U{1d}', '\U{1e}', '\U{1f}',
     '\U{85}', '\U{a0}', '\U{1680}', '\U{2000}', '\U{2001}', '\U{2002}', '\U{2003}',
     '\U{2004}', '\U{2005}', '\U{2006}', '\U{2007}', '\U{2008}', '\U{2009}', '\U{200a}',
     '\U{2028}', '\U{2029}', '\U{202f}', '\U{205f}', '\U{3000}'}

  /** Drops the longest prefix made of characters in `chars`. */
  function TrimStart(s: string, chars: set<char>): string {
    if |s| > 0 && s[0] in chars then TrimStart(s[1..], chars) else s
  }

  /** Drops the longest suffix made of characters in `chars`. */
  function TrimEnd(s: string, chars: set<char>): string {
    if |s| > 0 && s[|s| - 1] in chars then TrimEnd(s[..|s| - 1], chars) else s
  }

  /** `TrimStart` removes exactly a leading run of characters in `chars`, and
      what is left does not start with one. */
  lemma {:induction false} TrimStartRemovesPrefix(s: string, chars: set<char>)
    ensures |TrimStart(s, chars)| <= |s| && TrimStart(s, chars) == s[|s| - |TrimStart(s, chars)|..]
    ensures TrimStart(s, chars) == [] || TrimStart(s, chars)[0] !in chars
    ensures forall i :: 0 <= i < |s| - |TrimStart(s, chars)| ==> s[i] in chars
  {
    if |s| > 0 && s[0] in chars {
      TrimStartRemovesPrefix(s[1..], chars);
    }
  }

  /** `TrimEnd` removes exactly a trailing run of characters in `chars`, and
      what is left does not end with one. */
  lemma {:induction false} TrimEndRemovesSuffix(s: string, chars: set<char>)
    ensures |TrimEnd(s, chars)| <= |s| && TrimEnd(s, chars) == s[..|TrimEnd(s, chars)|]
    ensures TrimEnd(s, chars) == [] || TrimEnd(s, chars)[|TrimEnd(s, chars)| - 1] !in chars
    ensures forall i :: |TrimEnd(s, chars)| <= i < |s| ==> s[i] in chars
  {
    if |s| > 0 && s[|s| - 1] in chars {
      TrimEndRemovesSuffix(s[..|s| - 1], chars);
    }
  }

  /** Python's `s.strip(chars)`. */
  function StripChars(s: string, chars: set<char>): string {
    TrimEnd(TrimStart(s, chars), chars)
  }

  /** Python's `s.strip()`. */
  function Strip(s: string): string {
    StripChars(s, Whitespace)
  }

  /** A string whose first and last characters are kept is left as it is by `strip(chars)`. */
  lemma StripCharsKeeps(s: string, chars: set<char>)
    requires |s| > 0 && s[0] !in chars && s[|s| - 1] !in chars
    ensures StripChars(s, chars) == s
  {
  }

  /** Upper-casing of one character; only ASCII letters change. */
  function UpperChar(c: char): char {
    if 'a' <= c <= 'z' then (c as int - 32) as char else c
  }

  /** Lower-casing of one character; only ASCII letters change. */
  function LowerChar(c: char): char {
    if 'A' <= c <= 'Z' then (c as int + 32) as char else c
  }

  /** Python's `s.upper()` (ASCII letters only). */
  function Upper(s: string): (r: string)
    ensures |r| == |s|
    ensures forall i :: 0 <= i < |s| ==> r[i] == UpperChar(s[i])
  {
    if |s| == 0 then "" else [UpperChar(s[0])] + Upper(s[1..])
  }

  /** Python's `s.lower()` (ASCII letters only). */
  function Lower(s: string): (r: string)
    ensures |r| == |s|
    ensures forall i :: 0 <= i < |s| ==> r[i] == LowerChar(s[i])
  {
    if |s| == 0 then "" else [LowerChar(s[0])] + Lower(s[1..])
  }

  /** Python's `sub in s`: `sub` occurs in `s` at some offset. */
  predicate Contains(s: string, sub: string) {
    sub <= s || (|s| > 0 && Contains(s[1..], sub))
  }

  /** `Contains` agrees with the direct definition by an offset. */
  lemma {:induction false} ContainsAt(s: string, sub: string, k: nat)
    requires k + |sub| <= |s| && s[k..k + |sub|] == sub
    ensures Contains(s, sub)
  {
    if k > 0 {
      assert s[1..][k - 1..k - 1 + |sub|] == s[k..k + |sub|];
      ContainsAt(s[1..], sub, k - 1);
    } else {
      assert sub <= s;
    }
  }

  /** `sub` occurs in `s` at offset `k`. */
  predicate MatchAt(s: string, sub: string, k: int) {
    0 <= k <= |s| - |sub| && s[k..k + |sub|] == sub
  }

  /** Conversely, `Contains` holds only through a match at some offset. */
  lemma {:induction false} ContainsHasOffset(s: string, sub: string)
    requires Contains(s, sub)
    ensures exists k :: MatchAt(s, sub, k)
  {
    if sub <= s {
      assert MatchAt(s, sub, 0);
    } else {
      ContainsHasOffset(s[1..], sub);
      var k :| MatchAt(s[1..], sub, k);
      assert s[k + 1..k + 1 + |sub|] == s[1..][k..k + |sub|];
      assert MatchAt(s, sub, k + 1);
    }
  }

  /** Python's `s.startswith(prefix)`. */
  predicate StartsWith(s: string, prefix: string) {
    prefix <= s
  }

  /** Python's `s.endswith(suffix)`. */
  predicate EndsWith(s: string, suffix: string) {
    |suffix| <= |s| && s[|s| - |suffix|..] == suffix
  }

  /** Python's `s[:n]`. */
  function Take<T>(s: seq<T>, n: nat): (r: seq<T>)
    ensures |r| == if |s| <= n then |s| else n
    ensures r <= s
  {
    if |s| <= n then s else s[..n]
  }

  /** Python's `s.split(sep)` for a one-character separator: the pieces between
      separators, always at least one (`"".split("/") == [""]`). */
  function Split(s: string, sep: char): (parts: seq<string>)
    ensures |parts| >= 1
  {
    if |s| == 0 then [""]
    else
      var rest := Split(s[1..], sep);
      if s[0] == sep then [""] + rest
      else [[s[0]] + rest[0]] + rest[1..]
  }

  /** Python's `sep.join(parts)` for a one-character separator. */
  function Join(sep: char, parts: seq<string>): string {
    if |parts| == 0 then ""
    else if |parts| == 1 then parts[0]
    else parts[0] + [sep] + Join(sep, parts[1..])
  }

  /** No piece produced by `Split` contains the separator. */
  lemma {:induction false} SplitPiecesFree(s: string, sep: char)
    ensures forall k :: 0 <= k < |Split(s, sep)| ==> sep !in Split(s, sep)[k]
  {
    if |s| > 0 {
      SplitPiecesFree(s[1..], sep);
    }
  }

  /** A string without the separator splits into itself alone, and only such a
      string splits into a single piece. */
  lemma {:induction false} SplitSingle(s: string, sep: char)
    ensures |Split(s, sep)| == 1 <==> sep !in s
    ensures sep !in s ==> Split(s, sep) == [s]
  {
    if |s| > 0 {
      SplitSingle(s[1..], sep);
      assert s == [s[0]] + s[1..];
    }
  }

  /** Splitting after a separator-free first piece peels that piece off. */
  lemma {:induction false} SplitCons(a: string, sep: char, b: string)
    requires sep !in a
    ensures Split(a + [sep] + b, sep) == [a] + Split(b, sep)
  {
    var s := a + [sep] + b;
    if |a| == 0 {
      assert s[1..] == b;
    } else {
      assert s[1..] == a[1..] + [sep] + b;
      SplitCons(a[1..], sep, b);
      assert [s[0]] + a[1..] == a;
    }
  }

  /** Joining the pieces of a split gives back the original string. */
  lemma {:induction false} JoinSplit(s: string, sep: char)
    ensures Join(sep, Split(s, sep)) == s
  {
    if |s| > 0 {
      var rest := Split(s[1..], sep);
      JoinSplit(s[1..], sep);
      if s[0] == sep {
        assert Split(s, sep) == [""] + rest;
        assert ([""] + rest)[1..] == rest;
      } else {
        var parts := Split(s, sep);
        assert parts == [[s[0]] + rest[0]] + rest[1..];
        if |rest| == 1 {
          assert Join(sep, rest) == rest[0];
        } else {
          assert parts[1..] == rest[1..];
          assert Join(sep, rest) == rest[0] + [sep] + Join(sep, rest[1..]);
        }
      }
    }
  }
}
