/**
 * The parts of Python's `str` that the pipeline relies on, over `seq<char>`:
 * `isspace`, `strip`/`rstrip` (with and without a character argument),
 * `startswith`/`endswith`, `lower` (ASCII letters only), `split` on one
 * character and `join`.
 */
module PyStrings {

  /** `c.isspace()`: the 29 code points Python treats as whitespace. */
  predicate IsSpace(c: char) {
    || c == ' '
    || ('\t' <= c <= '\r')
    || ('\U{1C}' <= c <= '\U{1F}')
    || c == '\U{85}' || c == '\U{A0}' || c == '\U{1680}'
    || ('\U{2000}' <= c <= '\U{200A}')
    || c == '\U{2028}' || c == '\U{2029}' || c == '\U{202F}'
    || c == '\U{205F}' || c == '\U{3000}'
  }

  /** `not s.strip()`: the string holds nothing but whitespace (or nothing at all). */
  predicate Blank(s: string) {
    forall i :: 0 <= i < |s| ==> IsSpace(s[i])
  }

  /** `s.rstrip()`: drops the trailing whitespace. */
  function RStripSpace(s: string): (r: string)
    ensures |r| <= |s|
    decreases |s|
  {
    if |s| > 0 && IsSpace(s[|s| - 1]) then RStripSpace(s[..|s| - 1]) else s
  }

  /** What `rstrip` drops is exactly the trailing run of whitespace. */
  lemma {:induction false} RStripSpaceSpec(s: string)
    ensures var r := RStripSpace(s);
      && r == s[..|r|]
      && (r == [] || !IsSpace(r[|r| - 1]))
      && forall k :: |r| <= k < |s| ==> IsSpace(s[k])
    decreases |s|
  {
    if |s| > 0 && IsSpace(s[|s| - 1]) {
      RStripSpaceSpec(s[..|s| - 1]);
    }
  }

  /** `s.lstrip()`: drops the leading whitespace. */
  function LStripSpace(s: string): (r: string)
    ensures |r| <= |s|
    decreases |s|
  {
    if |s| > 0 && IsSpace(s[0]) then LStripSpace(s[1..]) else s
  }

  /** What `lstrip` drops is exactly the leading run of whitespace. */
  lemma {:induction false} LStripSpaceSpec(s: string)
    ensures var r := LStripSpace(s);
      && r == s[|s| - |r|..]
      && (r == [] || !IsSpace(r[0]))
      && forall k :: 0 <= k < |s| - |r| ==> IsSpace(s[k])
    decreases |s|
  {
    if |s| > 0 && IsSpace(s[0]) {
      LStripSpaceSpec(s[1..]);
    }
  }

  /** `s.strip()` */
  function Strip(s: string): (r: string)
    ensures |r| <= |s|
  {
    RStripSpace(LStripSpace(s))
  }

  /**
   * A string strips to nothing exactly when it is all whitespace; otherwise
   * what is left neither starts nor ends with whitespace.
   */
  lemma StripSpec(s: string)
    ensures Strip(s) == [] <==> Blank(s)
    ensures Strip(s) != [] ==> !IsSpace(Strip(s)[0]) && !IsSpace(Strip(s)[|Strip(s)| - 1])
  {
    var left := LStripSpace(s);
    var r := RStripSpace(left);
    LStripSpaceSpec(s);
    RStripSpaceSpec(left);
    if r != [] {
      assert r[0] == left[0];
    }
  }

  /** Stripping twice strips nothing more. */
  lemma StripIdempotent(s: string)
    ensures Strip(Strip(s)) == Strip(s)
  {
    var r := Strip(s);
    StripSpec(s);
    if r != [] {
      assert LStripSpace(r) == r;
      assert RStripSpace(r) == r;
    }
  }

  /** `s.rstrip(chars)`: drops the trailing run of characters that belong to `chars`. */
  function RStripSet(s: string, chars: set<char>): (r: string)
    ensures |r| <= |s| && r == s[..|r|]
    ensures r == [] || r[|r| - 1] !in chars
    ensures forall k :: |r| <= k < |s| ==> s[k] in chars
    decreases |s|
  {
    if |s| > 0 && s[|s| - 1] in chars then RStripSet(s[..|s| - 1], chars) else s
  }

  /** `s.lstrip(ch)` for a one-character argument. */
  function LStripChar(s: string, ch: char): (r: string)
    ensures |r| <= |s|
    decreases |s|
  {
    if |s| > 0 && s[0] == ch then LStripChar(s[1..], ch) else s
  }

  /** What `lstrip(ch)` drops is exactly the leading run of `ch`. */
  lemma {:induction false} LStripCharSpec(s: string, ch: char)
    ensures var r := LStripChar(s, ch);
      && r == s[|s| - |r|..]
      && (r == [] || r[0] != ch)
      && forall k :: 0 <= k < |s| - |r| ==> s[k] == ch
    decreases |s|
  {
    if |s| > 0 && s[0] == ch {
      LStripCharSpec(s[1..], ch);
    }
  }

  /** `s.rstrip(ch)` for a one-character argument. */
  function RStripChar(s: string, ch: char): (r: string)
    ensures |r| <= |s|
    decreases |s|
  {
    if |s| > 0 && s[|s| - 1] == ch then RStripChar(s[..|s| - 1], ch) else s
  }

  /** What `rstrip(ch)` drops is exactly the trailing run of `ch`. */
  lemma {:induction false} RStripCharSpec(s: string, ch: char)
    ensures var r := RStripChar(s, ch);
      && r == s[..|r|]
      && (r == [] || r[|r| - 1] != ch)
      && forall k :: |r| <= k < |s| ==> s[k] == ch
    decreases |s|
  {
    if |s| > 0 && s[|s| - 1] == ch {
      RStripCharSpec(s[..|s| - 1], ch);
    }
  }

  /** `s.strip(ch)` for a one-character argument: drops `ch` at both ends. */
  function StripChar(s: string, ch: char): (r: string)
    ensures |r| <= |s|
  {
    RStripChar(LStripChar(s, ch), ch)
  }

  /**
   * `s.strip(ch)` is the slice of `s` between its leading and its trailing run
   * of `ch`: everything dropped is `ch`, and what is kept neither starts nor
   * ends with `ch`.
   */
  lemma StripCharSpec(s: string, ch: char)
    ensures var r := StripChar(s, ch);
      var lead := |s| - |LStripChar(s, ch)|;
      && lead + |r| <= |s|
      && r == s[lead..lead + |r|]
      && (forall k :: 0 <= k < lead ==> s[k] == ch)
      && (forall k :: lead + |r| <= k < |s| ==> s[k] == ch)
      && (r == [] || (r[0] != ch && r[|r| - 1] != ch))
  {
    var left := LStripChar(s, ch);
    var r := RStripChar(left, ch);
    LStripCharSpec(s, ch);
    RStripCharSpec(left, ch);
    SliceBetweenRuns(s, left, r, ch);
  }

  /**
   * `r`, a prefix of the suffix `left` of `s`, once both dropped only `ch`
   * and both kept ends that are not `ch`, is the slice of `s` between its
   * leading and trailing runs of `ch`.
   */
  lemma SliceBetweenRuns(s: string, left: string, r: string, ch: char)
    requires |left| <= |s| && left == s[|s| - |left|..]
    requires forall k :: 0 <= k < |s| - |left| ==> s[k] == ch
    requires left == [] || left[0] != ch
    requires |r| <= |left| && r == left[..|r|]
    requires forall k :: |r| <= k < |left| ==> left[k] == ch
    requires r == [] || r[|r| - 1] != ch
    ensures var lead := |s| - |left|;
      && lead + |r| <= |s|
      && r == s[lead..lead + |r|]
      && (forall k :: 0 <= k < lead ==> s[k] == ch)
      && (forall k :: lead + |r| <= k < |s| ==> s[k] == ch)
      && (r == [] || (r[0] != ch && r[|r| - 1] != ch))
  {
    var lead := |s| - |left|;
    forall k | lead + |r| <= k < |s|
      ensures s[k] == ch
    {
      assert s[k] == left[k - lead];
    }
    assert r != [] ==> r[0] == left[0];
  }

  predicate StartsWith(s: string, prefix: string) {
    |prefix| <= |s| && s[..|prefix|] == prefix
  }

  predicate EndsWith(s: string, suffix: string) {
    |suffix| <= |s| && s[|s| - |suffix|..] == suffix
  }

  function LowerChar(c: char): char {
    if 'A' <= c <= 'Z' then (c as int + 32) as char else c
  }

  /** `s.lower()` restricted to ASCII letters: each character is lower-cased on its own. */
  function Lower(s: string): (r: string)
    ensures |r| == |s|
  {
    seq(|s|, i requires 0 <= i < |s| => LowerChar(s[i]))
  }

  /** Only a space lower-cases to a space. */
  lemma LowerKeepsSpace(s: string, i: nat)
    requires i < |s| && Lower(s)[i] == ' '
    ensures s[i] == ' '
  {
  }

  /** `s.split(sep)`: the pieces between occurrences of `sep`; always at least one piece. */
  function SplitOn(s: string, sep: char): (parts: seq<string>)
    ensures |parts| >= 1
    ensures forall i :: 0 <= i < |parts| ==> sep !in parts[i]
    decreases |s|
  {
    if |s| == 0 then [""]
    else
      var rest := SplitOn(s[1..], sep);
      if s[0] == sep then [""] + rest
      else [[s[0]] + rest[0]] + rest[1..]
  }

  /** `sep.join(parts)` */
  function JoinWith(sep: string, parts: seq<string>): string
    decreases |parts|
  {
    if |parts| == 0 then ""
    else if |parts| == 1 then parts[0]
    else parts[0] + sep + JoinWith(sep, parts[1..])
  }

  /** `''.join(parts)` */
  function Concat(parts: seq<string>): string
    decreases |parts|
  {
    if |parts| == 0 then "" else Concat(parts[..|parts| - 1]) + parts[|parts| - 1]
  }

  /** Sequence concatenation is associative (stated once, for the loops that append to a log or a store). */
  lemma AppendAssoc<T>(a: seq<T>, b: seq<T>, c: seq<T>)
    ensures (a + b) + c == a + (b + c)
  {
  }

  /** Joining the pieces of a split with the separator gives back the original string. */
  lemma {:induction false} JoinSplit(s: string, sep: char)
    ensures JoinWith([sep], SplitOn(s, sep)) == s
    decreases |s|
  {
    if |s| > 0 {
      var rest := SplitOn(s[1..], sep);
      JoinSplit(s[1..], sep);
      if s[0] == sep {
        assert ([""] + rest)[1..] == rest;
      } else {
        var parts := [[s[0]] + rest[0]] + rest[1..];
        if |rest| > 1 {
          assert parts[1..] == rest[1..];
          assert JoinWith([sep], rest) == rest[0] + [sep] + JoinWith([sep], rest[1..]);
        }
      }
      assert s == [s[0]] + s[1..];
    }
  }
}
