/** A value that may be missing: `null`, `undefined`, or a row that was not found. */
module Wrappers {
  datatype Option<+T> = None | Some(value: T)

  /** The largest integer up to which every integer is a number of its own. */
  const MAX_SAFE_INTEGER := 9007199254740991
}

/** Characters and white space as strings see them. */
module Text {
  /** The characters that the `\s` class and `trim` treat as white space. */
  predicate IsSpace(c: char) {
    || c == ' ' || ('\t' <= c <= '\r') || c == '\U{a0}' || c == '\U{1680}' || ('\U{2000}' <= c <= '\U{200a}')
    || c == '\U{2028}' || c == '\U{2029}' || c == '\U{202f}' || c == '\U{205f}' || c == '\U{3000}' || c == '\U{feff}'
  }

  /** The same by code points. */
  lemma SpacesAre(c: char)
    ensures IsSpace(c) <==> c as int in {9, 10, 11, 12, 13, 32, 160, 5760, 8232, 8233, 8239, 8287, 12288, 65279}
                            || 8192 <= c as int <= 8202
  {
  }

  function TrimStart(s: string): string {
    if s != "" && IsSpace(s[0]) then TrimStart(s[1..]) else s
  }

  function TrimEnd(s: string): string {
    if s != "" && IsSpace(s[|s| - 1]) then TrimEnd(s[..|s| - 1]) else s
  }

  function Trim(s: string): string {
    TrimEnd(TrimStart(s))
  }

  lemma {:induction false} TrimStartTrims(s: string)
    ensures var t := TrimStart(s);
            |t| <= |s| && t == s[|s| - |t|..] && (t != "" ==> !IsSpace(t[0]))
  {
    if s != "" && IsSpace(s[0]) {
      TrimStartTrims(s[1..]);
    }
  }

  lemma {:induction false} TrimEndTrims(s: string)
    ensures TrimEnd(s) <= s
    ensures TrimEnd(s) != "" ==> !IsSpace(TrimEnd(s)[|TrimEnd(s)| - 1])
  {
    if s != "" && IsSpace(s[|s| - 1]) {
      TrimEndTrims(s[..|s| - 1]);
    }
  }

  /** Trimmed text has no white space at either end, and is left alone by another trim. */
  lemma TrimTrims(s: string)
    ensures var t := Trim(s);
            && |t| <= |s|
            && (t != "" ==> !IsSpace(t[0]) && !IsSpace(t[|t| - 1]))
            && Trim(t) == t
  {
    TrimStartTrims(s);
    TrimEndTrims(TrimStart(s));
  }

  /** The same letters as a lower-case word, each in either case. */
  predicate Spells(s: string, word: string) {
    |s| == |word|
    && forall i :: 0 <= i < |s| ==> s[i] == word[i] || ('A' <= s[i] <= 'Z' && s[i] as int + 32 == word[i] as int)
  }

  predicate AllSpace(s: string) {
    forall i :: 0 <= i < |s| ==> IsSpace(s[i])
  }

  /** Trimming takes off white space at both ends, and nothing else. */
  lemma TrimTakesSpace(s: string) returns (before: string, after: string)
    ensures s == before + Trim(s) + after && AllSpace(before) && AllSpace(after)
    ensures Trim(s) != "" ==> !IsSpace(Trim(s)[0]) && !IsSpace(Trim(s)[|Trim(s)| - 1])
  {
    before := StartTakesSpace(s);
    after := EndTakesSpace(TrimStart(s));
    TrimTrims(s);
  }

  lemma {:induction false} StartTakesSpace(s: string) returns (before: string)
    ensures s == before + TrimStart(s) && AllSpace(before)
    decreases |s|
  {
    before := "";
    if s != "" && IsSpace(s[0]) {
      before := StartTakesSpace(s[1..]);
      before := [s[0]] + before;
    }
  }

  lemma {:induction false} EndTakesSpace(s: string) returns (after: string)
    ensures s == TrimEnd(s) + after && AllSpace(after)
    decreases |s|
  {
    after := "";
    if s != "" && IsSpace(s[|s| - 1]) {
      after := EndTakesSpace(s[..|s| - 1]);
      after := after + [s[|s| - 1]];
    }
  }

  function LowerAscii(c: char): char {
    if 'A' <= c <= 'Z' then 'a' + (c as int - 'A' as int) as char else c
  }

  function HexDigit(n: nat): char
    requires n < 16
  {
    if n < 10 then '0' + n as char else 'a' + (n - 10) as char
  }
}
