/** Trimming and ASCII lower case. */
module Strings {
  /** The Unicode property White_Space. */
  predicate IsSpace(c: char) {
    || '\t' <= c <= '\r' || c == ' ' || c == '\U{0085}' || c == '\U{00A0}' || c == '\U{1680}'
    || '\U{2000}' <= c <= '\U{200A}' || c == '\U{2028}' || c == '\U{2029}' || c == '\U{202F}'
    || c == '\U{205F}' || c == '\U{3000}'
  }

  function TrimLeft(s: string, space: char -> bool): (r: string)
    ensures |r| <= |s| && s[|s| - |r|..] == r
    ensures r == [] || !space(r[0])
    ensures s == [] || !space(s[0]) ==> r == s
  {
    if s != [] && space(s[0]) then TrimLeft(s[1..], space) else s
  }

  function TrimRight(s: string, space: char -> bool): (r: string)
    ensures r <= s
    ensures r == [] || !space(r[|r| - 1])
    ensures s == [] || !space(s[|s| - 1]) ==> r == s
  {
    if s != [] && space(s[|s| - 1]) then TrimRight(s[..|s| - 1], space) else s
  }

  function Trim(s: string, space: char -> bool): (r: string)
    ensures Trimmed(r, space)
    ensures Trimmed(s, space) ==> r == s
  {
    TrimRight(TrimLeft(s, space), space)
  }

  /** Nothing is left to trim. */
  predicate Trimmed(s: string, space: char -> bool) {
    s == [] || (!space(s[0]) && !space(s[|s| - 1]))
  }

  function TrimSpace(s: string): (r: string)
    ensures Trimmed(r, IsSpace)
    ensures Trimmed(s, IsSpace) ==> r == s
  {
    Trim(s, IsSpace)
  }

  function Lower(s: string): (r: string)
    ensures |r| == |s|
  {
    seq(|s|, i requires 0 <= i < |s| => if 'A' <= s[i] <= 'Z' then (s[i] as int + 32) as char else s[i])
  }

  predicate Letters(s: string) {
    forall i | 0 <= i < |s| :: 'a' <= s[i] <= 'z'
  }

  /** Lower-case words are left alone by trimming and lowering. */
  lemma LettersAreNormal(s: string, space: char -> bool)
    requires Letters(s) && forall c :: 'a' <= c <= 'z' ==> !space(c)
    ensures Lower(Trim(s, space)) == s
  {
  }

  // ---- lines -----------------------------------------------------------------------------------

  function Join(lines: seq<string>): string {
    if lines == [] then ""
    else if |lines| == 1 then lines[0]
    else lines[0] + "\n" + Join(lines[1..])
  }

  function Split(s: string): (r: seq<string>)
    ensures |r| > 0
  {
    if s == "" then [""]
    else
      var rest := Split(s[1..]);
      if s[0] == '\n' then [""] + rest else [[s[0]] + rest[0]] + rest[1..]
  }

  lemma {:induction false} JoinSplit(s: string)
    ensures Join(Split(s)) == s
  {
    if s != "" {
      JoinSplit(s[1..]);
      var rest := Split(s[1..]);
      if s[0] == '\n' {
        assert Split(s)[1..] == rest;
      } else if |rest| > 1 {
        assert Split(s)[1..] == rest[1..];
        assert [s[0]] + (rest[0] + "\n" + Join(rest[1..])) == ([s[0]] + rest[0]) + "\n" + Join(rest[1..]);
      }
    }
  }

  predicate OneLine(s: string) {
    '\n' !in s
  }

  /** A line with its end splits into the line and nothing. */
  lemma {:induction false} SplitLine(w: string)
    requires OneLine(w)
    ensures Split(w + "\n") == [w, ""]
  {
    if w == "" {
      assert "\n"[1..] == "";
    } else {
      assert (w + "\n")[0] == w[0] && (w + "\n")[1..] == w[1..] + "\n";
      SplitLine(w[1..]);
      assert [w[0]] + w[1..] == w && [w[1..], ""][1..] == [""];
    }
  }
}
