/** Strings as Go's strings package sees them, one Unicode character per char. */
module TextLines {
  // ----- strings.SplitAfter(s, "\n") and strings.Join(lines, "") -----

  /** Each line with its LF; what follows the last LF, perhaps nothing, comes last. */
  function SplitAfter(s: string): (lines: seq<string>)
    ensures |lines| > 0
    decreases |s|
  {
    if s == "" then [""]
    else if s[0] == '\n' then ["\n"] + SplitAfter(s[1..])
    else
      var rest := SplitAfter(s[1..]);
      [[s[0]] + rest[0]] + rest[1..]
  }

  function Join(lines: seq<string>): string
    decreases |lines|
  {
    if lines == [] then "" else lines[0] + Join(lines[1..])
  }

  ghost predicate IsLine(line: string) {
    line != "" && line[|line| - 1] == '\n' && '\n' !in line[..|line| - 1]
  }

  ghost predicate AreLines(lines: seq<string>) {
    forall k :: 0 <= k < |lines| ==> IsLine(lines[k])
  }

  lemma {:induction false} JoinAppends(a: seq<string>, b: seq<string>)
    ensures Join(a + b) == Join(a) + Join(b)
    decreases |a|
  {
    if a == [] {
      assert a + b == b;
    } else {
      assert (a + b)[1..] == a[1..] + b;
      JoinAppends(a[1..], b);
    }
  }

  lemma {:induction false} JoinSplit(s: string)
    ensures Join(SplitAfter(s)) == s
    decreases |s|
  {
    if s != "" {
      JoinSplit(s[1..]);
      var rest := SplitAfter(s[1..]);
      if s[0] != '\n' {
        assert SplitAfter(s)[1..] == rest[1..];
      }
      assert s == [s[0]] + s[1..];
    }
  }

  lemma ConsLine(c: char, line: string)
    requires c != '\n' && IsLine(line)
    ensures IsLine([c] + line)
  {
    assert ([c] + line)[..|line|] == [c] + line[..|line| - 1];
  }

  lemma {:induction false} SplitShape(s: string)
    ensures var lines, n := SplitAfter(s), |SplitAfter(s)| - 1; AreLines(lines[..n]) && '\n' !in lines[n]
    decreases |s|
  {
    hide IsLine;
    if s != "" {
      SplitShape(s[1..]);
      var rest, n := SplitAfter(s[1..]), |SplitAfter(s[1..])| - 1;
      if s[0] == '\n' {
        assert IsLine("\n") by {
          NewlineLine();
        }
        assert SplitAfter(s)[..n + 1] == ["\n"] + rest[..n];
      } else if n > 0 {
        assert IsLine(rest[..n][0]);
        ConsLine(s[0], rest[0]);
        assert SplitAfter(s)[..n] == [[s[0]] + rest[0]] + rest[..n][1..];
      }
    }
  }

  lemma NewlineLine()
    ensures IsLine("\n")
  {
    assert "\n"[..0] == "";
  }

  lemma {:induction false} SplitLine(line: string, rest: string)
    requires IsLine(line)
    ensures SplitAfter(line + rest) == [line] + SplitAfter(rest)
    decreases |line|
  {
    if |line| == 1 {
      assert line == "\n" && (line + rest)[0] == '\n' && (line + rest)[1..] == rest;
    } else {
      assert line[0] == line[..|line| - 1][0];
      assert IsLine(line[1..]) by {
        assert line[1..][..|line| - 2] == line[..|line| - 1][1..];
      }
      assert (line + rest)[1..] == line[1..] + rest;
      SplitLine(line[1..], rest);
      assert (line + rest)[0] == line[0] && [line[0]] + line[1..] == line;
      assert ([line[1..]] + SplitAfter(rest))[1..] == SplitAfter(rest);
    }
  }

  lemma {:induction false} SplitRest(rest: string)
    requires '\n' !in rest
    ensures SplitAfter(rest) == [rest]
  {
    if rest != "" {
      SplitRest(rest[1..]);
      assert [rest[0]] + rest[1..] == rest && [rest[1..]][1..] == [];
    }
  }

  /** Lines put together and taken apart again. */
  lemma {:induction false} SplitJoin(lines: seq<string>, rest: string)
    requires AreLines(lines)
    ensures SplitAfter(Join(lines) + rest) == lines + SplitAfter(rest)
    decreases |lines|
  {
    if lines == [] {
      assert "" + rest == rest;
    } else {
      SplitJoin(lines[1..], rest);
      SplitLine(lines[0], Join(lines[1..]) + rest);
      assert Join(lines) + rest == lines[0] + (Join(lines[1..]) + rest);
    }
  }

  // ----- strings.TrimSpace -----

  /** unicode.IsSpace */
  predicate IsSpace(c: char) {
    || '\t' <= c <= '\r' || c == ' ' || c == '\U{85}' || c == '\U{A0}' || c == '\U{1680}'
    || '\U{2000}' <= c <= '\U{200A}' || c == '\U{2028}' || c == '\U{2029}' || c == '\U{202F}'
    || c == '\U{205F}' || c == '\U{3000}'
  }

  function TrimLeft(s: string): string {
    if s != "" && IsSpace(s[0]) then TrimLeft(s[1..]) else s
  }

  function TrimRight(s: string): string {
    if s != "" && IsSpace(s[|s| - 1]) then TrimRight(s[..|s| - 1]) else s
  }

  function TrimSpace(s: string): string {
    TrimRight(TrimLeft(s))
  }

  lemma {:induction false} TrimRightIsPrefix(s: string)
    ensures TrimRight(s) <= s
    ensures s != "" && !IsSpace(s[0]) ==> TrimRight(s) != ""
  {
    if s != "" && IsSpace(s[|s| - 1]) {
      TrimRightIsPrefix(s[..|s| - 1]);
    }
  }

  lemma {:induction false} TrimRightKeeps(a: string, b: string)
    requires a != "" && !IsSpace(a[|a| - 1])
    ensures TrimRight(a + b) == a + TrimRight(b)
  {
    if b == "" {
      assert a + b == a;
    } else if IsSpace(b[|b| - 1]) {
      assert (a + b)[..|a + b| - 1] == a + b[..|b| - 1];
      TrimRightKeeps(a, b[..|b| - 1]);
    }
  }

  lemma {:induction false} TrimLeftShortens(s: string)
    ensures |TrimLeft(s)| <= |s|
    ensures |TrimLeft(s)| == |s| ==> TrimLeft(s) == s
  {
    if s != "" && IsSpace(s[0]) {
      TrimLeftShortens(s[1..]);
    }
  }

  lemma TrimSpaceShortens(s: string)
    ensures |TrimSpace(s)| <= |s|
    ensures |TrimSpace(s)| == |s| ==> TrimSpace(s) == s
  {
    TrimLeftShortens(s);
    TrimRightIsPrefix(TrimLeft(s));
  }

  /** A line ends in white space, so its LF does not matter once it is trimmed. */
  lemma {:induction false} TrimIgnoresLF(s: string)
    ensures TrimSpace(s + "\n") == TrimSpace(s)
  {
    if s == "" {
      assert ("" + "\n")[1..] == "";
    } else if IsSpace(s[0]) {
      assert (s + "\n")[1..] == s[1..] + "\n";
      TrimIgnoresLF(s[1..]);
    } else {
      assert (s + "\n")[..|s|] == s;
    }
  }

  /** Trimming up to the first character that is no white space. */
  lemma {:induction false} TrimStart(indent: string, text: string)
    requires (forall c :: c in indent ==> IsSpace(c)) && text != "" && !IsSpace(text[0])
    ensures TrimSpace(indent + text) == TrimRight(text)
    ensures TrimRight(text) != "" && TrimRight(text)[0] == text[0]
  {
    TrimRightIsPrefix(text);
    if indent == "" {
      assert indent + text == text;
    } else {
      assert indent[0] in indent;
      assert (indent + text)[1..] == indent[1..] + text;
      TrimStart(indent[1..], text);
    }
  }

  // ----- strings.Cut -----

  /** Where c first stands in s, or |s|. */
  function IndexOf(s: string, c: char): (k: nat)
    ensures k <= |s| && c !in s[..k] && (k < |s| ==> s[k] == c)
  {
    if s == "" || s[0] == c then 0 else
      var k := 1 + IndexOf(s[1..], c);
      assert s[..k] == [s[0]] + s[1..][..k - 1];
      k
  }
}
