/**
  Which lines of a config file are table headers, blank or comments, and which
  parts a dotted key has, on the characters of the line.
*/
module TomlHeaders {
  import opened Wrappers
  import opened TextLines
  import opened TomlEdit
  import opened ProfileNames

  ghost predicate Spaces(s: string) { forall c :: c in s ==> IsSpace(c) }

  // ----- trimming -----

  /** What trimming takes off are spaces. */
  lemma {:induction false} TrimLeftSplit(s: string) returns (lead: string)
    ensures s == lead + TrimLeft(s) && Spaces(lead)
    ensures TrimLeft(s) != "" ==> !IsSpace(TrimLeft(s)[0])
  {
    if s != "" && IsSpace(s[0]) {
      lead := TrimLeftSplit(s[1..]);
      assert s == [s[0]] + s[1..];
      lead := [s[0]] + lead;
    } else {
      lead := "";
    }
  }

  lemma {:induction false} TrimRightSplit(s: string) returns (trail: string)
    ensures s == TrimRight(s) + trail && Spaces(trail)
  {
    if s != "" && IsSpace(s[|s| - 1]) {
      trail := TrimRightSplit(s[..|s| - 1]);
      assert s == s[..|s| - 1] + [s[|s| - 1]];
      trail := trail + [s[|s| - 1]];
    } else {
      trail := "";
    }
  }

  lemma TrimSplit(s: string) returns (lead: string, trail: string)
    ensures s == lead + TrimSpace(s) + trail && Spaces(lead) && Spaces(trail)
    ensures TrimSpace(s) != "" ==> !IsSpace(TrimSpace(s)[0])
  {
    hide TrimLeft, TrimRight, IsSpace;
    lead := TrimLeftSplit(s);
    trail := TrimRightSplit(TrimLeft(s));
    assert s == lead + (TrimSpace(s) + trail);
    if TrimSpace(s) != "" {
      assert TrimLeft(s)[0] == TrimSpace(s)[0];
    }
  }

  lemma {:induction false} TrimLeadingSpaces(lead: string, s: string)
    requires Spaces(lead)
    ensures TrimSpace(lead + s) == TrimSpace(s)
  {
    if lead == "" {
      assert lead + s == s;
    } else {
      assert lead[0] in lead && (lead + s)[1..] == lead[1..] + s;
      TrimLeadingSpaces(lead[1..], s);
    }
  }

  lemma {:induction false} TrimTrailingSpaces(s: string, trail: string)
    requires Spaces(trail)
    ensures TrimSpace(s + trail) == TrimSpace(s)
    decreases |trail|
  {
    if trail == "" {
      assert s + trail == s;
    } else {
      var last := |trail| - 1;
      assert trail[last] in trail;
      TrimTrailingSpaces(s, trail[..last]);
      OneMoreSpace(s + trail[..last], trail[last]);
      assert (s + trail[..last]) + [trail[last]] == s + trail;
    }
  }

  lemma {:induction false} OneMoreSpace(s: string, c: char)
    requires IsSpace(c)
    ensures TrimSpace(s + [c]) == TrimSpace(s)
  {
    if s == "" {
      assert ("" + [c])[1..] == "";
    } else if IsSpace(s[0]) {
      assert (s + [c])[1..] == s[1..] + [c];
      OneMoreSpace(s[1..], c);
    } else {
      assert (s + [c])[..|s|] == s;
    }
  }

  // ----- blank lines, comments, headers -----

  /** The first character of the line that is no white space stands at i. */
  ghost predicate StartsAt(line: string, i: nat) {
    i < |line| && !IsSpace(line[i]) && Spaces(line[..i])
  }

  lemma Trimmed(line: string, i: nat)
    requires StartsAt(line, i)
    ensures TrimSpace(line) == TrimRight(line[i..]) && TrimSpace(line) != "" && TrimSpace(line)[0] == line[i]
  {
    hide TrimSpace, TrimRight, IsSpace;
    assert line == line[..i] + line[i..];
    TrimStart(line[..i], line[i..]);
  }

  lemma StartOrBlank(line: string) returns (i: nat)
    ensures if TrimSpace(line) == "" then Spaces(line) else StartsAt(line, i)
  {
    hide TrimSpace, IsSpace;
    var lead, trail := TrimSplit(line);
    i := |lead|;
    if TrimSpace(line) == "" {
      assert line == lead + trail;
    } else {
      assert line[..i] == lead && line[i] == TrimSpace(line)[0];
    }
  }

  lemma BlankWhen(line: string)
    ensures Blank(line) <==> Spaces(line)
  {
    hide TrimSpace, IsSpace;
    var _ := StartOrBlank(line);
    if Spaces(line) {
      TrimLeadingSpaces(line, "");
      assert line + "" == line;
      EmptyTrims();
    }
  }

  lemma EmptyTrims()
    ensures TrimSpace("") == ""
  {
  }

  lemma CommentWhen(line: string)
    ensures Comment(line) <==> exists i: nat :: StartsAt(line, i) && line[i] == '#'
  {
    hide TrimSpace, IsSpace;
    var i := StartOrBlank(line);
    if Comment(line) {
      Trimmed(line, i);
    }
    if j: nat :| StartsAt(line, j) && line[j] == '#' {
      Trimmed(line, j);
    }
  }

  /** Whatever follows the bracket, a comment say, does not matter. */
  lemma HeaderIs(indent: string, key: string, rest: string)
    requires Spaces(indent) && ']' !in key
    ensures TableKey(indent + "[" + key + "]" + rest) == Some(TrimSpace(key))
  {
    hide TrimSpace, TrimRight, IndexOf;
    var head := "[" + key + "]";
    var line := indent + "[" + key + "]" + rest;
    assert line == indent + (head + rest);
    assert (head + rest)[0] == '[' && head[|head| - 1] == ']';
    TrimStart(indent, head + rest);
    TrimRightKeeps(head, rest);
    var s := head + TrimRight(rest);
    assert TrimSpace(line) == s && s[1..] == key + ("]" + TrimRight(rest));
    IndexAfter(key, "]" + TrimRight(rest), ']');
    BracketFirst(TrimRight(rest));
    assert s[1..][..|key|] == key;
  }

  lemma BracketFirst(s: string)
    ensures IndexOf("]" + s, ']') == 0
  {
  }

  lemma HeaderAt(line: string, i: nat)
    requires StartsAt(line, i) && line[i] == '[' && ']' in line[i..]
    ensures TableKey(line).Some?
  {
    hide TrimSpace, IndexOf, IsSpace, TableKey;
    var tail := line[i + 1..];
    assert line[i..] == "[" + tail;
    Found(tail, ']');
    var k := IndexOf(tail, ']');
    var key, rest := tail[..k], tail[k + 1..];
    HeaderIs(line[..i], key, rest);
    assert tail == key + "]" + rest;
    assert line == line[..i] + line[i..];
    assert line == line[..i] + "[" + key + "]" + rest;
  }

  lemma HeaderStarts(line: string, i: nat)
    requires StartsAt(line, i) && TableKey(line).Some?
    ensures line[i] == '[' && ']' in line[i..]
  {
    hide TrimSpace, TrimRight, IndexOf, IsSpace, TableKey;
    KeyMeans(line);
    Trimmed(line, i);
    TrimRightIsPrefix(line[i..]);
  }

  /** A line is a header exactly when it starts with an opening bracket and a closing one follows. */
  lemma HeaderWhen(line: string)
    ensures TableKey(line).Some? <==> exists i: nat :: StartsAt(line, i) && line[i] == '[' && ']' in line[i..]
  {
    hide TrimSpace, TrimRight, IndexOf, IsSpace, TableKey, Spaces;
    var i := StartOrBlank(line);
    if TableKey(line).Some? {
      KeyMeans(line);
      HeaderStarts(line, i);
    }
    if j: nat :| StartsAt(line, j) && line[j] == '[' && ']' in line[j..] {
      HeaderAt(line, j);
    }
  }

  lemma KeyMeans(line: string)
    requires TableKey(line).Some?
    ensures TrimSpace(line) != "" && TrimSpace(line)[0] == '[' && ']' in TrimSpace(line)
  {
    var s := TrimSpace(line);
    assert s[1..][IndexOf(s[1..], ']')] == ']';
  }

  lemma Found(s: string, c: char)
    requires c in s
    ensures IndexOf(s, c) < |s| && s[IndexOf(s, c)] == c && c !in s[..IndexOf(s, c)]
  {
    assert s[..|s|] == s;
  }

  // ----- dotted keys -----

  /** A part of a dotted key as it is written: bare, or in quotes of either kind. */
  datatype Segment = Segment(text: string, quote: Option<char>)

  ghost predicate WellQuoted(g: Segment) {
    match g.quote
    case None => forall c :: c in g.text ==> c != '.' && !IsQuote(c)
    case Some(q) => IsQuote(q) && q !in g.text
  }

  function Written(g: Segment): string { if g.quote.Some? then [g.quote.value] + g.text + [g.quote.value] else g.text }

  function Dotted(key: seq<Segment>): string
    requires key != []
  {
    if |key| == 1 then Written(key[0]) else Written(key[0]) + "." + Dotted(key[1..])
  }

  ghost function PartTexts(key: seq<Segment>): seq<string> {
    if key == [] then [] else [TrimSpace(key[0].text)] + PartTexts(key[1..])
  }

  lemma {:induction false} InQuotes(text: string, q: char, more: string, cur: string)
    requires IsQuote(q) && q !in text
    ensures Parts(text + [q] + more, cur, Some(q)) == Parts(more, cur + text, None)
    decreases |text|
  {
    var all := text + [q] + more;
    if text == "" {
      assert all[0] == q && all[1..] == more && cur + "" == cur;
    } else {
      assert text[0] in text && all[0] == text[0] && all[1..] == text[1..] + [q] + more;
      InQuotes(text[1..], q, more, cur + [text[0]]);
      assert (cur + [text[0]]) + text[1..] == cur + text;
    }
  }

  lemma {:induction false} Bare(text: string, more: string, cur: string)
    requires forall c :: c in text ==> c != '.' && !IsQuote(c)
    ensures Parts(text + more, cur, None) == Parts(more, cur + text, None)
    decreases |text|
  {
    if text == "" {
      assert text + more == more && cur + "" == cur;
    } else {
      assert text[0] in text && (text + more)[0] == text[0] && (text + more)[1..] == text[1..] + more;
      assert forall c :: c in text[1..] ==> c in text;
      Bare(text[1..], more, cur + [text[0]]);
      assert (cur + [text[0]]) + text[1..] == cur + text;
    }
  }

  lemma SegmentRead(g: Segment, more: string)
    requires WellQuoted(g)
    ensures Parts(Written(g) + more, "", None) == Parts(more, g.text, None)
  {
    assert "" + g.text == g.text;
    if g.quote.Some? {
      var q := g.quote.value;
      var all := Written(g) + more;
      assert all[0] == q && all[1..] == g.text + [q] + more;
      InQuotes(g.text, q, more, "");
    } else {
      Bare(g.text, more, "");
    }
  }

  /** A dotted key is taken apart into what it was written from, whatever is quoted, and each part is trimmed. */
  lemma {:induction false} KeyReadsBack(key: seq<Segment>)
    requires key != [] && forall k :: 0 <= k < |key| ==> WellQuoted(key[k])
    ensures Parts(Dotted(key), "", None) == PartTexts(key)
    decreases |key|
  {
    if |key| == 1 {
      SegmentRead(key[0], "");
      assert Written(key[0]) + "" == Written(key[0]);
      assert PartTexts(key[1..]) == [];
    } else {
      var rest := Dotted(key[1..]);
      SegmentRead(key[0], "." + rest);
      assert Written(key[0]) + "." + rest == Written(key[0]) + ("." + rest);
      assert ("." + rest)[0] == '.' && ("." + rest)[1..] == rest;
      KeyReadsBack(key[1..]);
    }
  }

  // ----- trimming a key does not matter -----

  lemma {:induction false} SameStart(key: string, a: string, b: string, quote: Option<char>)
    requires forall x :: TrimSpace(a + x) == TrimSpace(b + x)
    ensures Parts(key, a, quote) == Parts(key, b, quote)
    decreases |key|
  {
    hide TrimSpace, IsQuote;
    if key == "" {
      assert a + "" == a && b + "" == b;
    } else {
      var rest := key[1..];
      forall x: string
        ensures TrimSpace((a + [key[0]]) + x) == TrimSpace((b + [key[0]]) + x)
      {
        assert (a + [key[0]]) + x == a + ([key[0]] + x) && (b + [key[0]]) + x == b + ([key[0]] + x);
      }
      SameStart(rest, a, b, None);
      SameStart(rest, a, b, Some(key[0]));
      SameStart(rest, a + [key[0]], b + [key[0]], quote);
      if key[0] == '.' && quote.None? {
        assert a + "" == a && b + "" == b;
      }
    }
  }

  lemma {:induction false} SpacesRead(spaces: string, key: string, cur: string)
    requires Spaces(spaces)
    ensures Parts(spaces + key, cur, None) == Parts(key, cur + spaces, None)
  {
    assert forall c :: c in spaces ==> c != '.' && !IsQuote(c);
    Bare(spaces, key, cur);
  }

  lemma {:induction false} TrailingSpaces(key: string, trail: string, cur: string, quote: Option<char>)
    requires Spaces(trail) && (quote.Some? ==> IsQuote(quote.value))
    ensures Parts(key + trail, cur, quote) == Parts(key, cur, quote)
    decreases |key| + |trail|
  {
    if key == "" {
      assert key + trail == trail;
      if trail != "" {
        assert trail[0] in trail && forall c :: c in trail[1..] ==> c in trail;
        TrailingSpaces("", trail[1..], cur + [trail[0]], quote);
        assert "" + trail[1..] == trail[1..];
        OneMoreSpace(cur, trail[0]);
      }
    } else {
      assert (key + trail)[0] == key[0] && (key + trail)[1..] == key[1..] + trail;
      TrailingSpaces(key[1..], trail, cur, None);
      TrailingSpaces(key[1..], trail, "", None);
      if IsQuote(key[0]) {
        TrailingSpaces(key[1..], trail, cur, Some(key[0]));
      }
      TrailingSpaces(key[1..], trail, cur + [key[0]], quote);
    }
  }

  lemma TrimmedKey(key: string)
    ensures Parts(TrimSpace(key), "", None) == Parts(key, "", None)
  {
    hide TrimSpace, IsSpace, Parts;
    var lead, trail := TrimSplit(key);
    var mid := TrimSpace(key);
    assert key == lead + (mid + trail);
    SpacesRead(lead, mid + trail, "");
    assert "" + lead == lead;
    forall x: string
      ensures TrimSpace(lead + x) == TrimSpace("" + x)
    {
      TrimLeadingSpaces(lead, x);
      assert "" + x == x;
    }
    SameStart(mid + trail, lead, "", None);
    TrailingSpaces(mid, trail, "", None);
  }

  /**
    So a header line, however it is indented, quoted or commented, addresses
    the profile exactly when its key's first parts are "profiles" and the name.
  */
  lemma HeaderAddresses(indent: string, key: seq<Segment>, rest: string, name: string)
    requires Spaces(indent) && key != [] && forall k :: 0 <= k < |key| ==> WellQuoted(key[k])
    requires ']' !in Dotted(key)
    ensures var line := indent + "[" + Dotted(key) + "]" + rest;
      var own := |key| >= 2 && TrimSpace(key[0].text) == "profiles" && TrimSpace(key[1].text) == name;
      (Own(line, name) <==> own) && (Foreign(line, name) <==> !own)
  {
    hide TrimSpace, TableKey, Parts, Dotted;
    HeaderIs(indent, Dotted(key), rest);
    TrimmedKey(Dotted(key));
    KeyReadsBack(key);
    FirstTexts(key);
  }

  lemma FirstTexts(key: seq<Segment>)
    requires key != []
    ensures |PartTexts(key)| == |key| && PartTexts(key)[0] == TrimSpace(key[0].text)
    ensures |key| >= 2 ==> PartTexts(key)[1] == TrimSpace(key[1].text)
  {
    hide TrimSpace;
    if |key| >= 2 {
      FirstTexts(key[1..]);
    } else {
      assert PartTexts(key[1..]) == [];
    }
  }
}
