/**
  What the edit of config.toml promises: replacing twice is replacing once,
  uninstalling undoes installing, and everybody else's lines survive.
*/
module TomlTheorems {
  import opened Wrappers
  import opened TextLines
  import opened TomlEdit

  // ----- lines only matter once trimmed -----

  lemma SameTrimmed(a: string, b: string, name: string)
    requires TrimSpace(a) == TrimSpace(b)
    ensures Own(a, name) == Own(b, name) && Foreign(a, name) == Foreign(b, name)
    ensures Blank(a) == Blank(b) && Comment(a) == Comment(b) && Note(a) == Note(b)
  {
  }

  lemma HeadersAreNoNotes(line: string, name: string)
    ensures Own(line, name) || Foreign(line, name) ==> !Note(line)
    ensures !(Own(line, name) && Foreign(line, name))
    ensures Blank("") && Note("") && !Own("", name) && !Foreign("", name)
  {
  }

  /** The lines of a block: a blank one, a header of the profile, and none of another table; ending in no blank or comment. */
  ghost predicate BlockOf(block: seq<string>, name: string) {
    && |block| >= 2 && AreLines(block)
    && block[0] == "\n" && Own(block[1], name)
    && (forall k :: 0 <= k < |block| ==> !Foreign(block[k], name))
    && !Note(block[|block| - 1])
  }

  // ----- the text after a splice, in lines again -----

  /** The lines of a text: all but the last complete. */
  ghost predicate Tail(lines: seq<string>) {
    lines == [] || (AreLines(lines[..|lines| - 1]) && '\n' !in lines[|lines| - 1])
  }

  /** With the last line complete too. */
  function Completed(tail: seq<string>): (c: seq<string>)
    ensures c != []
  {
    if tail == [] then [""]
    else
      var last := |tail| - 1;
      if tail[last] == "" then tail else tail[..last] + [tail[last] + "\n", ""]
  }

  lemma SplitTail(src: string, k: nat)
    requires k <= |SplitAfter(src)|
    ensures Tail(SplitAfter(src)[k..])
    ensures k < |SplitAfter(src)| ==> AreLines(SplitAfter(src)[..k])
  {
    SplitShape(src);
    var lines := SplitAfter(src);
    if k < |lines| {
      assert lines[k..][..|lines| - k - 1] == lines[..|lines| - 1][k..];
      assert lines[..k] == lines[..|lines| - 1][..k];
    }
  }

  lemma {:induction false} LinesEnd(lines: seq<string>)
    requires AreLines(lines) && lines != []
    ensures Join(lines) != "" && Join(lines)[|Join(lines)| - 1] == '\n'
    decreases |lines|
  {
    if lines[1..] != [] {
      LinesEnd(lines[1..]);
    }
  }

  lemma CompletedLines(tail: seq<string>)
    requires Tail(tail)
    ensures var c := Completed(tail);
      && |tail| <= |c| <= |tail| + 1
      && AreLines(c[..|c| - 1]) && c[|c| - 1] == ""
      && (forall k :: 0 <= k < |tail| ==> TrimSpace(c[k]) == TrimSpace(tail[k]))
  {
    hide TrimSpace;
    var last := |tail| - 1;
    if tail != [] && tail[last] != "" {
      var c := Completed(tail);
      TrimIgnoresLF(tail[last]);
      assert c[..last + 1] == tail[..last] + [tail[last] + "\n"];
      assert (tail[last] + "\n")[..|tail[last]|] == tail[last];
      forall k | 0 <= k < |tail|
        ensures TrimSpace(c[k]) == TrimSpace(tail[k])
      {
        if k < last {
          assert c[k] == tail[..last][k];
        }
      }
    }
  }

  lemma CompletedText(tail: seq<string>)
    requires Tail(tail)
    ensures Join(Completed(tail)) == Ended(Join(tail))
  {
    hide IsLine;
    if tail == [] {
    } else {
      var last := |tail| - 1;
      var r := tail[last];
      assert tail == tail[..last] + [r];
      JoinAppends(tail[..last], [r]);
      One(r);
      if r == "" {
        if last > 0 {
          LinesEnd(tail[..last]);
        }
      } else {
        JoinAppends(tail[..last], [r + "\n", ""]);
        Two(r + "\n", "");
        assert Join(tail)[|Join(tail)| - 1] == r[|r| - 1];
      }
    }
  }

  lemma One(line: string)
    ensures Join([line]) == line
  {
    assert [line][1..] == [] && line + "" == line;
  }

  lemma Two(a: string, b: string)
    ensures Join([a, b]) == a + b
  {
    assert [a, b][1..] == [b];
    One(b);
  }

  /** The lines of what a splice writes. */
  lemma SpliceLines(head: seq<string>, tail: seq<string>)
    requires AreLines(head) && Tail(tail)
    ensures SplitAfter(Ended(Join(head) + Join(tail))) == head + Completed(tail)
    ensures Join(head + Completed(tail)) == Ended(Join(head) + Join(tail))
  {
    hide Completed, SplitAfter, Join, Ended, AreLines, Tail;
    var c, last := Completed(tail), |Completed(tail)| - 1;
    CompletedLines(tail);
    CompletedText(tail);
    JoinAppends(head, c);
    EndedTail(head, tail);
    assert head + c == (head + c[..last]) + [""];
    BothLines(head, c[..last]);
    LinesSplit(head + c[..last]);
  }

  lemma BothLines(a: seq<string>, b: seq<string>)
    requires AreLines(a) && AreLines(b)
    ensures AreLines(a + b)
  {
  }

  lemma LinesSplit(lines: seq<string>)
    requires AreLines(lines)
    ensures SplitAfter(Join(lines + [""])) == lines + [""]
  {
    hide IsLine, SplitAfter;
    JoinAppends(lines, [""]);
    One("");
    assert Join(lines) + "" == Join(lines + [""]);
    SplitJoin(lines, "");
    SplitRest("");
  }

  lemma EndedTail(head: seq<string>, tail: seq<string>)
    requires AreLines(head)
    ensures Ended(Join(head) + Join(tail)) == Join(head) + Ended(Join(tail))
  {
    hide IsLine;
    if head != [] {
      LinesEnd(head);
    }
    EndedText(Join(head), Join(tail));
  }

  lemma EndedText(a: string, b: string)
    requires a == "" || a[|a| - 1] == '\n'
    ensures Ended(a + b) == a + Ended(b)
  {
    if b == "" {
      assert a + b == a;
    } else {
      assert (a + b) + "\n" == a + (b + "\n");
    }
  }

  // ----- what a splice finds -----

  /** The lines around a block: the end of what stays above, the block's own header, and the notes before what stays below. */
  ghost predicate Site(lines: seq<string>, name: string, start: nat, h: nat, end: nat, e: nat) {
    && start <= h < end <= e <= |lines|
    && Own(lines[h], name) && (forall k :: 0 <= k < h ==> !Own(lines[k], name))
    && (forall k :: start <= k < h ==> Blank(lines[k])) && (start > 0 ==> !Blank(lines[start - 1]))
    && (forall k :: h <= k < e ==> !Foreign(lines[k], name)) && (e < |lines| ==> Foreign(lines[e], name))
    && (forall k :: end <= k < e ==> Note(lines[k])) && !Note(lines[end - 1])
  }

  /** Such a site is where the splice cuts, and there is no other. */
  lemma CutsAtSite(lines: seq<string>, name: string, start: nat, h: nat, end: nat, e: nat, dropping: bool)
    requires Site(lines, name, start, h, end, e)
    ensures HasOwn(lines, name)
    ensures Find(lines, name, dropping) == Cut(start, if start == 0 && dropping then OverBlank(lines, end) else end)
    ensures FindForeign(lines, name, FindOwn(lines, name, 0)) == e
  {
    HeadersAreNoNotes(lines[h], name);
    assert FindOwn(lines, name, 0) == h;
    assert FindForeign(lines, name, h) == e;
    assert BackOverBlank(lines, h) == start;
    assert BackOverNotes(lines, start, e) == end;
  }

  lemma SiteExists(lines: seq<string>, name: string) returns (start: nat, h: nat, end: nat, e: nat)
    requires HasOwn(lines, name)
    ensures Site(lines, name, start, h, end, e)
  {
    h := FindOwn(lines, name, 0);
    e := FindForeign(lines, name, h);
    start := BackOverBlank(lines, h);
    end := BackOverNotes(lines, start, e);
    HeadersAreNoNotes(lines[h], name);
  }

  // ----- replacing -----

  /** The same block of lines somewhere else: above it no own header and no blank line, below it the same notes. */
  lemma SiteOfBlock(head: seq<string>, block: seq<string>, tail: seq<string>, below: seq<string>, name: string, n: nat)
    requires BlockOf(block, name)
    requires forall k :: 0 <= k < |head| ==> !Own(head[k], name)
    requires head != [] ==> !Blank(head[|head| - 1])
    requires n <= |tail| <= |below| && (forall k :: 0 <= k < |tail| ==> TrimSpace(below[k]) == TrimSpace(tail[k]))
    requires (forall k :: 0 <= k < n ==> Note(tail[k])) && (n < |tail| ==> Foreign(tail[n], name))
    requires forall k :: |tail| <= k < |below| ==> below[k] == ""
    ensures Site(head + block + below, name, |head|, |head| + 1, |head| + |block|,
      |head| + |block| + if n < |tail| then n else |below|)
  {
    hide Own, Foreign, Note, Blank;
    var lines, b := head + block + below, |head| + |block|;
    var e := b + if n < |tail| then n else |below|;
    NewlineIsBlank();
    HeadersAreNoNotes(block[1], name);
    forall k | b <= k < e
      ensures Note(lines[k]) && !Foreign(lines[k], name)
    {
      assert lines[k] == below[k - b];
      if k - b < |tail| {
        SameTrimmed(below[k - b], tail[k - b], name);
      }
      HeadersAreNoNotes(below[k - b], name);
    }
    if n < |tail| {
      assert lines[e] == below[n];
      SameTrimmed(below[n], tail[n], name);
    }
    forall k | |head| < k < b
      ensures !Foreign(lines[k], name)
    {
      assert lines[k] == block[k - |head|];
    }
    assert lines[|head|] == block[0] && lines[|head| + 1] == block[1] && lines[b - 1] == block[|block| - 1];
    assert forall k :: 0 <= k < |head| ==> lines[k] == head[k];
    HeadersAreNoNotes("\n", name);
  }

  lemma NewlineIsBlank()
    ensures Blank("\n") && Note("\n")
  {
    TrimIgnoresLF("");
    assert "" + "\n" == "\n";
  }

  lemma EndedTwice(s: string)
    ensures Ended(Ended(s)) == Ended(s)
  {
  }

  lemma SpliceAtSite(src: string, name: string, block: string, start: nat, h: nat, end: nat, e: nat)
    requires Site(SplitAfter(src), name, start, h, end, e)
    ensures var lines := SplitAfter(src);
      var low := if start == 0 && block == "" then OverBlank(lines, end) else end;
      Splice(src, name, block) == Spliced(Ended(Join(lines[..start]) + block + Join(lines[low..])), true)
  {
    CutsAtSite(SplitAfter(src), name, start, h, end, e, block == "");
  }

  /** For any text, name and block of that name's lines: replacing again changes nothing. */
  lemma ReplaceIsIdempotent(src: string, name: string, block: seq<string>)
    requires BlockOf(block, name)
    ensures var once := Splice(src, name, Join(block)); Splice(once.out, name, Join(block)) == once
  {
    hide Own, Foreign, Note, Blank, IsLine, Join, SplitAfter, Find;
    var lines := SplitAfter(src);
    if HasOwn(lines, name) {
      var start, h, end, e := SiteExists(lines, name);
      SplitTail(src, start);
      SplitTail(src, end);
      LinesEnd(block);
      SpliceAtSite(src, name, Join(block), start, h, end, e);
      HeadOfSite(lines, name, start, h, end, e);
      ReplaceBlock(lines[..start], block, lines[end..], name, e - end);
    }
  }

  /** What a block was put in place of, in front of the notes it left alone, is no more than the block itself. */
  lemma ReplaceBlock(head: seq<string>, block: seq<string>, tail: seq<string>, name: string, n: nat)
    requires BlockOf(block, name) && AreLines(head) && Tail(tail) && n <= |tail|
    requires (forall k :: 0 <= k < |head| ==> !Own(head[k], name)) && (head != [] ==> !Blank(head[|head| - 1]))
    requires (forall k :: 0 <= k < n ==> Note(tail[k])) && (n < |tail| ==> Foreign(tail[n], name))
    ensures var out := Ended(Join(head) + Join(block) + Join(tail));
      Splice(out, name, Join(block)) == Spliced(out, true)
  {
    hide BlockOf, Tail, Note, Own, Blank, Foreign, AreLines, Join, SplitAfter, Splice, Site, Ended, Completed;
    var b := |head| + |block|;
    var e := ReplaceSite(head, block, tail, name, n);
    var out := Ended(Join(head) + Join(block) + Join(tail));
    BlockLines(block, name);
    Replaced(head, block, tail);
    EndedTwice(Join(head) + Join(block) + Join(tail));
    Parts3(head, block, Completed(tail));
    SpliceBack(out, name, Join(block), |head|, b, e);
  }

  lemma BlockLines(block: seq<string>, name: string)
    requires BlockOf(block, name)
    ensures |block| >= 2 && AreLines(block) && block[0] == "\n" && Join(block) != ""
  {
    LinesEnd(block);
  }

  lemma ReplaceSite(head: seq<string>, block: seq<string>, tail: seq<string>, name: string, n: nat) returns (e: nat)
    requires BlockOf(block, name) && Tail(tail) && n <= |tail|
    requires (forall k :: 0 <= k < |head| ==> !Own(head[k], name)) && (head != [] ==> !Blank(head[|head| - 1]))
    requires (forall k :: 0 <= k < n ==> Note(tail[k])) && (n < |tail| ==> Foreign(tail[n], name))
    ensures Site(head + block + Completed(tail), name, |head|, |head| + 1, |head| + |block|, e)
  {
    hide BlockOf, Note, Own, Blank, Foreign, AreLines, Site, Completed;
    CompletedLines(tail);
    SiteOfBlock(head, block, tail, Completed(tail), name, n);
    e := |head| + |block| + if n < |tail| then n else |Completed(tail)|;
  }

  lemma Parts3(a: seq<string>, b: seq<string>, c: seq<string>)
    ensures (a + b + c)[..|a|] == a && (a + b + c)[|a| + |b|..] == c
  {
  }

  lemma SpliceBack(out: string, name: string, block: string, start: nat, end: nat, e: nat)
    requires Site(SplitAfter(out), name, start, start + 1, end, e) && block != ""
    requires start <= end <= |SplitAfter(out)|
    requires out == Join(SplitAfter(out)[..start]) + block + Join(SplitAfter(out)[end..]) && Ended(out) == out
    ensures Splice(out, name, block) == Spliced(out, true)
  {
    hide Site, SplitAfter, Join, Ended;
    SpliceAtSite(out, name, block, start, start + 1, end, e);
  }

  lemma HeadOfSite(lines: seq<string>, name: string, start: nat, h: nat, end: nat, e: nat)
    requires Site(lines, name, start, h, end, e)
    ensures var head, tail := lines[..start], lines[end..];
      && (forall k :: 0 <= k < |head| ==> !Own(head[k], name))
      && (head != [] ==> !Blank(head[|head| - 1]))
      && (forall k :: 0 <= k < e - end ==> Note(tail[k]))
      && (e - end < |tail| ==> Foreign(tail[e - end], name))
  {
  }

  lemma Replaced(head: seq<string>, block: seq<string>, tail: seq<string>)
    requires AreLines(head) && AreLines(block) && Tail(tail)
    ensures var out := Ended(Join(head) + Join(block) + Join(tail));
      && SplitAfter(out) == head + block + Completed(tail)
      && out == Join(head) + Join(block) + Join(Completed(tail))
  {
    JoinAppends(head, block);
    BothLines(head, block);
    SpliceLines(head + block, tail);
    JoinAppends(head + block, Completed(tail));
  }

  // ----- dropping -----

  /** A second removal finds something exactly when the name had headers beyond the next table's. */
  lemma DropIsComplete(src: string, name: string)
    requires HasOwn(SplitAfter(src), name)
    ensures var lines := SplitAfter(src);
      var e := FindForeign(lines, name, FindOwn(lines, name, 0));
      Splice(Splice(src, name, "").out, name, "").ok <==> exists k :: e <= k < |lines| && Own(lines[k], name)
  {
    hide Own, Foreign, Note, Blank, IsLine, Completed, Join, SplitAfter, Find;
    var lines := SplitAfter(src);
    var start, h, end, e := SiteExists(lines, name);
    CutsAtSite(lines, name, start, h, end, e, true);
    SpliceAtSite(src, name, "", start, h, end, e);
    var low := if start == 0 then OverBlank(lines, end) else end;
    var head, tail := lines[..start], lines[low..];
    SplitTail(src, start);
    SplitTail(src, low);
    assert Join(head) + "" == Join(head);
    SpliceLines(head, tail);
    CompletedLines(tail);
    LowIsBelow(lines, name, start, h, end, e);
    LeftOver(lines, head, tail, Completed(tail), name, low, e);
  }

  lemma LowIsBelow(lines: seq<string>, name: string, start: nat, h: nat, end: nat, e: nat)
    requires Site(lines, name, start, h, end, e)
    ensures OverBlank(lines, end) <= e
  {
    if OverBlank(lines, end) > e {
      HeadersAreNoNotes(lines[e], name);
    }
  }

  lemma LeftOver(lines: seq<string>, head: seq<string>, tail: seq<string>, below: seq<string>, name: string, low: nat, e: nat)
    requires |head| <= low <= e <= |lines| && head == lines[..|head|] && tail == lines[low..]
    requires forall k :: 0 <= k < |head| ==> !Own(lines[k], name)
    requires forall k :: low <= k < e ==> Note(lines[k])
    requires |tail| <= |below| <= |tail| + 1 && (|below| > |tail| ==> below[|tail|] == "")
    requires forall k :: 0 <= k < |tail| ==> TrimSpace(below[k]) == TrimSpace(tail[k])
    ensures HasOwn(head + below, name) <==> exists k :: e <= k < |lines| && Own(lines[k], name)
  {
    hide Own, Foreign, Note, Blank, TrimSpace;
    var all := head + below;
    if k :| e <= k < |lines| && Own(lines[k], name) {
      KeptLine(lines, head, tail, below, name, low, k - low);
    }
    if HasOwn(all, name) {
      var k :| 0 <= k < |all| && Own(all[k], name);
      OwnIsBelow(lines, head, tail, below, name, low, e, k);
    }
  }

  lemma OwnIsBelow(lines: seq<string>, head: seq<string>, tail: seq<string>, below: seq<string>, name: string, low: nat, e: nat, k: nat)
    requires |head| <= low <= e <= |lines| && head == lines[..|head|] && tail == lines[low..]
    requires forall k :: 0 <= k < |head| ==> !Own(lines[k], name)
    requires forall k :: low <= k < e ==> Note(lines[k])
    requires |tail| <= |below| <= |tail| + 1 && (|below| > |tail| ==> below[|tail|] == "")
    requires forall k :: 0 <= k < |tail| ==> TrimSpace(below[k]) == TrimSpace(tail[k])
    requires k < |head| + |below| && Own((head + below)[k], name)
    ensures |head| <= k && e <= low + (k - |head|) < |lines| && Own(lines[low + (k - |head|)], name)
  {
    hide Own, Foreign, Note, Blank, TrimSpace;
    if k >= |head| && k - |head| < |tail| {
      KeptLine(lines, head, tail, below, name, low, k - |head|);
      HeadersAreNoNotes(lines[low + (k - |head|)], name);
    } else {
      HeadersAreNoNotes("", name);
    }
  }

  lemma KeptLine(lines: seq<string>, head: seq<string>, tail: seq<string>, below: seq<string>, name: string, low: nat, k: nat)
    requires low + k < |lines| && tail == lines[low..] && |tail| <= |below|
    requires TrimSpace(below[k]) == TrimSpace(tail[k])
    ensures (head + below)[|head| + k] == below[k] && Own(below[k], name) == Own(lines[low + k], name)
  {
    SameTrimmed(below[k], tail[k], name);
  }

  // ----- everybody else's lines -----

  function Headers(lines: seq<string>, name: string): seq<string>
    decreases |lines|
  {
    if lines == [] then []
    else (if Foreign(lines[0], name) then [lines[0]] else []) + Headers(lines[1..], name)
  }

  lemma {:induction false} HeadersAppend(a: seq<string>, b: seq<string>, name: string)
    ensures Headers(a + b, name) == Headers(a, name) + Headers(b, name)
    decreases |a|
  {
    hide Foreign;
    if a == [] {
      assert a + b == b;
    } else {
      assert (a + b)[1..] == a[1..] + b;
      HeadersAppend(a[1..], b, name);
    }
  }

  lemma {:induction false} NoHeaders(lines: seq<string>, name: string)
    requires forall k :: 0 <= k < |lines| ==> !Foreign(lines[k], name)
    ensures Headers(lines, name) == []
    decreases |lines|
  {
    hide Foreign;
    if lines != [] {
      NoHeaders(lines[1..], name);
    }
  }

  /**
    What a splice takes out is blank lines, then the profile's header, then
    its section.  The headers of all other tables stay, in order, and so does
    every comment that no line of the section follows.
  */
  lemma OthersSurvive(src: string, name: string, block: string)
    requires HasOwn(SplitAfter(src), name)
    ensures var lines := SplitAfter(src);
      var c, h := Find(lines, name, block == ""), FindOwn(lines, name, 0);
      && src == Join(lines[..c.start]) + Join(lines[c.start..c.end]) + Join(lines[c.end..])
      && Headers(lines, name) == Headers(lines[..c.start], name) + Headers(lines[c.end..], name)
      && c.start <= h < c.end && (forall k :: c.start <= k < h ==> Blank(lines[k]))
      && (forall k :: c.start <= k < c.end && Comment(lines[k]) ==> FollowedUp(lines, k, c.end))
  {
    hide Foreign, Own, SplitAfter, Join, Headers, IsLine, Comment, FollowedUp, Blank, Note, Find, Site, HasOwn;
    var lines := SplitAfter(src);
    var start, h, end, e := SiteExists(lines, name);
    CutsAtSite(lines, name, start, h, end, e, block == "");
    LowIsBelow(lines, name, start, h, end, e);
    SiteBounds(lines, name, start, h, end, e);
    var low := Find(lines, name, block == "").end;
    NoneInside(lines, name, start, h, end, e, low);
    TakenOut(src, name, start, low);
    CommentsInside(lines, name, start, h, end, e, low);
  }

  lemma SiteBounds(lines: seq<string>, name: string, start: nat, h: nat, end: nat, e: nat)
    requires Site(lines, name, start, h, end, e)
    ensures start <= h < end <= e <= |lines| && FindOwn(lines, name, 0) == h
    ensures forall k :: start <= k < h ==> Blank(lines[k])
    ensures forall k :: end <= k < OverBlank(lines, end) ==> Blank(lines[k])
  {
  }

  lemma TakenOut(src: string, name: string, start: nat, low: nat)
    requires start <= low <= |SplitAfter(src)|
    requires forall k :: 0 <= k < low - start ==> !Foreign(SplitAfter(src)[start..low][k], name)
    ensures var lines := SplitAfter(src);
      && src == Join(lines[..start]) + Join(lines[start..low]) + Join(lines[low..])
      && Headers(lines, name) == Headers(lines[..start], name) + Headers(lines[low..], name)
  {
    hide Foreign, SplitAfter, Join, Headers;
    var lines := SplitAfter(src);
    var a, b, d := lines[..start], lines[start..low], lines[low..];
    assert lines == (a + b) + d;
    JoinSplit(src);
    JoinAppends(a, b);
    JoinAppends(a + b, d);
    HeadersAppend(a, b, name);
    HeadersAppend(a + b, d, name);
    NoHeaders(b, name);
    assert Headers(a, name) + [] == Headers(a, name);
  }

  lemma NoneInside(lines: seq<string>, name: string, start: nat, h: nat, end: nat, e: nat, low: nat)
    requires Site(lines, name, start, h, end, e) && end <= low <= e
    ensures forall k :: 0 <= k < low - start ==> !Foreign(lines[start..low][k], name)
  {
    forall k | start <= k < low
      ensures !Foreign(lines[k], name)
    {
      HeadersAreNoNotes(lines[k], name);
    }
    assert forall k :: 0 <= k < low - start ==> lines[start..low][k] == lines[start + k];
  }

  /** Before `end`, a line of the profile's section comes after line k. */
  ghost predicate FollowedUp(lines: seq<string>, k: nat, end: nat)
    requires end <= |lines|
  {
    exists j :: k < j < end && !Note(lines[j])
  }

  lemma CommentsInside(lines: seq<string>, name: string, start: nat, h: nat, end: nat, e: nat, low: nat)
    requires Site(lines, name, start, h, end, e) && end <= low <= |lines|
    requires forall k :: end <= k < low ==> Blank(lines[k])
    ensures forall k :: start <= k < low && Comment(lines[k]) ==> FollowedUp(lines, k, low)
  {
    hide Own, Foreign;
    forall k | start <= k < low && Comment(lines[k])
      ensures FollowedUp(lines, k, low)
    {
      assert k < end;
      assert k < end - 1 && !Note(lines[end - 1]);
    }
  }

  function Trimmed(lines: seq<string>): seq<string>
    decreases |lines|
  {
    if lines == [] then [] else [TrimSpace(lines[0])] + Trimmed(lines[1..])
  }

  lemma {:induction false} TrimmedAppend(a: seq<string>, b: seq<string>)
    ensures Trimmed(a + b) == Trimmed(a) + Trimmed(b)
    decreases |a|
  {
    hide TrimSpace;
    if a == [] {
      assert a + b == b;
    } else {
      assert (a + b)[1..] == a[1..] + b;
      TrimmedAppend(a[1..], b);
    }
  }

  /** Completing the last line adds no header and takes none away. */
  lemma CompletedHeaders(tail: seq<string>, name: string)
    ensures Trimmed(Headers(Completed(tail), name)) == Trimmed(Headers(tail, name))
  {
    hide Foreign, TrimSpace;
    HeadersAreNoNotes("", name);
    var last := |tail| - 1;
    if tail == [] {
      LineHeaders("", name);
    } else if tail[last] != "" {
      var r := tail[last];
      TrimIgnoresLF(r);
      SameTrimmed(r + "\n", r, name);
      assert tail == tail[..last] + [r];
      HeadersAppend(tail[..last], [r], name);
      HeadersAppend(tail[..last], [r + "\n", ""], name);
      assert [r + "\n", ""] == [r + "\n"] + [""];
      HeadersAppend([r + "\n"], [""], name);
      LineHeaders(r, name);
      LineHeaders(r + "\n", name);
      LineHeaders("", name);
      TrimmedAppend(Headers(tail[..last], name), Headers([r], name));
      TrimmedAppend(Headers(tail[..last], name), Headers([r + "\n", ""], name));
    }
  }

  lemma LineHeaders(line: string, name: string)
    ensures Headers([line], name) == if Foreign(line, name) then [line] else []
    ensures Trimmed([line]) == [TrimSpace(line)] && Trimmed([]) == []
  {
    assert [line][1..] == [];
  }

  /** What is written, in lines: those above the cut, the block, and those below it, the last one completed. */
  lemma WrittenLines(src: string, name: string, block: seq<string>)
    requires HasOwn(SplitAfter(src), name) && AreLines(block)
    ensures var lines := SplitAfter(src); var c := Find(lines, name, Join(block) == "");
      SplitAfter(Splice(src, name, Join(block)).out) == lines[..c.start] + block + Completed(lines[c.end..])
  {
    hide Own, Foreign, Note, Blank, IsLine, Completed, Join, SplitAfter, Find;
    var lines := SplitAfter(src);
    var start, h, end, e := SiteExists(lines, name);
    CutsAtSite(lines, name, start, h, end, e, Join(block) == "");
    var c := Find(lines, name, Join(block) == "");
    SpliceIs(src, name, Join(block));
    SplitTail(src, c.start);
    SplitTail(src, c.end);
    Replaced(lines[..c.start], block, lines[c.end..]);
  }

  lemma SpliceIs(src: string, name: string, block: string)
    requires HasOwn(SplitAfter(src), name)
    ensures var lines := SplitAfter(src); var c := Find(lines, name, block == "");
      Splice(src, name, block) == Spliced(Ended(Join(lines[..c.start]) + block + Join(lines[c.end..])), true)
  {
  }

  /** In the text that is written the headers of all other tables stand as they stood, in order. */
  lemma HeadersSurvive(src: string, name: string, block: seq<string>)
    requires HasOwn(SplitAfter(src), name) && AreLines(block) && forall k :: 0 <= k < |block| ==> !Foreign(block[k], name)
    ensures Trimmed(Headers(SplitAfter(Splice(src, name, Join(block)).out), name)) == Trimmed(Headers(SplitAfter(src), name))
  {
    hide Foreign, Own, SplitAfter, Join, Headers, Trimmed, Completed, Splice, IsLine, Find, Note, Comment, Blank, FollowedUp;
    var lines := SplitAfter(src);
    var c := Find(lines, name, Join(block) == "");
    var head, tail := lines[..c.start], lines[c.end..];
    OthersSurvive(src, name, Join(block));
    WrittenLines(src, name, block);
    NoHeaders(block, name);
    HeadersAppend(head, block, name);
    HeadersAppend(head + block, Completed(tail), name);
    assert Headers(head, name) + [] == Headers(head, name);
    CompletedHeaders(tail, name);
    TrimmedAppend(Headers(head, name), Headers(Completed(tail), name));
    TrimmedAppend(Headers(head, name), Headers(tail, name));
  }

  // ----- installing and uninstalling -----

  /** The lines of a text to whose last line an LF is added. */
  function Closed(text: string): seq<string> {
    var lines, n := SplitAfter(text), |SplitAfter(text)| - 1;
    lines[..n] + [lines[n] + "\n"]
  }

  /** A text with its last line complete and without blank lines at its end. */
  function Stripped(text: string): string {
    Join(Closed(text)[..BackOverBlank(Closed(text), |Closed(text)|)])
  }

  lemma ClosedLines(text: string, name: string)
    ensures AreLines(Closed(text)) && Join(Closed(text)) == text + "\n"
    ensures HasOwn(Closed(text), name) ==> HasOwn(SplitAfter(text), name)
  {
    var lines, n := SplitAfter(text), |SplitAfter(text)| - 1;
    var k := Closed(text);
    SplitShape(text);
    ClosedText(text);
    assert (lines[n] + "\n")[..|lines[n]|] == lines[n];
    TrimIgnoresLF(lines[n]);
    SameTrimmed(k[n], lines[n], name);
    forall j | 0 <= j < n
      ensures k[j] == lines[j] && IsLine(k[j])
    {
      assert IsLine(lines[..n][j]);
    }
  }

  lemma ClosedText(text: string)
    ensures Join(Closed(text)) == text + "\n"
  {
    hide SplitAfter, Join;
    var lines, n := SplitAfter(text), |SplitAfter(text)| - 1;
    JoinSplit(text);
    assert lines == lines[..n] + [lines[n]];
    JoinAppends(lines[..n], [lines[n]]);
    JoinAppends(lines[..n], [lines[n] + "\n"]);
    One(lines[n]);
    One(lines[n] + "\n");
    assert Join(lines[..n]) + (lines[n] + "\n") == (Join(lines[..n]) + lines[n]) + "\n";
  }

  lemma FirstJoined(block: seq<string>)
    requires block != []
    ensures Join(block) == block[0] + Join(block[1..])
  {
  }

  /** Appending a block to a text: the text's lines, the block's from its header on, and nothing behind. */
  lemma AppendedLines(text: string, block: seq<string>, name: string)
    requires |block| >= 2 && AreLines(block) && block[0] == "\n"
    ensures SplitAfter(text + Join(block)) == Closed(text) + block[1..] + [""]
  {
    hide SplitAfter, Join, Own, Foreign, Note, Closed, IsLine;
    ClosedLines(text, name);
    JoinAppends(Closed(text), block[1..]);
    FirstJoined(block);
    assert text + ("\n" + Join(block[1..])) == (text + "\n") + Join(block[1..]);
    BothLines(Closed(text), block[1..]);
    LinesSplit(Closed(text) + block[1..]);
    JoinAppends(Closed(text) + block[1..], [""]);
    One("");
    assert Join(Closed(text) + block[1..]) + "" == text + Join(block);
  }

  lemma AppendedSite(closed: seq<string>, block: seq<string>, name: string)
    requires BlockOf(block, name) && !HasOwn(closed, name)
    ensures var all := closed + block[1..] + [""];
      Site(all, name, BackOverBlank(closed, |closed|), |closed|, |all| - 1, |all|)
  {
    hide Own, Foreign, Note, Blank;
    var all := closed + block[1..] + [""];
    HeadersAreNoNotes("", name);
    assert forall k :: 0 <= k < |closed| ==> all[k] == closed[k];
    assert forall k :: |closed| <= k < |all| - 1 ==> all[k] == block[k - |closed| + 1];
  }

  /** Installing a profile and uninstalling it leaves the text as it was, but for a final LF and blank lines at its end. */
  lemma InstallThenUninstall(text: string, name: string, block: seq<string>)
    requires BlockOf(block, name) && !HasOwn(SplitAfter(text), name)
    ensures Splice(text + Join(block), name, "") == Spliced(Stripped(text), true)
  {
    hide Own, Foreign, Note, Blank, Site, SplitAfter, Join, Closed, HasOwn, BlockOf, Splice, AreLines, Stripped;
    BlockLines(block, name);
    var closed := Closed(text);
    var all := closed + block[1..] + [""];
    var start := BackOverBlank(closed, |closed|);
    ClosedLines(text, name);
    AppendedLines(text, block, name);
    AppendedSite(closed, block, name);
    SpliceAtSite(text + Join(block), name, "", start, |closed|, |all| - 1, |all|);
    DropLast(all, closed, start);
    StrippedIs(text);
  }

  lemma NoLines()
    ensures Join([]) == ""
  {
  }

  lemma DropLast(all: seq<string>, closed: seq<string>, start: nat)
    requires AreLines(closed) && start <= |closed| < |all| && all[..|closed|] == closed && all[|all| - 1] == ""
    ensures var end := |all| - 1;
      var low := if start == 0 then OverBlank(all, end) else end;
      Ended(Join(all[..start]) + "" + Join(all[low..])) == Join(closed[..start])
  {
    hide IsLine, Join;
    assert all[..start] == all[..|closed|][..start];
    NothingBelow(all, |all| - 1);
    assert Join(closed[..start]) + "" + "" == Join(closed[..start]);
    if start > 0 {
      LinesEnd(closed[..start]);
    } else {
      NoLines();
    }
  }

  lemma StrippedIs(text: string)
    ensures Stripped(text) == Join(Closed(text)[..BackOverBlank(Closed(text), |Closed(text)|)])
  {
  }

  lemma NothingBelow(all: seq<string>, end: nat)
    requires end == |all| - 1 && all[end] == ""
    ensures Join(all[end..]) == "" && Join(all[OverBlank(all, end)..]) == ""
  {
    One("");
    assert all[end..] == [""] && all[end + 1..] == [];
  }

  /** Its last line is complete and not blank. */
  ghost predicate EndsInText(text: string) {
    var lines := SplitAfter(text);
    text != "" && text[|text| - 1] == '\n' && |lines| > 1 && !Blank(lines[|lines| - 2])
  }

  /** So uninstalling restores a text exactly when it is empty, or ends in a complete line that is not blank. */
  lemma UninstallRestoresWhen(text: string)
    ensures Stripped(text) == text <==> text == "" || EndsInText(text)
  {
    hide SplitAfter, Blank, Closed, IsLine, BackOverBlank;
    var closed := Closed(text);
    var start := BackOverBlank(closed, |closed|);
    ClosedLines(text, "");
    if start > 0 {
      LinesEnd(closed[..start]);
    }
    if text != "" && text[|text| - 1] == '\n' {
      LastIsEmpty(text);
      StrippedLines(text);
    } else if text == "" {
      EmptyText();
    }
  }

  lemma EmptyText()
    ensures Stripped("") == ""
  {
    assert Closed("") == ["\n"] by {
      assert "" + "\n" == "\n";
    }
    NewlineIsBlank();
    assert BackOverBlank(["\n"], 1) == 0;
  }

  /** The lines of a text that ends in an LF: stripping keeps all of them, or fewer. */
  lemma StrippedLines(text: string)
    requires text != "" && text[|text| - 1] == '\n'
    ensures var lines, n := SplitAfter(text), |SplitAfter(text)| - 1;
      n > 0 && (Stripped(text) == text <==> !Blank(lines[n - 1]))
  {
    hide SplitAfter, Blank, Closed, IsLine, Join;
    var lines, n := SplitAfter(text), |SplitAfter(text)| - 1;
    var closed := Closed(text);
    LastIsEmpty(text);
    ClosedIs(text);
    ClosedLines(text, "");
    NewlineIsBlank();
    assert "" + "\n" == "\n";
    var start := BackOverBlank(closed, n);
    assert BackOverBlank(closed, n + 1) == start;
    assert closed == closed[..n] + ["\n"];
    JoinAppends(closed[..n], ["\n"]);
    One("\n");
    assert (text + "\n")[..|text|] == text && (Join(closed[..n]) + "\n")[..|Join(closed[..n])|] == Join(closed[..n]);
    assert closed[n - 1] == lines[..n][n - 1];
    if start < n {
      assert closed[..n] == closed[..start] + closed[start..n];
      JoinAppends(closed[..start], closed[start..n]);
      LinesEnd(closed[start..n]);
    }
  }

  lemma ClosedIs(text: string)
    ensures var lines, n := SplitAfter(text), |SplitAfter(text)| - 1;
      |Closed(text)| == n + 1 && Closed(text)[..n] == lines[..n] && Closed(text)[n] == lines[n] + "\n"
  {
  }

  lemma LastIsEmpty(text: string)
    requires text != "" && text[|text| - 1] == '\n'
    ensures var lines, n := SplitAfter(text), |SplitAfter(text)| - 1; n > 0 && lines[n] == ""
  {
    var lines, n := SplitAfter(text), |SplitAfter(text)| - 1;
    JoinSplit(text);
    SplitShape(text);
    assert lines == lines[..n] + [lines[n]];
    JoinAppends(lines[..n], [lines[n]]);
    One(lines[n]);
  }
}
