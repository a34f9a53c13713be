/**
  The config file as its reader sees it: what install, update and uninstall do
  to the profile they are about, and that they do nothing to any other.
*/
module ProfileFile {
  import opened Wrappers
  import opened TextLines
  import opened TomlEdit
  import opened TomlTheorems
  import opened Install
  import opened ProfileNames
  import opened ProfileReader
  import opened ProfileReadBack

  // ----- the printed block -----

  /** Every text of the profile is one that the reader can make out. */
  ghost predicate Legible(p: Profile, printable: char -> bool, known: Escapes) {
    && Clear(p.url, printable, known) && Clear(p.clientID, printable, known) && AllClear(p.scopes, printable, known)
    && Clear(p.issuer, printable, known) && Clear(p.bearerEnv, printable, known)
    && forall k :: 0 <= k < |p.headers| ==> ClearHeader(p.headers[k], printable, known)
  }

  lemma SameLast<T>(a: seq<T>, b: seq<T>, x: T)
    ensures a + [x] == b + [x] <==> a == b
  {
    if a + [x] == b + [x] {
      assert a == (a + [x])[..|a|] && b == (b + [x])[..|b|];
    }
  }

  ghost predicate ClearHeader(h: (string, string), printable: char -> bool, known: Escapes) {
    Clear(h.0, printable, known) && Clear(h.1, printable, known)
  }

  lemma {:induction false} AllHeadersSeen(headers: seq<(string, string)>, printable: char -> bool, known: Escapes)
    ensures |SeenHeaders(headers, printable, known)| <= |headers|
    ensures SeenHeaders(headers, printable, known) == headers <==>
      forall k :: 0 <= k < |headers| ==> ClearHeader(headers[k], printable, known)
    decreases |headers|
  {
    hide Clear;
    if headers != [] {
      var last := |headers| - 1;
      var before, h := headers[..last], headers[last];
      AllHeadersSeen(before, printable, known);
      SameLast(SeenHeaders(before, printable, known), before, h);
      assert headers == before + [h];
      assert (forall k :: 0 <= k < |headers| ==> ClearHeader(headers[k], printable, known)) <==>
        ClearHeader(h, printable, known) && forall k :: 0 <= k < last ==> ClearHeader(before[k], printable, known);
      if !ClearHeader(h, printable, known) {
        assert SeenHeaders(headers, printable, known) == SeenHeaders(before, printable, known);
      }
    }
  }

  lemma SeenWhen(p: Profile, printable: char -> bool, known: Escapes)
    ensures Seen(p, printable, known) == p <==> Legible(p, printable, known)
  {
    AllHeadersSeen(p.headers, printable, known);
    hide Known;
  }

  /** The printed block, for its own profile and for any other. */
  lemma BlockRead(name: string, p: Profile, printable: char -> bool, known: Escapes, r: Reading)
    requires PlainName(name) && r.profile == NOTHING
    ensures ReadLines(Block(name, p, printable), name, known, r).profile == Seen(p, printable, known)
  {
    hide ReadLine, Settings, HeaderLines, PlainName, TitleLine, HeadersTitleLine;
    var top, settings := ["\n", TitleLine(name)], Settings(p, printable);
    var q := Seen(p, printable, known).(headers := []);
    BlankRead(name, known, r);
    TitlePlace(name, known, r);
    TwoRead("\n", TitleLine(name), name, known, r);
    ReadAppend(top, settings, name, known, r);
    SettingsRead(p, printable, name, known);
    if p.headers == [] {
      assert Block(name, p, printable) == top + settings;
    } else {
      var under := ["\n", HeadersTitleLine(name)];
      ReadAppend(top + settings, under + HeaderLines(p.headers, printable), name, known, r);
      ReadAppend(under, HeaderLines(p.headers, printable), name, known, Reading(Main, q));
      BlankRead(name, known, Reading(Main, q));
      HeadersPlace(name, known, Reading(Main, q));
      TwoRead("\n", HeadersTitleLine(name), name, known, Reading(Main, q));
      HeadersRead(p.headers, printable, name, known, q);
      assert [] + SeenHeaders(p.headers, printable, known) == SeenHeaders(p.headers, printable, known);
    }
  }

  lemma BlankRead(name: string, known: Escapes, r: Reading)
    ensures ReadLine("\n", name, known, r) == r && ReadLine("", name, known, r) == r
  {
    NewlineIsBlank();
    HeadersAreNoNotes("", name);
  }

  lemma TwoRead(a: string, b: string, name: string, known: Escapes, r: Reading)
    ensures ReadLines([a, b], name, known, r) == ReadLine(b, name, known, ReadLine(a, name, known, r))
    ensures ReadLines([a], name, known, r) == ReadLine(a, name, known, r)
  {
    hide ReadLine;
    assert [a, b][1..] == [b] && [b][1..] == [] && [a][1..] == [];
    var q := ReadLine(a, name, known, r);
    assert ReadLines([b], name, known, q) == ReadLine(b, name, known, q);
  }

  // ----- lines that say nothing about a profile -----

  lemma SameRead(a: string, b: string, name: string, known: Escapes, r: Reading)
    requires TrimSpace(a) == TrimSpace(b)
    ensures ReadLine(a, name, known, r) == ReadLine(b, name, known, r)
  {
  }

  /** A missing LF at the end of the text makes no difference. */
  lemma CompletedRead(tail: seq<string>, name: string, known: Escapes, r: Reading)
    ensures ReadLines(Completed(tail), name, known, r) == ReadLines(tail, name, known, r)
  {
    hide ReadLine;
    var last := |tail| - 1;
    BlankRead(name, known, r);
    TwoRead("", "", name, known, r);
    if tail != [] && tail[last] != "" {
      var before := ReadLines(tail[..last], name, known, r);
      assert tail == tail[..last] + [tail[last]];
      ReadAppend(tail[..last], [tail[last]], name, known, r);
      ReadAppend(tail[..last], [tail[last] + "\n", ""], name, known, r);
      TrimIgnoresLF(tail[last]);
      SameRead(tail[last] + "\n", tail[last], name, known, before);
      TwoRead(tail[last], "", name, known, before);
      TwoRead(tail[last] + "\n", "", name, known, before);
      BlankRead(name, known, ReadLine(tail[last], name, known, before));
    }
  }

  lemma ClosedRead(text: string, name: string, known: Escapes, r: Reading)
    ensures ReadLines(Closed(text), name, known, r) == ReadLines(SplitAfter(text), name, known, r)
  {
    hide ReadLine, SplitAfter;
    var lines, n := SplitAfter(text), |SplitAfter(text)| - 1;
    var before := ReadLines(lines[..n], name, known, r);
    assert lines == lines[..n] + [lines[n]];
    ReadAppend(lines[..n], [lines[n]], name, known, r);
    ReadAppend(lines[..n], [lines[n] + "\n"], name, known, r);
    TrimIgnoresLF(lines[n]);
    SameRead(lines[n] + "\n", lines[n], name, known, before);
    TwoRead(lines[n], "", name, known, before);
    TwoRead(lines[n] + "\n", "", name, known, before);
  }

  /** Outside its tables nothing is said about a profile. */
  lemma QuietLine(line: string, name: string, known: Escapes, r: Reading)
    requires r.place.Elsewhere? && !Own(line, name)
    ensures ReadLine(line, name, known, r) == r
  {
    if !Note(line) && TableKey(line).Some? {
      ForeignPlaces(line, name, known, r);
    }
  }

  lemma {:induction false} QuietLines(lines: seq<string>, name: string, known: Escapes, r: Reading)
    requires r.place.Elsewhere? && forall k :: 0 <= k < |lines| ==> !Own(lines[k], name)
    ensures ReadLines(lines, name, known, r) == r
    decreases |lines|
  {
    hide ReadLine, Own;
    if lines != [] {
      QuietLine(lines[0], name, known, r);
      QuietLines(lines[1..], name, known, r);
    }
  }

  lemma {:induction false} NotesRead(lines: seq<string>, name: string, known: Escapes, r: Reading)
    requires forall k :: 0 <= k < |lines| ==> Note(lines[k])
    ensures ReadLines(lines, name, known, r) == r
    decreases |lines|
  {
    if lines != [] {
      NotesRead(lines[1..], name, known, r);
    }
  }

  // ----- the section of another profile -----

  lemma SectionLine(line: string, name: string, m: string, known: Escapes, r: Reading)
    requires m != name && !Foreign(line, name) && (r.place.Elsewhere? || Own(line, name))
    ensures ReadLine(line, m, known, r) == r.(place := Elsewhere)
  {
    if Own(line, name) {
      OwnPlaces(line, name, m, known, r);
    } else {
      assert TableKey(line).None?;
    }
  }

  lemma {:induction false} SectionRest(lines: seq<string>, name: string, m: string, known: Escapes, r: Reading)
    requires m != name && r.place.Elsewhere? && forall k :: 0 <= k < |lines| ==> !Foreign(lines[k], name)
    ensures ReadLines(lines, m, known, r) == r
    decreases |lines|
  {
    hide ReadLine, Foreign, Own;
    if lines != [] {
      SectionLine(lines[0], name, m, known, r);
      SectionRest(lines[1..], name, m, known, r);
    }
  }

  /** Blank lines, a header of the profile, and what belongs to it: for all others only the place is lost. */
  lemma SectionRead(lines: seq<string>, h: nat, name: string, m: string, known: Escapes, r: Reading)
    requires m != name && h < |lines| && Own(lines[h], name)
    requires forall k :: 0 <= k < h ==> Note(lines[k])
    requires forall k :: h <= k < |lines| ==> !Foreign(lines[k], name)
    ensures ReadLines(lines, m, known, r) == r.(place := Elsewhere)
  {
    hide ReadLine, Foreign, Own, Note;
    var q := r.(place := Elsewhere);
    assert lines == lines[..h] + lines[h..];
    ReadAppend(lines[..h], lines[h..], m, known, r);
    NotesRead(lines[..h], m, known, r);
    assert lines[h..][0] == lines[h];
    SectionLine(lines[h], name, m, known, r);
    SectionRest(lines[h..][1..], name, m, known, q);
  }

  /** Before the next header only notes: it does not matter in whose table they stand. */
  lemma PlaceForgotten(lines: seq<string>, n: nat, name: string, known: Escapes, r: Reading, place: Place)
    requires n <= |lines| && (n < |lines| ==> TableKey(lines[n]).Some?)
    requires forall k :: 0 <= k < n ==> Note(lines[k])
    ensures ReadLines(lines, name, known, r).profile == ReadLines(lines, name, known, r.(place := place)).profile
  {
    hide ReadLine, Note, TableKey;
    var q := r.(place := place);
    assert lines == lines[..n] + lines[n..];
    ReadAppend(lines[..n], lines[n..], name, known, r);
    ReadAppend(lines[..n], lines[n..], name, known, q);
    NotesRead(lines[..n], name, known, r);
    NotesRead(lines[..n], name, known, q);
    if n < |lines| {
      HeaderForgets(lines[n], name, known, r, place);
      assert lines[n..][0] == lines[n];
    }
  }

  lemma HeaderForgets(line: string, name: string, known: Escapes, r: Reading, place: Place)
    requires TableKey(line).Some?
    ensures ReadLine(line, name, known, r) == ReadLine(line, name, known, r.(place := place))
  {
    NotANote(line);
  }

  // ----- the whole file -----

  /** Installing a new profile leaves every other profile as it reads. */
  lemma AppendingKeepsOthers(text: string, name: string, block: seq<string>, m: string, known: Escapes)
    requires BlockOf(block, name) && m != name
    ensures ReadProfile(text + Join(block), m, known) == ReadProfile(text, m, known)
  {
    hide ReadLine, Own, Foreign, Note, SplitAfter, Join, Closed, IsLine;
    var r0 := Reading(Elsewhere, NOTHING);
    AppendedLines(text, block, name);
    ReadAppend(Closed(text) + block[1..], [""], m, known, r0);
    ReadAppend(Closed(text), block[1..], m, known, r0);
    ClosedRead(text, m, known, r0);
    var r := ReadLines(SplitAfter(text), m, known, r0);
    SectionRead(block[1..], 0, name, m, known, r);
    BlankRead(m, known, r.(place := Elsewhere));
    TwoRead("", "", m, known, r.(place := Elsewhere));
  }

  /** And what is installed is there, exactly when its reader can make it out: with the escapes of Go, always. */
  lemma InstalledReadsBackWhen(text: string, name: string, p: Profile, printable: char -> bool, known: Escapes)
    requires PlainName(name) && !HasOwn(SplitAfter(text), name)
    ensures ReadProfile(text + Join(Block(name, p, printable)), name, known) == p <==> Legible(p, printable, known)
    ensures known == GO_STRING ==> Legible(p, printable, known)
  {
    hide ReadLine, Own, Foreign, Note, SplitAfter, Join, Closed, IsLine, PlainName, Block, Clear, BlockOf, Seen;
    var block := Block(name, p, printable);
    var r0 := Reading(Elsewhere, NOTHING);
    PrintedBlock(name, p, printable);
    BlockShape(name, p, printable);
    AppendedLines(text, block, name);
    ReadAppend(Closed(text) + block[1..], [""], name, known, r0);
    ReadAppend(Closed(text), block[1..], name, known, r0);
    ClosedRead(text, name, known, r0);
    QuietLines(SplitAfter(text), name, known, r0);
    BlockRead(name, p, printable, known, r0);
    BlankRead(name, known, r0);
    var r := ReadLines(block, name, known, r0);
    BlankRead(name, known, r);
    TwoRead("", "", name, known, r);
    SeenWhen(p, printable, known);
    if known == GO_STRING {
      AlwaysLegible(p, printable);
    }
  }

  /** TOML has no escape \a: a profile with a bell in its URL is written, and its URL never read again. */
  lemma BellIsNotRead(printable: char -> bool, known: Escapes)
    requires known == TOML_1_0 || known == TOML_1_1
    ensures var p := Profile("\U{7}", "", 0, [], "", "", []);
      ReadProfile(Join(Block("a", p, printable)), "a", known) != p
  {
    var p := Profile("\U{7}", "", 0, [], "", "", []);
    EmptyHasNone("a");
    assert !Known(p.url[0], printable, known) && p.url[0] in p.url;
    assert PlainName("a");
    hide PlainName, ReadProfile, HasOwn, SplitAfter, Join, Block;
    InstalledReadsBackWhen("", "a", p, printable, known);
    assert "" + Join(Block("a", p, printable)) == Join(Block("a", p, printable));
  }

  lemma EmptyHasNone(name: string)
    ensures !HasOwn(SplitAfter(""), name)
  {
    HeadersAreNoNotes("", name);
  }

  lemma BlockShape(name: string, p: Profile, printable: char -> bool)
    requires PlainName(name)
    ensures |Block(name, p, printable)| >= 2 && Block(name, p, printable)[0] == "\n"
    ensures AreLines(Block(name, p, printable))
  {
    PrintedBlock(name, p, printable);
  }

  lemma AlwaysLegible(p: Profile, printable: char -> bool)
    ensures Legible(p, printable, GO_STRING)
  {
  }

  /** The lines a splice takes out, and those it leaves below. */
  lemma CutIs(lines: seq<string>, name: string, dropping: bool) returns (h: nat, e: nat)
    requires HasOwn(lines, name)
    ensures var c := Find(lines, name, dropping);
      && c.start <= h < c.end <= e <= |lines|
      && Own(lines[h], name) && (forall k :: c.start <= k < h ==> Note(lines[k]))
      && (forall k :: h <= k < e ==> !Foreign(lines[k], name)) && (forall k :: c.end <= k < e ==> Note(lines[k]))
      && (forall k :: 0 <= k < c.start ==> !Own(lines[k], name))
      && (e < |lines| ==> Foreign(lines[e], name)) && e == FindForeign(lines, name, FindOwn(lines, name, 0))
  {
    hide Own, Foreign, TrimSpace;
    var start, end;
    start, h, end, e := SiteExists(lines, name);
    CutsAtSite(lines, name, start, h, end, e, dropping);
    LowIsBelow(lines, name, start, h, end, e);
  }

  /** Before the cut, in the cut, and behind it. */
  lemma ThreeRead(lines: seq<string>, a: nat, b: nat, name: string, known: Escapes, r: Reading)
    requires a <= b <= |lines|
    ensures var r1 := ReadLines(lines[..a], name, known, r);
      ReadLines(lines, name, known, r) == ReadLines(lines[b..], name, known, ReadLines(lines[a..b], name, known, r1))
  {
    hide ReadLine;
    assert lines == lines[..a] + lines[a..b] + lines[b..];
    ReadAppend(lines[..a] + lines[a..b], lines[b..], name, known, r);
    ReadAppend(lines[..a], lines[a..b], name, known, r);
  }

  lemma WrittenRead(
    src: string, name: string, block: seq<string>, m: string, known: Escapes, r: Reading)
    requires HasOwn(SplitAfter(src), name) && AreLines(block)
    ensures var lines := SplitAfter(src); var c := Find(lines, name, Join(block) == "");
      ReadLines(SplitAfter(Splice(src, name, Join(block)).out), m, known, r) ==
      ReadLines(lines[c.end..], m, known, ReadLines(block, m, known, ReadLines(lines[..c.start], m, known, r)))
  {
    hide ReadLine, SplitAfter, Join, Find, Completed, IsLine, Splice;
    var lines := SplitAfter(src);
    var c := Find(lines, name, Join(block) == "");
    WrittenLines(src, name, block);
    ReadAppend(lines[..c.start] + block, Completed(lines[c.end..]), m, known, r);
    ReadAppend(lines[..c.start], block, m, known, r);
    CompletedRead(lines[c.end..], m, known, ReadLines(lines[..c.start] + block, m, known, r));
  }

  /** What replaces a profile's section, or nothing when it is dropped. */
  ghost predicate NewSection(block: seq<string>, name: string) { block == [] || BlockOf(block, name) }

  /** For any other profile the cut takes away nothing but the place. */
  lemma CutRead(lines: seq<string>, c: Cut, h: nat, name: string, m: string, known: Escapes)
    requires c.start <= h < c.end <= |lines| && Own(lines[h], name) && m != name
    requires forall k :: c.start <= k < h ==> Note(lines[k])
    requires forall k :: h <= k < c.end ==> !Foreign(lines[k], name)
    ensures var r := ReadLines(lines[..c.start], m, known, Reading(Elsewhere, NOTHING));
      ReadLines(lines, m, known, Reading(Elsewhere, NOTHING)) == ReadLines(lines[c.end..], m, known, r.(place := Elsewhere))
  {
    hide ReadLine, Own, Foreign, Note;
    var r0 := Reading(Elsewhere, NOTHING);
    ThreeRead(lines, c.start, c.end, m, known, r0);
    SectionRead(lines[c.start..c.end], h - c.start, name, m, known, ReadLines(lines[..c.start], m, known, r0));
  }

  lemma TailForgets(lines: seq<string>, from: nat, e: nat, name: string, m: string, known: Escapes, r: Reading)
    requires from <= e <= |lines| && (forall k :: from <= k < e ==> Note(lines[k])) && (e < |lines| ==> Foreign(lines[e], name))
    ensures ReadLines(lines[from..], m, known, r).profile == ReadLines(lines[from..], m, known, r.(place := Elsewhere)).profile
  {
    hide ReadLine, Note, TableKey, Foreign;
    if e < |lines| {
      ForeignIsHeader(lines[e], name);
      assert lines[from..][e - from] == lines[e];
    }
    PlaceForgotten(lines[from..], e - from, m, known, r, Elsewhere);
  }

  /** An update or an uninstall leaves every other profile as it reads. */
  lemma SplicingKeepsOthers(src: string, name: string, block: seq<string>, m: string, known: Escapes)
    requires HasOwn(SplitAfter(src), name) && NewSection(block, name) && m != name
    ensures ReadProfile(Splice(src, name, Join(block)).out, m, known) == ReadProfile(src, m, known)
  {
    hide ReadLine, Own, Foreign, Note, SplitAfter, Join, Find, IsLine, Splice, TableKey;
    var lines, r0 := SplitAfter(src), Reading(Elsewhere, NOTHING);
    var c := Find(lines, name, Join(block) == "");
    var h, e := CutIs(lines, name, Join(block) == "");
    var r := ReadLines(lines[..c.start], m, known, r0);
    CutRead(lines, c, h, name, m, known);
    WrittenRead(src, name, block, m, known, r0);
    if block != [] {
      BlankIsNote();
      SectionRead(block, 1, name, m, known, r);
    } else {
      TailForgets(lines, c.end, e, name, m, known, r);
    }
  }

  lemma BlankIsNote()
    ensures Note("\n")
  {
    NewlineIsBlank();
  }

  lemma ForeignIsHeader(line: string, name: string)
    requires Foreign(line, name)
    ensures TableKey(line).Some? && !Own(line, name)
  {
  }

  /** Below the cut nothing is said about the profile, unless it had headers beyond the next other table. */
  lemma TailIsSilent(lines: seq<string>, from: nat, e: nat, name: string, known: Escapes, r: Reading)
    requires from <= e <= |lines| && (forall k :: from <= k < e ==> Note(lines[k])) && (e < |lines| ==> Foreign(lines[e], name))
    requires forall k :: e <= k < |lines| ==> !Own(lines[k], name)
    ensures ReadLines(lines[from..], name, known, r).profile == r.profile
  {
    hide ReadLine, Own, Foreign, Note;
    var notes, rest := lines[from..e], lines[e..];
    assert lines[from..] == notes + rest;
    ReadAppend(notes, rest, name, known, r);
    NotesRead(notes, name, known, r);
    if rest != [] {
      ForeignPlaces(rest[0], name, known, r);
      QuietLines(rest[1..], name, known, r.(place := Elsewhere));
    }
  }

  /** No header of the profile stands beyond the next table that is not its own. */
  ghost predicate InOnePlace(src: string, name: string) {
    var lines := SplitAfter(src);
    forall k :: FindForeign(lines, name, FindOwn(lines, name, 0)) <= k < |lines| ==> !Own(lines[k], name)
  }

  lemma SplicedRead(src: string, name: string, block: seq<string>, known: Escapes)
    requires HasOwn(SplitAfter(src), name) && InOnePlace(src, name) && AreLines(block)
    ensures ReadProfile(Splice(src, name, Join(block)).out, name, known) ==
      ReadLines(block, name, known, Reading(Elsewhere, NOTHING)).profile
  {
    hide ReadLine, Own, Foreign, Note, SplitAfter, Join, Find, IsLine, Splice, TableKey;
    var lines, r0 := SplitAfter(src), Reading(Elsewhere, NOTHING);
    var c := Find(lines, name, Join(block) == "");
    var h, e := CutIs(lines, name, Join(block) == "");
    WrittenRead(src, name, block, name, known, r0);
    QuietLines(lines[..c.start], name, known, r0);
    TailIsSilent(lines, c.end, e, name, known, ReadLines(block, name, known, r0));
  }

  /** An updated profile reads as it was meant, exactly when its reader can make it out. */
  lemma UpdatedReadsBackWhen(src: string, name: string, p: Profile, printable: char -> bool, known: Escapes)
    requires PlainName(name) && HasOwn(SplitAfter(src), name) && InOnePlace(src, name)
    ensures ReadProfile(Splice(src, name, Join(Block(name, p, printable))).out, name, known) == p <==> Legible(p, printable, known)
  {
    hide ReadLine, PlainName, Block, Splice, SplitAfter, Join, Clear, Seen, IsLine, Own, InOnePlace, ReadProfile;
    BlockShape(name, p, printable);
    SplicedRead(src, name, Block(name, p, printable), known);
    BlockRead(name, p, printable, known, Reading(Elsewhere, NOTHING));
    SeenWhen(p, printable, known);
  }

  /** Of an uninstalled profile nothing is left. */
  lemma UninstalledReadsEmpty(src: string, name: string, known: Escapes)
    requires HasOwn(SplitAfter(src), name) && InOnePlace(src, name)
    ensures ReadProfile(Splice(src, name, "").out, name, known) == NOTHING
  {
    hide ReadLine, Splice, SplitAfter, Own, InOnePlace, ReadProfile;
    SplicedRead(src, name, [], known);
  }
}
