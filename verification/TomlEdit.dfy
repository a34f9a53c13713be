/**
  The surgical edit of config.toml (pkg/app/tomledit.go): one profile's block
  of lines is found, replaced or dropped, and every other line is left alone.
*/
module TomlEdit {
  import opened Wrappers
  import opened TextLines

  // ----- one line -----

  predicate Blank(line: string) { TrimSpace(line) == "" }

  predicate Comment(line: string) { TrimSpace(line) != "" && TrimSpace(line)[0] == '#' }

  /** A blank or comment line. */
  predicate Note(line: string) { Blank(line) || Comment(line) }

  /** tableKey: the key of a table header line. */
  function TableKey(line: string): Option<string> {
    var s := TrimSpace(line);
    if s == "" || s[0] != '[' then None
    else
      var k := IndexOf(s[1..], ']');
      if k == |s[1..]| then None else Some(TrimSpace(s[1..][..k]))
  }

  predicate IsQuote(c: char) { c == '"' || c == '\'' }

  /** The parts of the rest of a dotted key, given the part begun so far and the quote it is in. */
  function Parts(key: string, cur: string, quote: Option<char>): (parts: seq<string>)
    ensures parts != []
    decreases |key|
  {
    if key == "" then [TrimSpace(cur)]
    else if quote.Some? then
      if key[0] == quote.value then Parts(key[1..], cur, None) else Parts(key[1..], cur + [key[0]], quote)
    else if IsQuote(key[0]) then Parts(key[1..], cur, Some(key[0]))
    else if key[0] == '.' then [TrimSpace(cur)] + Parts(key[1..], "", None)
    else Parts(key[1..], cur + [key[0]], None)
  }

  method SplitTOMLKey(key: string) returns (parts: seq<string>)
    ensures parts == Parts(key, "", None)
  {
    var cur: string, quote: Option<char>, k := "", None, 0;
    parts := [];
    while k < |key|
      invariant k <= |key| && parts + Parts(key[k..], cur, quote) == Parts(key, "", None)
    {
      var r := key[k];
      assert key[k..][1..] == key[k + 1..];
      if quote.Some? {
        if r == quote.value {
          quote := None;
        } else {
          cur := cur + [r];
        }
      } else if r == '"' || r == '\'' {
        quote := Some(r);
      } else if r == '.' {
        assert parts + ([TrimSpace(cur)] + Parts(key[k + 1..], "", None)) == (parts + [TrimSpace(cur)]) + Parts(key[k + 1..], "", None);
        parts := parts + [TrimSpace(cur)];
        cur := "";
      } else {
        cur := cur + [r];
      }
      k := k + 1;
    }
    parts := parts + [TrimSpace(cur)];
  }

  /** profileSection, on the parts of the key. */
  predicate Addresses(parts: seq<string>, name: string) {
    |parts| >= 2 && parts[0] == "profiles" && parts[1] == name
  }

  /** A header of [profiles.<name>] or of a table nested in it. */
  predicate Own(line: string, name: string) {
    TableKey(line).Some? && Addresses(Parts(TableKey(line).value, "", None), name)
  }

  /** A header of any other table. */
  predicate Foreign(line: string, name: string) {
    TableKey(line).Some? && !Own(line, name)
  }

  // ----- where the block is -----

  /** The first own header at or after i, or the end. */
  function FindOwn(lines: seq<string>, name: string, i: nat): (h: nat)
    requires i <= |lines|
    ensures i <= h <= |lines| && (h < |lines| ==> Own(lines[h], name))
    ensures forall k :: i <= k < h ==> !Own(lines[k], name)
    decreases |lines| - i
  {
    if i == |lines| || Own(lines[i], name) then i else FindOwn(lines, name, i + 1)
  }

  /** The first foreign header at or after i, or the end. */
  function FindForeign(lines: seq<string>, name: string, i: nat): (e: nat)
    requires i <= |lines|
    ensures i <= e <= |lines| && (e < |lines| ==> Foreign(lines[e], name))
    ensures forall k :: i <= k < e ==> !Foreign(lines[k], name)
    decreases |lines| - i
  {
    if i == |lines| || Foreign(lines[i], name) then i else FindForeign(lines, name, i + 1)
  }

  /** Back over the blank lines above i. */
  function BackOverBlank(lines: seq<string>, i: nat): (start: nat)
    requires i <= |lines|
    ensures start <= i && (start > 0 ==> !Blank(lines[start - 1]))
    ensures forall k :: start <= k < i ==> Blank(lines[k])
    decreases i
  {
    if i > 0 && Blank(lines[i - 1]) then BackOverBlank(lines, i - 1) else i
  }

  /** Back over the blank and comment lines above i, down to `lo`. */
  function BackOverNotes(lines: seq<string>, lo: nat, i: nat): (end: nat)
    requires lo <= i <= |lines|
    ensures lo <= end <= i && (end > lo ==> !Note(lines[end - 1]))
    ensures forall k :: end <= k < i ==> Note(lines[k])
    decreases i
  {
    if i > lo && Note(lines[i - 1]) then BackOverNotes(lines, lo, i - 1) else i
  }

  function OverBlank(lines: seq<string>, i: nat): (end: nat)
    requires i <= |lines|
    ensures i <= end <= |lines| && (end < |lines| ==> !Blank(lines[end]))
    ensures forall k :: i <= k < end ==> Blank(lines[k])
    decreases |lines| - i
  {
    if i < |lines| && Blank(lines[i]) then OverBlank(lines, i + 1) else i
  }

  /** The lines [start..end) that go: all of them when there is no such profile. */
  datatype Cut = Cut(start: nat, end: nat)

  function Find(lines: seq<string>, name: string, dropping: bool): (c: Cut)
    requires exists k :: 0 <= k < |lines| && Own(lines[k], name)
    ensures c.start <= c.end <= |lines|
  {
    var h := FindOwn(lines, name, 0);
    var e := FindForeign(lines, name, h);
    var start := BackOverBlank(lines, h);
    var end := BackOverNotes(lines, start, e);
    Cut(start, if start == 0 && dropping then OverBlank(lines, end) else end)
  }

  function Ended(out: string): string {
    if out != "" && out[|out| - 1] != '\n' then out + "\n" else out
  }

  datatype Spliced = Spliced(out: string, ok: bool)

  predicate HasOwn(lines: seq<string>, name: string) {
    exists k :: 0 <= k < |lines| && Own(lines[k], name)
  }

  function Splice(src: string, name: string, block: string): Spliced {
    var lines := SplitAfter(src);
    if !HasOwn(lines, name) then Spliced(src, false)
    else
      var c := Find(lines, name, block == "");
      Spliced(Ended(Join(lines[..c.start]) + block + Join(lines[c.end..])), true)
  }

  /** spliceProfileBlock */
  method SpliceProfileBlock(src: string, name: string, block: string) returns (out: string, ok: bool)
    ensures Spliced(out, ok) == Splice(src, name, block)
  {
    hide Own, Foreign, TableKey, TrimSpace, SplitAfter, Join;
    var lines := SplitAfter(src);
    var header, end := FindSection(lines, name);
    if header < 0 {
      return src, false;
    }
    var start := RetreatBlank(lines, header);
    end := RetreatNotes(lines, start, end);
    if start == 0 && block == "" {
      end := SkipBlank(lines, end);
    }
    out := Join(lines[..start]) + block + Join(lines[end..]);
    if out != "" && out[|out| - 1] != '\n' {
      out := out + "\n";
    }
    ok := true;
  }

  method RetreatBlank(lines: seq<string>, from: nat) returns (start: nat)
    requires from <= |lines|
    ensures start == BackOverBlank(lines, from)
  {
    hide Blank;
    start := from;
    while start > 0 && Blank(lines[start - 1])
      invariant start <= from && BackOverBlank(lines, start) == BackOverBlank(lines, from)
    {
      start := start - 1;
    }
  }

  method RetreatNotes(lines: seq<string>, start: nat, from: nat) returns (end: nat)
    requires start <= from <= |lines|
    ensures end == BackOverNotes(lines, start, from)
  {
    hide Blank, Comment;
    end := from;
    while end > start && (Blank(lines[end - 1]) || Comment(lines[end - 1]))
      invariant start <= end <= from && BackOverNotes(lines, start, end) == BackOverNotes(lines, start, from)
    {
      end := end - 1;
    }
  }

  method SkipBlank(lines: seq<string>, from: nat) returns (end: nat)
    requires from <= |lines|
    ensures end == OverBlank(lines, from)
  {
    hide Blank;
    end := from;
    while end < |lines| && Blank(lines[end])
      invariant from <= end <= |lines| && OverBlank(lines, end) == OverBlank(lines, from)
    {
      end := end + 1;
    }
  }

  /** The first own header, and the foreign header or the end that ends its section; -1 when there is none. */
  method FindSection(lines: seq<string>, name: string) returns (start: int, end: nat)
    ensures start < 0 <==> !HasOwn(lines, name)
    ensures start >= 0 ==> start <= end <= |lines| && start == FindOwn(lines, name, 0) && end == FindForeign(lines, name, start)
  {
    start, end := -1, |lines|;
    var i := 0;
    while i < |lines|
      invariant i <= |lines| == end
      invariant start < 0 ==> FindOwn(lines, name, i) == FindOwn(lines, name, 0) && (forall k :: 0 <= k < i ==> !Own(lines[k], name))
      invariant start >= 0 ==> start < i && start == FindOwn(lines, name, 0) && FindForeign(lines, name, start) == FindForeign(lines, name, i)
      invariant start >= 0 ==> Own(lines[start], name)
    {
      var key := TableKey(lines[i]);
      if key.Some? {
        var parts := SplitTOMLKey(key.value);
        if Addresses(parts, name) {
          if start < 0 {
            start := i;
          }
        } else if start >= 0 {
          end := i;
          return;
        }
      }
      i := i + 1;
    }
  }
}
