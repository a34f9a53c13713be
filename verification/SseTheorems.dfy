/**
  What the reader promises: the events of the standard, and the events a
  server printed, also when only part of what it printed arrives.
*/
module SseTheorems {
  import opened EventStream
  import opened Sse

  // ----- the reader, over a whole stream -----

  /** Next until it has nothing more, as the loops over a response body do. */
  method ReadAll(input: string, end: End) returns (events: seq<Event>, last: Next)
    ensures events == Events(input, end, "")
    ensures last == if end.Eof? then Ended else Failed
  {
    hide Events;
    var reader := new Reader(input, end);
    assert reader.Rest() == input;
    events, last := [], Ended;
    while true
      invariant reader.Valid() && reader.input == input && reader.end == end
      invariant events + Events(reader.Rest(), end, reader.lastID) == Events(input, end, "")
      decreases |input| - reader.pos
    {
      last := reader.Next();
      if !last.Got? {
        return;
      }
      events := events + [last.event];
    }
  }

  // ----- against the standard -----

  /** The buffers of the standard once the stream has ended, with a last line that no line end follows taken as a line. */
  ghost function AtEnd(s: string, id: string): Buffers {
    Fold(Buffers("", id, []), Pieces(s))
  }

  /**
    On a stream without a bare CR or a leading byte order mark the reader finds the events of the
    standard.  A read error leaves it at those; at a clean end it also
    delivers the one event, if any, that no blank line terminated.
  */
  lemma ReaderFollowsStandard(s: string, id: string)
    requires NoBareCR(s) && !(BOM <= s)
    ensures Events(s, Broken, id) == Standard(s, id)
    ensures Events(s, Eof, id) == Dispatch(AtEnd(s, id)).sent
    ensures Standard(s, id) <= Events(s, Eof, id)
    ensures AtEnd(s, id).data == "" ==> Events(s, Eof, id) == AtEnd(s, id).sent
    ensures AtEnd(s, id).data != "" ==> |Events(s, Eof, id)| == |AtEnd(s, id).sent| + 1
  {
    LfLinesAreStandard(s);
    var p, b := Pieces(s), Buffers("", id, []);
    FoldAppends(b, p, [""]);
    assert [""][1..] == [];
    assert (p + [""])[..|p| - 1] == p[..|p| - 1];
    FoldGrows(b, p + [""], |p| - 1);
  }

  /** A CR on its own ends a line by the standard, but not for the reader: here it misses an event. */
  lemma BareCRIsMissed()
    ensures Standard("data\r\n\r", "") == [Event("", "")]
    ensures Events("data\r\n\r", Broken, "") == []
  {
    hide Pieces, LfPieces, Fold, Interpret;
    var b := Buffers("", "", []);
    BareCRLines();
    TwoLines(b, "data");
    OneLine(b, "data");
    DataAlone(b);
    NotMarked();
    assert Lines("data\r\n\r", Broken) == ["data"];
  }

  lemma NotMarked()
    ensures Decoded("data\r\n\r") == "data\r\n\r"
  {
    assert BOM[0] == '\U{EF}' && "data\r\n\r"[0] == 'd';
  }

  lemma OneLine(b: Buffers, line: string)
    ensures Fold(b, [line]) == Interpret(b, line)
  {
    assert [line][1..] == [];
  }

  lemma DataAlone(b: Buffers)
    ensures Interpret(b, "data") == b.(data := b.data + "" + "\n")
  {
    assert Colon("data") == |"data"|;
  }

  lemma BareCRLines()
    ensures Pieces("data\r\n\r") == ["data", "", ""]
    ensures LfPieces("data\r\n\r") == ["data", ""]
  {
    assert "\r\n\r"[2..] == "\r" && "\r"[1..] == "";
    assert Pieces("\r\n\r") == ["", "", ""] && LfPieces("\r\n\r") == ["", ""];
    PlainText("data", "\r\n\r");
    assert "data" + "\r\n\r" == "data\r\n\r" && "data" + "" == "data";
  }

  lemma TwoLines(b: Buffers, line: string)
    ensures Fold(b, [line, "", ""][..2]) == Dispatch(Interpret(b, line))
  {
    assert [line, "", ""][..2][1..] == [""] && [""][1..] == [];
  }

  lemma {:induction false} PlainText(text: string, s: string)
    requires '\r' !in text && '\n' !in text
    ensures Pieces(text + s) == [text + Pieces(s)[0]] + Pieces(s)[1..]
    ensures LfPieces(text + s) == [text + LfPieces(s)[0]] + LfPieces(s)[1..]
  {
    if text == "" {
      assert text + s == s && text + Pieces(s)[0] == Pieces(s)[0] && text + LfPieces(s)[0] == LfPieces(s)[0];
    } else {
      assert (text + s)[0] == text[0] && (text + s)[1..] == text[1..] + s;
      PlainText(text[1..], s);
      assert [text[0]] + (text[1..] + Pieces(s)[0]) == text + Pieces(s)[0];
      assert [text[0]] + (text[1..] + LfPieces(s)[0]) == text + LfPieces(s)[0];
    }
  }

  // ----- printing -----

  function Unlines(lines: seq<string>): string
    decreases |lines|
  {
    if lines == [] then "" else lines[0] + "\n" + Unlines(lines[1..])
  }

  /** The pieces between the LFs of an event's data. */
  function DataLines(data: string): (lines: seq<string>)
    ensures |lines| > 0
    decreases |data|
  {
    if data == "" then [""]
    else if data[0] == '\n' then [""] + DataLines(data[1..])
    else
      var p := DataLines(data[1..]);
      [[data[0]] + p[0]] + p[1..]
  }

  function Prefixed(lines: seq<string>): seq<string>
    decreases |lines|
  {
    if lines == [] then [] else ["data: " + lines[0]] + Prefixed(lines[1..])
  }

  function EventLines(e: Event): seq<string> {
    ["id: " + e.id] + Prefixed(DataLines(e.data)) + [""]
  }

  function AllLines(events: seq<Event>): seq<string>
    decreases |events|
  {
    if events == [] then [] else EventLines(events[0]) + AllLines(events[1..])
  }

  /** An id line, a data line for every line of data, a blank line. */
  function Print(events: seq<Event>): string {
    Unlines(AllLines(events))
  }

  predicate Printable(e: Event) {
    && '\r' !in e.data
    && '\r' !in e.id && '\n' !in e.id && '\0' !in e.id
  }

  ghost predicate Clean(lines: seq<string>) {
    forall k :: 0 <= k < |lines| ==> '\n' !in lines[k] && '\r' !in lines[k]
  }

  lemma DataLine(b: Buffers, value: string)
    ensures Interpret(b, "data: " + value) == b.(data := b.data + value + "\n")
  {
    ColonAt("data", " " + value);
    assert "data: " + value == "data" + ":" + (" " + value);
  }

  lemma IdLine(b: Buffers, id: string)
    requires '\0' !in id
    ensures Interpret(b, "id: " + id) == b.(id := id)
  {
    ColonAt("id", " " + id);
    assert "id: " + id == "id" + ":" + (" " + id);
  }

  lemma {:induction false} ColonAt(field: string, value: string)
    requires ':' !in field
    ensures Colon(field + ":" + value) == |field|
    ensures (field + ":" + value)[..|field|] == field && (field + ":" + value)[|field| + 1..] == value
  {
    if field != "" {
      assert (field + ":" + value)[1..] == field[1..] + ":" + value;
      ColonAt(field[1..], value);
    }
  }

  lemma {:induction false} DataLinesClean(data: string)
    requires '\r' !in data
    ensures Clean(DataLines(data)) && Unlines(DataLines(data)) == data + "\n"
    decreases |data|
  {
    if data != "" {
      DataLinesClean(data[1..]);
      var p := DataLines(data[1..]);
      if data[0] == '\n' {
        assert ([""] + p)[1..] == p;
        assert "" + "\n" + Unlines(p) == ['\n'] + Unlines(p);
      } else {
        assert DataLines(data)[1..] == p[1..];
        assert ([data[0]] + p[0]) + "\n" + Unlines(p[1..]) == [data[0]] + Unlines(p);
      }
      assert data + "\n" == [data[0]] + (data[1..] + "\n");
    }
  }

  lemma {:induction false} PrefixedClean(lines: seq<string>)
    requires Clean(lines)
    ensures Clean(Prefixed(lines))
    decreases |lines|
  {
    if lines != [] {
      PrefixedClean(lines[1..]);
    }
  }

  lemma {:induction false} AllClean(events: seq<Event>)
    requires forall e :: e in events ==> Printable(e)
    ensures Clean(AllLines(events))
    decreases |events|
  {
    if events != [] {
      assert events[0] in events;
      DataLinesClean(events[0].data);
      PrefixedClean(DataLines(events[0].data));
      AllClean(events[1..]);
    }
  }

  lemma {:induction false} UnlinesRead(lines: seq<string>)
    requires Clean(lines)
    ensures LfPieces(Unlines(lines)) == lines + [""]
    decreases |lines|
  {
    if lines != [] {
      UnlinesRead(lines[1..]);
      FirstLine(lines[0], Unlines(lines[1..]));
      assert lines + [""] == [lines[0]] + (lines[1..] + [""]);
    }
  }

  lemma {:induction false} FoldPrefixed(b: Buffers, lines: seq<string>)
    ensures Fold(b, Prefixed(lines)) == b.(data := b.data + Unlines(lines))
    decreases |lines|
  {
    hide Interpret;
    if lines != [] {
      DataLine(b, lines[0]);
      assert (["data: " + lines[0]] + Prefixed(lines[1..]))[1..] == Prefixed(lines[1..]);
      FoldPrefixed(b.(data := b.data + lines[0] + "\n"), lines[1..]);
      assert b.data + lines[0] + "\n" + Unlines(lines[1..]) == b.data + Unlines(lines);
    } else {
      assert b.data + "" == b.data;
    }
  }

  lemma FoldEvent(id: string, sent: seq<Event>, e: Event)
    requires Printable(e)
    ensures Fold(Buffers("", id, sent), EventLines(e)) == Buffers("", e.id, sent + [e])
  {
    var b, head, body := Buffers("", id, sent), ["id: " + e.id], Prefixed(DataLines(e.data));
    FoldAppends(b, head + body, [""]);
    FoldAppends(b, head, body);
    IdLine(b, e.id);
    assert head[1..] == [] && [""][1..] == [];
    FoldPrefixed(b.(id := e.id), DataLines(e.data));
    DataLinesClean(e.data);
    assert "" + (e.data + "\n") == e.data + "\n";
    assert (e.data + "\n")[..|e.data|] == e.data;
  }

  lemma {:induction false} FoldAll(id: string, sent: seq<Event>, events: seq<Event>)
    requires forall e :: e in events ==> Printable(e)
    ensures Fold(Buffers("", id, sent), AllLines(events)).sent == sent + events
    ensures Fold(Buffers("", id, sent), AllLines(events)).data == ""
    decreases |events|
  {
    hide EventLines, Interpret, Printable;
    if events != [] {
      assert events[0] in events;
      FoldAppends(Buffers("", id, sent), EventLines(events[0]), AllLines(events[1..]));
      FoldEvent(id, sent, events[0]);
      FoldAll(events[0].id, sent + [events[0]], events[1..]);
      assert sent + [events[0]] + events[1..] == sent + events;
    }
  }

  /** Reading what was printed gives the events back, in whichever way the stream ends. */
  lemma PrintReadRoundTrip(events: seq<Event>, end: End, id: string)
    requires forall e :: e in events ==> Printable(e)
    ensures Events(Print(events), end, id) == events
  {
    var lines, b := AllLines(events), Buffers("", id, []);
    AllClean(events);
    UnlinesRead(lines);
    FoldAll(id, [], events);
    assert (lines + [""])[..|lines|] == lines;
    assert (lines + [""]) + [""] == lines + ["", ""];
    FoldAppends(b, lines, ["", ""]);
    EndOfFold(false, "", Fold(b, lines).id, Eof);
    FoldShifts(Pending(false, "", Fold(b, lines).id), events, ["", ""]);
    assert Fold(b, lines) == Pending(false, "", Fold(b, lines).id).(sent := events + []);
  }

  // ----- streams that break off -----

  /** One more character in front of the first line of both. */
  lemma LongerLines(p: seq<string>, q: seq<string>, c: char)
    requires p != [] && q != [] && p[..|p| - 1] <= q[..|q| - 1]
    ensures ([[c] + p[0]] + p[1..])[..|p| - 1] <= ([[c] + q[0]] + q[1..])[..|q| - 1]
  {
    if |p| > 1 {
      var a, b := p[..|p| - 1], q[..|q| - 1];
      assert a[0] == b[0] && a[1..] <= b[1..];
      assert ([[c] + p[0]] + p[1..])[..|p| - 1] == [[c] + a[0]] + a[1..];
      assert ([[c] + q[0]] + q[1..])[..|q| - 1] == [[c] + b[0]] + b[1..];
    }
  }

  /** The complete lines of the first k characters are the first lines of the whole. */
  ghost predicate CutFits(s: string, k: nat)
    requires k <= |s|
  {
    Lines(s[..k], Broken) <= LfPieces(s)[..|LfPieces(s)| - 1]
  }

  lemma CutEarly(s: string, k: nat)
    requires k <= |s| && (k == 0 || s[..k] == "\r")
    ensures CutFits(s, k)
  {
    assert LfPieces(s[..k]) == [""];
  }

  lemma CutAfterLine(s: string, k: nat, n: nat)
    requires 0 < n <= k <= |s| && CutFits(s[n..], k - n)
    requires (n == 1 && s[0] == '\n') || (n == 2 && s[0] == '\r' && s[1] == '\n')
    ensures CutFits(s, k)
  {
    assert s[..k][n..] == s[n..][..k - n] && s[..k][0] == s[0] && (n == 2 ==> s[..k][1] == s[1]);
    var p, q := LfPieces(s[n..][..k - n]), LfPieces(s[n..]);
    assert LfPieces(s[..k]) == [""] + p && LfPieces(s) == [""] + q;
    hide LfPieces;
    assert ([""] + p)[..|p|] == [""] + p[..|p| - 1] && ([""] + q)[..|q|] == [""] + q[..|q| - 1];
  }

  lemma {:induction false} CutLines(s: string, k: nat)
    requires k <= |s|
    ensures CutFits(s, k)
    decreases |s|
  {
    hide CutFits;
    if k == 0 || s[..k] == "\r" {
      CutEarly(s, k);
    } else if s[0] == '\n' {
      CutLines(s[1..], k - 1);
      CutAfterLine(s, k, 1);
    } else if s[0] == '\r' && s[1] == '\n' {
      CutLines(s[2..], k - 2);
      CutAfterLine(s, k, 2);
    } else {
      CutLines(s[1..], k - 1);
      CutBehind(s, k);
    }
  }

  /** No line ends with the first character. */
  ghost predicate Continues(s: string) {
    s != "" && s != "\r" && s[0] != '\n' && (s[0] == '\r' ==> s[1] != '\n')
  }

  lemma ContinuedPieces(s: string)
    requires Continues(s)
    ensures LfPieces(s) == [[s[0]] + LfPieces(s[1..])[0]] + LfPieces(s[1..])[1..]
  {
  }

  lemma CutBehind(s: string, k: nat)
    requires 0 < k <= |s| && Continues(s) && Continues(s[..k]) && CutFits(s[1..], k - 1)
    ensures CutFits(s, k)
  {
    hide LfPieces;
    var cut, rest := s[1..][..k - 1], s[1..];
    assert s[..k][1..] == cut && s[..k][0] == s[0];
    ContinuedPieces(s);
    ContinuedPieces(s[..k]);
    LongerLines(LfPieces(cut), LfPieces(rest), s[0]);
  }

  /** A stream that breaks off anywhere yields its first events, and none that is not its own. */
  lemma BrokenStreamYieldsPrefix(s: string, k: nat, id: string)
    requires k <= |s|
    ensures Events(s[..k], Broken, id) <= Events(s, Broken, id)
  {
    CutLines(s, k);
    var all, some := Lines(s, Broken), Lines(s[..k], Broken);
    assert some == all[..|some|];
    FoldGrows(Buffers("", id, []), all, |some|);
  }
}
