/**
  A stream that ends cleanly in the middle of an event: the reader delivers
  what it has.  Exactly when is that the event itself, or nothing?
*/
module SseTruncation {
  import opened EventStream
  import opened Sse
  import opened SseTheorems

  /** The text of data lines and the blank line after them. */
  function DataText(lines: seq<string>): string { Unlines(Prefixed(lines) + [""]) }

  /** What the first k bytes of that text put into the data buffer. */
  function Arrived(lines: seq<string>, k: nat): string
    decreases |lines|
  {
    if lines == [] || k < 4 then ""
    else if k <= 6 then "\n"
    else if k <= 6 + |lines[0]| then lines[0][..k - 6] + "\n"
    else lines[0] + "\n" + Arrived(lines[1..], k - 7 - |lines[0]|)
  }

  lemma DataTextStep(lines: seq<string>)
    requires lines != []
    ensures DataText(lines) == ("data: " + lines[0]) + "\n" + DataText(lines[1..])
  {
    assert (Prefixed(lines) + [""])[1..] == Prefixed(lines[1..]) + [""];
  }

  /** A line of data whose value is there, or begins to be. */
  lemma PartialValue(b: Buffers, line: string, k: nat)
    requires 6 <= k <= 6 + |line| && b.sent == []
    ensures Interpret(b, ("data: " + line)[..k]) == b.(data := b.data + (line[..k - 6] + "\n"))
  {
    hide Interpret;
    assert ("data: " + line)[..k] == "data: " + line[..k - 6];
    DataLine(b, line[..k - 6]);
    assert b.data + line[..k - 6] + "\n" == b.data + (line[..k - 6] + "\n");
  }

  /** A line of data of which no more is there than its name, or not even that. */
  lemma PartialName(b: Buffers, k: nat)
    requires k <= 5 && b.sent == []
    ensures Dispatch(Interpret(b, "data: "[..k])).sent == Dispatch(b.(data := b.data + if k < 4 then "" else "\n")).sent
  {
    var t := "data: "[..k];
    assert b.data + "" == b.data && b.data + "" + "\n" == b.data + "\n";
    if k == 5 {
      assert t == "data" + ":" + "";
      ColonAt("data", "");
    } else {
      assert Colon(t) == |t|;
    }
  }

  /** A line of data that is not all there. */
  lemma PartialLine(b: Buffers, line: string, k: nat)
    requires k <= 6 + |line| && b.sent == []
    ensures Dispatch(Interpret(b, ("data: " + line)[..k])).sent ==
      Dispatch(b.(data := b.data + if k < 4 then "" else if k <= 6 then "\n" else line[..k - 6] + "\n")).sent
  {
    hide Interpret, Dispatch;
    if k >= 6 {
      PartialValue(b, line, k);
      assert line[..0] + "\n" == "\n";
    } else {
      assert ("data: " + line)[..k] == "data: "[..k];
      PartialName(b, k);
    }
  }

  lemma {:induction false} FoldCut(b: Buffers, lines: seq<string>, k: nat)
    requires b.sent == [] && Clean(lines) && k <= |DataText(lines)|
    ensures Fold(b, LfPieces(DataText(lines)[..k]) + [""]).sent == Dispatch(b.(data := b.data + Arrived(lines, k))).sent
    decreases |lines|
  {
    hide Interpret, Prefixed, Unlines, Dispatch;
    if lines == [] {
      BlankLine(b, k);
    } else {
      var line := "data: " + lines[0];
      DataTextStep(lines);
      var t, rest := DataText(lines)[..k], DataText(lines[1..]);
      if k <= |line| {
        assert t == line[..k];
        LastLine(t);
        FoldTwo(b, t);
        PartialLine(b, lines[0], k);
      } else {
        var k' := k - |line| - 1;
        var more := LfPieces(rest[..k']);
        assert t == line + "\n" + rest[..k'];
        FirstLine(line, rest[..k']);
        DataLine(b, lines[0]);
        var next := b.(data := b.data + lines[0] + "\n");
        assert (([line] + more) + [""])[1..] == more + [""];
        FoldCut(next, lines[1..], k');
        assert next.data + Arrived(lines[1..], k') == b.data + Arrived(lines, k);
      }
    }
  }

  lemma FoldTwo(b: Buffers, line: string)
    ensures Fold(b, [line] + [""]) == Dispatch(Interpret(b, line))
  {
    assert ([line] + [""])[1..] == [""] && [""][1..] == [];
  }

  lemma BlankLine(b: Buffers, k: nat)
    requires k <= |DataText([])|
    ensures Fold(b, LfPieces(DataText([])[..k]) + [""]) == Dispatch(b.(data := b.data + ""))
  {
    assert Prefixed([]) + [""] == [""] && [""][1..] == [];
    assert DataText([]) == "\n" && b.data + "" == b.data;
    assert "\n"[1..] == "";
    if k == 0 {
      assert DataText([])[..k] == "";
      FoldTwo(b, "");
    } else {
      assert DataText([])[..k] == "\n";
      assert LfPieces("\n") == ["", ""];
      assert (["", ""] + [""])[1..] == [""] + [""];
      FoldTwo(Interpret(b, ""), "");
    }
  }

  // ----- when what arrived is everything, or nothing -----

  /** How many of the last bytes of the data lines may be missing: a final LF, and more when the last line is empty. */
  function Spare(lines: seq<string>): nat
    requires lines != []
  {
    if lines[|lines| - 1] == "" then 3 else 1
  }

  lemma PrintedLength(lines: seq<string>)
    requires lines != []
    ensures |Unlines(Prefixed(lines))| == 7 + |lines[0]| + |Unlines(Prefixed(lines[1..]))|
    ensures Unlines(lines) == lines[0] + "\n" + Unlines(lines[1..])
  {
    assert Prefixed(lines)[1..] == Prefixed(lines[1..]);
  }

  /** What arrived is complete lines, the first ones, and perhaps the beginning of another. */
  lemma {:induction false} ArrivedBounds(lines: seq<string>, k: nat)
    requires lines != []
    ensures Arrived(lines, k) == "" <==> k < 4
    ensures Arrived(lines, k) != "" ==> Arrived(lines, k)[|Arrived(lines, k)| - 1] == '\n'
    ensures |Arrived(lines, k)| <= |Unlines(lines)|
    ensures Arrived(lines, k) != "" ==> Arrived(lines, k)[..|Arrived(lines, k)| - 1] <= Unlines(lines)
    decreases |lines|
  {
    PrintedLength(lines);
    if lines[1..] != [] && k > 6 + |lines[0]| {
      ArrivedBounds(lines[1..], k - 7 - |lines[0]|);
    }
  }

  /** It is all of the data exactly when no more than the spare bytes are missing. */
  lemma {:induction false} ArrivedWhole(lines: seq<string>, k: nat)
    requires lines != []
    ensures |Unlines(Prefixed(lines))| >= Spare(lines) + 4
    ensures Arrived(lines, k) == Unlines(lines) <==> k >= |Unlines(Prefixed(lines))| - Spare(lines)
    decreases |lines|
  {
    var head, tail := lines[0], lines[1..];
    PrintedLength(lines);
    if tail != [] {
      assert tail[|tail| - 1] == lines[|lines| - 1];
      if k > 6 + |head| {
        ArrivedWhole(tail, k - 7 - |head|);
        JoinedTwice(head, Arrived(tail, k - 7 - |head|), Unlines(tail));
      } else {
        ArrivedWhole(tail, 0);
        PrintedLength(tail);
      }
    }
  }

  lemma JoinedTwice(head: string, a: string, b: string)
    ensures head + "\n" + a == head + "\n" + b <==> a == b
  {
    assert (head + "\n" + a)[|head| + 1..] == a && (head + "\n" + b)[|head| + 1..] == b;
  }

  /** Fewer bytes of a printed event than this hold no data. */
  function Header(e: Event): nat { |e.id| + 9 }

  /** As many bytes of a printed event as this hold all its data. */
  function Whole(e: Event): nat { |e.id| + 5 + |Unlines(Prefixed(DataLines(e.data)))| - Spare(DataLines(e.data)) }

  lemma PrintedEvent(e: Event)
    ensures Print([e]) == ("id: " + e.id) + "\n" + DataText(DataLines(e.data))
  {
    var body := Prefixed(DataLines(e.data)) + [""];
    assert AllLines([e]) == EventLines(e) + [] == ["id: " + e.id] + body;
    assert (["id: " + e.id] + body)[1..] == body;
  }

  /** The id line alone, or a part of it, is no event. */
  lemma NoData(b: Buffers, line: string)
    requires b.data == "" && (line == "" || line[0] != 'd')
    ensures Interpret(b, line).data == "" && Interpret(b, line).sent == b.sent
  {
  }

  lemma CutAfterId(e: Event, k: nat, id: string)
    requires Printable(e) && |e.id| + 5 <= k <= |Print([e])|
    ensures Events(Print([e])[..k], Eof, id) ==
      Dispatch(Buffers(Arrived(DataLines(e.data), k - |e.id| - 5), e.id, [])).sent
  {
    hide Prefixed, Unlines, Dispatch, Interpret, DataText, Print;
    var line, b, data := "id: " + e.id, Buffers("", id, []), DataLines(e.data);
    var k' := k - |e.id| - 5;
    PrintedEvent(e);
    DataLinesClean(e.data);
    var rest := DataText(data)[..k'];
    assert Print([e])[..k] == line + "\n" + rest;
    FirstLine(line, rest);
    IdLine(b, e.id);
    assert (([line] + LfPieces(rest)) + [""])[1..] == LfPieces(rest) + [""];
    FoldCut(b.(id := e.id), data, k');
    assert "" + Arrived(data, k') == Arrived(data, k');
  }

  lemma CutInId(e: Event, k: nat, id: string)
    requires Printable(e) && k < |e.id| + 5
    ensures k <= |Print([e])| && Events(Print([e])[..k], Eof, id) == []
  {
    hide Prefixed, Unlines, Interpret, DataText, Print;
    var b := Buffers("", id, []);
    PrintedEvent(e);
    var t := Print([e])[..k];
    assert t == ("id: " + e.id)[..k];
    LastLine(t);
    FoldTwo(b, t);
    NoData(b, t);
  }

  /**
    The first k bytes of a printed event, then a clean end: the reader makes
    nothing of fewer than Header bytes, the event itself of Whole bytes or
    more, and of anything between an event with its id and less than its data.
  */
  lemma CleanEndInsideEvent(e: Event, k: nat, id: string)
    requires Printable(e) && k <= |Print([e])|
    ensures Header(e) <= Whole(e)
    ensures var got := Events(Print([e])[..k], Eof, id);
      && (got == [] <==> k < Header(e))
      && (got == [e] <==> k >= Whole(e))
      && (Header(e) <= k < Whole(e) ==> |got| == 1 && got[0].id == e.id && got[0].data < e.data)
  {
    hide Events, Print, Arrived;
    Thresholds(e);
    if k < |e.id| + 5 {
      CutInId(e, k, id);
    } else {
      CutAfterId(e, k, id);
      WhatArrived(e, k - |e.id| - 5);
    }
  }

  /** An event without data has but one such byte count. */
  lemma Thresholds(e: Event)
    requires Printable(e)
    ensures Header(e) <= Whole(e) && (Header(e) == Whole(e) <==> e.data == "")
  {
    var data := DataLines(e.data);
    DataLinesClean(e.data);
    PrintedLength(data);
    ArrivedWhole(data, 0);
    if |data| == 1 {
      assert data[1..] == [];
      assert Unlines(data) == data[0] + "\n" + "" == e.data + "\n";
      assert (data[0] + "\n")[..|data[0]|] == data[0] && (e.data + "\n")[..|e.data|] == e.data;
    } else {
      PrintedLength(data[1..]);
      assert |Unlines(data)| == |e.data| + 1;
    }
  }

  /** The event made of what arrived: none, the event itself, or a shorter one under its id. */
  lemma WhatArrived(e: Event, k: nat)
    requires Printable(e)
    ensures var x := Arrived(DataLines(e.data), k); var got := Dispatch(Buffers(x, e.id, [])).sent;
      && (got == [] <==> k < 4)
      && (got == [e] <==> k + |e.id| + 5 >= Whole(e))
      && (4 <= k && k + |e.id| + 5 < Whole(e) ==> |got| == 1 && got[0].id == e.id && got[0].data < e.data)
  {
    var data := DataLines(e.data);
    DataLinesClean(e.data);
    Thresholds(e);
    ArrivedBounds(data, k);
    ArrivedWhole(data, k);
    hide Arrived, Unlines, DataLines, Prefixed;
    var x := Arrived(data, k);
    if x != "" {
      var d := x[..|x| - 1];
      assert x == d + "\n" && d <= e.data + "\n" && |d| <= |e.data|;
      assert d == (e.data + "\n")[..|d|] == e.data[..|d|];
      assert x == e.data + "\n" <==> d == e.data;
      assert Dispatch(Buffers(x, e.id, [])).sent == [] + [Event(e.id, d)] == [Event(e.id, d)];
    }
  }

  /** Every event with data can be cut harmfully: after the name of its first data line nothing of the data is left. */
  lemma HarmfulCutExists(e: Event, id: string)
    requires Printable(e) && e.data != ""
    ensures Header(e) < Whole(e) && Header(e) <= |Print([e])|
    ensures Events(Print([e])[..Header(e)], Eof, id) == [Event(e.id, "")]
  {
    Thresholds(e);
    PrintedEvent(e);
    var data := DataLines(e.data);
    DataTextStep(data);
    CutAfterId(e, Header(e), id);
    assert Arrived(data, 4) == "\n";
    assert "\n"[..0] == "";
  }

  /** Event 1 with the data "ab", cut after 13 bytes: event 1 is delivered with the data "a". */
  lemma ShortenedEvent(id: string)
    ensures Print([Event("1", "ab")]) == "id: 1\ndata: ab\n\n"
    ensures Events("id: 1\ndata: ab\n\n"[..13], Eof, id) == [Event("1", "a")]
  {
    var e := Event("1", "ab");
    PrintedEvent(e);
    TwoLetters();
    DataTextStep(["ab"]);
    NoDataText();
    hide Events, DataText, Prefixed, Unlines, DataLines;
    assert Print([e]) == "id: 1\ndata: ab\n\n";
    CutAfterId(e, 13, id);
    assert Arrived(["ab"], 7) == "ab"[..1] + "\n" == "a\n";
    assert "a\n"[..1] == "a";
  }

  lemma TwoLetters()
    ensures DataLines("ab") == ["ab"]
  {
    assert "ab"[1..] == "b" && "b"[1..] == "";
    assert DataLines("b") == [['b'] + ""] + [""][1..] && ['b'] + "" == "b";
    assert DataLines("ab") == [['a'] + "b"] + ["b"][1..] && ['a'] + "b" == "ab";
  }

  lemma NoDataText()
    ensures ["ab"][1..] == [] && DataText([]) == "\n"
  {
    assert Prefixed([]) + [""] == [""] && [""][1..] == [];
  }

  lemma {:induction false} LinesThen(lines: seq<string>, t: string)
    requires Clean(lines)
    ensures LfPieces(Unlines(lines) + t) == lines + LfPieces(t)
    decreases |lines|
  {
    if lines == [] {
      assert "" + t == t && [] + LfPieces(t) == LfPieces(t);
    } else {
      LinesThen(lines[1..], t);
      FirstLine(lines[0], Unlines(lines[1..]) + t);
      assert Unlines(lines) + t == lines[0] + "\n" + (Unlines(lines[1..]) + t);
      assert lines + LfPieces(t) == [lines[0]] + (lines[1..] + LfPieces(t));
    }
  }

  lemma EventsThen(events: seq<Event>, t: string, id: string) returns (id': string)
    requires forall e :: e in events ==> Printable(e)
    ensures Events(Print(events) + t, Eof, id) == events + Events(t, Eof, id')
  {
    hide EventLines, Interpret, Unlines, Clean, Printable;
    var lines, b, more := AllLines(events), Buffers("", id, []), LfPieces(t) + [""];
    AllClean(events);
    LinesThen(lines, t);
    FoldAppends(b, lines, more);
    FoldAll(id, [], events);
    id' := Fold(b, lines).id;
    FoldShifts(Buffers("", id', []), events, more);
    assert Fold(b, lines) == Buffers("", id', []).(sent := events + []);
    assert (lines + LfPieces(t)) + [""] == lines + more;
  }

  /**
    A clean end k bytes into event e of a replay: what is delivered is a
    beginning of the replay exactly when the cut leaves out all of e's data,
    or none of it.  Otherwise a shortened e is delivered under e's id, which
    the server will not send again.
  */
  lemma CleanEndIsHarmlessWhen(before: seq<Event>, e: Event, k: nat, id: string)
    requires (forall x :: x in before ==> Printable(x)) && Printable(e) && k <= |Print([e])|
    ensures var got := Events(Print(before) + Print([e])[..k], Eof, id);
      && (got <= before + [e] <==> k < Header(e) || k >= Whole(e))
      && (Header(e) <= k < Whole(e) ==> Last(got).id == e.id && Last(got).data < e.data)
  {
    hide Events, Print, Header, Whole;
    var id' := EventsThen(before, Print([e])[..k], id);
    CleanEndInsideEvent(e, k, id');
    var got := Events(Print([e])[..k], Eof, id');
    if got != [] && got != [e] {
      assert (before + got)[|before|] == got[0];
    }
  }

  function Last(events: seq<Event>): Event {
    if events == [] then Event("", "") else events[|events| - 1]
  }
}
