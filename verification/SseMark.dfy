/**
  Streams with a byte order mark: the standard drops it, the reader takes it
  for part of the first field name.  What does that change?
*/
module SseMark {
  import opened EventStream
  import opened Sse
  import opened SseTheorems

  /** A byte order mark is dropped by the standard, but is part of the first field name to the reader. */
  lemma ByteOrderMarkIsKept()
    ensures Standard(BOM + "data" + "\n\n", "") == [Event("", "")]
    ensures Events(BOM + "data" + "\n\n", Broken, "") == []
  {
    var b := Buffers("", "", []);
    MarkDropped("data" + "\n\n");
    assert BOM + "data" + "\n\n" == BOM + ("data" + "\n\n");
    hide Pieces, Interpret, Fold, Events, Decoded;
    OneField("data");
    OneField(BOM + "data");
    DataAlone(b);
    MarkedData(b);
  }

  lemma MarkDropped(s: string)
    ensures Decoded(BOM + s) == s
  {
  }

  /** A stream of one line and a blank one. */
  lemma OneField(line: string)
    requires '\r' !in line && '\n' !in line
    ensures var b, p := Buffers("", "", []), Pieces(line + "\n\n");
      && Fold(b, p[..|p| - 1]) == Dispatch(Interpret(b, line))
      && Events(line + "\n\n", Broken, "") == Dispatch(Interpret(b, line)).sent
  {
    hide Pieces, LfPieces, Interpret, Fold;
    TwoBlanks();
    PlainText(line, "\n\n");
    assert line + "" == line;
    assert Pieces(line + "\n\n") == [line, "", ""] == LfPieces(line + "\n\n");
    TwoLines(Buffers("", "", []), line);
  }

  lemma TwoBlanks()
    ensures Pieces("\n\n") == ["", "", ""] == LfPieces("\n\n")
  {
    assert "\n\n"[1..] == "\n" && "\n"[1..] == "";
  }

  function Rest(lines: seq<string>): seq<string> { if lines == [] then [] else lines[1..] }

  lemma MarkedLine(b: Buffers, line: string)
    ensures Interpret(b, BOM + line) == b
  {
    var l := BOM + line;
    assert l[0] == '\U{EF}' && l[..Colon(l)] != "data" && l[..Colon(l)] != "id" && l != "data" && l != "id" by {
      assert Colon(l) > 0 ==> l[..Colon(l)][0] == '\U{EF}';
      assert "data"[0] == 'd' && "id"[0] == 'i';
    }
  }

  lemma MarkedPieces(s: string)
    ensures LfPieces(BOM + s) == [BOM + LfPieces(s)[0]] + LfPieces(s)[1..]
  {
    assert forall k :: 0 <= k < 3 ==> BOM[k] != '\r' && BOM[k] != '\n';
    PlainText(BOM, s);
  }

  /** Of any stream with a byte order mark the reader loses the first line, and nothing else. */
  lemma MarkLosesFirstLine(s: string, end: End, id: string)
    ensures Events(BOM + s, end, id) == Fold(Buffers("", id, []), Rest(Lines(s, end))).sent
  {
    hide Interpret, LfPieces;
    var b, p := Buffers("", id, []), LfPieces(s);
    MarkedPieces(s);
    MarkedLine(b, p[0]);
    var lines, marked := Lines(s, end), Lines(BOM + s, end);
    if lines == [] {
      assert marked == [];
    } else {
      assert marked == [BOM + p[0]] + lines[1..];
      assert marked[1..] == lines[1..];
    }
  }

  // ----- what a lost line changes -----

  /** What a line that is not blank does to the buffers. */
  datatype Effect = Nothing | Adds(value: string) | Sets(id: string)

  function FieldEffect(field: string, value: string): Effect {
    if field == "data" then Adds(value)
    else if field == "id" && '\0' !in value then Sets(value)
    else Nothing
  }

  function EffectOf(line: string): Effect {
    if line == "" || line[0] == ':' then Nothing
    else
      var k := Colon(line);
      if k < |line| then FieldEffect(line[..k], Unspaced(line[k + 1..])) else FieldEffect(line, "")
  }

  function Applied(b: Buffers, e: Effect): Buffers {
    match e
    case Nothing => b
    case Adds(value) => b.(data := b.data + value + "\n")
    case Sets(id) => b.(id := id)
  }

  lemma InterpretApplies(b: Buffers, line: string)
    ensures Interpret(b, line) == if line == "" then Dispatch(b) else Applied(b, EffectOf(line))
  {
  }

  /** An event is dispatched before the lines set another id; `pending` says whether there is data already. */
  ghost predicate EventBeforeId(lines: seq<string>, pending: bool)
    decreases |lines|
  {
    lines != [] &&
    if lines[0] == "" then pending || EventBeforeId(lines[1..], false)
    else
      match EffectOf(lines[0])
      case Nothing => EventBeforeId(lines[1..], pending)
      case Adds(_) => EventBeforeId(lines[1..], true)
      case Sets(_) => false
  }

  /** Losing the first line changes no event: it does nothing, or it is an id that no event carries. */
  ghost predicate HarmlessLoss(lines: seq<string>, id: string) {
    lines != [] ==>
      match EffectOf(lines[0])
      case Nothing => true
      case Adds(_) => "" !in lines[1..]
      case Sets(v) => v == id || !EventBeforeId(lines[1..], false)
  }

  /** Data that ends in a line end, as the buffer's always does. */
  ghost predicate Closed(data: string) { data == "" || data[|data| - 1] == '\n' }

  /** A blank line first, from a buffer that holds data: an event, and what follows it. */
  lemma EventFirst(data: string, id: string, lines: seq<string>)
    requires data != "" && Closed(data)
    ensures Fold(Buffers(data, id, []), [""] + lines).sent ==
      [Event(id, data[..|data| - 1])] + Fold(Buffers("", id, []), lines).sent
  {
    hide Fold;
    var e := Event(id, data[..|data| - 1]);
    FoldFirst(Buffers(data, id, []), "", lines);
    FoldShifts(Buffers("", id, []), [e], lines);
    assert Dispatch(Buffers(data, id, [])) == Buffers("", id, [] + [e]);
    assert [] + [e] == [e] + [] == [e];
  }

  /** More data in the buffer shows in the events if and only if a blank line follows. */
  lemma {:induction false} DataShows(w: string, x: string, id: string, lines: seq<string>)
    requires w != "" && Closed(w) && Closed(x)
    ensures Fold(Buffers(w + x, id, []), lines).sent == Fold(Buffers(x, id, []), lines).sent <==> "" !in lines
    decreases |lines|
  {
    hide Interpret, EffectOf;
    if lines != [] {
      var line, rest := lines[0], lines[1..];
      assert lines == [line] + rest;
      assert "" in lines <==> line == "" || "" in rest;
      if line == "" {
        DataDispatched(w, x, id, rest);
      } else {
        FoldFirst(Buffers(w + x, id, []), line, rest);
        FoldFirst(Buffers(x, id, []), line, rest);
        InterpretApplies(Buffers(w + x, id, []), line);
        InterpretApplies(Buffers(x, id, []), line);
        match EffectOf(line)
        case Nothing => DataShows(w, x, id, rest);
        case Adds(v) =>
          assert w + x + v + "\n" == w + (x + v + "\n");
          DataShows(w, x + v + "\n", id, rest);
        case Sets(v) => DataShows(w, x, v, rest);
      }
    }
  }

  lemma DataDispatched(w: string, x: string, id: string, rest: seq<string>)
    requires w != "" && Closed(w) && Closed(x)
    ensures Fold(Buffers(w + x, id, []), [""] + rest).sent != Fold(Buffers(x, id, []), [""] + rest).sent
  {
    hide Fold;
    var after := Fold(Buffers("", id, []), rest).sent;
    EventFirst(w + x, id, rest);
    if x == "" {
      BlankOnNothing(Buffers(x, id, []));
      FoldFirst(Buffers(x, id, []), "", rest);
      assert |Fold(Buffers(w + x, id, []), [""] + rest).sent| == 1 + |after|;
    } else {
      EventFirst(x, id, rest);
      assert Fold(Buffers(w + x, id, []), [""] + rest).sent[0].data == (w + x)[..|w + x| - 1];
      assert Fold(Buffers(x, id, []), [""] + rest).sent[0].data == x[..|x| - 1];
    }
  }

  /** Another id shows in the events if and only if one is dispatched before the next id. */
  lemma {:induction false} IdShows(data: string, v: string, id: string, lines: seq<string>)
    requires v != id && Closed(data)
    ensures Fold(Buffers(data, v, []), lines).sent == Fold(Buffers(data, id, []), lines).sent <==> !EventBeforeId(lines, data != "")
    decreases |lines|
  {
    hide Interpret, EffectOf;
    if lines != [] {
      var line, rest := lines[0], lines[1..];
      assert lines == [line] + rest;
      FoldFirst(Buffers(data, v, []), line, rest);
      FoldFirst(Buffers(data, id, []), line, rest);
      InterpretApplies(Buffers(data, v, []), line);
      InterpretApplies(Buffers(data, id, []), line);
      if line == "" {
        if data == "" {
          IdShows("", v, id, rest);
        } else {
          EventFirst(data, v, rest);
          EventFirst(data, id, rest);
          assert ([Event(v, data[..|data| - 1])] + Fold(Buffers("", v, []), rest).sent)[0].id == v;
          assert ([Event(id, data[..|data| - 1])] + Fold(Buffers("", id, []), rest).sent)[0].id == id;
        }
      } else {
        match EffectOf(line)
        case Nothing => IdShows(data, v, id, rest);
        case Adds(x) => IdShows(data + x + "\n", v, id, rest);
        case Sets(x) =>
      }
    }
  }

  lemma LossShows(lines: seq<string>, id: string)
    ensures Fold(Buffers("", id, []), Rest(lines)).sent == Fold(Buffers("", id, []), lines).sent <==> HarmlessLoss(lines, id)
  {
    hide Interpret, EffectOf, Fold;
    if lines != [] {
      var b, rest := Buffers("", id, []), lines[1..];
      assert lines == [lines[0]] + rest;
      FoldFirst(b, lines[0], rest);
      InterpretApplies(b, lines[0]);
      NoEffect();
      match EffectOf(lines[0])
      case Nothing =>
      case Adds(v) =>
        assert "" + v + "\n" == v + "\n" == (v + "\n") + "";
        DataShows(v + "\n", "", id, rest);
      case Sets(v) =>
        if v != id {
          IdShows("", v, id, rest);
        }
    }
  }

  lemma NoEffect()
    ensures EffectOf("") == Nothing
  {
  }

  // ----- streams with a byte order mark -----

  /**
    The standard drops the mark and keeps the first line.  Reader and standard
    agree on a marked stream if and only if that line does nothing; or is data,
    and no blank line follows; or is an id, and it is the one there was, or no
    event is dispatched before the next.  With a clean end the unterminated
    event the reader also delivers is counted in on both sides.
  */
  lemma MarkIsHarmlessWhen(s: string, end: End, id: string)
    requires NoBareCR(s)
    ensures Standard(BOM + s, id) == Events(s, Broken, id)
    ensures Events(BOM + s, end, id) == Events(s, end, id) <==> HarmlessLoss(Lines(s, end), id)
  {
    hide LfPieces, HarmlessLoss, Fold, Rest;
    MarkDropped(s);
    LfLinesAreStandard(s);
    MarkLosesFirstLine(s, end, id);
    LossShows(Lines(s, end), id);
  }

  /** A stream that opens with an event loses it to the mark, and only it, in whichever way it ends. */
  lemma MarkLosesEvent(x: string, rest: string, end: End, id: string)
    requires '\r' !in x && '\n' !in x && NoBareCR(rest)
    ensures var s := "data: " + x + "\n" + ("\n" + rest);
      && Events(BOM + s, end, id) == Events(rest, end, id)
      && Events(s, end, id) == [Event(id, x)] + Events(rest, end, id)
      && Standard(BOM + s, id) == [Event(id, x)] + Events(rest, Broken, id)
  {
    hide Interpret, Fold, LfPieces, Dispatch, NoBareCR, HarmlessLoss;
    var s, line := "data: " + x + "\n" + ("\n" + rest), "data: " + x;
    NoCRInFront(line, rest);
    MarkIsHarmlessWhen(s, end, id);
    OpeningEvent(x, rest, end, id);
    OpeningEvent(x, rest, Broken, id);
    MarkLosesFirstLine(s, end, id);
    FoldFirst(Buffers("", id, []), "", Lines(rest, end));
    BlankOnNothing(Buffers("", id, []));
  }

  /** The lines and the first event of a stream that opens with one. */
  lemma OpeningEvent(x: string, rest: string, end: End, id: string)
    requires '\r' !in x && '\n' !in x
    ensures var s := "data: " + x + "\n" + ("\n" + rest);
      && Rest(Lines(s, end)) == [""] + Lines(rest, end)
      && Events(s, end, id) == [Event(id, x)] + Events(rest, end, id)
  {
    hide Interpret, Fold, LfPieces, Dispatch;
    var s, line := "data: " + x + "\n" + ("\n" + rest), "data: " + x;
    var b, lines := Buffers("", id, []), Lines(rest, end);
    FirstLine(line, "\n" + rest);
    FirstLine("", rest);
    assert "" + "\n" + rest == "\n" + rest && TrimCR("") == "" && TrimCR(line) == line;
    assert LfPieces(s) == [line] + ([""] + LfPieces(rest));
    assert Lines(s, end) == [line] + ([""] + lines);
    FoldFirst(b, line, [""] + lines);
    DataLine(b, x);
    assert "" + x + "\n" == x + "\n";
    FoldFirst(Pending(true, x, id), "", lines);
    Delivered(id, x, rest, end);
  }

  lemma FoldFirst(b: Buffers, line: string, lines: seq<string>)
    ensures Fold(b, [line] + lines) == Fold(Interpret(b, line), lines)
  {
    assert ([line] + lines)[1..] == lines;
  }

  lemma BlankOnNothing(b: Buffers)
    requires b.data == ""
    ensures Interpret(b, "") == b
  {
  }

  lemma NoCRInFront(line: string, rest: string)
    requires '\r' !in line && NoBareCR(rest)
    ensures NoBareCR(line + "\n" + ("\n" + rest))
  {
    var s := line + "\n" + ("\n" + rest);
    forall k | 0 <= k < |s| && s[k] == '\r'
      ensures k + 1 < |s| && s[k + 1] == '\n'
    {
      var j := k - |line| - 2;
      assert rest[j] == '\r';
    }
  }

  lemma MarkedData(b: Buffers)
    ensures Interpret(b, BOM + "data") == b
  {
    assert Colon(BOM + "data") == |BOM + "data"|;
  }
}
