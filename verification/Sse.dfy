/**
  The event stream reader (pkg/mcp/sse.go) against the standard, and the
  round trip through a server that prints its events the plain way.
*/
module Sse {
  import opened Wrappers
  import opened EventStream

  // ----- the lines the reader sees -----

  /** Cut at LF, one trailing CR trimmed from each piece. */
  function LfPieces(s: string): (p: seq<string>)
    ensures |p| > 0
    decreases |s|
  {
    if s == "" || s == "\r" then [""]
    else if s[0] == '\n' then [""] + LfPieces(s[1..])
    else if s[0] == '\r' && s[1] == '\n' then [""] + LfPieces(s[2..])
    else
      var p := LfPieces(s[1..]);
      [[s[0]] + p[0]] + p[1..]
  }

  ghost predicate NoBareCR(s: string) {
    forall k :: 0 <= k < |s| && s[k] == '\r' ==> k + 1 < |s| && s[k + 1] == '\n'
  }

  /** Reading lines at LF is reading them by the standard exactly when no CR stands without its LF. */
  lemma {:induction false} LfLinesAreStandard(s: string)
    ensures LfPieces(s) == Pieces(s) <==> NoBareCR(s)
    ensures |LfPieces(s)| <= |Pieces(s)|
    ensures |LfPieces(s)| == |Pieces(s)| ==> NoBareCR(s)
    decreases |s|
  {
    if s == "" {
    } else if s[0] == '\n' {
      LfLinesAreStandard(s[1..]);
      Tail(s, 1);
    } else if s[0] == '\r' && |s| > 1 && s[1] == '\n' {
      LfLinesAreStandard(s[2..]);
      Tail(s, 2);
    } else {
      if |s| > 1 {
        LfLinesAreStandard(s[1..]);
      }
      if s[0] == '\r' {
        assert !NoBareCR(s);
      } else {
        Tail(s, 1);
      }
    }
  }

  lemma Tail(s: string, n: nat)
    requires n <= |s| && (forall k :: 0 <= k < n && s[k] == '\r' ==> k + 1 < |s| && s[k + 1] == '\n')
    ensures NoBareCR(s) <==> NoBareCR(s[n..])
  {
    if NoBareCR(s[n..]) {
      forall k | n <= k < |s| && s[k] == '\r'
        ensures k + 1 < |s| && s[k + 1] == '\n'
      {
        assert s[n..][k - n] == '\r';
      }
    }
  }

  function TrimCR(line: string): string {
    if line != "" && line[|line| - 1] == '\r' then line[..|line| - 1] else line
  }

  lemma {:induction false} FirstLine(line: string, rest: string)
    requires '\n' !in line
    ensures LfPieces(line + "\n" + rest) == [TrimCR(line)] + LfPieces(rest)
  {
    var s := line + "\n" + rest;
    if line == "" {
      assert s[1..] == rest;
    } else if line == "\r" {
      assert s[2..] == rest;
    } else {
      assert s[1..] == line[1..] + "\n" + rest;
      assert s[0] == line[0] && (|line| > 1 ==> s[1] == line[1]);
      FirstLine(line[1..], rest);
      assert TrimCR(line) == [line[0]] + TrimCR(line[1..]);
    }
  }

  lemma {:induction false} LastLine(line: string)
    requires '\n' !in line
    ensures LfPieces(line) == [TrimCR(line)]
  {
    if line != "" && line != "\r" {
      LastLine(line[1..]);
      assert TrimCR(line) == [line[0]] + TrimCR(line[1..]);
    }
  }

  /** The lines a reader gets to see, and a blank one in place of a clean end. */
  function Lines(s: string, end: End): seq<string> {
    var p := LfPieces(s);
    if end.Eof? then p + [""] else p[..|p| - 1]
  }

  /** The events the reader finds, for a last event ID to start from. */
  function Events(s: string, end: End, id: string): seq<Event> {
    Fold(Buffers("", id, []), Lines(s, end)).sent
  }

  // ----- the reader -----

  datatype Next = Got(event: Event) | Ended | Failed

  class Reader {
    const input: string
    const end: End
    var pos: nat
    var lastID: string

    constructor (input: string, end: End)
      ensures this.input == input && this.end == end && pos == 0 && lastID == "" && Valid()
    {
      this.input, this.end := input, end;
      pos, lastID := 0, "";
    }

    ghost predicate Valid()
      reads this
    {
      pos <= |input|
    }

    ghost function Rest(): string
      requires Valid()
      reads this
    {
      input[pos..]
    }

    /** Up to the next LF, or to the end of what there is. */
    method ScanLine() returns (k: nat)
      requires Valid()
      ensures pos <= k <= |input| && '\n' !in input[pos..k] && (k < |input| ==> input[k] == '\n')
    {
      k := pos;
      while k < |input| && input[k] != '\n'
        invariant pos <= k <= |input|
        invariant '\n' !in input[pos..k]
      {
        k := k + 1;
      }
    }

    /** One line, its LF and a CR before it stripped; None at the end or on an error. */
    method ReadLine() returns (line: Option<string>)
      requires Valid()
      modifies this`pos
      ensures Valid() && pos >= old(pos)
      ensures line.Some? ==> pos > old(pos) && Folds(old(Rest()), line.value, Rest(), end)
      ensures line.None? ==> pos == |input| && Lines(old(Rest()), end) == if end.Eof? then ["", ""] else []
    {
      var k := ScanLine();
      var text := input[pos..k];
      ghost var rest := Rest();
      if k < |input| {
        pos := k + 1;
        LineRead(rest, text, Rest(), end);
        return Some(TrimCR(text));
      }
      pos := k;
      assert rest == text;
      LastLine(text);
      line := if end.Eof? && text != "" then Some(TrimCR(text)) else None;
    }

    /** The next event with data; Ended or Failed when there is none any more. */
    method Next() returns (r: Next)
      requires Valid()
      modifies this
      ensures Valid() && pos >= old(pos)
      ensures r.Got? ==> pos > old(pos) && r.event.id == lastID
      ensures r.Got? ==> Events(old(Rest()), end, old(lastID)) == [r.event] + Events(Rest(), end, lastID)
      ensures !r.Got? ==> pos == |input| && (r.Ended? <==> end.Eof?) && Events(old(Rest()), end, old(lastID)) == []
    {
      var data, found := "", false;
      while true
        invariant Valid() && old(pos) <= pos && (found ==> old(pos) < pos)
        invariant Fold(Pending(found, data, lastID), Lines(Rest(), end)).sent == Events(old(Rest()), end, old(lastID))
        decreases |input| - pos
      {
        ghost var b, rest := Pending(found, data, lastID), Rest();
        var line := ReadLine();
        if line.None? {
          EndOfFold(found, data, lastID, end);
          if end.Eof? && found {
            return Got(Event(lastID, data));
          }
          return if end.Eof? then Ended else Failed;
        }
        FoldsStep(b, rest, line.value, Rest(), end);
        if line.value == "" {
          if found {
            Delivered(lastID, data, Rest(), end);
            return Got(Event(lastID, data));
          }
        } else if line.value[0] != ':' {
          found, data := TakeField(line.value, found, data);
        }
      }
    }

    /** One field of the event that is being read. */
    method TakeField(line: string, found: bool, data: string) returns (found': bool, data': string)
      requires line != "" && line[0] != ':'
      modifies this`lastID
      ensures Pending(found', data', lastID) == Interpret(Pending(found, data, old(lastID)), line)
      ensures found ==> found'
    {
      found', data' := found, data;
      var field, value := SplitField(line);
      match field {
        case "data" =>
          data' := if found then data + "\n" + value else value;
          found' := true;
        case "id" =>
          if '\0' !in value {
            lastID := value;
          }
        case _ =>
      }
    }
  }

  /** The reader's variables as the buffers of the standard. */
  ghost function Pending(found: bool, data: string, id: string): Buffers {
    Buffers(if found then data + "\n" else "", id, [])
  }

  lemma Delivered(id: string, data: string, rest: string, end: End)
    ensures Fold(Interpret(Pending(true, data, id), ""), Lines(rest, end)).sent == [Event(id, data)] + Events(rest, end, id)
  {
    var e := Event(id, data);
    var b := Pending(false, "", id);
    assert (data + "\n")[..|data|] == data;
    assert b.(sent := [e] + b.sent) == Dispatch(Pending(true, data, id));
    FoldShifts(b, [e], Lines(rest, end));
  }

  method SplitField(line: string) returns (field: string, value: string)
    requires line != "" && line[0] != ':'
    ensures forall b :: Interpret(b, line) == Process(b, field, value)
  {
    var k := Colon(line);
    if k == |line| {
      return line, "";
    }
    value := line[k + 1..];
    if |value| > 0 && value[0] == ' ' {
      value := value[1..];
    }
    field := line[..k];
  }

  lemma LineRead(s: string, text: string, rest: string, end: End)
    requires s == text + "\n" + rest && '\n' !in text
    ensures Folds(s, TrimCR(text), rest, end)
  {
    FirstLine(text, rest);
    var p := LfPieces(rest);
    assert ([TrimCR(text)] + p)[..|p|] == [TrimCR(text)] + p[..|p| - 1];
    assert ([TrimCR(text)] + p) + [""] == [TrimCR(text)] + (p + [""]);
  }

  lemma FoldsStep(b: Buffers, s: string, line: string, rest: string, end: End)
    requires Folds(s, line, rest, end)
    ensures Fold(b, Lines(s, end)).sent == Fold(Interpret(b, line), Lines(rest, end)).sent
  {
    var lines, p := Lines(s, end), LfPieces(s);
    if lines != [line] + Lines(rest, end) {
      FoldAppends(b, lines, [""]);
      FoldAppends(b, p, [""]);
      assert Fold(b, lines).data == "";
    }
    assert ([line] + Lines(rest, end))[1..] == Lines(rest, end);
  }

  /** Nothing left: a clean end dispatches what is pending, an error drops it. */
  lemma EndOfFold(found: bool, data: string, id: string, end: End)
    ensures Fold(Pending(found, data, id), if end.Eof? then ["", ""] else []).sent ==
      if end.Eof? && found then [Event(id, data)] else []
    ensures Events("", end, id) == []
  {
    var b := Pending(found, data, id);
    assert Lines("", end) == if end.Eof? then ["", ""] else [];
    assert (data + "\n")[..|data|] == data;
    if end.Eof? {
      assert ["", ""][1..] == [""] && [""][1..] == [];
      assert Fold(b, ["", ""]) == Dispatch(Dispatch(b));
    }
  }

  /** What is left to read folds as it did with the line in front, but for a blank line too many at the end. */
  ghost predicate Folds(s: string, line: string, rest: string, end: End) {
    || Lines(s, end) == [line] + Lines(rest, end)
    || (Lines(s, end) + [""] == [line] + Lines(rest, end) && end.Eof?)
  }
}
