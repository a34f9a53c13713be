/**
  What an event stream means: section 9.2.6 of the WHATWG HTML standard
  ("Interpreting an event stream"), line by line, with one byte per char.
*/
module EventStream {
  datatype Event = Event(id: string, data: string)

  /** How a stream stops arriving: its end, or a read error. */
  datatype End = Eof | Broken

  // ----- lines -----

  /** The stream cut at CRLF, LF and CR; the last piece is the one no line end follows. */
  function Pieces(s: string): (p: seq<string>)
    ensures |p| > 0
    decreases |s|
  {
    if s == "" then [""]
    else if s[0] == '\n' then [""] + Pieces(s[1..])
    else if s[0] == '\r' then [""] + Pieces(if |s| > 1 && s[1] == '\n' then s[2..] else s[1..])
    else
      var p := Pieces(s[1..]);
      [[s[0]] + p[0]] + p[1..]
  }

  // ----- fields -----

  /** The data buffer, the last event ID buffer, and the events dispatched so far. */
  datatype Buffers = Buffers(data: string, id: string, sent: seq<Event>)

  function Dispatch(b: Buffers): Buffers {
    if b.data == "" then b
    else
      var last := |b.data| - 1;
      Buffers("", b.id, b.sent + [Event(b.id, if b.data[last] == '\n' then b.data[..last] else b.data)])
  }

  function Process(b: Buffers, field: string, value: string): Buffers {
    if field == "data" then b.(data := b.data + value + "\n")
    else if field == "id" && '\0' !in value then b.(id := value)
    else b
  }

  function Colon(line: string): (k: nat)
    ensures k <= |line| && ':' !in line[..k] && (k < |line| ==> line[k] == ':')
  {
    if line == "" || line[0] == ':' then 0 else
      var k := 1 + Colon(line[1..]);
      assert line[..k] == [line[0]] + line[1..][..k - 1];
      k
  }

  function Unspaced(value: string): string {
    if value != "" && value[0] == ' ' then value[1..] else value
  }

  function Interpret(b: Buffers, line: string): Buffers {
    if line == "" then Dispatch(b)
    else if line[0] == ':' then b
    else
      var k := Colon(line);
      if k < |line| then Process(b, line[..k], Unspaced(line[k + 1..])) else Process(b, line, "")
  }

  function Fold(b: Buffers, lines: seq<string>): Buffers
    decreases |lines|
  {
    if lines == [] then b else Fold(Interpret(b, lines[0]), lines[1..])
  }

  /** The bytes of a byte order mark. */
  const BOM := "\U{EF}\U{BB}\U{BF}"

  /** Decoding drops one leading byte order mark. */
  function Decoded(s: string): string {
    if BOM <= s then s[|BOM|..] else s
  }

  /** The events of a stream by the standard: whatever is pending at the end is discarded. */
  function Standard(s: string, id: string): seq<Event> {
    var p := Pieces(Decoded(s));
    Fold(Buffers("", id, []), p[..|p| - 1]).sent
  }

  // ----- what folding keeps -----

  lemma {:induction false} FoldAppends(b: Buffers, lines: seq<string>, more: seq<string>)
    ensures Fold(b, lines + more) == Fold(Fold(b, lines), more)
    decreases |lines|
  {
    if lines == [] {
      assert lines + more == more;
    } else {
      assert (lines + more)[1..] == lines[1..] + more;
      FoldAppends(Interpret(b, lines[0]), lines[1..], more);
    }
  }

  /** What was dispatched before does not matter to what is dispatched next. */
  lemma {:induction false} FoldShifts(b: Buffers, sent: seq<Event>, lines: seq<string>)
    ensures var f, g := Fold(b, lines), Fold(b.(sent := sent + b.sent), lines);
      f.data == g.data && f.id == g.id && g.sent == sent + f.sent
    decreases |lines|
  {
    if lines != [] {
      assert sent + (b.sent + [Event(b.id, b.data)]) == (sent + b.sent) + [Event(b.id, b.data)];
      InterpretShifts(b, sent, lines[0]);
      FoldShifts(Interpret(b, lines[0]), sent, lines[1..]);
    }
  }

  lemma InterpretShifts(b: Buffers, sent: seq<Event>, line: string)
    ensures Interpret(b.(sent := sent + b.sent), line) == Interpret(b, line).(sent := sent + Interpret(b, line).sent)
  {
    if line == "" && b.data != "" {
      var e := Dispatch(b).sent[|b.sent|];
      assert sent + (b.sent + [e]) == (sent + b.sent) + [e];
    }
  }

  /** Events are never taken back: the first lines of a stream dispatch its first events. */
  lemma FoldGrows(b: Buffers, lines: seq<string>, n: nat)
    requires n <= |lines|
    ensures Fold(b, lines[..n]).sent <= Fold(b, lines).sent
  {
    var mid := Fold(b, lines[..n]);
    assert lines == lines[..n] + lines[n..];
    FoldAppends(b, lines[..n], lines[n..]);
    FoldShifts(mid.(sent := []), mid.sent, lines[n..]);
    assert mid.(sent := mid.sent + []) == mid;
  }
}
