/** `Client` (pkg/mcp/client.go): the session id, and the server-to-client stream with its cursor. */
module Client {
  import opened EventStream
  import opened Sse
  import opened SseTheorems

  /** The JSON library: what it takes for JSON, and how it removes the white space from it. */
  datatype Json = Json(valid: string -> bool, compact: string -> string)

  /** The frame a payload goes to stdout in: one line. */
  function Framed(json: Json, data: string): string {
    if '\n' !in data then data else json.compact(data)
  }

  /** deliverCompact over a list of events: what is no JSON is dropped. */
  function Deliveries(json: Json, events: seq<Event>): seq<string>
    decreases |events|
  {
    if events == [] then []
    else
      var last := |events| - 1;
      Deliveries(json, events[..last]) + if json.valid(events[last].data) then [Framed(json, events[last].data)] else []
  }

  /** How many of the events carry JSON. */
  ghost function Valids(json: Json, events: seq<Event>): nat {
    if events == [] then 0 else Valids(json, events[..|events| - 1]) + if json.valid(events[|events| - 1].data) then 1 else 0
  }

  /**
    The framing of stdout holds: as long as compact JSON has no LF, every event
    with JSON in it becomes exactly one line, and a payload that is one line
    already is that line.
  */
  lemma {:induction false} OneLineEach(json: Json, events: seq<Event>)
    requires forall s :: json.valid(s) ==> '\n' !in json.compact(s)
    ensures |Deliveries(json, events)| == Valids(json, events)
    ensures forall f :: f in Deliveries(json, events) ==> '\n' !in f
    ensures forall e :: e in events && json.valid(e.data) && '\n' !in e.data ==> e.data in Deliveries(json, events)
    decreases |events|
  {
    if events != [] {
      var last := |events| - 1;
      OneLineEach(json, events[..last]);
      assert events == events[..last] + [events[last]];
    }
  }

  /** The cursor after some events: the last id there was. */
  function Cursor(cursor: string, events: seq<Event>): string
    decreases |events|
  {
    if events == [] then cursor
    else
      var last := |events| - 1;
      if events[last].id != "" then events[last].id else Cursor(cursor, events[..last])
  }

  class Client {
    const json: Json
    var sessionID: string
    var lastEventID: string

    constructor (json: Json)
      ensures sessionID == "" && lastEventID == "" && this.json == json
    {
      this.json := json;
      sessionID, lastEventID := "", "";
    }

    /** The cursor goes with the session: an id of a dead session means nothing to a new one. */
    method ClearSession()
      modifies this
      ensures sessionID == "" && lastEventID == ""
    {
      sessionID, lastEventID := "", "";
    }

    /** Only visible ASCII is taken for a session id. */
    method CaptureSession(id: string) returns (taken: bool)
      modifies this`sessionID
      ensures taken == (id != "" && Visible(id))
      ensures sessionID == if taken then id else old(sessionID)
    {
      taken := false;
      if id == "" {
        return;
      }
      var k := 0;
      while k < |id|
        invariant k <= |id| && Visible(id[..k])
      {
        if id[k] < '!' || id[k] > '~' {
          return;
        }
        k := k + 1;
      }
      assert id[..k] == id;
      sessionID := id;
      taken := true;
    }
  
    /** The reading half of listenOnce: the cursor follows the events, each of them handed over. */
    method ReadStream(input: string, end: End) returns (sent: seq<string>, clean: bool)
      modifies this`lastEventID
      ensures sent == Deliveries(json, Events(input, end, ""))
      ensures lastEventID == Cursor(old(lastEventID), Events(input, end, ""))
      ensures clean == end.Eof?
    {
      hide Events, Deliveries, Cursor;
      NothingSeen(json, lastEventID);
      var reader := new Reader(input, end);
      ghost var seen: seq<Event> := [];
      assert reader.Rest() == input;
      sent := [];
      while true
        invariant reader.Valid() && reader.input == input && reader.end == end
        invariant seen + Events(reader.Rest(), end, reader.lastID) == Events(input, end, "")
        invariant sent == Deliveries(json, seen) && lastEventID == Cursor(old(lastEventID), seen)
        decreases |input| - reader.pos
      {
        var r := reader.Next();
        if !r.Got? {
          assert seen + [] == seen;
          return sent, r.Ended?;
        }
        if r.event.id != "" {
          lastEventID := r.event.id;
        }
        sent := Deliver(json, r.event.data, sent);
        OneMore(json, old(lastEventID), seen, r.event);
        seen := seen + [r.event];
      }
    }

    /** listenOnce: one GET, with the cursor of everything seen so far. */
    method ListenOnce(server: Server) returns (r: Listened, sent: seq<string>, answer: Opened)
      requires server.Valid() && server.json == json
      modifies this`lastEventID, server
      ensures server.Valid() && old(server.log) <= server.log
      ensures r.NoStream? <==> answer == Status(405) || (answer == Status(404) && sessionID == "")
      ensures r.SessionExpired? <==> answer == Status(404) && sessionID != ""
      ensures answer.Stream? <==> r.Closed? || r.Dropped?
      ensures answer.Stream? ==> (r.Closed? <==> answer.end.Eof?) && sent == Deliveries(json, Events(answer.input, answer.end, ""))
      ensures !r.Closed? && !r.Dropped? ==> sent == [] && lastEventID == old(lastEventID)
      ensures r.Closed? || r.Dropped? ==> Took(json, Unseen(server.log, old(lastEventID)), old(lastEventID), sent, lastEventID)
    {
      var hadSession := sessionID != "";
      answer := server.Open(lastEventID);
      sent := [];
      match answer {
        case Status(code) =>
          r := if code == 405 || (code == 404 && !hadSession) then NoStream
               else if code == 404 then SessionExpired
               else Unavailable;
        case Stream(input, end) =>
          ghost var rest := Unseen(server.log, lastEventID);
          ghost var n := StreamIsPrefix(json, server.log, lastEventID, input, end);
          assert Events(input, end, "") == rest[..n];
          var clean: bool;
          sent, clean := ReadStream(input, end);
          r := if clean then Closed else Dropped;
      }
    }

    /**
      Listen: however often the stream drops, what is delivered is a gapless
      stretch of the server's log, each event once, and the cursor stands at its end.
    */
    method Listen(server: Server, patience: nat, ghost from: nat) returns (r: Listened, sent: seq<string>, ghost to: nat)
      requires server.Valid() && server.json == json && StandsAt(server.log, lastEventID, from)
      modifies this`lastEventID, server
      ensures server.Valid() && old(server.log) <= server.log
      ensures from <= to <= |server.log| && StandsAt(server.log, lastEventID, to)
      ensures sent == Frames(json, server.log[from..to])
      ensures r.NoStream? || r.SessionExpired? || r.Cancelled?
    {
      hide Frames, Took, Unseen, WellFormed;
      NoFrames(json, server.log, from);
      sent, to := [], from;
      var opens := 0;
      while opens < patience
        invariant server.Valid() && old(server.log) <= server.log
        invariant from <= to <= |server.log| && StandsAt(server.log, lastEventID, to)
        invariant sent == Frames(json, server.log[from..to])
      {
        opens := opens + 1;
        ghost var cursor, log := lastEventID, server.log;
        var more: seq<string>;
        var answer: Opened;
        r, more, answer := ListenOnce(server);
        NoFrames(json, server.log, from);
        sent := sent + more;
        assert server.log[from..to] == log[from..to];
        if r.NoStream? || r.SessionExpired? {
          return;
        }
        if r.Closed? || r.Dropped? {
          to := Advance(json, server.log, cursor, from, to, more, lastEventID);
        }
      }
      r := Cancelled;
    }
  }

  method Deliver(json: Json, data: string, before: seq<string>) returns (sent: seq<string>)
    ensures sent == before + if json.valid(data) then [Framed(json, data)] else []
  {
    if '\n' !in data && json.valid(data) {
      return before + [data];
    }
    if !json.valid(data) {
      return before;
    }
    sent := before + [json.compact(data)];
  }

  // ----- a server that can resume -----

  datatype Opened = Status(code: int) | Stream(input: string, end: End)

  datatype Listened = NoStream | SessionExpired | Unavailable | Closed | Dropped | Cancelled

  /** Every event has an id of its own, JSON data, and a shape that can be printed. */
  predicate WellFormed(json: Json, log: seq<Event>) {
    && (forall k :: 0 <= k < |log| ==> Printable(log[k]) && log[k].id != "" && json.valid(log[k].data))
    && (forall j, k :: 0 <= j < k < |log| ==> log[j].id != log[k].id)
  }

  /** The log strictly after the event with this id; all of it for no id. */
  function Unseen(log: seq<Event>, cursor: string): seq<Event> {
    if cursor == "" then log else After(log, cursor)
  }

  function After(log: seq<Event>, id: string): seq<Event>
    decreases |log|
  {
    if log == [] then [] else if log[0].id == id then log[1..] else After(log[1..], id)
  }

  /** What may arrive: whole events and then a clean end, or any part of them and then a read error. */
  ghost predicate Replay(rest: seq<Event>, input: string, end: End) {
    if end.Eof? then exists n: nat :: n <= |rest| && input == Print(rest[..n])
    else input <= Print(rest)
  }

  class Server {
    const json: Json
    var log: seq<Event>

    constructor (json: Json)
      ensures Valid() && this.json == json && log == []
    {
      this.json := json;
      log := [];
    }

    ghost predicate Valid()
      reads this
    {
      WellFormed(json, log)
    }

    /** By the time of a request the log may have grown; a stream replays it from the client's cursor on. */
    method Open(cursor: string) returns (o: Opened)
      requires Valid()
      modifies this
      ensures Valid() && old(log) <= log
      ensures o.Stream? ==> Replay(Unseen(log, cursor), o.input, o.end)
    {
      var grown: seq<Event> := *;
      if log <= grown && WellFormed(json, grown) {
        log := grown;
      }
      var rest, cut: nat, kind: int := Unseen(log, cursor), *, *;
      if kind == 0 {
        var text := Print(rest);
        o := Stream(text[..if cut <= |text| then cut else |text|], Broken);
      } else if kind == 1 {
        var n := if cut <= |rest| then cut else |rest|;
        o := Stream(Print(rest[..n]), Eof);
      } else {
        o := Status(kind);
      }
    }
  }

  // ----- positions in the log -----

  /** Some first events of `rest` were delivered, and the cursor is that of the last of them. */
  ghost predicate Took(json: Json, rest: seq<Event>, cursor: string, sent: seq<string>, next: string) {
    exists n: nat :: n <= |rest| && sent == Deliveries(json, rest[..n]) && next == Cursor(cursor, rest[..n])
  }

  ghost predicate StandsAt(log: seq<Event>, cursor: string, n: nat) {
    n <= |log| && cursor == if n == 0 then "" else log[n - 1].id
  }

  /** What is delivered for a stretch of the log: a frame for every event of it. */
  function Frames(json: Json, events: seq<Event>): seq<string>
    decreases |events|
  {
    if events == [] then [] else [Framed(json, events[0].data)] + Frames(json, events[1..])
  }

  ghost predicate Visible(id: string) {
    forall k :: 0 <= k < |id| ==> '!' <= id[k] <= '~'
  }

  lemma NothingSeen(json: Json, cursor: string)
    ensures Deliveries(json, []) == [] && Cursor(cursor, []) == cursor
  {
  }

  lemma OneMore(json: Json, cursor: string, seen: seq<Event>, e: Event)
    ensures Deliveries(json, seen + [e]) == Deliveries(json, seen) + if json.valid(e.data) then [Framed(json, e.data)] else []
    ensures Cursor(cursor, seen + [e]) == if e.id != "" then e.id else Cursor(cursor, seen)
  {
    assert (seen + [e])[..|seen|] == seen;
  }

  lemma {:induction false} AfterAt(log: seq<Event>, n: nat)
    requires n < |log| && forall k :: 0 <= k < n ==> log[k].id != log[n].id
    ensures After(log, log[n].id) == log[n + 1..]
    decreases n
  {
    if n > 0 {
      assert log[1..][n - 1] == log[n];
      AfterAt(log[1..], n - 1);
    }
  }

  /** The server's replay picks up exactly where the cursor stands. */
  lemma UnseenIsTail(json: Json, log: seq<Event>, cursor: string, n: nat)
    requires WellFormed(json, log) && StandsAt(log, cursor, n)
    ensures Unseen(log, cursor) == log[n..]
  {
    if n > 0 {
      AfterAt(log, n - 1);
    }
  }

  lemma {:induction false} UnseenFromLog(log: seq<Event>, id: string)
    ensures forall e :: e in After(log, id) ==> e in log
    decreases |log|
  {
    if log != [] && log[0].id != id {
      UnseenFromLog(log[1..], id);
    }
  }

  /** However a replay stops, what the reader makes of it is the beginning of it. */
  lemma StreamIsPrefix(json: Json, log: seq<Event>, cursor: string, input: string, end: End) returns (n: nat)
    requires WellFormed(json, log) && Replay(Unseen(log, cursor), input, end)
    ensures n <= |Unseen(log, cursor)| && Events(input, end, "") == Unseen(log, cursor)[..n]
  {
    var rest := Unseen(log, cursor);
    hide Events, Print, Printable;
    UnseenFromLog(log, cursor);
    assert forall e :: e in rest ==> e in log && Printable(e);
    if end.Eof? {
      n :| n <= |rest| && input == Print(rest[..n]);
      assert forall e :: e in rest[..n] ==> e in rest;
      PrintReadRoundTrip(rest[..n], Eof, "");
    } else {
      PrintReadRoundTrip(rest, Broken, "");
      assert input == Print(rest)[..|input|];
      BrokenStreamYieldsPrefix(Print(rest), |input|, "");
      n := |Events(input, Broken, "")|;
    }
  }

  lemma {:induction false} CursorAtEnd(cursor: string, events: seq<Event>)
    requires forall e :: e in events ==> e.id != ""
    ensures Cursor(cursor, events) == if events == [] then cursor else events[|events| - 1].id
  {
  }

  lemma {:induction false} FramesJoin(json: Json, a: seq<Event>, b: seq<Event>)
    ensures Frames(json, a + b) == Frames(json, a) + Frames(json, b)
    decreases |a|
  {
    if a == [] {
      assert a + b == b;
    } else {
      assert (a + b)[1..] == a[1..] + b;
      FramesJoin(json, a[1..], b);
    }
  }

  lemma {:induction false} AllDelivered(json: Json, events: seq<Event>)
    requires forall e :: e in events ==> json.valid(e.data)
    ensures Deliveries(json, events) == Frames(json, events)
    decreases |events|
  {
    if events != [] {
      var last := |events| - 1;
      assert events[last] in events;
      AllDelivered(json, events[..last]);
      assert events == events[..last] + [events[last]];
      FramesJoin(json, events[..last], [events[last]]);
    }
  }

  lemma NoFrames(json: Json, log: seq<Event>, n: nat)
    requires n <= |log|
    ensures Frames(json, log[n..n]) == []
  {
  }

  /** What a stream delivered continues what was delivered before it. */
  lemma Advance(json: Json, log: seq<Event>, cursor: string, from: nat, to: nat, more: seq<string>, next: string) returns (to': nat)
    requires WellFormed(json, log) && StandsAt(log, cursor, to) && from <= to
    requires Took(json, Unseen(log, cursor), cursor, more, next)
    ensures to <= to' <= |log| && StandsAt(log, next, to')
    ensures Frames(json, log[from..to]) + more == Frames(json, log[from..to'])
  {
    hide Framed, Printable, WellFormed, Frames, Deliveries, Cursor, Unseen;
    UnseenIsTail(json, log, cursor, to);
    var n: nat :| n <= |log[to..]| && more == Deliveries(json, log[to..][..n]) && next == Cursor(cursor, log[to..][..n]);
    to' := to + n;
    assert log[to..][..n] == log[to..to'];
    Stretch(json, log, cursor, to, to');
    FramesJoin(json, log[from..to], log[to..to']);
    assert log[from..to] + log[to..to'] == log[from..to'];
  }

  lemma InLog(json: Json, log: seq<Event>, from: nat, to: nat)
    requires WellFormed(json, log) && from <= to <= |log|
    ensures forall e :: e in log[from..to] ==> e.id != "" && json.valid(e.data)
  {
  }

  lemma Stretch(json: Json, log: seq<Event>, cursor: string, from: nat, to: nat)
    requires WellFormed(json, log) && StandsAt(log, cursor, from) && from <= to <= |log|
    ensures StandsAt(log, Cursor(cursor, log[from..to]), to)
    ensures Deliveries(json, log[from..to]) == Frames(json, log[from..to])
  {
    hide WellFormed, Frames, Deliveries, Cursor;
    InLog(json, log, from, to);
    CursorAtEnd(cursor, log[from..to]);
    AllDelivered(json, log[from..to]);
  }
}
