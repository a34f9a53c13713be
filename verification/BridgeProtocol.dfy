/**
  The stdio bridge as a transition system (pkg/mcp/bridge.go, with the session
  state of pkg/mcp/client.go): the Run goroutine, any number of sender
  goroutines, and the listener of the server-to-client stream.

  handshakeMu guards the generation, `sessioned` and the cached handshake;
  the session id has a mutex of its own, so reading it and setting it are
  single steps that may fall anywhere, also into another thread's re-init.
*/
module BridgeProtocol {
  import opened Wrappers

  datatype Kind = Initialize | Initialized | Ordinary

  /** A stdin line, as far as the bridge looks at it. */
  datatype Message = Message(text: string, kind: Kind, isRequest: bool)

  /** Why a request is sent. */
  datatype Job = InitPost | NotePost | FirstPost | Replay | ReInit | ReNote | Get

  datatype Request = Request(thread: nat, job: Job, line: nat, session: string)

  /** A line on stdout: something the server said in answer to `job`, or a -32603 for a stdin line. */
  datatype Line = Delivered(thread: nat, job: Job, line: nat) | Synthesized(line: nat)

  datatype Reply = Accepted(session: string) | NotFound | NotAllowed | OtherError

  datatype Role = Main | Sender | Listener

  datatype Pc =
    | AwaitLine | Over
    | ReadingGen                                         // send or the listener, before generation()
    | Building(job: Job)                                 // before prepare
    | Flying(sent: Job, session: string)                 // request out, no response yet
    | Reading(read: Job, with: string)                   // response accepted, body coming in
    | InitAnswered                                       // initialize answered, `sessioned` not recorded yet
    | Got404                                             // before everSessioned()
    | WantReinit                                         // before handshakeMu in reinit
    | Clearing                                           // reinit, holding handshakeMu
    | Bumping                                            // reinit, about to count the new generation
    | Reporting                                          // before synthesizeError

  /**
    `line` indexes stdin; `saw` is the session id of the last request.  In a
    re-init `cause` is that of the request whose 404 called for it, and `was`
    the one that is cleared.
  */
  datatype Thread = Thread(role: Role, line: nat, pc: Pc, gen: nat, saw: string, cause: string, was: string)

  /** What became of one stdin line: was it given to send, POST calls made for it, how many returned nil, is it dealt with. */
  datatype Account = Account(bySend: bool, posts: nat, oks: nat, over: bool)

  datatype Replaced = Replaced(gen: nat, cause: string, was: string)

  datatype State = State(
    // Bridge
    gen: nat,
    sessioned: bool,
    initReq: Option<Message>,
    initNote: Option<Message>,
    initDone: bool,
    noteDone: bool,
    mutex: Option<nat>,             // handshakeMu, while a re-init holds it
    // Client
    session: string,
    // the server
    live: set<string>,
    issued: set<string>,
    // what happened
    lines: seq<Message>,
    accounts: seq<Account>,
    wire: seq<Request>,
    out: seq<Line>,
    mark: Option<nat>,              // |wire| when the handshake was complete
    reinits: seq<Replaced>,
    noSSE: bool,
    threads: seq<Thread>)

  datatype Action =
    | ReadLine(m: Message) | Stop
    | ReadGen
    | GiveUp | Prepare | Retry | Respond(reply: Reply) | Deliver | Finish(ok: bool)
    | RecordSession
    | AskSessioned | EnterReinit | Clear | Bump
    | Report

  datatype Event = Kill(session: string) | Do(i: nat, a: Action)

  // ----- which steps are possible -----

  /** The request is an initialize: of the handshake, of a re-init, or one the client sends later. */
  predicate Initializes(s: State, t: Thread, job: Job) {
    job == InitPost || job == ReInit || (ForLine(job) && t.line < |s.lines| && s.lines[t.line].kind.Initialize?)
  }

  predicate Enabled(s: State, i: nat, a: Action)
    requires i < |s.threads|
  {
    var t := s.threads[i];
    match a
    case ReadLine(_) => t.pc.AwaitLine?
    case Stop => t.pc.AwaitLine? || (t.role.Listener? && t.pc == Building(Get))
    case ReadGen => t.pc.ReadingGen? && s.mutex.None?
      // The token provider has nothing to offer: no request at all.
    case GiveUp => t.pc.Building?
    case Prepare => t.pc.Building?
      // A 401 makes doAuthed build the request anew.
    case Retry => t.pc.Flying?
      // Mcp-Session-Id arrives on responses that accept an initialize only, and is never reused.
    case Respond(reply) =>
      && t.pc.Flying?
      && (reply.Accepted? && reply.session != "" ==> Initializes(s, t, t.pc.sent) && reply.session !in s.issued)
    case Deliver => t.pc.Reading?
    case Finish(_) => t.pc.Reading?
    case RecordSession => t.pc.InitAnswered? && s.mutex.None?
    case AskSessioned => t.pc.Got404? && s.mutex.None?
    case EnterReinit => t.pc.WantReinit? && s.mutex.None?
    case Clear => t.pc.Clearing?
    case Bump => t.pc.Bumping?
    case Report => t.pc.Reporting?
  }

  // ----- what a step does to the thread taking it -----

  /** Where send or the listener goes once reinit has returned nil. */
  function AfterReinit(t: Thread): Pc {
    if t.role.Listener? then ReadingGen else Building(Replay)
  }

  /** Where a thread goes when reinit has returned an error. */
  function ReinitFailed(t: Thread): Pc {
    if t.role.Listener? then Over else Reporting
  }

  function MessageDone(t: Thread): Pc {
    if t.role.Main? then AwaitLine else Over
  }

  /** A Post, or the GET stream, that returned nil. */
  function Succeeded(s: State, t: Thread, job: Job): Pc {
    match job
    case InitPost => InitAnswered
    case NotePost => AwaitLine
    case FirstPost => MessageDone(t)
    case Replay => MessageDone(t)
    case ReInit => if s.initNote.Some? then Building(ReNote) else Bumping
    case ReNote => Bumping
    case Get => Building(Get)
  }

  /** A Post, or the GET stream, that returned an error. */
  function FailedWith(t: Thread, job: Job, session: string, reply: Reply): Pc {
    match job
    case InitPost => Reporting
    case NotePost => AwaitLine
    case FirstPost => if reply.NotFound? then Got404 else Reporting
    case Replay => Reporting
    case ReInit => ReinitFailed(t)
    case ReNote => Bumping
    case Get =>
      if reply.NotAllowed? || (reply.NotFound? && session == "") then Over
      else if reply.NotFound? then WantReinit
      else Building(Get)
  }

  /** What the Run goroutine does first with a line. */
  function Dispatch(s: State, m: Message): Pc {
    if s.mark.Some? then AwaitLine
    else
      match m.kind
      case Initialize => Building(InitPost)
      case Initialized => Building(NotePost)
      case Ordinary => ReadingGen
  }

  function NextThread(s: State, i: nat, a: Action): Thread
    requires i < |s.threads| && Enabled(s, i, a)
  {
    var t := s.threads[i];
    match a
    case ReadLine(m) => t.(pc := Dispatch(s, m), line := |s.lines|)
    case Stop => t.(pc := Over)
    case ReadGen => t.(gen := s.gen, pc := Building(if t.role.Listener? then Get else FirstPost))
    case GiveUp => t.(pc := FailedWith(t, t.pc.job, "", OtherError))
    case Prepare => t.(pc := Flying(t.pc.job, s.session), saw := s.session)
    case Retry => t.(pc := Building(t.pc.sent))
    case Respond(reply) =>
      t.(pc := if reply.Accepted? then Reading(t.pc.sent, t.pc.session) else FailedWith(t, t.pc.sent, t.pc.session, reply))
    case Deliver => t
    case Finish(ok) =>
      t.(pc := if ok then Succeeded(s, t, t.pc.read) else FailedWith(t, t.pc.read, t.pc.with, OtherError))
    case RecordSession => t.(pc := AwaitLine)
    case AskSessioned => t.(pc := if s.sessioned then WantReinit else Reporting)
    case EnterReinit => t.(cause := t.saw, pc := if s.gen == t.gen then Clearing else AfterReinit(t))
    case Clear => t.(was := s.session, pc := if s.initReq.Some? then Building(ReInit) else ReinitFailed(t))
    case Bump => t.(pc := AfterReinit(t))
    case Report => t.(pc := if t.role.Main? && ReportsInit(s, t) then Over else MessageDone(t))
  }

  /** The failed line was the initialize of the handshake: Run answers it and ends. */
  predicate ReportsInit(s: State, t: Thread) {
    t.line < |s.lines| && s.lines[t.line].kind.Initialize?
  }

  // ----- what a step does to everything shared -----

  /** This step of the Run goroutine completes the handshake. */
  predicate Completes(s: State, i: nat, a: Action)
    requires i < |s.threads| && Enabled(s, i, a)
  {
    && s.mark.None?
    && NextInitDone(s, i, a) && NextNoteDone(s, i, a)
    && s.threads[i].role.Main? && NextThread(s, i, a).pc.AwaitLine?
  }

  predicate NextInitDone(s: State, i: nat, a: Action)
    requires i < |s.threads| && Enabled(s, i, a)
  {
    s.initDone || a.RecordSession?
  }

  /** The initialized POST returned, with or without an error. */
  predicate NextNoteDone(s: State, i: nat, a: Action)
    requires i < |s.threads| && Enabled(s, i, a)
  {
    var pc := s.threads[i].pc;
    || s.noteDone
    || (a.Finish? && pc.read == NotePost)
    || (a.GiveUp? && pc.job == NotePost)
    || (a.Respond? && pc.sent == NotePost && !a.reply.Accepted?)
  }

  function Fresh(role: Role, line: nat): Thread {
    Thread(role, line, ReadingGen, 0, "", "", "")
  }

  /** Goroutines this step starts: a sender per line after the handshake, the listener at its end. */
  function Spawned(s: State, i: nat, a: Action): seq<Thread>
    requires i < |s.threads| && Enabled(s, i, a)
  {
    if a.ReadLine? && s.mark.Some? then [Fresh(Sender, |s.lines|)]
    else if Completes(s, i, a) && !s.noSSE then [Fresh(Listener, 0)]
    else []
  }

  function NextMutex(s: State, i: nat, a: Action): Option<nat>
    requires i < |s.threads| && Enabled(s, i, a)
  {
    var t := s.threads[i];
    match a
    case EnterReinit => if s.gen == t.gen then Some(i) else s.mutex
    case Clear => if s.initReq.Some? then s.mutex else None
    case Bump => None
    case Respond(reply) => if t.pc.sent == ReInit && !reply.Accepted? then None else s.mutex
    case Finish(ok) => if t.pc.read == ReInit && !ok then None else s.mutex
    case GiveUp => if t.pc.job == ReInit then None else s.mutex
    case _ => s.mutex
  }

  function NextSession(s: State, i: nat, a: Action): string
    requires i < |s.threads| && Enabled(s, i, a)
  {
    match a
    case Clear => ""
    case Respond(Accepted(id)) => if id != "" then id else s.session
    case _ => s.session
  }

  function Assigns(a: Action): set<string> {
    if a.Respond? && a.reply.Accepted? && a.reply.session != "" then {a.reply.session} else {}
  }

  function NextWire(s: State, i: nat, a: Action): seq<Request>
    requires i < |s.threads| && Enabled(s, i, a)
  {
    var t := s.threads[i];
    if a.Prepare? then s.wire + [Request(i, t.pc.job, t.line, s.session)] else s.wire
  }

  function NextOut(s: State, i: nat, a: Action): seq<Line>
    requires i < |s.threads| && Enabled(s, i, a)
  {
    var t := s.threads[i];
    if a.Deliver? && !ForReinit(t.pc.read) then s.out + [Delivered(i, t.pc.read, t.line)]
    else if a.Report? && t.line < |s.lines| && s.lines[t.line].isRequest then s.out + [Synthesized(t.line)]
    else s.out
  }

  /** The answers to a re-init's own requests are consumed, not written. */
  predicate ForReinit(job: Job) { job == ReInit || job == ReNote }

  predicate ForLine(job: Job) { job == InitPost || job == NotePost || job == FirstPost || job == Replay }

  /** A Post of the thread's own line begins, ends well, or the line is dealt with. */
  function NextAccounts(s: State, i: nat, a: Action): seq<Account>
    requires i < |s.threads| && Enabled(s, i, a)
  {
    var t, n := s.threads[i], NextThread(s, i, a);
    if a.ReadLine? then s.accounts + [Account(!n.pc.Building?, if n.pc.Building? then 1 else 0, 0, false)]
    else if t.line < |s.accounts| && !t.role.Listener? then
      var c := s.accounts[t.line];
      var begins := (a.ReadGen? || a.EnterReinit? || a.Bump?) && n.pc.Building? && ForLine(n.pc.job);
      var ok := a.Finish? && a.ok && ForLine(t.pc.read);
      var over := (n.pc.AwaitLine? || n.pc.Over?) && !a.Stop?;
      s.accounts[t.line := Account(c.bySend, c.posts + (if begins then 1 else 0), c.oks + (if ok then 1 else 0), c.over || over)]
    else s.accounts
  }

  function Apply(s: State, i: nat, a: Action): State
    requires i < |s.threads| && Enabled(s, i, a)
  {
    State(
      if a.Bump? then s.gen + 1 else s.gen,
      if a.RecordSession? then s.session != "" else s.sessioned,
      if a.ReadLine? && s.mark.None? && a.m.kind.Initialize? then Some(a.m) else s.initReq,
      if a.ReadLine? && s.mark.None? && a.m.kind.Initialized? then Some(a.m) else s.initNote,
      NextInitDone(s, i, a),
      NextNoteDone(s, i, a),
      NextMutex(s, i, a),
      NextSession(s, i, a),
      s.live + Assigns(a),
      s.issued + Assigns(a),
      if a.ReadLine? then s.lines + [a.m] else s.lines,
      NextAccounts(s, i, a),
      NextWire(s, i, a),
      NextOut(s, i, a),
      if Completes(s, i, a) then Some(|s.wire|) else s.mark,
      if a.Bump? then s.reinits + [Replaced(s.gen, s.threads[i].cause, s.threads[i].was)] else s.reinits,
      s.noSSE,
      s.threads[i := NextThread(s, i, a)] + Spawned(s, i, a))
  }

  // ----- runs -----

  predicate Possible(s: State, e: Event) {
    match e
    case Kill(_) => true
    case Do(i, a) => i < |s.threads| && Enabled(s, i, a)
  }

  function Next(s: State, e: Event): State
    requires Possible(s, e)
  {
    match e
    case Kill(id) => s.(live := s.live - {id})
    case Do(i, a) => Apply(s, i, a)
  }

  predicate Legal(s: State, run: seq<Event>)
    decreases |run|
  {
    run == [] || (Possible(s, run[0]) && Legal(Next(s, run[0]), run[1..]))
  }

  function After(s: State, run: seq<Event>): State
    requires Legal(s, run)
    decreases |run|
  {
    if run == [] then s else After(Next(s, run[0]), run[1..])
  }

  /** The bridge before it reads its first line. */
  function Start(noSSE: bool): State {
    State(0, false, None, None, false, false, None, "", {}, {}, [], [], [], [], None, [], noSSE,
          [Thread(Main, 0, AwaitLine, 0, "", "", "")])
  }
}
