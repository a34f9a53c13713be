/**
  The promises of the bridge, over every run: one re-init per dead session, the
  handshake first and in order, and one answer per request on stdout.
*/
module BridgeTheorems {
  import opened Wrappers
  import opened BridgeProtocol
  import opened BridgeInvariant

  ghost predicate Reaches(noSSE: bool, run: seq<Event>, s: State) {
    Legal(Start(noSSE), run) && After(Start(noSSE), run) == s
  }

  lemma Reached(noSSE: bool, run: seq<Event>, s: State)
    requires Reaches(noSSE, run, s)
    ensures Inv(s)
  {
    StartInv(noSSE);
    RunKeepsInv(Start(noSSE), run);
  }

  // ----- generations -----

  /** The generation is the number of successful re-inits, and each generation saw exactly one of them. */
  lemma GenerationsCountReinits(noSSE: bool, run: seq<Event>, s: State, k: nat)
    requires Reaches(noSSE, run, s) && k < |s.reinits|
    ensures s.gen == |s.reinits| && s.reinits[k].gen == k
  {
    Reached(noSSE, run, s);
  }

  // ----- sessions, when the server answers 404 only for sessions it does not honour -----

  /** A 404 means a dead or missing session, and the re-init's own initialize succeeds with a session. */
  ghost predicate HonestEvent(s: State, e: Event)
    requires Possible(s, e)
  {
    e.Do? ==>
      var t := s.threads[e.i];
      && (e.a.Respond? && e.a.reply.NotFound? ==> t.pc.session !in s.live)
      && (e.a.Respond? && t.pc.sent == ReInit ==> e.a.reply.Accepted? && e.a.reply.session != "")
      && (e.a.Finish? && t.pc.read == ReInit ==> e.a.ok)
      && (e.a.GiveUp? ==> t.pc.job != ReInit)
  }

  ghost predicate HonestRun(s: State, run: seq<Event>)
    requires Legal(s, run)
    decreases |run|
  {
    run == [] || (HonestEvent(s, run[0]) && HonestRun(Next(s, run[0]), run[1..]))
  }

  /** On the way from a request to the re-init it may cause. */
  ghost predicate Watching(pc: Pc) {
    match pc
    case Flying(job, _) => job == FirstPost || job == Get
    case Got404 | WantReinit => true
    case _ => false
  }

  /** In reinit, the old session cleared and the new one not there yet; and with the new one there. */
  ghost predicate Bare(pc: Pc) { pc == Building(ReInit) || (pc.Flying? && pc.sent == ReInit) }
  ghost predicate Renewed(pc: Pc) { InBody(pc) && !pc.Clearing? && !Bare(pc) }

  ghost predicate Dead(s: State, id: string) { id in s.issued && id !in s.live }

  /** A thread that may ask for a re-init: the session of its request is not one that a re-init was already called for. */
  ghost predicate WatchFits(s: State, t: Thread) {
    && (t.saw == "" || t.saw in s.issued)
    && (Watching(t.pc) && t.gen == s.gen ==> !WasCause(s.reinits, t.saw))
    && (Watching(t.pc) && t.gen == s.gen && s.mutex.None? && s.sessioned ==> t.saw != "")
    && (t.pc.Got404? || t.pc.WantReinit? ==> t.saw !in s.live)
    && (t.pc.WantReinit? ==> if t.role.Listener? then t.saw != "" else s.sessioned)
  }

  ghost predicate RenewFits(s: State, t: Thread) {
    && (InBody(t.pc) ==> Dead(s, t.cause) && !WasCause(s.reinits, t.cause))
    && (InBody(t.pc) && !t.pc.Clearing? ==> t.cause != s.session)
    && (Renewed(t.pc) ==> s.session != "")
  }

  ghost predicate WasCause(reinits: seq<Replaced>, id: string) {
    exists k :: 0 <= k < |reinits| && reinits[k].cause == id
  }

  ghost predicate CausesFit(s: State) {
    && (forall k :: 0 <= k < |s.reinits| ==> Dead(s, s.reinits[k].cause) && s.reinits[k].cause != s.session)
    && (forall j, k :: 0 <= j < k < |s.reinits| ==> s.reinits[j].cause != s.reinits[k].cause)
  }

  ghost predicate SessionInv(s: State) {
    && (s.session == "" || s.session in s.issued)
    && "" !in s.issued && s.live <= s.issued
    && (s.mutex.None? && s.sessioned ==> s.session != "")
    && (forall i :: 0 <= i < |s.threads| ==> WatchFits(s, s.threads[i]) && RenewFits(s, s.threads[i]))
    && CausesFit(s)
  }

  ghost predicate Honest(s: State, i: nat, a: Action) {
    Inv(s) && SessionInv(s) && Possible(s, Do(i, a)) && HonestEvent(s, Do(i, a))
  }

  /** The session id is lost only in a re-init's hands, and handshakeMu released only with a new generation. */
  lemma SessionMoves(s: State, i: nat, a: Action)
    requires Honest(s, i, a)
    ensures a.RecordSession? ==> |s.threads| == 1
    ensures s.mutex.Some? && NextMutex(s, i, a).None? ==> a.Bump?
    ensures NextSession(s, i, a) != s.session && NextSession(s, i, a) == "" ==> a.Clear? && NextMutex(s, i, a).Some?
    ensures NextSession(s, i, a) != s.session ==> NextSession(s, i, a) !in s.issued
  {
    var t := s.threads[i];
    assert RoleFits(t);
    assert InBody(t.pc) ==> s.mutex == Some(i);
    assert t.role.Main? <==> i == 0;
    assert NeedsInit(t) ==> s.initReq.Some?;
  }

  /** What a step of one thread needs to know about that thread and the shared state. */
  ghost predicate Local(s: State, t: Thread) {
    && RoleFits(t) && GenFits(s.gen, t) && WatchFits(s, t) && RenewFits(s, t)
    && (InBody(t.pc) ==> s.mutex.Some?) && (NeedsInit(t) ==> s.initReq.Some?)
    && (s.session == "" || s.session in s.issued) && "" !in s.issued && s.live <= s.issued
    && (s.mutex.None? && s.sessioned ==> s.session != "")
    && |s.reinits| == s.gen && (forall k :: 0 <= k < |s.reinits| ==> s.reinits[k].cause != s.session && s.reinits[k].cause in s.issued)
  }

  lemma Locally(s: State, i: nat)
    requires Inv(s) && SessionInv(s) && i < |s.threads|
    ensures Local(s, s.threads[i])
  {
    var t := s.threads[i];
    assert RoleFits(t) && GenFits(s.gen, t) && WatchFits(s, t) && RenewFits(s, t);
    assert InBody(t.pc) ==> s.mutex == Some(i);
  }

  ghost predicate Steps(s: State, i: nat, a: Action) {
    i < |s.threads| && Enabled(s, i, a) && HonestEvent(s, Do(i, a)) && Local(s, s.threads[i])
  }

  lemma WatchSelf(s: State, i: nat, a: Action)
    requires Steps(s, i, a)
    ensures WatchFits(Apply(s, i, a), NextThread(s, i, a))
  {
  }

  lemma RenewSelf(s: State, i: nat, a: Action)
    requires Steps(s, i, a)
    ensures RenewFits(Apply(s, i, a), NextThread(s, i, a))
  {
  }

  lemma SessionOther(s: State, i: nat, a: Action, j: nat)
    requires Steps(s, i, a) && j < |s.threads| && j != i && Local(s, s.threads[j])
    requires InBody(s.threads[i].pc) ==> !InBody(s.threads[j].pc)
    requires NextSession(s, i, a) != s.session && NextSession(s, i, a) == "" ==> InBody(s.threads[i].pc)
    requires NextSession(s, i, a) != s.session ==> NextSession(s, i, a) !in s.issued
    requires s.mutex.Some? && NextMutex(s, i, a).None? ==> a.Bump?
    requires !a.RecordSession?
    ensures WatchFits(Apply(s, i, a), s.threads[j]) && RenewFits(Apply(s, i, a), s.threads[j])
  {
  }

  lemma SessionShared(s: State, i: nat, a: Action)
    requires Steps(s, i, a) && CausesFit(s)
    requires s.mutex.Some? && NextMutex(s, i, a).None? ==> a.Bump?
    requires NextSession(s, i, a) != s.session && NextSession(s, i, a) == "" ==> NextMutex(s, i, a).Some?
    ensures var n := Apply(s, i, a);
      && (n.session == "" || n.session in n.issued)
      && "" !in n.issued && n.live <= n.issued
      && (n.mutex.None? && n.sessioned ==> n.session != "")
      && CausesFit(n)
  {
  }

  lemma Apart(s: State, i: nat, j: nat)
    requires Inv(s) && i < |s.threads| && j < |s.threads| && i != j
    ensures InBody(s.threads[i].pc) ==> !InBody(s.threads[j].pc) && s.mutex == Some(i)
  {
  }

  lemma SessionThread(s: State, i: nat, a: Action, j: nat)
    requires Honest(s, i, a) && j < |Apply(s, i, a).threads|
    ensures var n := Apply(s, i, a); WatchFits(n, n.threads[j]) && RenewFits(n, n.threads[j])
  {
    Locally(s, i);
    SpawnedAre(s, i, a);
    if j == i {
      WatchSelf(s, i, a);
      RenewSelf(s, i, a);
    } else if j < |s.threads| {
      Locally(s, j);
      Apart(s, i, j);
      Apart(s, j, i);
      SessionMoves(s, i, a);
      hide Inv, SessionInv, Local, WatchFits, RenewFits;
      SessionOther(s, i, a, j);
      assert Apply(s, i, a).threads[j] == s.threads[j];
    }
  }

  lemma SessionStep(s: State, i: nat, a: Action)
    requires Honest(s, i, a)
    ensures SessionInv(Apply(s, i, a))
  {
    hide WatchFits, RenewFits, Local, Inv, HonestEvent, Dead, CausesFit;
    var n := Apply(s, i, a);
    Locally(s, i);
    SessionMoves(s, i, a);
    SessionShared(s, i, a);
    forall j | 0 <= j < |n.threads|
      ensures WatchFits(n, n.threads[j]) && RenewFits(n, n.threads[j])
    {
      SessionThread(s, i, a, j);
    }
  }

  lemma {:induction false} SessionsKept(s: State, run: seq<Event>)
    requires Inv(s) && SessionInv(s) && Legal(s, run) && HonestRun(s, run)
    ensures SessionInv(After(s, run))
    decreases |run|
  {
    if run != [] {
      EventKeepsInv(s, run[0]);
      if run[0].Do? {
        SessionStep(s, run[0].i, run[0].a);
      } else {
        KillStep(s, run[0].session);
      }
      SessionsKept(Next(s, run[0]), run[1..]);
    }
  }

  lemma KillStep(s: State, id: string)
    requires SessionInv(s)
    ensures SessionInv(Next(s, Kill(id)))
  {
    var n := Next(s, Kill(id));
    forall i | 0 <= i < |n.threads|
      ensures WatchFits(n, n.threads[i]) && RenewFits(n, n.threads[i])
    {
      assert WatchFits(s, s.threads[i]) && RenewFits(s, s.threads[i]);
    }
  }

  lemma StartSessions(noSSE: bool)
    ensures SessionInv(Start(noSSE))
  {
  }

  /**
    Each re-init, the first one included, was called for by a 404 to a session
    that the server had issued and no longer honours, and that is not the
    current one; no two were called for by the same session.
  */
  lemma OneReinitPerDeadSession(noSSE: bool, run: seq<Event>, s: State)
    requires Reaches(noSSE, run, s) && HonestRun(Start(noSSE), run)
    ensures forall k :: 0 <= k < |s.reinits| ==>
      s.reinits[k].cause in s.issued && s.reinits[k].cause !in s.live && s.reinits[k].cause != "" && s.reinits[k].cause != s.session
    ensures forall j, k :: 0 <= j < k < |s.reinits| ==> s.reinits[j].cause != s.reinits[k].cause
  {
    StartInv(noSSE);
    StartSessions(noSSE);
    SessionsKept(Start(noSSE), run);
  }

  /** So there are never more re-inits than sessions that died, however many threads saw the same 404. */
  lemma ReinitsBoundedByDead(noSSE: bool, run: seq<Event>, s: State)
    requires Reaches(noSSE, run, s) && HonestRun(Start(noSSE), run)
    ensures s.gen <= |s.issued - s.live|
  {
    OneReinitPerDeadSession(noSSE, run, s);
    GenerationsCount(noSSE, run, s);
    var _ := Distinct(s.reinits, s.issued - s.live);
  }

  lemma GenerationsCount(noSSE: bool, run: seq<Event>, s: State)
    requires Reaches(noSSE, run, s)
    ensures s.gen == |s.reinits|
  {
    Reached(noSSE, run, s);
  }

  lemma {:induction false} Distinct(reinits: seq<Replaced>, ids: set<string>) returns (used: set<string>)
    requires forall k :: 0 <= k < |reinits| ==> reinits[k].cause in ids
    requires forall j, k :: 0 <= j < k < |reinits| ==> reinits[j].cause != reinits[k].cause
    ensures |used| == |reinits| <= |ids| && used <= ids
    ensures forall id :: id in used ==> WasCause(reinits, id)
  {
    if reinits == [] {
      used := {};
    } else {
      var last := |reinits| - 1;
      var rest := Distinct(reinits[..last], ids);
      assert forall id :: id in rest ==> WasCause(reinits, id) && id != reinits[last].cause by {
        forall id | id in rest
          ensures WasCause(reinits, id) && id != reinits[last].cause
        {
          assert WasCause(reinits[..last], id);
        }
      }
      used := rest + {reinits[last].cause};
      Subset(used, ids);
    }
  }

  lemma {:induction false} Subset(a: set<string>, b: set<string>)
    requires a <= b
    ensures |a| <= |b|
  {
    if a != {} {
      var x :| x in a;
      Subset(a - {x}, b - {x});
    }
  }

  // ----- the handshake on the wire -----

  /**
    What went out before the handshake was complete came from the Run
    goroutine alone, in stdin order; everything else went out afterwards,
    and only once initialize had been answered and the initialized POST had returned.
  */
  lemma HandshakeOrder(noSSE: bool, run: seq<Event>, s: State, k: nat)
    requires Reaches(noSSE, run, s) && k < |s.wire|
    ensures s.wire[k].thread != 0 ==> s.mark.Some? && s.mark.value <= k && s.initDone && s.noteDone
    ensures s.wire[k].thread == 0 ==> s.mark.None? || k < s.mark.value
    ensures s.wire[k].thread == 0 ==> forall j :: 0 <= j < k ==> s.wire[j].thread == 0 && s.wire[j].line <= s.wire[k].line
  {
    Reached(noSSE, run, s);
  }

  /** No sender and no listener exists before the handshake is complete. */
  lemma AloneUntilHandshake(noSSE: bool, run: seq<Event>, s: State)
    requires Reaches(noSSE, run, s) && (s.mark.None? || !s.initDone || !s.noteDone)
    ensures |s.threads| == 1 && s.threads[0].role.Main?
  {
    Reached(noSSE, run, s);
  }

  /** A re-init always finds the initialize request it needs. */
  lemma InitializeIsCached(noSSE: bool, run: seq<Event>, s: State, i: nat)
    requires Reaches(noSSE, run, s) && i < |s.threads| && Enabled(s, i, Clear)
    ensures s.initReq.Some?
  {
    Reached(noSSE, run, s);
    assert NeedsInit(s.threads[i]);
  }

  /** Two threads are never inside a re-init at once. */
  lemma OneReinitAtATime(noSSE: bool, run: seq<Event>, s: State, i: nat, j: nat)
    requires Reaches(noSSE, run, s) && i < |s.threads| && j < |s.threads|
    requires InBody(s.threads[i].pc) && InBody(s.threads[j].pc)
    ensures i == j
  {
    Reached(noSSE, run, s);
  }

  // ----- stdout -----

  /** The request a thread sent last: the one whose response it is waiting for or reading. */
  ghost function LastOf(wire: seq<Request>, i: nat): Option<Request>
    decreases |wire|
  {
    if wire == [] then None
    else
      var last := |wire| - 1;
      if wire[last].thread == i then Some(wire[last]) else LastOf(wire[..last], i)
  }

  ghost predicate Answers(s: State, i: nat)
    requires i < |s.threads|
  {
    var t := s.threads[i];
    match t.pc
    case Flying(job, session) => LastOf(s.wire, i) == Some(Request(i, job, t.line, session))
    case Reading(job, session) => LastOf(s.wire, i) == Some(Request(i, job, t.line, session))
    case _ => true
  }

  /** A line on stdout answers this request, and a re-init did not send it. */
  ghost predicate AnswerTo(line: Line, r: Request)
    requires line.Delivered?
  {
    r.thread == line.thread && r.job == line.job && r.line == line.line && !ForReinit(r.job)
  }

  ghost predicate Answered(wire: seq<Request>, line: Line)
    requires line.Delivered?
  {
    exists k :: 0 <= k < |wire| && AnswerTo(line, wire[k])
  }

  ghost predicate AnswerInv(s: State) {
    && (forall i :: 0 <= i < |s.threads| ==> Answers(s, i))
    && (forall k :: 0 <= k < |s.out| && s.out[k].Delivered? ==> Answered(s.wire, s.out[k]))
  }

  lemma {:induction false} LastIsSent(wire: seq<Request>, i: nat)
    ensures LastOf(wire, i).Some? ==> LastOf(wire, i).value in wire && LastOf(wire, i).value.thread == i
    decreases |wire|
  {
    if wire != [] {
      LastIsSent(wire[..|wire| - 1], i);
    }
  }

  lemma LastStep(s: State, i: nat, a: Action, j: nat)
    requires i < |s.threads| && Enabled(s, i, a)
    ensures LastOf(NextWire(s, i, a), j) ==
      if a.Prepare? && j == i then Some(Request(i, s.threads[i].pc.job, s.threads[i].line, s.session)) else LastOf(s.wire, j)
  {
    if a.Prepare? {
      assert NextWire(s, i, a)[..|s.wire|] == s.wire;
    }
  }

  lemma AnswersSelf(s: State, i: nat, a: Action)
    requires i < |s.threads| && Enabled(s, i, a) && Answers(s, i)
    ensures Answers(Apply(s, i, a), i)
  {
    LastStep(s, i, a, i);
    LineStep(s, i, a);
  }

  /** What a step adds to stdout answers the request the thread sent last. */
  lemma WritesAnswer(s: State, i: nat, a: Action)
    requires i < |s.threads| && Enabled(s, i, a) && Answers(s, i)
    ensures s.wire <= NextWire(s, i, a) && s.out <= NextOut(s, i, a) && |NextOut(s, i, a)| <= |s.out| + 1
    ensures |NextOut(s, i, a)| > |s.out| && NextOut(s, i, a)[|s.out|].Delivered? ==> Answered(s.wire, NextOut(s, i, a)[|s.out|])
  {
    LastIsSent(s.wire, i);
  }

  lemma AnswerStep(s: State, i: nat, a: Action)
    requires AnswerInv(s) && i < |s.threads| && Enabled(s, i, a)
    ensures AnswerInv(Apply(s, i, a))
  {
    var n := Apply(s, i, a);
    SpawnedAre(s, i, a);
    WritesAnswer(s, i, a);
    forall j | 0 <= j < |n.threads|
      ensures Answers(n, j)
    {
      if j == i {
        AnswersSelf(s, i, a);
      } else if j < |s.threads| {
        LastStep(s, i, a, j);
        assert n.threads[j] == s.threads[j] && Answers(s, j);
      }
    }
    forall k | 0 <= k < |n.out| && n.out[k].Delivered?
      ensures Answered(n.wire, n.out[k])
    {
      StillAnswered(s.wire, n.wire, n.out[k]);
      assert k < |s.out| ==> n.out[k] == s.out[k];
    }
  }

  lemma StillAnswered(wire: seq<Request>, longer: seq<Request>, line: Line)
    requires wire <= longer && line.Delivered?
    ensures Answered(wire, line) ==> Answered(longer, line)
  {
    if k :| 0 <= k < |wire| && AnswerTo(line, wire[k]) {
      assert longer[k] == wire[k];
    }
  }

  lemma {:induction false} AnswerRun(s: State, run: seq<Event>)
    requires AnswerInv(s) && Legal(s, run)
    ensures AnswerInv(After(s, run))
    decreases |run|
  {
    if run != [] {
      if run[0].Do? {
        AnswerStep(s, run[0].i, run[0].a);
      } else {
        AnswerKill(s, run[0].session);
      }
      hide AnswerInv;
      AnswerRun(Next(s, run[0]), run[1..]);
    }
  }

  lemma AnswerKill(s: State, id: string)
    requires AnswerInv(s)
    ensures AnswerInv(Next(s, Kill(id)))
  {
    var n := Next(s, Kill(id));
    forall i | 0 <= i < |n.threads|
      ensures Answers(n, i)
    {
      assert Answers(s, i);
    }
  }

  /** Every message on stdout answers a request on the wire, of the same thread and for the same line, that no re-init sent. */
  lemma OutputIsAnswers(noSSE: bool, run: seq<Event>, s: State, k: nat)
    requires Reaches(noSSE, run, s) && k < |s.out| && s.out[k].Delivered?
    ensures Answered(s.wire, s.out[k])
  {
    AnswerRun(Start(noSSE), run);
  }

  /**
    Nothing the server says to a re-init reaches stdout: a message in the
    response to a request on the wire is written if and only if that request
    is no initialize and no initialized of a re-init.
  */
  lemma ReinitsAreSilent(noSSE: bool, run: seq<Event>, s: State, i: nat)
    requires Reaches(noSSE, run, s) && Possible(s, Do(i, Deliver))
    ensures LastOf(s.wire, i).Some?
    ensures var r := LastOf(s.wire, i).value; var out := Next(s, Do(i, Deliver)).out;
      out == if r.job == ReInit || r.job == ReNote then s.out else s.out + [Delivered(i, r.job, r.line)]
  {
    AnswerRun(Start(noSSE), run);
    assert Answers(s, i);
  }

  /**
    A line given to send costs one or two POSTs and ends in exactly one way: a
    POST returned nil, or it was answered with one -32603 (with nothing, when
    it is not a request).
  */
  lemma OneEndPerLine(noSSE: bool, run: seq<Event>, s: State, l: nat)
    requires Reaches(noSSE, run, s) && l < |s.lines| && l < |s.accounts| && s.accounts[l].bySend && s.accounts[l].over
    ensures 1 <= s.accounts[l].posts <= 2
    ensures s.accounts[l].oks <= 1
    ensures Errors(s.out, l) == if s.accounts[l].oks == 0 && s.lines[l].isRequest then 1 else 0
  {
    Reached(noSSE, run, s);
  }

  // ----- POSTs and the requests they send -----

  /** The requests for a line that are on the wire: those of the handshake, of send, and of its replay. */
  ghost function Sent(wire: seq<Request>, l: nat): nat
    decreases |wire|
  {
    if wire == [] then 0
    else
      var last := |wire| - 1;
      Sent(wire[..last], l) + if wire[last].line == l && ForLine(wire[last].job) then 1 else 0
  }

  /** How often in a run a 401 had a request for this line built anew. */
  ghost function Retries(s: State, run: seq<Event>, l: nat): nat
    requires Legal(s, run)
    decreases |run|
  {
    if run == [] then 0
    else (if RetriesLine(s, run[0], l) then 1 else 0) + Retries(Next(s, run[0]), run[1..], l)
  }

  ghost predicate RetriesLine(s: State, e: Event, l: nat)
    requires Possible(s, e)
  {
    e.Do? && e.a.Retry? && s.threads[e.i].line == l && ForLine(s.threads[e.i].pc.sent)
  }

  ghost predicate Preparing(t: Thread, l: nat) { t.pc.Building? && ForLine(t.pc.job) && t.line == l }

  /** Each POST of the line has sent one request at most, but for `again` repetitions; one that is being built has sent none. */
  ghost predicate PostInv(s: State, l: nat, again: nat) {
    if l < |s.accounts| then
      && Sent(s.wire, l) <= s.accounts[l].posts + again
      && forall i :: 0 <= i < |s.threads| && Preparing(s.threads[i], l) ==> Sent(s.wire, l) < s.accounts[l].posts + again
    else Sent(s.wire, l) == 0
  }

  lemma SentStep(s: State, i: nat, a: Action, l: nat)
    requires i < |s.threads| && Enabled(s, i, a)
    ensures Sent(NextWire(s, i, a), l) == Sent(s.wire, l) + if a.Prepare? && Preparing(s.threads[i], l) then 1 else 0
  {
    if a.Prepare? {
      assert NextWire(s, i, a)[..|s.wire|] == s.wire;
    }
  }

  /** What a step adds to the POSTs of a line: one when a POST of that line begins. */
  lemma PostsStep(s: State, i: nat, a: Action, l: nat)
    requires i < |s.threads| && Enabled(s, i, a) && |s.accounts| == |s.lines| && RoleFits(s.threads[i])
    ensures |s.accounts| <= |NextAccounts(s, i, a)| <= |s.accounts| + 1
    ensures l < |s.accounts| ==> NextAccounts(s, i, a)[l].posts >= s.accounts[l].posts
    ensures l < |s.accounts| && Preparing(NextThread(s, i, a), l) && !a.Retry? ==>
      NextAccounts(s, i, a)[l].posts == s.accounts[l].posts + 1
    ensures l == |s.accounts| < |NextAccounts(s, i, a)| && Preparing(NextThread(s, i, a), l) ==>
      NextAccounts(s, i, a)[l].posts == 1
    ensures |NextAccounts(s, i, a)| > |s.accounts| ==> a.ReadLine?
  {
  }

  ghost function Again(s: State, i: nat, a: Action, l: nat): nat
    requires i < |s.threads| && Enabled(s, i, a)
  {
    if RetriesLine(s, Do(i, a), l) then 1 else 0
  }

  /** The thread that moves, when it is on the line. */
  lemma PostOwn(s: State, i: nat, a: Action, l: nat, again: nat)
    requires PostInv(s, l, again) && i < |s.threads| && Enabled(s, i, a) && |s.accounts| == |s.lines| && RoleFits(s.threads[i])
    ensures var n := Apply(s, i, a);
      && (l < |n.accounts| ==> Sent(n.wire, l) <= n.accounts[l].posts + again + Again(s, i, a, l))
      && (l < |n.accounts| && Preparing(NextThread(s, i, a), l) ==> Sent(n.wire, l) < n.accounts[l].posts + again + Again(s, i, a, l))
      && (l >= |n.accounts| && !a.Prepare? ==> Sent(n.wire, l) == 0)
  {
    SentStep(s, i, a, l);
    PostsStep(s, i, a, l);
  }

  /** Any other thread is not on the line that is moved. */
  lemma LinesApart(s: State, i: nat, j: nat)
    requires LedgerInv(s) && i < |s.threads| && j < |s.threads| && j != i && Active(s.threads[j])
    ensures s.threads[j].line < |s.accounts| == |s.lines|
    ensures Active(s.threads[i]) ==> s.threads[i].line != s.threads[j].line
  {
    hide CostFits, Settled, Errors;
    if i < j {
      assert Active(s.threads[i]) && Active(s.threads[j]) ==> s.threads[i].line != s.threads[j].line;
    }
  }

  lemma PostOther(s: State, i: nat, a: Action, l: nat, again: nat)
    requires i < |s.threads| && Enabled(s, i, a) && RoleFits(s.threads[i]) && l < |s.accounts| == |s.lines|
    requires Active(s.threads[i]) ==> s.threads[i].line != l
    requires Sent(s.wire, l) < s.accounts[l].posts + again
    ensures Sent(Apply(s, i, a).wire, l) < Apply(s, i, a).accounts[l].posts + again
  {
    assert !Preparing(s.threads[i], l);
    SentStep(s, i, a, l);
    PostsStep(s, i, a, l);
  }

  /** Everyone who is about to send a request for the line. */
  lemma PostThread(s: State, i: nat, a: Action, l: nat, again: nat, j: nat)
    requires LedgerInv(s) && PostInv(s, l, again) && i < |s.threads| && Enabled(s, i, a)
    requires forall k :: 0 <= k < |s.threads| ==> RoleFits(s.threads[k])
    requires var n := Apply(s, i, a); j < |n.threads| && Preparing(n.threads[j], l) && l < |n.accounts|
    ensures var n := Apply(s, i, a); Sent(n.wire, l) < n.accounts[l].posts + again + Again(s, i, a, l)
  {
    SpawnedAre(s, i, a);
    PostOwn(s, i, a, l, again);
    if j < |s.threads| && j != i {
      assert Apply(s, i, a).threads[j] == s.threads[j];
      assert Active(s.threads[j]);
      LinesApart(s, i, j);
      PostOther(s, i, a, l, again);
    }
  }

  lemma PostStep(s: State, i: nat, a: Action, l: nat, again: nat)
    requires LedgerInv(s) && PostInv(s, l, again) && i < |s.threads| && Enabled(s, i, a)
    requires forall k :: 0 <= k < |s.threads| ==> RoleFits(s.threads[k])
    ensures PostInv(Apply(s, i, a), l, again + Again(s, i, a, l))
  {
    PostOwn(s, i, a, l, again);
    NothingSentAhead(s, i, a, l, again);
    var n := Apply(s, i, a);
    hide LedgerInv, RoleFits, Apply, Sent, Again, Preparing, Enabled;
    forall j | 0 <= j < |n.threads| && Preparing(n.threads[j], l) && l < |n.accounts|
      ensures Sent(n.wire, l) < n.accounts[l].posts + again + Again(s, i, a, l)
    {
      PostThread(s, i, a, l, again, j);
    }
  }

  lemma NothingSentAhead(s: State, i: nat, a: Action, l: nat, again: nat)
    requires LedgerInv(s) && PostInv(s, l, again) && i < |s.threads| && Enabled(s, i, a) && RoleFits(s.threads[i])
    ensures var n := Apply(s, i, a); l >= |n.accounts| ==> Sent(n.wire, l) == 0
  {
    SentStep(s, i, a, l);
    PostsStep(s, i, a, l);
    assert Preparing(s.threads[i], l) ==> Active(s.threads[i]) && l < |s.lines|;
  }

  lemma Roles(s: State)
    requires Inv(s)
    ensures LedgerInv(s) && forall k :: 0 <= k < |s.threads| ==> RoleFits(s.threads[k])
  {
  }

  lemma PostEvent(s: State, e: Event, l: nat, again: nat)
    requires Inv(s) && PostInv(s, l, again) && Possible(s, e)
    ensures PostInv(Next(s, e), l, again + if RetriesLine(s, e, l) then 1 else 0)
  {
    hide PostInv;
    if e.Do? {
      Roles(s);
      hide Inv, LedgerInv, RoleFits;
      PostStep(s, e.i, e.a, l, again);
    } else {
      PostSame(s, Next(s, e), l, again);
    }
  }

  lemma {:induction false} PostRun(s: State, run: seq<Event>, l: nat, again: nat)
    requires Inv(s) && PostInv(s, l, again) && Legal(s, run)
    ensures PostInv(After(s, run), l, again + Retries(s, run, l))
    decreases |run|
  {
    hide Inv, PostInv, RetriesLine, Next, Possible;
    if run != [] {
      EventKeepsInv(s, run[0]);
      PostEvent(s, run[0], l, again);
      PostRun(Next(s, run[0]), run[1..], l, again + if RetriesLine(s, run[0], l) then 1 else 0);
    }
  }

  lemma PostSame(s: State, n: State, l: nat, again: nat)
    requires PostInv(s, l, again) && n == s.(live := n.live)
    ensures PostInv(n, l, again)
  {
  }

  /** On the wire a line has as many requests as it has POSTs at most, and one more for every 401 that had one built anew. */
  lemma RequestsArePosts(noSSE: bool, run: seq<Event>, s: State, l: nat)
    requires Reaches(noSSE, run, s) && l < |s.accounts|
    ensures Sent(s.wire, l) <= s.accounts[l].posts + Retries(Start(noSSE), run, l)
  {
    StartInv(noSSE);
    PostRun(Start(noSSE), run, l, 0);
  }

  /** So a line given to send is on the wire at most twice, but for repetitions after a 401. */
  lemma OnTheWireTwice(noSSE: bool, run: seq<Event>, s: State, l: nat)
    requires Reaches(noSSE, run, s) && l < |s.lines| && l < |s.accounts| && s.accounts[l].bySend && s.accounts[l].over
    ensures Sent(s.wire, l) <= 2 + Retries(Start(noSSE), run, l)
  {
    OneEndPerLine(noSSE, run, s, l);
    RequestsArePosts(noSSE, run, s, l);
  }

  /** While a line is being served it is served by one thread, and nothing has answered it yet with an error. */
  lemma OneServerPerLine(noSSE: bool, run: seq<Event>, s: State, i: nat, j: nat)
    requires Reaches(noSSE, run, s) && i < |s.threads| && j < |s.threads|
    requires Active(s.threads[i]) && Active(s.threads[j]) && s.threads[i].line == s.threads[j].line
    ensures i == j
    ensures Errors(s.out, s.threads[i].line) == 0
  {
    Reached(noSSE, run, s);
  }
}
