/**
  An initialize that the client sends after the handshake goes out like any
  line, but its answer may bring a new session.  Without one, a re-init clears
  the very session whose 404 called for it; with one, it may clear a live one.
*/
module BridgeLateInit {
  import opened Wrappers
  import opened BridgeProtocol
  import opened BridgeInvariant
  import opened BridgeTheorems

  /** No initialize line is read after the handshake. */
  ghost predicate NoLateInitialize(s: State, run: seq<Event>)
    requires Legal(s, run)
    decreases |run|
  {
    run == [] || (InTime(s, run[0]) && NoLateInitialize(Next(s, run[0]), run[1..]))
  }

  ghost predicate InTime(s: State, e: Event) {
    e.Do? && e.a.ReadLine? && s.mark.Some? ==> !e.a.m.kind.Initialize?
  }

  /** No line given to send is an initialize. */
  ghost predicate OnlyEarly(s: State) {
    forall l :: 0 <= l < |s.accounts| && l < |s.lines| && s.accounts[l].bySend ==> !s.lines[l].kind.Initialize?
  }

  /** The session that is cleared is the one whose 404 called for the re-init. */
  ghost predicate SameSession(s: State, t: Thread) {
    && (Watching(t.pc) && t.gen == s.gen && s.mutex.None? ==> t.saw == s.session)
    && (t.pc.Clearing? ==> s.session == t.cause)
    && (InBody(t.pc) && !t.pc.Clearing? ==> t.was == t.cause)
  }

  ghost predicate SameInv(s: State) {
    && (forall i :: 0 <= i < |s.threads| ==> SameSession(s, s.threads[i]))
    && (forall k :: 0 <= k < |s.reinits| ==> s.reinits[k].was == s.reinits[k].cause)
  }

  lemma EarlyStep(s: State, i: nat, a: Action)
    requires i < |s.threads| && Enabled(s, i, a) && |s.accounts| == |s.lines|
    requires OnlyEarly(s) && InTime(s, Do(i, a))
    ensures OnlyEarly(Apply(s, i, a))
  {
  }

  /** The session id moves only in the hands of a re-init, or while the Run goroutine is alone. */
  lemma SessionStays(s: State, i: nat, a: Action)
    requires Honest(s, i, a) && OnlyEarly(s)
    ensures NextSession(s, i, a) != s.session ==> InBody(s.threads[i].pc) || |s.threads| == 1
  {
    var t := s.threads[i];
    assert RoleFits(t) && (t.role.Main? <==> i == 0);
    assert Active(t) ==> CostFits(s.accounts[t.line], t.pc, Errors(s.out, t.line));
    hide Errors, Settled, WireInv, GenInv, SessionInv;
  }

  lemma SameSelf(s: State, i: nat, a: Action)
    requires Steps(s, i, a) && SameSession(s, s.threads[i])
    requires NextSession(s, i, a) != s.session ==> InBody(s.threads[i].pc) || !Watching(NextThread(s, i, a).pc)
    ensures SameSession(Apply(s, i, a), NextThread(s, i, a))
  {
  }

  lemma SameOther(s: State, i: nat, a: Action, j: nat)
    requires Steps(s, i, a) && j < |s.threads| && j != i && Local(s, s.threads[j]) && SameSession(s, s.threads[j])
    requires NextSession(s, i, a) != s.session ==> InBody(s.threads[i].pc)
    requires InBody(s.threads[i].pc) ==> !InBody(s.threads[j].pc) && s.mutex == Some(i)
    requires s.mutex.Some? && NextMutex(s, i, a).None? ==> a.Bump?
    ensures SameSession(Apply(s, i, a), s.threads[j])
  {
  }

  lemma LeavesWatch(s: State, i: nat, a: Action)
    requires i < |s.threads| && Enabled(s, i, a) && RoleFits(s.threads[i]) && NextSession(s, i, a) != s.session
    ensures !Watching(NextThread(s, i, a).pc)
  {
  }

  lemma SameThread(s: State, i: nat, a: Action, j: nat)
    requires Honest(s, i, a) && OnlyEarly(s) && SameInv(s) && j < |Apply(s, i, a).threads|
    ensures SameSession(Apply(s, i, a), Apply(s, i, a).threads[j])
  {
    SpawnedAre(s, i, a);
    Locally(s, i);
    SessionStays(s, i, a);
    if j == i {
      if NextSession(s, i, a) != s.session {
        LeavesWatch(s, i, a);
      }
      SameSelf(s, i, a);
    } else if j < |s.threads| {
      Locally(s, j);
      Apart(s, i, j);
      SessionMoves(s, i, a);
      SameOther(s, i, a, j);
      assert Apply(s, i, a).threads[j] == s.threads[j];
    }
  }

  lemma SameStep(s: State, i: nat, a: Action)
    requires Honest(s, i, a) && OnlyEarly(s) && SameInv(s)
    ensures SameInv(Apply(s, i, a))
  {
    var n := Apply(s, i, a);
    assert SameSession(s, s.threads[i]);
    forall j | 0 <= j < |n.threads|
      ensures SameSession(n, n.threads[j])
    {
      SameThread(s, i, a, j);
    }
  }

  lemma {:induction false} SameRun(s: State, run: seq<Event>)
    requires Inv(s) && SessionInv(s) && OnlyEarly(s) && SameInv(s)
    requires Legal(s, run) && HonestRun(s, run) && NoLateInitialize(s, run)
    ensures SameInv(After(s, run))
    decreases |run|
  {
    if run != [] {
      var n := Next(s, run[0]);
      EventKeepsInv(s, run[0]);
      if run[0].Do? {
        SessionStep(s, run[0].i, run[0].a);
        Ledgers(s);
        EarlyStep(s, run[0].i, run[0].a);
        SameStep(s, run[0].i, run[0].a);
      } else {
        KillStep(s, run[0].session);
        SameKill(s, run[0].session);
      }
      hide Inv, SessionInv, OnlyEarly, SameInv;
      SameRun(n, run[1..]);
    }
  }

  lemma Ledgers(s: State)
    requires Inv(s)
    ensures |s.accounts| == |s.lines|
  {
  }

  lemma SameKill(s: State, id: string)
    requires OnlyEarly(s) && SameInv(s)
    ensures OnlyEarly(Next(s, Kill(id))) && SameInv(Next(s, Kill(id)))
  {
    var n := Next(s, Kill(id));
    forall i | 0 <= i < |n.threads|
      ensures SameSession(n, n.threads[i])
    {
      assert SameSession(s, s.threads[i]);
    }
  }

  /**
    With no initialize line after the handshake, each re-init replaced the
    session whose 404 called for it: one the server had issued and no longer
    honours, not the current one, and no two the same.
  */
  lemma ReinitsReplaceTheDead(noSSE: bool, run: seq<Event>, s: State)
    requires Reaches(noSSE, run, s) && HonestRun(Start(noSSE), run) && NoLateInitialize(Start(noSSE), run)
    ensures forall k :: 0 <= k < |s.reinits| ==>
      && s.reinits[k].was == s.reinits[k].cause
      && s.reinits[k].was in s.issued && s.reinits[k].was !in s.live && s.reinits[k].was != "" && s.reinits[k].was != s.session
    ensures forall j, k :: 0 <= j < k < |s.reinits| ==> s.reinits[j].was != s.reinits[k].was
  {
    StartInv(noSSE);
    StartSessions(noSSE);
    SameRun(Start(noSSE), run);
    OneReinitPerDeadSession(noSSE, run, s);
  }

  // ----- with one -----

  lemma {:induction false} Extended(s: State, run: seq<Event>, e: Event)
    requires Legal(s, run) && HonestRun(s, run)
    requires Possible(After(s, run), e) && HonestEvent(After(s, run), e)
    ensures Legal(s, run + [e]) && HonestRun(s, run + [e]) && After(s, run + [e]) == Next(After(s, run), e)
    decreases |run|
  {
    if run == [] {
      assert [e][1..] == [];
    } else {
      assert (run + [e])[1..] == run[1..] + [e];
      Extended(Next(s, run[0]), run[1..], e);
    }
  }

  /** An honest run from the start of a bridge that opens no stream. */
  ghost predicate Goes(run: seq<Event>, s: State) {
    Legal(Start(true), run) && HonestRun(Start(true), run) && After(Start(true), run) == s
  }

  lemma Then(run: seq<Event>, s: State, i: nat, a: Action) returns (longer: seq<Event>, n: State)
    requires Goes(run, s) && Possible(s, Do(i, a)) && HonestEvent(s, Do(i, a))
    ensures Goes(longer, n) && n == Apply(s, i, a)
  {
    longer, n := run + [Do(i, a)], Apply(s, i, a);
    Extended(Start(true), run, Do(i, a));
  }

  lemma ThenDies(run: seq<Event>, s: State, id: string) returns (longer: seq<Event>, n: State)
    requires Goes(run, s)
    ensures Goes(longer, n) && n == s.(live := s.live - {id})
  {
    longer, n := run + [Kill(id)], Next(s, Kill(id));
    Extended(Start(true), run, Kill(id));
  }

  const INIT := Message("initialize", Initialize, true)
  const NOTE := Message("notifications/initialized", Initialized, false)
  const CALL := Message("tools/call", Ordinary, true)

  lemma NothingYet() returns (run: seq<Event>, s: State)
    ensures Goes(run, s) && s == Start(true)
  {
    run, s := [], Start(true);
  }

  lemma Asked() returns (run: seq<Event>, s: State)
    ensures Goes(run, s)
    ensures s == Start(true).(threads := s.threads, lines := [INIT], accounts := s.accounts, wire := s.wire, initReq := Some(INIT))
    ensures |s.threads| == 1 && s.threads[0] == Thread(Main, 0, Flying(InitPost, ""), 0, "", "", "")
  {
    hide Goes;
    run, s := NothingYet();
    run, s := Then(run, s, 0, ReadLine(INIT));
    run, s := Then(run, s, 0, Prepare);
  }

  /** initialize is answered with session S0. */
  lemma FirstSession() returns (run: seq<Event>, s: State)
    ensures Goes(run, s)
    ensures |s.threads| == 1 && s.threads[0] == Thread(Main, 0, AwaitLine, 0, "", "", "")
    ensures s.gen == 0 && s.reinits == [] && s.mutex.None? && s.sessioned && s.initReq == Some(INIT) && s.mark.None? && s.noSSE
    ensures s.initDone && !s.noteDone && s.session == "S0" && s.live == {"S0"} == s.issued && s.lines == [INIT]
  {
    hide Goes;
    run, s := Asked();
    run, s := Then(run, s, 0, Respond(Accepted("S0")));
    run, s := Then(run, s, 0, Finish(true));
    run, s := Then(run, s, 0, RecordSession);
  }

  /** After the handshake, before any re-init. */
  ghost predicate Scene(s: State, session: string, live: set<string>, issued: set<string>) {
    && s.gen == 0 && s.reinits == [] && s.sessioned && s.initReq == Some(INIT) && s.initNote == Some(NOTE)
    && s.mark.Some? && s.session == session && s.live == live && s.issued == issued
  }

  /** The handshake is complete. */
  lemma Handshaken() returns (run: seq<Event>, s: State)
    ensures Goes(run, s) && Scene(s, "S0", {"S0"}, {"S0"}) && s.mutex.None? && s.lines == [INIT, NOTE]
    ensures |s.threads| == 1 && s.threads[0].pc.AwaitLine?
  {
    hide Goes;
    run, s := FirstSession();
    run, s := Then(run, s, 0, ReadLine(NOTE));
    run, s := Then(run, s, 0, Prepare);
    run, s := Then(run, s, 0, Respond(Accepted("")));
    run, s := Then(run, s, 0, Finish(true));
  }

  /** A call, and another initialize: a sender each. */
  lemma TwoSenders() returns (run: seq<Event>, s: State)
    ensures Goes(run, s) && Scene(s, "S0", {"S0"}, {"S0"}) && s.mutex.None? && s.lines == [INIT, NOTE, CALL, INIT]
    ensures |s.threads| == 3 && s.threads[1] == Fresh(Sender, 2) && s.threads[2] == Fresh(Sender, 3)
  {
    hide Goes;
    run, s := Handshaken();
    run, s := Then(run, s, 0, ReadLine(CALL));
    run, s := Then(run, s, 0, ReadLine(INIT));
  }

  function Out(line: nat): Thread { Thread(Sender, line, Flying(FirstPost, "S0"), 0, "S0", "", "") }

  /** Both are out, with session S0. */
  lemma BothOut() returns (run: seq<Event>, s: State)
    ensures Goes(run, s) && Scene(s, "S0", {"S0"}, {"S0"}) && s.mutex.None? && s.lines == [INIT, NOTE, CALL, INIT]
    ensures |s.threads| == 3 && s.threads[1] == Out(2) && s.threads[2] == Out(3)
  {
    hide Goes;
    run, s := TwoSenders();
    run, s := Then(run, s, 1, ReadGen);
    run, s := Then(run, s, 1, Prepare);
    run, s := Then(run, s, 2, ReadGen);
    run, s := Then(run, s, 2, Prepare);
  }

  /** The initialize is answered with session S1, S0 dies, and the call gets an honest 404. */
  lemma HonestRefusal() returns (run: seq<Event>, s: State)
    ensures Goes(run, s) && Scene(s, "S1", {"S1"}, {"S0", "S1"}) && s.mutex.None?
    ensures |s.threads| == 3 && s.threads[1] == Out(2).(pc := Got404)
  {
    hide Goes;
    run, s := BothOut();
    run, s := Then(run, s, 2, Respond(Accepted("S1")));
    run, s := ThenDies(run, s, "S0");
    run, s := Then(run, s, 1, Respond(NotFound));
  }

  /** The call enters a re-init, which clears S1. */
  lemma ClearsTheLive() returns (run: seq<Event>, s: State)
    ensures Goes(run, s) && Scene(s, "", {"S1"}, {"S0", "S1"}) && s.mutex == Some(1)
    ensures |s.threads| == 3 && s.threads[1] == Out(2).(pc := Building(ReInit), cause := "S0", was := "S1")
  {
    hide Goes;
    run, s := HonestRefusal();
    run, s := Then(run, s, 1, AskSessioned);
    run, s := Then(run, s, 1, EnterReinit);
    run, s := Then(run, s, 1, Clear);
  }

  lemma ThirdSession() returns (run: seq<Event>, s: State)
    ensures Goes(run, s) && Scene(s, "S2", {"S1", "S2"}, {"S0", "S1", "S2"})
    ensures |s.threads| == 3 && s.threads[1].pc == Building(ReNote) && s.threads[1].cause == "S0" && s.threads[1].was == "S1"
  {
    hide Goes;
    run, s := ClearsTheLive();
    run, s := Then(run, s, 1, Prepare);
    run, s := Then(run, s, 1, Respond(Accepted("S2")));
    run, s := Then(run, s, 1, Finish(true));
  }

  lemma Renoted() returns (run: seq<Event>, s: State)
    ensures Goes(run, s) && Scene(s, "S2", {"S1", "S2"}, {"S0", "S1", "S2"})
    ensures |s.threads| == 3 && s.threads[1].pc == Bumping && s.threads[1].cause == "S0" && s.threads[1].was == "S1"
  {
    hide Goes;
    run, s := ThirdSession();
    run, s := Then(run, s, 1, Prepare);
    run, s := Then(run, s, 1, Respond(Accepted("")));
    run, s := Then(run, s, 1, Finish(true));
  }

  /** Without the condition it does not hold: an honest run whose one re-init replaced a live session. */
  lemma LiveSessionReplaced() returns (run: seq<Event>, s: State)
    ensures Reaches(true, run, s) && HonestRun(Start(true), run)
    ensures |s.reinits| == 1 && s.reinits[0].cause == "S0" && s.reinits[0].was == "S1" && "S1" in s.live
  {
    hide HonestRun, Legal, After;
    run, s := Renoted();
    run, s := Then(run, s, 1, Bump);
  }
}
