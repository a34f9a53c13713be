/**
  What happened to a stdin line between the moment it was given to send and the
  moment it was dealt with, told from the run: how its POST ended, whether a
  404 led to a re-init, and how the replay ended.
*/
module BridgeStory {
  import opened Wrappers
  import opened BridgeProtocol
  import opened BridgeInvariant
  import opened BridgeTheorems

  /**
    What a step may mean for the line it serves: a POST of it returned nil, was
    answered 404, or failed otherwise; there never was a session; another
    session is there, brought by this thread or by another; or this thread's
    own re-init has failed.
  */
  datatype Mark = Good | Gone | Bad | NoSession | Renewed | Lost

  /** A Post ends with this step: how, and which one it was. */
  ghost function Ending(pc: Pc, a: Action): Option<(Job, Mark)> {
    match a
    case Finish(ok) => if pc.Reading? then Some((pc.read, if ok then Good else Bad)) else None
    case Respond(reply) =>
      if pc.Flying? && !reply.Accepted? then Some((pc.sent, if reply.NotFound? then Gone else Bad)) else None
    case GiveUp => if pc.Building? then Some((pc.job, Bad)) else None
    case _ => None
  }

  ghost function Meaning(s: State, t: Thread, a: Action): seq<Mark> {
    var e := Ending(t.pc, a);
    if e.Some? && (e.value.0 == FirstPost || e.value.0 == Replay) then [e.value.1]
    else if e.Some? && e.value.0 == ReInit && e.value.1 != Good then [Lost]
    else if a.AskSessioned? && !s.sessioned then [NoSession]
    else if a.Bump? || (a.EnterReinit? && s.gen != t.gen) then [Renewed]
    else []
  }

  ghost function Marks(s: State, e: Event, l: nat): seq<Mark>
    requires Possible(s, e)
  {
    if e.Do? && !s.threads[e.i].role.Listener? && s.threads[e.i].line == l then Meaning(s, s.threads[e.i], e.a) else []
  }

  /** Everything a run means for a line. */
  ghost function Story(s: State, run: seq<Event>, l: nat): seq<Mark>
    requires Legal(s, run)
    decreases |run|
  {
    if run == [] then [] else Marks(s, run[0], l) + Story(Next(s, run[0]), run[1..], l)
  }

  // ----- the story so far fits the point reached -----

  ghost predicate Failed(story: seq<Mark>) {
    || story == [Bad] || story == [Gone, NoSession] || story == [Gone, Lost]
    || story == [Gone, Renewed, Bad] || story == [Gone, Renewed, Gone]
  }

  ghost predicate Whole(story: seq<Mark>) { Failed(story) || story == [Good] || story == [Gone, Renewed, Good] }

  ghost function PostsOf(story: seq<Mark>): nat { if |story| >= 2 && story[1] == Renewed then 2 else 1 }

  ghost function GoodOf(story: seq<Mark>): nat { if story != [] && story[|story| - 1] == Good then 1 else 0 }

  ghost predicate JobTold(story: seq<Mark>, job: Job) {
    story == match job
             case FirstPost => []
             case Replay => [Gone, Renewed]
             case _ => [Gone]
  }

  ghost predicate Told(story: seq<Mark>, c: Account, pc: Pc) {
    c.oks == 0 && (!pc.ReadingGen? ==> c.posts == PostsOf(story)) &&
    match pc
    case ReadingGen => story == []
    case Building(job) => JobTold(story, job)
    case Flying(job, _) => JobTold(story, job)
    case Reading(job, _) => JobTold(story, job)
    case Reporting => Failed(story)
    case _ => story == [Gone]
  }

  ghost predicate AllTold(story: seq<Mark>, c: Account) {
    Whole(story) && c.posts == PostsOf(story) && c.oks == GoodOf(story)
  }

  ghost predicate StoryInv(s: State, l: nat, story: seq<Mark>) {
    if l >= |s.accounts| then story == []
    else s.accounts[l].bySend ==>
      && (s.accounts[l].over ==> AllTold(story, s.accounts[l]))
      && forall i :: 0 <= i < |s.threads| && Active(s.threads[i]) && s.threads[i].line == l ==>
           Told(story, s.accounts[l], s.threads[i].pc)
  }

  // ----- one step -----

  /** The thread that serves the line: its story goes on, or is whole. */
  ghost predicate GoesOn(s: State, i: nat, a: Action, story: seq<Mark>)
    requires i < |s.threads| && Enabled(s, i, a)
  {
    var t, q, n := s.threads[i], NextThread(s, i, a), NextAccounts(s, i, a);
    && t.line < |n|
    && (Active(q) ==> Told(story + Meaning(s, t, a), n[t.line], q.pc))
    && (!Active(q) ==> AllTold(story + Meaning(s, t, a), n[t.line]))
  }

  ghost predicate InStory(s: State, i: nat, a: Action, story: seq<Mark>) {
    && AtWork(s, i, a) && (NeedsInit(s.threads[i]) ==> s.initReq.Some?)
    && var c := s.accounts[s.threads[i].line]; c.bySend && Told(story, c, s.threads[i].pc)
  }

  lemma Finished(s: State, i: nat, a: Action, story: seq<Mark>)
    requires InStory(s, i, a, story) && a.Finish?
    ensures GoesOn(s, i, a, story)
  {
    hide Errors, NextOut, NextWire, NextMutex, NextSession;
  }

  lemma Responded(s: State, i: nat, a: Action, story: seq<Mark>)
    requires InStory(s, i, a, story) && a.Respond?
    ensures GoesOn(s, i, a, story)
  {
    hide Errors, NextOut, NextWire, NextMutex, NextSession;
  }

  lemma GivenUp(s: State, i: nat, a: Action, story: seq<Mark>)
    requires InStory(s, i, a, story) && a.GiveUp?
    ensures GoesOn(s, i, a, story)
  {
    hide Errors, NextOut, NextWire, NextMutex, NextSession;
  }

  lemma Moved(s: State, i: nat, a: Action, story: seq<Mark>)
    requires InStory(s, i, a, story) && !a.Finish? && !a.Respond? && !a.GiveUp?
    ensures GoesOn(s, i, a, story)
  {
    hide Errors, NextOut, NextWire, NextMutex, NextSession;
  }

  lemma StoryOwn(s: State, i: nat, a: Action, story: seq<Mark>)
    requires InStory(s, i, a, story)
    ensures GoesOn(s, i, a, story)
  {
    hide *;
    if a.Finish? {
      Finished(s, i, a, story);
    } else if a.Respond? {
      Responded(s, i, a, story);
    } else if a.GiveUp? {
      GivenUp(s, i, a, story);
    } else {
      Moved(s, i, a, story);
    }
  }

  /** Nothing is told of a line by a thread that is not on it, or has nothing to do. */
  lemma NothingTold(s: State, i: nat, a: Action, l: nat)
    requires i < |s.threads| && Enabled(s, i, a) && RoleFits(s.threads[i])
    requires s.threads[i].line != l || !Active(s.threads[i])
    ensures Marks(s, Do(i, a), l) == []
  {
  }

  /** The accounts of all other lines are left alone, and a line just read has none of its story yet. */
  lemma OtherAccounts(s: State, i: nat, a: Action, l: nat)
    requires HandshakeInv(s) && LedgerInv(s) && i < |s.threads| && Enabled(s, i, a)
    requires s.threads[i].line != l || !Active(s.threads[i])
    ensures var n := Apply(s, i, a);
      && |s.accounts| <= |n.accounts|
      && (l < |s.accounts| ==> n.accounts[l] == s.accounts[l])
      && (|s.accounts| <= l < |n.accounts| ==> a.ReadLine? && l == |s.lines|)
  {
    assert RoleFits(s.threads[i]);
    if a.ReadLine? {
      ReadStep(s, i, a);
    } else if Active(s.threads[i]) {
      Working(s, i, a);
      OwnLineStep(s, i, a);
    } else {
      QuietStep(s, i, a);
    }
  }

  /** Who is on the line after the step, when the step was not of the thread that serves it. */
  lemma StoryOther(s: State, i: nat, a: Action, l: nat, story: seq<Mark>)
    requires Inv(s) && StoryInv(s, l, story) && i < |s.threads| && Enabled(s, i, a)
    requires s.threads[i].line != l || !Active(s.threads[i])
    ensures StoryInv(Apply(s, i, a), l, story)
  {
    var n := Apply(s, i, a);
    assert RoleFits(s.threads[i]);
    OtherAccounts(s, i, a, l);
    SpawnedAre(s, i, a);
    LineStep(s, i, a);
    if a.ReadLine? {
      ReadStep(s, i, a);
    } else if !Active(s.threads[i]) {
      QuietStep(s, i, a);
    }
    hide CostFits, Settled, Errors;
    hide Told, AllTold, NextAccounts;
    forall j | 0 <= j < |n.threads| && Active(n.threads[j]) && n.threads[j].line == l && l < |n.accounts| && n.accounts[l].bySend
      ensures Told(story, n.accounts[l], n.threads[j].pc)
    {
    }
  }

  lemma Served(s: State, i: nat, a: Action)
    requires Inv(s) && i < |s.threads| && Enabled(s, i, a) && Active(s.threads[i])
    ensures AtWork(s, i, a) && (NeedsInit(s.threads[i]) ==> s.initReq.Some?)
    ensures forall j :: 0 <= j < |s.threads| && j != i && Active(s.threads[j]) ==> s.threads[j].line != s.threads[i].line
  {
    assert RoleFits(s.threads[i]);
    Working(s, i, a);
    forall j | 0 <= j < |s.threads| && j != i && Active(s.threads[j])
      ensures s.threads[j].line != s.threads[i].line
    {
      LinesApart(s, i, j);
    }
  }

  lemma StoryServed(s: State, i: nat, a: Action, story: seq<Mark>)
    requires Inv(s) && i < |s.threads| && Enabled(s, i, a) && Active(s.threads[i])
    requires StoryInv(s, s.threads[i].line, story)
    ensures StoryInv(Apply(s, i, a), s.threads[i].line, story + Marks(s, Do(i, a), s.threads[i].line))
  {
    var l, n := s.threads[i].line, Apply(s, i, a);
    Served(s, i, a);
    CostStep(s, i, a);
    SpawnedAre(s, i, a);
    if s.accounts[l].bySend {
      StoryOwn(s, i, a, story);
    }
    SameBooks(s, i, a);
  }

  lemma SameBooks(s: State, i: nat, a: Action)
    requires AtWork(s, i, a)
    ensures NextAccounts(s, i, a)[s.threads[i].line].bySend == s.accounts[s.threads[i].line].bySend
  {
    hide CostFits;
  }

  lemma StoryEvent(s: State, e: Event, l: nat, story: seq<Mark>)
    requires Inv(s) && StoryInv(s, l, story) && Possible(s, e)
    ensures StoryInv(Next(s, e), l, story + Marks(s, e, l))
  {
    hide Inv, StoryInv;
    if e.Do? {
      if s.threads[e.i].line == l && Active(s.threads[e.i]) {
        StoryServed(s, e.i, e.a, story);
      } else {
        RoleOf(s, e.i);
        NothingTold(s, e.i, e.a, l);
        assert story + [] == story;
        StoryOther(s, e.i, e.a, l, story);
      }
    } else {
      assert story + [] == story;
      StoryKill(s, e.session, l, story);
    }
  }

  lemma RoleOf(s: State, i: nat)
    requires Inv(s) && i < |s.threads|
    ensures RoleFits(s.threads[i])
  {
  }

  lemma StoryKill(s: State, id: string, l: nat, story: seq<Mark>)
    requires StoryInv(s, l, story)
    ensures StoryInv(Next(s, Kill(id)), l, story)
  {
  }

  lemma {:induction false} StoryRun(s: State, run: seq<Event>, l: nat, story: seq<Mark>)
    requires Inv(s) && StoryInv(s, l, story) && Legal(s, run)
    ensures StoryInv(After(s, run), l, story + Story(s, run, l))
    decreases |run|
  {
    hide Inv, StoryInv, Marks, Next, Possible;
    if run == [] {
      assert story + [] == story;
    } else {
      EventKeepsInv(s, run[0]);
      StoryEvent(s, run[0], l, story);
      StoryRun(Next(s, run[0]), run[1..], l, story + Marks(s, run[0], l));
      assert story + (Marks(s, run[0], l) + Story(Next(s, run[0]), run[1..], l))
          == story + Marks(s, run[0], l) + Story(Next(s, run[0]), run[1..], l);
    }
  }

  /**
    The whole story of every line that was given to send and is dealt with.
    Its POST went well; or failed, but not by a 404; or by a 404 when there had
    never been a session, or when this thread's re-init failed.  In every other
    case there was another session, and the line was posted a second time,
    whose end was its end.
  */
  lemma LineStory(noSSE: bool, run: seq<Event>, s: State, l: nat)
    requires Reaches(noSSE, run, s) && l < |s.accounts| && s.accounts[l].bySend && s.accounts[l].over
    ensures Legal(Start(noSSE), run)
    ensures var c, story := s.accounts[l], Story(Start(noSSE), run, l);
      || (c.posts == 1 && c.oks == 1 && story == [Good])
      || (c.posts == 1 && c.oks == 0 && (story == [Bad] || story == [Gone, NoSession] || story == [Gone, Lost]))
      || (c.posts == 2 && c.oks == 1 && story == [Gone, Renewed, Good])
      || (c.posts == 2 && c.oks == 0 && (story == [Gone, Renewed, Bad] || story == [Gone, Renewed, Gone]))
  {
    hide Story, Reaches;
    ToldOf(noSSE, run, s, l);
  }

  lemma ToldOf(noSSE: bool, run: seq<Event>, s: State, l: nat)
    requires Reaches(noSSE, run, s) && l < |s.accounts| && s.accounts[l].bySend && s.accounts[l].over
    ensures Legal(Start(noSSE), run) && AllTold(Story(Start(noSSE), run, l), s.accounts[l])
  {
    hide Inv, AllTold, Story;
    StartInv(noSSE);
    StoryRun(Start(noSSE), run, l, []);
    assert [] + Story(Start(noSSE), run, l) == Story(Start(noSSE), run, l);
  }

  /** Another session is there: the line is posted again, for the second and last time. */
  lemma RenewedMeansReplay(noSSE: bool, run: seq<Event>, s: State, i: nat, a: Action)
    requires Reaches(noSSE, run, s) && Possible(s, Do(i, a)) && !s.threads[i].role.Listener?
    requires a.Bump? || (a.EnterReinit? && s.gen != s.threads[i].gen)
    ensures var n := Next(s, Do(i, a)); var l := s.threads[i].line;
      && n.threads[i].pc == Building(Replay) && n.threads[i].line == l
      && l < |n.accounts| && n.accounts[l].bySend && n.accounts[l].posts == 2 && s.accounts[l].posts == 1
  {
    Reached(noSSE, run, s);
    assert Active(s.threads[i]);
  }

  /**
    The listener ends when it is stopped, when no stream is offered, or when
    its re-init failed, and for no other reason; it asks for a re-init exactly
    when its session is gone, and with another session it listens again.
  */
  lemma ListenerGoesOn(noSSE: bool, run: seq<Event>, s: State, i: nat, a: Action)
    requires Reaches(noSSE, run, s) && Possible(s, Do(i, a)) && s.threads[i].role.Listener?
    ensures var pc, q := s.threads[i].pc, Next(s, Do(i, a)).threads[i].pc; var e := Ending(pc, a);
      && (q.Over? <==>
            || a.Stop?
            || (e.Some? && e.value.0 == ReInit && e.value.1 != Good)
            || (a.Respond? && a.reply.NotAllowed? && pc.sent == Get)
            || (a.Respond? && a.reply.NotFound? && pc.sent == Get && pc.session == ""))
      && (q.WantReinit? <==> a.Respond? && a.reply.NotFound? && pc.sent == Get && pc.session != "")
      && (q.ReadingGen? <==> a.Bump? || (a.EnterReinit? && s.gen != s.threads[i].gen))
  {
    Reached(noSSE, run, s);
    assert RoleFits(s.threads[i]) && (NeedsInit(s.threads[i]) ==> s.initReq.Some?);
  }

  /**
    A re-init repeats the handshake: its initialize must be answered, and is
    followed by the initialized notification when there was one, which may
    fail; anything else gives up handshakeMu without a new generation.
  */
  lemma ReinitGoesOn(noSSE: bool, run: seq<Event>, s: State, i: nat, a: Action)
    requires Reaches(noSSE, run, s) && Possible(s, Do(i, a)) && InBody(s.threads[i].pc)
    ensures var n := Next(s, Do(i, a)); var t, q := s.threads[i], n.threads[i].pc; var e := Ending(t.pc, a);
      && (a.Clear? ==> q == Building(ReInit) && n.session == "")
      && (e.Some? && e.value.0 == ReInit && e.value.1 == Good ==> q == if s.initNote.Some? then Building(ReNote) else Bumping)
      && (e.Some? && e.value.0 == ReInit && e.value.1 != Good ==> n.mutex.None? && n.gen == s.gen)
      && (e.Some? && e.value.0 == ReNote ==> q.Bumping?)
      && (n.gen != s.gen <==> a.Bump?)
      && (a.Bump? ==> n.gen == s.gen + 1 && n.mutex.None?)
  {
    hide NextAccounts, NextOut, NextWire, NextInitDone, NextNoteDone, Completes, CostFits, Errors;
    Reached(noSSE, run, s);
    assert RoleFits(s.threads[i]) && (NeedsInit(s.threads[i]) ==> s.initReq.Some?);
  }

  /**
    The Run goroutine: a failed initialize is reported, and ends it; the
    initialized notification may fail; and the step that completes the
    handshake starts the listener, unless there is to be none.  From then on
    every line gets a sender of its own, and the handshake a re-init repeats
    stays as it is.
  */
  lemma RunGoesOn(noSSE: bool, run: seq<Event>, s: State, a: Action)
    requires Reaches(noSSE, run, s) && Possible(s, Do(0, a))
    ensures var n := Next(s, Do(0, a)); var t, q := s.threads[0], n.threads[0].pc; var e := Ending(t.pc, a);
      && (e.Some? && e.value.0 == InitPost ==> if e.value.1 == Good then q.InitAnswered? else q.Reporting?)
      && (a.RecordSession? ==> q.AwaitLine? && n.initDone && (n.sessioned <==> s.session != ""))
      && (e.Some? && e.value.0 == NotePost ==> q.AwaitLine? && n.noteDone)
      && (q.Over? <==> a.Stop? || (a.Report? && t.line < |s.lines| && s.lines[t.line].kind.Initialize?))
      && (a.ReadLine? && s.mark.None? ==>
            && n.initReq == (if a.m.kind.Initialize? then Some(a.m) else s.initReq)
            && n.initNote == (if a.m.kind.Initialized? then Some(a.m) else s.initNote))
      && (!a.ReadLine? || s.mark.Some? ==> n.initReq == s.initReq && n.initNote == s.initNote)
      && (a.ReadLine? && s.mark.Some? ==> q.AwaitLine? && n.threads == s.threads[0 := n.threads[0]] + [Fresh(Sender, |s.lines|)])
      && (s.mark.None? && n.mark.Some? <==> s.mark.None? && n.initDone && n.noteDone && q.AwaitLine?)
      && (s.mark.None? && n.mark.Some? && !s.noSSE ==> n.threads == s.threads[0 := n.threads[0]] + [Fresh(Listener, 0)])
      && (|n.threads| > |s.threads| ==> (a.ReadLine? && s.mark.Some?) || (s.mark.None? && n.mark.Some? && !s.noSSE))
  {
    Reached(noSSE, run, s);
    assert RoleFits(s.threads[0]) && s.threads[0].role.Main?;
  }
}
