/**
  `Bridge` itself (pkg/mcp/bridge.go): its fields, and its methods as the
  sequences of shared accesses they are.  Thread `i` runs a method; before
  every access any number of other threads may take any number of steps
  (Interfere), and the access is then one step of the transition system.
*/
module Bridge {
  import opened Wrappers
  import opened BridgeProtocol
  import opened BridgeInvariant
  import Client

  const MAX_ATTEMPTS := 5

  predicate RunsBeside(s: State, run: seq<Event>, i: nat) {
    Legal(s, run) && forall k :: 0 <= k < |run| ==> run[k].Do? ==> run[k].i != i
  }

  // ----- what other threads leave alone -----

  /** The line this thread works on, and its account. */
  ghost predicate SameLine(before: State, after: State, l: nat) {
    && l < |before.lines| <= |after.lines| && |before.accounts| <= |after.accounts| && l < |before.accounts|
    && after.lines[l] == before.lines[l] && after.accounts[l] == before.accounts[l]
  }

  /** What only the holder of handshakeMu changes once the handshake is over, and only Run before. */
  ghost predicate SameHandshake(before: State, after: State) {
    && after.gen == before.gen && after.mutex == before.mutex
    && after.reinits == before.reinits
    && after.initReq == before.initReq && after.initNote == before.initNote
  }

  /** What only the Run goroutine changes. */
  ghost predicate SameRun(before: State, after: State) {
    && after.lines == before.lines && after.mark == before.mark
    && after.initDone == before.initDone && after.noteDone == before.noteDone
  }

  /** The line still reads as it did, and is still on the same account. */
  ghost predicate SameTask(before: State, after: State, l: nat) {
    && l < |before.lines| <= |after.lines| && |before.accounts| <= |after.accounts| && l < |before.accounts|
    && after.lines[l] == before.lines[l] && after.accounts[l].bySend == before.accounts[l].bySend
    && before.accounts[l].posts <= after.accounts[l].posts && before.accounts[l].oks <= after.accounts[l].oks
  }

  ghost predicate TaskStep(before: State, after: State, i: nat)
    requires i < |before.threads| <= |after.threads|
  {
    var l := before.threads[i].line;
    SameTask(before, after, l) && after.threads[i].line == l && (Active(after.threads[i]) || after.accounts[l].over)
  }

  ghost predicate Beside(before: State, after: State, i: nat) {
    && i < |before.threads| <= |after.threads|
    && after.threads[i] == before.threads[i]
    && before.gen <= after.gen && before.wire <= after.wire
    && (i == 0 ==> SameRun(before, after))
    && (Active(before.threads[i]) ==> SameLine(before, after, before.threads[i].line))
    && (InBody(before.threads[i].pc) ==> SameHandshake(before, after))
    && after.noSSE == before.noSSE
  }

  lemma OtherLine(s: State, j: nat, a: Action, i: nat)
    requires Inv(s) && i < |s.threads| && j < |s.threads| && j != i && Enabled(s, j, a) && Active(s.threads[i])
    ensures SameLine(s, Apply(s, j, a), s.threads[i].line)
  {
    assert RoleFits(s.threads[j]);
    if a.ReadLine? {
    } else if Active(s.threads[j]) {
      CostStep(s, j, a);
    } else {
      QuietStep(s, j, a);
    }
  }

  lemma OtherHandshake(s: State, j: nat, a: Action, i: nat)
    requires Inv(s) && i < |s.threads| && j < |s.threads| && j != i && Enabled(s, j, a) && InBody(s.threads[i].pc)
    ensures SameHandshake(s, Apply(s, j, a))
  {
    assert RoleFits(s.threads[j]);
    assert s.mutex == Some(i) && !InBody(s.threads[j].pc);
    assert s.threads[j].role.Main? ==> j == 0 && s.mark.Some?;
  }

  lemma StepBeside(s: State, j: nat, a: Action, i: nat)
    requires Inv(s) && i < |s.threads| && j < |s.threads| && j != i && Enabled(s, j, a)
    ensures Beside(s, Apply(s, j, a), i)
  {
    assert RoleFits(s.threads[j]) && (s.threads[j].role.Main? <==> j == 0);
    if Active(s.threads[i]) {
      OtherLine(s, j, a, i);
    }
    if InBody(s.threads[i].pc) {
      OtherHandshake(s, j, a, i);
    }
  }

  /** Whatever the other threads do, they leave a thread, its line and what it has locked alone. */
  lemma {:induction false} OthersKeep(s: State, run: seq<Event>, i: nat)
    requires Inv(s) && i < |s.threads| && RunsBeside(s, run, i)
    ensures Inv(After(s, run)) && Beside(s, After(s, run), i)
    decreases |run|
  {
    hide Inv;
    if run == [] {
      OnlyKill(s, s, i);
    } else {
      EventKeepsInv(s, run[0]);
      var n := Next(s, run[0]);
      if run[0].Do? {
        StepBeside(s, run[0].i, run[0].a, i);
      } else {
        OnlyKill(s, n, i);
      }
      RestBeside(s, run, i);
      OthersKeep(n, run[1..], i);
    }
  }

  lemma OnlyKill(s: State, n: State, i: nat)
    requires Inv(s) && i < |s.threads| && n == s.(live := n.live)
    ensures Beside(s, n, i)
  {
  }

  lemma RestBeside(s: State, run: seq<Event>, i: nat)
    requires run != [] && RunsBeside(s, run, i)
    ensures RunsBeside(Next(s, run[0]), run[1..], i)
  {
    assert forall k :: 0 <= k < |run[1..]| ==> run[1..][k] == run[k + 1];
  }

  // ----- handshakeMu is always released -----

  /** A way out of reinit for the thread that holds handshakeMu. */
  function WayOut(pc: Pc): Action {
    match pc
    case Clearing => Clear
    case Building(_) => GiveUp
    case Flying(_, _) => Respond(OtherError)
    case Reading(_, _) => Finish(false)
    case _ => Bump
  }

  ghost function StepsOut(pc: Pc): nat {
    match pc
    case Bumping => 1
    case Clearing => 3
    case _ => 2
  }

  lemma WayOutShortens(s: State, h: nat)
    requires h < |s.threads| && InBody(s.threads[h].pc)
    requires RoleFits(s.threads[h])
    ensures var a := WayOut(s.threads[h].pc);
      Enabled(s, h, a) && (NextMutex(s, h, a).None? ||
        (NextMutex(s, h, a) == s.mutex && InBody(NextThread(s, h, a).pc) && StepsOut(NextThread(s, h, a).pc) < StepsOut(s.threads[h].pc)))
  {
  }

  /** The steps by which the holder of handshakeMu lets go. */
  function Release(s: State, h: nat, patience: nat): seq<Event>
    requires h < |s.threads|
    decreases patience
  {
    var a := WayOut(s.threads[h].pc);
    if s.mutex != Some(h) || patience == 0 || !Enabled(s, h, a) then []
    else [Do(h, a)] + Release(Apply(s, h, a), h, patience - 1)
  }

  /** Steps of `h` alone that end with handshakeMu free. */
  ghost predicate Frees(s: State, run: seq<Event>, h: nat) {
    && Legal(s, run) && After(s, run).mutex.None?
    && forall k :: 0 <= k < |run| ==> run[k].Do? && run[k].i == h
  }

  lemma FreesAfterStep(s: State, h: nat, a: Action, rest: seq<Event>)
    requires h < |s.threads| && Enabled(s, h, a)
    requires if rest == [] then Apply(s, h, a).mutex.None? else Frees(Apply(s, h, a), rest, h)
    ensures Frees(s, [Do(h, a)] + rest, h)
  {
    var run := [Do(h, a)] + rest;
    assert run[0] == Do(h, a) && run[1..] == rest;
  }

  /** The mutex a waiting thread wants is always released, if only its holder is given the time. */
  lemma {:induction false} MutexIsReleased(s: State, h: nat, patience: nat)
    requires Inv(s) && s.mutex == Some(h) && h < |s.threads| && StepsOut(s.threads[h].pc) <= patience
    ensures var run := Release(s, h, patience);
      Frees(s, run, h) && |run| <= StepsOut(s.threads[h].pc) && run != []
    decreases patience
  {
    var a := WayOut(s.threads[h].pc);
    ReleaseStep(s, h);
    hide Inv, Apply, InBody, WayOut, StepsOut, Frees;
    var n := Apply(s, h, a);
    var rest := Release(n, h, patience - 1);
    if n.mutex.Some? {
      MutexIsReleased(n, h, patience - 1);
      assert rest != [];
    }
    FreesAfterStep(s, h, a, rest);
  }

  lemma ReleaseStep(s: State, h: nat)
    requires Inv(s) && s.mutex == Some(h) && h < |s.threads|
    ensures var a := WayOut(s.threads[h].pc);
      && StepsOut(s.threads[h].pc) > 0
      && Enabled(s, h, a)
      && var n := Apply(s, h, a);
      && Inv(n) && h < |n.threads|
      && (n.mutex.None? || (n.mutex == Some(h) && StepsOut(n.threads[h].pc) < StepsOut(s.threads[h].pc)))
  {
    assert InBody(s.threads[h].pc) && RoleFits(s.threads[h]);
    var a := WayOut(s.threads[h].pc);
    WayOutShortens(s, h);
    StepKeepsInv(s, h, a);
    assert Apply(s, h, a).threads[h] == NextThread(s, h, a);
  }

  lemma HolderIsOther(s: State, i: nat)
    requires Inv(s) && i < |s.threads| && !InBody(s.threads[i].pc) && s.mutex.Some?
    ensures s.mutex.value < |s.threads| && s.mutex.value != i && StepsOut(s.threads[s.mutex.value].pc) <= 3
  {
  }

  lemma AccountGrows(s: State, i: nat, a: Action)
    requires AtWork(s, i, a)
    ensures var l, n := s.threads[i].line, NextAccounts(s, i, a);
      |n| == |s.accounts| && n[l].bySend == s.accounts[l].bySend
      && s.accounts[l].posts <= n[l].posts && s.accounts[l].oks <= n[l].oks
  {
    hide CostFits;
  }

  lemma OwnLine(s: State, i: nat, a: Action)
    requires Inv(s) && i < |s.threads| && Enabled(s, i, a) && Active(s.threads[i])
    ensures !a.ReadLine? && TaskStep(s, Apply(s, i, a), i)
  {
    assert RoleFits(s.threads[i]);
    Working(s, i, a);
    hide Inv, CostFits, Settled, Errors, RoleFits;
    CostStep(s, i, a);
    AccountGrows(s, i, a);
    hide NextAccounts, NextOut;
  }

  lemma LineSettled(s: State, l: nat)
    requires Inv(s) && l < |s.lines| && l < |s.accounts| && s.accounts[l].over && s.accounts[l].bySend
    ensures |s.lines| == |s.accounts|
    ensures Settled(s.accounts[l], s.lines[l], Errors(s.out, l))
  {
  }

  lemma OnTheBooks(s: State, i: nat)
    requires Inv(s) && i < |s.threads| && Active(s.threads[i])
    ensures SameTask(s, s, s.threads[i].line)
  {
  }

  lemma Serving(s: State, i: nat)
    requires Inv(s) && i < |s.threads| && s.threads[i].pc.ReadingGen? && !s.threads[i].role.Listener?
    ensures var l := s.threads[i].line; l < |s.lines| == |s.accounts| && s.accounts[l].bySend
  {
    assert Active(s.threads[i]);
  }

  lemma TwoPosts(s: State, i: nat)
    requires Inv(s) && i < |s.threads| && s.threads[i].pc == Building(Replay)
    ensures s.threads[i].line < |s.accounts| && s.accounts[s.threads[i].line].posts == 2 && s.accounts[s.threads[i].line].bySend
  {
    assert RoleFits(s.threads[i]) && Active(s.threads[i]);
  }

  lemma NoThirdPost(s: State, i: nat)
    requires Inv(s) && i < |s.threads|
    ensures var l := s.threads[i].line; l < |s.accounts| && s.accounts[l].bySend && s.accounts[l].over ==>
      s.accounts[l].posts <= 2 && s.accounts[l].oks <= 1
    ensures var l := s.threads[i].line; s.threads[i].pc.Reporting? && l < |s.accounts| && s.accounts[l].bySend ==>
      s.accounts[l].posts <= 2
  {
    assert RoleFits(s.threads[i]);
  }

  lemma OwnLineOnly(s: State, i: nat, job: Job)
    requires Inv(s) && i < |s.threads| && s.threads[i].pc.Reading? && s.threads[i].pc.read == job
    ensures ForLine(job) ==> !s.threads[i].role.Listener?
  {
    assert RoleFits(s.threads[i]);
  }

  lemma NoNewerGen(s: State, i: nat)
    requires Inv(s) && i < |s.threads| && s.threads[i].pc.WantReinit?
    ensures s.threads[i].gen <= s.gen
  {
    assert GenFits(s.gen, s.threads[i]) && RoleFits(s.threads[i]);
  }

  lemma OnePerGeneration(s: State)
    requires Inv(s)
    ensures |s.reinits| == s.gen && forall k :: 0 <= k < s.gen ==> s.reinits[k].gen == k
  {
  }

  lemma MarkIsDone(s: State)
    requires Inv(s) && |s.threads| > 0 && s.threads[0].pc.AwaitLine?
    ensures s.mark.Some? <==> s.initDone && s.noteDone
  {
  }

  lemma AllSettled(s: State)
    requires Inv(s)
    ensures forall l :: 0 <= l < |s.accounts| && l < |s.lines| && s.accounts[l].bySend && s.accounts[l].over ==>
      Settled(s.accounts[l], s.lines[l], Errors(s.out, l))
  {
  }

  /** Where a Post, or an open of the stream, leaves the thread. */
  ghost predicate Ended(t: Thread, job: Job, r: Outcome, s: State) {
    (job == NotePost ==> s.noteDone) &&
    match r
    case Again => false
    case Nil => t.pc == Succeeded(s, t, job) && (ForLine(job) && t.line < |s.accounts| ==> s.accounts[t.line].oks >= 1)
    case Refused(reply) => !reply.Accepted? && t.pc == FailedWith(t, job, t.saw, reply)
  }

  ghost predicate Noting(pc: Pc) {
    match pc
    case Building(job) => job == NotePost
    case Flying(job, _) => job == NotePost
    case Reading(job, _) => job == NotePost
    case _ => false
  }

  ghost predicate SameBody(before: State, after: State) {
    && after.gen == before.gen && after.initReq == before.initReq && after.initNote == before.initNote
  }

  /** Thread i has sent a request for this job and line. */
  ghost predicate Requested(before: seq<Request>, after: seq<Request>, i: nat, job: Job, line: nat) {
    exists k :: |before| <= k < |after| && after[k].thread == i && after[k].job == job && after[k].line == line
  }

  lemma StillRequested(a: seq<Request>, b: seq<Request>, c: seq<Request>, d: seq<Request>, i: nat, job: Job, line: nat)
    requires a <= b <= c <= d && Requested(b, c, i, job, line)
    ensures Requested(a, d, i, job, line)
  {
    var k :| |b| <= k < |c| && c[k].thread == i && c[k].job == job && c[k].line == line;
    assert d[k] == c[k];
  }

  /** A request stays sent, seen from an earlier beginning, or at a later end. */
  lemma KeepRequest(a: seq<Request>, b: seq<Request>, c: seq<Request>, i: nat, job: Job, line: nat)
    requires a <= b <= c
    ensures Requested(b, c, i, job, line) ==> Requested(a, c, i, job, line)
  {
  }

  lemma StillSent(a: seq<Request>, b: seq<Request>, c: seq<Request>, i: nat, job: Job, line: nat)
    requires a <= b <= c
    ensures Requested(a, b, i, job, line) ==> Requested(a, c, i, job, line)
  {
    if Requested(a, b, i, job, line) {
      StillRequested(a, a, b, c, i, job, line);
    }
  }

  // ----- the object -----

  datatype Outcome = Again | Nil | Refused(reply: Reply)

  /** Why the stream, or the listener, came to an end. */
  datatype Ending = NotOffered | Expired | ReinitLost | ContextOver

  /** What became of a line after a 404: no session to renew, a re-init that failed, or a replay and its end. */
  datatype Recovery = NeverSessioned | ReinitLostIt | Replayed(ok: bool)

  class Bridge {
    const client: Client.Client
    const provided: bool   // the token provider always has a token to offer
    var gen: nat
    var sessioned: bool
    var initReq: Option<Message>
    var initNote: Option<Message>
    var initDone: bool
    var noteDone: bool
    var stdout: seq<Line>
    var s: State           // everything there is, the threads' own positions included

    constructor (json: Client.Json, noSSE: bool, provided: bool)
      ensures Valid() && s == Start(noSSE) && Progress() && fresh(client) && this.provided == provided
    {
      StartInv(noSSE);
      this.provided := provided;
      client := new Client.Client(json);
      gen, sessioned, initReq, initNote, initDone, noteDone := 0, false, None, None, false, false;
      stdout, s := [], Start(noSSE);
    }

    ghost predicate Valid()
      reads this, client
    {
      && Inv(s)
      && gen == s.gen && sessioned == s.sessioned && initReq == s.initReq && initNote == s.initNote
      && client.sessionID == s.session && stdout == s.out
    }

    /** The fields only Run touches. */
    ghost predicate Progress()
      reads this
    {
      initDone == s.initDone && noteDone == s.noteDone
    }

    function Self(i: nat): Thread
      requires i < |s.threads|
      reads this`s
    {
      s.threads[i]
    }

    ghost predicate At(i: nat, pc: Pc)
      reads this`s
    {
      i < |s.threads| && s.threads[i].pc == pc
    }

    /** Thread i is who it was, on the line it was on. */
    twostate predicate Same(i: nat)
      requires i < |old(s).threads|
      reads this`s
    {
      && |old(s).threads| <= |s.threads|
      && Self(i).role == old(Self(i)).role && Self(i).line == old(Self(i)).line && Self(i).gen == old(Self(i)).gen
      && (i == 0 ==> s.lines == old(s).lines && s.initDone == old(s).initDone)
      && (i == 0 && !Noting(old(Self(i)).pc) ==> s.noteDone == old(s).noteDone)
      && old(s).gen <= s.gen && old(s).wire <= s.wire
      && (Active(old(s).threads[i]) ==> SameTask(old(s), s, old(Self(i)).line) && (Active(Self(i)) || s.accounts[Self(i).line].over))
    }

    /** The last line on stdout. */
    ghost predicate Wrote(line: Line)
      reads this
    {
      stdout != [] && stdout[|stdout| - 1] == line
    }

    /** Any number of steps of other threads. */
    method Interfere(i: nat)
      requires Valid() && i < |s.threads|
      modifies this`gen, this`sessioned, this`initReq, this`initNote, this`stdout, this`s, client`sessionID
      ensures Valid() && Beside(old(s), s, i)
    {
      hide Inv;
      OnlyKill(s, s, i);
      var run: seq<Event> := *;
      if RunsBeside(s, run, i) {
        OthersKeep(s, run, i);
        Become(After(s, run));
      }
    }

    method Become(n: State)
      requires Valid() && Inv(n)
      modifies this`gen, this`sessioned, this`initReq, this`initNote, this`stdout, this`s, client`sessionID
      ensures Valid() && s == n
    {
      s := n;
      gen, sessioned, initReq, initNote, stdout := s.gen, s.sessioned, s.initReq, s.initNote, s.out;
      client.sessionID := s.session;
    }

    /** handshakeMu.Lock(): other threads run, at least until its holder has let go. */
    method Wait(i: nat)
      requires Valid() && i < |s.threads| && !InBody(Self(i).pc)
      modifies this`gen, this`sessioned, this`initReq, this`initNote, this`stdout, this`s, client`sessionID
      ensures Valid() && Beside(old(s), s, i) && s.mutex.None?
    {
      hide Inv;
      Interfere(i);
      if s.mutex.Some? {
        HolderIsOther(s, i);
        MutexIsReleased(s, s.mutex.value, 3);
        var run := Release(s, s.mutex.value, 3);
        OthersKeep(s, run, i);
        Become(After(s, run));
      }
    }

    /** One step of thread i. */
    method Take(i: nat, a: Action)
      requires Inv(s) && i < |s.threads| && Enabled(s, i, a)
      modifies this`s
      ensures Inv(s) && s == Apply(old(s), i, a)
      ensures |old(s).threads| <= |s.threads| && Self(i) == NextThread(old(s), i, a)
      ensures Active(old(s).threads[i]) ==> !a.ReadLine? && TaskStep(old(s), s, i)
    {
      StepKeepsInv(s, i, a);
      if Active(s.threads[i]) {
        OwnLine(s, i, a);
      }
      s := Apply(s, i, a);
    }

    // ----- handshakeMu held for one access -----

    method Generation(i: nat) returns (g: nat)
      requires Valid() && At(i, ReadingGen)
      modifies this`gen, this`sessioned, this`initReq, this`initNote, this`stdout, this`s, client`sessionID
      ensures Valid() && i < |s.threads| && g == Self(i).gen
      ensures At(i, Building(if Self(i).role.Listener? then Get else FirstPost))
      ensures Self(i).role == old(Self(i)).role && Self(i).line == old(Self(i)).line
      ensures i == 0 ==> s.lines == old(s).lines && s.initDone == old(s).initDone && s.noteDone == old(s).noteDone
      ensures Active(old(s).threads[i]) ==> SameTask(old(s), s, old(Self(i)).line)
      ensures old(s).wire <= s.wire
    {
      hide Inv;
      Wait(i);
      g := gen;
      Take(i, ReadGen);
    }

    method EverSessioned(i: nat) returns (ever: bool)
      requires Valid() && At(i, Got404)
      modifies this`gen, this`sessioned, this`initReq, this`initNote, this`stdout, this`s, client`sessionID
      ensures Valid() && Same(i) && At(i, if ever then WantReinit else Reporting) && ever == sessioned
    {
      hide Inv;
      Wait(i);
      ever := sessioned;
      Take(i, AskSessioned);
    }

    // ----- Client.Post -----

    /** Post: attempts until the token ladder ends, then the response. */
    method Post(i: nat, job: Job) returns (r: Outcome)
      requires Valid() && At(i, Building(job)) && job != Get
      modifies this`gen, this`sessioned, this`initReq, this`initNote, this`stdout, this`s, client`sessionID
      ensures Valid() && Same(i) && !r.Again?
      ensures i < |s.threads| && Ended(Self(i), job, r, s)
      ensures ForReinit(job) ==> SameBody(old(s), s)
      ensures provided || r != Refused(OtherError) ==> Requested(old(s).wire, s.wire, i, job, Self(i).line)
    {
      hide Inv, Requested;
      var attempts := 0;
      if Active(Self(i)) {
        OnTheBooks(s, i);
      }
      r := Again;
      while r.Again?
        invariant Valid() && Same(i) && i < |s.threads|
        invariant if r.Again? then At(i, Building(job)) else Ended(Self(i), job, r, s)
        invariant ForReinit(job) ==> SameBody(old(s), s)
        invariant attempts <= MAX_ATTEMPTS && (r.Again? ==> attempts < MAX_ATTEMPTS)
        invariant r.Again? || attempts > 0
        invariant attempts > 0 && (provided || r != Refused(OtherError)) ==> Requested(old(s).wire, s.wire, i, job, Self(i).line)
        decreases MAX_ATTEMPTS - attempts
      {
        attempts := attempts + 1;
        ghost var before := s.wire;
        r := Attempt(i, job, attempts < MAX_ATTEMPTS);
        KeepRequest(old(s).wire, before, s.wire, i, job, Self(i).line);
      }
    }

    method Attempt(i: nat, job: Job, mayRetry: bool) returns (r: Outcome)
      requires Valid() && At(i, Building(job))
      modifies this`gen, this`sessioned, this`initReq, this`initNote, this`stdout, this`s, client`sessionID
      ensures Valid() && Same(i) && (r.Again? ==> mayRetry)
      ensures if r.Again? then At(i, Building(job)) else Ended(Self(i), job, r, s)
      ensures ForReinit(job) ==> SameBody(old(s), s)
      ensures provided || r != Refused(OtherError) ==> Requested(old(s).wire, s.wire, i, job, Self(i).line)
    {
      hide Inv;
      var sent := Build(i, job);
      if !sent {
        return Refused(OtherError);
      }
      ghost var before, sentOut := old(s).wire, s.wire;
      r := Exchange(i, job, mayRetry);
      StillRequested(before, before, sentOut, s.wire, i, job, Self(i).line);
    }

    /** A token, and with it the request; or no token, and no request. */
    method Build(i: nat, job: Job) returns (sent: bool)
      requires Valid() && At(i, Building(job))
      modifies this`gen, this`sessioned, this`initReq, this`initNote, this`stdout, this`s, client`sessionID
      ensures Valid() && Same(i)
      ensures if sent then At(i, Flying(job, Self(i).saw)) else Ended(Self(i), job, Refused(OtherError), s)
      ensures ForReinit(job) ==> SameBody(old(s), s)
      ensures sent ==> s.wire != [] && s.wire[|s.wire| - 1] == Request(i, job, Self(i).line, client.sessionID)
      ensures sent ==> Self(i).saw == client.sessionID
      ensures provided ==> sent
      ensures sent ==> Requested(old(s).wire, s.wire, i, job, Self(i).line)
    {
      hide Inv;
      sent := *;
      if sent || provided {
        sent := true;
        SendOut(i, job);
      } else {
        NoToken(i, job);
      }
    }

    /** prepare and Do: the session id is read, and the request is out. */
    method SendOut(i: nat, job: Job)
      requires Valid() && At(i, Building(job))
      modifies this`gen, this`sessioned, this`initReq, this`initNote, this`stdout, this`s, client`sessionID
      ensures Valid() && Same(i) && At(i, Flying(job, client.sessionID)) && Self(i).saw == client.sessionID
      ensures ForReinit(job) ==> SameBody(old(s), s)
      ensures s.wire != [] && s.wire[|s.wire| - 1] == Request(i, job, Self(i).line, client.sessionID)
      ensures Requested(old(s).wire, s.wire, i, job, Self(i).line)
    {
      hide Inv;
      Interfere(i);
      Take(i, Prepare);
      assert s.wire[|s.wire| - 1].job == job;
    }

    /** The token provider's error, before any request. */
    method NoToken(i: nat, job: Job)
      requires Valid() && At(i, Building(job))
      modifies this`gen, this`sessioned, this`initReq, this`initNote, this`stdout, this`s, client`sessionID
      ensures Valid() && Same(i) && i < |s.threads| && Ended(Self(i), job, Refused(OtherError), s)
      ensures ForReinit(job) ==> SameBody(old(s), s)
    {
      hide Inv;
      Interfere(i);
      Take(i, GiveUp);
    }

    /** The request is out; then its response, whole or not. */
    method Exchange(i: nat, job: Job, mayRetry: bool) returns (r: Outcome)
      requires Valid() && i < |s.threads| && At(i, Flying(job, Self(i).saw))
      modifies this`gen, this`sessioned, this`initReq, this`initNote, this`stdout, this`s, client`sessionID
      ensures Valid() && Same(i) && (r.Again? ==> mayRetry)
      ensures if r.Again? then At(i, Building(job)) else Ended(Self(i), job, r, s)
      ensures ForReinit(job) ==> SameBody(old(s), s)
    {
      hide Inv;
      var refused: bool := *;
      if refused && mayRetry {
        TryAgain(i, job);
        return Again;
      }
      r := Answer(i, job);
    }

    /** A 401, and another token to try with. */
    method TryAgain(i: nat, job: Job)
      requires Valid() && i < |s.threads| && At(i, Flying(job, Self(i).saw))
      modifies this`gen, this`sessioned, this`initReq, this`initNote, this`stdout, this`s, client`sessionID
      ensures Valid() && Same(i) && At(i, Building(job))
      ensures ForReinit(job) ==> SameBody(old(s), s)
    {
      hide Inv;
      Interfere(i);
      Take(i, Retry);
    }

    method Answer(i: nat, job: Job) returns (r: Outcome)
      requires Valid() && i < |s.threads| && At(i, Flying(job, Self(i).saw))
      modifies this`gen, this`sessioned, this`initReq, this`initNote, this`stdout, this`s, client`sessionID
      ensures Valid() && Same(i) && !r.Again?
      ensures i < |s.threads| && Ended(Self(i), job, r, s)
      ensures ForReinit(job) ==> SameBody(old(s), s)
    {
      hide Inv;
      var reply: Reply := *;
      if reply.Accepted? {
        Accept(i, job, reply.session);
        r := Consume(i, job);
      } else {
        Refuse(i, job, reply);
        r := Refused(reply);
      }
    }

    method Refuse(i: nat, job: Job, reply: Reply)
      requires Valid() && i < |s.threads| && At(i, Flying(job, Self(i).saw)) && !reply.Accepted?
      modifies this`gen, this`sessioned, this`initReq, this`initNote, this`stdout, this`s, client`sessionID
      ensures Valid() && Same(i) && Ended(Self(i), job, Refused(reply), s)
      ensures ForReinit(job) ==> SameBody(old(s), s)
    {
      hide Inv;
      Interfere(i);
      Take(i, Respond(reply));
    }

    /** captureSession; servers send the header on responses that accept an initialize only, with an id of its own each time. */
    method Accept(i: nat, job: Job, header: string)
      requires Valid() && i < |s.threads| && At(i, Flying(job, Self(i).saw))
      modifies this`gen, this`sessioned, this`initReq, this`initNote, this`stdout, this`s, client`sessionID
      ensures Valid() && Same(i) && At(i, Reading(job, Self(i).saw))
      ensures ForReinit(job) ==> SameBody(old(s), s)
    {
      hide Inv;
      Interfere(i);
      TakeHeader(i, job, if !Initializes(s, Self(i), job) || header in s.issued then "" else header);
    }

    method TakeHeader(i: nat, job: Job, id: string)
      requires Valid() && i < |s.threads| && At(i, Flying(job, Self(i).saw))
      requires id != "" ==> Initializes(s, Self(i), job) && id !in s.issued
      modifies this`s, client`sessionID
      ensures Valid() && Same(i) && At(i, Reading(job, Self(i).saw))
      ensures ForReinit(job) ==> SameBody(old(s), s)
    {
      hide Inv;
      var taken := client.CaptureSession(id);
      Take(i, Respond(Accepted(if taken then id else "")));
    }

    /** consumePost on a good status, or the reading half of listenOnce. */
    method Consume(i: nat, job: Job) returns (r: Outcome)
      requires Valid() && i < |s.threads| && At(i, Reading(job, Self(i).saw))
      modifies this`gen, this`sessioned, this`initReq, this`initNote, this`stdout, this`s, client`sessionID
      ensures Valid() && Same(i) && !r.Again?
      ensures i < |s.threads| && Ended(Self(i), job, r, s)
      ensures ForReinit(job) ==> SameBody(old(s), s)
    {
      hide Inv;
      DeliverAll(i, job);
      r := Close(i, job);
    }

    method DeliverAll(i: nat, job: Job)
      requires Valid() && i < |s.threads| && At(i, Reading(job, Self(i).saw))
      modifies this`gen, this`sessioned, this`initReq, this`initNote, this`stdout, this`s, client`sessionID
      ensures Valid() && Same(i) && At(i, Reading(job, Self(i).saw))
      ensures ForReinit(job) ==> SameBody(old(s), s)
    {
      hide Inv;
      if Active(Self(i)) {
        OnTheBooks(s, i);
      }
      var messages: nat := *;
      while messages > 0
        invariant Valid() && Same(i) && i < |s.threads| && At(i, Reading(job, Self(i).saw))
        invariant ForReinit(job) ==> SameBody(old(s), s)
      {
        Deliver(i, job);
        messages := messages - 1;
      }
    }

    method Close(i: nat, job: Job) returns (r: Outcome)
      requires Valid() && i < |s.threads| && At(i, Reading(job, Self(i).saw))
      modifies this`gen, this`sessioned, this`initReq, this`initNote, this`stdout, this`s, client`sessionID
      ensures Valid() && Same(i) && !r.Again?
      ensures i < |s.threads| && Ended(Self(i), job, r, s)
      ensures ForReinit(job) ==> SameBody(old(s), s)
    {
      hide Inv;
      Interfere(i);
      var ok: bool := *;
      OwnLineOnly(s, i, job);
      Take(i, Finish(ok));
      r := if ok then Nil else Refused(OtherError);
    }

    /** One message to its callback: stdout, except for the messages a re-init receives. */
    method Deliver(i: nat, job: Job)
      requires Valid() && i < |s.threads| && At(i, Reading(job, Self(i).saw))
      modifies this`gen, this`sessioned, this`initReq, this`initNote, this`stdout, this`s, client`sessionID
      ensures Valid() && Same(i) && At(i, Reading(job, Self(i).saw))
      ensures ForReinit(job) ==> SameBody(old(s), s)
      ensures !ForReinit(job) ==> Wrote(Delivered(i, job, Self(i).line))
    {
      hide Inv;
      Interfere(i);
      if !ForReinit(job) {
        stdout := stdout + [Delivered(i, job, Self(i).line)];
      }
      Take(i, BridgeProtocol.Deliver);
    }

    // ----- send -----

    /** Every line given to send ends in one way: a POST returned nil, or it is answered with one -32603 if it is a request. */
    method Send(i: nat)
      requires Valid() && At(i, ReadingGen) && !Self(i).role.Listener?
      requires Self(i).role.Main? ==> !ReportsInit(s, Self(i))
      modifies this`gen, this`sessioned, this`initReq, this`initNote, this`stdout, this`s, client
      ensures Valid() && i < |s.threads| && At(i, MessageDone(Self(i)))
      ensures Self(i).role == old(Self(i)).role && Self(i).line == old(Self(i)).line
      ensures i == 0 ==> s.lines == old(s).lines && s.initDone == old(s).initDone && s.noteDone == old(s).noteDone
      ensures var l := Self(i).line;
        && l < |s.lines| == |s.accounts| && s.accounts[l].over
        && Settled(s.accounts[l], s.lines[l], Errors(s.out, l))
      ensures provided ==> Requested(old(s).wire, s.wire, i, FirstPost, Self(i).line)
    {
      hide Inv;
      Serving(s, i);
      var seen := Generation(i);
      ghost var before := s.wire;
      SendWith(i, seen);
      LineSettled(s, Self(i).line);
      if provided {
        StillRequested(old(s).wire, before, s.wire, s.wire, i, FirstPost, Self(i).line);
      }
    }

    method SendWith(i: nat, seen: nat)
      requires Valid() && At(i, Building(FirstPost)) && !Self(i).role.Listener? && seen == Self(i).gen
      requires Self(i).role.Main? ==> !ReportsInit(s, Self(i))
      modifies this`gen, this`sessioned, this`initReq, this`initNote, this`stdout, this`s, client
      ensures Valid() && Same(i) && At(i, MessageDone(Self(i)))
      ensures provided ==> Requested(old(s).wire, s.wire, i, FirstPost, Self(i).line)
    {
      hide Inv, Settled, CostFits, Errors, Requested;
      OnTheBooks(s, i);
      var r := Post(i, FirstPost);
      ghost var posted := s.wire;
      if r.Nil? {
        return;
      }
      Rescue(i, seen, r.reply);
      StillSent(old(s).wire, posted, s.wire, i, FirstPost, Self(i).line);
    }

    /** A POST that failed: a 404 may lead to a replay; whatever is not rescued is answered with an error. */
    method Rescue(i: nat, seen: nat, reply: Reply)
      requires Valid() && At(i, if reply.NotFound? then Got404 else Reporting) && !Self(i).role.Listener? && seen == Self(i).gen
      requires Self(i).role.Main? ==> !ReportsInit(s, Self(i))
      modifies this`gen, this`sessioned, this`initReq, this`initNote, this`stdout, this`s, client
      ensures Valid() && Same(i) && At(i, MessageDone(Self(i)))
    {
      hide Inv, Settled, CostFits, Errors, Requested;
      OnTheBooks(s, i);
      if reply.NotFound? {
        var recovery := Recover(i, seen);
        if recovery == Replayed(true) {
          return;
        }
      }
      SynthesizeError(i);
    }

    /**
      After a 404: the replay of the line, its second POST, once there is a
      session newer than the one the line was sent in; and no replay only when
      there never was a session, or the re-init of that very session failed.
    */
    method Recover(i: nat, seen: nat) returns (recovery: Recovery)
      requires Valid() && At(i, Got404) && !Self(i).role.Listener? && seen == Self(i).gen
      modifies this`gen, this`sessioned, this`initReq, this`initNote, this`stdout, this`s, client
      ensures Valid() && Same(i)
      ensures At(i, if recovery == Replayed(true) then MessageDone(Self(i)) else Reporting)
      ensures match recovery
              case NeverSessioned => !sessioned
              case ReinitLostIt =>
                gen == seen && (provided && initReq.Some? ==> Requested(old(s).wire, s.wire, i, ReInit, Self(i).line))
              case Replayed(ok) =>
                && gen > seen && Self(i).line < |s.accounts|
                && s.accounts[Self(i).line].posts == 2 && (ok ==> s.accounts[Self(i).line].oks == 1)
                && (provided || ok ==> Requested(old(s).wire, s.wire, i, Replay, Self(i).line))
    {
      hide Inv, Requested;
      var ever := EverSessioned(i);
      if !ever {
        return NeverSessioned;
      }
      ghost var before := s.wire;
      var ok := Reinit(i, seen);
      if !ok {
        KeepRequest(old(s).wire, before, s.wire, i, ReInit, Self(i).line);
        return ReinitLostIt;
      }
      TwoPosts(s, i);
      before := s.wire;
      var r := Post(i, Replay);
      NoThirdPost(s, i);
      KeepRequest(old(s).wire, before, s.wire, i, Replay, Self(i).line);
      return Replayed(r.Nil?);
    }

    method SynthesizeError(i: nat)
      requires Valid() && At(i, Reporting) && !Self(i).role.Listener?
      modifies this`gen, this`sessioned, this`initReq, this`initNote, this`stdout, this`s, client`sessionID
      ensures Valid() && Same(i) && i < |s.threads| && Self(i).line < |s.lines|
      ensures At(i, if Self(i).role.Main? && ReportsInit(s, Self(i)) then Over else MessageDone(Self(i)))
      ensures s.lines[Self(i).line].isRequest ==> Wrote(Synthesized(Self(i).line))
    {
      hide Inv;
      Interfere(i);
      var l := Self(i).line;
      if l < |s.lines| && s.lines[l].isRequest {
        stdout := stdout + [Synthesized(l)];
      }
      Take(i, Report);
    }

    // ----- reinit -----

    method Reinit(i: nat, seen: nat) returns (ok: bool)
      requires Valid() && At(i, WantReinit) && seen == Self(i).gen
      modifies this`gen, this`sessioned, this`initReq, this`initNote, this`stdout, this`s, client
      ensures Valid() && Same(i)
      ensures At(i, if ok then AfterReinit(Self(i)) else ReinitFailed(Self(i)))
      ensures if ok then gen > seen else gen == seen
      ensures !ok && provided && initReq.Some? ==> Requested(old(s).wire, s.wire, i, ReInit, Self(i).line)
    {
      hide Inv;
      Wait(i);
      NoNewerGen(s, i);
      var current := gen == seen;
      Take(i, EnterReinit);
      if !current {
        return true;
      }
      ok := Replace(i);
    }

    /** The session is given up, and replaced by one from the cached handshake. */
    method Replace(i: nat) returns (ok: bool)
      requires Valid() && At(i, Clearing) && gen == Self(i).gen
      modifies this`gen, this`sessioned, this`initReq, this`initNote, this`stdout, this`s, client
      ensures Valid() && Same(i)
      ensures At(i, if ok then AfterReinit(Self(i)) else ReinitFailed(Self(i)))
      ensures if ok then gen == Self(i).gen + 1 && s.reinits != [] && s.reinits[gen - 1].gen == Self(i).gen
              else gen == Self(i).gen
      ensures ok || (provided && initReq.Some?) ==> Requested(old(s).wire, s.wire, i, ReInit, Self(i).line)
      ensures ok && provided && initNote.Some? ==> Requested(old(s).wire, s.wire, i, ReNote, Self(i).line)
    {
      hide Inv;
      Clear(i);
      if initReq.None? {
        return false;
      }
      ghost var before := s.wire;
      ok := Repeat(i);
      if !ok {
        KeepRequest(old(s).wire, before, s.wire, i, ReInit, Self(i).line);
        return;
      }
      ghost var sent := s.wire;
      Count(i);
      KeepRequest(old(s).wire, before, sent, i, ReInit, Self(i).line);
      KeepRequest(old(s).wire, before, sent, i, ReNote, Self(i).line);
      StillSent(old(s).wire, sent, s.wire, i, ReInit, Self(i).line);
      StillSent(old(s).wire, sent, s.wire, i, ReNote, Self(i).line);
    }

    /** The cached handshake goes out again: initialize, which must succeed, and initialized, which may fail. */
    method Repeat(i: nat) returns (ok: bool)
      requires Valid() && At(i, Building(ReInit))
      modifies this`gen, this`sessioned, this`initReq, this`initNote, this`stdout, this`s, client`sessionID
      ensures Valid() && Same(i) && SameBody(old(s), s) && At(i, if ok then Bumping else ReinitFailed(Self(i)))
      ensures ok || provided ==> Requested(old(s).wire, s.wire, i, ReInit, Self(i).line)
      ensures ok && provided && initNote.Some? ==> Requested(old(s).wire, s.wire, i, ReNote, Self(i).line)
    {
      hide Inv;
      var r := Post(i, ReInit);
      if !r.Nil? {
        return false;
      }
      ghost var before := s.wire;
      if initNote.Some? {
        r := Post(i, ReNote);
        StillSent(old(s).wire, before, s.wire, i, ReInit, Self(i).line);
        KeepRequest(old(s).wire, before, s.wire, i, ReNote, Self(i).line);
      }
      ok := true;
    }

    method Clear(i: nat)
      requires Valid() && At(i, Clearing)
      modifies this`gen, this`sessioned, this`initReq, this`initNote, this`stdout, this`s, client
      ensures Valid() && Same(i) && gen == old(gen) && client.sessionID == "" && client.lastEventID == ""
      ensures At(i, if initReq.Some? then Building(ReInit) else ReinitFailed(Self(i)))
    {
      hide Inv;
      Interfere(i);
      client.ClearSession();
      Take(i, BridgeProtocol.Clear);
    }

    method Count(i: nat)
      requires Valid() && At(i, Bumping)
      modifies this`gen, this`sessioned, this`initReq, this`initNote, this`stdout, this`s, client`sessionID
      ensures Valid() && Same(i) && At(i, AfterReinit(Self(i)))
      ensures gen == old(gen) + 1 && s.mutex.None?
      ensures |s.reinits| == gen && s.reinits[old(gen)].gen == old(gen)
      ensures initReq == old(initReq) && initNote == old(initNote)
    {
      hide Inv;
      Interfere(i);
      gen := gen + 1;
      Take(i, Bump);
      OnePerGeneration(s);
    }

    // ----- the Run goroutine -----

    /** A line is taken from stdin; before the handshake is complete, initialize and initialized are cached. */
    method Read(m: Message)
      requires Valid() && At(0, AwaitLine) && Self(0).role.Main?
      modifies this`gen, this`sessioned, this`initReq, this`initNote, this`stdout, this`s, client`sessionID
      ensures Valid() && At(0, Dispatch(old(s), m)) && Self(0).role.Main?
      ensures s.lines == old(s).lines + [m] && Self(0).line == |old(s).lines|
      ensures s.initDone == old(s).initDone && s.noteDone == old(s).noteDone && s.mark == old(s).mark
    {
      hide Inv;
      Interfere(0);
      Cache(m);
    }

    method Cache(m: Message)
      requires Valid() && At(0, AwaitLine) && Self(0).role.Main?
      modifies this`initReq, this`initNote, this`s
      ensures Valid() && At(0, Dispatch(old(s), m)) && Self(0).role.Main?
      ensures s.lines == old(s).lines + [m] && Self(0).line == |old(s).lines|
      ensures s.initDone == old(s).initDone && s.noteDone == old(s).noteDone && s.mark == old(s).mark
    {
      hide Inv;
      if s.mark.None? {
        match m.kind
        case Initialize => initReq := Some(m);
        case Initialized => initNote := Some(m);
        case Ordinary =>
      }
      Take(0, ReadLine(m));
    }

    /** Forwards the initialize request; a failure is answered, and then ends Run. */
    method HandleInitialize() returns (ok: bool)
      requires Valid() && At(0, Building(InitPost)) && Self(0).role.Main? && ReportsInit(s, Self(0))
      modifies this`gen, this`sessioned, this`initReq, this`initNote, this`stdout, this`s, client`sessionID
      ensures Valid() && |s.threads| > 0 && Self(0).role.Main?
      ensures At(0, if ok then AwaitLine else Over)
      ensures s.lines == old(s).lines && s.noteDone == old(s).noteDone && s.initDone == (ok || old(s).initDone)
      ensures ok ==> sessioned == (client.sessionID != "")
      ensures !ok && Self(0).line < |s.lines| && s.lines[Self(0).line].isRequest ==> Wrote(Synthesized(Self(0).line))
      ensures Self(0).line == old(Self(0)).line
      ensures ok || provided ==> Requested(old(s).wire, s.wire, 0, InitPost, Self(0).line)
    {
      hide Inv;
      OnTheBooks(s, 0);
      var r := Post(0, InitPost);
      if !r.Nil? {
        SynthesizeError(0);
        return false;
      }
      RecordSessioned();
      ok := true;
    }

    method RecordSessioned()
      requires Valid() && At(0, InitAnswered) && Self(0).role.Main?
      modifies this`gen, this`sessioned, this`initReq, this`initNote, this`stdout, this`s, client`sessionID
      ensures Valid() && At(0, AwaitLine) && Self(0).role.Main?
      ensures s.lines == old(s).lines && s.noteDone == old(s).noteDone && s.initDone
      ensures sessioned == (client.sessionID != "") && Self(0).line == old(Self(0)).line
      ensures old(s).wire <= s.wire
    {
      hide Inv;
      Wait(0);
      sessioned := client.sessionID != "";
      Take(0, RecordSession);
    }

    /** One message before the handshake is complete. */
    method SerialPhase(m: Message) returns (done: bool, ok: bool)
      requires Valid() && Progress() && At(0, AwaitLine) && Self(0).role.Main? && s.mark.None?
      modifies this, client
      ensures Valid() && |s.threads| > 0 && Self(0).role.Main? && s.lines == old(s).lines + [m]
      ensures ok ==> Progress() && At(0, AwaitLine) && done == s.mark.Some?
      ensures !ok ==> m.kind.Initialize? && At(0, Over) && (m.isRequest ==> Wrote(Synthesized(|old(s).lines|)))
    {
      hide Inv;
      Read(m);
      ok := true;
      match m.kind {
        case Initialize =>
          ok := HandleInitialize();
          if !ok {
            return false, false;
          }
          initDone := true;
        case Initialized =>
          var _ := Post(0, NotePost);
          noteDone := true;
        case Ordinary =>
          Send(0);
      }
      done := initDone && noteDone;
      MarkIsDone(s);
    }

    /** The last of the first n lines was an initialize that failed, and was answered with an error if it is a request. */
    ghost predicate FailedAt(input: seq<Message>, n: nat)
      requires 0 < n <= |input|
      reads this
    {
      s.lines == input[..n] && input[n - 1].kind.Initialize? && (input[n - 1].isRequest ==> Wrote(Synthesized(n - 1)))
    }

    /**
      Run: the lines go out in stdin order, one at a time until the handshake is
      complete; then each gets a sender of its own and the server's stream its
      listener.  Only a failed initialize ends it before stdin does.
    */
    method Run(input: seq<Message>) returns (ok: bool)
      requires Valid() && s == Start(s.noSSE) && Progress()
      modifies this, client
      ensures Valid() && At(0, Over)
      ensures ok ==> s.lines == input
      ensures !ok ==> exists n :: 0 < n <= |input| && FailedAt(input, n)
      ensures forall l :: 0 <= l < |s.accounts| && l < |s.lines| && s.accounts[l].bySend && s.accounts[l].over ==>
        Settled(s.accounts[l], s.lines[l], Errors(s.out, l))
    {
      hide Inv;
      var handshakeDone := false;
      var n := 0;
      while n < |input|
        invariant Valid() && At(0, AwaitLine) && Self(0).role.Main?
        invariant n <= |input| && s.lines == input[..n]
        invariant handshakeDone == s.mark.Some? && (!handshakeDone ==> Progress())
      {
        assert input[..n + 1] == input[..n] + [input[n]];
        if handshakeDone {
          Read(input[n]);
        } else {
          handshakeDone, ok := SerialPhase(input[n]);
          if !ok {
            AllSettled(s);
            assert FailedAt(input, n + 1);
            return;
          }
        }
        n := n + 1;
      }
      Interfere(0);
      Take(0, Stop);
      AllSettled(s);
      ok := true;
    }

    // ----- the listener -----

    /** A 405, or a 404 to a request without a session: the server offers no stream. */
    ghost predicate NoStream(i: nat, last: Outcome)
      requires i < |s.threads|
      reads this`s
    {
      last == Refused(NotAllowed) || (last == Refused(NotFound) && Self(i).saw == "")
    }

    /** Opens of the stream (Listen and listenOnce), until it must be given up, the session is gone, or the context is over. */
    method Stream(i: nat, patience: nat) returns (ending: Ending, last: Outcome)
      requires Valid() && At(i, Building(Get)) && Self(i).role.Listener?
      modifies this`gen, this`sessioned, this`initReq, this`initNote, this`stdout, this`s, client`sessionID
      ensures Valid() && Same(i) && At(i, if ending.Expired? then WantReinit else Over)
      ensures match ending
              case Expired => last == Refused(NotFound) && Self(i).saw != ""
              case NotOffered => NoStream(i, last)
              case ContextOver => true
              case ReinitLost => false
      ensures patience > 0 && (provided || !ending.ContextOver?) ==> Requested(old(s).wire, s.wire, i, Get, Self(i).line)
    {
      hide Inv, Requested;
      var opens := 0;
      last := Again;
      while opens < patience
        invariant Valid() && Same(i) && At(i, Building(Get)) && Self(i).role.Listener?
        invariant opens > 0 && provided ==> Requested(old(s).wire, s.wire, i, Get, Self(i).line)
      {
        opens := opens + 1;
        ghost var before := s.wire;
        last := Attempt(i, Get, true);
        KeepRequest(old(s).wire, before, s.wire, i, Get, Self(i).line);
        if last == Refused(NotAllowed) {
          return NotOffered, last;
        }
        if last == Refused(NotFound) {
          return (if Self(i).saw == "" then NotOffered else Expired), last;
        }
      }
      ghost var asked := s.wire;
      Interfere(i);
      Take(i, Stop);
      StillSent(old(s).wire, asked, s.wire, i, Get, Self(i).line);
      ending := ContextOver;
    }

    /** startListening, for as long as the context lives. */
    method Listen(i: nat, patience: nat) returns (ending: Ending, last: Outcome)
      requires Valid() && At(i, ReadingGen) && Self(i).role.Listener?
      modifies this`gen, this`sessioned, this`initReq, this`initNote, this`stdout, this`s, client
      ensures Valid() && i < |s.threads| && (Self(i).pc.Over? || (ending.ContextOver? && Self(i).pc.ReadingGen?))
      ensures !ending.Expired? && (ending.NotOffered? ==> NoStream(i, last)) && (ending.ReinitLost? ==> gen == Self(i).gen)
      ensures old(s).wire <= s.wire && Self(i).line == old(Self(i)).line
      ensures patience > 0 && (provided || !ending.ContextOver?) ==> Requested(old(s).wire, s.wire, i, Get, Self(i).line)
    {
      hide Inv, Requested;
      var rounds := 0;
      last := Again;
      while rounds < patience
        invariant Valid() && At(i, ReadingGen) && Self(i).role.Listener?
        invariant old(s).wire <= s.wire && Self(i).line == old(Self(i)).line
        invariant rounds > 0 && provided ==> Requested(old(s).wire, s.wire, i, Get, Self(i).line)
      {
        rounds := rounds + 1;
        var seen := Generation(i);
        ghost var before := s.wire;
        ending, last := Stream(i, patience);
        ghost var asked := s.wire;
        KeepRequest(old(s).wire, before, asked, i, Get, Self(i).line);
        if !ending.Expired? {
          return;
        }
        var ok := Reinit(i, seen);
        StillSent(old(s).wire, asked, s.wire, i, Get, Self(i).line);
        if !ok {
          return ReinitLost, last;
        }
      }
      ending := ContextOver;
    }
  }
}
