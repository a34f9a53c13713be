/**
  What every step of the bridge keeps: who may be where, who holds handshakeMu,
  what generations mean, and what each stdin line has cost so far.
*/
module BridgeInvariant {
  import opened Wrappers
  import opened BridgeProtocol

  // ----- where a thread of each role may be -----

  ghost predicate JobFits(role: Role, job: Job) {
    match job
    case InitPost | NotePost => role.Main?
    case FirstPost | Replay => !role.Listener?
    case Get => role.Listener?
    case _ => true
  }

  ghost predicate RoleFits(t: Thread) {
    match t.pc
    case AwaitLine | InitAnswered => t.role.Main?
    case Building(job) => JobFits(t.role, job)
    case Flying(job, session) => JobFits(t.role, job) && t.saw == session
    case Reading(job, _) => JobFits(t.role, job)
    case Got404 => !t.role.Listener?
    case Reporting => !t.role.Listener?
    case _ => true
  }

  /** Inside reinit with the generation still the observed one, so holding handshakeMu. */
  ghost predicate InBody(pc: Pc) {
    match pc
    case Clearing | Bumping => true
    case Building(job) => ForReinit(job)
    case Flying(job, _) => ForReinit(job)
    case Reading(job, _) => ForReinit(job)
    case _ => false
  }

  ghost predicate MutexInv(threads: seq<Thread>, mutex: Option<nat>) {
    && (forall i :: 0 <= i < |threads| && InBody(threads[i].pc) ==> mutex == Some(i))
    && (mutex.Some? ==> mutex.value < |threads| && InBody(threads[mutex.value].pc))
  }

  // ----- generations -----

  ghost predicate GenFits(gen: nat, t: Thread) {
    && (!t.pc.ReadingGen? && !t.role.Main? ==> t.gen <= gen)
    && (t.role.Main? ==> t.gen <= gen)
    && (InBody(t.pc) ==> t.gen == gen)
  }

  ghost predicate GenInv(s: State) {
    && |s.reinits| == s.gen
    && (forall k :: 0 <= k < |s.reinits| ==> s.reinits[k].gen == k)
    && (forall i :: 0 <= i < |s.threads| ==> GenFits(s.gen, s.threads[i]))
  }

  // ----- handshake -----

  ghost predicate Handshaking(pc: Pc) {
    match pc
    case InitAnswered => true
    case Building(job) => job == InitPost
    case Flying(job, _) => job == InitPost
    case Reading(job, _) => job == InitPost
    case _ => false
  }

  ghost predicate NeedsInit(t: Thread) {
    t.role.Listener? || Handshaking(t.pc) || t.pc.WantReinit? || InBody(t.pc)
  }

  ghost predicate HandshakeInv(s: State) {
    && |s.threads| > 0
    && (forall i :: 0 <= i < |s.threads| ==> RoleFits(s.threads[i]) && (s.threads[i].role.Main? <==> i == 0))
    && (s.mark.None? ==> |s.threads| == 1)
    && (s.mark.Some? ==> s.initDone && s.noteDone && (s.threads[0].pc.AwaitLine? || s.threads[0].pc.Over?))
    && (s.initDone && s.noteDone && s.threads[0].pc.AwaitLine? ==> s.mark.Some?)
    && (s.sessioned || s.initDone ==> s.initReq.Some?)
    && (forall i :: 0 <= i < |s.threads| && NeedsInit(s.threads[i]) ==> s.initReq.Some?)
  }

  // ----- the wire: first the handshake, by one thread and in stdin order, then everything else -----

  ghost predicate WireInv(s: State) {
    && |s.threads| > 0
    && (s.mark.Some? ==> s.mark.value <= |s.wire|)
    && (forall k :: 0 <= k < |s.wire| ==>
          (s.wire[k].thread == 0 <==> s.mark.None? || k < s.mark.value))
    && (forall j, k :: 0 <= j < k < |s.wire| && s.wire[k].thread == 0 ==> s.wire[j].line <= s.wire[k].line)
    && (s.mark.None? ==> forall k :: 0 <= k < |s.wire| ==> s.wire[k].line <= s.threads[0].line)
    && s.threads[0].line <= |s.lines|
  }

  // ----- what a line has cost -----

  ghost predicate Active(t: Thread) { !t.role.Listener? && !t.pc.AwaitLine? && !t.pc.Over? }

  ghost predicate CostFits(c: Account, pc: Pc, synthesized: nat) {
    !c.over && (c.bySend ==> c.oks == 0) && synthesized == 0 &&
    match pc
    case ReadingGen => c.bySend && c.posts == 0
    case Building(job) => JobCost(c, job)
    case Flying(job, _) => JobCost(c, job)
    case Reading(job, _) => JobCost(c, job)
    case InitAnswered => !c.bySend
    case Reporting => c.bySend ==> 1 <= c.posts <= 2
    case Got404 | WantReinit | Clearing | Bumping => c.bySend && c.posts == 1
    case _ => false
  }

  ghost predicate JobCost(c: Account, job: Job) {
    match job
    case InitPost | NotePost => !c.bySend
    case Replay => c.bySend && c.posts == 2
    case _ => c.bySend && c.posts == 1
  }

  /** A line given to send and dealt with: one or two POSTs, and one good answer or one error, never both. */
  ghost predicate Settled(c: Account, m: Message, synthesized: nat) {
    && 1 <= c.posts <= 2
    && ((c.oks == 1 && synthesized == 0) || (c.oks == 0 && synthesized == if m.isRequest then 1 else 0))
  }

  ghost function Errors(out: seq<Line>, line: nat): nat { multiset(out)[Synthesized(line)] }

  ghost predicate LedgerInv(s: State) {
    && |s.accounts| == |s.lines|
    && (forall i :: 0 <= i < |s.threads| && Active(s.threads[i]) ==>
          && s.threads[i].line < |s.lines|
          && CostFits(s.accounts[s.threads[i].line], s.threads[i].pc, Errors(s.out, s.threads[i].line)))
    && (forall i, j :: 0 <= i < j < |s.threads| && Active(s.threads[i]) && Active(s.threads[j]) ==>
          s.threads[i].line != s.threads[j].line)
    && (forall l :: 0 <= l < |s.accounts| && s.accounts[l].over && s.accounts[l].bySend ==>
          Settled(s.accounts[l], s.lines[l], Errors(s.out, l)))
    && (forall l :: |s.lines| <= l ==> Errors(s.out, l) == 0)
    && (forall k :: 0 <= k < |s.out| && s.out[k].Delivered? ==> !ForReinit(s.out[k].job))
  }

  ghost predicate Inv(s: State) {
    MutexInv(s.threads, s.mutex) && GenInv(s) && HandshakeInv(s) && WireInv(s) && LedgerInv(s)
  }

  lemma StartInv(noSSE: bool)
    ensures Inv(Start(noSSE))
  {
  }

  // ----- preservation -----

  lemma SpawnedAre(s: State, i: nat, a: Action)
    requires i < |s.threads| && Enabled(s, i, a)
    ensures |Spawned(s, i, a)| <= 1
    ensures forall k :: 0 <= k < |Spawned(s, i, a)| ==>
      var t := Spawned(s, i, a)[k];
      && t.pc.ReadingGen?
      && ((t == Fresh(Sender, |s.lines|) && a.ReadLine? && s.mark.Some?) || (t == Fresh(Listener, 0) && Completes(s, i, a)))
  {
  }

  lemma RoleStep(s: State, i: nat, a: Action)
    requires i < |s.threads| && Enabled(s, i, a) && RoleFits(s.threads[i])
    ensures NextThread(s, i, a).role == s.threads[i].role
    ensures RoleFits(NextThread(s, i, a))
  {
  }

  ghost predicate MutexEffect(i: nat, pc: Pc, n: Pc, mutex: Option<nat>, after: Option<nat>) {
    if InBody(pc) then after == if InBody(n) then mutex else None
    else if InBody(n) then mutex.None? && after == Some(i)
    else after == mutex
  }

  lemma MutexEffects(s: State, i: nat, a: Action)
    requires i < |s.threads| && Enabled(s, i, a)
    requires InBody(s.threads[i].pc) ==> s.mutex == Some(i)
    ensures MutexEffect(i, s.threads[i].pc, NextThread(s, i, a).pc, s.mutex, NextMutex(s, i, a))
  {
  }

  lemma MutexStep(s: State, i: nat, a: Action)
    requires MutexInv(s.threads, s.mutex) && i < |s.threads| && Enabled(s, i, a)
    ensures MutexInv(Apply(s, i, a).threads, NextMutex(s, i, a))
  {
    MutexEffects(s, i, a);
    SpawnedAre(s, i, a);
  }

  lemma GenThread(s: State, i: nat, a: Action)
    requires i < |s.threads| && Enabled(s, i, a) && GenFits(s.gen, s.threads[i]) && RoleFits(s.threads[i])
    ensures GenFits(if a.Bump? then s.gen + 1 else s.gen, NextThread(s, i, a))
  {
  }

  lemma GenStep(s: State, i: nat, a: Action)
    requires MutexInv(s.threads, s.mutex) && GenInv(s) && i < |s.threads| && Enabled(s, i, a) && RoleFits(s.threads[i])
    ensures GenInv(Apply(s, i, a))
  {
    var n := Apply(s, i, a);
    GenThread(s, i, a);
    SpawnedAre(s, i, a);
    forall j | 0 <= j < |n.threads|
      ensures GenFits(n.gen, n.threads[j])
    {
      if j < |s.threads| && j != i {
        assert n.threads[j] == s.threads[j] && GenFits(s.gen, s.threads[j]);
        assert a.Bump? ==> s.mutex == Some(i);
      }
    }
  }

  // ----- handshake -----

  lemma InitNeeded(s: State, i: nat, a: Action)
    requires i < |s.threads| && Enabled(s, i, a) && RoleFits(s.threads[i])
    requires NeedsInit(s.threads[i]) || s.sessioned || s.initDone ==> s.initReq.Some?
    ensures NeedsInit(NextThread(s, i, a)) ==> Apply(s, i, a).initReq.Some?
    ensures Apply(s, i, a).sessioned || Apply(s, i, a).initDone ==> Apply(s, i, a).initReq.Some?
  {
  }

  lemma MarkStep(s: State, i: nat, a: Action)
    requires HandshakeInv(s) && i < |s.threads| && Enabled(s, i, a)
    ensures var n := Apply(s, i, a);
      && (n.mark.None? ==> |n.threads| == 1)
      && (n.mark.Some? ==> n.initDone && n.noteDone && (n.threads[0].pc.AwaitLine? || n.threads[0].pc.Over?))
      && (n.initDone && n.noteDone && n.threads[0].pc.AwaitLine? ==> n.mark.Some?)
  {
    assert RoleFits(s.threads[i]);
  }

  lemma HandshakeStep(s: State, i: nat, a: Action)
    requires HandshakeInv(s) && i < |s.threads| && Enabled(s, i, a)
    ensures HandshakeInv(Apply(s, i, a))
  {
    var n := Apply(s, i, a);
    assert RoleFits(s.threads[i]);
    RoleStep(s, i, a);
    SpawnedAre(s, i, a);
    InitNeeded(s, i, a);
    MarkStep(s, i, a);
    forall j | 0 <= j < |n.threads|
      ensures RoleFits(n.threads[j]) && (n.threads[j].role.Main? <==> j == 0)
      ensures NeedsInit(n.threads[j]) ==> n.initReq.Some?
    {
      if j < |s.threads| && j != i {
        assert n.threads[j] == s.threads[j];
      }
    }
  }

  // ----- wire -----

  lemma WireStep(s: State, i: nat, a: Action)
    requires HandshakeInv(s) && WireInv(s) && |s.accounts| == |s.lines| && i < |s.threads| && Enabled(s, i, a)
    ensures WireInv(Apply(s, i, a))
  {
    var n := Apply(s, i, a);
    assert RoleFits(s.threads[i]);
    assert n.threads[0] == if i == 0 then NextThread(s, i, a) else s.threads[0];
    LineStep(s, i, a);
    if a.Prepare? {
      assert s.mark.Some? ==> i != 0;
      assert s.mark.None? ==> i == 0;
    }
  }

  lemma LineStep(s: State, i: nat, a: Action)
    requires i < |s.threads| && Enabled(s, i, a)
    ensures NextThread(s, i, a).line == if a.ReadLine? then |s.lines| else s.threads[i].line
    ensures Completes(s, i, a) ==> !a.Prepare?
  {
  }

  // ----- ledger -----

  lemma ErrorsStep(s: State, i: nat, a: Action, l: nat)
    requires i < |s.threads| && Enabled(s, i, a)
    ensures Errors(NextOut(s, i, a), l) == Errors(s.out, l) +
      if a.Report? && l == s.threads[i].line && l < |s.lines| && s.lines[l].isRequest then 1 else 0
  {
    if NextOut(s, i, a) != s.out {
      var x := NextOut(s, i, a)[|s.out|];
      assert NextOut(s, i, a) == s.out + [x];
    }
  }

  /** At work on a line, whose account fits the point reached. */
  ghost predicate AtWork(s: State, i: nat, a: Action) {
    && i < |s.threads| && Enabled(s, i, a) && RoleFits(s.threads[i])
    && Active(s.threads[i]) && s.threads[i].line < |s.lines| == |s.accounts|
    && CostFits(s.accounts[s.threads[i].line], s.threads[i].pc, Errors(s.out, s.threads[i].line))
  }

  /** The step leaves all other lines alone. */
  ghost predicate OnlyOwnLine(s: State, i: nat, a: Action)
    requires AtWork(s, i, a)
  {
    var n, l := Apply(s, i, a), s.threads[i].line;
    && !a.ReadLine? && NextThread(s, i, a).line == l
    && n.lines == s.lines
    && |n.accounts| == |s.accounts|
    && forall k :: 0 <= k < |s.accounts| && k != l ==> n.accounts[k] == s.accounts[k] && Errors(n.out, k) == Errors(s.out, k)
  }

  lemma OwnLineStep(s: State, i: nat, a: Action)
    requires AtWork(s, i, a)
    ensures OnlyOwnLine(s, i, a)
  {
    hide CostFits;
    forall l: nat
      ensures Errors(NextOut(s, i, a), l) == Errors(s.out, l) +
        if a.Report? && l == s.threads[i].line && l < |s.lines| && s.lines[l].isRequest then 1 else 0
    {
      ErrorsStep(s, i, a, l);
    }
  }

  /** The thread's own line, before and after: what the step costs it. */
  lemma CostStep(s: State, i: nat, a: Action)
    requires AtWork(s, i, a)
    ensures OnlyOwnLine(s, i, a)
    ensures var n, t, q := Apply(s, i, a), s.threads[i], NextThread(s, i, a);
      && (Active(q) ==> CostFits(n.accounts[t.line], q.pc, Errors(n.out, t.line)))
      && (!Active(q) ==> n.accounts[t.line].over)
      && (n.accounts[t.line].over && n.accounts[t.line].bySend ==> Settled(n.accounts[t.line], s.lines[t.line], Errors(n.out, t.line)))
  {
    OwnLineStep(s, i, a);
    ErrorsStep(s, i, a, s.threads[i].line);
    hide Errors;
  }

  /** Reading a line opens an account; the thread that will serve it starts it off. */
  lemma ReadStep(s: State, i: nat, a: Action)
    requires HandshakeInv(s) && LedgerInv(s) && i < |s.threads| && Enabled(s, i, a) && a.ReadLine?
    ensures var n := Apply(s, i, a);
      && n.lines == s.lines + [a.m] && |n.accounts| == |n.lines| && n.accounts[..|s.lines|] == s.accounts
      && !n.accounts[|s.lines|].over && n.out == s.out
      && (forall j :: 0 <= j < |n.threads| && (j == i || j >= |s.threads|) && Active(n.threads[j]) ==>
            n.threads[j].line == |s.lines| && CostFits(n.accounts[|s.lines|], n.threads[j].pc, Errors(n.out, |s.lines|)))
      && |n.threads| <= |s.threads| + 1
      && (|n.threads| > |s.threads| ==> !Active(n.threads[i]))
  {
    assert RoleFits(s.threads[i]);
  }

  lemma LedgerRead(s: State, i: nat, a: Action)
    requires HandshakeInv(s) && LedgerInv(s) && i < |s.threads| && Enabled(s, i, a) && a.ReadLine?
    ensures LedgerInv(Apply(s, i, a))
  {
    ReadStep(s, i, a);
    var n := Apply(s, i, a);
    forall j | 0 <= j < |s.threads| && j != i && Active(s.threads[j])
      ensures n.accounts[s.threads[j].line] == s.accounts[s.threads[j].line] && n.threads[j] == s.threads[j]
    {
      assert n.accounts[..|s.lines|][s.threads[j].line] == s.accounts[s.threads[j].line];
    }
    forall l | 0 <= l < |s.accounts|
      ensures n.accounts[l] == s.accounts[l] && n.lines[l] == s.lines[l]
    {
      assert n.accounts[..|s.lines|][l] == s.accounts[l];
    }
  }

  /** A step that works on no line: Main waiting, or the listener. */
  lemma LedgerIdle(s: State, i: nat, a: Action)
    requires HandshakeInv(s) && LedgerInv(s) && i < |s.threads| && Enabled(s, i, a)
    requires !a.ReadLine? && !Active(s.threads[i])
    ensures LedgerInv(Apply(s, i, a))
  {
    assert RoleFits(s.threads[i]);
    SpawnedAre(s, i, a);
    QuietStep(s, i, a);
    var n := Apply(s, i, a);
    forall l: nat
      ensures Errors(n.out, l) == Errors(s.out, l)
    {
      ErrorsStep(s, i, a, l);
    }
  }

  lemma QuietStep(s: State, i: nat, a: Action)
    requires i < |s.threads| && Enabled(s, i, a) && RoleFits(s.threads[i])
    requires !a.ReadLine? && !Active(s.threads[i])
    ensures !Active(NextThread(s, i, a)) && NextAccounts(s, i, a) == s.accounts && !a.Report?
    ensures !s.threads[i].role.Listener? ==> !Completes(s, i, a)
  {
  }

  lemma Working(s: State, i: nat, a: Action)
    requires LedgerInv(s) && i < |s.threads| && Enabled(s, i, a) && RoleFits(s.threads[i]) && Active(s.threads[i])
    ensures AtWork(s, i, a)
  {
  }

  /** Who is active after the step was before, on the same line, and the line's account fits. */
  lemma WorkThread(s: State, i: nat, a: Action, j: nat)
    requires LedgerInv(s) && AtWork(s, i, a)
    requires j < |Apply(s, i, a).threads| && Active(Apply(s, i, a).threads[j])
    ensures var n := Apply(s, i, a);
      && j < |s.threads| && Active(s.threads[j]) && n.threads[j].line == s.threads[j].line < |n.lines| == |n.accounts|
      && CostFits(n.accounts[n.threads[j].line], n.threads[j].pc, Errors(n.out, n.threads[j].line))
  {
    SpawnedAre(s, i, a);
    CostStep(s, i, a);
    hide CostFits, Settled, Errors, RoleFits, NextAccounts, NextOut;
    var n := Apply(s, i, a);
    if j < |s.threads| && j != i {
      assert n.threads[j] == s.threads[j];
    }
  }

  lemma WorkAccount(s: State, i: nat, a: Action, l: nat)
    requires LedgerInv(s) && AtWork(s, i, a)
    ensures var n := Apply(s, i, a);
      l < |n.accounts| == |n.lines| && n.accounts[l].over && n.accounts[l].bySend ==>
        Settled(n.accounts[l], n.lines[l], Errors(n.out, l))
  {
    CostStep(s, i, a);
    hide CostFits, Settled, Errors, RoleFits, NextAccounts, NextOut;
  }

  /** A step of a thread that works on a line touches that line's account and no other. */
  lemma LedgerWork(s: State, i: nat, a: Action)
    requires LedgerInv(s) && i < |s.threads| && Enabled(s, i, a) && RoleFits(s.threads[i]) && Active(s.threads[i])
    ensures LedgerInv(Apply(s, i, a))
  {
    Working(s, i, a);
    DeliveredStep(s, i, a);
    OwnLineStep(s, i, a);
    hide CostFits, Settled, RoleFits, AtWork, NextAccounts, NextOut, Active;
    var n := Apply(s, i, a);
    forall l: nat | |s.lines| <= l
      ensures Errors(n.out, l) == 0
    {
      ErrorsStep(s, i, a, l);
    }
    hide Errors;
    forall j | 0 <= j < |n.threads| && Active(n.threads[j])
      ensures j < |s.threads| && Active(s.threads[j]) && n.threads[j].line == s.threads[j].line < |n.lines|
      ensures CostFits(n.accounts[n.threads[j].line], n.threads[j].pc, Errors(n.out, n.threads[j].line))
    {
      WorkThread(s, i, a, j);
    }
    forall l | 0 <= l < |n.accounts| && n.accounts[l].over && n.accounts[l].bySend
      ensures Settled(n.accounts[l], n.lines[l], Errors(n.out, l))
    {
      WorkAccount(s, i, a, l);
    }
  }

  lemma DeliveredStep(s: State, i: nat, a: Action)
    requires i < |s.threads| && Enabled(s, i, a)
    requires forall k :: 0 <= k < |s.out| && s.out[k].Delivered? ==> !ForReinit(s.out[k].job)
    ensures var out := NextOut(s, i, a); forall k :: 0 <= k < |out| && out[k].Delivered? ==> !ForReinit(out[k].job)
  {
  }

  lemma StepKeepsInv(s: State, i: nat, a: Action)
    requires Inv(s) && i < |s.threads| && Enabled(s, i, a)
    ensures Inv(Apply(s, i, a))
  {
    assert RoleFits(s.threads[i]);
    MutexStep(s, i, a);
    GenStep(s, i, a);
    HandshakeStep(s, i, a);
    WireStep(s, i, a);
    if a.ReadLine? {
      LedgerRead(s, i, a);
    } else if Active(s.threads[i]) {
      LedgerWork(s, i, a);
    } else {
      LedgerIdle(s, i, a);
    }
  }

  lemma EventKeepsInv(s: State, e: Event)
    requires Inv(s) && Possible(s, e)
    ensures Inv(Next(s, e))
  {
    if e.Do? {
      StepKeepsInv(s, e.i, e.a);
    }
  }

  lemma {:induction false} RunKeepsInv(s: State, run: seq<Event>)
    requires Inv(s) && Legal(s, run)
    ensures Inv(After(s, run))
    decreases |run|
  {
    if run != [] {
      EventKeepsInv(s, run[0]);
      RunKeepsInv(Next(s, run[0]), run[1..]);
    }
  }
}
