/**
  What a failed access does to a call of Token, whatever the other processes
  do: most failures end it with an error and without another word to the
  authorization server, and a few are passed over.
*/
module OAuthFailures {
  import opened Wrappers
  import opened TokenStore
  import opened OAuthProtocol
  import opened OAuthInvariant
  import opened OAuthTheorems
  import opened OAuthCalls

  /**
    A step that ends the call: a context that is over, a record or a token that
    cannot be read, discovery, a registration, a save or a deletion under a
    lock that fails, a login without a token, and any answer to a refresh that
    is no token, no invalid_grant, and no invalid_client for a dynamic client.
  */
  ghost predicate Fatal(s: State, p: Proc, a: Action) {
    match a
    case Resolve(fail, disc) =>
      && p.cfg.clientID == "" && p.reg.None?
      && (fail || if p.cfg.redirect in s.regs then s.regs[p.cfg.redirect].Corrupt? else !disc)
    case CancelReg | CancelTok | CancelDrop | Crash => true
    case Register(minted) => minted.None?
    case SaveReg(fail) => fail
    case LoadTok(fail) => fail
    case Decide(disc) => !disc
    case Exchange(reply) => reply.OtherError? || (reply.InvalidClient? && p.reg.None?)
    case Browser(login) => login.None?
    case DeleteRecord(fail) => fail
    case _ => false
  }

  /** Nothing is left to do but to let go of what is locked. */
  ghost predicate Failing(p: Proc) {
    p.pc == Unlocking(Failed) || p.pc == RegUnlock(false) || (p.pc == DropUnlock(false) && p.op.TokenOp?) || p.pc == Idle(Failed)
  }

  /** No other call is begun by process i. */
  ghost predicate SameCall(run: seq<Event>, i: nat) {
    forall k :: 0 <= k < |run| && run[k].Do? && run[k].i == i ==>
      !run[k].a.BeginToken? && !run[k].a.BeginLogin? && !run[k].a.BeginForget?
  }

  lemma FatalStep(s: State, i: nat, a: Action)
    requires i < |s.procs| && Enabled(s, i, a) && s.procs[i].op.TokenOp? && Fatal(s, s.procs[i], a)
    ensures Failing(NextProc(s, i, a))
  {
    hide NextServer, NextTokLock, NextRegLock, NextStore, NextRegs;
  }

  lemma FailingStep(s: State, i: nat, a: Action)
    requires i < |s.procs| && Enabled(s, i, a) && Failing(s.procs[i])
    requires !a.BeginToken? && !a.BeginLogin? && !a.BeginForget?
    ensures Failing(NextProc(s, i, a)) && !Request(a)
  {
    hide NextServer, NextTokLock, NextRegLock, NextStore, NextRegs;
  }

  lemma {:induction false} FailingRun(s: State, run: seq<Event>, i: nat)
    requires Legal(s, run) && i < |s.procs| && Failing(s.procs[i]) && SameCall(run, i)
    ensures i < |After(s, run).procs| && Failing(After(s, run).procs[i])
    ensures forall k :: 0 <= k < |run| && run[k].Do? && run[k].i == i ==> !Request(run[k].a)
    decreases |run|
  {
    hide Failing, Request;
    if run != [] {
      var e, n := run[0], Next(s, run[0]);
      if e.Do? && e.i == i {
        FailingStep(s, i, e.a);
      } else {
        assert n.procs[i] == s.procs[i];
      }
      assert forall k :: 0 < k < |run| ==> run[k] == run[1..][k - 1];
      FailingRun(n, run[1..], i);
    }
  }

  /**
    After such a step the call asks nothing more of the authorization server,
    over every later run of any number of processes, and where it ends it ends
    with an error.
  */
  lemma FailureEndsCall(s: State, i: nat, a: Action, run: seq<Event>)
    requires Possible(s, Do(i, a)) && s.procs[i].op.TokenOp? && Fatal(s, s.procs[i], a)
    requires Legal(Next(s, Do(i, a)), run) && SameCall(run, i)
    ensures forall k :: 0 <= k < |run| && run[k].Do? && run[k].i == i ==> !Request(run[k].a)
    ensures var n := After(Next(s, Do(i, a)), run);
      i < |n.procs| && (n.procs[i].pc.Idle? ==> n.procs[i].pc.last == Failed)
  {
    FatalStep(s, i, a);
    FailingRun(Next(s, Do(i, a)), run, i);
  }

  /**
    The failures that are passed over: a token the fast path cannot read counts
    as absent; a deletion that fails is as good as one that does not; a record
    that cannot be read is registered over under its lock, leaves a dynamic
    client behind before the locked part, and is not deleted after it.
  */
  lemma FailurePassedOver(s: State, i: nat, a: Action)
    requires Possible(s, Do(i, a)) && s.procs[i].op.TokenOp?
    ensures var p, q := s.procs[i], NextProc(s, i, a);
      match a
      case Proceed(fail) =>
        fail ==> var absent := s.(store := s.store - {p.key}); q == NextProc(absent, i, Proceed(false))
      case DeleteStale(fail) => q == NextProc(s, i, DeleteStale(false))
      case DeleteDropped(fail) => q == NextProc(s, i, DeleteDropped(false)) && Left(q)
      case ReadReg(fail) => fail ==> q == p.(pc := Registering)
      case CheckClient(fail) =>
        fail ==> q == if p.cfg.clientID == "" && p.reg.Some? then LeaveClient(p).(pc := Unlocking(ClientGone)) else p.(pc := Loading)
      case ReadDrop(fail) => fail ==> q == p.(pc := DropUnlock(true)) && Next(s, Do(i, a)).regs == s.regs
      case _ => true
  {
  }
}
