/**
  What processes that only ask for tokens owe to each other: they agree on the
  registered client, they exchange one stale token once, they register once.
*/
module OAuthSharing {
  import opened Wrappers
  import opened TokenStore
  import opened OAuthProtocol
  import opened OAuthInvariant
  import opened OAuthTheorems

  // ----- client agreement -----

  /** Past clientReplaced, until the registration is dropped or the round ends. */
  ghost predicate PastCheck(pc: Pc) {
    match pc
    case Loading | Loaded(_) | Refreshing(_) | SavingRefresh(_) | DeletingStale
       | LoggingIn | SavingLogin(_) | DropToken => true
    case _ => false
  }

  /** In Token, using a dynamic client, past the check that the record on file is still its own. */
  ghost predicate Relies(p: Proc) { p.op.TokenOp? && p.cfg.clientID == "" && PastCheck(p.pc) }

  ghost predicate OnFile(s: State, j: nat) {
    j < |s.procs| && StoredAs(s.regs, s.procs[j].cfg.redirect, s.procs[j].key)
  }

  /** Takes the record of process j away: by saving another client over it, by Forget, or by Login dropping its client. */
  ghost predicate Takes(s: State, i: nat, a: Action, j: nat)
    requires i < |s.procs| && Enabled(s, i, a) && j < |s.procs|
  {
    s.procs[i].cfg.redirect == s.procs[j].cfg.redirect &&
    match a
    case SaveReg(fail) => !fail && s.procs[i].pc.minted.client != s.procs[j].key
    case ForgetDeleteRecord(fail) => !fail
    case DeleteRecord(fail) => !fail && s.procs[i].op.LoginOp?
    case _ => false
  }

  /** Dropping a client under Token's lock never touches the record of another process that relies on its own. */
  lemma DropsElsewhere(s: State, i: nat, j: nat)
    requires Inv(s) && i < |s.procs| && j < |s.procs| && Relies(s.procs[j]) && OnFile(s, j)
    requires s.procs[i].pc.DropRecord? && s.procs[i].op.TokenOp?
    ensures s.procs[i].cfg.redirect != s.procs[j].cfg.redirect
  {
    var p, q := s.procs[i], s.procs[j];
    assert LocalInv(p) && LocalInv(q) && HoldsTok(p) && HoldsTok(q);
    assert s.tokLock[p.key] == i && s.tokLock[q.key] == j;
  }

  lemma OwnRecordStays(s: State, j: nat, a: Action)
    requires j < |s.procs| && Enabled(s, j, a) && Relies(s.procs[j]) && Relies(NextProc(s, j, a))
    ensures NextRegs(s, j, a) == s.regs && NextProc(s, j, a).key == s.procs[j].key && NextProc(s, j, a).cfg == s.procs[j].cfg
    ensures !Takes(s, j, a, j)
  {
  }

  lemma RegsTaken(s: State, i: nat, a: Action, j: nat)
    requires i < |s.procs| && Enabled(s, i, a) && j < |s.procs| && OnFile(s, j) && LocalInv(s.procs[i])
    requires s.procs[i].pc.DropRecord? && s.procs[i].op.TokenOp? ==> s.procs[i].cfg.redirect != s.procs[j].cfg.redirect
    ensures StoredAs(NextRegs(s, i, a), s.procs[j].cfg.redirect, s.procs[j].key) <==> !Takes(s, i, a, j)
  {
    assert s.procs[i].pc.DropRecord? ==> s.procs[i].op.TokenOp? || s.procs[i].op.LoginOp?;
  }

  lemma LostWhen(s: State, i: nat, a: Action, j: nat)
    requires Inv(s) && i < |s.procs| && Enabled(s, i, a) && j < |s.procs|
    requires Relies(s.procs[j]) && OnFile(s, j) && Relies(Apply(s, i, a).procs[j])
    ensures OnFile(Apply(s, i, a), j) <==> !Takes(s, i, a, j)
  {
    if i == j {
      OwnRecordStays(s, j, a);
    } else {
      if s.procs[i].pc.DropRecord? && s.procs[i].op.TokenOp? {
        DropsElsewhere(s, i, j);
      }
      assert LocalInv(s.procs[i]);
      RegsTaken(s, i, a, j);
    }
  }

  /**
    Whatever processes do, at whatever issuers: one that relies on its record,
    and goes on relying on it after a step, loses it if and only if the step
    takes it away.  For Token alone that is a registration saved over it.
  */
  lemma AgreementLostWhen(s0: State, run: seq<Event>, s: State, i: nat, a: Action, j: nat)
    requires Reaches(s0, run, s) && Possible(s, Do(i, a)) && j < |s.procs|
    requires Relies(s.procs[j]) && OnFile(s, j) && Relies(Apply(s, i, a).procs[j])
    ensures !OnFile(Apply(s, i, a), j) <==> Takes(s, i, a, j)
    ensures s.procs[i].op.TokenOp? ==>
      (!OnFile(Apply(s, i, a), j) <==>
        a == SaveReg(false) && s.procs[i].cfg.redirect == s.procs[j].cfg.redirect && s.procs[i].pc.minted.client != s.procs[j].key)
  {
    Reached(s0, run, s);
    hide Inv, Reaches, StoredAs;
    LostWhen(s, i, a, j);
    if s.procs[i].op.TokenOp? {
      TokenTakes(s, i, a, j);
    }
  }

  lemma TokenTakes(s: State, i: nat, a: Action, j: nat)
    requires Inv(s) && i < |s.procs| && Enabled(s, i, a) && j < |s.procs| && s.procs[i].op.TokenOp?
    ensures Takes(s, i, a, j) <==>
      a == SaveReg(false) && s.procs[i].cfg.redirect == s.procs[j].cfg.redirect && s.procs[i].pc.minted.client != s.procs[j].key
  {
    assert LocalInv(s.procs[i]);
  }

  ghost predicate Taken(s: State, e: Event, j: nat)
    requires Possible(s, e) && j < |s.procs|
  {
    e.Do? && Takes(s, e.i, e.a, j)
  }

  /** Over a run process j goes on relying on its record; has it on file throughout; and is never deprived of it. */
  ghost predicate StaysPast(s: State, run: seq<Event>, j: nat)
    requires Legal(s, run)
    decreases |run|
  {
    j < |s.procs| && Relies(s.procs[j]) && (run == [] || StaysPast(Next(s, run[0]), run[1..], j))
  }

  ghost predicate Agreed(s: State, run: seq<Event>, j: nat)
    requires Legal(s, run)
    decreases |run|
  {
    OnFile(s, j) && (run == [] || Agreed(Next(s, run[0]), run[1..], j))
  }

  ghost predicate Untaken(s: State, run: seq<Event>, j: nat)
    requires Legal(s, run) && StaysPast(s, run, j)
    decreases |run|
  {
    run == [] || (!Taken(s, run[0], j) && Untaken(Next(s, run[0]), run[1..], j))
  }

  lemma {:induction false} HeldWhen(s: State, run: seq<Event>, j: nat)
    requires Inv(s) && Legal(s, run) && StaysPast(s, run, j) && OnFile(s, j)
    ensures Agreed(s, run, j) <==> Untaken(s, run, j)
    decreases |run|
  {
    hide Inv;
    if run != [] {
      var n := Next(s, run[0]);
      EventKeepsInv(s, run[0]);
      if run[0].Do? {
        LostWhen(s, run[0].i, run[0].a, j);
      } else {
        assert n.regs == s.regs && n.procs == s.procs;
      }
      if OnFile(n, j) {
        HeldWhen(n, run[1..], j);
      }
    }
  }

  lemma CheckFinds(s: State, j: nat, fail: bool)
    requires Inv(s) && j < |s.procs| && Enabled(s, j, CheckClient(fail)) && Relies(NextProc(s, j, CheckClient(fail)))
    ensures OnFile(Apply(s, j, CheckClient(fail)), j)
  {
    assert LocalInv(s.procs[j]);
  }

  /**
    The client a process presents is the one on file all the way since its
    clientReplaced check, if and only if nobody took the record since.
  */
  lemma AgreementHeldWhen(s0: State, before: seq<Event>, s: State, fail: bool, run: seq<Event>, j: nat)
    requires Reaches(s0, before, s) && Possible(s, Do(j, CheckClient(fail)))
    requires var n := Apply(s, j, CheckClient(fail)); Legal(n, run) && StaysPast(n, run, j)
    ensures var n := Apply(s, j, CheckClient(fail)); Agreed(n, run, j) <==> Untaken(n, run, j)
  {
    Reached(s0, before, s);
    EventKeepsInv(s, Do(j, CheckClient(fail)));
    CheckFinds(s, j, fail);
    HeldWhen(Apply(s, j, CheckClient(fail)), run, j);
  }

  // ----- runs in which nobody takes it -----

  /** Nobody logs in or out by hand, and a registration that is on file can be read under its lock. */
  ghost predicate TokenEvent(s: State, e: Event)
    requires Possible(s, e)
  {
    e.Do? ==>
      && !e.a.BeginLogin? && !e.a.BeginForget?
      && (e.a == ReadReg(true) ==> s.procs[e.i].cfg.redirect !in s.regs)
  }

  ghost predicate TokenRun(s: State, run: seq<Event>)
    requires Legal(s, run)
    decreases |run|
  {
    run == [] || (TokenEvent(s, run[0]) && TokenRun(Next(s, run[0]), run[1..]))
  }

  ghost predicate AbsentOrOurs(regs: map<string, Record>, redirect: string, issuer: string) {
    redirect in regs ==> regs[redirect].Good? && regs[redirect].reg.issuer == issuer
  }

  /** What one process knows of its record in runs of Token alone, under one issuer. */
  ghost predicate Agrees(regs: map<string, Record>, p: Proc, issuer: string) {
    && p.cfg.issuer == issuer
    && (!p.pc.Idle? ==> p.op.TokenOp?)
    && (p.pc.RegWait? || p.pc.RegLocked? ==> AbsentOrOurs(regs, p.cfg.redirect, issuer))
    && (p.pc.Registering? || p.pc.RegSaving? ==> p.cfg.redirect !in regs)
    && OnFilePastCheck(regs, p)
  }

  ghost predicate OnFilePastCheck(regs: map<string, Record>, p: Proc) {
    PastCheck(p.pc) && p.cfg.clientID == "" ==> StoredAs(regs, p.cfg.redirect, p.key)
  }

  ghost predicate AgreeInv(s: State, issuer: string) {
    forall i :: 0 <= i < |s.procs| ==> Agrees(s.regs, s.procs[i], issuer)
  }

  ghost predicate AgreesMoving(s: State, i: nat, a: Action, issuer: string) {
    Moves(s, i, a) && Agrees(s.regs, s.procs[i], issuer) && TokenEvent(s, Do(i, a))
  }

  lemma AgreeSelf(s: State, i: nat, a: Action, issuer: string)
    requires AgreesMoving(s, i, a, issuer)
    ensures Agrees(NextRegs(s, i, a), NextProc(s, i, a), issuer)
  {
    OnFileStep(s, i, a, issuer);
  }

  lemma OnFileStep(s: State, i: nat, a: Action, issuer: string)
    requires AgreesMoving(s, i, a, issuer)
    ensures OnFilePastCheck(NextRegs(s, i, a), NextProc(s, i, a))
  {
    hide *;
    if Entering(a) {
      OnFileEntering(s, i, a, issuer);
    } else if Obtaining(a) {
      OnFileObtaining(s, i, a, issuer);
    } else {
      OnFileLeaving(s, i, a, issuer);
    }
  }

  lemma OnFileEntering(s: State, i: nat, a: Action, issuer: string)
    requires AgreesMoving(s, i, a, issuer) && Entering(a)
    ensures OnFilePastCheck(NextRegs(s, i, a), NextProc(s, i, a))
  {
  }

  lemma OnFileObtaining(s: State, i: nat, a: Action, issuer: string)
    requires AgreesMoving(s, i, a, issuer) && Obtaining(a)
    ensures OnFilePastCheck(NextRegs(s, i, a), NextProc(s, i, a))
  {
  }

  lemma OnFileLeaving(s: State, i: nat, a: Action, issuer: string)
    requires AgreesMoving(s, i, a, issuer) && !Entering(a) && !Obtaining(a)
    ensures OnFilePastCheck(NextRegs(s, i, a), NextProc(s, i, a))
  {
  }

  lemma AgreeStep(s: State, i: nat, a: Action, issuer: string)
    requires Inv(s) && AgreeInv(s, issuer) && i < |s.procs| && Enabled(s, i, a) && TokenEvent(s, Do(i, a))
    ensures AgreeInv(Apply(s, i, a), issuer)
  {
    var n := Apply(s, i, a);
    AgreeSelf(s, i, a, issuer);
    RegsEffect(s, i, a);
    forall j | 0 <= j < |n.procs|
      ensures Agrees(n.regs, n.procs[j], issuer)
    {
      if j != i {
        OthersRecord(s, i, j, a, issuer);
      }
    }
  }

  /** In such runs nobody takes the record a process relies on: who registers found none. */
  lemma NobodyTakes(s: State, i: nat, a: Action, j: nat, issuer: string)
    requires i < |s.procs| && Enabled(s, i, a) && j < |s.procs| && LocalInv(s.procs[i])
    requires Agrees(s.regs, s.procs[i], issuer) && OnFile(s, j)
    ensures !Takes(s, i, a, j)
  {
  }

  lemma OthersRecord(s: State, i: nat, j: nat, a: Action, issuer: string)
    requires Inv(s) && i < |s.procs| && j < |s.procs| && i != j && Enabled(s, i, a)
    requires Agrees(s.regs, s.procs[i], issuer) && Agrees(s.regs, s.procs[j], issuer)
    ensures Agrees(NextRegs(s, i, a), s.procs[j], issuer)
  {
    var p, q := s.procs[i], s.procs[j];
    assert LocalInv(p);
    RegsEffect(s, i, a);
    assert HoldsReg(p) && HoldsReg(q) ==> p.cfg.redirect != q.cfg.redirect;
    if PastCheck(q.pc) && q.cfg.clientID == "" {
      LostWhen(s, i, a, j);
      NobodyTakes(s, i, a, j, issuer);
    }
  }

  lemma {:induction false} AgreeRun(s: State, run: seq<Event>, issuer: string)
    requires Inv(s) && AgreeInv(s, issuer) && Legal(s, run) && TokenRun(s, run)
    ensures AgreeInv(After(s, run), issuer)
    decreases |run|
  {
    if run != [] {
      var n := Next(s, run[0]);
      EventKeepsInv(s, run[0]);
      if run[0].Do? {
        AgreeStep(s, run[0].i, run[0].a, issuer);
      } else {
        assert n.regs == s.regs && n.procs == s.procs;
      }
      AgreeRun(n, run[1..], issuer);
    }
  }

  ghost predicate OneIssuer(s: State, issuer: string) {
    forall i :: 0 <= i < |s.procs| ==> s.procs[i].cfg.issuer == issuer
  }

  /**
    Past the clientReplaced check the record on file names the client this
    process presents: at the refresh, at the login, and at every step between.
  */
  lemma ClientAgreement(s0: State, run: seq<Event>, s: State, issuer: string, i: nat)
    requires Reaches(s0, run, s) && OneIssuer(s0, issuer) && TokenRun(s0, run)
    requires i < |s.procs| && s.procs[i].cfg.clientID == "" && PastCheck(s.procs[i].pc)
    ensures var p := s.procs[i];
      && p.reg.Some? && p.reg.value.client == p.key
      && StoredAs(s.regs, p.cfg.redirect, p.key)
  {
    InitialInv(s0);
    assert AgreeInv(s0, issuer);
    AgreeRun(s0, run, issuer);
    Reached(s0, run, s);
    assert LocalInv(s.procs[i]);
  }

  // ----- one exchange for any number of callers -----

  ghost predicate Lasting(t: Token, horizon: int) {
    t.access != "" && (t.expiry.None? || t.expiry.value - horizon > EXPIRY_SKEW)
  }

  ghost predicate Excused(rejected: string, stale: set<string>) {
    rejected == "" || rejected == "-" || rejected in stale
  }

  /**
    Every caller asks for a first token or complains about one in `stale`, and
    what the server issues for client `c` stays fresh up to `horizon`.
  */
  ghost predicate CalmEvent(s: State, e: Event, c: string, stale: set<string>, horizon: int)
    requires Possible(s, e)
  {
    && (e.Tick? ==> s.now + e.seconds <= horizon)
    && (e.Do? ==>
          && !e.a.BeginLogin? && !e.a.BeginForget?
          && (e.a.BeginToken? ==> Excused(e.a.rejected, stale))
          && (Sends(e.a) && s.procs[e.i].key == c ==>
                MidSave(NextProc(s, e.i, e.a).pc) && Lasting(Pending(NextProc(s, e.i, e.a).pc), horizon)))
  }

  ghost predicate CalmRun(s: State, run: seq<Event>, c: string, stale: set<string>, horizon: int)
    requires Legal(s, run)
    decreases |run|
  {
    run == [] || (CalmEvent(s, run[0], c, stale, horizon) && CalmRun(Next(s, run[0]), run[1..], c, stale, horizon))
  }

  ghost predicate Useful(t: Token, stale: set<string>, horizon: int) {
    Lasting(t, horizon) && !Excused(t.access, stale)
  }

  ghost predicate InHand(s: State, c: string, stale: set<string>, horizon: int) {
    && c in s.tokLock && s.tokLock[c] < |s.procs|
    && MidSave(s.procs[s.tokLock[c]].pc)
    && Useful(Pending(s.procs[s.tokLock[c]].pc), stale, horizon)
  }

  ghost predicate Shared(s: State, c: string, stale: set<string>, horizon: int) {
    && c in s.store
    && Useful(s.store[c], stale, horizon)
    && (c in s.tokLock ==> s.tokLock[c] < |s.procs| && !MidSave(s.procs[s.tokLock[c]].pc))
  }

  ghost predicate CallersExcused(procs: seq<Proc>, stale: set<string>) {
    forall i :: 0 <= i < |procs| && !procs[i].pc.Idle? ==> procs[i].op.TokenOp? && Excused(procs[i].op.rejected, stale)
  }

  ghost predicate OnceInv(s: State, c: string, stale: set<string>, horizon: int, before: nat) {
    && s.now <= horizon
    && stale <= s.srv.accessIssued
    && CallersExcused(s.procs, stale)
    && (s.srv.exchanges[c] == before
        || (s.srv.exchanges[c] == before + 1 && (InHand(s, c, stale, horizon) || Shared(s, c, stale, horizon))))
  }

  /** With a useful token in the store nobody is on the way to the server, nor about to delete it. */
  lemma OnlyBefore(s: State, c: string, stale: set<string>, horizon: int, before: nat, i: nat)
    requires Inv(s) && OnceInv(s, c, stale, horizon, before)
    requires i < |s.procs| && s.procs[i].key == c && HoldsTok(s.procs[i]) && Exchanging(s.procs[i].pc)
    ensures s.srv.exchanges[c] == before
  {
    var p := s.procs[i];
    assert s.tokLock[c] == i;
    assert LocalInv(p) && HeldOrigin(s.srv, p);
    assert Useless(s.store, c, s.now, p.op.rejected);
  }

  lemma ContactEffect(s: State, i: nat, a: Action)
    requires i < |s.procs| && Enabled(s, i, a) && LocalInv(s.procs[i])
    ensures Sends(a) ==>
      && s.procs[i].op.ForgetOp? == NextProc(s, i, a).op.ForgetOp?
      && Exchanging(s.procs[i].pc) && HoldsTok(s.procs[i])
      && NextServer(s, i, a).exchanges == s.srv.exchanges + multiset{s.procs[i].key}
      && MidSave(NextProc(s, i, a).pc)
      && Pending(NextProc(s, i, a).pc).access !in s.srv.accessIssued
      && Pending(NextProc(s, i, a).pc).access != "" && Pending(NextProc(s, i, a).pc).access != "-"
      && NextTokLock(s, i, a) == s.tokLock
    ensures !Sends(a) ==> NextServer(s, i, a).exchanges == s.srv.exchanges
  {
  }

  /** A token is deleted only on the way to the server, or by Forget. */
  lemma DeleteEffect(s: State, i: nat, a: Action)
    requires i < |s.procs| && Enabled(s, i, a) && LocalInv(s.procs[i])
    ensures !Saves(a) ==>
      || NextStore(s, i, a) == s.store
      || (NextStore(s, i, a) == s.store - {s.procs[i].key}
          && ((Exchanging(s.procs[i].pc) && (s.procs[i].op.TokenOp? ==> HoldsTok(s.procs[i]))) || s.procs[i].op.ForgetOp?)
          && !s.procs[i].pc.Idle?)
  {
  }

  lemma CallerStep(s: State, i: nat, a: Action, stale: set<string>)
    requires i < |s.procs| && Enabled(s, i, a) && CallersExcused(s.procs, stale)
    requires !a.BeginLogin? && !a.BeginForget? && (a.BeginToken? ==> Excused(a.rejected, stale))
    ensures CallersExcused(s.procs[i := NextProc(s, i, a)], stale)
  {
  }

  /** A step that neither sends nor saves for `c`, and leaves its stored token alone, keeps the token where it is. */
  lemma KeptElsewhere(s: State, i: nat, q: Proc, n: State, c: string, stale: set<string>, horizon: int)
    requires LockInv(s) && (InHand(s, c, stale, horizon) || Shared(s, c, stale, horizon))
    requires i < |s.procs| && n.procs == s.procs[i := q]
    requires TokLockEffect(s.procs[i], q, i, s.tokLock, n.tokLock)
    requires s.procs[i].key == c ==> !MidSave(s.procs[i].pc)
    requires q.key == c ==> !MidSave(q.pc)
    requires c in s.store ==> c in n.store && n.store[c] == s.store[c]
    ensures InHand(n, c, stale, horizon) || Shared(n, c, stale, horizon)
  {
    if InHand(s, c, stale, horizon) {
      var h := s.tokLock[c];
      assert HoldsTok(s.procs[h]) && h != i;
      assert InHand(n, c, stale, horizon);
    } else {
      assert Shared(n, c, stale, horizon);
    }
  }

  lemma SaveCase(s: State, i: nat, a: Action, c: string, stale: set<string>, horizon: int)
    requires LockInv(s) && i < |s.procs| && Enabled(s, i, a) && LocalInv(s.procs[i])
    requires InHand(s, c, stale, horizon) || Shared(s, c, stale, horizon)
    requires Saves(a) && s.procs[i].key == c
    ensures Shared(Apply(s, i, a), c, stale, horizon)
  {
    SaveEffect(s, i, a);
    TokLockEffects(s, i, a);
    assert s.tokLock[c] == i;
  }

  lemma SendCase(s: State, i: nat, a: Action, c: string, stale: set<string>, horizon: int, before: nat)
    requires Inv(s) && OnceInv(s, c, stale, horizon, before)
    requires Possible(s, Do(i, a)) && CalmEvent(s, Do(i, a), c, stale, horizon)
    requires Sends(a) && s.procs[i].key == c
    ensures NextServer(s, i, a).exchanges[c] == before + 1
    ensures InHand(Apply(s, i, a), c, stale, horizon)
  {
    assert LocalInv(s.procs[i]);
    ContactEffect(s, i, a);
    OnlyBefore(s, c, stale, horizon, before, i);
  }

  lemma ExchangeCount(s: State, i: nat, a: Action, c: string, stale: set<string>, horizon: int, before: nat)
    requires Inv(s) && OnceInv(s, c, stale, horizon, before)
    requires Possible(s, Do(i, a)) && CalmEvent(s, Do(i, a), c, stale, horizon)
    ensures var n := Apply(s, i, a);
      || n.srv.exchanges[c] == before
      || (n.srv.exchanges[c] == before + 1 && (InHand(n, c, stale, horizon) || Shared(n, c, stale, horizon)))
  {
    var p, q := s.procs[i], NextProc(s, i, a);
    assert LocalInv(p);
    if Sends(a) && p.key == c {
      SendCase(s, i, a, c, stale, horizon, before);
      return;
    }
    ContactEffect(s, i, a);
    if s.srv.exchanges[c] == before + 1 {
      if Saves(a) && p.key == c {
        SaveCase(s, i, a, c, stale, horizon);
      } else {
        Untouched(s, i, a, c, stale, horizon, before);
        KeptElsewhere(s, i, q, Apply(s, i, a), c, stale, horizon);
      }
    }
  }

  lemma Untouched(s: State, i: nat, a: Action, c: string, stale: set<string>, horizon: int, before: nat)
    requires Inv(s) && OnceInv(s, c, stale, horizon, before) && s.srv.exchanges[c] == before + 1
    requires i < |s.procs| && Enabled(s, i, a)
    requires s.procs[i].key == c ==> !Sends(a) && !Saves(a)
    ensures TokLockEffect(s.procs[i], NextProc(s, i, a), i, s.tokLock, NextTokLock(s, i, a))
    ensures s.procs[i].key == c ==> !MidSave(s.procs[i].pc)
    ensures NextProc(s, i, a).key == c ==> !MidSave(NextProc(s, i, a).pc)
    ensures c in s.store ==> c in NextStore(s, i, a) && NextStore(s, i, a)[c] == s.store[c]
  {
    var p := s.procs[i];
    assert LocalInv(p);
    TokLockEffects(s, i, a);
    SaveEffect(s, i, a);
    SendEffect(s, i, a);
    StaysStored(s, i, a, c, stale, horizon, before);
    hide Inv, OnceInv;
  }

  lemma StaysStored(s: State, i: nat, a: Action, c: string, stale: set<string>, horizon: int, before: nat)
    requires Inv(s) && OnceInv(s, c, stale, horizon, before) && s.srv.exchanges[c] == before + 1
    requires i < |s.procs| && Enabled(s, i, a)
    requires s.procs[i].key == c ==> !Sends(a) && !Saves(a)
    ensures c in s.store ==> c in NextStore(s, i, a) && NextStore(s, i, a)[c] == s.store[c]
  {
    var p := s.procs[i];
    assert LocalInv(p);
    SaveEffect(s, i, a);
    DeleteEffect(s, i, a);
    if p.key == c && HoldsTok(p) && Exchanging(p.pc) {
      OnlyBefore(s, c, stale, horizon, before, i);
    }
  }

  lemma OnceStep(s: State, i: nat, a: Action, c: string, stale: set<string>, horizon: int, before: nat)
    requires Inv(s) && OnceInv(s, c, stale, horizon, before)
    requires Possible(s, Do(i, a)) && CalmEvent(s, Do(i, a), c, stale, horizon)
    ensures OnceInv(Apply(s, i, a), c, stale, horizon, before)
  {
    CallerStep(s, i, a, stale);
    ServerGrows(s, i, a);
    ExchangeCount(s, i, a, c, stale, horizon, before);
  }

  lemma {:induction false} OnceRun(s: State, run: seq<Event>, c: string, stale: set<string>, horizon: int, before: nat)
    requires Inv(s) && OnceInv(s, c, stale, horizon, before) && Legal(s, run) && CalmRun(s, run, c, stale, horizon)
    ensures OnceInv(After(s, run), c, stale, horizon, before)
    decreases |run|
  {
    if run != [] {
      EventKeepsInv(s, run[0]);
      if run[0].Do? {
        OnceStep(s, run[0].i, run[0].a, c, stale, horizon, before);
      }
      OnceRun(Next(s, run[0]), run[1..], c, stale, horizon, before);
    }
  }

  /**
    However many processes ask at once, for a first token or to replace one of
    `stale`, the server is made to issue at most one token for the client while
    that token stays fresh.
  */
  lemma OneExchange(s0: State, run: seq<Event>, s: State, c: string, stale: set<string>, horizon: int)
    requires Reaches(s0, run, s) && CalmRun(s0, run, c, stale, horizon)
    requires s0.now <= horizon && stale <= s0.srv.accessIssued
    ensures s.srv.exchanges[c] <= s0.srv.exchanges[c] + 1
  {
    InitialInv(s0);
    OnceRun(s0, run, c, stale, horizon, s0.srv.exchanges[c]);
  }

  // ----- one registration for any number of callers -----

  /** The server forgets nobody, and what it registers is saved. */
  ghost predicate SteadyEvent(s: State, e: Event)
    requires Possible(s, e)
  {
    && TokenEvent(s, e)
    && !e.Disown?
    && (e.Do? ==> e.a != SaveReg(true) && (e.a.Crash? ==> !s.procs[e.i].pc.RegSaving?))
  }

  ghost predicate SteadyRun(s: State, run: seq<Event>)
    requires Legal(s, run)
    decreases |run|
  {
    run == [] || (SteadyEvent(s, run[0]) && SteadyRun(Next(s, run[0]), run[1..]))
  }

  ghost predicate KnownHere(srv: AuthServer, reg: Registration, issuer: string) {
    reg.client in srv.known && reg.issuer == issuer
  }

  ghost predicate Dropping(pc: Pc) {
    pc.DropToken? || pc.DropWait? || pc.DropLocked? || pc.DropRecord? || pc.DropUnlock?
  }

  /** A process of this redirect URI holds only a registration the server knows, and is not dropping it. */
  ghost predicate Settled(srv: AuthServer, p: Proc, issuer: string) {
    && (p.reg.Some? ==> KnownHere(srv, p.reg.value, issuer))
    && (p.pc.RegSaving? ==> KnownHere(srv, p.pc.minted, issuer))
    && !Dropping(p.pc)
  }

  ghost predicate OnFileOrInHand(s: State, r: string) {
    r in s.regs || (r in s.regLock && s.regLock[r] < |s.procs| && s.procs[s.regLock[r]].pc.RegSaving?)
  }

  ghost predicate RegOnceInv(s: State, r: string, issuer: string, before: nat) {
    && (r in s.regs ==> s.regs[r].Good? && KnownHere(s.srv, s.regs[r].reg, issuer))
    && (forall i :: 0 <= i < |s.procs| && s.procs[i].cfg.redirect == r ==> Settled(s.srv, s.procs[i], issuer))
    && (s.srv.registrations[r] == before || (s.srv.registrations[r] == before + 1 && OnFileOrInHand(s, r)))
  }

  ghost predicate SettledMoving(s: State, i: nat, a: Action, issuer: string) {
    && Moves(s, i, a) && SteadyEvent(s, Do(i, a))
    && Agrees(s.regs, s.procs[i], issuer) && Settled(s.srv, s.procs[i], issuer)
    && var r := s.procs[i].cfg.redirect; r in s.regs ==> s.regs[r].Good? && KnownHere(s.srv, s.regs[r].reg, issuer)
  }

  lemma SettledStep(s: State, i: nat, a: Action, issuer: string)
    requires SettledMoving(s, i, a, issuer)
    ensures Settled(NextServer(s, i, a), NextProc(s, i, a), issuer)
  {
    hide *;
    if Entering(a) {
      SettledEntering(s, i, a, issuer);
    } else if Obtaining(a) {
      SettledObtaining(s, i, a, issuer);
    } else {
      SettledLeaving(s, i, a, issuer);
    }
  }

  lemma SettledEntering(s: State, i: nat, a: Action, issuer: string)
    requires SettledMoving(s, i, a, issuer) && Entering(a)
    ensures Settled(NextServer(s, i, a), NextProc(s, i, a), issuer)
  {
  }

  lemma SettledObtaining(s: State, i: nat, a: Action, issuer: string)
    requires SettledMoving(s, i, a, issuer) && Obtaining(a)
    ensures Settled(NextServer(s, i, a), NextProc(s, i, a), issuer)
  {
  }

  lemma SettledLeaving(s: State, i: nat, a: Action, issuer: string)
    requires SettledMoving(s, i, a, issuer) && !Entering(a) && !Obtaining(a)
    ensures Settled(NextServer(s, i, a), NextProc(s, i, a), issuer)
  {
  }

  lemma ServerRemembers(s: State, i: nat, a: Action)
    requires i < |s.procs| && Enabled(s, i, a)
    ensures s.srv.known <= NextServer(s, i, a).known
    ensures NextServer(s, i, a).registrations ==
              if a.Register? && a.minted.Some? then s.srv.registrations + multiset{s.procs[i].cfg.redirect} else s.srv.registrations
  {
  }

  /** Nothing of this redirect URI is deleted, and a registration in hand is saved. */
  lemma RecordStays(s: State, i: nat, a: Action, r: string, issuer: string)
    requires i < |s.procs| && Enabled(s, i, a) && LocalInv(s.procs[i]) && SteadyEvent(s, Do(i, a))
    requires Agrees(s.regs, s.procs[i], issuer)
    requires s.procs[i].cfg.redirect == r ==> Settled(s.srv, s.procs[i], issuer)
    ensures r in s.regs ==> r in NextRegs(s, i, a)
    ensures s.procs[i].pc.RegSaving? && s.procs[i].cfg.redirect == r ==> r in NextRegs(s, i, a)
    ensures r in NextRegs(s, i, a) && r !in s.regs ==> s.procs[i].pc.RegSaving? && NextRegs(s, i, a)[r] == Record.Good(s.procs[i].pc.minted)
    ensures r in s.regs && !s.procs[i].pc.RegSaving? ==> NextRegs(s, i, a)[r] == s.regs[r]
    ensures s.procs[i].pc.RegSaving? ==> s.procs[i].cfg.redirect !in s.regs
  {
    RegsEffect(s, i, a);
  }

  lemma RegistrationKept(s: State, i: nat, q: Proc, n: State, r: string)
    requires LockInv(s) && OnFileOrInHand(s, r)
    requires i < |s.procs| && n.procs == s.procs[i := q]
    requires RegLockEffect(s.procs[i], q, i, s.regLock, n.regLock)
    requires r in s.regs ==> r in n.regs
    requires s.procs[i].pc.RegSaving? && s.procs[i].cfg.redirect == r ==> r in n.regs
    requires q.cfg == s.procs[i].cfg
    ensures OnFileOrInHand(n, r)
  {
    if r !in n.regs {
      var h := s.regLock[r];
      assert HoldsReg(s.procs[h]) && s.procs[h].cfg.redirect == r;
      assert h != i;
    }
  }

  /** Only the holder of the registration lock registers, and only while no record is on file. */
  lemma RegistersOnce(s: State, i: nat, a: Action, r: string, issuer: string)
    requires LockInv(s) && i < |s.procs| && Enabled(s, i, a) && Agrees(s.regs, s.procs[i], issuer)
    requires a.Register? && a.minted.Some? && s.procs[i].cfg.redirect == r
    ensures !OnFileOrInHand(s, r)
    ensures OnFileOrInHand(Apply(s, i, a), r)
  {
    assert HoldsReg(s.procs[i]) && s.regLock[r] == i;
  }

  lemma RegistrationCount(s: State, i: nat, a: Action, r: string, issuer: string, before: nat)
    requires LockInv(s) && i < |s.procs| && LocalInv(s.procs[i]) && Agrees(s.regs, s.procs[i], issuer)
    requires RegOnceInv(s, r, issuer, before) && Enabled(s, i, a) && SteadyEvent(s, Do(i, a))
    ensures var n := Apply(s, i, a);
      n.srv.registrations[r] == before || (n.srv.registrations[r] == before + 1 && OnFileOrInHand(n, r))
  {
    ServerRemembers(s, i, a);
    if a.Register? && a.minted.Some? && s.procs[i].cfg.redirect == r {
      RegistersOnce(s, i, a, r, issuer);
    } else if s.srv.registrations[r] == before + 1 {
      RegLockEffects(s, i, a);
      RecordStays(s, i, a, r, issuer);
      RegistrationKept(s, i, NextProc(s, i, a), Apply(s, i, a), r);
    }
  }

  lemma AllSettled(s: State, i: nat, q: Proc, srv: AuthServer, r: string, issuer: string)
    requires forall j :: 0 <= j < |s.procs| && s.procs[j].cfg.redirect == r ==> Settled(s.srv, s.procs[j], issuer)
    requires i < |s.procs| && q.cfg == s.procs[i].cfg && (q.cfg.redirect == r ==> Settled(srv, q, issuer))
    requires s.srv.known <= srv.known
    ensures var procs := s.procs[i := q];
      forall j :: 0 <= j < |procs| && procs[j].cfg.redirect == r ==> Settled(srv, procs[j], issuer)
  {
  }

  lemma RegOnceStep(s: State, i: nat, a: Action, r: string, issuer: string, before: nat)
    requires Inv(s) && AgreeInv(s, issuer) && RegOnceInv(s, r, issuer, before)
    requires Possible(s, Do(i, a)) && SteadyEvent(s, Do(i, a))
    ensures RegOnceInv(Apply(s, i, a), r, issuer, before)
  {
    assert LocalInv(s.procs[i]) && Agrees(s.regs, s.procs[i], issuer);
    ServerRemembers(s, i, a);
    RecordStays(s, i, a, r, issuer);
    RegLockEffects(s, i, a);
    if s.procs[i].cfg.redirect == r {
      SettledStep(s, i, a, issuer);
    }
    AllSettled(s, i, NextProc(s, i, a), NextServer(s, i, a), r, issuer);
    RegistrationCount(s, i, a, r, issuer, before);
  }

  lemma RegOnceIdle(s: State, e: Event, r: string, issuer: string, before: nat)
    requires RegOnceInv(s, r, issuer, before) && AgreeInv(s, issuer) && Possible(s, e) && !e.Do? && !e.Disown?
    ensures RegOnceInv(Next(s, e), r, issuer, before) && AgreeInv(Next(s, e), issuer)
  {
    var n := Next(s, e);
    assert n.procs == s.procs && n.regs == s.regs && n.regLock == s.regLock;
    assert n.srv.known == s.srv.known && n.srv.registrations == s.srv.registrations;
    assert forall reg :: KnownHere(s.srv, reg, issuer) ==> KnownHere(n.srv, reg, issuer);
    assert forall p :: Settled(s.srv, p, issuer) ==> Settled(n.srv, p, issuer);
  }

  lemma {:induction false} RegOnceRun(s: State, run: seq<Event>, r: string, issuer: string, before: nat)
    requires Inv(s) && AgreeInv(s, issuer) && RegOnceInv(s, r, issuer, before) && Legal(s, run) && SteadyRun(s, run)
    ensures RegOnceInv(After(s, run), r, issuer, before)
    decreases |run|
  {
    if run != [] {
      EventKeepsInv(s, run[0]);
      if run[0].Do? {
        AgreeStep(s, run[0].i, run[0].a, issuer);
        RegOnceStep(s, run[0].i, run[0].a, r, issuer, before);
      } else {
        RegOnceIdle(s, run[0], r, issuer, before);
      }
      RegOnceRun(Next(s, run[0]), run[1..], r, issuer, before);
    }
  }

  /** With no record on file, any number of processes under one issuer register one client between them. */
  lemma OneRegistration(s0: State, run: seq<Event>, s: State, r: string, issuer: string)
    requires Reaches(s0, run, s) && SteadyRun(s0, run)
    requires OneIssuer(s0, issuer) && r !in s0.regs
    ensures s.srv.registrations[r] <= s0.srv.registrations[r] + 1
  {
    InitialInv(s0);
    assert AgreeInv(s0, issuer);
    RegOnceRun(s0, run, r, issuer, s0.srv.registrations[r]);
  }
}
