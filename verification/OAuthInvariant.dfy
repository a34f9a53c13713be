/**
  What every step of the token flow keeps.  The invariant has four parts:
  lock bookkeeping, facts local to one process, refresh-token liveness, and
  where tokens and registrations come from.
*/
module OAuthInvariant {
  import opened Wrappers
  import opened TokenStore
  import opened OAuthProtocol

  // ----- locks: a held lock has exactly its holder, and no lock leaks -----

  ghost predicate TokLockInv(procs: seq<Proc>, lock: map<string, nat>) {
    && (forall i :: 0 <= i < |procs| && HoldsTok(procs[i]) ==> procs[i].key in lock && lock[procs[i].key] == i)
    && (forall k :: k in lock ==> lock[k] < |procs| && HoldsTok(procs[lock[k]]) && procs[lock[k]].key == k)
  }

  ghost predicate RegLockInv(procs: seq<Proc>, lock: map<string, nat>) {
    && (forall i :: 0 <= i < |procs| && HoldsReg(procs[i]) ==> procs[i].cfg.redirect in lock && lock[procs[i].cfg.redirect] == i)
    && (forall r :: r in lock ==> lock[r] < |procs| && HoldsReg(procs[lock[r]]) && procs[lock[r]].cfg.redirect == r)
  }

  ghost predicate LockInv(s: State) {
    TokLockInv(s.procs, s.tokLock) && RegLockInv(s.procs, s.regLock)
  }

  // ----- one process -----

  /** From ensureClient on until the registration is dropped: the key is that of the client in use. */
  ghost predicate HasClient(p: Proc) {
    match p.pc
    case Keyed | TokWait | Checking | Loading | Loaded(_) | Refreshing(_) | SavingRefresh(_)
       | DeletingStale | LoggingIn | SavingLogin(_) | DropToken | ForgetToken => true
    case _ => false
  }

  /** Within Token, past the decision that the registration was made at the issuer in use. */
  ghost predicate AtOwnIssuer(p: Proc) {
    p.op.TokenOp? &&
    match p.pc
    case Refreshing(_) | SavingRefresh(_) | DeletingStale | LoggingIn | SavingLogin(_) => true
    case _ => false
  }

  ghost predicate OpFitsPc(p: Proc) {
    match p.pc
    case Idle(_) => true
    case ForgetKey | ForgetToken | ForgetRecord | ForgetCorrupt => p.op.ForgetOp?
    case Checking | Loading | Loaded(_) | Refreshing(_) | SavingRefresh(_) | DeletingStale => p.op.TokenOp?
    case _ => p.op.TokenOp? || p.op.LoginOp?
  }

  /** Nothing obtained through the dropped registration is kept. */
  ghost predicate Left(p: Proc) {
    p.reg.None? && p.cached.None? && p.lastRefreshed == "" && p.lastLoggedIn == ""
  }

  ghost predicate PcFits(p: Proc) {
    match p.pc
    case RegWait | RegLocked | Registering => p.cfg.clientID == "" && p.reg.None?
    case RegSaving(minted) => p.cfg.clientID == "" && p.reg.None? && minted.issuer == p.cfg.issuer
    case RegUnlock(ok) => p.cfg.clientID == "" && (ok ==> p.reg.Some?)
    case DropToken => p.cfg.clientID == ""
    case DropWait(gone) => p.cfg.clientID == "" && Left(p) && gone.client == p.key
    case DropLocked(gone) => p.cfg.clientID == "" && Left(p) && gone.client == p.key
    case DropRecord(gone) => p.cfg.clientID == "" && Left(p) && gone.client == p.key
    case DropUnlock(_) => p.cfg.clientID == "" && Left(p)
    case Unlocking(out) => out.ClientGone? ==> p.cfg.clientID == "" && Left(p)
    case Refreshing(spent) => spent.refresh != ""
    case LoggingIn => p.op.TokenOp? && p.op.rejected != "" ==> p.op.rejected != p.lastLoggedIn
    case _ => true
  }

  /** A call opens the browser at most once, and is over when it has. */
  ghost predicate LoginBudget(p: Proc) {
    && p.round <= 2
    && p.logins <= 1
    && (p.logins == 1 ==> p.pc.SavingLogin? || p.pc.Idle? || (p.pc.Unlocking? && !p.pc.out.ClientGone?))
  }

  ghost predicate ClientFits(p: Proc) {
    && (p.cfg.clientID != "" ==> p.reg.None?)
    && (HasClient(p) ==> p.key == ClientID(p) && (p.cfg.clientID == "" ==> p.reg.Some?))
    && (AtOwnIssuer(p) ==> !Foreign(p))
  }

  ghost predicate LocalInv(p: Proc) {
    && ClientFits(p)
    && OpFitsPc(p)
    && PcFits(p)
    && LoginBudget(p)
  }

  // ----- refresh tokens -----

  /** Absent, what the server expects next, or withdrawn by the server itself; never one it rotated away. */
  ghost predicate Live(srv: AuthServer, client: string, rt: string) {
    rt == "" || (client in srv.current && srv.current[client] == rt) || rt in srv.revoked
  }

  ghost predicate MidSave(pc: Pc) { pc.SavingRefresh? || pc.SavingLogin? }

  ghost predicate HeldLive(srv: AuthServer, p: Proc) {
    match p.pc
    case Loaded(stored) => stored.Some? ==> Live(srv, p.key, stored.value.refresh)
    case Refreshing(spent) => Live(srv, p.key, spent.refresh)
    case SavingRefresh(t) => Live(srv, p.key, t.refresh)
    case SavingLogin(t) => Live(srv, p.key, t.refresh)
    case _ => true
  }

  ghost predicate RotationInv(s: State) {
    && (forall c :: c in s.store ==>
          || Live(s.srv, c, s.store[c].refresh)
          || (c in s.tokLock && s.tokLock[c] < |s.procs| && MidSave(s.procs[s.tokLock[c]].pc)))
    && (forall i :: 0 <= i < |s.procs| ==> HeldLive(s.srv, s.procs[i]))
  }

  // ----- origins -----

  ghost predicate Issued(srv: AuthServer, access: string) { access in srv.accessIssued }

  ghost predicate Registered(srv: AuthServer, reg: Registration) {
    reg.client in srv.issuerOf && srv.issuerOf[reg.client] == reg.issuer
  }

  ghost predicate FieldOrigin(srv: AuthServer, p: Proc) {
    RegField(srv, p) && TokenFields(srv, p)
  }

  ghost predicate RegField(srv: AuthServer, p: Proc) {
    p.reg.Some? ==> Registered(srv, p.reg.value)
  }

  ghost predicate TokenFields(srv: AuthServer, p: Proc) {
    && (p.cached.Some? ==> Issued(srv, p.cached.value.access))
    && (p.lastRefreshed != "" ==> Issued(srv, p.lastRefreshed))
    && (p.lastLoggedIn != "" ==> Issued(srv, p.lastLoggedIn))
    && (p.op.TokenOp? && p.op.rejected != "" ==> p.op.rejected == "-" || Issued(srv, p.op.rejected))
  }

  ghost predicate RegOrigin(srv: AuthServer, pc: Pc) {
    match pc
    case RegSaving(reg) => Registered(srv, reg)
    case DropWait(gone) => Registered(srv, gone)
    case DropLocked(gone) => Registered(srv, gone)
    case DropRecord(gone) => Registered(srv, gone)
    case _ => true
  }

  ghost predicate TokenOrigin(srv: AuthServer, p: Proc) {
    match p.pc
    case Loaded(stored) => stored.Some? ==> Issued(srv, stored.value.access)
    case Refreshing(spent) => Issued(srv, spent.access)
    case SavingRefresh(t) => Minted(srv, p, t) && t.refresh != ""
    case SavingLogin(t) => Minted(srv, p, t)
    case _ => true
  }

  ghost predicate AnswerOrigin(srv: AuthServer, p: Proc) {
    match p.pc
    case Unlocking(out) => Answer(srv, p, out)
    case Idle(out) => Answer(srv, p, out)
    case _ => true
  }

  ghost predicate HeldOrigin(srv: AuthServer, p: Proc) {
    FieldOrigin(srv, p) && RegOrigin(srv, p.pc) && TokenOrigin(srv, p) && AnswerOrigin(srv, p)
  }

  /** A token about to be saved: issued, for the client whose key it goes under, not the refused one. */
  ghost predicate Minted(srv: AuthServer, p: Proc, t: Token) {
    && Issued(srv, t.access)
    && t.client == p.key
    && t.issuer == p.cfg.issuer
    && t.access != ""
    && (p.op.TokenOp? ==> t.access != p.op.rejected)
  }

  /** An answer is a token the server issued, and never the one the caller had refused. */
  ghost predicate Answer(srv: AuthServer, p: Proc, out: Outcome) {
    out.Returned? ==> Issued(srv, out.token) && out.token != "" && (p.op.TokenOp? ==> out.token != p.op.rejected)
  }

  ghost predicate OriginInv(s: State) {
    && (forall c :: c in s.store ==> Issued(s.srv, s.store[c].access) && s.store[c].client == c)
    && (forall r :: r in s.regs && s.regs[r].Good? ==> Registered(s.srv, s.regs[r].reg))
    && (forall i :: 0 <= i < |s.procs| ==> HeldOrigin(s.srv, s.procs[i]))
    && "" !in s.srv.accessIssued
    && "-" !in s.srv.accessIssued
  }

  // ----- single flight -----

  /** Past the re-load under the lock, on the way to the server. */
  ghost predicate Exchanging(pc: Pc) {
    pc.Loaded? || pc.Refreshing? || pc.DeletingStale? || pc.LoggingIn? || pc.DropToken?
  }

  /** The stored token does not spare the caller an exchange. */
  ghost predicate Useless(store: map<string, Token>, key: string, now: int, rejected: string) {
    key in store ==> !Fresh(Some(store[key]), now) || store[key].access == rejected
  }

  ghost predicate FlightInv(s: State) {
    forall i :: 0 <= i < |s.procs| && s.procs[i].op.TokenOp? && Exchanging(s.procs[i].pc) ==>
      Useless(s.store, s.procs[i].key, s.now, s.procs[i].op.rejected)
  }

  // ----- dropping a registration -----

  /** About to delete the record: it still is the one being dropped, or it is gone already. */
  ghost predicate DropInv(s: State) {
    forall i :: 0 <= i < |s.procs| && s.procs[i].pc.DropRecord? ==>
      s.procs[i].cfg.redirect !in s.regs || StoredAs(s.regs, s.procs[i].cfg.redirect, s.procs[i].pc.gone.client)
  }

  ghost predicate Inv(s: State) {
    && LockInv(s)
    && (forall i :: 0 <= i < |s.procs| ==> LocalInv(s.procs[i]))
    && RotationInv(s)
    && OriginInv(s)
    && FlightInv(s)
    && DropInv(s)
  }

  // ----- preservation, one part and one phase of a call at a time -----

  /** Up to the token lock. */
  ghost predicate Entering(a: Action) {
    match a
    case BeginToken(_, _) | BeginLogin | BeginForget | Resolve(_, _) | LockReg | CancelReg | ReadReg(_)
       | Register(_) | SaveReg(_) | UnlockReg | Proceed(_) | LockTok | CancelTok => true
    case _ => false
  }

  /** Under the token lock. */
  ghost predicate Obtaining(a: Action) {
    match a
    case CheckClient(_) | LoadTok(_) | Decide(_) | Exchange(_) | SaveRefreshed | DeleteStale(_)
       | Browser(_) | SaveLoggedIn | UnlockTok => true
    case _ => false
  }

  ghost predicate Moves(s: State, i: nat, a: Action) {
    i < |s.procs| && Enabled(s, i, a) && LocalInv(s.procs[i])
  }

  ghost predicate TokLockEffect(p: Proc, q: Proc, i: nat, before: map<string, nat>, after: map<string, nat>) {
    if HoldsTok(p) == HoldsTok(q) then after == before && (HoldsTok(p) ==> p.key == q.key)
    else if HoldsTok(q) then q.key !in before && after == before[q.key := i]
    else after == before - {p.key}
  }

  ghost predicate RegLockEffect(p: Proc, q: Proc, i: nat, before: map<string, nat>, after: map<string, nat>) {
    if HoldsReg(p) == HoldsReg(q) then after == before
    else if HoldsReg(q) then q.cfg.redirect !in before && after == before[q.cfg.redirect := i]
    else after == before - {p.cfg.redirect}
  }

  ghost predicate TokLockMoves(s: State, i: nat, a: Action)
    requires Moves(s, i, a)
  {
    TokLockEffect(s.procs[i], NextProc(s, i, a), i, s.tokLock, NextTokLock(s, i, a))
  }

  ghost predicate RegLockMoves(s: State, i: nat, a: Action)
    requires Moves(s, i, a)
  {
    && RegLockEffect(s.procs[i], NextProc(s, i, a), i, s.regLock, NextRegLock(s, i, a))
    && NextProc(s, i, a).cfg == s.procs[i].cfg
  }

  lemma TokLockEffects(s: State, i: nat, a: Action)
    requires Moves(s, i, a)
    ensures TokLockMoves(s, i, a)
  {
    hide *;
    if Entering(a) {
      TokLockEffectEntering(s, i, a);
    } else if Obtaining(a) {
      TokLockEffectObtaining(s, i, a);
    } else if a.Crash? {
      TokLockEffectCrash(s, i, a);
    } else {
      TokLockEffectLeaving(s, i, a);
    }
  }

  lemma TokLockEffectEntering(s: State, i: nat, a: Action)
    requires Moves(s, i, a) && Entering(a)
    ensures TokLockMoves(s, i, a)
  {
  }

  lemma TokLockEffectObtaining(s: State, i: nat, a: Action)
    requires Moves(s, i, a) && Obtaining(a)
    ensures TokLockMoves(s, i, a)
  {
  }

  lemma TokLockEffectCrash(s: State, i: nat, a: Action)
    requires Moves(s, i, a) && a.Crash?
    ensures TokLockMoves(s, i, a)
  {
  }

  lemma TokLockEffectLeaving(s: State, i: nat, a: Action)
    requires Moves(s, i, a) && !Entering(a) && !Obtaining(a) && !a.Crash?
    ensures TokLockMoves(s, i, a)
  {
  }

  lemma RegLockEffects(s: State, i: nat, a: Action)
    requires Moves(s, i, a)
    ensures RegLockMoves(s, i, a)
  {
    hide *;
    if Entering(a) {
      RegLockEffectEntering(s, i, a);
    } else if Obtaining(a) {
      RegLockEffectObtaining(s, i, a);
    } else {
      RegLockEffectLeaving(s, i, a);
    }
  }

  lemma RegLockEffectEntering(s: State, i: nat, a: Action)
    requires Moves(s, i, a) && Entering(a)
    ensures RegLockMoves(s, i, a)
  {
  }

  lemma RegLockEffectObtaining(s: State, i: nat, a: Action)
    requires Moves(s, i, a) && Obtaining(a)
    ensures RegLockMoves(s, i, a)
  {
  }

  lemma RegLockEffectLeaving(s: State, i: nat, a: Action)
    requires Moves(s, i, a) && !Entering(a) && !Obtaining(a)
    ensures RegLockMoves(s, i, a)
  {
  }

  lemma ClientStep(s: State, i: nat, a: Action)
    requires Moves(s, i, a)
    ensures ClientFits(NextProc(s, i, a))
  {
    hide *;
    if Entering(a) {
      ClientEntering(s, i, a);
    } else if Obtaining(a) {
      ClientObtaining(s, i, a);
    } else {
      ClientLeaving(s, i, a);
    }
  }

  lemma ClientEntering(s: State, i: nat, a: Action)
    requires Moves(s, i, a) && Entering(a)
    ensures ClientFits(NextProc(s, i, a))
  {
  }

  lemma ClientObtaining(s: State, i: nat, a: Action)
    requires Moves(s, i, a) && Obtaining(a)
    ensures ClientFits(NextProc(s, i, a))
  {
  }

  lemma ClientLeaving(s: State, i: nat, a: Action)
    requires Moves(s, i, a) && !Entering(a) && !Obtaining(a)
    ensures ClientFits(NextProc(s, i, a))
  {
  }

  lemma PcStep(s: State, i: nat, a: Action)
    requires Moves(s, i, a)
    ensures PcFits(NextProc(s, i, a))
  {
    hide *;
    if Entering(a) {
      PcEntering(s, i, a);
    } else if Obtaining(a) {
      PcObtaining(s, i, a);
    } else {
      PcLeaving(s, i, a);
    }
  }

  lemma PcEntering(s: State, i: nat, a: Action)
    requires Moves(s, i, a) && Entering(a)
    ensures PcFits(NextProc(s, i, a))
  {
  }

  lemma PcObtaining(s: State, i: nat, a: Action)
    requires Moves(s, i, a) && Obtaining(a)
    ensures PcFits(NextProc(s, i, a))
  {
  }

  lemma PcLeaving(s: State, i: nat, a: Action)
    requires Moves(s, i, a) && !Entering(a) && !Obtaining(a)
    ensures PcFits(NextProc(s, i, a))
  {
  }

  lemma BudgetStep(s: State, i: nat, a: Action)
    requires i < |s.procs| && Enabled(s, i, a) && LocalInv(s.procs[i])
    ensures OpFitsPc(NextProc(s, i, a)) && LoginBudget(NextProc(s, i, a))
  {
    hide ClientFits, PcFits;
    OpStep(s, i, a);
  }

  lemma OpStep(s: State, i: nat, a: Action)
    requires Moves(s, i, a)
    ensures OpFitsPc(NextProc(s, i, a))
  {
    hide *;
    if Entering(a) {
      OpEntering(s, i, a);
    } else if Obtaining(a) {
      OpObtaining(s, i, a);
    } else {
      OpLeaving(s, i, a);
    }
  }

  lemma OpEntering(s: State, i: nat, a: Action)
    requires Moves(s, i, a) && Entering(a)
    ensures OpFitsPc(NextProc(s, i, a))
  {
  }

  lemma OpObtaining(s: State, i: nat, a: Action)
    requires Moves(s, i, a) && Obtaining(a)
    ensures OpFitsPc(NextProc(s, i, a))
  {
  }

  lemma OpLeaving(s: State, i: nat, a: Action)
    requires Moves(s, i, a) && !Entering(a) && !Obtaining(a)
    ensures OpFitsPc(NextProc(s, i, a))
  {
  }

  lemma LocalStep(s: State, i: nat, a: Action)
    requires i < |s.procs| && Enabled(s, i, a) && LocalInv(s.procs[i])
    ensures LocalInv(NextProc(s, i, a))
  {
    ClientStep(s, i, a);
    PcStep(s, i, a);
    BudgetStep(s, i, a);
  }

  lemma TokLockKept(procs: seq<Proc>, i: nat, q: Proc, before: map<string, nat>, after: map<string, nat>)
    requires i < |procs| && TokLockInv(procs, before) && TokLockEffect(procs[i], q, i, before, after)
    ensures TokLockInv(procs[i := q], after)
  {
  }

  lemma RegLockKept(procs: seq<Proc>, i: nat, q: Proc, before: map<string, nat>, after: map<string, nat>)
    requires i < |procs| && RegLockInv(procs, before) && RegLockEffect(procs[i], q, i, before, after)
    requires q.cfg == procs[i].cfg
    ensures RegLockInv(procs[i := q], after)
  {
  }

  lemma LockStep(s: State, i: nat, a: Action)
    requires LockInv(s) && i < |s.procs| && Enabled(s, i, a) && LocalInv(s.procs[i])
    ensures LockInv(Apply(s, i, a))
  {
    TokLockEffects(s, i, a);
    RegLockEffects(s, i, a);
    TokLockKept(s.procs, i, NextProc(s, i, a), s.tokLock, NextTokLock(s, i, a));
    RegLockKept(s.procs, i, NextProc(s, i, a), s.regLock, NextRegLock(s, i, a));
  }

  // ----- rotation: only the holder of a token lock can change what its key is good for -----

  ghost predicate Sends(a: Action) {
    (a.Exchange? && a.reply.Granted?) || (a.Browser? && a.login.Some?)
  }

  ghost predicate Saves(a: Action) { a.SaveRefreshed? || a.SaveLoggedIn? }

  function Pending(pc: Pc): Token
    requires MidSave(pc)
  {
    if pc.SavingRefresh? then pc.refreshed else pc.granted
  }

  ghost predicate Within(after: map<string, Token>, before: map<string, Token>) {
    forall c :: c in after ==> c in before && after[c] == before[c]
  }

  ghost predicate Quiet(s: State, p: Proc, q: Proc, n: State) {
    && !MidSave(p.pc) && !MidSave(q.pc)
    && n.srv.current == s.srv.current && n.srv.revoked == s.srv.revoked
    && Within(n.store, s.store)
  }

  ghost predicate Sent(s: State, p: Proc, q: Proc, n: State) {
    && HoldsTok(p) && HoldsTok(q) && q.key == p.key && MidSave(q.pc)
    && n.store == s.store
    && forall c, rt :: c != p.key && Live(s.srv, c, rt) ==> Live(n.srv, c, rt)
  }

  ghost predicate Saved(s: State, p: Proc, q: Proc, n: State) {
    && HoldsTok(p) && MidSave(p.pc) && !MidSave(q.pc)
    && n.srv == s.srv
    && n.store == s.store[p.key := Pending(p.pc)]
  }

  lemma SaveEffect(s: State, i: nat, a: Action)
    requires i < |s.procs| && Enabled(s, i, a)
    ensures Saves(a) <==> MidSave(s.procs[i].pc)
    ensures if Saves(a) then NextStore(s, i, a) == s.store[s.procs[i].key := Pending(s.procs[i].pc)] && HoldsTok(s.procs[i])
            else Within(NextStore(s, i, a), s.store)
    ensures MidSave(NextProc(s, i, a).pc) <==> Sends(a)
  {
    SaveFollowsSend(s, i, a);
  }

  lemma SaveFollowsSend(s: State, i: nat, a: Action)
    requires i < |s.procs| && Enabled(s, i, a)
    ensures MidSave(NextProc(s, i, a).pc) <==> Sends(a)
  {
  }

  lemma SendEffect(s: State, i: nat, a: Action)
    requires i < |s.procs| && Enabled(s, i, a)
    ensures Sends(a) ==> Sent(s, s.procs[i], NextProc(s, i, a), Apply(s, i, a))
  {
  }

  lemma ServerEffect(s: State, i: nat, a: Action)
    requires i < |s.procs| && Enabled(s, i, a) && !Sends(a)
    ensures NextServer(s, i, a).current == s.srv.current && NextServer(s, i, a).revoked == s.srv.revoked
    ensures Saves(a) ==> NextServer(s, i, a) == s.srv
  {
  }

  lemma QuietKept(s: State, i: nat, q: Proc, n: State)
    requires LockInv(s) && RotationInv(s) && LockInv(n)
    requires i < |s.procs| && n.procs == s.procs[i := q] && HeldLive(n.srv, q) && Quiet(s, s.procs[i], q, n)
    ensures RotationInv(n)
  {
    forall c | c in n.store && !Live(n.srv, c, n.store[c].refresh)
      ensures c in n.tokLock && n.tokLock[c] < |n.procs| && MidSave(n.procs[n.tokLock[c]].pc)
    {
      var h := s.tokLock[c];
      assert h != i && n.procs[h] == s.procs[h];
    }
  }

  lemma SentKept(s: State, i: nat, q: Proc, n: State)
    requires LockInv(s) && RotationInv(s) && LockInv(n)
    requires i < |s.procs| && n.procs == s.procs[i := q] && HeldLive(n.srv, q) && Sent(s, s.procs[i], q, n)
    ensures RotationInv(n)
  {
    forall j | 0 <= j < |n.procs| && j != i
      ensures HeldLive(n.srv, n.procs[j])
    {
      assert HoldsTok(s.procs[j]) ==> s.procs[j].key != q.key;
    }
    forall c | c in n.store && !Live(n.srv, c, n.store[c].refresh)
      ensures c in n.tokLock && n.tokLock[c] < |n.procs| && MidSave(n.procs[n.tokLock[c]].pc)
    {
      if c == q.key {
        assert HoldsTok(n.procs[i]);
      } else {
        assert !Live(s.srv, c, s.store[c].refresh);
        var h := s.tokLock[c];
        assert h != i && n.procs[h] == s.procs[h];
      }
    }
  }

  lemma SavedKept(s: State, i: nat, q: Proc, n: State)
    requires LockInv(s) && RotationInv(s) && LockInv(n)
    requires i < |s.procs| && n.procs == s.procs[i := q] && HeldLive(n.srv, q) && Saved(s, s.procs[i], q, n)
    ensures RotationInv(n)
  {
    assert HeldLive(s.srv, s.procs[i]);
    forall c | c in n.store && !Live(n.srv, c, n.store[c].refresh)
      ensures c in n.tokLock && n.tokLock[c] < |n.procs| && MidSave(n.procs[n.tokLock[c]].pc)
    {
      var h := s.tokLock[c];
      assert h != i && n.procs[h] == s.procs[h];
    }
  }

  /** The token it holds is live, and so is the one it is about to load. */
  ghost predicate FindsLive(s: State, i: nat, a: Action) {
    && Moves(s, i, a)
    && var p := s.procs[i];
       HeldLive(s.srv, p) && (p.pc.Loading? && p.key in s.store ==> Live(s.srv, p.key, s.store[p.key].refresh))
  }

  lemma HeldLiveStep(s: State, i: nat, a: Action)
    requires FindsLive(s, i, a)
    ensures HeldLive(NextServer(s, i, a), NextProc(s, i, a))
  {
    hide *;
    if Entering(a) {
      HeldLiveEntering(s, i, a);
    } else if Obtaining(a) {
      HeldLiveObtaining(s, i, a);
    } else {
      HeldLiveLeaving(s, i, a);
    }
  }

  lemma HeldLiveEntering(s: State, i: nat, a: Action)
    requires FindsLive(s, i, a) && Entering(a)
    ensures HeldLive(NextServer(s, i, a), NextProc(s, i, a))
  {
  }

  lemma HeldLiveObtaining(s: State, i: nat, a: Action)
    requires FindsLive(s, i, a) && Obtaining(a)
    ensures HeldLive(NextServer(s, i, a), NextProc(s, i, a))
  {
  }

  lemma HeldLiveLeaving(s: State, i: nat, a: Action)
    requires FindsLive(s, i, a) && !Entering(a) && !Obtaining(a)
    ensures HeldLive(NextServer(s, i, a), NextProc(s, i, a))
  {
  }

  lemma RotationStep(s: State, i: nat, a: Action)
    requires LockInv(s) && RotationInv(s) && i < |s.procs| && Enabled(s, i, a) && LocalInv(s.procs[i])
    ensures RotationInv(Apply(s, i, a))
  {
    var p, q, n := s.procs[i], NextProc(s, i, a), Apply(s, i, a);
    LockStep(s, i, a);
    SaveEffect(s, i, a);
    SendEffect(s, i, a);
    assert p.pc.Loading? ==> p.key in s.tokLock && s.tokLock[p.key] == i;
    assert HeldLive(s.srv, p);
    HeldLiveStep(s, i, a);
    if Sends(a) {
      SentKept(s, i, q, n);
      return;
    }
    ServerEffect(s, i, a);
    if Saves(a) {
      SavedKept(s, i, q, n);
    } else {
      QuietKept(s, i, q, n);
    }
  }

  // ----- origins -----

  lemma ServerGrows(s: State, i: nat, a: Action)
    requires i < |s.procs| && Enabled(s, i, a)
    ensures s.srv.accessIssued <= NextServer(s, i, a).accessIssued
    ensures "" in NextServer(s, i, a).accessIssued ==> "" in s.srv.accessIssued
    ensures "-" in NextServer(s, i, a).accessIssued ==> "-" in s.srv.accessIssued
    ensures forall reg :: Registered(s.srv, reg) ==> Registered(NextServer(s, i, a), reg)
  {
  }

  lemma OriginGrows(srv: AuthServer, srv': AuthServer, p: Proc)
    requires srv.accessIssued <= srv'.accessIssued
    requires forall reg :: Registered(srv, reg) ==> Registered(srv', reg)
    requires HeldOrigin(srv, p)
    ensures HeldOrigin(srv', p)
  {
  }

  lemma RecordOrigin(s: State, i: nat, a: Action)
    requires i < |s.procs| && Enabled(s, i, a) && HeldOrigin(s.srv, s.procs[i])
    requires forall r :: r in s.regs && s.regs[r].Good? ==> Registered(s.srv, s.regs[r].reg)
    ensures forall r :: r in NextRegs(s, i, a) && NextRegs(s, i, a)[r].Good? ==> Registered(s.srv, NextRegs(s, i, a)[r].reg)
  {
  }

  ghost predicate Sources(s: State, p: Proc) {
    && "" !in s.srv.accessIssued && "-" !in s.srv.accessIssued
    && (p.key in s.store ==> Issued(s.srv, s.store[p.key].access))
    && (p.cfg.redirect in s.regs && s.regs[p.cfg.redirect].Good? ==> Registered(s.srv, s.regs[p.cfg.redirect].reg))
  }

  ghost predicate Originates(s: State, i: nat, a: Action) {
    Moves(s, i, a) && HeldOrigin(s.srv, s.procs[i]) && Sources(s, s.procs[i])
  }

  lemma FieldOriginStep(s: State, i: nat, a: Action)
    requires Originates(s, i, a)
    ensures FieldOrigin(NextServer(s, i, a), NextProc(s, i, a))
  {
    RegFieldStep(s, i, a);
    TokenFieldsStep(s, i, a);
  }

  lemma TokenFieldsStep(s: State, i: nat, a: Action)
    requires Originates(s, i, a)
    ensures TokenFields(NextServer(s, i, a), NextProc(s, i, a))
  {
    hide *;
    if Entering(a) {
      TokenFieldsEntering(s, i, a);
    } else if Obtaining(a) {
      TokenFieldsObtaining(s, i, a);
    } else {
      TokenFieldsLeaving(s, i, a);
    }
  }

  lemma TokenFieldsEntering(s: State, i: nat, a: Action)
    requires Originates(s, i, a) && Entering(a)
    ensures TokenFields(NextServer(s, i, a), NextProc(s, i, a))
  {
    hide LocalInv;
    hide RegOrigin, AnswerOrigin, TokenOrigin, RegField;
    ServerGrows(s, i, a);
  }

  lemma TokenFieldsObtaining(s: State, i: nat, a: Action)
    requires Originates(s, i, a) && Obtaining(a)
    ensures TokenFields(NextServer(s, i, a), NextProc(s, i, a))
  {
    hide LocalInv;
    hide RegOrigin, AnswerOrigin;
    ServerGrows(s, i, a);
  }

  lemma TokenFieldsLeaving(s: State, i: nat, a: Action)
    requires Originates(s, i, a) && !Entering(a) && !Obtaining(a)
    ensures TokenFields(NextServer(s, i, a), NextProc(s, i, a))
  {
    hide LocalInv;
    hide RegOrigin, AnswerOrigin;
    ServerGrows(s, i, a);
  }

  lemma RegFieldStep(s: State, i: nat, a: Action)
    requires Originates(s, i, a)
    ensures RegField(NextServer(s, i, a), NextProc(s, i, a))
  {
    hide *;
    if Entering(a) {
      RegFieldEntering(s, i, a);
    } else if Obtaining(a) {
      RegFieldObtaining(s, i, a);
    } else {
      RegFieldLeaving(s, i, a);
    }
  }

  lemma RegFieldEntering(s: State, i: nat, a: Action)
    requires Originates(s, i, a) && Entering(a)
    ensures RegField(NextServer(s, i, a), NextProc(s, i, a))
  {
    hide LocalInv;
  }

  lemma RegFieldObtaining(s: State, i: nat, a: Action)
    requires Originates(s, i, a) && Obtaining(a)
    ensures RegField(NextServer(s, i, a), NextProc(s, i, a))
  {
    hide LocalInv;
  }

  lemma RegFieldLeaving(s: State, i: nat, a: Action)
    requires Originates(s, i, a) && !Entering(a) && !Obtaining(a)
    ensures RegField(NextServer(s, i, a), NextProc(s, i, a))
  {
    hide LocalInv;
  }

  lemma RegOriginStep(s: State, i: nat, a: Action)
    requires Originates(s, i, a)
    ensures RegOrigin(NextServer(s, i, a), NextProc(s, i, a).pc)
  {
    hide *;
    if Entering(a) {
      RegOriginEntering(s, i, a);
    } else if Obtaining(a) {
      RegOriginObtaining(s, i, a);
    } else {
      RegOriginLeaving(s, i, a);
    }
  }

  lemma RegOriginEntering(s: State, i: nat, a: Action)
    requires Originates(s, i, a) && Entering(a)
    ensures RegOrigin(NextServer(s, i, a), NextProc(s, i, a).pc)
  {
    hide LocalInv;
  }

  lemma RegOriginObtaining(s: State, i: nat, a: Action)
    requires Originates(s, i, a) && Obtaining(a)
    ensures RegOrigin(NextServer(s, i, a), NextProc(s, i, a).pc)
  {
    hide LocalInv;
  }

  lemma RegOriginLeaving(s: State, i: nat, a: Action)
    requires Originates(s, i, a) && !Entering(a) && !Obtaining(a)
    ensures RegOrigin(NextServer(s, i, a), NextProc(s, i, a).pc)
  {
    hide LocalInv;
  }

  lemma TokenOriginStep(s: State, i: nat, a: Action)
    requires Originates(s, i, a)
    ensures TokenOrigin(NextServer(s, i, a), NextProc(s, i, a))
  {
    hide *;
    if Entering(a) {
      TokenOriginEntering(s, i, a);
    } else if Obtaining(a) {
      TokenOriginObtaining(s, i, a);
    } else {
      TokenOriginLeaving(s, i, a);
    }
  }

  lemma TokenOriginEntering(s: State, i: nat, a: Action)
    requires Originates(s, i, a) && Entering(a)
    ensures TokenOrigin(NextServer(s, i, a), NextProc(s, i, a))
  {
  }

  lemma TokenOriginObtaining(s: State, i: nat, a: Action)
    requires Originates(s, i, a) && Obtaining(a)
    ensures TokenOrigin(NextServer(s, i, a), NextProc(s, i, a))
  {
  }

  lemma TokenOriginLeaving(s: State, i: nat, a: Action)
    requires Originates(s, i, a) && !Entering(a) && !Obtaining(a)
    ensures TokenOrigin(NextServer(s, i, a), NextProc(s, i, a))
  {
  }

  lemma AnswerStep(s: State, i: nat, a: Action)
    requires Originates(s, i, a)
    ensures AnswerOrigin(NextServer(s, i, a), NextProc(s, i, a))
  {
    hide *;
    if Entering(a) {
      AnswerEntering(s, i, a);
    } else if Obtaining(a) {
      AnswerObtaining(s, i, a);
    } else {
      AnswerLeaving(s, i, a);
    }
  }

  lemma AnswerEntering(s: State, i: nat, a: Action)
    requires Originates(s, i, a) && Entering(a)
    ensures AnswerOrigin(NextServer(s, i, a), NextProc(s, i, a))
  {
    hide LocalInv;
    ServerGrows(s, i, a);
  }

  lemma AnswerObtaining(s: State, i: nat, a: Action)
    requires Originates(s, i, a) && Obtaining(a)
    ensures AnswerOrigin(NextServer(s, i, a), NextProc(s, i, a))
  {
    hide LocalInv;
    ServerGrows(s, i, a);
  }

  lemma AnswerLeaving(s: State, i: nat, a: Action)
    requires Originates(s, i, a) && !Entering(a) && !Obtaining(a)
    ensures AnswerOrigin(NextServer(s, i, a), NextProc(s, i, a))
  {
    hide LocalInv;
    ServerGrows(s, i, a);
  }

  lemma OriginStep(s: State, i: nat, a: Action)
    requires OriginInv(s) && i < |s.procs| && Enabled(s, i, a) && LocalInv(s.procs[i])
    ensures OriginInv(Apply(s, i, a))
  {
    var n := Apply(s, i, a);
    assert HeldOrigin(s.srv, s.procs[i]);
    ServerGrows(s, i, a);
    RecordOrigin(s, i, a);
    FieldOriginStep(s, i, a);
    RegOriginStep(s, i, a);
    TokenOriginStep(s, i, a);
    AnswerStep(s, i, a);
    SaveEffect(s, i, a);
    forall j | 0 <= j < |n.procs|
      ensures HeldOrigin(n.srv, n.procs[j])
    {
      if j != i {
        OriginGrows(s.srv, n.srv, s.procs[j]);
      }
    }
  }

  // ----- single flight -----

  ghost predicate FindsUseless(s: State, i: nat, a: Action) {
    && Moves(s, i, a)
    && var p := s.procs[i];
       p.op.TokenOp? && Exchanging(p.pc) ==> Useless(s.store, p.key, s.now, p.op.rejected)
  }

  ghost predicate StaysUseless(s: State, i: nat, a: Action)
    requires Moves(s, i, a)
  {
    var q := NextProc(s, i, a);
    q.op.TokenOp? && Exchanging(q.pc) ==> HoldsTok(q) && Useless(NextStore(s, i, a), q.key, s.now, q.op.rejected)
  }

  lemma ExchangingStep(s: State, i: nat, a: Action)
    requires FindsUseless(s, i, a)
    ensures StaysUseless(s, i, a)
  {
    hide *;
    if Entering(a) {
      ExchangingEntering(s, i, a);
    } else if Obtaining(a) {
      ExchangingObtaining(s, i, a);
    } else {
      ExchangingLeaving(s, i, a);
    }
  }

  lemma ExchangingEntering(s: State, i: nat, a: Action)
    requires FindsUseless(s, i, a) && Entering(a)
    ensures StaysUseless(s, i, a)
  {
  }

  lemma ExchangingObtaining(s: State, i: nat, a: Action)
    requires FindsUseless(s, i, a) && Obtaining(a)
    ensures StaysUseless(s, i, a)
  {
  }

  lemma ExchangingLeaving(s: State, i: nat, a: Action)
    requires FindsUseless(s, i, a) && !Entering(a) && !Obtaining(a)
    ensures StaysUseless(s, i, a)
  {
  }

  lemma FlightStep(s: State, i: nat, a: Action)
    requires LockInv(s) && FlightInv(s) && i < |s.procs| && Enabled(s, i, a) && LocalInv(s.procs[i])
    ensures FlightInv(Apply(s, i, a))
  {
    var n := Apply(s, i, a);
    ExchangingStep(s, i, a);
    SaveEffect(s, i, a);
    forall j | 0 <= j < |n.procs| && n.procs[j].op.TokenOp? && Exchanging(n.procs[j].pc)
      ensures Useless(n.store, n.procs[j].key, n.now, n.procs[j].op.rejected)
    {
      if j != i {
        assert HoldsTok(s.procs[j]);
        assert Useless(s.store, s.procs[j].key, s.now, s.procs[j].op.rejected);
      }
    }
  }

  // ----- dropping a registration -----

  /** Only the holder of its lock saves a record; anyone who gets there may delete one. */
  lemma RegsEffect(s: State, i: nat, a: Action)
    requires i < |s.procs| && Enabled(s, i, a)
    ensures var p, regs := s.procs[i], NextRegs(s, i, a);
      if a.SaveReg? && !a.fail then p.pc.RegSaving? && regs == s.regs[p.cfg.redirect := Good(p.pc.minted)]
      else regs == s.regs || (regs == s.regs - {p.cfg.redirect} && (p.pc.DropRecord? || p.pc.ForgetRecord? || p.pc.ForgetCorrupt?))
  {
  }

  lemma DropReached(s: State, i: nat, a: Action)
    requires i < |s.procs| && Enabled(s, i, a)
    ensures var q := NextProc(s, i, a);
      q.pc.DropRecord? ==> NextRegs(s, i, a) == s.regs && StoredAs(s.regs, q.cfg.redirect, q.pc.gone.client)
  {
  }

  lemma DropStep(s: State, i: nat, a: Action)
    requires LockInv(s) && DropInv(s) && i < |s.procs| && Enabled(s, i, a)
    ensures DropInv(Apply(s, i, a))
  {
    var n := Apply(s, i, a);
    RegsEffect(s, i, a);
    DropReached(s, i, a);
    forall j | 0 <= j < |n.procs| && n.procs[j].pc.DropRecord?
      ensures n.procs[j].cfg.redirect !in n.regs || StoredAs(n.regs, n.procs[j].cfg.redirect, n.procs[j].pc.gone.client)
    {
      if j != i {
        assert HoldsReg(s.procs[j]);
        assert s.procs[i].pc.RegSaving? ==> HoldsReg(s.procs[i]);
      }
    }
  }

  lemma StepKeepsInv(s: State, i: nat, a: Action)
    requires Inv(s) && i < |s.procs| && Enabled(s, i, a)
    ensures Inv(Apply(s, i, a))
  {
    LocalStep(s, i, a);
    LockStep(s, i, a);
    RotationStep(s, i, a);
    OriginStep(s, i, a);
    FlightStep(s, i, a);
    DropStep(s, i, a);
  }

  lemma TickKeepsInv(s: State, seconds: nat)
    requires Inv(s)
    ensures Inv(s.(now := s.now + seconds))
  {
  }

  lemma DisownKeepsInv(s: State, srv: AuthServer)
    requires Inv(s) && srv == s.srv.(known := srv.known)
    ensures Inv(s.(srv := srv))
  {
    forall i | 0 <= i < |s.procs|
      ensures HeldLive(srv, s.procs[i]) && HeldOrigin(srv, s.procs[i])
    {
      assert HeldLive(s.srv, s.procs[i]);
      OriginGrows(s.srv, srv, s.procs[i]);
    }
  }

  lemma RevokeKeepsInv(s: State, c: string)
    requires Inv(s) && c in s.srv.current
    ensures Inv(Next(s, Revoke(c)))
  {
    var srv := Next(s, Revoke(c)).srv;
    assert forall k, rt :: Live(s.srv, k, rt) ==> Live(srv, k, rt);
    forall i | 0 <= i < |s.procs|
      ensures HeldLive(srv, s.procs[i]) && HeldOrigin(srv, s.procs[i])
    {
      assert HeldLive(s.srv, s.procs[i]);
      OriginGrows(s.srv, srv, s.procs[i]);
    }
    forall k | k in s.store && !Live(srv, k, s.store[k].refresh)
      ensures k in s.tokLock && s.tokLock[k] < |s.procs| && MidSave(s.procs[s.tokLock[k]].pc)
    {
      assert !Live(s.srv, k, s.store[k].refresh);
    }
  }

  lemma EventKeepsInv(s: State, e: Event)
    requires Inv(s) && Possible(s, e)
    ensures Inv(Next(s, e))
  {
    match e
    case Do(i, a) => StepKeepsInv(s, i, a);
    case Tick(seconds) => TickKeepsInv(s, seconds);
    case Disown(_) => DisownKeepsInv(s, Next(s, e).srv);
    case Revoke(c) => RevokeKeepsInv(s, c);
  }

  /** The invariant holds after every run, however the processes interleave. */
  lemma {:induction false} RunKeepsInv(s: State, run: seq<Event>)
    requires Inv(s) && Legal(s, run)
    ensures Inv(After(s, run))
    decreases |run|
  {
    if run != [] {
      EventKeepsInv(s, run[0]);
      RunKeepsInv(Next(s, run[0]), run[1..]);
    }
  }
}
