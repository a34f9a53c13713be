/**
  The promises of the token flow, over every run of any number of processes.
*/
module OAuthTheorems {
  import opened Wrappers
  import opened TokenStore
  import opened OAuthProtocol
  import opened OAuthInvariant

  /** No process has started; what the stores hold was left there by earlier runs. */
  ghost predicate Initial(s: State) {
    && s.tokLock == map[] && s.regLock == map[]
    && (forall i :: 0 <= i < |s.procs| ==> Unstarted(s.procs[i]))
    && (forall c :: c in s.store ==> Live(s.srv, c, s.store[c].refresh))
    && (forall c :: c in s.store ==> Issued(s.srv, s.store[c].access) && s.store[c].client == c)
    && (forall r :: r in s.regs && s.regs[r].Good? ==> Registered(s.srv, s.regs[r].reg))
    && "" !in s.srv.accessIssued
    && "-" !in s.srv.accessIssued
  }

  ghost predicate Unstarted(p: Proc) {
    p.pc == Idle(Failed) && p.op == ForgetOp && p.round == 0 && p.logins == 0 && Left(p)
  }

  lemma InitialInv(s: State)
    requires Initial(s)
    ensures Inv(s)
  {
  }

  /** `s` is a state some interleaving leads to. */
  ghost predicate Reaches(s0: State, run: seq<Event>, s: State) {
    Initial(s0) && Legal(s0, run) && After(s0, run) == s
  }

  lemma Reached(s0: State, run: seq<Event>, s: State)
    requires Reaches(s0, run, s)
    ensures Inv(s)
  {
    InitialInv(s0);
    RunKeepsInv(s0, run);
  }

  // ----- rotation safety -----

  /**
    Whenever the lock of a token is free, its refresh token is absent, the one
    the server expects next, or one the server withdrew itself: rotation never
    strands the store.
  */
  lemma RotationSafety(s0: State, run: seq<Event>, s: State, c: string)
    requires Reaches(s0, run, s) && c in s.store && c !in s.tokLock
    ensures
      || s.store[c].refresh == ""
      || (c in s.srv.current && s.srv.current[c] == s.store[c].refresh)
      || s.store[c].refresh in s.srv.revoked
  {
    Reached(s0, run, s);
  }

  /** A refresh is answered invalid_grant only for a token the server withdrew itself. */
  lemma InvalidGrantIsRevocation(s0: State, run: seq<Event>, s: State, i: nat)
    requires Reaches(s0, run, s) && Possible(s, Do(i, Exchange(InvalidGrant)))
    ensures s.procs[i].pc.spent.refresh in s.srv.revoked
  {
    Reached(s0, run, s);
    assert HeldLive(s.srv, s.procs[i]);
  }

  ghost predicate NoRevocation(run: seq<Event>) {
    forall k :: 0 <= k < |run| ==> !run[k].Revoke?
  }

  lemma {:induction false} RevokedIsTheServersDoing(s: State, run: seq<Event>)
    requires Legal(s, run) && NoRevocation(run)
    ensures After(s, run).srv.revoked == s.srv.revoked
    decreases |run|
  {
    if run != [] {
      var n := Next(s, run[0]);
      assert n.srv.revoked == s.srv.revoked;
      RevokedIsTheServersDoing(n, run[1..]);
    }
  }

  /** With a server that revokes nothing, no refresh of any interleaving is answered invalid_grant. */
  lemma NoInvalidGrant(s0: State, run: seq<Event>, s: State, i: nat)
    requires Reaches(s0, run, s) && s0.srv.revoked == {} && NoRevocation(run)
    ensures !Possible(s, Do(i, Exchange(InvalidGrant)))
  {
    RevokedIsTheServersDoing(s0, run);
    if Possible(s, Do(i, Exchange(InvalidGrant))) {
      InvalidGrantIsRevocation(s0, run, s, i);
    }
  }

  /** With such a server a free lock means: no refresh token, or exactly the one the server expects next. */
  lemma StoreHoldsCurrent(s0: State, run: seq<Event>, s: State, c: string)
    requires Reaches(s0, run, s) && s0.srv.revoked == {} && NoRevocation(run)
    requires c in s.store && c !in s.tokLock && s.store[c].refresh != ""
    ensures c in s.srv.current && s.srv.current[c] == s.store[c].refresh
  {
    RevokedIsTheServersDoing(s0, run);
    RotationSafety(s0, run, s, c);
  }

  /**
    Why a rotated token must be saved before anything else happens: between the
    server's answer and the save the stored refresh token is good for nothing,
    so a process that died there would strand it.
  */
  lemma RotationMustBeSaved(s: State, i: nat, g: Grant)
    requires Possible(s, Do(i, Exchange(Granted(g))))
    requires var p := s.procs[i];
      && p.key in s.store && s.store[p.key].refresh == p.pc.spent.refresh
      && p.pc.spent.refresh != "" && p.pc.spent.refresh !in s.srv.revoked
    ensures var p := s.procs[i]; var n := Apply(s, i, Exchange(Granted(g)));
      Live(n.srv, p.key, n.store[p.key].refresh) <==> g.refresh == "" || g.refresh == p.pc.spent.refresh
  {
  }

  // ----- single flight -----

  /** The steps that spend an exchange or a browser window. */
  ghost predicate Contacts(a: Action) { a.Exchange? || a.Browser? }

  /**
    Token turns to the server only when the token in the store at that moment
    is absent, not fresh, or the one the caller had refused.
  */
  lemma SingleFlight(s0: State, run: seq<Event>, s: State, i: nat, a: Action)
    requires Reaches(s0, run, s) && Possible(s, Do(i, a)) && Contacts(a) && s.procs[i].op.TokenOp?
    ensures var p := s.procs[i];
      !(Fresh(Lookup(s.store, p.key), s.now) && s.store[p.key].access != p.op.rejected)
  {
    Reached(s0, run, s);
  }

  // ----- origins -----

  /** Every stored token records the client whose key it is under; a refresh never loses the refresh token. */
  lemma StoreIdentity(s0: State, run: seq<Event>, s: State)
    requires Reaches(s0, run, s)
    ensures forall c :: c in s.store ==> s.store[c].client == c
    ensures forall i :: 0 <= i < |s.procs| && s.procs[i].pc.SavingRefresh? ==> s.procs[i].pc.refreshed.refresh != ""
  {
    Reached(s0, run, s);
    assert forall i :: 0 <= i < |s.procs| ==> HeldOrigin(s.srv, s.procs[i]);
  }

  /** Token presents a dynamic client only at the issuer that registered it. */
  lemma DynamicClientStaysHome(s0: State, run: seq<Event>, s: State, i: nat, a: Action)
    requires Reaches(s0, run, s) && Possible(s, Do(i, a)) && Contacts(a)
    requires s.procs[i].op.TokenOp? && s.procs[i].cfg.clientID == ""
    ensures var p := s.procs[i]; p.key in s.srv.issuerOf && s.srv.issuerOf[p.key] == p.cfg.issuer
  {
    Reached(s0, run, s);
    assert LocalInv(s.procs[i]) && HeldOrigin(s.srv, s.procs[i]);
  }

  /** Dropping a registration never deletes the one that replaced it. */
  lemma DropSparesReplacement(s0: State, run: seq<Event>, s: State, i: nat, fail: bool)
    requires Reaches(s0, run, s) && Possible(s, Do(i, DeleteRecord(fail))) && s.procs[i].pc.DropRecord?
    ensures var p := s.procs[i];
      p.cfg.redirect in s.regs ==> s.regs[p.cfg.redirect].Good? && s.regs[p.cfg.redirect].reg.client == p.pc.gone.client
  {
    Reached(s0, run, s);
  }

  // ----- one call -----

  /** A Token call runs at most two rounds, opens at most one browser, and never answers with the refused token. */
  lemma TokenCallBounds(s0: State, run: seq<Event>, s: State, i: nat)
    requires Reaches(s0, run, s) && i < |s.procs|
    ensures var p := s.procs[i];
      && p.round <= 2
      && p.logins <= 1
      && (p.op.TokenOp? && p.pc.Idle? && p.pc.last.Returned? ==> p.pc.last.token != "" && p.pc.last.token != p.op.rejected)
  {
    Reached(s0, run, s);
    assert LocalInv(s.procs[i]) && HeldOrigin(s.srv, s.procs[i]);
  }

  /** Process `i` lets go of its last login: its client is dropped or replaced, or it logs in anew, or restarts. */
  ghost predicate LosesLogin(s: State, e: Event, i: nat)
    requires Possible(s, e)
  {
    e.Do? && e.i == i &&
    match e.a
    case SaveLoggedIn | DeleteDropped(_) | ForgetDeleteRecord(_) | Crash => true
    case CheckClient(fail) => Replaced(s.procs[i], s.regs, fail)
    case _ => false
  }

  ghost predicate KeepsLogin(s: State, run: seq<Event>, i: nat)
    requires Legal(s, run)
    decreases |run|
  {
    run == [] || (!LosesLogin(s, run[0], i) && KeepsLogin(Next(s, run[0]), run[1..], i))
  }

  lemma LoginKept(s: State, e: Event, i: nat)
    requires Possible(s, e) && i < |s.procs| && !LosesLogin(s, e, i)
    ensures |Next(s, e).procs| == |s.procs| && Next(s, e).procs[i].lastLoggedIn == s.procs[i].lastLoggedIn
  {
  }

  lemma {:induction false} LoginRemembered(s: State, run: seq<Event>, i: nat)
    requires Legal(s, run) && i < |s.procs| && KeepsLogin(s, run, i)
    ensures i < |After(s, run).procs| && After(s, run).procs[i].lastLoggedIn == s.procs[i].lastLoggedIn
    decreases |run|
  {
    if run != [] {
      LoginKept(s, run[0], i);
      LoginRemembered(Next(s, run[0]), run[1..], i);
    }
  }

  /**
    From a login on, refusing its token never opens another browser in that
    process, whatever happens elsewhere, unless its client is dropped in
    between.
  */
  lemma LoginNotAnsweredWithLogin(s0: State, before: seq<Event>, s: State, after: seq<Event>, n: State, i: nat, login: Option<Token>)
    requires Reaches(s0, before, s) && Legal(s, after) && After(s, after) == n
    requires i < |s.procs| && s.procs[i].lastLoggedIn != "" && KeepsLogin(s, after, i)
    requires i < |n.procs| && n.procs[i].op.TokenOp? && n.procs[i].op.rejected == s.procs[i].lastLoggedIn
    ensures !Possible(n, Do(i, Browser(login)))
  {
    LoginRemembered(s, after, i);
    assert LocalInv(n.procs[i]) by {
      Reached(s0, before, s);
      RunKeepsInv(s, after);
    }
  }
}
