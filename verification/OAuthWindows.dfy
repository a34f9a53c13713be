/**
  One process and its browser windows: a second window is possible although
  no client was dropped in between, and when exactly it is.
*/
module OAuthWindows {
  import opened Wrappers
  import opened TokenStore
  import opened OAuthProtocol
  import opened OAuthInvariant
  import opened OAuthTheorems
  import opened OAuthCalls

  /** One more step at the end of a run. */
  lemma {:induction false} Extended(s: State, run: seq<Event>, e: Event)
    requires Legal(s, run) && Possible(After(s, run), e)
    ensures Legal(s, run + [e]) && After(s, run + [e]) == Next(After(s, run), e)
    decreases |run|
  {
    if run == [] {
      assert [e][1..] == [];
    } else {
      assert (run + [e])[1..] == run[1..] + [e];
      Extended(Next(s, run[0]), run[1..], e);
    }
  }

  /** Nothing but calls of Token: no crash, no login by hand, no logout, no client dropped. */
  ghost predicate OnlyCalls(run: seq<Event>) {
    forall k :: 0 <= k < |run| ==> run[k].Do? && Ordinary(run[k].a)
  }

  ghost predicate Ordinary(a: Action) {
    !a.Crash? && !a.BeginLogin? && !a.BeginForget? && !a.DeleteDropped?
  }

  lemma Then(s: State, run: seq<Event>, a: Action) returns (longer: seq<Event>)
    requires Legal(s, run) && Possible(After(s, run), Do(0, a))
    requires OnlyCalls(run) && Ordinary(a)
    ensures OnlyCalls(longer)
    ensures longer == run + [Do(0, a)] && Legal(s, longer) && After(s, longer) == Apply(After(s, run), 0, a)
  {
    longer := run + [Do(0, a)];
    Extended(s, run, Do(0, a));
  }

  const CONFIG := Config("app", "http://127.0.0.1/callback", "https://as")

  /** One process with a configured client_id; nothing is stored, nothing has been issued. */
  function Alone(): State {
    State(0, map[], map[], map[], map[], AuthServer(map[], {}, {}, map[], {CONFIG.clientID}, multiset{}, multiset{}),
      [Proc(CONFIG, Idle(Failed), ForgetOp, 0, "", None, None, "", "", 0)])
  }

  /** The process between two calls, its token lock free. */
  ghost predicate Resting(s: State) {
    |s.procs| == 1 && s.procs[0].pc.Idle? && s.procs[0].cfg == CONFIG && s.procs[0].reg.None? && s.tokLock == map[]
  }

  /** Where a call stands that has found no token to return, once discovery is done. */
  function Decided(s: State, rejected: string, stale: bool): Proc
    requires |s.procs| == 1
  {
    var p := s.procs[0].(op := TokenOp(rejected, stale), round := 1, logins := 0, key := CONFIG.clientID,
                         pc := Loaded(Lookup(s.store, CONFIG.clientID)));
    AfterDecide(p, true)
  }

  /** A call that gets as far as deciding between a refresh and a login. */
  lemma CallDecides(s0: State, run: seq<Event>, s: State, rejected: string, stale: bool) returns (longer: seq<Event>)
    requires Legal(s0, run) && OnlyCalls(run) && After(s0, run) == s
    requires Resting(s) && Enabled(s, 0, BeginToken(rejected, stale))
    requires var p := s.procs[0]; var stored := Lookup(s.store, CONFIG.clientID);
      && (rejected == "" ==> !Fresh(p.cached, s.now))
      && (Fresh(stored, s.now) ==> stored.value.access == rejected)
      && (SelfIssued(p, rejected) ==> stale)
    ensures Legal(s0, longer) && OnlyCalls(longer)
    ensures After(s0, longer) == s.(procs := [Decided(s, rejected, stale)], tokLock := map[CONFIG.clientID := 0])
  {
    longer := CallLocks(s0, run, s, rejected, stale);
    longer := Then(s0, longer, CheckClient(false));
    longer := Then(s0, longer, LoadTok(false));
    longer := Then(s0, longer, Decide(true));
  }

  lemma CallLocks(s0: State, run: seq<Event>, s: State, rejected: string, stale: bool) returns (longer: seq<Event>)
    requires Legal(s0, run) && OnlyCalls(run) && After(s0, run) == s
    requires Resting(s) && Enabled(s, 0, BeginToken(rejected, stale))
    requires rejected == "" ==> !Fresh(s.procs[0].cached, s.now) && !Fresh(Lookup(s.store, CONFIG.clientID), s.now)
    ensures Legal(s0, longer) && OnlyCalls(longer)
    ensures var p := s.procs[0].(op := TokenOp(rejected, stale), round := 1, logins := 0, key := CONFIG.clientID, pc := Checking);
      After(s0, longer) == s.(procs := [p], tokLock := map[CONFIG.clientID := 0])
  {
    longer := Then(s0, run, BeginToken(rejected, stale));
    longer := Then(s0, longer, Resolve(false, true));
    longer := Then(s0, longer, Proceed(false));
    longer := Then(s0, longer, LockTok);
  }

  const FIRST := Token("a1", "r1", None, "https://as", "app", [])
  const GRANT := Grant("a2", "r2", 0, None)
  const THIRD := Token("a3", "", None, "https://as", "app", [])

  /** The browser is opened, and the token it brings is saved. */
  lemma LoginEnds(s0: State, run: seq<Event>, s: State) returns (longer: seq<Event>)
    requires Legal(s0, run) && OnlyCalls(run) && After(s0, run) == s
    requires s == Alone().(procs := s.procs, tokLock := map[CONFIG.clientID := 0]) && |s.procs| == 1
    requires s.procs[0].pc.LoggingIn? && s.procs[0].cfg == CONFIG && s.procs[0].reg.None?
    requires s.procs[0].key == CONFIG.clientID && s.procs[0].lastRefreshed == ""
    ensures Legal(s0, longer) && OnlyCalls(longer)
    ensures var n, p := After(s0, longer), After(s0, longer).procs;
      && Resting(n) && n.store == map[CONFIG.clientID := FIRST] && "a1" in n.srv.accessIssued
      && n.srv.accessIssued == {"a1"} && n.srv.current == map[CONFIG.clientID := "r1"]
      && CONFIG.clientID in n.srv.known && n.now == 0 && p[0].lastLoggedIn == "a1" && p[0].lastRefreshed == ""
  {
    hide Legal, After, OnlyCalls;
    longer := Then(s0, run, Browser(Some(FIRST)));
    longer := LoginSaved(s0, longer, After(s0, longer));
  }

  lemma LoginSaved(s0: State, run: seq<Event>, s: State) returns (longer: seq<Event>)
    requires Legal(s0, run) && OnlyCalls(run) && After(s0, run) == s
    requires |s.procs| == 1 && s.procs[0].cfg == CONFIG && s.procs[0].reg.None?
    requires s.procs[0].pc == SavingLogin(FIRST) && s.procs[0].key == CONFIG.clientID && s.procs[0].lastRefreshed == ""
    requires s.store == map[] && s.tokLock == map[CONFIG.clientID := 0] && s.now == 0
    requires CONFIG.clientID in s.srv.known && s.srv.accessIssued == {"a1"} && s.srv.current == map[CONFIG.clientID := "r1"]
    ensures Legal(s0, longer) && OnlyCalls(longer)
    ensures var n, p := After(s0, longer), After(s0, longer).procs;
      && Resting(n) && n.store == map[CONFIG.clientID := FIRST]
      && n.srv.accessIssued == {"a1"} && n.srv.current == map[CONFIG.clientID := "r1"]
      && CONFIG.clientID in n.srv.known && n.now == 0 && p[0].lastLoggedIn == "a1" && p[0].lastRefreshed == ""
  {
    hide Legal, After, OnlyCalls;
    longer := Then(s0, run, SaveLoggedIn);
    longer := Then(s0, longer, UnlockTok);
  }

  /** The server calls the token expired, and it is refreshed. */
  lemma RefreshEnds(s0: State, run: seq<Event>, s: State) returns (longer: seq<Event>)
    requires Legal(s0, run) && OnlyCalls(run) && After(s0, run) == s
    requires |s.procs| == 1 && s.procs[0].pc == Refreshing(FIRST) && s.procs[0].cfg == CONFIG && s.procs[0].reg.None?
    requires s.procs[0].key == CONFIG.clientID && s.procs[0].lastLoggedIn == "a1"
    requires s.tokLock == map[CONFIG.clientID := 0]
    requires CONFIG.clientID in s.srv.known && s.srv.accessIssued == {"a1"} && s.srv.current == map[CONFIG.clientID := "r1"]
    ensures Legal(s0, longer) && OnlyCalls(longer)
    ensures var n, p := After(s0, longer), After(s0, longer).procs;
      && Resting(n) && CONFIG.clientID in n.store && n.store[CONFIG.clientID].access == "a2" && n.srv.accessIssued == {"a1", "a2"}
      && p[0].lastLoggedIn == "a1" && p[0].lastRefreshed == "a2"
  {
    hide Legal, After, OnlyCalls;
    longer := Then(s0, run, Exchange(Granted(GRANT)));
    longer := RefreshSaved(s0, longer, After(s0, longer));
  }

  lemma RefreshSaved(s0: State, run: seq<Event>, s: State) returns (longer: seq<Event>)
    requires Legal(s0, run) && OnlyCalls(run) && After(s0, run) == s
    requires |s.procs| == 1 && s.procs[0].cfg == CONFIG && s.procs[0].reg.None?
    requires s.procs[0].pc.SavingRefresh? && s.procs[0].pc.refreshed.access == "a2"
    requires s.procs[0].key == CONFIG.clientID && s.procs[0].lastLoggedIn == "a1"
    requires s.tokLock == map[CONFIG.clientID := 0] && s.srv.accessIssued == {"a1", "a2"}
    ensures Legal(s0, longer) && OnlyCalls(longer)
    ensures var n, p := After(s0, longer), After(s0, longer).procs;
      && Resting(n) && CONFIG.clientID in n.store && n.store[CONFIG.clientID].access == "a2" && n.srv.accessIssued == {"a1", "a2"}
      && p[0].lastLoggedIn == "a1" && p[0].lastRefreshed == "a2"
  {
    hide Legal, After, OnlyCalls;
    longer := Then(s0, run, SaveRefreshed);
    longer := Then(s0, longer, UnlockTok);
  }

  /**
    A login that also brought a refresh token, a refresh, and two challenges
    that say "expired": the same process, its client never dropped, is about to
    open a second browser window.
  */
  lemma SecondWindowIsPossible() returns (run: seq<Event>)
    ensures Initial(Alone()) && Legal(Alone(), run) && OnlyCalls(run)
    ensures var s := After(Alone(), run);
      |s.procs| == 1 && s.procs[0].lastLoggedIn == "a1" && Possible(s, Do(0, Browser(Some(THIRD))))
  {
    hide Legal, After, OnlyCalls, Decided, Initial;
    var s := Alone();
    AloneIsInitial();
    run := ThenRefreshed();
    var before := After(s, run);
    run := CallDecides(s, run, before, "a2", true);
    LoginIsNext(before);
  }

  lemma AloneIsInitial()
    ensures Initial(Alone())
  {
  }

  /** Both its last login's and its last refresh's token are this process's own, and only the refreshed one is refused. */
  lemma LoginIsNext(s: State)
    requires Resting(s) && CONFIG.clientID in s.store && s.store[CONFIG.clientID].access == "a2"
    requires s.srv.accessIssued == {"a1", "a2"} && s.procs[0].lastLoggedIn == "a1" && s.procs[0].lastRefreshed == "a2"
    ensures var n := s.(procs := [Decided(s, "a2", true)], tokLock := map[CONFIG.clientID := 0]);
      n.procs[0].lastLoggedIn == "a1" && Possible(n, Do(0, Browser(Some(THIRD))))
  {
  }

  lemma ThenRefreshed() returns (run: seq<Event>)
    ensures Legal(Alone(), run) && OnlyCalls(run)
    ensures var n, p := After(Alone(), run), After(Alone(), run).procs;
      && Resting(n) && CONFIG.clientID in n.store && n.store[CONFIG.clientID].access == "a2" && n.srv.accessIssued == {"a1", "a2"}
      && p[0].lastLoggedIn == "a1" && p[0].lastRefreshed == "a2"
  {
    hide Legal, After, OnlyCalls;
    var s := Alone();
    run := FirstWindow();
    run := CallDecides(s, run, After(s, run), "a1", true);
    run := RefreshEnds(s, run, After(s, run));
  }

  lemma NothingDone()
    ensures Legal(Alone(), []) && OnlyCalls([]) && After(Alone(), []) == Alone()
  {
  }

  lemma FirstWindow() returns (run: seq<Event>)
    ensures Legal(Alone(), run) && OnlyCalls(run)
    ensures var n, p := After(Alone(), run), After(Alone(), run).procs;
      && Resting(n) && n.store == map[CONFIG.clientID := FIRST] && CONFIG.clientID in n.srv.known
      && n.srv.accessIssued == {"a1"} && n.srv.current == map[CONFIG.clientID := "r1"]
      && p[0].lastLoggedIn == "a1" && p[0].lastRefreshed == ""
  {
    hide Legal, After, OnlyCalls;
    NothingDone();
    run := CallDecides(Alone(), [], Alone(), "", false);
    run := LoginEnds(Alone(), run, After(Alone(), run));
  }

  // ----- exactly when -----

  /** The client of a process is the one on file, registered where its tokens are asked for; or it is configured. */
  ghost predicate Stands(p: Proc, regs: map<string, Record>) {
    || p.cfg.clientID != ""
    || (p.cfg.redirect in regs && regs[p.cfg.redirect].Good? && regs[p.cfg.redirect].reg.issuer == p.cfg.issuer
        && (p.reg.Some? ==> p.reg.value == regs[p.cfg.redirect].reg))
  }

  ghost function StandingClient(p: Proc, regs: map<string, Record>): string
    requires Stands(p, regs)
  {
    if p.cfg.clientID != "" then p.cfg.clientID else regs[p.cfg.redirect].reg.client
  }

  // What a call of Token may ask of the server, from its decisions on, and how it then ends.

  /** One login, unless it is withheld. */
  ghost predicate LogsIn(c: seq<Action>, z: Ending, store: map<string, Token>, key: string, withheld: bool) {
    if withheld then c == [] && z == Ending(Failed, store)
    else
      && |c| == 1 && c[0].Browser?
      && z == match c[0].login
              case None => Ending(Failed, store)
              case Some(t) => Ending(Returned(t.access), store[key := t])
  }

  /** Another client is registered, and the login is its own. */
  ghost predicate RegistersAnew(c: seq<Action>, z: Ending, store: map<string, Token>) {
    && c != [] && c[0].Register?
    && match c[0].minted
       case None => c[1..] == [] && z == Ending(Failed, store)
       case Some(client) => LogsIn(c[1..], z, store, client, false)
  }

  /** One refresh with the stored token; what follows depends on its answer, and on whether the call has a round left. */
  ghost predicate RefreshesFirst(
    c: seq<Action>, z: Ending, cfg: Config, key: string, stored: Token, store: map<string, Token>, now: int,
    withheld: bool, lastRound: bool)
  {
    && c != [] && c[0].Exchange?
    && match c[0].reply
       case Granted(g) =>
         && c[1..] == [] && z.out == Returned(g.access)
         && z.store == store[key := Token(
                                      g.access,
                                      if g.refresh == "" then stored.refresh else g.refresh,
                                      if g.expiresIn <= 0 then None else Some(now + g.expiresIn),
                                      cfg.issuer,
                                      key,
                                      if g.scope.None? then stored.scopes else g.scope.value)]
       case InvalidGrant => LogsIn(c[1..], z, store - {key}, key, withheld)
       case InvalidClient =>
         if cfg.clientID != "" then c[1..] == [] && z == Ending(Failed, store)
         else if lastRound then c[1..] == [] && z == Ending(ClientGone, store - {key})
         else RegistersAnew(c[1..], z, store - {key})
       case OtherError => c[1..] == [] && z == Ending(Failed, store)
  }

  /**
    A call of Token with a standing client, everything working.  A fresh token
    that was not refused is returned at once; a token of this process's own
    making that is refused, and not as expired, is not replaced; a stored
    refresh token is spent, unless it is its own last product that was refused;
    and only then comes the login, unless its own last product was refused.
  */
  lemma CallGoes(
    s0: State, before: seq<Event>, s: State, run: seq<Event>, i: nat, rejected: string, stale: bool, ans: Answers)
    requires Reaches(s0, before, s) && Call(s, run, i, rejected, stale, ans) && Stands(s.procs[i], s.regs)
    ensures var p := s.procs[i]; var key := StandingClient(p, s.regs); var stored := Lookup(s.store, key);
      var c, z := Requests(run), End(After(s, run), i);
      if rejected == "" && Fresh(p.cached, s.now) then c == [] && z == Ending(Returned(p.cached.value.access), s.store)
      else if Fresh(stored, s.now) && stored.value.access != rejected then
        c == [] && z == Ending(Returned(stored.value.access), s.store)
      else if rejected != "" && (rejected == p.lastRefreshed || rejected == p.lastLoggedIn) && !stale then
        c == [] && z == Ending(Failed, s.store)
      else if stored.Some? && stored.value.refresh != "" && (rejected == "" || rejected != p.lastRefreshed) then
        RefreshesFirst(c, z, p.cfg, key, stored.value, s.store, s.now, rejected != "" && rejected == p.lastLoggedIn, false)
      else LogsIn(c, z, s.store, key, rejected != "" && rejected == p.lastLoggedIn)
  {
    Reached(s0, before, s);
    Configured(s, i);
    CallIsSettled(s, run, i, rejected, stale, ans);
    hide Inv, Call, Legal, After, Requests, Reaches, RefreshesFirst, LogsIn, FromResolving;
    SettledByClient(Seen(s), Begun(s.procs[i], rejected, stale), Requests(run), End(After(s, run), i));
  }

  lemma Configured(s: State, i: nat)
    requires Inv(s) && i < |s.procs|
    ensures s.procs[i].cfg.clientID != "" ==> s.procs[i].reg.None?
  {
    assert LocalInv(s.procs[i]);
  }

  lemma RefreshIs(f: Files, p: Proc, spent: Token, c: seq<Action>, z: Ending)
    requires p.op.TokenOp? && p.key == ClientID(p) && (p.cfg.clientID == "" <==> p.reg.Some?) && FromRefreshing(f, p, spent, c, z)
    ensures RefreshesFirst(c, z, p.cfg, p.key, spent, f.store, f.now, !NotLastLogin(p, p.op.rejected), p.round != 1)
  {
  }

  lemma SettledByClient(f: Files, p: Proc, c: seq<Action>, z: Ending)
    requires p.op.TokenOp? && p.round == 1 && Stands(p, f.regs) && (p.cfg.clientID != "" ==> p.reg.None?)
    requires FromResolving(f, p, c, z)
    ensures var key := StandingClient(p, f.regs); var stored := Lookup(f.store, key); var rejected := p.op.rejected;
      if rejected == "" && Fresh(p.cached, f.now) then c == [] && z == Ending(Returned(p.cached.value.access), f.store)
      else if Fresh(stored, f.now) && stored.value.access != rejected then
        c == [] && z == Ending(Returned(stored.value.access), f.store)
      else if rejected != "" && (rejected == p.lastRefreshed || rejected == p.lastLoggedIn) && !p.op.stale then
        c == [] && z == Ending(Failed, f.store)
      else if stored.Some? && stored.value.refresh != "" && (rejected == "" || rejected != p.lastRefreshed) then
        RefreshesFirst(c, z, p.cfg, key, stored.value, f.store, f.now, rejected != "" && rejected == p.lastLoggedIn, false)
      else LogsIn(c, z, f.store, key, rejected != "" && rejected == p.lastLoggedIn)
  {
    hide FromRefreshing, RefreshesFirst, FromDropping, FromRegistering;
    var q := if p.cfg.clientID != "" || p.reg.Some? then p.(key := ClientID(p))
             else var reg := f.regs[p.cfg.redirect].reg; p.(reg := Some(reg), key := reg.client);
    assert FromKeyed(f, q, c, z);
    assert FromChecking(f, q, c, z) <==> FromLoading(f, q, c, z);
    assert !Foreign(q);
    var stored := Lookup(f.store, q.key);
    if stored.Some? && FromRefreshing(f, q, stored.value, c, z) {
      RefreshIs(f, q, stored.value, c, z);
    }
  }

  /**
    A call with a dynamic client that is no longer the one on file, which it
    finds out once there is no token to return at once: the client is left
    behind with all that came from it, and in its second round the call goes by
    the record, or registers anew when there is none.  A client of another
    issuer is dropped, and there is no third round.
  */
  lemma ReplacedGoes(
    s0: State, before: seq<Event>, s: State, run: seq<Event>, i: nat, rejected: string, stale: bool, ans: Answers)
    requires Reaches(s0, before, s) && Call(s, run, i, rejected, stale, ans)
    requires var p := s.procs[i];
      && p.cfg.clientID == "" && p.reg.Some? && !StoredAs(s.regs, p.cfg.redirect, p.reg.value.client)
      && (rejected == "" ==> !Fresh(p.cached, s.now) && !Fresh(Lookup(s.store, p.reg.value.client), s.now))
    ensures var p := s.procs[i]; var c, z := Requests(run), End(After(s, run), i);
      if p.cfg.redirect !in s.regs then RegistersAnew(c, z, s.store)
      else
        match s.regs[p.cfg.redirect]
        case Corrupt => c == [] && z == Ending(Failed, s.store)
        case Good(reg) =>
          var stored := Lookup(s.store, reg.client);
          if Fresh(stored, s.now) && stored.value.access != rejected then c == [] && z == Ending(Returned(stored.value.access), s.store)
          else if reg.issuer != p.cfg.issuer then c == [] && z == Ending(ClientGone, s.store - {reg.client})
          else if stored.Some? && stored.value.refresh != "" then
            RefreshesFirst(c, z, p.cfg, reg.client, stored.value, s.store, s.now, false, true)
          else LogsIn(c, z, s.store, reg.client, false)
  {
    Reached(s0, before, s);
    CallIsSettled(s, run, i, rejected, stale, ans);
    hide Inv, Call, Legal, After, Requests, Reaches, FromResolving;
    SettledByRecord(Seen(s), Begun(s.procs[i], rejected, stale), Requests(run), End(After(s, run), i));
  }

  lemma SettledByRecord(f: Files, p: Proc, c: seq<Action>, z: Ending)
    requires p.op.TokenOp? && p.round == 1 && p.cfg.clientID == "" && p.reg.Some?
    requires !StoredAs(f.regs, p.cfg.redirect, p.reg.value.client) && FromResolving(f, p, c, z)
    requires p.op.rejected == "" ==> !Fresh(p.cached, f.now) && !Fresh(Lookup(f.store, p.reg.value.client), f.now)
    ensures var rejected := p.op.rejected;
      if p.cfg.redirect !in f.regs then RegistersAnew(c, z, f.store)
      else
        match f.regs[p.cfg.redirect]
        case Corrupt => c == [] && z == Ending(Failed, f.store)
        case Good(reg) =>
          var stored := Lookup(f.store, reg.client);
          if Fresh(stored, f.now) && stored.value.access != rejected then c == [] && z == Ending(Returned(stored.value.access), f.store)
          else if reg.issuer != p.cfg.issuer then c == [] && z == Ending(ClientGone, f.store - {reg.client})
          else if stored.Some? && stored.value.refresh != "" then
            RefreshesFirst(c, z, p.cfg, reg.client, stored.value, f.store, f.now, false, true)
          else LogsIn(c, z, f.store, reg.client, false)
  {
    var q := LeaveClient(p.(key := ClientID(p))).(round := 2);
    assert FromChecking(f, p.(key := ClientID(p)), c, z) && FromResolving(f, q, c, z);
    if p.cfg.redirect in f.regs && f.regs[p.cfg.redirect].Good? {
      var reg := f.regs[p.cfg.redirect].reg;
      var r := q.(reg := Some(reg), key := reg.client);
      assert FromKeyed(f, r, c, z);
      assert FromChecking(f, r, c, z) <==> FromLoading(f, r, c, z);
    }
  }

  /** A call whose dynamic client was registered at another issuer drops it, once nothing else is left, and registers anew. */
  lemma ForeignGoes(
    s0: State, before: seq<Event>, s: State, run: seq<Event>, i: nat, rejected: string, stale: bool, ans: Answers)
    requires Reaches(s0, before, s) && Call(s, run, i, rejected, stale, ans)
    requires var p := s.procs[i];
      && p.cfg.clientID == "" && p.reg.Some? && StoredAs(s.regs, p.cfg.redirect, p.reg.value.client)
      && p.reg.value.issuer != p.cfg.issuer
      && NothingUsable(p, Lookup(s.store, p.reg.value.client), s.now, rejected)
      && (rejected != "" && (rejected == p.lastRefreshed || rejected == p.lastLoggedIn) ==> stale)
    ensures RegistersAnew(Requests(run), End(After(s, run), i), s.store - {s.procs[i].reg.value.client})
  {
    Reached(s0, before, s);
    CallIsSettled(s, run, i, rejected, stale, ans);
    hide Inv, Call, Legal, After, Requests, Reaches, FromResolving;
    SettledByDropping(Seen(s), Begun(s.procs[i], rejected, stale), Requests(run), End(After(s, run), i));
  }

  lemma SettledByDropping(f: Files, p: Proc, c: seq<Action>, z: Ending)
    requires p.op.TokenOp? && p.round == 1 && p.cfg.clientID == "" && p.reg.Some? && Foreign(p)
    requires StoredAs(f.regs, p.cfg.redirect, p.reg.value.client) && FromResolving(f, p, c, z)
    requires NothingUsable(p, Lookup(f.store, p.reg.value.client), f.now, p.op.rejected)
    requires SelfIssued(p, p.op.rejected) ==> p.op.stale
    ensures RegistersAnew(c, z, f.store - {p.reg.value.client})
  {
    var q := p.(key := ClientID(p));
    assert FromChecking(f, q, c, z) <==> FromLoading(f, q, c, z);
    assert FromDropping(f, q, c, z);
  }

  /**
    So an expired token with a good refresh token costs one request and no
    window, whether or not the server was asked to accept it first.
  */
  lemma RefreshesSilently(
    s0: State, before: seq<Event>, s: State, run: seq<Event>, i: nat, rejected: string, stale: bool, ans: Answers)
    requires Reaches(s0, before, s) && Call(s, run, i, rejected, stale, ans) && Stands(s.procs[i], s.regs)
    requires ans.refresh.Grants?
    requires var p := s.procs[i]; var stored := Lookup(s.store, StandingClient(p, s.regs));
      && NothingUsable(p, stored, s.now, rejected)
      && (rejected != "" && rejected == p.lastLoggedIn ==> stale)
      && stored.Some? && stored.value.refresh != "" && (rejected == "" || rejected != p.lastRefreshed)
    ensures var c := Requests(run);
      && |c| == 1 && c[0].Exchange? && c[0].reply.Granted? && !Opens(run)
      && After(s, run).procs[i].pc == Idle(Returned(c[0].reply.g.access))
  {
    CallGoes(s0, before, s, run, i, rejected, stale, ans);
    OpensByRequest(run);
    var c := Requests(run);
    AnsweredAsSaid(s, run, i, rejected, stale, ans, c[0]);
  }

  /** No token to return at once: none in memory for a first request, none in the store but a refused one. */
  ghost predicate NothingUsable(p: Proc, stored: Option<Token>, now: int, rejected: string) {
    && (rejected == "" ==> !Fresh(p.cached, now))
    && (Fresh(stored, now) ==> stored.value.access == rejected)
  }

  ghost predicate NotLastLogin(p: Proc, rejected: string) { rejected == "" || rejected != p.lastLoggedIn }

  /**
    A call of Token with a standing client, everything working, opens the
    browser if and only if there is no usable token, the refused one is not
    a token of this process's own making that the server does not call
    expired, and either the last login's token was not refused and there is
    nothing to refresh or the refresh is answered invalid_grant; or it is
    answered invalid_client, and another client is registered.
  */
  lemma WindowOpensWhen(
    s0: State, before: seq<Event>, s: State, run: seq<Event>, i: nat, rejected: string, stale: bool, ans: Answers)
    requires Reaches(s0, before, s) && Call(s, run, i, rejected, stale, ans) && Stands(s.procs[i], s.regs)
    ensures var p := s.procs[i]; var stored := Lookup(s.store, StandingClient(p, s.regs));
      Opens(run) <==>
        && NothingUsable(p, stored, s.now, rejected)
        && !(rejected != "" && (rejected == p.lastRefreshed || rejected == p.lastLoggedIn) && !stale)
        && if stored.Some? && stored.value.refresh != "" && (rejected == "" || rejected != p.lastRefreshed) then
             || (ans.refresh.SaysInvalidGrant? && NotLastLogin(p, rejected))
             || (ans.refresh.SaysInvalidClient? && p.cfg.clientID == "" && ans.registers)
           else NotLastLogin(p, rejected)
  {
    CallGoes(s0, before, s, run, i, rejected, stale, ans);
    OpensByRequest(run);
    var c := Requests(run);
    forall a | a in c
      ensures a.Exchange? ==> VerdictOf(a.reply) == ans.refresh
      ensures a.Register? ==> a.minted.Some? == ans.registers
    {
      AnsweredAsSaid(s, run, i, rejected, stale, ans, a);
    }
    hide Reaches, Call, Requests, After, Legal, Opens;
    assert forall k :: 0 <= k < |c| ==> c[k] in c;
    assert c != [] ==> forall a :: a in c[1..] ==> a in c;
  }

  /**
    So for a process that has logged in: another call opens another window if
    and only if it is not that login's token that was refused, nor its own last
    refresh's unless that is called expired, nothing usable is at hand, and
    there is nothing to refresh or the refresh is answered invalid_grant.
  */
  lemma SecondWindowWhen(
    s0: State, before: seq<Event>, s: State, run: seq<Event>, i: nat, rejected: string, stale: bool, ans: Answers)
    requires Reaches(s0, before, s) && Call(s, run, i, rejected, stale, ans) && Stands(s.procs[i], s.regs)
    requires s.procs[i].lastLoggedIn != "" && (ans.refresh.SaysInvalidClient? ==> s.procs[i].cfg.clientID != "")
    ensures var p := s.procs[i]; var stored := Lookup(s.store, StandingClient(p, s.regs));
      Opens(run) <==>
        && rejected != p.lastLoggedIn
        && (rejected != "" && rejected == p.lastRefreshed ==> stale)
        && NothingUsable(p, stored, s.now, rejected)
        && (stored.Some? && stored.value.refresh != "" && (rejected == "" || rejected != p.lastRefreshed) ==>
              ans.refresh.SaysInvalidGrant?)
  {
    hide Reaches, Call, Opens;
    WindowOpensWhen(s0, before, s, run, i, rejected, stale, ans);
  }

  // ----- a process without a client -----

  /** Without a registration nothing is kept that one could have brought. */
  ghost predicate NothingKept(p: Proc) { p.cfg.clientID == "" && p.reg.None? ==> Left(p) }

  lemma KeptStep(s: State, i: nat, a: Action)
    requires i < |s.procs| && Enabled(s, i, a) && LocalInv(s.procs[i]) && NothingKept(s.procs[i])
    ensures NothingKept(NextProc(s, i, a))
  {
  }

  lemma {:induction false} KeptRun(s: State, run: seq<Event>, i: nat)
    requires Inv(s) && Legal(s, run) && i < |s.procs| && NothingKept(s.procs[i])
    ensures i < |After(s, run).procs| && NothingKept(After(s, run).procs[i])
    decreases |run|
  {
    hide Inv, NothingKept;
    if run != [] {
      var n := Next(s, run[0]);
      EventKeepsInv(s, run[0]);
      if run[0].Do? && run[0].i == i {
        Locals(s, i);
        KeptStep(s, i, run[0].a);
      } else {
        assert n.procs[i] == s.procs[i];
      }
      KeptRun(n, run[1..], i);
    }
  }

  /**
    With no client in memory and none on file a call asks the server for one,
    and then, whatever was refused, for a login.
  */
  lemma NewClientGoes(
    s0: State, before: seq<Event>, s: State, run: seq<Event>, i: nat, rejected: string, stale: bool, ans: Answers)
    requires Reaches(s0, before, s) && Call(s, run, i, rejected, stale, ans)
    requires var p := s.procs[i]; p.cfg.clientID == "" && p.reg.None? && p.cfg.redirect !in s.regs
    ensures RegistersAnew(Requests(run), End(After(s, run), i), s.store)
  {
    Reached(s0, before, s);
    KeptSinceStart(s0, before, s, i);
    CallIsSettled(s, run, i, rejected, stale, ans);
  }

  /** So it opens the browser if and only if the server registers one. */
  lemma NewClientOpensWhen(
    s0: State, before: seq<Event>, s: State, run: seq<Event>, i: nat, rejected: string, stale: bool, ans: Answers)
    requires Reaches(s0, before, s) && Call(s, run, i, rejected, stale, ans)
    requires var p := s.procs[i]; p.cfg.clientID == "" && p.reg.None? && p.cfg.redirect !in s.regs
    ensures Opens(run) <==> ans.registers
  {
    NewClientGoes(s0, before, s, run, i, rejected, stale, ans);
    OpensByRequest(run);
    AnsweredAsSaid(s, run, i, rejected, stale, ans, Requests(run)[0]);
  }

  lemma KeptSinceStart(s0: State, before: seq<Event>, s: State, i: nat)
    requires Reaches(s0, before, s) && i < |s.procs|
    ensures NothingKept(s.procs[i])
  {
    InitialInv(s0);
    SameProcs(s0, before);
    assert Unstarted(s0.procs[i]);
    KeptRun(s0, before, i);
  }

  lemma {:induction false} SameProcs(s: State, run: seq<Event>)
    requires Legal(s, run)
    ensures |After(s, run).procs| == |s.procs|
    decreases |run|
  {
    if run != [] {
      SameProcs(Next(s, run[0]), run[1..]);
    }
  }
}
