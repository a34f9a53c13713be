/**
  One call of Token, run by one process while no other moves and nothing
  fails: what decides, before it begins, whether it opens the browser.
*/
module OAuthCalls {
  import opened Wrappers
  import opened TokenStore
  import opened OAuthProtocol
  import opened OAuthInvariant
  import opened OAuthTheorems
  import opened OAuthSharing

  /** What the server says to a refresh, and whether it registers a client that asks. */
  datatype Verdict = Grants | SaysInvalidGrant | SaysInvalidClient | SaysOther
  datatype Answers = Answers(refresh: Verdict, registers: bool)

  function VerdictOf(reply: RefreshReply): Verdict {
    match reply
    case Granted(_) => Grants
    case InvalidGrant => SaysInvalidGrant
    case InvalidClient => SaysInvalidClient
    case OtherError => SaysOther
  }

  /** A step on the way of a call: files and discovery work, the server answers as said, nobody gives up. */
  ghost predicate Works(a: Action, ans: Answers) {
    match a
    case Resolve(fail, disc) => !fail && disc
    case Decide(disc) => disc
    case ReadReg(fail) => !fail
    case SaveReg(fail) => !fail
    case Proceed(fail) => !fail
    case CheckClient(fail) => !fail
    case LoadTok(fail) => !fail
    case DeleteStale(fail) => !fail
    case DeleteDropped(fail) => !fail
    case ReadDrop(fail) => !fail
    case DeleteRecord(fail) => !fail
    case Register(minted) => minted.Some? == ans.registers
    case Exchange(reply) => VerdictOf(reply) == ans.refresh
    case LockReg | UnlockReg | LockTok | UnlockTok | LockDrop | UnlockDrop
       | SaveRefreshed | Browser(_) | SaveLoggedIn => true
    case _ => false
  }

  /** What the decisions of a call look at, the process itself aside. */
  datatype Files = Files(store: map<string, Token>, regs: map<string, Record>, now: int)

  ghost function Seen(s: State): Files { Files(s.store, s.regs, s.now) }

  // ----- what a call says to the server, and how it ends -----

  /** Where a call leaves its caller, and the token store. */
  datatype Ending = Ending(out: Outcome, store: map<string, Token>)

  /** The requests to the authorization server among the steps of a process. */
  predicate Request(a: Action) { a.Exchange? || a.Browser? || a.Register? }

  function Requests(run: seq<Event>): seq<Action> {
    if run == [] then []
    else if run[0].Do? && Request(run[0].a) then [run[0].a] + Requests(run[1..])
    else Requests(run[1..])
  }

  ghost predicate Silent(c: seq<Action>, z: Ending, out: Outcome, f: Files) { c == [] && z == Ending(out, f.store) }

  /** The login is not held back: the refused token is not the last login's. */
  ghost predicate LoginFree(p: Proc)
    requires p.op.TokenOp?
  {
    p.op.rejected == "" || p.op.rejected != p.lastLoggedIn
  }

  ghost predicate Doomed(p: Proc)
    requires p.op.TokenOp?
  {
    SelfIssued(p, p.op.rejected) && !p.op.stale
  }

  // The members below say, point by point of a call, which contacts `c` and
  // which ending `z` may follow from there.

  ghost predicate FromLoggingIn(f: Files, p: Proc, c: seq<Action>, z: Ending) {
    && |c| == 1 && c[0].Browser?
    && match c[0].login
       case None => z == Ending(Failed, f.store)
       case Some(t) => z == Ending(Returned(t.access), f.store[p.key := t])
  }

  ghost predicate FromLogin(f: Files, p: Proc, c: seq<Action>, z: Ending)
    requires p.op.TokenOp?
  {
    if LoginFree(p) then FromLoggingIn(f, p, c, z) else Silent(c, z, Failed, f)
  }

  ghost function Without(f: Files, key: string): Files { f.(store := f.store - {key}) }

  /** With a client that was registered just now there is nothing in the store. */
  ghost predicate FromNew(f: Files, p: Proc, c: seq<Action>, z: Ending)
    requires p.op.TokenOp?
  {
    if p.op.rejected == "" && Fresh(p.cached, f.now) then Silent(c, z, Returned(p.cached.value.access), f)
    else if Doomed(p) then Silent(c, z, Failed, f)
    else FromLogin(f, p, c, z)
  }

  ghost predicate FromRegistering(f: Files, p: Proc, c: seq<Action>, z: Ending)
    requires p.op.TokenOp?
  {
    && c != [] && c[0].Register?
    && match c[0].minted
       case None => Silent(c[1..], z, Failed, f)
       case Some(client) => FromNew(f, p.(key := client), c[1..], z)
  }

  /** A dropped client: in the first round another one is registered. */
  ghost predicate FromDropped(f: Files, p: Proc, c: seq<Action>, z: Ending)
    requires p.op.TokenOp?
  {
    if p.round == 1 then FromRegistering(f, p.(round := 2), c, z) else Silent(c, z, ClientGone, f)
  }

  ghost predicate FromDropping(f: Files, p: Proc, c: seq<Action>, z: Ending)
    requires p.op.TokenOp?
  {
    FromDropped(Without(f, p.key), LeaveClient(p), c, z)
  }

  ghost predicate FromRefreshing(f: Files, p: Proc, spent: Token, c: seq<Action>, z: Ending)
    requires p.op.TokenOp?
  {
    && c != [] && c[0].Exchange?
    && match c[0].reply
       case Granted(g) =>
         c[1..] == [] && z == Ending(Returned(g.access), f.store[p.key := Refreshed(spent, g, p.cfg.issuer, ClientID(p), f.now)])
       case InvalidGrant => FromLogin(Without(f, p.key), p, c[1..], z)
       case InvalidClient => if p.reg.Some? then FromDropping(f, p, c[1..], z) else Silent(c[1..], z, Failed, f)
       case OtherError => Silent(c[1..], z, Failed, f)
  }

  ghost predicate FromLoaded(f: Files, p: Proc, stored: Option<Token>, c: seq<Action>, z: Ending)
    requires p.op.TokenOp?
  {
    if Foreign(p) then FromDropping(f, p, c, z)
    else if MayRefresh(p, stored, p.op.rejected) then FromRefreshing(f, p, stored.value, c, z)
    else FromLogin(f, p, c, z)
  }

  ghost predicate FromLoading(f: Files, p: Proc, c: seq<Action>, z: Ending)
    requires p.op.TokenOp?
  {
    var stored := Lookup(f.store, p.key);
    if Fresh(stored, f.now) && stored.value.access != p.op.rejected then Silent(c, z, Returned(stored.value.access), f)
    else if Doomed(p) then Silent(c, z, Failed, f)
    else FromLoaded(f, p, stored, c, z)
  }

  ghost predicate FromChecking(f: Files, p: Proc, c: seq<Action>, z: Ending)
    requires p.op.TokenOp?
    decreases if p.round == 1 then 1 else 0, 0
  {
    if !Replaced(p, f.regs, false) then FromLoading(f, p, c, z)
    else if p.round == 1 then FromResolving(f, LeaveClient(p).(round := 2), c, z)
    else Silent(c, z, ClientGone, f)
  }

  ghost predicate FromKeyed(f: Files, p: Proc, c: seq<Action>, z: Ending)
    requires p.op.TokenOp?
    decreases if p.round == 1 then 1 else 0, 1
  {
    var stored := Lookup(f.store, p.key);
    if p.op.rejected == "" && Fresh(p.cached, f.now) then Silent(c, z, Returned(p.cached.value.access), f)
    else if p.op.rejected == "" && Fresh(stored, f.now) then Silent(c, z, Returned(stored.value.access), f)
    else FromChecking(f, p, c, z)
  }

  ghost predicate FromResolving(f: Files, p: Proc, c: seq<Action>, z: Ending)
    requires p.op.TokenOp?
    decreases if p.round == 1 then 1 else 0, 2
  {
    if p.cfg.clientID != "" || p.reg.Some? then FromKeyed(f, p.(key := ClientID(p)), c, z)
    else if p.cfg.redirect !in f.regs then FromRegistering(f, p, c, z)
    else
      match f.regs[p.cfg.redirect]
      case Corrupt => Silent(c, z, Failed, f)
      case Good(reg) => FromKeyed(f, p.(reg := Some(reg), key := reg.client), c, z)
  }

  ghost function Plain(p: Proc): Proc { p.(pc := Resolving) }

  /** At every point of a call: the contacts and the ending that may still come. */
  ghost predicate Foretold(s: State, p: Proc, c: seq<Action>, z: Ending)
    requires p.op.TokenOp?
  {
    var q, f := Plain(p), Seen(s);
    match p.pc
    case Idle(out) => Silent(c, z, out, f)
    case Resolving => FromResolving(f, q, c, z)
    case RegWait | RegLocked | Registering => FromRegistering(f, q, c, z)
    case RegSaving(minted) => FromNew(f, q.(key := minted.client), c, z)
    case RegUnlock(ok) => if ok then FromNew(f, q.(key := ClientID(q)), c, z) else Silent(c, z, Failed, f)
    case Keyed => FromKeyed(f, q, c, z)
    case TokWait | Checking => FromChecking(f, q, c, z)
    case Loading => FromLoading(f, q, c, z)
    case Loaded(stored) => FromLoaded(f, q, stored, c, z)
    case Refreshing(spent) => FromRefreshing(f, q, spent, c, z)
    case SavingRefresh(t) => c == [] && z == Ending(Returned(t.access), f.store[p.key := t])
    case DeletingStale => FromLogin(Without(f, p.key), q, c, z)
    case LoggingIn => FromLoggingIn(f, q, c, z)
    case SavingLogin(t) => c == [] && z == Ending(Returned(t.access), f.store[p.key := t])
    case Unlocking(out) =>
      if out.ClientGone? && p.round == 1 then FromResolving(f, q.(round := 2), c, z) else Silent(c, z, out, f)
    case DropToken => FromDropping(f, q, c, z)
    case DropWait(_) | DropLocked(_) | DropRecord(_) | DropUnlock(_) => FromDropped(f, q, c, z)
    case _ => false
  }

  /** What nobody but the process itself could have changed since it looked. */
  ghost predicate Undisturbed(s: State, p: Proc) {
    && (PastCheck(p.pc) && p.cfg.clientID == "" ==> StoredAs(s.regs, p.cfg.redirect, p.key))
    && match p.pc
       case RegWait | RegLocked | Registering => p.cfg.redirect !in s.regs
       case RegSaving(minted) => p.cfg.redirect !in s.regs && minted.client !in s.store
       case RegUnlock(ok) =>
         ok ==> !Foreign(p) && StoredAs(s.regs, p.cfg.redirect, ClientID(p)) && ClientID(p) !in s.store
       case DropWait(gone) => StoredAs(s.regs, p.cfg.redirect, gone.client)
       case DropLocked(gone) => StoredAs(s.regs, p.cfg.redirect, gone.client)
       case DropRecord(gone) => StoredAs(s.regs, p.cfg.redirect, gone.client)
       case DropUnlock(done) => done && p.cfg.redirect !in s.regs
       case _ => true
  }

  /** Process `i` is in a call of Token, undisturbed, and `a` is a step of it that works. */
  ghost predicate Underway(s: State, i: nat, a: Action, ans: Answers) {
    && i < |s.procs| && Enabled(s, i, a) && Works(a, ans)
    && s.procs[i].op.TokenOp? && LocalInv(s.procs[i]) && Undisturbed(s, s.procs[i])
  }

  ghost function Told(a: Action, c: seq<Action>): seq<Action> { if Request(a) then [a] + c else c }

  /** What may follow a step may follow, the step's own contact in front, what was before it. */
  ghost predicate Follows(s: State, i: nat, a: Action, ans: Answers, c: seq<Action>, z: Ending)
    requires Underway(s, i, a, ans)
  {
    var n, p, q := Apply(s, i, a), s.procs[i], NextProc(s, i, a);
    q.op == p.op && Undisturbed(n, q) && (Foretold(n, q, c, z) ==> Foretold(s, p, Told(a, c), z))
  }

  /** A client registered just now: nothing is stored for it, and its record is on file. */
  lemma NewClient(f: Files, p: Proc, c: seq<Action>, z: Ending)
    requires p.op.TokenOp? && p.cfg.clientID == "" && p.reg.Some? && p.key == ClientID(p) && !Foreign(p)
    requires StoredAs(f.regs, p.cfg.redirect, p.key) && p.key !in f.store
    ensures FromKeyed(f, p, c, z) <==> FromNew(f, p, c, z)
  {
    assert FromChecking(f, p, c, z) <==> FromLoading(f, p, c, z);
  }

  lemma RegisteredFollows(s: State, i: nat, ans: Answers, c: seq<Action>, z: Ending)
    requires Underway(s, i, UnlockReg, ans)
    ensures Follows(s, i, UnlockReg, ans, c, z)
  {
    var p, q := s.procs[i], NextProc(s, i, UnlockReg);
    if p.pc.ok {
      NewClient(Seen(s), Plain(q), c, z);
    }
  }

  lemma ResolveFollows(s: State, i: nat, a: Action, ans: Answers, c: seq<Action>, z: Ending)
    requires Underway(s, i, a, ans) && a.Resolve?
    ensures Follows(s, i, a, ans, c, z)
  {
    hide NextServer, NextTokLock, NextRegLock;
  }

  lemma EnteringFollows(s: State, i: nat, a: Action, ans: Answers, c: seq<Action>, z: Ending)
    requires Underway(s, i, a, ans) && (a.Proceed? || a.LockTok?)
    ensures Follows(s, i, a, ans, c, z)
  {
    hide NextServer, NextTokLock, NextRegLock, FromChecking, FromRegistering;
  }

  lemma RegisteringFollows(s: State, i: nat, a: Action, ans: Answers, c: seq<Action>, z: Ending)
    requires Underway(s, i, a, ans) && (a.LockReg? || a.ReadReg? || a.Register? || a.SaveReg?)
    ensures Follows(s, i, a, ans, c, z)
  {
    hide NextServer, NextTokLock, NextRegLock, FromKeyed, FromChecking;
  }

  lemma CheckFollows(s: State, i: nat, a: Action, ans: Answers, c: seq<Action>, z: Ending)
    requires Underway(s, i, a, ans) && a.CheckClient?
    ensures Follows(s, i, a, ans, c, z)
  {
    hide NextServer, NextTokLock, NextRegLock, FromLoading, FromResolving;
  }

  lemma LoadFollows(s: State, i: nat, a: Action, ans: Answers, c: seq<Action>, z: Ending)
    requires Underway(s, i, a, ans) && a.LoadTok?
    ensures Follows(s, i, a, ans, c, z)
  {
    hide NextServer, NextTokLock, NextRegLock, FromLoaded, FromResolving, FromKeyed;
  }

  lemma DecideFollows(s: State, i: nat, a: Action, ans: Answers, c: seq<Action>, z: Ending)
    requires Underway(s, i, a, ans) && a.Decide?
    ensures Follows(s, i, a, ans, c, z)
  {
    hide NextServer, NextTokLock, NextRegLock, FromRefreshing, FromLoggingIn, FromResolving, FromKeyed, FromRegistering;
  }

  lemma ExchangeFollows(s: State, i: nat, a: Action, ans: Answers, c: seq<Action>, z: Ending)
    requires Underway(s, i, a, ans) && a.Exchange?
    ensures Follows(s, i, a, ans, c, z)
  {
    hide NextServer, NextTokLock, NextRegLock, FromDropping, FromKeyed, FromResolving;
  }

  lemma SavingFollows(s: State, i: nat, a: Action, ans: Answers, c: seq<Action>, z: Ending)
    requires Underway(s, i, a, ans) && (a.SaveRefreshed? || a.DeleteStale? || a.SaveLoggedIn?)
    ensures Follows(s, i, a, ans, c, z)
  {
    hide NextServer, NextTokLock, NextRegLock, FromKeyed, FromChecking, FromRegistering, FromNew;
  }

  lemma BrowserFollows(s: State, i: nat, a: Action, ans: Answers, c: seq<Action>, z: Ending)
    requires Underway(s, i, a, ans) && a.Browser?
    ensures Follows(s, i, a, ans, c, z)
  {
    hide NextServer, NextTokLock, NextRegLock, FromKeyed, FromResolving, FromRegistering;
  }

  lemma UnlockFollows(s: State, i: nat, a: Action, ans: Answers, c: seq<Action>, z: Ending)
    requires Underway(s, i, a, ans) && a.UnlockTok?
    ensures Follows(s, i, a, ans, c, z)
  {
    hide NextServer, NextTokLock, NextRegLock, FromResolving;
  }

  lemma DroppingFollows(s: State, i: nat, a: Action, ans: Answers, c: seq<Action>, z: Ending)
    requires Underway(s, i, a, ans) && a.DeleteDropped?
    ensures Follows(s, i, a, ans, c, z)
  {
    hide NextServer, NextTokLock, NextRegLock, FromRegistering, FromKeyed, FromResolving;
  }

  lemma RecordFollows(s: State, i: nat, a: Action, ans: Answers, c: seq<Action>, z: Ending)
    requires Underway(s, i, a, ans) && (a.LockDrop? || a.ReadDrop?)
    ensures Follows(s, i, a, ans, c, z)
  {
    hide NextServer, NextTokLock, NextRegLock, FromDropped, FromResolving;
  }

  lemma DeletingFollows(s: State, i: nat, a: Action, ans: Answers, c: seq<Action>, z: Ending)
    requires Underway(s, i, a, ans) && a.DeleteRecord?
    ensures Follows(s, i, a, ans, c, z)
  {
    hide NextServer, NextTokLock, NextRegLock, FromKeyed, FromResolving;
  }

  lemma DroppedFollows(s: State, i: nat, a: Action, ans: Answers, c: seq<Action>, z: Ending)
    requires Underway(s, i, a, ans) && a.UnlockDrop?
    ensures Follows(s, i, a, ans, c, z)
  {
    hide NextServer, NextTokLock, NextRegLock, FromRegistering, FromKeyed;
  }

  lemma Remaining(s: State, i: nat, a: Action, ans: Answers)
    requires Underway(s, i, a, ans)
    ensures !Entering(a) && !Obtaining(a) ==> a.DeleteDropped? || a.LockDrop? || a.ReadDrop? || a.DeleteRecord? || a.UnlockDrop?
    ensures Obtaining(a) ==>
      a.CheckClient? || a.LoadTok? || a.Decide? || a.Exchange? || a.SaveRefreshed? || a.DeleteStale? || a.Browser?
      || a.SaveLoggedIn? || a.UnlockTok?
    ensures Entering(a) ==>
      a.Resolve? || a.LockReg? || a.ReadReg? || a.Register? || a.SaveReg? || a == UnlockReg || a.Proceed? || a.LockTok?
  {
  }

  lemma StepFollows(s: State, i: nat, a: Action, ans: Answers, c: seq<Action>, z: Ending)
    requires Underway(s, i, a, ans)
    ensures Follows(s, i, a, ans, c, z)
  {
    hide *;
    Remaining(s, i, a, ans);
    if a.Resolve? {
      ResolveFollows(s, i, a, ans, c, z);
    } else if a == UnlockReg {
      RegisteredFollows(s, i, ans, c, z);
    } else if a.Proceed? || a.LockTok? {
      EnteringFollows(s, i, a, ans, c, z);
    } else if Entering(a) {
      RegisteringFollows(s, i, a, ans, c, z);
    } else if a.CheckClient? {
      CheckFollows(s, i, a, ans, c, z);
    } else if a.LoadTok? {
      LoadFollows(s, i, a, ans, c, z);
    } else if a.Decide? {
      DecideFollows(s, i, a, ans, c, z);
    } else if a.Exchange? {
      ExchangeFollows(s, i, a, ans, c, z);
    } else if a.Browser? {
      BrowserFollows(s, i, a, ans, c, z);
    } else if a.UnlockTok? {
      UnlockFollows(s, i, a, ans, c, z);
    } else if a.SaveRefreshed? || a.DeleteStale? || a.SaveLoggedIn? {
      SavingFollows(s, i, a, ans, c, z);
    } else if a.DeleteDropped? {
      DroppingFollows(s, i, a, ans, c, z);
    } else if a.UnlockDrop? {
      DroppedFollows(s, i, a, ans, c, z);
    } else if a.DeleteRecord? {
      DeletingFollows(s, i, a, ans, c, z);
    } else {
      RecordFollows(s, i, a, ans, c, z);
    }
  }

  // ----- a whole call -----

  /** Steps of process `i` alone, all of which work. */
  ghost predicate Undisputed(run: seq<Event>, i: nat, ans: Answers) {
    forall k :: 0 <= k < |run| ==> run[k].Do? && run[k].i == i && Works(run[k].a, ans)
  }

  ghost function End(s: State, i: nat): Ending
    requires i < |s.procs| && s.procs[i].pc.Idle?
  {
    Ending(s.procs[i].pc.last, s.store)
  }

  /** From any point of a call to its end, the server is asked for, and the call ends with, what was foretold there. */
  lemma {:induction false} ComesTrue(s: State, run: seq<Event>, i: nat, ans: Answers)
    requires Inv(s) && i < |s.procs| && s.procs[i].op.TokenOp? && Undisturbed(s, s.procs[i])
    requires Undisputed(run, i, ans) && Legal(s, run) && i < |After(s, run).procs| && After(s, run).procs[i].pc.Idle?
    ensures Foretold(s, s.procs[i], Requests(run), End(After(s, run), i))
    decreases |run|
  {
    hide Inv, Foretold, Undisturbed;
    if run == [] {
      IdleForetold(s, i);
    } else {
      var a := run[0].a;
      assert Works(a, ans);
      Locals(s, i);
      EventKeepsInv(s, run[0]);
      assert forall k :: 0 <= k < |run[1..]| ==> run[1..][k] == run[k + 1];
      StepFollows(s, i, a, ans, Requests(run[1..]), End(After(s, run), i));
      ComesTrue(Next(s, run[0]), run[1..], i, ans);
    }
  }

  lemma Locals(s: State, i: nat)
    requires Inv(s) && i < |s.procs|
    ensures LocalInv(s.procs[i])
  {
  }

  lemma IdleForetold(s: State, i: nat)
    requires i < |s.procs| && s.procs[i].pc.Idle? && s.procs[i].op.TokenOp?
    ensures Foretold(s, s.procs[i], [], End(s, i))
  {
  }

  /** The process at the beginning of the call. */
  ghost function Begun(p: Proc, rejected: string, stale: bool): Proc {
    p.(pc := Resolving, op := TokenOp(rejected, stale), round := 1, logins := 0)
  }

  /** A call of Token by process `i`, from its beginning to its end, run by `i` alone with everything working. */
  ghost predicate Call(s: State, run: seq<Event>, i: nat, rejected: string, stale: bool, ans: Answers) {
    && i < |s.procs| && run != [] && run[0] == Do(i, BeginToken(rejected, stale)) && Undisputed(run[1..], i, ans)
    && Legal(s, run) && i < |After(s, run).procs| && After(s, run).procs[i].pc.Idle?
  }

  /**
    Any call, whatever its client: what it asks of the server, what it returns
    and what it leaves in the store follow from what there is before it begins
    and from the server's answers.
  */
  lemma CallIsSettled(s: State, run: seq<Event>, i: nat, rejected: string, stale: bool, ans: Answers)
    requires Inv(s) && Call(s, run, i, rejected, stale, ans)
    ensures FromResolving(Seen(s), Begun(s.procs[i], rejected, stale), Requests(run), End(After(s, run), i))
  {
    hide Inv, FromResolving;
    var n := Next(s, run[0]);
    EventKeepsInv(s, run[0]);
    assert n.procs[i] == Begun(s.procs[i], rejected, stale);
    ComesTrue(n, run[1..], i, ans);
    assert Plain(n.procs[i]) == n.procs[i] && Seen(n) == Seen(s);
  }

  /** The contacts of a run are its steps that contact the server. */
  lemma {:induction false} InRequests(run: seq<Event>, a: Action)
    ensures a in Requests(run) <==> Request(a) && exists k :: 0 <= k < |run| && run[k].Do? && run[k].a == a
  {
    if run != [] {
      InRequests(run[1..], a);
      assert forall k :: 0 < k < |run| ==> run[k] == run[1..][k - 1];
      if a in Requests(run[1..]) {
        var k :| 0 <= k < |run[1..]| && run[1..][k].Do? && run[1..][k].a == a;
        assert run[k + 1].Do? && run[k + 1].a == a;
      }
    }
  }

  ghost predicate Opens(run: seq<Event>) {
    exists k :: 0 <= k < |run| && run[k].Do? && run[k].a.Browser?
  }

  lemma OpensByRequest(run: seq<Event>)
    ensures Opens(run) <==> exists a :: a in Requests(run) && a.Browser?
  {
    if Opens(run) {
      var k :| 0 <= k < |run| && run[k].Do? && run[k].a.Browser?;
      InRequests(run, run[k].a);
    }
    forall a | a in Requests(run)
      ensures exists k :: 0 <= k < |run| && run[k].Do? && run[k].a == a
    {
      InRequests(run, a);
    }
  }

  /** In a call the server answers as said. */
  lemma AnsweredAsSaid(s: State, run: seq<Event>, i: nat, rejected: string, stale: bool, ans: Answers, a: Action)
    requires Call(s, run, i, rejected, stale, ans) && a in Requests(run)
    ensures a.Exchange? ==> VerdictOf(a.reply) == ans.refresh
    ensures a.Register? ==> a.minted.Some? == ans.registers
  {
    InRequests(run, a);
    var k :| 0 <= k < |run| && run[k].Do? && run[k].a == a;
    assert k > 0 ==> run[k] == run[1..][k - 1];
  }
}
