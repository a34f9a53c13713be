/**
  The OAuth token flow as a transition system (pkg/oauth/flow.go,
  pkg/oauth/register.go, pkg/oauth/lock.go).

  Any number of processes, each one `Flow`, share a token store, a store of
  dynamic client registrations, and two families of file locks.  Every step is
  one access to something shared: a load, a save, a delete, an exchange with
  the authorization server, taking or releasing a lock.  What lies between two
  such accesses is local to the process and belongs to the step before it.

  All processes address one endpoint, and the storage key is injective, so a
  client_id stands for its token-store key; a registration is stored under the
  redirect URI.
*/
module OAuthProtocol {
  import opened Wrappers
  import opened TokenStore

  /** What a process is configured with, and the issuer its discovery finds. */
  datatype Config = Config(clientID: string, redirect: string, issuer: string)

  /** A dynamic registration in use, and what a registration file may hold. */
  datatype Registration = Registration(client: string, issuer: string)
  datatype Record = Corrupt | Good(reg: Registration)

  datatype Op = TokenOp(rejected: string, stale: bool) | LoginOp | ForgetOp

  datatype Outcome = Returned(token: string) | Failed | ClientGone | Done

  /** Where a process stands; each constructor but Idle awaits its next shared access. */
  datatype Pc =
    | Idle(last: Outcome)
      // resourceKey and ensureClient
    | Resolving | RegWait | RegLocked | Registering | RegSaving(minted: Registration) | RegUnlock(ok: bool)
      // token, after ensureClient
    | Keyed | TokWait
      // obtain, and the locked part of Login
    | Checking | Loading | Loaded(stored: Option<Token>)
    | Refreshing(spent: Token) | SavingRefresh(refreshed: Token) | DeletingStale
    | LoggingIn | SavingLogin(granted: Token) | Unlocking(out: Outcome)
      // dropClient
    | DropToken | DropWait(gone: Registration) | DropLocked(gone: Registration)
    | DropRecord(gone: Registration) | DropUnlock(done: bool)
      // Forget
    | ForgetKey | ForgetToken | ForgetRecord | ForgetCorrupt

  datatype Proc = Proc(
    cfg: Config,
    pc: Pc,
    op: Op,
    round: nat,
    key: string,                 // client_id resolved by ensureClient
    reg: Option<Registration>,
    cached: Option<Token>,
    lastRefreshed: string,
    lastLoggedIn: string,
    logins: nat)                 // browser logins launched by the current call

  /**
    The authorization server.  It rotates: per client only the refresh token it
    handed out last is good.  `revoked` are tokens it withdrew on its own.
    The multisets count successful exchanges per client and registrations per
    redirect URI.
  */
  datatype AuthServer = AuthServer(
    current: map<string, string>,
    revoked: set<string>,
    accessIssued: set<string>,
    issuerOf: map<string, string>,
    known: set<string>,
    exchanges: multiset<string>,
    registrations: multiset<string>)

  datatype State = State(
    now: int,
    store: map<string, Token>,
    regs: map<string, Record>,
    tokLock: map<string, nat>,
    regLock: map<string, nat>,
    srv: AuthServer,
    procs: seq<Proc>)

  datatype RefreshReply = Granted(g: Grant) | InvalidGrant | InvalidClient | OtherError

  /** Steps of a process; `fail` is an I/O error of that access, `disc` says discovery succeeded. */
  datatype Action =
    | BeginToken(rejected: string, stale: bool) | BeginLogin | BeginForget
    | Resolve(fail: bool, disc: bool)
    | LockReg | CancelReg | ReadReg(fail: bool) | Register(minted: Option<string>) | SaveReg(fail: bool) | UnlockReg
    | Proceed(fail: bool)
    | LockTok | CancelTok
    | CheckClient(fail: bool) | LoadTok(fail: bool) | Decide(disc: bool)
    | Exchange(reply: RefreshReply) | SaveRefreshed | DeleteStale(fail: bool)
    | Browser(login: Option<Token>) | SaveLoggedIn | UnlockTok
    | DeleteDropped(fail: bool) | LockDrop | CancelDrop | ReadDrop(fail: bool) | DeleteRecord(fail: bool) | UnlockDrop
    | ForgetResolve(fail: bool) | ForgetDeleteToken(fail: bool) | ForgetDeleteRecord(fail: bool)
    | Crash

  /** One step of the system: the clock, the server on its own, or a process. */
  datatype Event =
    | Tick(seconds: nat)
    | Revoke(client: string)
    | Disown(client: string)
    | Do(i: nat, a: Action)

  // ----- local helpers, named after the functions of the Flow -----

  /** clientID: the configured one, else the dynamic registration in use. */
  function ClientID(p: Proc): string {
    if p.cfg.clientID != "" || p.reg.None? then p.cfg.clientID else p.reg.value.client
  }

  predicate SelfIssued(p: Proc, rejected: string) {
    rejected != "" && (rejected == p.lastRefreshed || rejected == p.lastLoggedIn)
  }

  /** foreignClient: a registration made at another server than discovery found. */
  predicate Foreign(p: Proc) {
    p.cfg.clientID == "" && p.reg.Some? && p.reg.value.issuer != p.cfg.issuer
  }

  /** clientReplaced, given what the registration file holds. */
  predicate Replaced(p: Proc, regs: map<string, Record>, fail: bool) {
    && p.cfg.clientID == ""
    && p.reg.Some?
    && (fail || !StoredAs(regs, p.cfg.redirect, p.reg.value.client))
  }

  predicate StoredAs(regs: map<string, Record>, redirect: string, client: string) {
    redirect in regs && regs[redirect].Good? && regs[redirect].reg.client == client
  }

  function LeaveClient(p: Proc): Proc {
    p.(reg := None, cached := None, lastRefreshed := "", lastLoggedIn := "")
  }

  predicate MayRefresh(p: Proc, stored: Option<Token>, rejected: string) {
    stored.Some? && stored.value.refresh != "" && (rejected == "" || rejected != p.lastRefreshed)
  }

  /** Where obtain goes once refreshing is out: the browser, unless its last token was refused. */
  function LoginPc(p: Proc): Pc {
    if p.op.TokenOp? && p.op.rejected != "" && p.op.rejected == p.lastLoggedIn then Unlocking(Failed) else LoggingIn
  }

  function Lookup(store: map<string, Token>, key: string): Option<Token> {
    if key in store then Some(store[key]) else None
  }

  // ----- which steps are possible -----

  predicate Unused(srv: AuthServer, access: string) {
    access != "" && access != "-" && access !in srv.accessIssued
  }

  /** The answers a rotating server may give to the refresh token `rt` of `client`. */
  predicate MayAnswer(srv: AuthServer, client: string, rt: string, reply: RefreshReply) {
    match reply
    case Granted(g) => client in srv.known && client in srv.current && srv.current[client] == rt && Unused(srv, g.access)
    case InvalidGrant => client !in srv.current || srv.current[client] != rt
    case InvalidClient => client !in srv.known
    case OtherError => true
  }

  /** client_ids are never repeated: nothing is known of a new one, and nothing is stored for it. */
  predicate NeverSeen(s: State, client: string) {
    client != "" && client !in s.srv.issuerOf && client !in s.store
  }

  predicate Enabled(s: State, i: nat, a: Action)
    requires i < |s.procs|
  {
    var p := s.procs[i];
    match a
    case BeginToken(rejected, _) =>
      p.pc.Idle? && (rejected == "" || rejected == "-" || rejected in s.srv.accessIssued)
    case BeginLogin => p.pc.Idle?
    case BeginForget => p.pc.Idle?
    case Resolve(_, _) => p.pc.Resolving?
    case LockReg => p.pc.RegWait? && p.cfg.redirect !in s.regLock
    case CancelReg => p.pc.RegWait?
    case ReadReg(_) => p.pc.RegLocked?
    case Register(minted) =>
      p.pc.Registering? && (minted.Some? ==> NeverSeen(s, minted.value))
    case SaveReg(_) => p.pc.RegSaving?
    case UnlockReg => p.pc.RegUnlock?
    case Proceed(_) => p.pc.Keyed?
    case LockTok => p.pc.TokWait? && p.key !in s.tokLock
    case CancelTok => p.pc.TokWait?
    case CheckClient(_) => p.pc.Checking?
    case LoadTok(_) => p.pc.Loading?
    case Decide(_) => p.pc.Loaded?
    case Exchange(reply) => p.pc.Refreshing? && MayAnswer(s.srv, p.key, p.pc.spent.refresh, reply)
    case SaveRefreshed => p.pc.SavingRefresh?
    case DeleteStale(_) => p.pc.DeletingStale?
    case Browser(login) =>
      && p.pc.LoggingIn?
      && (login.Some? ==>
            Unused(s.srv, login.value.access) && login.value.issuer == p.cfg.issuer && login.value.client == ClientID(p))
    case SaveLoggedIn => p.pc.SavingLogin?
    case UnlockTok => p.pc.Unlocking?
    case DeleteDropped(_) => p.pc.DropToken? && p.reg.Some?
    case LockDrop => p.pc.DropWait? && p.cfg.redirect !in s.regLock
    case CancelDrop => p.pc.DropWait?
    case ReadDrop(_) => p.pc.DropLocked?
    case DeleteRecord(_) => p.pc.DropRecord?
    case UnlockDrop => p.pc.DropUnlock?
    case ForgetResolve(_) => p.pc.ForgetKey?
    case ForgetDeleteToken(_) => p.pc.ForgetToken?
    case ForgetDeleteRecord(_) => p.pc.ForgetRecord? || p.pc.ForgetCorrupt?
      // No crash between an answer of the server and the save that follows it.
    case Crash => !p.pc.SavingRefresh? && !p.pc.SavingLogin?
  }

  // ----- what a step does to the process taking it -----

  function Use(p: Proc, reg: Registration): Proc {
    p.(reg := Some(reg), key := reg.client, pc := Keyed)
  }

  /** resourceKey, and with neither a configured client nor a record, on to registering one. */
  function AfterResolve(p: Proc, regs: map<string, Record>, fail: bool, disc: bool): Proc {
    if p.cfg.clientID != "" || p.reg.Some? then p.(key := ClientID(p), pc := Keyed)
    else if fail then p.(pc := Idle(Failed))
    else if p.cfg.redirect !in regs then p.(pc := if disc then RegWait else Idle(Failed))
    else
      match regs[p.cfg.redirect]
      case Corrupt => p.(pc := Idle(Failed))
      case Good(reg) => Use(p, reg)
  }

  predicate Adoptable(p: Proc, regs: map<string, Record>) {
    && p.cfg.redirect in regs
    && regs[p.cfg.redirect].Good?
    && regs[p.cfg.redirect].reg.issuer == p.cfg.issuer
  }

  function AfterReadReg(p: Proc, regs: map<string, Record>, fail: bool): Proc {
    if !fail && Adoptable(p, regs) then p.(reg := Some(regs[p.cfg.redirect].reg), pc := RegUnlock(true))
    else p.(pc := Registering)
  }

  function AfterRegister(p: Proc, minted: Option<string>): Proc {
    p.(pc := if minted.Some? then RegSaving(Registration(minted.value, p.cfg.issuer)) else RegUnlock(false))
  }

  function AfterSaveReg(p: Proc, fail: bool): Proc
    requires p.pc.RegSaving?
  {
    if fail then p.(pc := RegUnlock(false)) else p.(reg := Some(p.pc.minted), pc := RegUnlock(true))
  }

  function AfterUnlockReg(p: Proc): Proc
    requires p.pc.RegUnlock?
  {
    if p.pc.ok then p.(key := ClientID(p), pc := Keyed) else p.(pc := Idle(Failed))
  }

  /** token's fast path, or Login's check of the registration it holds. */
  function AfterProceed(p: Proc, stored: Option<Token>, now: int, fail: bool): Proc {
    if p.op.LoginOp? then
      p.(pc := if p.round == 1 && Foreign(p) then DropToken else TokWait)
    else if p.op.TokenOp? && p.op.rejected == "" && Fresh(p.cached, now) then
      p.(pc := Idle(Returned(p.cached.value.access)))
    else if p.op.TokenOp? && p.op.rejected == "" && !fail && Fresh(stored, now) then
      p.(cached := stored, pc := Idle(Returned(stored.value.access)))
    else
      p.(pc := TokWait)
  }

  function AfterCheck(p: Proc, regs: map<string, Record>, fail: bool): Proc {
    if Replaced(p, regs, fail) then LeaveClient(p).(pc := Unlocking(ClientGone)) else p.(pc := Loading)
  }

  /** obtain, from the re-load to the refusal of a token this process minted itself. */
  function AfterLoadTok(p: Proc, stored: Option<Token>, now: int, fail: bool): Proc {
    if fail || !p.op.TokenOp? then p.(pc := Unlocking(Failed))
    else if Fresh(stored, now) && stored.value.access != p.op.rejected then
      p.(cached := stored, pc := Unlocking(Returned(stored.value.access)))
    else if SelfIssued(p, p.op.rejected) && !p.op.stale then p.(pc := Unlocking(Failed))
    else p.(pc := Loaded(stored))
  }

  function AfterDecide(p: Proc, disc: bool): Proc
    requires p.pc.Loaded?
  {
    if !disc || !p.op.TokenOp? then p.(pc := Unlocking(Failed))
    else if Foreign(p) then p.(pc := DropToken)
    else if MayRefresh(p, p.pc.stored, p.op.rejected) then p.(pc := Refreshing(p.pc.stored.value))
    else p.(pc := LoginPc(p))
  }

  function AfterExchange(p: Proc, now: int, reply: RefreshReply): Proc
    requires p.pc.Refreshing?
  {
    match reply
    case Granted(g) => p.(pc := SavingRefresh(Refreshed(p.pc.spent, g, p.cfg.issuer, ClientID(p), now)))
    case InvalidGrant => p.(pc := DeletingStale)
    case InvalidClient => p.(pc := if p.reg.Some? then DropToken else Unlocking(Failed))
    case OtherError => p.(pc := Unlocking(Failed))
  }

  function AfterSaveRefreshed(p: Proc): Proc
    requires p.pc.SavingRefresh?
  {
    var t := p.pc.refreshed;
    p.(lastRefreshed := t.access, cached := Some(t), pc := Unlocking(Returned(t.access)))
  }

  function AfterBrowser(p: Proc, login: Option<Token>): Proc {
    p.(logins := p.logins + 1, pc := if login.Some? then SavingLogin(login.value) else Unlocking(Failed))
  }

  function AfterSaveLoggedIn(p: Proc): Proc
    requires p.pc.SavingLogin?
  {
    var t := p.pc.granted;
    p.(lastLoggedIn := t.access, cached := Some(t), pc := Unlocking(Returned(t.access)))
  }

  /** The token lock is released: ClientGone leads to a second round, once. */
  function AfterUnlockTok(p: Proc): Proc
    requires p.pc.Unlocking?
  {
    if p.pc.out.ClientGone? && p.round == 1 then p.(pc := Resolving, round := 2) else p.(pc := Idle(p.pc.out))
  }

  function AfterDeleteDropped(p: Proc): Proc
    requires p.reg.Some?
  {
    LeaveClient(p).(pc := DropWait(p.reg.value))
  }

  function AfterReadDrop(p: Proc, regs: map<string, Record>, fail: bool): Proc
    requires p.pc.DropLocked?
  {
    p.(pc := if !fail && StoredAs(regs, p.cfg.redirect, p.pc.gone.client) then DropRecord(p.pc.gone) else DropUnlock(true))
  }

  function AfterUnlockDrop(p: Proc): Proc
    requires p.pc.DropUnlock?
  {
    if p.op.TokenOp? then p.(pc := Unlocking(if p.pc.done then ClientGone else Failed))
    else if p.pc.done then p.(pc := Resolving, round := 2)
    else p.(pc := Idle(Failed))
  }

  function AfterForgetResolve(p: Proc, regs: map<string, Record>, fail: bool): Proc {
    if p.cfg.clientID != "" || p.reg.Some? then p.(key := ClientID(p), pc := ForgetToken)
    else if fail then p.(pc := Idle(Failed))
    else if p.cfg.redirect !in regs then p.(pc := Idle(Done))
    else
      match regs[p.cfg.redirect]
      case Corrupt => p.(pc := ForgetCorrupt)
      case Good(reg) => Use(p, reg).(pc := ForgetToken)
  }

  function AfterForgetRecord(p: Proc, fail: bool): Proc {
    if fail then p.(pc := Idle(Failed))
    else if p.pc.ForgetCorrupt? then p.(pc := Idle(Done))
    else LeaveClient(p).(pc := Idle(Done))
  }

  /** The process after the step, given what it finds in the shared state. */
  function NextProc(s: State, i: nat, a: Action): Proc
    requires i < |s.procs| && Enabled(s, i, a)
  {
    var p := s.procs[i];
    match a
    case BeginToken(rejected, stale) => p.(pc := Resolving, op := TokenOp(rejected, stale), round := 1, logins := 0)
    case BeginLogin => p.(pc := Resolving, op := LoginOp, round := 1, logins := 0)
    case BeginForget => p.(pc := ForgetKey, op := ForgetOp, round := 1, logins := 0)
    case Resolve(fail, disc) => AfterResolve(p, s.regs, fail, disc)
    case LockReg => p.(pc := RegLocked)
    case CancelReg => p.(pc := Idle(Failed))
    case ReadReg(fail) => AfterReadReg(p, s.regs, fail)
    case Register(minted) => AfterRegister(p, minted)
    case SaveReg(fail) => AfterSaveReg(p, fail)
    case UnlockReg => AfterUnlockReg(p)
    case Proceed(fail) => AfterProceed(p, Lookup(s.store, p.key), s.now, fail)
    case LockTok => p.(pc := if p.op.LoginOp? then LoggingIn else Checking)
    case CancelTok => p.(pc := Idle(Failed))
    case CheckClient(fail) => AfterCheck(p, s.regs, fail)
    case LoadTok(fail) => AfterLoadTok(p, Lookup(s.store, p.key), s.now, fail)
    case Decide(disc) => AfterDecide(p, disc)
    case Exchange(reply) => AfterExchange(p, s.now, reply)
    case SaveRefreshed => AfterSaveRefreshed(p)
    case DeleteStale(_) => p.(pc := LoginPc(p))
    case Browser(login) => AfterBrowser(p, login)
    case SaveLoggedIn => AfterSaveLoggedIn(p)
    case UnlockTok => AfterUnlockTok(p)
    case DeleteDropped(_) => AfterDeleteDropped(p)
    case LockDrop => p.(pc := DropLocked(p.pc.gone))
    case CancelDrop => p.(pc := if p.op.TokenOp? then Unlocking(Failed) else Idle(Failed))
    case ReadDrop(fail) => AfterReadDrop(p, s.regs, fail)
    case DeleteRecord(fail) => p.(pc := DropUnlock(!fail))
    case UnlockDrop => AfterUnlockDrop(p)
    case ForgetResolve(fail) => AfterForgetResolve(p, s.regs, fail)
    case ForgetDeleteToken(fail) => p.(pc := if fail then Idle(Failed) else if p.reg.Some? then ForgetRecord else Idle(Done))
    case ForgetDeleteRecord(fail) => AfterForgetRecord(p, fail)
    case Crash => LeaveClient(p).(pc := Idle(Failed))
  }

  // ----- what a step does to each thing that is shared -----

  predicate HoldsTok(p: Proc) {
    match p.pc
    case Checking | Loading | Loaded(_) | Refreshing(_) | SavingRefresh(_) | DeletingStale
       | LoggingIn | SavingLogin(_) | Unlocking(_) => true
    case DropToken | DropWait(_) | DropLocked(_) | DropRecord(_) | DropUnlock(_) => p.op.TokenOp?
    case _ => false
  }

  predicate HoldsReg(p: Proc) {
    match p.pc
    case RegLocked | Registering | RegSaving(_) | RegUnlock(_)
       | DropLocked(_) | DropRecord(_) | DropUnlock(_) => true
    case _ => false
  }

  /** Saves and deletes of tokens. */
  function NextStore(s: State, i: nat, a: Action): map<string, Token>
    requires i < |s.procs| && Enabled(s, i, a)
  {
    var p := s.procs[i];
    match a
    case SaveRefreshed => s.store[p.key := p.pc.refreshed]
    case SaveLoggedIn => s.store[p.key := p.pc.granted]
    case DeleteStale(fail) => if fail then s.store else s.store - {p.key}
    case DeleteDropped(fail) => if fail then s.store else s.store - {p.key}
    case ForgetDeleteToken(fail) => if fail then s.store else s.store - {p.key}
    case _ => s.store
  }

  /** Saves and deletes of registrations. */
  function NextRegs(s: State, i: nat, a: Action): map<string, Record>
    requires i < |s.procs| && Enabled(s, i, a)
  {
    var p := s.procs[i];
    match a
    case SaveReg(fail) => if fail then s.regs else s.regs[p.cfg.redirect := Good(p.pc.minted)]
    case DeleteRecord(fail) => if fail then s.regs else s.regs - {p.cfg.redirect}
    case ForgetDeleteRecord(fail) => if fail then s.regs else s.regs - {p.cfg.redirect}
    case _ => s.regs
  }

  function NextTokLock(s: State, i: nat, a: Action): map<string, nat>
    requires i < |s.procs| && Enabled(s, i, a)
  {
    var p := s.procs[i];
    match a
    case LockTok => s.tokLock[p.key := i]
    case UnlockTok => s.tokLock - {p.key}
    case Crash => if HoldsTok(p) then s.tokLock - {p.key} else s.tokLock
    case _ => s.tokLock
  }

  function NextRegLock(s: State, i: nat, a: Action): map<string, nat>
    requires i < |s.procs| && Enabled(s, i, a)
  {
    var p := s.procs[i];
    match a
    case LockReg => s.regLock[p.cfg.redirect := i]
    case LockDrop => s.regLock[p.cfg.redirect := i]
    case UnlockReg => s.regLock - {p.cfg.redirect}
    case UnlockDrop => s.regLock - {p.cfg.redirect}
    case Crash => if HoldsReg(p) then s.regLock - {p.cfg.redirect} else s.regLock
    case _ => s.regLock
  }

  /** Registrations, refresh exchanges and logins, as the server sees them. */
  function NextServer(s: State, i: nat, a: Action): AuthServer
    requires i < |s.procs| && Enabled(s, i, a)
  {
    var p := s.procs[i];
    match a
    case Register(Some(c)) =>
      s.srv.(
        issuerOf := s.srv.issuerOf[c := p.cfg.issuer],
        known := s.srv.known + {c},
        registrations := s.srv.registrations + multiset{p.cfg.redirect})
    case Exchange(Granted(g)) => Issue(s.srv, p.key, g.access, if g.refresh != "" then g.refresh else p.pc.spent.refresh)
    case Browser(Some(t)) => Issue(s.srv, p.key, t.access, t.refresh)
    case _ => s.srv
  }

  /** The server hands out a token: from here on only this refresh token is good for the client. */
  function Issue(srv: AuthServer, client: string, access: string, refresh: string): AuthServer {
    srv.(
      current := if refresh != "" then srv.current[client := refresh] else srv.current - {client},
      accessIssued := srv.accessIssued + {access},
      exchanges := srv.exchanges + multiset{client})
  }

  function Apply(s: State, i: nat, a: Action): State
    requires i < |s.procs| && Enabled(s, i, a)
  {
    State(
      s.now,
      NextStore(s, i, a),
      NextRegs(s, i, a),
      NextTokLock(s, i, a),
      NextRegLock(s, i, a),
      NextServer(s, i, a),
      s.procs[i := NextProc(s, i, a)])
  }

  // ----- runs -----

  predicate Possible(s: State, e: Event) {
    match e
    case Tick(_) => true
    case Revoke(c) => c in s.srv.current
    case Disown(_) => true
    case Do(i, a) => i < |s.procs| && Enabled(s, i, a)
  }

  function Next(s: State, e: Event): State
    requires Possible(s, e)
  {
    match e
    case Tick(seconds) => s.(now := s.now + seconds)
    case Revoke(c) =>
      s.(srv := s.srv.(current := s.srv.current - {c}, revoked := s.srv.revoked + {s.srv.current[c]}))
    case Disown(c) => s.(srv := s.srv.(known := s.srv.known - {c}))
    case Do(i, a) => Apply(s, i, a)
  }

  /** `run` is an interleaving the system can take from `s`. */
  predicate Legal(s: State, run: seq<Event>)
    decreases |run|
  {
    run == [] || (Possible(s, run[0]) && Legal(Next(s, run[0]), run[1..]))
  }

  function After(s: State, run: seq<Event>): State
    requires Legal(s, run)
    decreases |run|
  {
    if run == [] then s else After(Next(s, run[0]), run[1..])
  }
}
