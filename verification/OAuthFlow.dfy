/**
  `Flow` itself (pkg/oauth/flow.go, pkg/oauth/register.go): its fields, and its
  methods as the sequences of shared accesses they are.  Before every access
  any number of other processes may take any number of steps (Interfere); the
  access is then one step of the transition system.  So a run of these methods
  is a run of the system, and what the system keeps holds for them.
*/
module OAuthFlow {
  import opened Wrappers
  import opened TokenStore
  import opened OAuthProtocol
  import opened OAuthInvariant

  ghost predicate OthersRan(before: State, after: State, i: nat) {
    exists run: seq<Event> :: RunsBeside(before, run, i) && After(before, run) == after
  }

  predicate RunsBeside(s: State, run: seq<Event>, i: nat) {
    Legal(s, run) && forall k :: 0 <= k < |run| ==> run[k].Do? ==> run[k].i != i
  }

  /** Whatever the other processes do, they leave a process's own fields alone, and no token is ever un-issued. */
  lemma {:induction false} OthersKeep(s: State, run: seq<Event>, i: nat)
    requires Inv(s) && i < |s.procs| && RunsBeside(s, run, i)
    ensures Inv(After(s, run))
    ensures |After(s, run).procs| == |s.procs| && After(s, run).procs[i] == s.procs[i]
    ensures s.srv.accessIssued <= After(s, run).srv.accessIssued
    decreases |run|
  {
    if run != [] {
      EventKeepsInv(s, run[0]);
      var n := Next(s, run[0]);
      assert n.procs[i] == s.procs[i] && s.srv.accessIssued <= n.srv.accessIssued;
      assert forall k :: 0 <= k < |run[1..]| ==> run[1..][k] == run[k + 1];
      hide Inv, Next, Possible;
      OthersKeep(n, run[1..], i);
    }
  }

  /** The clock and the server may have moved, and nothing else; the server has issued and registered nothing. */
  ghost predicate TimePassed(before: State, after: State) {
    && after == before.(now := after.now, srv := after.srv) && before.now <= after.now
    && after.srv.exchanges == before.srv.exchanges && after.srv.registrations == before.srv.registrations
  }

  predicate NobodyElse(run: seq<Event>) {
    forall k :: 0 <= k < |run| ==> !run[k].Do?
  }

  /** With no other process moving, the stores and the locks stay as they are. */
  lemma {:induction false} OnlyTimePasses(s: State, run: seq<Event>)
    requires Legal(s, run) && NobodyElse(run)
    ensures TimePassed(s, After(s, run))
    decreases |run|
  {
    if run != [] {
      var n := Next(s, run[0]);
      assert TimePassed(s, n);
      assert forall k :: 0 <= k < |run[1..]| ==> run[1..][k] == run[k + 1];
      hide Next, Possible;
      OnlyTimePasses(n, run[1..]);
    }
  }

  lemma Witness(s: State, run: seq<Event>, i: nat)
    requires RunsBeside(s, run, i)
    ensures OthersRan(s, After(s, run), i)
  {
  }

  /** Everything the processes share: the stores, the locks, the authorization server, the clock. */
  class World {
    var s: State
    const lone: bool  // no other process moves, only the clock and the server; the local files can be read and written
    const reachable: bool  // discovery finds the issuer's endpoints

    constructor (s: State, lone: bool, reachable: bool)
      requires Inv(s)
      ensures this.s == s && this.lone == lone && this.reachable == reachable
    {
      this.s, this.lone, this.reachable := s, lone, reachable;
    }

    method Interfere(i: nat)
      requires Inv(s) && i < |s.procs|
      modifies this`s
      ensures Inv(s) && OthersRan(old(s), s, i)
      ensures |s.procs| == |old(s).procs| && s.procs[i] == old(s).procs[i]
      ensures old(s).srv.accessIssued <= s.srv.accessIssued
      ensures lone ==> TimePassed(old(s), s)
    {
      Witness(s, [], i);
      var run: seq<Event> := *;
      if RunsBeside(s, run, i) && (lone ==> NobodyElse(run)) {
        OthersKeep(s, run, i);
        if lone {
          OnlyTimePasses(s, run);
        }
        Witness(s, run, i);
        s := After(s, run);
      }
    }

    method Take(i: nat, a: Action)
      requires Inv(s) && i < |s.procs| && Enabled(s, i, a)
      modifies this`s
      ensures Inv(s) && s == Apply(old(s), i, a)
      ensures |s.procs| == |old(s).procs| && s.procs[i] == NextProc(old(s), i, a) && LocalInv(s.procs[i])
    {
      StepKeepsInv(s, i, a);
      s := Apply(s, i, a);
    }

    /** Whether a local file access fails this time. */
    method FileFails() returns (fail: bool)
      ensures lone ==> !fail
    {
      fail := *;
      if lone {
        fail := false;
      }
    }

    method Discovers() returns (found: bool)
      ensures reachable ==> found
    {
      found := *;
      if reachable {
        found := true;
      }
    }
  }

  lemma Answered(s: State, i: nat, out: Outcome)
    requires Inv(s) && i < |s.procs| && s.procs[i].pc == Idle(out) && s.procs[i].op.TokenOp?
    ensures out.Returned? ==> out.token != "" && out.token != s.procs[i].op.rejected && out.token in s.srv.accessIssued
  {
    assert HeldOrigin(s.srv, s.procs[i]);
  }

  class Flow {
    const w: World
    const i: nat
    const cfg: Config
    var reg: Option<Registration>
    var cached: Option<Token>
    var lastRefreshed: string
    var lastLoggedIn: string
    ghost var refreshes: nat  // refresh exchanges this Flow ever asked for
    ghost var browsers: nat   // browser logins this Flow ever opened

    /** A process starting up: nothing in memory yet. */
    constructor (w: World, i: nat)
      requires Inv(w.s) && i < |w.s.procs| && Left(w.s.procs[i])
      ensures Valid() && this.w == w && this.i == i
    {
      this.w, this.i, this.cfg := w, i, w.s.procs[i].cfg;
      reg, cached := None, None;
      lastRefreshed, lastLoggedIn := "", "";
      refreshes, browsers := 0, 0;
    }

    function Self(): Proc
      requires i < |w.s.procs|
      reads this, w
    {
      w.s.procs[i]
    }

    /** The fields are those of the process this Flow runs as. */
    ghost predicate Valid()
      reads this, w
    {
      && Inv(w.s)
      && i < |w.s.procs|
      && LocalInv(Self())
      && Self().cfg == cfg
      && Self().reg == reg
      && Self().cached == cached
      && Self().lastRefreshed == lastRefreshed
      && Self().lastLoggedIn == lastLoggedIn
    }

    // ----- how far a refused token is from the end of the ladder -----

    /** The registration in use is the one on file. */
    ghost predicate Synced()
      requires i < |w.s.procs|
      reads this, w
    {
      cfg.clientID != "" || (reg.Some? && StoredAs(w.s.regs, cfg.redirect, reg.value.client))
    }

    /**
      0: nothing in the store but a token this process minted; 1: nothing but
      the token itself; 2: the stores may hold news.
    */
    ghost function Rank(t: string): (r: nat)
      requires i < |w.s.procs|
      reads this, w
      ensures r <= 2
    {
      if Synced() && Useless(w.s.store, ClientID(Self()), w.s.now, t) then
        if SelfIssued(Self(), t) then 0 else 1
      else 2
    }

    /** The server was not asked for anything. */
    twostate predicate Free()
      reads this
    {
      refreshes == old(refreshes) && browsers == old(browsers)
    }

    twostate predicate Bounded()
      reads this
    {
      old(refreshes) <= refreshes <= old(refreshes) + 1 && old(browsers) <= browsers <= old(browsers) + 1
    }

    /** A browser opened although a refresh was possible and none was tried. */
    twostate predicate Skipped(stored: Option<TokenStore.Token>, rejected: string)
      reads this
    {
      && browsers == old(browsers) + 1 && refreshes == old(refreshes)
      && stored.Some? && stored.value.refresh != "" && (rejected == "" || rejected != old(lastRefreshed))
    }

    /** A refresh was asked for if one was possible; if not, the browser was opened, unless its last token is the refused one. */
    twostate predicate Tried(stored: Option<TokenStore.Token>, rejected: string)
      reads this
    {
      if stored.Some? && stored.value.refresh != "" && (rejected == "" || rejected != old(lastRefreshed)) then
        refreshes == old(refreshes) + 1
      else if rejected == "" || rejected != old(lastLoggedIn) then browsers == old(browsers) + 1
      else Free()
    }

    /** A lone process that can reach the server, holds a client that is on file, and finds nothing to return. */
    ghost predicate MustTry(rejected: string, stale: bool)
      requires i < |w.s.procs|
      reads this, w
    {
      && w.lone && w.reachable && Synced() && !Foreign(Self())
      && (rejected == "" ==> !Fresh(cached, w.s.now)) && Useless(w.s.store, ClientID(Self()), w.s.now, rejected)
      && (SelfIssued(Self(), rejected) ==> stale)
    }

    twostate predicate SameCall()
      requires i < |w.s.procs| && i < |old(w.s).procs|
      reads this, w
    {
      && Self().op == old(Self()).op
      && Self().round == old(Self()).round
      && Self().logins == old(Self()).logins
    }

    /** The call and what this process got from its logins and refreshes are as they were. */
    twostate predicate SameHoldings()
      requires i < |w.s.procs| && i < |old(w.s).procs|
      reads this, w
    {
      SameCall() && cached == old(cached) && lastRefreshed == old(lastRefreshed) && lastLoggedIn == old(lastLoggedIn) && Free()
    }

    /** What the store holds under this key is this access token. */
    ghost predicate Stored(key: string, token: string)
      reads this, w
    {
      key in w.s.store && w.s.store[key].access == token
    }

    /** The token in memory is this one, stamped with the client in use and the issuer. */
    ghost predicate Kept(token: string)
      requires i < |w.s.procs|
      reads this, w
    {
      cached.Some? && cached.value.access == token && cached.value.client == ClientID(Self()) && cached.value.issuer == cfg.issuer
    }

    /** Other processes aside, the token store and the clock have not moved. */
    twostate predicate SameTokens()
      reads this, w
    {
      w.lone ==> w.s.store == old(w.s).store && old(w.s).now <= w.s.now
    }

    // ----- resourceKey, ensureClient -----

    method LeaveRegistration()
      modifies this`reg, this`cached, this`lastRefreshed, this`lastLoggedIn
      ensures reg == None && cached == None && lastRefreshed == "" && lastLoggedIn == ""
    {
      reg, cached := None, None;
      lastRefreshed, lastLoggedIn := "", "";
    }

    /** clientID */
    method Client() returns (c: string)
      requires Valid()
      ensures c == ClientID(Self())
    {
      if cfg.clientID != "" || reg.None? {
        return cfg.clientID;
      }
      return reg.value.client;
    }

    ghost predicate NeedsClient()
      reads this
    {
      cfg.clientID == "" && reg.None?
    }

    /** The client_id of the call, or None when there is none to be had. */
    method EnsureClient() returns (key: Option<string>)
      requires Valid() && Self().pc.Resolving?
      modifies this, w
      ensures Valid() && SameHoldings() && SameTokens()
      ensures key.Some? ==> Self().pc.Keyed? && key.value == Self().key == ClientID(Self()) && !NeedsClient()
      ensures key.None? ==> Self().pc == Idle(Failed)
      ensures key.Some? && w.lone ==> if old(NeedsClient()) then Synced() else reg == old(reg) && w.s.regs == old(w.s.regs)
      ensures key.Some? && w.lone && old(NeedsClient()) && cfg.redirect !in old(w.s.regs) ==> key.value !in w.s.store
      ensures !old(NeedsClient()) ==> key.Some? && (w.lone ==> w.s.tokLock == old(w.s.tokLock))
    {
      hide OthersRan, Inv, LocalInv;
      var ok := ResourceKey();
      if !ok {
        return None;
      }
      if cfg.clientID == "" && reg.None? {
        key := RegisterClient();
        return;
      }
      var c := Client();
      return Some(c);
    }

    /** resourceKey: the client in use, or the one on file, or none yet. */
    method ResourceKey() returns (ok: bool)
      requires Valid() && Self().pc.Resolving?
      modifies this`reg, w
      ensures Valid() && SameHoldings()
      ensures w.lone ==> TimePassed(old(w.s).(procs := w.s.procs), w.s)
      ensures !ok ==> Self().pc == Idle(Failed)
      ensures ok ==> if NeedsClient() then Self().pc.RegWait? else Self().pc.Keyed? && Self().key == ClientID(Self())
      ensures !old(NeedsClient()) ==> ok && reg == old(reg)
      ensures ok && w.lone && old(NeedsClient()) ==> NeedsClient() || Synced()
      ensures ok && w.lone && old(NeedsClient()) ==> (NeedsClient() <==> cfg.redirect !in w.s.regs)
    {
      hide OthersRan, Inv, LocalInv;
      w.Interfere(i);
      var fail := w.FileFails();
      var discovered := w.Discovers();
      var record := if cfg.redirect in w.s.regs then Some(w.s.regs[cfg.redirect]) else None;
      w.Take(i, Resolve(fail, discovered));
      ok := true;
      if cfg.clientID == "" && reg.None? {
        if fail || record == Some(Corrupt) || (record.None? && !discovered) {
          return false;
        }
        if record.Some? {
          reg := Some(record.value.reg);
        }
      }
    }

    /** The part of ensureClient around the registration lock. */
    method RegisterClient() returns (key: Option<string>)
      requires Valid() && Self().pc.RegWait? && cfg.clientID == ""
      modifies this, w
      ensures Valid() && SameHoldings() && SameTokens()
      ensures key.Some? ==> Self().pc.Keyed? && key.value == Self().key == ClientID(Self()) && !NeedsClient()
      ensures key.None? ==> Self().pc == Idle(Failed)
      ensures key.Some? && w.lone ==> Synced()
      ensures key.Some? && w.lone && cfg.redirect !in old(w.s.regs) ==> key.value !in w.s.store
    {
      hide OthersRan, Inv, LocalInv, NextServer, NextTokLock, NextRegLock;
      w.Interfere(i);
      if cfg.redirect in w.s.regLock {
        w.Take(i, CancelReg);
        return None;
      }
      w.Take(i, LockReg);
      var ok := AdoptOrRegister();
      w.Interfere(i);
      w.Take(i, UnlockReg);
      if !ok {
        return None;
      }
      var c := Client();
      return Some(c);
    }

    /** Another process may have registered while this one waited for the lock. */
    method AdoptOrRegister() returns (ok: bool)
      requires Valid() && Self().pc.RegLocked? && cfg.clientID == ""
      modifies this, w
      ensures Valid() && Self().pc == RegUnlock(ok) && SameHoldings() && SameTokens()
      ensures ok ==> reg.Some? && reg.value.issuer == cfg.issuer && Synced()
      ensures w.lone && old(Adoptable(Self(), w.s.regs)) ==>
        ok && reg.value == old(w.s.regs)[cfg.redirect].reg && w.s.srv.registrations == old(w.s.srv.registrations)
      ensures ok && w.lone && cfg.redirect !in old(w.s.regs) ==> ClientID(Self()) !in w.s.store
    {
      hide OthersRan, Inv, LocalInv, NextTokLock, NextRegLock;
      w.Interfere(i);
      var unreadable := w.FileFails();
      if !unreadable && Adoptable(w.s.procs[i], w.s.regs) {
        reg := Some(w.s.regs[cfg.redirect].reg);
        w.Take(i, ReadReg(unreadable));
        return true;
      }
      w.Take(i, ReadReg(unreadable));
      ok := RegisterNew();
    }

    method RegisterNew() returns (ok: bool)
      requires Valid() && Self().pc.Registering? && cfg.clientID == ""
      modifies this, w
      ensures Valid() && Self().pc == RegUnlock(ok) && SameHoldings() && SameTokens()
      ensures ok ==> reg.Some? && reg.value.issuer == cfg.issuer && Synced()
      ensures ok && w.lone ==> ClientID(Self()) !in w.s.store
    {
      hide OthersRan, Inv, LocalInv, NextServer, NextTokLock, NextRegLock;
      w.Interfere(i);
      var minted := Mint();
      w.Take(i, Register(minted));
      if minted.None? {
        return false;
      }
      ok := SaveRegistration();
    }

    /** The server's answer to a registration: a new client_id, or a refusal. */
    method Mint() returns (minted: Option<string>)
      requires Valid()
      ensures minted.Some? ==> NeverSeen(w.s, minted.value)
    {
      var c: string := *;
      minted := if NeverSeen(w.s, c) then Some(c) else None;
    }

    method SaveRegistration() returns (ok: bool)
      requires Valid() && Self().pc.RegSaving? && cfg.clientID == ""
      modifies this, w
      ensures Valid() && Self().pc == RegUnlock(ok) && SameHoldings() && SameTokens()
      ensures ok ==> reg == Some(old(Self().pc.minted)) && reg.value.issuer == cfg.issuer && Synced()
    {
      hide OthersRan, Inv, NextServer, NextTokLock, NextRegLock;
      w.Interfere(i);
      var fail := w.FileFails();
      if !fail {
        reg := Some(w.s.procs[i].pc.minted);
      }
      w.Take(i, SaveReg(fail));
      return !fail;
    }

    // ----- loginAndSave -----

    /** loginAndSave: one browser, and its token stamped, stored and remembered. */
    method LoginAndSave(key: string) returns (out: Outcome)
      requires Valid() && Self().pc.LoggingIn? && key == Self().key == ClientID(Self())
      modifies this, w
      ensures Valid() && Self().pc == Unlocking(out) && Self().op == old(Self().op) && Self().round == old(Self().round)
      ensures out.Failed? || out.Returned?
      ensures refreshes == old(refreshes) && browsers == old(browsers) + 1
      ensures reg == old(reg)
      ensures out.Returned? ==> out.token == lastLoggedIn && out.token != "" && Stored(key, out.token)
      ensures out.Returned? ==> cached == Some(w.s.store[key]) && cached.value.client == key && cached.value.issuer == cfg.issuer
      ensures out.Returned? && w.lone && old(Synced()) ==> Rank(out.token) == 0
      ensures w.lone ==> old(w.s.now) <= w.s.now
    {
      hide Rank, OthersRan, Inv, LocalInv, NextServer, NextTokLock, NextRegLock;
      w.Interfere(i);
      var login := BrowserLogin();
      w.Take(i, Browser(login));
      browsers := browsers + 1;
      if login.None? {
        return Failed;
      }
      out := KeepLogin(key);
    }

    method KeepLogin(key: string) returns (out: Outcome)
      requires Valid() && Self().pc.SavingLogin? && key == Self().key == ClientID(Self())
      requires Self().pc.granted.access != ""
      modifies this, w
      ensures Valid() && Self().pc == Unlocking(out) && Self().op == old(Self().op) && Self().round == old(Self().round)
      ensures out == Returned(lastLoggedIn) && out.token == old(Self().pc.granted.access) && Free() && reg == old(reg)
      ensures cached == Some(old(Self().pc.granted)) && Stored(key, out.token) && cached == Some(w.s.store[key])
      ensures w.lone && old(Synced()) ==> Rank(out.token) == 0
      ensures w.lone ==> old(w.s.now) <= w.s.now
    {
      hide OthersRan, Inv, LocalInv, NextServer, NextTokLock, NextRegLock;
      w.Interfere(i);
      var t := w.s.procs[i].pc.granted;
      w.Take(i, SaveLoggedIn);
      lastLoggedIn := t.access;
      cached := Some(t);
      return Returned(t.access);
    }

    /** The browser flow: a new token stamped with issuer and client, or an error. */
    method BrowserLogin() returns (login: Option<TokenStore.Token>)
      requires Valid()
      ensures login.Some? ==>
        Unused(w.s.srv, login.value.access) && login.value.issuer == cfg.issuer && login.value.client == ClientID(Self())
    {
      var t: TokenStore.Token := *;
      var c := Client();
      t := t.(issuer := cfg.issuer, client := c);
      login := if Unused(w.s.srv, t.access) then Some(t) else None;
    }

    // ----- dropClient -----

    /** True stands for errClientGone, false for a lock or file error. */
    method DropClient(key: string) returns (gone: bool)
      requires Valid() && Self().pc.DropToken? && key == Self().key
      modifies this, w
      ensures Valid() && Self().op == old(Self().op)
      ensures Self().op.TokenOp? ==>
        Self().pc == Unlocking(if gone then ClientGone else Failed) && Self().round == old(Self().round)
      ensures Self().op.LoginOp? ==> if gone then Self().pc.Resolving? && Self().round == 2 else Self().pc == Idle(Failed)
      ensures Left(Self()) && Free() && cfg.clientID == ""
      ensures gone && w.lone && old(Synced()) ==> cfg.redirect !in w.s.regs
      ensures w.lone ==> old(w.s.now) <= w.s.now
    {
      hide OthersRan, Inv, NextServer, NextTokLock, NextRegLock;
      w.Interfere(i);
      var fail := w.FileFails();
      w.Take(i, DeleteDropped(fail));
      LeaveRegistration();
      gone := DropRecordUnderLock();
    }

    method DropRecordUnderLock() returns (gone: bool)
      requires Valid() && Self().pc.DropWait?
      modifies w
      ensures Valid() && Self().op == old(Self().op)
      ensures Self().op.TokenOp? ==>
        Self().pc == Unlocking(if gone then ClientGone else Failed) && Self().round == old(Self().round)
      ensures Self().op.LoginOp? ==> if gone then Self().pc.Resolving? && Self().round == 2 else Self().pc == Idle(Failed)
      ensures gone && w.lone && StoredAs(old(w.s.regs), cfg.redirect, old(Self().pc.gone.client)) ==> cfg.redirect !in w.s.regs
      ensures w.lone ==> old(w.s.now) <= w.s.now
    {
      hide OthersRan, Inv, LocalInv, NextServer, NextTokLock, NextRegLock;
      w.Interfere(i);
      if cfg.redirect in w.s.regLock {
        w.Take(i, CancelDrop);
        return false;
      }
      w.Take(i, LockDrop);
      gone := DeleteOwnRecord();
      UnlockRecord(gone);
    }

    method UnlockRecord(gone: bool)
      requires Valid() && Self().pc == DropUnlock(gone)
      modifies w
      ensures Valid() && Self().op == old(Self().op)
      ensures Self().op.TokenOp? ==>
        Self().pc == Unlocking(if gone then ClientGone else Failed) && Self().round == old(Self().round)
      ensures Self().op.LoginOp? ==> if gone then Self().pc.Resolving? && Self().round == 2 else Self().pc == Idle(Failed)
      ensures w.lone ==> w.s.regs == old(w.s.regs)
      ensures w.lone ==> old(w.s.now) <= w.s.now
    {
      hide OthersRan, Inv, LocalInv, NextServer, NextTokLock, NextRegLock;
      w.Interfere(i);
      w.Take(i, UnlockDrop);
    }

    /** The record is deleted only while it still is the dropped one. */
    method DeleteOwnRecord() returns (ok: bool)
      requires Valid() && Self().pc.DropLocked?
      modifies w
      ensures Valid() && Self().pc == DropUnlock(ok) && SameCall() && Free()
      ensures w.lone && StoredAs(old(w.s.regs), cfg.redirect, old(Self().pc.gone.client)) ==> cfg.redirect !in w.s.regs
      ensures w.lone ==> old(w.s.now) <= w.s.now
    {
      hide OthersRan, Inv, NextServer, NextTokLock, NextRegLock;
      w.Interfere(i);
      var unreadable := w.FileFails();
      var mine := !unreadable && StoredAs(w.s.regs, cfg.redirect, w.s.procs[i].pc.gone.client);
      w.Take(i, ReadDrop(unreadable));
      if !mine {
        return true;
      }
      w.Interfere(i);
      var fail := w.FileFails();
      w.Take(i, DeleteRecord(fail));
      return !fail;
    }

    // ----- refresh -----

    /** The token endpoint's answer: any that this server may give. */
    method AskForRefresh(key: string, stored: TokenStore.Token) returns (reply: RefreshReply)
      requires Valid()
      ensures MayAnswer(w.s.srv, key, stored.refresh, reply)
    {
      reply := *;
      if !MayAnswer(w.s.srv, key, stored.refresh, reply) {
        reply := OtherError;
      }
    }

    /** The POST of the refresh grant. */
    method PostRefresh(key: string, stored: TokenStore.Token) returns (reply: RefreshReply)
      requires Valid() && Self().pc == Refreshing(stored) && key == Self().key
      modifies this`refreshes, w
      ensures Valid() && SameCall() && Self().key == old(Self().key)
      ensures refreshes == old(refreshes) + 1
      ensures w.lone ==> w.s.regs == old(w.s.regs)
      ensures match reply
              case Granted(_) => Self().pc.SavingRefresh? && Self().pc.refreshed.access != ""
              case InvalidGrant => Self().pc.DeletingStale?
              case InvalidClient => Self().pc == if reg.Some? then DropToken else Unlocking(Failed)
              case OtherError => Self().pc == Unlocking(Failed)
      ensures w.lone ==> old(w.s.now) <= w.s.now
    {
      hide OthersRan, Inv, LocalInv, NextTokLock, NextRegLock;
      w.Interfere(i);
      reply := AskForRefresh(key, stored);
      w.Take(i, Exchange(reply));
      refreshes := refreshes + 1;
    }

    /** The refresh exchange and what follows from its answer. */
    method Refresh(key: string, stored: TokenStore.Token, rejected: string) returns (out: Outcome)
      requires Valid() && Self().pc == Refreshing(stored) && key == Self().key == ClientID(Self())
      requires Self().op.TokenOp? && rejected == Self().op.rejected
      modifies this, w
      ensures Valid() && Self().pc == Unlocking(out) && Self().op == old(Self().op) && Self().round == old(Self().round)
      ensures Bounded() && (out.ClientGone? ==> browsers == old(browsers) && Left(Self()) && cfg.clientID == "")
      ensures refreshes == old(refreshes) + 1
      ensures browsers == old(browsers) + 1 ==> rejected == "" || rejected != old(lastLoggedIn)
      ensures !out.Done? && (out.Returned? ==> Stored(key, out.token))
      ensures out.Returned? && w.lone && old(Synced()) ==> Rank(out.token) == 0
      ensures out.ClientGone? && w.lone && old(Synced()) ==> cfg.redirect !in w.s.regs
      ensures w.lone ==> old(w.s.now) <= w.s.now
    {
      hide Rank, OthersRan, Inv, LocalInv;
      var reply := PostRefresh(key, stored);
      match reply
      case Granted(_) =>
        out := KeepRefreshed(key);
      case InvalidGrant =>
        out := AfterInvalidGrant(key, rejected);
      case InvalidClient =>
        out := Failed;
        if reg.Some? {
          var gone := DropClient(key);
          out := if gone then ClientGone else Failed;
        }
      case OtherError =>
        out := Failed;
    }

    method KeepRefreshed(key: string) returns (out: Outcome)
      requires Valid() && Self().pc.SavingRefresh? && key == Self().key == ClientID(Self())
      requires Self().pc.refreshed.access != ""
      modifies this, w
      ensures Valid() && Self().pc == Unlocking(out) && Self().op == old(Self().op) && Self().round == old(Self().round)
      ensures out == Returned(lastRefreshed) && out.token != "" && Free()
      ensures cached == Some(old(Self().pc.refreshed)) && Stored(key, out.token) && cached == Some(w.s.store[key])
      ensures w.lone && old(Synced()) ==> Rank(out.token) == 0
      ensures w.lone ==> old(w.s.now) <= w.s.now
    {
      hide OthersRan, Inv, LocalInv, NextServer, NextTokLock, NextRegLock;
      w.Interfere(i);
      var t := Self().pc.refreshed;
      w.Take(i, SaveRefreshed);
      lastRefreshed := t.access;
      cached := Some(t);
      return Returned(t.access);
    }

    /** The stale token goes, and the browser is next, unless it was the browser's own. */
    method AfterInvalidGrant(key: string, rejected: string) returns (out: Outcome)
      requires Valid() && Self().pc.DeletingStale? && key == Self().key == ClientID(Self())
      requires Self().op.TokenOp? && rejected == Self().op.rejected
      modifies this, w
      ensures Valid() && Self().pc == Unlocking(out) && Self().op == old(Self().op) && Self().round == old(Self().round)
      ensures out.Failed? || out.Returned?
      ensures refreshes == old(refreshes)
      ensures browsers == old(browsers) + if rejected != "" && rejected == old(lastLoggedIn) then 0 else 1
      ensures out.Returned? ==> Stored(key, out.token)
      ensures out.Returned? && w.lone && old(Synced()) ==> Rank(out.token) == 0
      ensures w.lone ==> old(w.s.now) <= w.s.now
    {
      hide Rank, OthersRan, Inv, LocalInv, NextServer, NextTokLock, NextRegLock;
      w.Interfere(i);
      var fail := w.FileFails();
      w.Take(i, DeleteStale(fail));
      if rejected != "" && rejected == lastLoggedIn {
        return Failed;
      }
      out := LoginAndSave(key);
    }

    // ----- obtain -----

    /** obtain, from discovery on. */
    method RefreshOrLogin(key: string, stored: Option<TokenStore.Token>, rejected: string) returns (out: Outcome)
      requires Valid() && Self().pc == Loaded(stored) && key == Self().key == ClientID(Self())
      requires Self().op.TokenOp? && rejected == Self().op.rejected
      modifies this, w
      ensures Valid() && Self().pc == Unlocking(out) && Self().op == old(Self().op) && Self().round == old(Self().round)
      ensures Bounded() && (out.ClientGone? ==> browsers == old(browsers) && Left(Self()) && cfg.clientID == "")
      ensures !out.Done? && (out.Returned? ==> Stored(key, out.token))
      ensures refreshes == old(refreshes) + 1 ==>
        stored.Some? && stored.value.refresh != "" && (rejected == "" || rejected != old(lastRefreshed))
      ensures !Skipped(stored, rejected)
      ensures browsers == old(browsers) + 1 ==> rejected == "" || rejected != old(lastLoggedIn)
      ensures out.Returned? ==> !Free()
      ensures out.ClientGone? && !old(Foreign(Self())) ==> refreshes == old(refreshes) + 1
      ensures w.reachable && !old(Foreign(Self())) ==> Tried(stored, rejected)
      ensures out.Returned? && w.lone && old(Synced()) ==> Rank(out.token) == 0
      ensures out.ClientGone? && w.lone && old(Synced()) ==> cfg.redirect !in w.s.regs
      ensures w.lone ==> old(w.s.now) <= w.s.now
    {
      hide Rank, OthersRan, Inv, LocalInv, NextServer, NextTokLock, NextRegLock;
      var discovered := Discover();
      if !discovered {
        return Failed;
      }
      if cfg.clientID == "" && reg.Some? && reg.value.issuer != cfg.issuer {
        var gone := DropClient(key);
        return if gone then ClientGone else Failed;
      }
      if stored.Some? && stored.value.refresh != "" && (rejected == "" || rejected != lastRefreshed) {
        out := Refresh(key, stored.value, rejected);
      } else if rejected != "" && rejected == lastLoggedIn {
        out := Failed;
      } else {
        out := LoginAndSave(key);
      }
    }

    /** The server's endpoints, found or not; what comes next is settled by what was loaded. */
    method Discover() returns (discovered: bool)
      requires Valid() && Self().pc.Loaded?
      modifies w
      ensures Valid() && Self() == AfterDecide(old(Self()), discovered)
      ensures w.lone ==> TimePassed(old(w.s).(procs := w.s.procs), w.s)
      ensures w.reachable ==> discovered
    {
      hide OthersRan, Inv, LocalInv;
      w.Interfere(i);
      discovered := w.Discovers();
      w.Take(i, Decide(discovered));
    }

    /** The re-load under the lock: an answer at once, or the stored token to work from. */
    method Reload(key: string, rejected: string, stale: bool) returns (answer: Option<Outcome>, stored: Option<TokenStore.Token>)
      requires Valid() && Self().pc.Loading? && Self().op == TokenOp(rejected, stale) && key == Self().key == ClientID(Self())
      modifies this`cached, w
      ensures Valid() && SameCall() && Self().key == old(Self().key)
      ensures Self().pc == if answer.Some? then Unlocking(answer.value) else Loaded(stored)
      ensures answer.Some? ==> answer.value.Failed? || (answer.value.Returned? && Stored(key, answer.value.token))
      ensures w.lone ==> TimePassed(old(w.s).(procs := w.s.procs), w.s)
      ensures stored == Lookup(w.s.store, key)
      ensures answer.Some? && answer.value.Returned? ==>
        !Useless(w.s.store, key, w.s.now, rejected) && stored.value.access == answer.value.token && cached == stored
      ensures !stale && SelfIssued(Self(), rejected) && Useless(w.s.store, key, w.s.now, rejected) ==> answer == Some(Failed)
      ensures answer.None? ==> Useless(w.s.store, key, w.s.now, rejected) && (SelfIssued(Self(), rejected) ==> stale)
      ensures w.lone && answer == Some(Failed) ==>
        SelfIssued(Self(), rejected) && !stale && Useless(w.s.store, key, w.s.now, rejected)
    {
      hide OthersRan, Inv, LocalInv;
      w.Interfere(i);
      var fail := w.FileFails();
      stored := Lookup(w.s.store, key);
      w.Take(i, LoadTok(fail));
      if fail {
        return Some(Failed), stored;
      }
      if Fresh(stored, w.s.now) && stored.value.access != rejected {
        cached := stored;
        return Some(Returned(stored.value.access)), stored;
      }
      if rejected != "" && (rejected == lastRefreshed || rejected == lastLoggedIn) && !stale {
        return Some(Failed), stored;
      }
      answer := None;
    }

    /** obtain after clientReplaced. */
    method FromStore(key: string, rejected: string, stale: bool) returns (out: Outcome)
      requires Valid() && Self().pc.Loading? && Self().op == TokenOp(rejected, stale) && key == Self().key == ClientID(Self())
      modifies this, w
      ensures Valid() && Self().pc == Unlocking(out) && Self().op == old(Self().op) && Self().round == old(Self().round)
      ensures Bounded() && (out.ClientGone? ==> browsers == old(browsers) && Left(Self()) && cfg.clientID == "")
      ensures !out.Done? && (out.Returned? ==> Stored(key, out.token))
      ensures w.lone && key !in old(w.s.store) ==> refreshes == old(refreshes)
      ensures w.lone ==> !Skipped(Lookup(old(w.s.store), key), rejected)
      ensures out.ClientGone? && !old(Foreign(Self())) ==> refreshes == old(refreshes) + 1
      ensures w.lone && old(MustTry(rejected, stale)) ==> Tried(Lookup(old(w.s.store), key), rejected)
      ensures w.lone ==> old(w.s.now) <= w.s.now
      ensures w.lone && !Useless(old(w.s.store), key, w.s.now, rejected) ==> out.Returned? && Free()
      ensures out.Returned? && w.lone && old(Synced()) ==>
        Rank(out.token) == 0 || (Free() && Rank(out.token) == 1 && !Useless(old(w.s.store), key, old(w.s.now), rejected))
      ensures out.ClientGone? && w.lone && old(Synced()) ==> cfg.redirect !in w.s.regs
      ensures w.lone && !stale && old(SelfIssued(Self(), rejected)) && Useless(old(w.s.store), key, old(w.s.now), rejected) ==>
        out.Failed? && Free()
    {
      hide OthersRan, Inv, LocalInv;
      var answer, stored := Reload(key, rejected, stale);
      if answer.Some? {
        return answer.value;
      }
      out := RefreshOrLogin(key, stored, rejected);
    }

    /** obtain */
    method Obtain(key: string, rejected: string, stale: bool) returns (out: Outcome)
      requires Valid() && Self().pc.Checking? && Self().op == TokenOp(rejected, stale) && key == Self().key == ClientID(Self())
      requires !NeedsClient()
      modifies this, w
      ensures Valid() && Self().pc == Unlocking(out) && Self().op == old(Self().op) && Self().round == old(Self().round)
      ensures Bounded() && (out.ClientGone? ==> browsers == old(browsers) && Left(Self()) && cfg.clientID == "")
      ensures !out.Done? && (out.Returned? ==> Stored(key, out.token))
      ensures w.lone && key !in old(w.s.store) ==> refreshes == old(refreshes)
      ensures w.lone ==> !Skipped(Lookup(old(w.s.store), key), rejected)
      ensures w.lone && out.ClientGone? && old(Synced() && !Foreign(Self())) ==> refreshes == old(refreshes) + 1
      ensures out.Returned? && w.lone ==> old(Synced())
      ensures out.Returned? && w.lone ==>
        Rank(out.token) == 0 || (Free() && Rank(out.token) == 1 && !Useless(old(w.s.store), key, old(w.s.now), rejected))
      ensures out.ClientGone? && w.lone ==> if old(Synced()) then cfg.redirect !in w.s.regs else Free()
      ensures w.lone && old(Rank(rejected)) == 0 && !stale ==> out.Failed? && Free()
      ensures old(MustTry(rejected, stale)) ==> Tried(Lookup(old(w.s.store), key), rejected)
      ensures w.lone ==> old(w.s.now) <= w.s.now
      ensures w.lone && old(Synced()) && !Useless(old(w.s.store), key, w.s.now, rejected) ==> out.Returned? && Free()
    {
      hide OthersRan, Inv, LocalInv, NextServer, NextTokLock, NextRegLock;
      w.Interfere(i);
      var fail := w.FileFails();
      var replaced := Replaced(w.s.procs[i], w.s.regs, fail);
      w.Take(i, CheckClient(fail));
      if replaced {
        LeaveRegistration();
        return ClientGone;
      }
      out := FromStore(key, rejected, stale);
    }

    // ----- token and Token -----

    /** The lock for the time of obtain; or the end of the wait for it, with nothing done. */
    method WithTokenLock(key: string, rejected: string, stale: bool) returns (out: Outcome, locked: bool)
      requires Valid() && Self().pc.TokWait? && Self().op == TokenOp(rejected, stale) && key == Self().key == ClientID(Self())
      requires !NeedsClient()
      modifies this, w
      ensures Valid() && Self().op == old(Self().op)
      ensures if out.ClientGone? && old(Self().round) == 1 then Self().pc.Resolving? && Self().round == 2 else Self().pc == Idle(out)
      ensures Bounded() && (out.ClientGone? ==> browsers == old(browsers) && Left(Self()) && cfg.clientID == "")
      ensures !out.Done?
      ensures w.lone && key !in old(w.s.store) ==> refreshes == old(refreshes)
      ensures w.lone ==> !Skipped(Lookup(old(w.s.store), key), rejected)
      ensures w.lone && out.ClientGone? && old(Synced() && !Foreign(Self())) ==> refreshes == old(refreshes) + 1
      ensures out.Returned? && w.lone ==> old(Synced())
      ensures out.Returned? && w.lone ==>
        Rank(out.token) == 0 || (Free() && Rank(out.token) == 1 && !Useless(old(w.s.store), key, old(w.s.now), rejected))
      ensures out.ClientGone? && w.lone ==> if old(Synced()) then cfg.redirect !in w.s.regs else Free()
      ensures w.lone && old(Rank(rejected)) == 0 && !stale ==> out.Failed? && Free()
      ensures !locked ==> out == Failed && SameHoldings() && key in w.s.tokLock
      ensures w.lone ==> (locked <==> key !in old(w.s.tokLock))
      ensures locked && old(MustTry(rejected, stale)) ==> Tried(Lookup(old(w.s.store), key), rejected)
      ensures w.lone ==> old(w.s.now) <= w.s.now
      ensures locked && w.lone && old(Synced()) && !Useless(old(w.s.store), key, w.s.now, rejected) ==> out.Returned? && Free()
    {
      hide OthersRan, Inv, LocalInv;
      locked := Acquire(key);
      if !locked {
        return Failed, false;
      }
      out := Obtain(key, rejected, stale);
      Release(out);
    }

    /** TryLockContext: the lock, or the end of the context. */
    method Acquire(key: string) returns (locked: bool)
      requires Valid() && Self().pc.TokWait? && key == Self().key
      modifies w
      ensures Valid() && SameCall() && Self().key == key
      ensures Self().pc == if !locked then Idle(Failed) else if Self().op.LoginOp? then LoggingIn else Checking
      ensures w.lone ==> w.s.store == old(w.s).store && w.s.regs == old(w.s).regs && old(w.s).now <= w.s.now
      ensures !locked ==> SameHoldings() && key in w.s.tokLock
      ensures w.lone ==> (locked <==> key !in old(w.s.tokLock))
    {
      hide OthersRan, Inv, LocalInv, NextServer, NextRegLock;
      w.Interfere(i);
      locked := key !in w.s.tokLock;
      w.Take(i, if locked then LockTok else CancelTok);
    }

    method Release(out: Outcome)
      requires Valid() && Self().pc == Unlocking(out)
      modifies w
      ensures Valid() && Self().op == old(Self().op) && Self().key == old(Self().key)
      ensures if out.ClientGone? && old(Self().round) == 1 then Self().pc.Resolving? && Self().round == 2 else Self().pc == Idle(out)
      ensures w.lone ==> w.s.store == old(w.s.store) && w.s.regs == old(w.s.regs) && old(w.s.now) <= w.s.now
    {
      hide OthersRan, Inv, LocalInv, NextServer, NextRegLock;
      w.Interfere(i);
      w.Take(i, UnlockTok);
    }


    /** token: one round. */
    method Round(rejected: string, stale: bool) returns (out: Outcome)
      requires Valid() && Self().pc.Resolving? && Self().op == TokenOp(rejected, stale)
      modifies this, w
      ensures Valid() && Self().op == old(Self().op)
      ensures if out.ClientGone? && old(Self().round) == 1 then Self().pc.Resolving? && Self().round == 2 else Self().pc == Idle(out)
      ensures Bounded() && (out.ClientGone? ==> browsers == old(browsers) && Left(Self()) && cfg.clientID == "")
      ensures w.lone && old(Synced()) ==> !Skipped(Lookup(old(w.s.store), old(ClientID(Self()))), rejected)
      ensures w.lone && out.ClientGone? && old(Synced() && !Foreign(Self())) ==> refreshes == old(refreshes) + 1
      ensures w.lone && out.Returned? ==>
        || Rank(out.token) == 0
        || (Free() && (rejected == "" || (Rank(out.token) == 1 && old(Rank(rejected)) == 2)))
      ensures w.lone && out.ClientGone? && (!Free() || old(Rank(rejected)) <= 1) ==> cfg.redirect !in w.s.regs
      ensures w.lone && old(NeedsClient() && Left(Self()) && cfg.redirect !in w.s.regs) ==>
        refreshes == old(refreshes) && (out.Returned? ==> Rank(out.token) == 0)
      ensures w.lone && old(Rank(rejected)) == 0 && rejected != "" && !stale ==> out.Failed? && Free()
      ensures old(MustTry(rejected, stale) && ClientID(Self()) !in w.s.tokLock) ==>
        Tried(Lookup(old(w.s.store), old(ClientID(Self()))), rejected)
      ensures w.lone && rejected == "" && !old(NeedsClient()) && Fresh(old(cached), w.s.now) ==>
        out == Returned(old(cached).value.access) && Free()
      ensures w.lone && old(Synced() && ClientID(Self()) !in w.s.tokLock) ==>
        Useless(old(w.s.store), old(ClientID(Self())), w.s.now, rejected) || (out.Returned? && Free())
      ensures w.lone ==> old(w.s.now) <= w.s.now
    {
      hide OthersRan, Inv, NextServer, NextTokLock, NextRegLock;
      var key := EnsureClient();
      if key.None? {
        return Failed;
      }
      var quick := FastPath(key.value, rejected);
      if quick.Some? {
        return quick.value;
      }
      var locked: bool;
      out, locked := WithTokenLock(key.value, rejected, stale);
    }

    /** A fresh token in memory or in the store, when nothing was refused. */
    method FastPath(key: string, rejected: string) returns (out: Option<Outcome>)
      requires Valid() && Self().pc.Keyed? && key == Self().key == ClientID(Self())
      requires Self().op.TokenOp? && rejected == Self().op.rejected
      modifies this`cached, w
      ensures Valid() && SameCall() && Self().key == old(Self().key)
      ensures Self().pc == if out.Some? then Idle(out.value) else TokWait
      ensures out.Some? ==> rejected == "" && Fresh(cached, w.s.now) && out.value == Returned(cached.value.access)
      ensures cached == old(cached) || (!Fresh(old(cached), w.s.now) && cached == Lookup(w.s.store, key))
      ensures out.None? && rejected == "" ==> !Fresh(cached, w.s.now) && (w.lone ==> !Fresh(Lookup(w.s.store, key), w.s.now))
      ensures w.lone ==> TimePassed(old(w.s).(procs := w.s.procs), w.s)
      ensures w.lone && old(cached).None? && key !in w.s.store ==> out.None?
    {
      hide OthersRan, Inv, LocalInv;
      w.Interfere(i);
      var unreadable := w.FileFails();
      var stored := Lookup(w.s.store, key);
      w.Take(i, Proceed(unreadable));
      if rejected == "" {
        if Fresh(cached, w.s.now) {
          return Some(Returned(cached.value.access));
        }
        if !unreadable && Fresh(stored, w.s.now) {
          cached := stored;
          return Some(Returned(stored.value.access));
        }
      }
      out := None;
    }

    /**
      Token: a second round when the registration turned out to be gone, and no
      third.  For a lone process the refused token's rank goes down with every
      call, or the call spends the one refresh and the one login there are.
    */
    method Token(rejected: string, stale: bool) returns (out: Outcome)
      requires Valid() && Enabled(w.s, i, BeginToken(rejected, stale))
      modifies this, w
      ensures Valid() && Self().pc == Idle(out)
      ensures out.Returned? ==> out.token != "" && out.token != rejected && out.token in w.s.srv.accessIssued
      ensures w.lone ==> Bounded()
      ensures w.lone && old(Synced() && !Foreign(Self())) ==> !Skipped(Lookup(old(w.s.store), old(ClientID(Self()))), rejected)
      ensures w.lone && out.Returned? ==>
        Rank(out.token) == 0 || (Free() && (rejected == "" || Rank(out.token) < old(Rank(rejected))))
      ensures w.lone && old(Rank(rejected)) == 0 && rejected != "" && !stale ==> !out.Returned? && Free()
      ensures old(MustTry(rejected, stale) && ClientID(Self()) !in w.s.tokLock) ==>
        Tried(Lookup(old(w.s.store), old(ClientID(Self()))), rejected)
      ensures w.lone && rejected == "" && !old(NeedsClient()) && Fresh(old(cached), w.s.now) ==>
        out == Returned(old(cached).value.access) && Free()
      ensures w.lone && old(Synced() && ClientID(Self()) !in w.s.tokLock) ==>
        Useless(old(w.s.store), old(ClientID(Self())), w.s.now, rejected) || (out.Returned? && Free())
    {
      hide Inv, OthersRan, Rank;
      BeginCall(rejected, stale);
      out := Round(rejected, stale);
      if out.ClientGone? {
        out := Round(rejected, stale);
      }
      Answered(w.s, i, out);
    }

    method BeginCall(rejected: string, stale: bool)
      requires Valid() && Enabled(w.s, i, BeginToken(rejected, stale))
      modifies w
      ensures Valid() && Self().pc.Resolving? && Self().op == TokenOp(rejected, stale) && Self().round == 1
      ensures Rank(rejected) == old(Rank(rejected)) && Synced() == old(Synced())
      ensures w.s.store == old(w.s.store) && ClientID(Self()) == old(ClientID(Self())) && Foreign(Self()) == old(Foreign(Self()))
      ensures w.s.tokLock == old(w.s.tokLock) && w.s.now == old(w.s.now)
      ensures MustTry(rejected, stale) == old(MustTry(rejected, stale))
    {
      hide OthersRan, Inv;
      w.Take(i, BeginToken(rejected, stale));
    }

    // ----- Login and Forget -----

    /** Login: one browser, unconditionally; a registration made at another issuer is dropped first. */
    method Login() returns (out: Outcome)
      requires Valid() && Self().pc.Idle?
      modifies this, w
      ensures Valid() && Self().pc.Idle?
      ensures browsers <= old(browsers) + 1 && refreshes == old(refreshes)
      ensures out.Returned? ==> browsers == old(browsers) + 1 && out.token == lastLoggedIn
      ensures out.Returned? ==> Kept(out.token) && (w.lone ==> Stored(ClientID(Self()), out.token))
      ensures w.lone && w.reachable && old(!NeedsClient() && !Foreign(Self()) && ClientID(Self()) !in w.s.tokLock) ==>
        browsers == old(browsers) + 1
    {
      hide Rank, OthersRan, Inv, LocalInv, NextServer, NextRegLock;
      var discovered := w.Discovers();
      if !discovered {
        return Failed;
      }
      w.Take(i, BeginLogin);
      var key := ClientForLogin();
      if key.None? {
        return Failed;
      }
      out := LoginUnderLock(key.value);
    }

    /** The client to log in with: one made at another issuer is dropped first, and another registered. */
    method ClientForLogin() returns (key: Option<string>)
      requires Valid() && Self().pc.Resolving? && Self().op.LoginOp? && Self().round == 1
      modifies this, w
      ensures Valid() && Self().op.LoginOp? && Free()
      ensures if key.Some? then Self().pc.TokWait? && key.value == Self().key == ClientID(Self()) else Self().pc.Idle?
      ensures w.lone && old(!NeedsClient() && !Foreign(Self())) ==>
        key == Some(old(ClientID(Self()))) && w.s.tokLock == old(w.s.tokLock)
    {
      hide Rank, OthersRan, Inv, LocalInv, NextServer, NextRegLock;
      key := EnsureClient();
      if key.None? {
        return;
      }
      var foreign := cfg.clientID == "" && reg.Some? && reg.value.issuer != cfg.issuer;
      w.Interfere(i);
      w.Take(i, Proceed(false));
      if !foreign {
        return;
      }
      var gone := DropClient(key.value);
      if !gone {
        return None;
      }
      key := EnsureClient();
      if key.Some? {
        w.Interfere(i);
        w.Take(i, Proceed(false));
      }
    }

    method LoginUnderLock(key: string) returns (out: Outcome)
      requires Valid() && Self().pc.TokWait? && Self().op.LoginOp? && key == Self().key == ClientID(Self())
      modifies this, w
      ensures Valid() && Self().pc == Idle(out)
      ensures browsers <= old(browsers) + 1 && refreshes == old(refreshes)
      ensures out.Returned? ==> browsers == old(browsers) + 1 && out.token == lastLoggedIn
      ensures out.Returned? ==> Kept(out.token) && (w.lone ==> Stored(ClientID(Self()), out.token))
      ensures w.lone && key !in old(w.s.tokLock) ==> browsers == old(browsers) + 1
    {
      hide Rank, OthersRan, Inv, LocalInv;
      var locked := Acquire(key);
      if !locked {
        return Failed;
      }
      out := LoginAndSave(key);
      Release(out);
    }

    /** The client_id whose token Forget is after: none without a readable registration. */
    ghost function Target(): Option<string>
      reads this, w
    {
      if cfg.clientID != "" then Some(cfg.clientID)
      else if reg.Some? then Some(reg.value.client)
      else if cfg.redirect in w.s.regs && w.s.regs[cfg.redirect].Good? then Some(w.s.regs[cfg.redirect].reg.client)
      else None
    }

    /**
      Forget: the stored token, and for a dynamic client its record, whoever
      holds the locks.  The results say what there was to drop.
    */
    method Forget() returns (token: bool, registration: bool, ok: bool)
      requires Valid() && Self().pc.Idle?
      modifies this, w
      ensures Valid() && Self().pc.Idle? && Free()
      ensures ok && w.lone ==> token == (old(Target()).Some? && old(Target()).value in old(w.s.store))
      ensures ok && w.lone && old(Target()).Some? ==> old(Target()).value !in w.s.store
      ensures ok && w.lone && cfg.clientID == "" ==>
        cfg.redirect !in w.s.regs && reg.None? && registration == (old(reg).Some? || cfg.redirect in old(w.s.regs))
      ensures ok && w.lone && cfg.clientID != "" ==> w.s.regs == old(w.s.regs) && !registration
    {
      hide OthersRan, Inv, NextServer, NextTokLock, NextRegLock;
      w.Take(i, BeginForget);
      var key, corrupt, failed := ResolveForForget();
      if failed {
        return false, false, false;
      }
      if corrupt {
        var deleted := DeleteAnyRecord();
        return false, true, deleted;
      }
      if key.None? {
        return false, false, true;
      }
      var present, deleted := DeleteToken(key.value);
      if !deleted {
        return false, false, false;
      }
      if reg.None? {
        return present, false, true;
      }
      ok := DeleteAnyRecord();
      return present, ok, ok;
    }

    method DeleteToken(key: string) returns (present: bool, ok: bool)
      requires Valid() && Self().pc.ForgetToken? && key == Self().key
      modifies w
      ensures Valid() && SameCall()
      ensures Self().pc == if !ok then Idle(Failed) else if reg.Some? then ForgetRecord else Idle(Done)
      ensures w.lone ==> ok && present == (key in old(w.s.store)) && key !in w.s.store && w.s.regs == old(w.s.regs)
    {
      hide OthersRan, Inv, LocalInv, NextServer, NextTokLock, NextRegLock;
      w.Interfere(i);
      var fail := w.FileFails();
      present := key in w.s.store;
      w.Take(i, ForgetDeleteToken(fail));
      return present, !fail;
    }

    /** resourceKey, as logout needs it: an unreadable record is something to delete. */
    method ResolveForForget() returns (key: Option<string>, corrupt: bool, failed: bool)
      requires Valid() && Self().pc.ForgetKey?
      modifies this`reg, w
      ensures Valid() && SameCall()
      ensures corrupt ==> !failed && key.None? && Self().pc.ForgetCorrupt? && reg.None?
      ensures failed ==> key.None?
      ensures key.Some? ==> Self().pc.ForgetToken? && key.value == Self().key == ClientID(Self()) && !NeedsClient()
      ensures key.None? && !corrupt ==> Self().pc.Idle?
      ensures key.None? && !failed && w.lone ==> cfg.clientID == "" && reg.None?
      ensures key.None? && !failed && !corrupt && w.lone ==> cfg.redirect !in w.s.regs
      ensures w.lone ==> TimePassed(old(w.s).(procs := w.s.procs), w.s)
      ensures w.lone && !failed ==> key == old(Target())
      ensures w.lone && !failed && cfg.clientID == "" ==>
        (reg.Some? || corrupt <==> old(reg).Some? || cfg.redirect in w.s.regs)
    {
      hide OthersRan, Inv, LocalInv;
      w.Interfere(i);
      var fail := w.FileFails();
      var record := if cfg.redirect in w.s.regs then Some(w.s.regs[cfg.redirect]) else None;
      w.Take(i, ForgetResolve(fail));
      if cfg.clientID == "" && reg.None? {
        if fail || record.None? {
          return None, false, fail;
        }
        if record.value.Corrupt? {
          return None, true, false;
        }
        reg := Some(record.value.reg);
      }
      var c := Client();
      return Some(c), false, false;
    }

    method DeleteAnyRecord() returns (ok: bool)
      requires Valid() && (Self().pc.ForgetRecord? || (Self().pc.ForgetCorrupt? && reg.None?))
      modifies this`reg, this`cached, this`lastRefreshed, this`lastLoggedIn, w
      ensures Valid() && Self().pc.Idle?
      ensures ok ==> reg.None? && (old(Self().pc.ForgetRecord?) ==> Left(Self()))
      ensures w.lone ==> ok && cfg.redirect !in w.s.regs && w.s.store == old(w.s.store)
    {
      hide OthersRan, Inv, LocalInv;
      w.Interfere(i);
      var fail := w.FileFails();
      var corrupt := w.s.procs[i].pc.ForgetCorrupt?;
      w.Take(i, ForgetDeleteRecord(fail));
      if !fail && !corrupt {
        LeaveRegistration();
      }
      return !fail;
    }
  }
}
