/**
  A registration that cannot be read again under its lock is registered over:
  the run that OAuthSharing.TokenEvent leaves out, and what it does.
*/
module OAuthUnreadable {
  import opened Wrappers
  import opened TokenStore
  import opened OAuthProtocol
  import opened OAuthInvariant
  import opened OAuthTheorems
  import opened OAuthSharing
  import opened OAuthWindows

  const SHARED := Config("", "http://127.0.0.1/callback", "https://as")

  /** Two processes without a client, and nothing on file. */
  function Pair(): State {
    State(0, map[], map[], map[], map[], AuthServer(map[], {}, {}, map[], {}, multiset{}, multiset{}),
      [Unused(), Unused()])
  }

  function Unused(): Proc { Proc(SHARED, Idle(Failed), ForgetOp, 0, "", None, None, "", "", 0) }

  lemma ThenBy(s: State, run: seq<Event>, i: nat, a: Action) returns (longer: seq<Event>)
    requires Legal(s, run) && Possible(After(s, run), Do(i, a)) && OnlyCalls(run) && Ordinary(a)
    ensures longer == run + [Do(i, a)] && Legal(s, longer) && After(s, longer) == Apply(After(s, run), i, a)
    ensures OnlyCalls(longer)
  {
    longer := run + [Do(i, a)];
    Extended(s, run, Do(i, a));
  }

  function Waiting(): Proc { Unused().(pc := RegWait, op := TokenOp("", false), round := 1) }

  /** The first process finds no record, and waits for the registration lock. */
  lemma FirstWaits() returns (run: seq<Event>)
    ensures Legal(Pair(), run) && OnlyCalls(run)
    ensures After(Pair(), run) == Pair().(procs := [Waiting(), Unused()])
  {
    run := [];
    assert After(Pair(), run) == Pair();
    run := ThenBy(Pair(), run, 0, BeginToken("", false));
    run := ThenBy(Pair(), run, 0, Resolve(false, true));
  }

  /** Meanwhile the second gets that lock, and finds none either. */
  lemma SecondLocks() returns (run: seq<Event>)
    ensures Legal(Pair(), run) && OnlyCalls(run)
    ensures After(Pair(), run) ==
      Pair().(procs := [Waiting(), Waiting().(pc := Registering)], regLock := map[SHARED.redirect := 1])
  {
    hide Legal, After, OnlyCalls;
    run := FirstWaits();
    run := ThenBy(Pair(), run, 1, BeginToken("", false));
    run := ThenBy(Pair(), run, 1, Resolve(false, true));
    run := ThenBy(Pair(), run, 1, LockReg);
    run := ThenBy(Pair(), run, 1, ReadReg(false));
  }

  const RECORD := Registration("c1", "https://as")

  /** It registers, and its record is on file. */
  lemma SecondRegisters() returns (run: seq<Event>)
    ensures Legal(Pair(), run) && OnlyCalls(run)
    ensures var s := After(Pair(), run);
      && s.procs == [Waiting(), Waiting().(pc := Keyed, key := "c1", reg := Some(RECORD))]
      && s.regs == map[SHARED.redirect := Good(RECORD)] && s.store == map[]
      && s.tokLock == map[] && s.regLock == map[] && s.srv.issuerOf == map["c1" := "https://as"]
  {
    hide Legal, After, OnlyCalls;
    run := SecondLocks();
    run := ThenBy(Pair(), run, 1, Register(Some("c1")));
    run := ThenBy(Pair(), run, 1, SaveReg(false));
    run := ThenBy(Pair(), run, 1, UnlockReg);
  }

  /** Past the check that the record on file is still its own. */
  ghost predicate SecondIsPast(s: State) {
    |s.procs| == 2 && s.procs[1].pc.Loading? && s.procs[1].key == "c1" && s.procs[1].cfg == SHARED
  }

  /** It goes on to use its client. */
  lemma SecondGoesOn() returns (run: seq<Event>)
    ensures Legal(Pair(), run) && OnlyCalls(run)
    ensures var s := After(Pair(), run);
      && SecondIsPast(s) && s.procs[0] == Waiting()
      && s.regs == map[SHARED.redirect := Good(RECORD)] && s.store == map[]
      && s.regLock == map[] && s.srv.issuerOf == map["c1" := "https://as"]
  {
    hide Legal, After, OnlyCalls;
    run := SecondRegisters();
    run := ThenBy(Pair(), run, 1, Proceed(false));
    run := ThenBy(Pair(), run, 1, LockTok);
    run := ThenBy(Pair(), run, 1, CheckClient(false));
  }

  /** Now the first gets the lock, and cannot read the record. */
  lemma FirstCannotRead() returns (run: seq<Event>)
    ensures Legal(Pair(), run) && OnlyCalls(run)
    ensures var s := After(Pair(), run);
      && SecondIsPast(s) && s.procs[0] == Waiting().(pc := Registering)
      && s.store == map[] && s.srv.issuerOf == map["c1" := "https://as"]
  {
    hide Legal, After, OnlyCalls;
    run := SecondGoesOn();
    run := ThenBy(Pair(), run, 0, LockReg);
    run := ThenBy(Pair(), run, 0, ReadReg(true));
  }

  lemma PairIsInitial()
    ensures Initial(Pair()) && OneIssuer(Pair(), "https://as")
  {
  }

  /**
    It registers over the record: the second, past its check, is left with a
    client that is not on file.
  */
  lemma RecordIsOverwritten() returns (run: seq<Event>)
    ensures Initial(Pair()) && OneIssuer(Pair(), "https://as") && Legal(Pair(), run) && OnlyCalls(run)
    ensures var s := After(Pair(), run);
      |s.procs| == 2 && s.procs[1].cfg.clientID == "" && PastCheck(s.procs[1].pc)
      && !StoredAs(s.regs, s.procs[1].cfg.redirect, s.procs[1].key)
  {
    hide Legal, After, OnlyCalls, Initial, OneIssuer;
    PairIsInitial();
    run := FirstCannotRead();
    run := ThenBy(Pair(), run, 0, Register(Some("c2")));
    run := ThenBy(Pair(), run, 0, SaveReg(false));
  }
}
