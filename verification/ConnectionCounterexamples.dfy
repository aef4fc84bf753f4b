/**
  Runs in which what one would expect fails: two in which a clean connection is not durable, so that both exclusions of an
  orderly run are needed, and one in which a logout that ended well leaves the connection with tokens.
 */
module ConnectionCounterexamples {
  import opened Option
  import opened ConnectionModel
  import opened ConnectionDurability

  const K: Key := 10
  const R0: Token := 20
  const R1: Token := 21
  const Yes: Input := Input(None, R1, 31, 60, 0, true, 11)
  const SignedIn: State := Loaded("o", Cred(Some(K), Some(R0)))
  const H0: seq<Cred> := [Cred(Some(K), Some(R0))]
  const Out: Cred := Cred(Some(K), None)
  const In: Cred := Cred(Some(K), Some(R1))

  lemma Extends(es: seq<Event>, e: Event)
    requires FreshTokens(SignedIn, es) && FreshToken(Run(SignedIn, es), e)
    ensures Run(SignedIn, es + [e]) == Step(Run(SignedIn, es), e) && FreshTokens(SignedIn, es + [e])
  {
    assert (es + [e])[..|es|] == es;
  }

  /** Events other than the resumption of an activation bring no token. */
  lemma BringsNoToken(s: State, e: Event)
    requires !e.Advanced?
    ensures FreshToken(s, e)
  {
  }

  lemma NoEventsAreFresh()
    ensures FreshTokens(SignedIn, []) && Run(SignedIn, []) == SignedIn
  {
  }

  /** An activation that exchanges no token takes none. */
  lemma TakesNoToken(s: State, t: Id, i: Input)
    requires t in s.tasks && !s.tasks[t].at.RefreshExchange? && !s.tasks[t].at.LoginAuthorize?
    ensures FreshToken(s, Advanced(t, i))
  {
  }

  /** The parts of a state that the next steps look at. */
  predicate Shape(s: State, live: bool, c: Cred, gen: int, dirty: bool, saving: Option<Id>, next: Id, queue: seq<Write>, history: seq<Cred>) {
    && !s.closed && s.live == live && Creds(s.c) == c && s.c.generation == gen && s.c.dirty == dirty
    && s.c.saving == saving && s.next == next && s.disk.ready && s.disk.queue == queue && s.history == history
    && s.c.device.Some? && s.c.device.value.origin == s.c.origin
  }

  predicate TaskAt(s: State, t: Id, gen: int, at: Point) { t in s.tasks && s.tasks[t] == Task(gen, at) }

  // ---------------------------------------------------------------- a failed removal

  const removed: Write := Write(2, ByRemove(1), None, 1)
  const cleared: Write := Write(4, ByPersist(3, Out), None, 2)

  lemma RemovalStart()
    ensures var s := Step(Step(SignedIn, LogoutCalled), RemoveCalled);
            Shape(s, true, SignedIn.history[0], 2, false, None, 2, [], H0)
            && TaskAt(s, 0, 1, LogoutRevoke) && TaskAt(s, 1, 2, RemoveRevoke)
  {
  }

  lemma RemovalMiddle(s: State)
    requires Shape(s, true, SignedIn.history[0], 2, false, None, 2, [], H0)
    requires TaskAt(s, 0, 1, LogoutRevoke) && TaskAt(s, 1, 2, RemoveRevoke)
    ensures var s' := Step(s, Advanced(1, Yes));
            Shape(s', false, SignedIn.history[0], 2, false, None, 3, [removed], H0)
            && TaskAt(s', 0, 1, LogoutRevoke) && TaskAt(s', 1, 2, RemoveSave(2))
  {
  }

  lemma RemovalLogout(s: State)
    requires Shape(s, false, SignedIn.history[0], 2, false, None, 3, [removed], H0)
    requires TaskAt(s, 0, 1, LogoutRevoke) && TaskAt(s, 1, 2, RemoveSave(2))
    ensures var s' := Step(s, Advanced(0, Yes));
            Shape(s', false, Out, 2, true, Some(4), 5, [removed, cleared], H0 + [Out])
            && TaskAt(s', 3, 2, OwnSave(4)) && TaskAt(s', 1, 2, RemoveSave(2))
  {
  }

  lemma RemovalWrites(s: State)
    requires Shape(s, false, Out, 2, true, Some(4), 5, [removed, cleared], H0 + [Out])
    requires TaskAt(s, 3, 2, OwnSave(4)) && TaskAt(s, 1, 2, RemoveSave(2))
    ensures var s' := Step(Step(s, WriteSettled(false)), WriteSettled(true));
            s'.live && !s'.c.dirty && Creds(s'.c) == Out && s'.disk.queue == [] && s'.disk.file == None
  {
  }

  /** The logout's save is taken while the connection is out of the map; the removal's save fails and puts it back. */
  lemma FailedRemovalLosesTheRecord()
    ensures exists es ::
              var s := Run(SignedIn, es);
              FreshTokens(SignedIn, es)
              && s.live && !s.c.dirty && Creds(s.c) == Out && s.disk.queue == [] && s.disk.file == None
  {
    hide Step, Shape, Run, FreshTokens, FreshToken;
    NoEventsAreFresh();
    var es1 := [] + [LogoutCalled];
    BringsNoToken(Run(SignedIn, []), LogoutCalled);
    Extends([], LogoutCalled);
    var es2 := es1 + [RemoveCalled];
    BringsNoToken(Run(SignedIn, es1), RemoveCalled);
    Extends(es1, RemoveCalled);
    RemovalStart();
    var es3 := es2 + [Advanced(1, Yes)];
    TakesNoToken(Run(SignedIn, es2), 1, Yes);
    Extends(es2, Advanced(1, Yes));
    RemovalMiddle(Run(SignedIn, es2));
    var es4 := es3 + [Advanced(0, Yes)];
    TakesNoToken(Run(SignedIn, es3), 0, Yes);
    Extends(es3, Advanced(0, Yes));
    RemovalLogout(Run(SignedIn, es3));
    var es5 := es4 + [WriteSettled(false)];
    BringsNoToken(Run(SignedIn, es4), WriteSettled(false));
    Extends(es4, WriteSettled(false));
    BringsNoToken(Run(SignedIn, es5), WriteSettled(true));
    Extends(es5, WriteSettled(true));
    RemovalWrites(Run(SignedIn, es4));
    assert Run(SignedIn, es5 + [WriteSettled(true)]).live;
  }

  // ---------------------------------------------------------------- clear, set, clear within one pending save

  const first: Write := Write(4, ByPersist(3, Out), Some(Out), 2)
  const between: Write := Write(6, ByOther, Some(In), 3)

  lemma RecurrenceBegins()
    ensures var s := Step(Step(SignedIn, LogoutCalled), LoginCalled);
            TaskAt(s, 1, 2, LoginVerify) && TaskAt(Step(s, Advanced(1, Yes)), 1, 2, LoginPersist(2))
  {
    var s := Step(Step(SignedIn, LogoutCalled), LoginCalled);
    assert TaskAt(s, 1, 2, LoginVerify) && s.aborted == {};
  }

  lemma RecurrenceStart()
    ensures var s := Step(Step(Step(Step(SignedIn, LogoutCalled), LoginCalled), Advanced(1, Yes)), Advanced(1, Yes));
            Shape(s, true, SignedIn.history[0], 2, false, None, 3, [], H0)
            && TaskAt(s, 0, 1, LogoutRevoke) && TaskAt(s, 1, 2, LoginAuthorize)
  {
    var s := Step(Step(SignedIn, LogoutCalled), LoginCalled);
    assert Shape(s, true, SignedIn.history[0], 2, false, None, 2, [], H0)
           && TaskAt(s, 0, 1, LogoutRevoke) && TaskAt(s, 1, 2, LoginVerify) && s.aborted == {};
    RecurrenceLogin(s);
  }

  lemma RecurrenceLogin(s: State)
    requires Shape(s, true, SignedIn.history[0], 2, false, None, 2, [], H0) && s.aborted == {}
    requires TaskAt(s, 0, 1, LogoutRevoke) && TaskAt(s, 1, 2, LoginVerify)
    ensures var s' := Step(Step(s, Advanced(1, Yes)), Advanced(1, Yes));
            Shape(s', true, SignedIn.history[0], 2, false, None, 3, [], H0)
            && TaskAt(s', 0, 1, LogoutRevoke) && TaskAt(s', 1, 2, LoginAuthorize)
  {
    var s' := Step(s, Advanced(1, Yes));
    assert TaskAt(s', 1, 2, LoginPersist(2)) && TaskAt(s', 2, 2, Done(Ok));
  }

  lemma RecurrenceClear(s: State)
    requires Shape(s, true, SignedIn.history[0], 2, false, None, 3, [], H0)
    requires TaskAt(s, 0, 1, LogoutRevoke) && TaskAt(s, 1, 2, LoginAuthorize)
    ensures var s' := Step(s, Advanced(0, Yes));
            Shape(s', true, Out, 2, true, Some(4), 5, [first], H0 + [Out])
            && TaskAt(s', 1, 2, LoginAuthorize) && TaskAt(s', 3, 2, OwnSave(4))
  {
  }

  lemma NewTokenIsFresh(s: State)
    requires Shape(s, true, Out, 2, true, Some(4), 5, [first], H0 + [Out])
    ensures FreshToken(s, Advanced(1, Yes))
  {
  }

  lemma RecurrenceSet(s: State)
    requires Shape(s, true, Out, 2, true, Some(4), 5, [first], H0 + [Out])
    requires TaskAt(s, 1, 2, LoginAuthorize) && TaskAt(s, 3, 2, OwnSave(4))
    ensures var s' := Step(s, Advanced(1, Yes));
            Shape(s', true, In, 2, true, Some(4), 6, [first], H0 + [Out, In]) && TaskAt(s', 3, 2, OwnSave(4))
  {
  }

  lemma RecurrenceOther(s: State)
    requires Shape(s, true, In, 2, true, Some(4), 6, [first], H0 + [Out, In]) && TaskAt(s, 3, 2, OwnSave(4))
    ensures var s' := Step(Step(s, OtherSaved), LogoutCalled);
            Shape(s', true, In, 3, true, Some(4), 8, [first, between], H0 + [Out, In])
            && TaskAt(s', 3, 2, OwnSave(4)) && TaskAt(s', 7, 3, LogoutRevoke)
  {
  }

  lemma RecurrenceClearAgain(s: State)
    requires Shape(s, true, In, 3, true, Some(4), 8, [first, between], H0 + [Out, In])
    requires TaskAt(s, 3, 2, OwnSave(4)) && TaskAt(s, 7, 3, LogoutRevoke)
    ensures var s' := Step(s, Advanced(7, Yes));
            Shape(s', true, Out, 3, true, Some(4), 9, [first, between], H0 + [Out, In, Out]) && TaskAt(s', 3, 2, OwnSave(4))
  {
  }

  lemma RecurrenceWrites(s: State)
    requires Shape(s, true, Out, 3, true, Some(4), 9, [first, between], H0 + [Out, In, Out]) && TaskAt(s, 3, 2, OwnSave(4))
    ensures var s' := Step(Step(s, WriteSettled(true)), WriteSettled(true));
            s'.live && !s'.c.dirty && Creds(s'.c) == Out && s'.disk.queue == [] && s'.disk.file == Some(In)
  {
  }

  lemma RecurrenceHalf() returns (es6: seq<Event>)
    ensures FreshTokens(SignedIn, es6)
    ensures var s := Run(SignedIn, es6);
            Shape(s, true, In, 2, true, Some(4), 6, [first], H0 + [Out, In]) && TaskAt(s, 3, 2, OwnSave(4))
  {
    hide Step, Shape, Run, FreshTokens, FreshToken;
    NoEventsAreFresh();
    RecurrenceBegins();
    var es1 := [] + [LogoutCalled];
    BringsNoToken(Run(SignedIn, []), LogoutCalled);
    Extends([], LogoutCalled);
    var es2 := es1 + [LoginCalled];
    BringsNoToken(Run(SignedIn, es1), LoginCalled);
    Extends(es1, LoginCalled);
    var es3 := es2 + [Advanced(1, Yes)];
    TakesNoToken(Run(SignedIn, es2), 1, Yes);
    Extends(es2, Advanced(1, Yes));
    var es4 := es3 + [Advanced(1, Yes)];
    TakesNoToken(Run(SignedIn, es3), 1, Yes);
    Extends(es3, Advanced(1, Yes));
    RecurrenceStart();
    var es5 := es4 + [Advanced(0, Yes)];
    TakesNoToken(Run(SignedIn, es4), 0, Yes);
    Extends(es4, Advanced(0, Yes));
    RecurrenceClear(Run(SignedIn, es4));
    es6 := es5 + [Advanced(1, Yes)];
    NewTokenIsFresh(Run(SignedIn, es5));
    Extends(es5, Advanced(1, Yes));
    RecurrenceSet(Run(SignedIn, es5));
  }

  /** The first clearing's save finds the third value equal to the one it captured; the snapshot in between is later. */
  lemma RecurrenceLeavesAStaleToken()
    ensures exists es ::
              var s := Run(SignedIn, es);
              FreshTokens(SignedIn, es)
              && s.live && !s.c.dirty && Creds(s.c) == Out && s.disk.queue == [] && s.disk.file == Some(In)
  {
    hide Step, Shape, Run, FreshTokens, FreshToken;
    var es6 := RecurrenceHalf();
    var es7 := es6 + [OtherSaved];
    BringsNoToken(Run(SignedIn, es6), OtherSaved);
    Extends(es6, OtherSaved);
    var es8 := es7 + [LogoutCalled];
    BringsNoToken(Run(SignedIn, es7), LogoutCalled);
    Extends(es7, LogoutCalled);
    RecurrenceOther(Run(SignedIn, es6));
    var es9 := es8 + [Advanced(7, Yes)];
    TakesNoToken(Run(SignedIn, es8), 7, Yes);
    Extends(es8, Advanced(7, Yes));
    RecurrenceClearAgain(Run(SignedIn, es8));
    var es10 := es9 + [WriteSettled(true)];
    BringsNoToken(Run(SignedIn, es9), WriteSettled(true));
    Extends(es9, WriteSettled(true));
    BringsNoToken(Run(SignedIn, es10), WriteSettled(true));
    Extends(es10, WriteSettled(true));
    RecurrenceWrites(Run(SignedIn, es9));
    assert Run(SignedIn, es10 + [WriteSettled(true)]).live;
  }

  // ---------------------------------------------------------------- a refresh that outlives the logout

  const signedOut: Write := Write(6, ByPersist(5, Out), Some(Out), 2)
  const signedIn: Write := Write(8, ByPersist(5, In), Some(In), 3)

  /** The logout waits to revoke, and a request made meanwhile has found that it may use access. */
  predicate Refreshing(s: State, refreshing: Option<Id>) {
    && s.c.access.None? && s.c.refreshing == refreshing && TaskAt(s, 0, 1, LogoutRevoke)
  }

  lemma RaceStart()
    ensures var s := Step(Step(SignedIn, LogoutCalled), RequestCalled);
            Shape(s, true, SignedIn.history[0], 1, false, None, 4, [], H0) && Refreshing(s, None)
            && TaskAt(s, 2, 1, EnsurePersist(3)) && TaskAt(s, 3, 1, Done(Ok))
  {
    var s := Step(SignedIn, LogoutCalled);
    assert Shape(s, true, SignedIn.history[0], 1, false, None, 1, [], H0) && Refreshing(s, None);
  }

  lemma RaceRefreshes(s: State)
    requires Shape(s, true, SignedIn.history[0], 1, false, None, 4, [], H0) && Refreshing(s, None)
    requires TaskAt(s, 2, 1, EnsurePersist(3)) && TaskAt(s, 3, 1, Done(Ok))
    ensures var s' := Step(Step(s, Advanced(2, Yes)), Advanced(4, Yes));
            Shape(s', true, SignedIn.history[0], 1, false, None, 5, [], H0) && Refreshing(s', Some(4))
            && TaskAt(s', 4, 1, RefreshExchange)
    ensures TaskAt(Step(s, Advanced(2, Yes)), 4, 1, RefreshVerify)
  {
  }

  lemma RaceClears(s: State)
    requires Shape(s, true, SignedIn.history[0], 1, false, None, 5, [], H0) && Refreshing(s, Some(4))
    requires TaskAt(s, 4, 1, RefreshExchange)
    ensures var s' := Step(s, Advanced(0, Yes));
            Shape(s', true, Out, 1, true, Some(6), 7, [signedOut], H0 + [Out]) && s'.c.status == SignedOut
            && TaskAt(s', 0, 1, LogoutPersist(5)) && TaskAt(s', 4, 1, RefreshExchange) && TaskAt(s', 5, 1, OwnSave(6))
  {
  }

  lemma RaceStores(s: State)
    requires Shape(s, true, Out, 1, true, Some(6), 7, [signedOut], H0 + [Out]) && s.c.status == SignedOut
    requires TaskAt(s, 0, 1, LogoutPersist(5)) && TaskAt(s, 4, 1, RefreshExchange) && TaskAt(s, 5, 1, OwnSave(6))
    ensures var s' := Step(s, Advanced(4, Yes));
            Shape(s', true, In, 1, true, Some(6), 8, [signedOut], H0 + [Out, In]) && s'.c.status == SignedOut
            && s'.c.access == Some(31) && TaskAt(s', 0, 1, LogoutPersist(5)) && TaskAt(s', 5, 1, OwnSave(6))
    ensures FreshToken(s, Advanced(4, Yes))
  {
  }

  lemma RaceSaves(s: State)
    requires Shape(s, true, In, 1, true, Some(6), 8, [signedOut], H0 + [Out, In]) && s.c.status == SignedOut
    requires s.c.access == Some(31) && TaskAt(s, 0, 1, LogoutPersist(5)) && TaskAt(s, 5, 1, OwnSave(6))
    ensures var s' := Step(s, WriteSettled(true));
            Shape(s', true, In, 1, true, Some(8), 9, [signedIn], H0 + [Out, In]) && s'.c.status == SignedOut
            && s'.c.access == Some(31) && TaskAt(s', 0, 1, LogoutPersist(5)) && TaskAt(s', 5, 1, OwnSave(8))
  {
  }

  /** The logout has ended well, and the connection that shows as signed out has its tokens, in the file too. */
  predicate SignedInAgain(s: State) { Saved(s) && TaskAt(s, 0, 1, Done(Ok)) }

  lemma RaceSaved(s: State)
    requires Shape(s, true, In, 1, true, Some(8), 9, [signedIn], H0 + [Out, In]) && s.c.status == SignedOut
    requires s.c.access == Some(31) && TaskAt(s, 0, 1, LogoutPersist(5)) && TaskAt(s, 5, 1, OwnSave(8))
    ensures var s' := Step(s, WriteSettled(true));
            Saved(s') && TaskAt(s', 0, 1, LogoutPersist(5)) && TaskAt(s', 5, 1, Done(Ok))
  {
  }

  predicate Saved(s: State) {
    && s.live && s.c.status == SignedOut && !s.c.dirty
    && s.c.refresh == Some(R1) && s.c.access == Some(31) && s.disk.file == Some(In)
  }

  lemma RaceEnds(s: State)
    requires Saved(s) && TaskAt(s, 0, 1, LogoutPersist(5)) && TaskAt(s, 5, 1, Done(Ok))
    ensures SignedInAgain(Step(s, Advanced(0, Yes)))
  {
  }

  lemma RaceCalled() returns (es2: seq<Event>)
    ensures FreshTokens(SignedIn, es2) && LoginCalled !in es2
    ensures var s := Run(SignedIn, es2);
            Shape(s, true, SignedIn.history[0], 1, false, None, 4, [], H0) && Refreshing(s, None)
            && TaskAt(s, 2, 1, EnsurePersist(3)) && TaskAt(s, 3, 1, Done(Ok))
  {
    hide Step, Shape, Run, FreshTokens, FreshToken, Refreshing;
    NoEventsAreFresh();
    RaceStart();
    var es1 := [] + [LogoutCalled];
    BringsNoToken(Run(SignedIn, []), LogoutCalled);
    Extends([], LogoutCalled);
    es2 := es1 + [RequestCalled];
    BringsNoToken(Run(SignedIn, es1), RequestCalled);
    Extends(es1, RequestCalled);
  }

  lemma RaceRefreshed() returns (es4: seq<Event>)
    ensures FreshTokens(SignedIn, es4) && LoginCalled !in es4
    ensures var s := Run(SignedIn, es4);
            Shape(s, true, SignedIn.history[0], 1, false, None, 5, [], H0) && Refreshing(s, Some(4))
            && TaskAt(s, 4, 1, RefreshExchange)
  {
    hide Step, Shape, Run, FreshTokens, FreshToken, Refreshing;
    var es2 := RaceCalled();
    RaceRefreshes(Run(SignedIn, es2));
    var es3 := es2 + [Advanced(2, Yes)];
    TakesNoToken(Run(SignedIn, es2), 2, Yes);
    Extends(es2, Advanced(2, Yes));
    es4 := es3 + [Advanced(4, Yes)];
    TakesNoToken(Run(SignedIn, es3), 4, Yes);
    Extends(es3, Advanced(4, Yes));
  }

  lemma RaceHalf() returns (es5: seq<Event>)
    ensures FreshTokens(SignedIn, es5) && LoginCalled !in es5
    ensures var s := Run(SignedIn, es5);
            Shape(s, true, Out, 1, true, Some(6), 7, [signedOut], H0 + [Out]) && s.c.status == SignedOut
            && TaskAt(s, 0, 1, LogoutPersist(5)) && TaskAt(s, 4, 1, RefreshExchange) && TaskAt(s, 5, 1, OwnSave(6))
  {
    hide Step, Shape, Run, FreshTokens, FreshToken;
    var es4 := RaceRefreshed();
    es5 := es4 + [Advanced(0, Yes)];
    TakesNoToken(Run(SignedIn, es4), 0, Yes);
    Extends(es4, Advanced(0, Yes));
    RaceClears(Run(SignedIn, es4));
  }

  /** A request made while the logout revokes starts a refresh; its exchange ends after the logout has cleared the tokens. */
  lemma LogoutLosesToARefresh()
    ensures exists es :: FreshTokens(SignedIn, es) && LoginCalled !in es && SignedInAgain(Run(SignedIn, es))
  {
    hide Step, Shape, Run, FreshTokens, FreshToken, Saved, SignedInAgain;
    var es5 := RaceHalf();
    RaceStores(Run(SignedIn, es5));
    var es6 := es5 + [Advanced(4, Yes)];
    Extends(es5, Advanced(4, Yes));
    RaceSaves(Run(SignedIn, es6));
    var es7 := es6 + [WriteSettled(true)];
    BringsNoToken(Run(SignedIn, es6), WriteSettled(true));
    Extends(es6, WriteSettled(true));
    RaceSaved(Run(SignedIn, es7));
    var es8 := es7 + [WriteSettled(true)];
    BringsNoToken(Run(SignedIn, es7), WriteSettled(true));
    Extends(es7, WriteSettled(true));
    TakesNoToken(Run(SignedIn, es8), 0, Yes);
    Extends(es8, Advanced(0, Yes));
    RaceEnds(Run(SignedIn, es8));
    assert SignedInAgain(Run(SignedIn, es8 + [Advanced(0, Yes)]));
  }
}
