/** The protocol's guarantees, for every run of events from a loaded or just added connection. */
module ConnectionTheorems {
  import opened Option
  import opened ConnectionModel
  import opened ConnectionInvariants

  // ---------------------------------------------------------------- single flight

  /** Across all generations: one event-connection attempt, one refresh exchange, one snapshot, one own save. */
  lemma OneOfEachInFlight(start: State, es: seq<Event>, a: Id, b: Id)
    requires Initial(start)
    requires a in Run(start, es).tasks && b in Run(start, es).tasks
    ensures var p, q := Run(start, es).tasks[a].at, Run(start, es).tasks[b].at;
            (Opening(p) && Opening(q)) || (Exchanging(p) && Exchanging(q)) || (p.SyncRequest? && q.SyncRequest?)
              || (p.OwnSave? && q.OwnSave?)
            ==> a == b
  {
    hide Run;
    Reachable(start, es);
    var s := Run(start, es);
    assert TaskOk(s, a) && TaskOk(s, b);
  }

  /** A connect adopts only an attempt of its own generation, and drains only an older one. */
  lemma ConnectAdoptsOwnGeneration(start: State, es: seq<Event>, t: Id)
    requires Initial(start) && t in Run(start, es).tasks
    ensures var s := Run(start, es); var k := s.tasks[t];
            && (k.at.ConnectOwn? || k.at.ConnectJoin? ==>
                  IsAttempt(s, k.at.op) && s.tasks[k.at.op].gen == k.gen)
            && (k.at.ConnectDrain? ==> IsAttempt(s, k.at.op) && s.tasks[k.at.op].gen < k.gen)
  {
    hide Run;
    Reachable(start, es);
    assert TaskOk(Run(start, es), t);
  }

  /** Superseded logins are aborted: the only other login there can be is the current one. */
  lemma OneLiveLogin(start: State, es: seq<Event>, a: Id)
    requires Initial(start) && a in Run(start, es).tasks && SigningIn(Run(start, es).tasks[a].at)
    ensures var s := Run(start, es);
            a !in s.aborted <==> s.c.login == Some(a)
    ensures var s := Run(start, es);
            a !in s.aborted ==> s.tasks[a].gen == s.c.generation
  {
    hide Run;
    Reachable(start, es);
    assert TaskOk(Run(start, es), a);
  }

  /** A socket, and a reconnect timer, always belong to the current generation. */
  lemma SocketAndTimerAreCurrent(start: State, es: seq<Event>)
    requires Initial(start)
    ensures var s := Run(start, es);
            && (s.c.socket.Some? ==> s.c.socket.value in s.sockets && s.sockets[s.c.socket.value] == s.c.generation)
            && (s.c.timer.Some? ==> s.c.timer.value == s.c.generation)
  {
    hide Run;
    Reachable(start, es);
  }

  // ---------------------------------------------------------------- who may change what

  /** Token values, sockets, the online status and the timer appear only by these changes. */
  predicate StoresTokens(c: Conn, d: Conn) {
    (d.refresh.Some? && d.refresh != c.refresh) || (d.access.Some? && d.access != c.access)
  }
  predicate OpensSocket(c: Conn, d: Conn) { d.socket.Some? && d.socket != c.socket }
  predicate GoesOnline(c: Conn, d: Conn) { d.status.Online? && !c.status.Online? }
  predicate SetsTimer(c: Conn, d: Conn) { d.timer.Some? && d.timer != c.timer }
  predicate StartsLogin(c: Conn, d: Conn) { d.login.Some? && d.login != c.login }

  /** The device key and its signer, once there, stay; the generation never goes back. */
  predicate Lasting(c: Conn, d: Conn) {
    && d.origin == c.origin && c.generation <= d.generation
    && (c.key.Some? && c.device.Some? ==> d.key == c.key && d.device == c.device)
  }

  predicate Calm(c: Conn, d: Conn) {
    Lasting(c, d) && !StoresTokens(c, d) && !OpensSocket(c, d) && !GoesOnline(c, d) && !StartsLogin(c, d)
  }

  predicate SteadyCall(s: State, s': State) {
    Calm(s.c, s'.c) && s'.c.timer == s.c.timer && s'.closed == s.closed && s'.live == s.live
  }

  lemma PersistLoopIsCalm(s: State, t: Id)
    requires t in s.tasks
    ensures SteadyCall(s, PersistLoop(s, t))
  {
  }

  lemma ConnectLoopIsCalm(s: State, t: Id)
    requires t in s.tasks
    ensures SteadyCall(s, ConnectLoop(s, t))
  {
  }

  lemma CallsAreCalm(s: State)
    requires Inv(s)
    ensures SteadyCall(s, StartPersist(s)) && SteadyCall(s, StartEnsure(s)) && SteadyCall(s, StartRequest(s))
    ensures SteadyCall(s, StartSync(s)) && SteadyCall(s, StartConnect(s))
  {
    hide Inv, StartPersist, StartEnsure, StartRequest, StartSync, StartConnect;
    StartPersistKeeps(s);
    StartEnsureKeeps(s);
    StartRequestKeeps(s);
    StartSyncKeeps(s);
    StartConnectKeeps(s);
  }

  lemma BackgroundIsCalm(s: State, gen: int)
    requires Inv(s) && gen <= s.c.generation
    ensures SteadyCall(s, ConnectInBackground(s, gen))
  {
    hide Inv, StartPersist, StartEnsure, StartRequest, StartSync, StartConnect;
    BackgroundSpawned(s, gen);
    CallsAreCalm(Spawn(s, gen, AwaitConnect(s.next + 1)));
  }

  lemma BackgroundSpawned(s: State, gen: int)
    requires Inv(s) && gen <= s.c.generation
    ensures Inv(Spawn(s, gen, AwaitConnect(s.next + 1)))
  {
    SpawnKeeps(s, gen, AwaitConnect(s.next + 1));
  }

  /** A step may set a timer only in an open manager that holds the connection; closing is final. */
  predicate Timely(s: State, s': State) {
    (SetsTimer(s.c, s'.c) ==> !s.closed && s.live) && (s.closed ==> s'.closed)
  }

  lemma FailLoginIsCalm(s: State, t: Id, f: Failure)
    requires t in s.tasks
    ensures Calm(s.c, FailLogin(s, t, f).c) && Timely(s, FailLogin(s, t, f))
  {
  }

  lemma EndLoginIsCalm(s: State, t: Id, outcome: Outcome)
    requires t in s.tasks
    ensures Calm(s.c, EndLogin(s, t, outcome).c) && Timely(s, EndLogin(s, t, outcome))
  {
  }

  lemma ScheduleReconnectIsCalm(s: State, f: Failure)
    ensures Calm(s.c, ScheduleReconnect(s, f).c) && Timely(s, ScheduleReconnect(s, f))
  {
  }

  lemma LoggedOut(s: State)
    requires Inv(s)
    ensures var s1 := SetCreds(s, s.c.key, None); Inv(s1.(c := s1.c.(access := None, status := SignedOut)))
  {
    SetCredsKeeps(s, s.c.key, None);
    var s1 := SetCreds(s, s.c.key, None);
    ConnKeeps(s1, s1.c.(access := None, status := SignedOut));
  }

  lemma LogoutIsCalm(s: State, t: Id)
    requires Inv(s) && t in s.tasks
    ensures Calm(s.c, FinishLogout(s, t).c) && Timely(s, FinishLogout(s, t))
  {
    hide Inv, StartPersist, StartEnsure, StartRequest, StartSync, StartConnect;
    LoggedOut(s);
    var s1 := SetCreds(s, s.c.key, None);
    CallsAreCalm(s1.(c := s1.c.(access := None, status := SignedOut)));
  }

  lemma DeviceIsCalm(s: State, t: Id, i: Input)
    requires Inv(s) && t in s.tasks
    ensures var s' := At(StartPersist(EnsureDevice(s, i.newKey)), t, LoginPersist(s.next));
            Calm(s.c, s'.c) && Timely(s, s')
  {
    hide Inv, StartPersist, StartEnsure, StartRequest, StartSync, StartConnect;
    EnsureDeviceKeeps(s, i.newKey);
    CallsAreCalm(EnsureDevice(s, i.newKey));
  }

  lemma LoginVerifyIsCalm(s: State, t: Id, i: Input)
    requires Inv(s) && t in s.tasks && s.tasks[t].at.LoginVerify?
    ensures Calm(s.c, ResumeLoginVerify(s, t, i).c) && Timely(s, ResumeLoginVerify(s, t, i))
  {
    hide FailLogin, Inv, StartPersist, EnsureDevice, Calm, Timely, LoginCancelled;
    FailLoginIsCalm(s, t, Other);
    FailLoginIsCalm(s, t, if i.failure.Some? then i.failure.value else Other);
    DeviceIsCalm(s, t, i);
  }

  lemma StageSet(s: State)
    requires Inv(s)
    ensures Inv(s.(c := s.c.(stage := Some(ConnectingEvents))))
  {
    ConnKeeps(s, s.c.(stage := Some(ConnectingEvents)));
  }

  lemma LoginStoreIsCalm(s: State, t: Id, from: Id)
    requires Inv(s) && t in s.tasks
    ensures Calm(s.c, ResumeLoginStore(s, t, from).c) && Timely(s, ResumeLoginStore(s, t, from))
  {
    hide FailLogin, EndLogin, Inv, StartPersist, StartEnsure, StartRequest, StartSync, StartConnect;
    if !Finished(s, from) {
    } else if OutcomeOf(s, from).Err? {
      FailLoginIsCalm(s, t, OutcomeOf(s, from).failure);
    } else if s.c.generation != s.tasks[t].gen {
      EndLoginIsCalm(s, t, Ok);
    } else {
      StageSet(s);
      CallsAreCalm(s.(c := s.c.(stage := Some(ConnectingEvents))));
    }
  }

  lemma AccessDropped(s: State)
    requires Inv(s)
    ensures Inv(s.(c := s.c.(access := None)))
  {
    ConnKeeps(s, s.c.(access := None));
  }

  lemma RequestSendIsCalm(s: State, t: Id, retry: bool, i: Input)
    requires Inv(s) && t in s.tasks
    ensures Calm(s.c, ResumeRequestSend(s, t, retry, i).c) && Timely(s, ResumeRequestSend(s, t, retry, i))
  {
    hide Inv, StartPersist, StartEnsure, StartRequest, StartSync, StartConnect;
    AccessDropped(s);
    CallsAreCalm(s.(c := s.c.(access := None)));
  }

  /** The points after which only a call is left. */
  predicate Calling(at: Point) {
    at.OtherSave? || at.ConnectDrain? || at.RequestSend? || at.OpenVerify? || at.OpenSync? || at.LoginVerify?
    || at.LoginStore? || at.LogoutRevoke?
  }

  lemma OtherSaveIsCalm(s: State, t: Id, op: Id)
    requires t in s.tasks
    ensures Calm(s.c, ResumeOtherSave(s, t, op).c) && Timely(s, ResumeOtherSave(s, t, op))
  {
    hide PersistLoop;
    PersistLoopIsCalm(s, t);
  }

  lemma ConnectDrainIsCalm(s: State, t: Id, op: Id)
    requires t in s.tasks
    ensures Calm(s.c, ResumeConnectDrain(s, t, op).c) && Timely(s, ResumeConnectDrain(s, t, op))
  {
    hide ConnectLoop;
    ConnectLoopIsCalm(s, t);
  }

  lemma OpenVerifyIsCalm(s: State, t: Id, i: Input)
    requires Inv(s) && t in s.tasks
    ensures Calm(s.c, ResumeOpenVerify(s, t, i).c) && Timely(s, ResumeOpenVerify(s, t, i))
  {
    hide Inv, StartPersist, StartEnsure, StartRequest, StartSync, StartConnect;
    CallsAreCalm(s);
  }

  lemma OpenSyncIsCalm(s: State, t: Id, from: Id)
    requires Inv(s) && t in s.tasks
    ensures Calm(s.c, ResumeOpenSync(s, t, from).c) && Timely(s, ResumeOpenSync(s, t, from))
  {
    hide Inv, StartPersist, StartEnsure, StartRequest, StartSync, StartConnect;
    CallsAreCalm(s);
  }

  lemma LogoutRevokeIsCalm(s: State, t: Id, i: Input)
    requires Inv(s) && t in s.tasks
    ensures Calm(s.c, ResumeLogoutRevoke(s, t, i).c) && Timely(s, ResumeLogoutRevoke(s, t, i))
  {
    hide Inv, FinishLogout;
    LogoutIsCalm(s, t);
  }

  lemma CallingIsCalm(s: State, t: Id, i: Input)
    requires Inv(s) && t in s.tasks && Calling(s.tasks[t].at)
    ensures Calm(s.c, Advance(s, t, i).c) && Timely(s, Advance(s, t, i))
  {
    hide Inv, Calm, Timely, ResumeOtherSave, ResumeEnsure, ResumeEnsureOwn, ResumeRefreshVerify, ResumeRefreshExchange, ResumeRequestEnsure,
      ResumeRequestSend, ResumeSyncOwn, ResumeSyncRequest, ResumeConnectDrain, ResumeConnectOwn, ResumeOpenVerify,
      ResumeOpenSync, ResumeOpenTicket, ResumeLoginVerify, ResumeLoginPersist, ResumeLoginAuthorize, ResumeLoginStore,
      ResumeLoginConnect, ResumeLogoutRevoke, FinishRemove, ResumeAwaitConnect, Propagate;
    match s.tasks[t].at
    case OtherSave(op) => OtherSaveIsCalm(s, t, op);
    case ConnectDrain(op) => ConnectDrainIsCalm(s, t, op);
    case RequestSend(retry) => RequestSendIsCalm(s, t, retry, i);
    case OpenVerify => OpenVerifyIsCalm(s, t, i);
    case OpenSync(from) => OpenSyncIsCalm(s, t, from);
    case LoginVerify => LoginVerifyIsCalm(s, t, i);
    case LoginStore(from) => LoginStoreIsCalm(s, t, from);
    case LogoutRevoke => LogoutRevokeIsCalm(s, t, i);
  }

  /** Activations other than the three that exchange tokens or tickets change none of these. */
  lemma AdvanceIsCalm(s: State, t: Id, i: Input)
    requires Inv(s) && t in s.tasks
    requires !s.tasks[t].at.RefreshExchange? && !s.tasks[t].at.LoginAuthorize? && !s.tasks[t].at.OpenTicket?
    ensures Calm(s.c, Advance(s, t, i).c) && Timely(s, Advance(s, t, i))
  {
    hide Inv, Advance;
    if Calling(s.tasks[t].at) {
      CallingIsCalm(s, t, i);
    } else if SigningIn(s.tasks[t].at) {
      SigningInIsCalm(s, t, i);
    } else if s.tasks[t].at.AwaitConnect? {
      AwaitConnectIsCalm(s, t, i);
    } else {
      OtherwiseCalm(s, t, i);
    }
  }

  lemma LoginPersistIsCalm(s: State, t: Id, from: Id)
    requires t in s.tasks
    ensures Calm(s.c, ResumeLoginPersist(s, t, from).c) && Timely(s, ResumeLoginPersist(s, t, from))
  {
    hide FailLogin;
    FailLoginIsCalm(s, t, Other);
    if Finished(s, from) && OutcomeOf(s, from).Err? {
      FailLoginIsCalm(s, t, OutcomeOf(s, from).failure);
    }
  }

  lemma LoginConnectIsCalm(s: State, t: Id, from: Id)
    requires t in s.tasks
    ensures Calm(s.c, ResumeLoginConnect(s, t, from).c) && Timely(s, ResumeLoginConnect(s, t, from))
  {
    hide FailLogin, EndLogin;
    EndLoginIsCalm(s, t, Ok);
    if Finished(s, from) && OutcomeOf(s, from).Err? {
      FailLoginIsCalm(s, t, OutcomeOf(s, from).failure);
    }
  }

  lemma SigningInIsCalm(s: State, t: Id, i: Input)
    requires t in s.tasks && (s.tasks[t].at.LoginPersist? || s.tasks[t].at.LoginConnect?)
    ensures Calm(s.c, Advance(s, t, i).c) && Timely(s, Advance(s, t, i))
  {
    hide Calm, Timely, ResumeOtherSave, ResumeEnsure, ResumeEnsureOwn, ResumeRefreshVerify, ResumeRefreshExchange, ResumeRequestEnsure,
      ResumeRequestSend, ResumeSyncOwn, ResumeSyncRequest, ResumeConnectDrain, ResumeConnectOwn, ResumeOpenVerify,
      ResumeOpenSync, ResumeOpenTicket, ResumeLoginVerify, ResumeLoginPersist, ResumeLoginAuthorize, ResumeLoginStore,
      ResumeLoginConnect, ResumeLogoutRevoke, FinishRemove, ResumeAwaitConnect, Propagate;
    match s.tasks[t].at
    case LoginPersist(from) => LoginPersistIsCalm(s, t, from);
    case LoginConnect(from) => LoginConnectIsCalm(s, t, from);
  }

  lemma ReconnectIsCalm(s: State, t: Id, from: Id)
    requires t in s.tasks
    ensures Calm(s.c, ResumeAwaitConnect(s, t, from).c) && Timely(s, ResumeAwaitConnect(s, t, from))
  {
    hide ScheduleReconnect;
    if Finished(s, from) && OutcomeOf(s, from).Err? {
      ScheduleReconnectIsCalm(Finish(s, t, OutcomeOf(s, from)), OutcomeOf(s, from).failure);
    }
  }

  lemma AwaitConnectIsCalm(s: State, t: Id, i: Input)
    requires t in s.tasks && s.tasks[t].at.AwaitConnect?
    ensures Calm(s.c, Advance(s, t, i).c) && Timely(s, Advance(s, t, i))
  {
    hide Calm, Timely, ResumeOtherSave, ResumeEnsure, ResumeEnsureOwn, ResumeRefreshVerify, ResumeRefreshExchange, ResumeRequestEnsure,
      ResumeRequestSend, ResumeSyncOwn, ResumeSyncRequest, ResumeConnectDrain, ResumeConnectOwn, ResumeOpenVerify,
      ResumeOpenSync, ResumeOpenTicket, ResumeLoginVerify, ResumeLoginPersist, ResumeLoginAuthorize, ResumeLoginStore,
      ResumeLoginConnect, ResumeLogoutRevoke, FinishRemove, ResumeAwaitConnect, Propagate;
    ReconnectIsCalm(s, t, s.tasks[t].at.t);
  }

  /** Only the single-flight slots of the connection changed. */
  predicate SlotsOnly(s: State, s': State) {
    && s'.c == s.c.(connecting := s'.c.connecting, refreshing := s'.c.refreshing, syncing := s'.c.syncing)
    && s'.closed == s.closed
  }

  lemma EnsureSlotsOnly(s: State, t: Id, from: Id, now: int)
    requires t in s.tasks
    ensures SlotsOnly(s, ResumeEnsure(s, t, from, now))
  {
  }

  lemma EnsureOwnSlotsOnly(s: State, t: Id, op: Id)
    requires t in s.tasks
    ensures SlotsOnly(s, ResumeEnsureOwn(s, t, op))
  {
  }

  lemma SyncOwnSlotsOnly(s: State, t: Id, op: Id)
    requires t in s.tasks
    ensures SlotsOnly(s, ResumeSyncOwn(s, t, op))
  {
  }

  lemma ConnectOwnSlotsOnly(s: State, t: Id, op: Id)
    requires t in s.tasks
    ensures SlotsOnly(s, ResumeConnectOwn(s, t, op))
  {
  }

  /** The points that only pass an awaited outcome on. */
  predicate Passing(at: Point) {
    at.EnsureJoin? || at.RefreshStore? || at.SyncJoin? || at.ConnectJoin? || at.LogoutPersist?
  }

  /** The points that may give back a single-flight slot or take one. */
  predicate Owning(at: Point) { at.EnsurePersist? || at.EnsureOwn? || at.SyncOwn? || at.ConnectOwn? }

  lemma PassingSlotsOnly(s: State, t: Id, i: Input)
    requires t in s.tasks && Passing(s.tasks[t].at)
    ensures SlotsOnly(s, Advance(s, t, i))
  {
  }

  lemma OwningSlotsOnly(s: State, t: Id, i: Input)
    requires t in s.tasks && Owning(s.tasks[t].at)
    ensures SlotsOnly(s, Advance(s, t, i))
  {
    hide ResumeEnsure, ResumeEnsureOwn, ResumeSyncOwn, ResumeConnectOwn;
    match s.tasks[t].at
    case EnsurePersist(from) => EnsureSlotsOnly(s, t, from, i.now);
    case EnsureOwn(op) => EnsureOwnSlotsOnly(s, t, op);
    case SyncOwn(op) => SyncOwnSlotsOnly(s, t, op);
    case ConnectOwn(op) => ConnectOwnSlotsOnly(s, t, op);
  }

  lemma OtherwiseSlotsOnly(s: State, t: Id, i: Input)
    requires t in s.tasks && !Calling(s.tasks[t].at) && !SigningIn(s.tasks[t].at) && !s.tasks[t].at.AwaitConnect?
    requires !s.tasks[t].at.RefreshExchange? && !s.tasks[t].at.OpenTicket?
    ensures SlotsOnly(s, Advance(s, t, i))
  {
    if Passing(s.tasks[t].at) {
      hide Advance, SlotsOnly;
      PassingSlotsOnly(s, t, i);
    } else if Owning(s.tasks[t].at) {
      hide Advance, SlotsOnly;
      OwningSlotsOnly(s, t, i);
    }
  }

  lemma OtherwiseCalm(s: State, t: Id, i: Input)
    requires t in s.tasks && !Calling(s.tasks[t].at) && !SigningIn(s.tasks[t].at) && !s.tasks[t].at.AwaitConnect?
    requires !s.tasks[t].at.RefreshExchange? && !s.tasks[t].at.OpenTicket?
    ensures Calm(s.c, Advance(s, t, i).c) && Timely(s, Advance(s, t, i))
  {
    hide Advance;
    OtherwiseSlotsOnly(s, t, i);
  }

  // ---------------------------------------------------------------- the guarded effects of one step

  /** Nothing but tokens may appear, and those only in a successful exchange of the current generation. */
  predicate Exchanges(s: State, t: Id, i: Input, s': State)
    requires t in s.tasks
  {
    && Lasting(s.c, s'.c) && !OpensSocket(s.c, s'.c) && !GoesOnline(s.c, s'.c) && !StartsLogin(s.c, s'.c)
    && Timely(s, s')
    && (StoresTokens(s.c, s'.c) ==> i.failure.None? && s.tasks[t].gen == s.c.generation)
  }

  lemma StoringExchanges(s: State, t: Id, i: Input)
    requires Inv(s) && t in s.tasks && (s.tasks[t].at.RefreshExchange? || s.tasks[t].at.LoginAuthorize?)
    requires i.failure.None? && s.tasks[t].gen == s.c.generation
    ensures Exchanges(s, t, i, StartPersist(StoreTokens(s, i)))
  {
    hide Inv, StartPersist, StartEnsure, StartRequest, StartSync, StartConnect;
    TokensStored(s, t, i);
    CallsAreCalm(StoreTokens(s, i));
  }

  lemma RefreshExchanges(s: State, t: Id, i: Input)
    requires Inv(s) && t in s.tasks && s.tasks[t].at.RefreshExchange?
    ensures Exchanges(s, t, i, ResumeRefreshExchange(s, t, i))
  {
    hide Inv, StartPersist;
    if i.failure.None? && s.tasks[t].gen == s.c.generation {
      StoringExchanges(s, t, i);
    }
  }

  lemma AuthorizeExchanges(s: State, t: Id, i: Input)
    requires Inv(s) && t in s.tasks && s.tasks[t].at.LoginAuthorize?
    ensures Exchanges(s, t, i, ResumeLoginAuthorize(s, t, i))
  {
    hide Inv, FailLogin, EndLogin, StartPersist;
    FailLoginIsCalm(s, t, if i.failure.Some? then i.failure.value else Other);
    EndLoginIsCalm(s, t, Ok);
    if i.failure.None? && s.tasks[t].gen == s.c.generation {
      StoringExchanges(s, t, i);
    }
  }

  lemma ExchangeIsGuarded(s: State, t: Id, i: Input)
    requires Inv(s) && t in s.tasks && (s.tasks[t].at.RefreshExchange? || s.tasks[t].at.LoginAuthorize?)
    ensures Exchanges(s, t, i, Advance(s, t, i))
  {
    hide Inv, Exchanges, ResumeOtherSave, ResumeEnsure, ResumeEnsureOwn, ResumeRefreshVerify, ResumeRefreshExchange, ResumeRequestEnsure,
      ResumeRequestSend, ResumeSyncOwn, ResumeSyncRequest, ResumeConnectDrain, ResumeConnectOwn, ResumeOpenVerify,
      ResumeOpenSync, ResumeOpenTicket, ResumeLoginVerify, ResumeLoginPersist, ResumeLoginAuthorize, ResumeLoginStore,
      ResumeLoginConnect, ResumeLogoutRevoke, FinishRemove, ResumeAwaitConnect, Propagate;
    if s.tasks[t].at.RefreshExchange? {
      RefreshExchanges(s, t, i);
    } else {
      AuthorizeExchanges(s, t, i);
    }
  }

  lemma TokensStored(s: State, t: Id, i: Input)
    requires Inv(s) && t in s.tasks && (s.tasks[t].at.RefreshExchange? || s.tasks[t].at.LoginAuthorize?)
    ensures Inv(StoreTokens(s, i))
  {
    assert TaskOk(s, t);
    StoreTokensKeeps(s, i);
  }

  /** Nothing but a socket may appear, and that only for a current attempt without one. */
  predicate Opens(s: State, t: Id, s': State)
    requires t in s.tasks
  {
    && Lasting(s.c, s'.c) && !StoresTokens(s.c, s'.c) && !GoesOnline(s.c, s'.c) && !StartsLogin(s.c, s'.c)
    && Timely(s, s')
    && (OpensSocket(s.c, s'.c) ==> !s.closed && s.tasks[t].gen == s.c.generation && s.c.socket.None?)
  }

  lemma TicketOpens(s: State, t: Id, from: Id, valid: bool)
    requires t in s.tasks
    ensures Opens(s, t, ResumeOpenTicket(s, t, from, valid))
  {
  }

  lemma TicketIsGuarded(s: State, t: Id, i: Input)
    requires t in s.tasks && s.tasks[t].at.OpenTicket?
    ensures Opens(s, t, Advance(s, t, i))
  {
    hide Opens, ResumeOtherSave, ResumeEnsure, ResumeEnsureOwn, ResumeRefreshVerify, ResumeRefreshExchange, ResumeRequestEnsure,
      ResumeRequestSend, ResumeSyncOwn, ResumeSyncRequest, ResumeConnectDrain, ResumeConnectOwn, ResumeOpenVerify,
      ResumeOpenSync, ResumeOpenTicket, ResumeLoginVerify, ResumeLoginPersist, ResumeLoginAuthorize, ResumeLoginStore,
      ResumeLoginConnect, ResumeLogoutRevoke, FinishRemove, ResumeAwaitConnect, Propagate;
    TicketOpens(s, t, s.tasks[t].at.t, i.valid);
  }

  /**
    Who may do what, in every reachable state: tokens are stored only by a token exchange, a socket is opened only by
    a ticket reply, and only the socket in use reports online - each carrying the current generation. A closed manager
    opens no socket, sets no timer and starts no login.
   */
  predicate Guarded(s: State, e: Event, s': State) {
    && Lasting(s.c, s'.c)
    && (s.closed ==> s'.closed)
    && (StoresTokens(s.c, s'.c) ==>
          && e.Advanced? && e.t in s.tasks && (s.tasks[e.t].at.RefreshExchange? || s.tasks[e.t].at.LoginAuthorize?)
          && s.tasks[e.t].gen == s.c.generation && e.i.failure.None?)
    && (OpensSocket(s.c, s'.c) ==>
          && e.Advanced? && e.t in s.tasks && s.tasks[e.t].at.OpenTicket?
          && s.tasks[e.t].gen == s.c.generation && !s.closed && s.c.socket.None?)
    && (GoesOnline(s.c, s'.c) ==> e.SocketOpened? && Active(s, e.k))
    && (SetsTimer(s.c, s'.c) ==> !s.closed && s.live)
    && (StartsLogin(s.c, s'.c) ==> e.LoginCalled? && !s.closed && s.live && s.c.login.None?)
  }

  lemma AdvanceIsGuarded(s: State, t: Id, i: Input)
    requires Inv(s)
    ensures Guarded(s, Advanced(t, i), Advance(s, t, i))
  {
    hide Inv, Advance;
    if t !in s.tasks {
      AdvanceNobody(s, t, i);
    } else if s.tasks[t].at.RefreshExchange? || s.tasks[t].at.LoginAuthorize? {
      ExchangeIsGuarded(s, t, i);
    } else if s.tasks[t].at.OpenTicket? {
      TicketIsGuarded(s, t, i);
    } else {
      AdvanceIsCalm(s, t, i);
    }
  }

  lemma AdvanceNobody(s: State, t: Id, i: Input)
    requires t !in s.tasks
    ensures Advance(s, t, i) == s
  {
  }

  lemma StoppedKeeps(s: State)
    requires Inv(s)
    ensures Inv(Spawn(Stop(s), s.c.generation + 1, LogoutRevoke))
  {
    StopKeeps(s);
    SpawnKeeps(Stop(s), s.c.generation + 1, LogoutRevoke);
  }

  lemma LogoutEventIsCalm(s: State)
    requires Inv(s)
    ensures Calm(s.c, ApiLogout(s).c) && Timely(s, ApiLogout(s))
  {
    hide Inv, FinishLogout;
    StoppedKeeps(s);
    LogoutIsCalm(Spawn(Stop(s), s.c.generation + 1, LogoutRevoke), s.next);
  }

  lemma ResumeEventIsCalm(s: State)
    requires Inv(s)
    ensures Calm(s.c, ApiResume(s).c) && Timely(s, ApiResume(s))
  {
    StopKeeps(s);
    hide Inv, ConnectInBackground;
    BackgroundIsCalm(Stop(s), Stop(s).c.generation);
  }

  lemma SnapshotEventIsCalm(s: State)
    requires Inv(s)
    ensures Calm(s.c, ApiSnapshot(s).c) && Timely(s, ApiSnapshot(s))
  {
    hide Inv, ConnectInBackground, StartPersist, StartEnsure, StartRequest, StartSync, StartConnect;
    BackgroundKeeps(s, s.c.generation);
    BackgroundIsCalm(s, s.c.generation);
    CallsAreCalm(s);
    CallsAreCalm(ConnectInBackground(s, s.c.generation));
  }

  lemma TimerCleared(s: State)
    requires Inv(s)
    ensures Inv(s.(c := s.c.(timer := None)))
  {
    ConnKeeps(s, s.c.(timer := None));
  }

  lemma TimerEventIsCalm(s: State)
    requires Inv(s)
    ensures Calm(s.c, TimerFires(s).c) && Timely(s, TimerFires(s))
  {
    hide Inv, ConnectInBackground;
    TimerCleared(s);
    BackgroundIsCalm(s.(c := s.c.(timer := None)), s.c.generation);
  }

  lemma ContinueIsCalm(s: State, w: Write, ok: bool)
    ensures Calm(s.c, Continue(s, w, ok).c) && Timely(s, Continue(s, w, ok))
  {
    hide PersistLoop;
    if w.owner.ByPersist? && w.owner.t in s.tasks && s.tasks[w.owner.t].at.OwnSave? {
      var s1 := if s.c.saving == Some(w.op) then s.(c := s.c.(saving := None)) else s;
      var s2 := At(s1, w.owner.t, Begin);
      PersistLoopIsCalm(s2, w.owner.t);
      PersistLoopIsCalm(s2.(c := s2.c.(dirty := false)), w.owner.t);
    }
  }

  lemma SettleIsCalm(s: State, ok: bool)
    ensures Calm(s.c, Settle(s, ok).c) && Timely(s, Settle(s, ok))
  {
    hide Continue;
    if s.disk.queue != [] {
      ContinueIsCalm(Popped(s, ok), s.disk.queue[0], ok);
    }
  }

  /** The events after which only calls, or the end of a write, are left. */
  predicate CalmEvent(e: Event) {
    e.LogoutCalled? || e.ResumeCalled? || e.SnapshotCalled? || e.RequestCalled? || e.TimerFired? || e.WriteSettled?
  }

  lemma CalmEvents(s: State, e: Event)
    requires Inv(s) && CalmEvent(e)
    ensures Calm(s.c, Step(s, e).c) && Timely(s, Step(s, e))
  {
    hide Inv, Calm, Timely, ApiLogout, ApiResume, ApiSnapshot, ApiRequest, TimerFires, Settle;
    match e
    case LogoutCalled => LogoutEventIsCalm(s);
    case ResumeCalled => ResumeEventIsCalm(s);
    case SnapshotCalled => SnapshotEventIsCalm(s);
    case RequestCalled => RequestEventIsCalm(s);
    case TimerFired => TimerEventIsCalm(s);
    case WriteSettled(ok) => SettleIsCalm(s, ok);
  }

  lemma RequestEventIsCalm(s: State)
    requires Inv(s)
    ensures Calm(s.c, ApiRequest(s).c) && Timely(s, ApiRequest(s))
  {
    hide Inv, StartPersist, StartEnsure, StartRequest, StartSync, StartConnect;
    CallsAreCalm(s);
  }

  /** What is calm needs no further guard. */
  lemma CalmIsGuarded(s: State, e: Event, s': State)
    requires Calm(s.c, s'.c) && Timely(s, s')
    ensures Guarded(s, e, s')
  {
  }

  lemma LostSocketIsGuarded(s: State, k: Id)
    ensures Guarded(s, SocketLost(k), SocketClosed(s, k))
  {
    hide ScheduleReconnect;
    ScheduleReconnectIsCalm(s.(c := s.c.(socket := None)), Other);
  }

  lemma RemoveIsGuarded(s: State)
    ensures Guarded(s, RemoveCalled, ApiRemove(s))
  {
    hide FinishRemove;
    FinishRemoveIsCalm(Spawn(Stop(s), s.c.generation + 1, RemoveRevoke), s.next);
  }

  lemma OtherEventIsGuarded(s: State, e: Event)
    requires Inv(s) && !e.Advanced?
    ensures Guarded(s, e, Step(s, e))
  {
    hide Inv;
    if CalmEvent(e) {
      hide Step, Guarded;
      CalmEvents(s, e);
      CalmIsGuarded(s, e, Step(s, e));
    } else {
      hide ApiRemove, SocketClosed, ApiLogout, ApiResume, ApiSnapshot, ApiRequest, TimerFires, Settle, Advance;
      if e.SocketLost? {
        LostSocketIsGuarded(s, e.k);
      } else if e.RemoveCalled? {
        RemoveIsGuarded(s);
      }
    }
  }

  lemma FinishRemoveIsCalm(s: State, t: Id)
    requires t in s.tasks
    ensures FinishRemove(s, t).c == s.c && FinishRemove(s, t).closed == s.closed
  {
  }

  lemma StepIsGuarded(s: State, e: Event)
    requires Inv(s)
    ensures Guarded(s, e, Step(s, e))
  {
    hide Inv, Advance, Guarded;
    if e.Advanced? {
      AdvanceIsGuarded(s, e.t, e.i);
    } else {
      OtherEventIsGuarded(s, e);
    }
  }

  lemma EveryStepIsGuarded(start: State, es: seq<Event>, e: Event)
    requires Initial(start)
    ensures Guarded(Run(start, es), e, Run(start, es + [e]))
  {
    assert (es + [e])[..|es|] == es;
    var s := Run(start, es);
    assert Run(start, es + [e]) == Step(s, e);
    hide Run, Step;
    Reachable(start, es);
    StepIsGuarded(s, e);
  }

  // ---------------------------------------------------------------- whole runs

  predicate Shut(s: State) { s.closed && s.c.socket.None? && s.c.timer.None? && s.c.login.None? }

  /** After close, a connection the manager held has no socket, timer or login in any later state. */
  lemma {:induction false} AfterClose(s: State, es: seq<Event>)
    requires Inv(s) && Shut(s)
    ensures Shut(Run(s, es))
    decreases |es|
  {
    hide Inv, Step;
    if es != [] {
      var before := es[..|es| - 1];
      AfterClose(s, before);
      RunKeeps(s, before);
      StepIsGuarded(Run(s, before), es[|es| - 1]);
    }
  }

  lemma CloseShuts(s: State)
    requires s.live
    ensures Shut(Close(s))
  {
  }

  /** A device key, once set, is the connection's key and its signer's key in every later state. */
  lemma {:induction false} KeyIsForever(s: State, es: seq<Event>)
    requires Inv(s) && s.c.key.Some?
    ensures var c := Run(s, es).c; c.key == s.c.key && c.device == Some(Device(s.c.origin, s.c.key.value))
    decreases |es|
  {
    if es != [] {
      var before := es[..|es| - 1];
      KeyIsForever(s, before);
      RunKeeps(s, before);
      hide Inv, Step;
      StepIsGuarded(Run(s, before), es[|es| - 1]);
    }
  }

  /** Tokens are only ever held together with the device key, and the signer serves the connection's own origin. */
  lemma TokensAreBound(start: State, es: seq<Event>)
    requires Initial(start)
    ensures var c := Run(start, es).c;
            && (c.refresh.Some? || c.access.Some? ==> c.key.Some?)
            && (c.key.Some? <==> c.device.Some?)
            && (c.device.Some? ==> c.device.value == Device(c.origin, c.key.value))
  {
    hide Run;
    Reachable(start, es);
  }
}
