/** When the encrypted store holds the credentials the manager holds in memory. */
module ConnectionDurability {
  import opened Option
  import opened ConnectionModel
  import opened ConnectionInvariants
  import opened ConnectionTheorems

  // ---------------------------------------------------------------- what steps do to credentials and writes

  /** w is a snapshot of s. */
  predicate Taken(s: State, w: Write) {
    && w.version == |s.history| && w.record == Record(s)
    && (w.owner.ByPersist? ==> w.owner.captured == Creds(s.c))
  }

  /** Credentials unchanged; any new write is a snapshot of them. */
  predicate Grows(s: State, s': State) {
    && Creds(s'.c) == Creds(s.c) && s'.c.dirty == s.c.dirty && s'.history == s.history
    && s'.disk.file == s.disk.file && s.disk.queue <= s'.disk.queue
    && (forall i :: |s.disk.queue| <= i < |s'.disk.queue| ==> Taken(s', s'.disk.queue[i]))
  }

  /** The same, or one new credential value, which leaves the connection dirty. */
  predicate Moves(s: State, s': State) {
    && ((s'.history == s.history && Creds(s'.c) == Creds(s.c) && s'.c.dirty == s.c.dirty)
        || (s'.history == s.history + [Creds(s'.c)] && s'.c.dirty))
    && s'.disk.file == s.disk.file && s.disk.queue <= s'.disk.queue
    && (forall i :: |s.disk.queue| <= i < |s'.disk.queue| ==> Taken(s', s'.disk.queue[i]))
  }

  /** The same of a step that does not put the connection back into the map. */
  predicate Stays(s: State, s': State) { Moves(s, s') && (s'.live ==> s.live) }

  /** A call: credentials, file and liveness untouched. */
  predicate Call(s: State, s': State) { Grows(s, s') && s'.live == s.live }

  lemma PersistLoopCalls(s: State, t: Id)
    requires t in s.tasks
    ensures Call(s, PersistLoop(s, t))
  {
  }

  lemma StartPersistCalls(s: State)
    ensures Call(s, StartPersist(s))
  {
    hide PersistLoop;
    PersistLoopCalls(Spawn(s, s.c.generation, Begin), s.next);
  }

  lemma StartEnsureCalls(s: State)
    ensures Call(s, StartEnsure(s))
  {
    hide StartPersist;
    StartPersistCalls(Spawn(s, s.c.generation, Begin));
  }

  lemma StartRequestCalls(s: State)
    ensures Call(s, StartRequest(s))
  {
    hide StartEnsure;
    StartEnsureCalls(Spawn(s, s.c.generation, Begin));
  }

  lemma StartSyncOpCalls(s: State)
    ensures Call(s, StartSyncOp(s))
  {
    hide StartRequest;
    StartRequestCalls(Spawn(s, s.c.generation, Begin));
  }

  lemma StartSyncCalls(s: State)
    ensures Call(s, StartSync(s))
  {
    hide StartSyncOp;
    StartSyncOpCalls(Spawn(s, s.c.generation, SyncOwn(s.next + 1)));
  }

  lemma ConnectLoopCalls(s: State, t: Id)
    requires t in s.tasks
    ensures Call(s, ConnectLoop(s, t))
  {
  }

  lemma StartConnectCalls(s: State)
    ensures Call(s, StartConnect(s))
  {
    hide ConnectLoop;
    ConnectLoopCalls(Spawn(s, s.c.generation, Begin), s.next);
  }

  lemma BackgroundCalls(s: State, gen: int)
    ensures Call(s, ConnectInBackground(s, gen))
  {
    hide StartConnect;
    StartConnectCalls(Spawn(s, gen, AwaitConnect(s.next + 1)));
  }

  lemma ScheduleReconnectCalls(s: State, f: Failure)
    ensures Call(s, ScheduleReconnect(s, f))
  {
  }

  lemma LoginEndsCalls(s: State, t: Id, f: Failure, outcome: Outcome)
    requires t in s.tasks
    ensures Call(s, FailLogin(s, t, f)) && Call(s, EndLogin(s, t, outcome))
  {
  }

  // ---------------------------------------------------------------- every step but a write's completion moves

  lemma RefreshExchangeMoves(s: State, t: Id, i: Input)
    requires t in s.tasks
    ensures Stays(s, ResumeRefreshExchange(s, t, i)) && ResumeRefreshExchange(s, t, i).live == s.live
  {
    hide StartPersist;
    StartPersistCalls(StoreTokens(s, i));
  }

  lemma LoginAuthorizeMoves(s: State, t: Id, i: Input)
    requires t in s.tasks
    ensures Stays(s, ResumeLoginAuthorize(s, t, i)) && ResumeLoginAuthorize(s, t, i).live == s.live
  {
    hide StartPersist, FailLogin, EndLogin;
    StartPersistCalls(StoreTokens(s, i));
    LoginEndsCalls(s, t, if i.failure.Some? then i.failure.value else Other, Ok);
  }

  lemma LoginVerifyMoves(s: State, t: Id, i: Input)
    requires t in s.tasks
    ensures Stays(s, ResumeLoginVerify(s, t, i)) && ResumeLoginVerify(s, t, i).live == s.live
  {
    hide StartPersist, FailLogin;
    StartPersistCalls(EnsureDevice(s, i.newKey));
    LoginEndsCalls(s, t, if i.failure.Some? then i.failure.value else Other, Ok);
  }

  lemma FinishLogoutMoves(s: State, t: Id)
    requires t in s.tasks
    ensures Stays(s, FinishLogout(s, t)) && FinishLogout(s, t).live == s.live
  {
    hide StartPersist;
    var s1 := SetCreds(s, s.c.key, None);
    StartPersistCalls(s1.(c := s1.c.(access := None, status := SignedOut)));
  }

  lemma LoginStoreCalls(s: State, t: Id, from: Id)
    requires t in s.tasks
    ensures Call(s, ResumeLoginStore(s, t, from))
  {
    hide StartConnect, FailLogin, EndLogin;
    StartConnectCalls(s.(c := s.c.(stage := Some(ConnectingEvents))));
    LoginEndsCalls(s, t, if Finished(s, from) && OutcomeOf(s, from).Err? then OutcomeOf(s, from).failure else Other, Ok);
  }

  lemma RequestSendCalls(s: State, t: Id, retry: bool, i: Input)
    requires t in s.tasks
    ensures Call(s, ResumeRequestSend(s, t, retry, i))
  {
    hide StartEnsure;
    StartEnsureCalls(s.(c := s.c.(access := None)));
  }

  lemma OtherSaveMoves(s: State, t: Id, op: Id)
    requires t in s.tasks
    ensures Stays(s, ResumeOtherSave(s, t, op))
  {
    hide PersistLoop;
    PersistLoopCalls(s, t);
  }

  lemma ConnectDrainMoves(s: State, t: Id, op: Id)
    requires t in s.tasks
    ensures Stays(s, ResumeConnectDrain(s, t, op))
  {
    hide ConnectLoop;
    ConnectLoopCalls(s, t);
  }

  lemma OpenVerifyMoves(s: State, t: Id, i: Input)
    requires t in s.tasks
    ensures Stays(s, ResumeOpenVerify(s, t, i))
  {
    hide StartSync;
    StartSyncCalls(s);
  }

  lemma OpenSyncMoves(s: State, t: Id, from: Id)
    requires t in s.tasks
    ensures Stays(s, ResumeOpenSync(s, t, from))
  {
    hide StartRequest;
    StartRequestCalls(s);
  }

  lemma LogoutRevokeMoves(s: State, t: Id, i: Input)
    requires t in s.tasks
    ensures Stays(s, ResumeLogoutRevoke(s, t, i))
  {
    hide FinishLogout;
    FinishLogoutMoves(s, t);
  }

  lemma CallsMove(s: State, s': State)
    requires Call(s, s')
    ensures Stays(s, s')
  {
  }

  lemma CallingMoves(s: State, t: Id, i: Input)
    requires t in s.tasks && Calling(s.tasks[t].at)
    ensures Stays(s, Advance(s, t, i))
  {
    hide Stays, Call, ResumeOtherSave, ResumeEnsure, ResumeEnsureOwn, ResumeRefreshVerify, ResumeRefreshExchange, ResumeRequestEnsure,
      ResumeRequestSend, ResumeSyncOwn, ResumeSyncRequest, ResumeConnectDrain, ResumeConnectOwn, ResumeOpenVerify,
      ResumeOpenSync, ResumeOpenTicket, ResumeLoginVerify, ResumeLoginPersist, ResumeLoginAuthorize, ResumeLoginStore,
      ResumeLoginConnect, ResumeLogoutRevoke, FinishRemove, ResumeAwaitConnect, Propagate;
    match s.tasks[t].at
    case OtherSave(op) => OtherSaveMoves(s, t, op);
    case ConnectDrain(op) => ConnectDrainMoves(s, t, op);
    case OpenVerify => OpenVerifyMoves(s, t, i);
    case OpenSync(from) => OpenSyncMoves(s, t, from);
    case LogoutRevoke => LogoutRevokeMoves(s, t, i);
    case RequestSend(retry) => RequestSendCalls(s, t, retry, i); CallsMove(s, ResumeRequestSend(s, t, retry, i));
    case LoginVerify => LoginVerifyMoves(s, t, i);
    case LoginStore(from) => LoginStoreCalls(s, t, from); CallsMove(s, ResumeLoginStore(s, t, from));
  }

  lemma LoginPersistMoves(s: State, t: Id, from: Id)
    requires t in s.tasks
    ensures Stays(s, ResumeLoginPersist(s, t, from))
  {
    hide FailLogin, EndLogin;
    LoginEndsCalls(s, t, Other, Ok);
    LoginEndsCalls(s, t, if Finished(s, from) && OutcomeOf(s, from).Err? then OutcomeOf(s, from).failure else Other, Ok);
  }

  lemma LoginConnectMoves(s: State, t: Id, from: Id)
    requires t in s.tasks
    ensures Stays(s, ResumeLoginConnect(s, t, from))
  {
    hide FailLogin, EndLogin;
    LoginEndsCalls(s, t, if Finished(s, from) && OutcomeOf(s, from).Err? then OutcomeOf(s, from).failure else Other, Ok);
  }

  lemma LoginPointsMove(s: State, t: Id, i: Input)
    requires t in s.tasks && (s.tasks[t].at.LoginPersist? || s.tasks[t].at.LoginConnect?)
    ensures Stays(s, Advance(s, t, i))
  {
    hide Stays, ResumeOtherSave, ResumeEnsure, ResumeEnsureOwn, ResumeRefreshVerify, ResumeRefreshExchange, ResumeRequestEnsure,
      ResumeRequestSend, ResumeSyncOwn, ResumeSyncRequest, ResumeConnectDrain, ResumeConnectOwn, ResumeOpenVerify,
      ResumeOpenSync, ResumeOpenTicket, ResumeLoginVerify, ResumeLoginPersist, ResumeLoginAuthorize, ResumeLoginStore,
      ResumeLoginConnect, ResumeLogoutRevoke, FinishRemove, ResumeAwaitConnect, Propagate;
    match s.tasks[t].at
    case LoginPersist(from) => LoginPersistMoves(s, t, from);
    case LoginConnect(from) => LoginConnectMoves(s, t, from);
  }

  lemma RemovalMoves(s: State, t: Id)
    requires t in s.tasks
    ensures Moves(s, FinishRemove(s, t))
    ensures FinishRemove(s, t).live == !s.disk.ready && (FinishRemove(s, t).live ==> FinishRemove(s, t).disk == s.disk)
    ensures FinishRemove(s, t).live ==> FinishRemove(s, t).c == s.c
  {
  }

  lemma ReconnectMoves(s: State, t: Id, from: Id)
    requires t in s.tasks
    ensures Stays(s, ResumeAwaitConnect(s, t, from))
  {
    hide ScheduleReconnect;
    if Finished(s, from) && OutcomeOf(s, from).Err? {
      ScheduleReconnectCalls(Finish(s, t, OutcomeOf(s, from)), OutcomeOf(s, from).failure);
    }
  }

  lemma AwaitConnectMoves(s: State, t: Id, i: Input)
    requires t in s.tasks && s.tasks[t].at.AwaitConnect?
    ensures Stays(s, Advance(s, t, i))
  {
    hide Stays, ResumeOtherSave, ResumeEnsure, ResumeEnsureOwn, ResumeRefreshVerify, ResumeRefreshExchange, ResumeRequestEnsure,
      ResumeRequestSend, ResumeSyncOwn, ResumeSyncRequest, ResumeConnectDrain, ResumeConnectOwn, ResumeOpenVerify,
      ResumeOpenSync, ResumeOpenTicket, ResumeLoginVerify, ResumeLoginPersist, ResumeLoginAuthorize, ResumeLoginStore,
      ResumeLoginConnect, ResumeLogoutRevoke, FinishRemove, ResumeAwaitConnect, Propagate;
    ReconnectMoves(s, t, s.tasks[t].at.t);
  }

  lemma PropagateCalls(s: State, t: Id, from: Id)
    requires t in s.tasks
    ensures Call(s, Propagate(s, t, from))
  {
  }

  lemma PassingMoves(s: State, t: Id, i: Input)
    requires t in s.tasks && Passing(s.tasks[t].at)
    ensures Stays(s, Advance(s, t, i))
  {
    hide Propagate;
    match s.tasks[t].at
    case EnsureJoin(op) => PropagateCalls(s, t, op);
    case RefreshStore(op) => PropagateCalls(s, t, op);
    case SyncJoin(op) => PropagateCalls(s, t, op);
    case ConnectJoin(op) => PropagateCalls(s, t, op);
    case LogoutPersist(op) => PropagateCalls(s, t, op);
  }

  lemma OwningMoves(s: State, t: Id, i: Input)
    requires t in s.tasks && Owning(s.tasks[t].at)
    ensures Stays(s, Advance(s, t, i))
  {
    hide ResumeEnsure, ResumeEnsureOwn, ResumeSyncOwn, ResumeConnectOwn;
    match s.tasks[t].at
    case EnsurePersist(from) => EnsureCalls(s, t, from, i.now);
    case EnsureOwn(op) => EnsureOwnCalls(s, t, op);
    case SyncOwn(op) => SyncOwnCalls(s, t, op);
    case ConnectOwn(op) => ConnectOwnCalls(s, t, op);
  }

  lemma OtherwiseMoves(s: State, t: Id, i: Input)
    requires t in s.tasks && !Calling(s.tasks[t].at) && !SigningIn(s.tasks[t].at) && !s.tasks[t].at.AwaitConnect?
    requires !s.tasks[t].at.RefreshExchange? && !s.tasks[t].at.RemoveRevoke?
    ensures Stays(s, Advance(s, t, i))
  {
    if Passing(s.tasks[t].at) {
      hide Advance, Stays;
      PassingMoves(s, t, i);
    } else if Owning(s.tasks[t].at) {
      hide Advance, Stays;
      OwningMoves(s, t, i);
    }
  }

  lemma EnsureCalls(s: State, t: Id, from: Id, now: int)
    requires t in s.tasks
    ensures Call(s, ResumeEnsure(s, t, from, now))
  {
  }

  lemma EnsureOwnCalls(s: State, t: Id, op: Id)
    requires t in s.tasks
    ensures Call(s, ResumeEnsureOwn(s, t, op))
  {
  }

  lemma SyncOwnCalls(s: State, t: Id, op: Id)
    requires t in s.tasks
    ensures Call(s, ResumeSyncOwn(s, t, op))
  {
  }

  lemma ConnectOwnCalls(s: State, t: Id, op: Id)
    requires t in s.tasks
    ensures Call(s, ResumeConnectOwn(s, t, op))
  {
  }

  lemma AdvanceMoves(s: State, t: Id, i: Input)
    ensures Moves(s, Advance(s, t, i))
    ensures !(t in s.tasks && s.tasks[t].at.RemoveRevoke?) ==> Stays(s, Advance(s, t, i))
  {
    if t in s.tasks {
      hide Advance, Moves;
      if Calling(s.tasks[t].at) {
        CallingMoves(s, t, i);
      } else if s.tasks[t].at.LoginPersist? || s.tasks[t].at.LoginConnect? {
        LoginPointsMove(s, t, i);
      } else if s.tasks[t].at.AwaitConnect? {
        AwaitConnectMoves(s, t, i);
      } else if s.tasks[t].at.RefreshExchange? || s.tasks[t].at.LoginAuthorize? || s.tasks[t].at.RemoveRevoke? {
        ChangingPointsMove(s, t, i);
      } else {
        OtherwiseMoves(s, t, i);
      }
    }
  }

  lemma ChangingPointsMove(s: State, t: Id, i: Input)
    requires t in s.tasks
    requires s.tasks[t].at.RefreshExchange? || s.tasks[t].at.LoginAuthorize? || s.tasks[t].at.RemoveRevoke?
    ensures Moves(s, Advance(s, t, i)) && (!s.tasks[t].at.RemoveRevoke? ==> Stays(s, Advance(s, t, i)))
  {
    hide Moves, ResumeOtherSave, ResumeEnsure, ResumeEnsureOwn, ResumeRefreshVerify, ResumeRefreshExchange, ResumeRequestEnsure,
      ResumeRequestSend, ResumeSyncOwn, ResumeSyncRequest, ResumeConnectDrain, ResumeConnectOwn, ResumeOpenVerify,
      ResumeOpenSync, ResumeOpenTicket, ResumeLoginVerify, ResumeLoginPersist, ResumeLoginAuthorize, ResumeLoginStore,
      ResumeLoginConnect, ResumeLogoutRevoke, FinishRemove, ResumeAwaitConnect, Propagate;
    match s.tasks[t].at
    case RefreshExchange => RefreshExchangeMoves(s, t, i);
    case LoginAuthorize => LoginAuthorizeMoves(s, t, i);
    case RemoveRevoke => RemovalMoves(s, t);
  }

  /** The events that start requests or attempts. */
  predicate Starts(e: Event) { e.ResumeCalled? || e.SnapshotCalled? || e.RequestCalled? || e.TimerFired? || e.SocketLost? }

  lemma StartEventMoves(s: State, e: Event)
    requires Starts(e)
    ensures Stays(s, Step(s, e))
  {
    hide ConnectInBackground, ScheduleReconnect, StartRequest, StartSync;
    match e
    case ResumeCalled => BackgroundCalls(Stop(s), s.c.generation + 1);
    case SnapshotCalled =>
      BackgroundCalls(s, s.c.generation);
      StartSyncCalls(s);
      StartSyncCalls(ConnectInBackground(s, s.c.generation));
    case RequestCalled => StartRequestCalls(s);
    case TimerFired => BackgroundCalls(s.(c := s.c.(timer := None)), s.c.generation);
    case SocketLost(k) => ScheduleReconnectCalls(s.(c := s.c.(socket := None)), Other);
  }

  lemma OtherEventMoves(s: State, e: Event)
    requires !e.Advanced? && !e.WriteSettled?
    ensures Stays(s, Step(s, e))
  {
    hide FinishLogout, FinishRemove;
    if Starts(e) {
      hide Step, Stays;
      StartEventMoves(s, e);
    } else if e.LogoutCalled? {
      FinishLogoutMoves(Spawn(Stop(s), s.c.generation + 1, LogoutRevoke), s.next);
    } else if e.RemoveCalled? {
      RemovalMoves(Spawn(Stop(s), s.c.generation + 1, RemoveRevoke), s.next);
    }
  }

  lemma StepMoves(s: State, e: Event)
    requires !e.WriteSettled?
    ensures Moves(s, Step(s, e))
    ensures !(e.Advanced? && e.t in s.tasks && s.tasks[e.t].at.RemoveRevoke?) ==> Stays(s, Step(s, e))
  {
    hide Moves, Advance;
    if e.Advanced? {
      AdvanceMoves(s, e.t, e.i);
    } else {
      OtherEventMoves(s, e);
    }
  }

  // ---------------------------------------------------------------- the ledger: history and queued snapshots

  /** A record the store accepts: a refresh token only together with a device key. */
  predicate Storable(cred: Cred) { cred.refresh.Some? ==> cred.key.Some? }

  predicate HistoryOk(s: State) {
    && |s.history| > 0 && s.history[|s.history| - 1] == Creds(s.c)
    && (forall i :: 0 <= i < |s.history| ==> Storable(s.history[i]))
    && (forall i, j :: 0 <= i < j < |s.history| && s.history[i].key.Some? ==> s.history[j].key == s.history[i].key)
  }

  /** Every queued write is a snapshot of one past value, and the snapshots are queued in the order of those values. */
  predicate QueueOk(s: State) {
    && (forall i :: 0 <= i < |s.disk.queue| ==>
          var w := s.disk.queue[i];
          && 1 <= w.version <= |s.history|
          && (w.record.Some? ==> w.record.value == s.history[w.version - 1])
          && (w.owner.ByPersist? ==> w.owner.captured == s.history[w.version - 1]))
    && (forall i, j :: 0 <= i < j < |s.disk.queue| ==> s.disk.queue[i].version <= s.disk.queue[j].version)
  }

  predicate Ledger(s: State) { HistoryOk(s) && QueueOk(s) }

  lemma MovesKeepLedger(s: State, s': State)
    requires Ledger(s) && Moves(s, s') && Bound(s'.c) && Bound(s.c) && Lasting(s.c, s'.c)
    ensures Ledger(s')
  {
  }

  lemma PopKeepsLedger(s: State, ok: bool)
    requires Ledger(s) && s.disk.queue != []
    ensures Ledger(Popped(s, ok))
  {
  }

  /** Who continues after a write: a persist that found its values unchanged makes the connection clean. */
  predicate Cleans(s: State, w: Write, ok: bool) {
    && ok && w.owner.ByPersist? && w.owner.t in s.tasks && s.tasks[w.owner.t].at.OwnSave?
    && w.owner.captured == Creds(s.c)
  }

  lemma ContinueCalls(s: State, w: Write, ok: bool)
    ensures var s' := Continue(s, w, ok);
            if Cleans(s, w, ok) then Call(s.(c := s.c.(dirty := false)), s') else Grows(s, s')
  {
    hide PersistLoop;
    if w.owner.ByPersist? && w.owner.t in s.tasks && s.tasks[w.owner.t].at.OwnSave? {
      var s1 := if s.c.saving == Some(w.op) then s.(c := s.c.(saving := None)) else s;
      var s2 := At(s1, w.owner.t, Begin);
      PersistLoopCalls(s2, w.owner.t);
      PersistLoopCalls(s2.(c := s2.c.(dirty := false)), w.owner.t);
    }
  }

  lemma StepKeepsLedger(s: State, e: Event)
    requires Inv(s) && Ledger(s)
    ensures Ledger(Step(s, e))
  {
    var s' := Step(s, e);
    hide Step;
    StepKeeps(s, e);
    StepIsGuarded(s, e);
    if e.WriteSettled? {
      SettleKeepsLedger(s, e);
    } else {
      StepMoves(s, e);
      hide Moves, Ledger;
      MovesKeepLedger(s, s');
    }
  }

  lemma SettleKeepsLedger(s: State, e: Event)
    requires Inv(s) && Ledger(s) && e.WriteSettled?
    ensures Ledger(Step(s, e))
  {
    hide Inv, Continue;
    if s.disk.queue != [] {
      PopKeepsLedger(s, e.ok);
      var s1 := Popped(s, e.ok);
      ContinueCalls(s1, s.disk.queue[0], e.ok);
      hide Popped, Ledger;
      GrowsKeepsLedger(s1, Continue(s1, s.disk.queue[0], e.ok));
    }
  }

  lemma GrowsKeepsLedger(s: State, s': State)
    requires Ledger(s) && (Grows(s, s') || Grows(s.(c := s.c.(dirty := false)), s'))
    ensures Ledger(s')
  {
  }

  // ---------------------------------------------------------------- the moment the connection becomes clean

  predicate BecomesClean(s: State, e: Event) { s.c.dirty && !Step(s, e).c.dirty }

  /**
    Only a successful write ends dirtiness, and at that moment the file is the snapshot it wrote. The file then holds
    the credentials in memory exactly when the connection was in the manager's map when that snapshot was taken.
   */
  lemma CleanMomentIsDurable(s: State, e: Event)
    requires Inv(s) && Ledger(s) && BecomesClean(s, e)
    ensures e == WriteSettled(true) && s.disk.queue != []
    ensures var s' := Step(s, e);
            && s'.disk.file == s.disk.queue[0].record && s'.disk.queue == s.disk.queue[1..]
            && Creds(s'.c) == Creds(s.c) && s'.history == s.history
            && (s'.disk.file == Some(Creds(s'.c)) <==> s.disk.queue[0].record.Some?)
    ensures s.disk.queue[0].owner.ByPersist? && s.disk.queue[0].owner.captured == Creds(s.c)
  {
    hide Inv;
    if !e.WriteSettled? {
      hide Step;
      StepMoves(s, e);
    } else if s.disk.queue != [] {
      hide Continue;
      ContinueCalls(Popped(s, e.ok), s.disk.queue[0], e.ok);
      CleaningAddsNoWrite(Popped(s, e.ok), s.disk.queue[0], e.ok);
    }
  }

  lemma CleaningAddsNoWrite(s: State, w: Write, ok: bool)
    requires Cleans(s, w, ok)
    ensures Continue(s, w, ok).disk == s.disk
  {
  }

  // ---------------------------------------------------------------- staying durable while clean

  const Nobody: Cred := Cred(None, None)

  /** While clean, the file and every queued snapshot give back the credentials in memory. */
  predicate Clean(s: State) {
    !s.c.dirty && s.live ==>
      && Durable(s.disk.file) == Creds(s.c)
      && (forall i :: 0 <= i < |s.disk.queue| ==> Durable(s.disk.queue[i].record) == Creds(s.c))
  }

  /** Afterwards there is a clean connection in the map, before there was not. */
  predicate NewlyClean(s: State, e: Event) {
    var s' := Step(s, e);
    !s'.c.dirty && s'.live && (s.c.dirty || !s.live)
  }

  /** The save of a removal failed, which puts the connection back. */
  predicate PutsBack(s: State, w: Write, ok: bool) {
    !ok && w.owner.ByRemove? && w.owner.t in s.tasks && s.tasks[w.owner.t].at.RemoveSave?
  }

  /** A second removal, running while the first is being saved, finds the store unusable and puts the connection back. */
  predicate PutsBackAtOnce(s: State, e: Event) {
    e.Advanced? && e.t in s.tasks && s.tasks[e.t].at.RemoveRevoke? && !s.disk.ready
  }

  /** An own save found its values unchanged, or a removal of a clean connection failed. */
  predicate MakesClean(s: State, e: Event) {
    || (e.WriteSettled? && s.disk.queue != [] && s.live && s.c.dirty && Cleans(s, s.disk.queue[0], e.ok))
    || (e.WriteSettled? && s.disk.queue != [] && !s.live && !s.c.dirty && PutsBack(s, s.disk.queue[0], e.ok))
    || (!s.live && !s.c.dirty && PutsBackAtOnce(s, e))
  }

  /** The file and the queue once the event has happened, if it is a write result or writes nothing. */
  function FileAfter(s: State, e: Event): Option<Cred> {
    if e == WriteSettled(true) && s.disk.queue != [] then s.disk.queue[0].record else s.disk.file
  }

  function QueueAfter(s: State, e: Event): seq<Write> {
    if e.WriteSettled? && s.disk.queue != [] then s.disk.queue[1..] else s.disk.queue
  }

  lemma WriteNewlyCleans(s: State, e: Event)
    requires e.WriteSettled?
    ensures NewlyClean(s, e) <==> MakesClean(s, e)
    ensures var s' := Step(s, e);
            MakesClean(s, e) ==>
              s'.disk.file == FileAfter(s, e) && s'.disk.queue == QueueAfter(s, e) && Creds(s'.c) == Creds(s.c)
  {
    hide Continue;
    if s.disk.queue != [] {
      WriteMakesClean(Popped(s, e.ok), s.disk.queue[0], e.ok);
    }
  }

  lemma NewlyCleanOnlyBy(s: State, e: Event)
    ensures NewlyClean(s, e) <==> MakesClean(s, e)
    ensures var s' := Step(s, e);
            MakesClean(s, e) ==>
              s'.disk.file == FileAfter(s, e) && s'.disk.queue == QueueAfter(s, e) && Creds(s'.c) == Creds(s.c)
  {
    if e.WriteSettled? {
      hide Step, NewlyClean, MakesClean;
      WriteNewlyCleans(s, e);
    } else if e.Advanced? && e.t in s.tasks && s.tasks[e.t].at.RemoveRevoke? {
      hide FinishRemove;
      RemovalMoves(s, e.t);
    } else {
      hide Step;
      StepMoves(s, e);
    }
  }

  lemma WriteMakesClean(s: State, w: Write, ok: bool)
    ensures var s' := Continue(s, w, ok);
            && (!s'.c.dirty && s.c.dirty <==> s.c.dirty && Cleans(s, w, ok))
            && (s'.live && !s.live <==> !s.live && PutsBack(s, w, ok))
            && (!s.c.dirty ==> !s'.c.dirty)
            && (s'.live || s.live ==> s'.live || w.owner.ByAdd?)
            && (Cleans(s, w, ok) || PutsBack(s, w, ok) ==> s'.disk == s.disk && Creds(s'.c) == Creds(s.c))
  {
    if w.owner.ByPersist? {
      hide PersistLoop;
      ContinueCalls(s, w, ok);
    }
    if Cleans(s, w, ok) {
      CleaningAddsNoWrite(s, w, ok);
    }
  }

  /** Whatever does not newly make a clean connection keeps a clean one durable. */
  lemma CleanStays(s: State, e: Event)
    requires Inv(s) && Ledger(s) && Clean(s) && !NewlyClean(s, e)
    ensures Clean(Step(s, e))
  {
    hide Inv;
    if !e.WriteSettled? {
      hide Step;
      StepMoves(s, e);
    } else if s.disk.queue != [] {
      hide Continue;
      ContinueCalls(Popped(s, e.ok), s.disk.queue[0], e.ok);
    }
  }

  // ---------------------------------------------------------------- fresh tokens

  /** A refresh token is current during one stretch of the history only. */
  predicate Unrepeated(s: State) {
    forall i, k, j :: 0 <= i <= k <= j < |s.history|
      && s.history[i].refresh.Some? && s.history[i].refresh == s.history[j].refresh
      ==> s.history[k].refresh == s.history[i].refresh
  }

  /** The server never issues a refresh token the connection has already had. */
  predicate FreshToken(s: State, e: Event) {
    e.Advanced? && e.t in s.tasks && (s.tasks[e.t].at.RefreshExchange? || s.tasks[e.t].at.LoginAuthorize?)
    ==> forall i :: 0 <= i < |s.history| ==> s.history[i].refresh != Some(e.i.refresh)
  }

  lemma UnrepeatedStays(s: State, e: Event)
    requires Inv(s) && Ledger(s) && Unrepeated(s) && FreshToken(s, e)
    ensures Unrepeated(Step(s, e))
  {
    var s' := Step(s, e);
    hide Inv, Step, Unrepeated;
    if e.WriteSettled? {
      SettleKeepsHistory(s, e.ok);
      SameHistory(s, s');
    } else {
      StepMoves(s, e);
      if s'.history != s.history {
        NewTokenIsFresh(s, e);
        PushKeepsUnrepeated(s, s');
      } else {
        SameHistory(s, s');
      }
    }
  }

  lemma SameHistory(s: State, s': State)
    requires Unrepeated(s) && s'.history == s.history
    ensures Unrepeated(s')
  {
  }

  lemma NewTokenIsFresh(s: State, e: Event)
    requires Inv(s) && FreshToken(s, e)
    ensures var s' := Step(s, e);
            s'.c.refresh.Some? && s'.c.refresh != s.c.refresh ==>
              forall i :: 0 <= i < |s.history| ==> s.history[i].refresh != s'.c.refresh
  {
    StepIsGuarded(s, e);
    hide Inv;
    if e.Advanced? && e.t in s.tasks && (s.tasks[e.t].at.RefreshExchange? || s.tasks[e.t].at.LoginAuthorize?) {
      hide Step;
      ExchangedToken(s, e);
    }
  }

  lemma RefreshedToken(s: State, t: Id, i: Input)
    requires t in s.tasks
    ensures var s' := ResumeRefreshExchange(s, t, i); s'.c.refresh == s.c.refresh || s'.c.refresh == Some(i.refresh)
  {
    hide StartPersist;
    StartPersistCalls(StoreTokens(s, i));
  }

  lemma AuthorizedToken(s: State, t: Id, i: Input)
    requires t in s.tasks
    ensures var s' := ResumeLoginAuthorize(s, t, i); s'.c.refresh == s.c.refresh || s'.c.refresh == Some(i.refresh)
  {
    hide StartPersist, FailLogin, EndLogin;
    StartPersistCalls(StoreTokens(s, i));
    LoginEndsCalls(s, t, if i.failure.Some? then i.failure.value else Other, Ok);
  }

  lemma ExchangedToken(s: State, e: Event)
    requires e.Advanced? && e.t in s.tasks && (s.tasks[e.t].at.RefreshExchange? || s.tasks[e.t].at.LoginAuthorize?)
    ensures Step(s, e).c.refresh == s.c.refresh || Step(s, e).c.refresh == Some(e.i.refresh)
  {
    hide ResumeOtherSave, ResumeEnsure, ResumeEnsureOwn, ResumeRefreshVerify, ResumeRefreshExchange, ResumeRequestEnsure,
      ResumeRequestSend, ResumeSyncOwn, ResumeSyncRequest, ResumeConnectDrain, ResumeConnectOwn, ResumeOpenVerify,
      ResumeOpenSync, ResumeOpenTicket, ResumeLoginVerify, ResumeLoginPersist, ResumeLoginAuthorize, ResumeLoginStore,
      ResumeLoginConnect, ResumeLogoutRevoke, FinishRemove, ResumeAwaitConnect, Propagate;
    if s.tasks[e.t].at.RefreshExchange? {
      RefreshedToken(s, e.t, e.i);
    } else {
      AuthorizedToken(s, e.t, e.i);
    }
  }

  lemma SettleKeepsHistory(s: State, ok: bool)
    ensures Step(s, WriteSettled(ok)).history == s.history
  {
    hide Continue;
    if s.disk.queue != [] {
      ContinueCalls(Popped(s, ok), s.disk.queue[0], ok);
    }
  }

  lemma PushKeepsUnrepeated(s: State, s': State)
    requires HistoryOk(s) && Unrepeated(s) && s'.history == s.history + [Creds(s'.c)]
    requires s'.c.refresh.Some? && s'.c.refresh != s.c.refresh ==>
               forall i :: 0 <= i < |s.history| ==> s.history[i].refresh != s'.c.refresh
    ensures Unrepeated(s')
  {
    var n := |s.history|;
    forall i, k, j | 0 <= i <= k <= j < |s'.history|
      && s'.history[i].refresh.Some? && s'.history[i].refresh == s'.history[j].refresh
      ensures s'.history[k].refresh == s'.history[i].refresh
    {
      if j == n && i < n && k < n {
        assert s.history[i].refresh == s.history[n - 1].refresh;
      }
    }
  }

  // ---------------------------------------------------------------- how a clean connection can differ from the store

  /** A record of these credentials, or of a token the signed-out connection no longer has; or no record. */
  predicate Fits(cred: Cred, record: Option<Cred>) {
    record.Some? ==> record.value == cred || (cred.refresh.None? && record.value.refresh.Some?)
  }

  /** While clean, in the map or out of it, the file and every queued snapshot fit. */
  predicate Fitting(s: State) {
    !s.c.dirty ==>
      Fits(Creds(s.c), s.disk.file) && forall i :: 0 <= i < |s.disk.queue| ==> Fits(Creds(s.c), s.disk.queue[i].record)
  }

  /** Between two equal values of an unrepeated history there is only that value, unless both are signed out. */
  lemma FitsBetween(s: State, i: int, k: int)
    requires HistoryOk(s) && Unrepeated(s) && 0 <= i <= k < |s.history| && s.history[i] == Creds(s.c)
    ensures Fits(Creds(s.c), Some(s.history[k]))
  {
    assert s.history[|s.history| - 1] == Creds(s.c);
  }

  lemma BecomingCleanFits(s: State, e: Event)
    requires Inv(s) && Ledger(s) && Unrepeated(s) && BecomesClean(s, e)
    ensures Fitting(Step(s, e))
  {
    hide Inv, Step, Unrepeated, Fits;
    CleanMomentIsDurable(s, e);
    forall i | 0 <= i < |s.disk.queue|
      ensures Fits(Creds(s.c), s.disk.queue[i].record)
    {
      RecordFits(s, i);
    }
  }

  /** With the values captured by the oldest write still in memory, every later snapshot fits. */
  lemma RecordFits(s: State, i: int)
    requires Ledger(s) && Unrepeated(s) && 0 <= i < |s.disk.queue|
    requires s.disk.queue[0].owner.ByPersist? && s.disk.queue[0].owner.captured == Creds(s.c)
    ensures Fits(Creds(s.c), s.disk.queue[i].record)
  {
    hide Unrepeated;
    FitsBetween(s, s.disk.queue[0].version - 1, s.disk.queue[i].version - 1);
  }

  lemma FittingStays(s: State, e: Event)
    requires Inv(s) && Ledger(s) && Unrepeated(s) && Fitting(s)
    ensures Fitting(Step(s, e))
  {
    if BecomesClean(s, e) {
      hide Inv, Ledger, Unrepeated, Step, Fitting;
      BecomingCleanFits(s, e);
    } else if !e.WriteSettled? {
      hide Inv, Unrepeated, Step;
      StepMoves(s, e);
    } else if s.disk.queue != [] {
      hide Inv, Unrepeated, Continue;
      ContinueCalls(Popped(s, e.ok), s.disk.queue[0], e.ok);
    }
  }

  /** A clean connection with credentials is left out of the file or of a snapshot still to be written. */
  predicate Loses(s: State, e: Event) {
    && MakesClean(s, e) && Creds(s.c) != Nobody
    && (FileAfter(s, e).None? || exists w :: w in QueueAfter(s, e) && w.record.None?)
  }

  predicate HoldsToken(record: Option<Cred>) { record.Some? && record.value.refresh.Some? }

  /** A clean, signed-out connection has a token in the file or in a snapshot still to be written. */
  predicate Recurs(s: State, e: Event) {
    && MakesClean(s, e) && s.c.refresh.None?
    && (HoldsToken(FileAfter(s, e)) || exists w :: w in QueueAfter(s, e) && HoldsToken(w.record))
  }

  /** Of fitting records, those that give back the credentials. */
  lemma FittingGivesBack(cred: Cred, record: Option<Cred>)
    requires Fits(cred, record)
    ensures Durable(record) == cred <==> (cred != Nobody ==> record.Some?) && (cred.refresh.None? ==> !HoldsToken(record))
  {
  }

  /** An event that makes the connection clean, or puts a clean one back, is durable unless it loses or recurs. */
  lemma BecomingCleanIsDurableIff(s: State, e: Event)
    requires Inv(s) && Ledger(s) && Unrepeated(s) && Fitting(s) && MakesClean(s, e)
    ensures Clean(Step(s, e)) <==> !Loses(s, e) && !Recurs(s, e)
  {
    var s' := Step(s, e);
    NewlyCleanOnlyBy(s, e);
    FittingStays(s, e);
    hide Inv, Ledger, Unrepeated, Step, MakesClean, Fits, HoldsToken, FileAfter, QueueAfter;
    FittingGivesBack(Creds(s.c), s'.disk.file);
    forall w | w in QueueAfter(s, e)
      ensures Durable(w.record) == Creds(s.c)
              <==> (Creds(s.c) != Nobody ==> w.record.Some?) && (s.c.refresh.None? ==> !HoldsToken(w.record))
    {
      FittingGivesBack(Creds(s.c), w.record);
    }
  }

  predicate Present(s: State) { s.live ==> forall i :: 0 <= i < |s.disk.queue| ==> s.disk.queue[i].record.Some? }

  /** With the connection in every queued snapshot, only a recurrence keeps the moment of becoming clean from being durable. */
  lemma FreshlyCleanIsDurable(s: State, e: Event)
    requires Inv(s) && Ledger(s) && Unrepeated(s) && Fitting(s) && Present(s) && BecomesClean(s, e) && Step(s, e).live
    ensures Clean(Step(s, e)) <==> !Recurs(s, e)
  {
    NewlyCleanOnlyBy(s, e);
    CleanMomentIsDurable(s, e);
    BecomingCleanIsDurableIff(s, e);
    hide Inv, Ledger, Unrepeated, Fitting, Step, Clean, Recurs;
  }

  // ---------------------------------------------------------------- whole runs

  predicate Kept(s: State) { Inv(s) && Ledger(s) && Unrepeated(s) && Fitting(s) }

  /** The server never repeats a refresh token. */
  predicate FreshTokens(s: State, es: seq<Event>)
    decreases |es|
  {
    es == [] || (FreshTokens(s, es[..|es| - 1]) && FreshToken(Run(s, es[..|es| - 1]), es[|es| - 1]))
  }

  /** No write result loses the record of a clean connection or leaves a token of a signed-out one behind. */
  predicate Orderly(s: State, es: seq<Event>)
    decreases |es|
  {
    es == [] ||
    var before := es[..|es| - 1];
    var e := es[|es| - 1];
    Orderly(s, before) && !Loses(Run(s, before), e) && !Recurs(Run(s, before), e)
  }

  lemma StepIsKept(s: State, e: Event)
    requires Kept(s) && FreshToken(s, e)
    ensures Kept(Step(s, e))
  {
    hide Inv, Ledger, Step, Unrepeated, Fitting;
    StepKeeps(s, e);
    StepKeepsLedger(s, e);
    UnrepeatedStays(s, e);
    FittingStays(s, e);
  }

  lemma {:induction false} RunIsKept(s: State, es: seq<Event>)
    requires Kept(s) && FreshTokens(s, es)
    ensures Kept(Run(s, es))
    decreases |es|
  {
    hide Kept, Step;
    if es != [] {
      RunIsKept(s, es[..|es| - 1]);
      StepIsKept(Run(s, es[..|es| - 1]), es[|es| - 1]);
    }
  }

  lemma InitialIsKept(s: State)
    requires Initial(s)
    ensures Kept(s) && Clean(s)
  {
    InitialInv(s);
  }

  /**
    Whatever fails and whatever interleaves: a stored or queued record of a clean connection is that of its credentials,
    or it holds a token the connection, now signed out, had before.
   */
  lemma CleanRecordsFit(start: State, es: seq<Event>)
    requires Initial(start) && FreshTokens(start, es)
    ensures Fitting(Run(start, es))
  {
    hide Inv, Ledger, Unrepeated, Fitting;
    InitialIsKept(start);
    RunIsKept(start, es);
  }

  /** One step from a durable state is durable exactly when it neither loses nor recurs. */
  lemma StepIsDurableIff(s: State, e: Event)
    requires Kept(s) && Clean(s)
    ensures Clean(Step(s, e)) <==> !Loses(s, e) && !Recurs(s, e)
  {
    hide Inv, Unrepeated, Fitting, Step, Clean, NewlyClean;
    NewlyCleanOnlyBy(s, e);
    hide Ledger;
    if MakesClean(s, e) {
      BecomingCleanIsDurableIff(s, e);
    } else {
      CleanStays(s, e);
    }
  }

  /** A run from a loaded or added connection is durable at every moment exactly when it is orderly. */
  lemma {:induction false} DurableThroughoutIff(start: State, es: seq<Event>)
    requires Initial(start) && FreshTokens(start, es)
    ensures Orderly(start, es) <==> forall k :: 0 <= k <= |es| ==> Clean(Run(start, es[..k]))
    decreases |es|
  {
    hide Kept, Clean, Step, Loses, Recurs;
    InitialIsKept(start);
    if es != [] {
      hide Run;
      var before, e := es[..|es| - 1], es[|es| - 1];
      DurableThroughoutIff(start, before);
      RunIsKept(start, before);
      LastStep(start, es);
      assert forall k :: 0 <= k <= |before| ==> before[..k] == es[..k];
      assert es[..|es|] == es && before[..|before|] == before;
      if Clean(Run(start, before)) {
        StepIsDurableIff(Run(start, before), e);
      }
    } else {
      assert es[..0] == es;
    }
  }

  lemma LastStep(s: State, es: seq<Event>)
    requires es != []
    ensures Run(s, es) == Step(Run(s, es[..|es| - 1]), es[|es| - 1])
  {
  }

  /** Whenever a connection in the manager is clean, the stored record gives back its credentials. */
  lemma CleanIsDurable(start: State, es: seq<Event>)
    requires Initial(start) && FreshTokens(start, es) && Orderly(start, es)
    ensures var s := Run(start, es);
            s.live && !s.c.dirty ==> Durable(s.disk.file) == Creds(s.c)
  {
    hide Orderly, FreshTokens, Run;
    DurableThroughoutIff(start, es);
    assert es[..|es|] == es;
  }

  lemma {:induction false} RunKeepsLedger(s: State, es: seq<Event>)
    requires Inv(s) && Ledger(s)
    ensures Inv(Run(s, es)) && Ledger(Run(s, es))
    decreases |es|
  {
    hide Inv, Ledger, Step;
    RunKeeps(s, es);
    if es != [] {
      var before := es[..|es| - 1];
      RunKeepsLedger(s, before);
      StepKeepsLedger(Run(s, before), es[|es| - 1]);
    }
  }

  /** No queued snapshot holds a refresh token without a device key, so the store never refuses one for that reason. */
  lemma SnapshotsAreStorable(start: State, es: seq<Event>, i: int)
    requires Initial(start) && 0 <= i < |Run(start, es).disk.queue|
    ensures var w := Run(start, es).disk.queue[i]; w.record.Some? ==> Storable(w.record.value)
  {
    InitialIsKept(start);
    RunKeepsLedger(start, es);
    hide Run;
  }
}
