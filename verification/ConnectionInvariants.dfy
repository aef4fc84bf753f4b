/** What every step of the connection protocol keeps, whatever the interleaving. */
module ConnectionInvariants {
  import opened Option
  import opened ConnectionModel

  /** An event-connection attempt that has not ended. */
  predicate Opening(at: Point) { at.OpenVerify? || at.OpenSync? || at.OpenTicket? }

  /** A refresh exchange that has not ended. */
  predicate Exchanging(at: Point) { at.RefreshVerify? || at.RefreshExchange? || at.RefreshStore? }

  /** A login that has not ended. */
  predicate SigningIn(at: Point) {
    at.LoginVerify? || at.LoginPersist? || at.LoginAuthorize? || at.LoginStore? || at.LoginConnect?
  }

  /** The single-flight slots speak for the only unfinished activation of their kind. */
  predicate PointOk(c: Conn, aborted: set<Id>, t: Id, k: Task) {
    && k.gen <= c.generation
    && (Opening(k.at) ==> c.connecting == Some(t))
    && (Exchanging(k.at) ==> c.refreshing == Some(t) && c.key.Some?)
    && (k.at.SyncRequest? ==> c.syncing == Some(t))
    && (SigningIn(k.at) && t !in aborted ==> c.login == Some(t))
    && (k.at.OwnSave? ==> c.saving == Some(k.at.op))
    && (k.at.LoginPersist? || k.at.LoginAuthorize? ==> c.key.Some?)
  }

  predicate IsAttempt(s: State, t: Id) { t in s.tasks && (Opening(s.tasks[t].at) || s.tasks[t].at.Done?) }

  predicate WaitOk(s: State, k: Task) {
    && (k.at.ConnectJoin? || k.at.ConnectOwn? ==> IsAttempt(s, k.at.op) && s.tasks[k.at.op].gen == k.gen)
    && (k.at.ConnectDrain? ==> IsAttempt(s, k.at.op) && s.tasks[k.at.op].gen < k.gen)
  }

  predicate TaskOk(s: State, t: Id)
    requires t in s.tasks
  {
    t < s.next && PointOk(s.c, s.aborted, t, s.tasks[t]) && WaitOk(s, s.tasks[t])
  }

  predicate Slots(s: State) {
    && (s.c.connecting.Some? ==>
          IsAttempt(s, s.c.connecting.value) && s.tasks[s.c.connecting.value].gen == s.c.connectingGen)
    && (s.c.login.Some? ==>
          && s.c.login.value in s.tasks && s.c.login.value !in s.aborted
          && SigningIn(s.tasks[s.c.login.value].at) && s.tasks[s.c.login.value].gen == s.c.generation)
  }

  predicate Session(s: State) {
    && (s.c.socket.Some? ==> s.c.socket.value in s.sockets && s.sockets[s.c.socket.value] == s.c.generation)
    && (s.c.timer.Some? ==> s.c.timer.value == s.c.generation)
  }

  predicate Bound(c: Conn) {
    && (c.key.Some? <==> c.device.Some?)
    && (c.device.Some? ==> c.device.value == Device(c.origin, c.key.value))
    && (c.refresh.Some? ==> c.key.Some?)
    && (c.access.Some? ==> c.key.Some?)
  }

  predicate TasksOk(s: State) { forall t :: t in s.tasks ==> TaskOk(s, t) }

  predicate IdsOk(s: State) {
    && (forall t :: t in s.aborted ==> t < s.next)
    && (forall k :: k in s.sockets ==> k < s.next && s.sockets[k] <= s.c.generation)
  }

  /** At most one save started by persistCredentials is in flight. */
  predicate OneSave(s: State) {
    forall a, b :: a in s.tasks && b in s.tasks && s.tasks[a].at.OwnSave? && s.tasks[b].at.OwnSave? ==> a == b
  }

  predicate Inv(s: State) {
    TasksOk(s) && Slots(s) && Session(s) && Bound(s.c) && IdsOk(s) && OneSave(s)
  }

  // ---------------------------------------------------------------- primitive changes keep the invariant

  /** What starting a call leaves alone: everything but new activations, single-flight slots and the status. */
  predicate Extends(s: State, s': State) {
    && s.next < s'.next
    && (forall t :: t in s.tasks ==> t in s'.tasks && s'.tasks[t] == s.tasks[t])
    && s'.aborted == s.aborted && s'.sockets == s.sockets && s'.closed == s.closed && s'.live == s.live
    && s'.history == s.history
    && s'.c == s.c.(saving := s'.c.saving, syncing := s'.c.syncing, connecting := s'.c.connecting,
                    connectingGen := s'.c.connectingGen, status := s'.c.status)
    && (s'.c.status == s.c.status || s'.c.status.Connecting?)
  }

  /** A call that can also start no event-connection attempt. */
  predicate ExtendsRequest(s: State, s': State) {
    Extends(s, s') && s'.c.connecting == s.c.connecting && s'.c.connectingGen == s.c.connectingGen
  }

  lemma ExtendsTransitive(a: State, b: State, c: State)
    requires ExtendsRequest(a, b) && ExtendsRequest(b, c)
    ensures ExtendsRequest(a, c)
  {
  }

  lemma NextIsFresh(s: State)
    requires Inv(s)
    ensures s.next !in s.tasks && s.next !in s.sockets && s.c.login != Some(s.next)
    ensures forall t :: t in s.tasks ==> t < s.next
  {
  }

  lemma NoNewSave(s: State, s': State)
    requires OneSave(s)
    requires forall t :: t in s'.tasks && s'.tasks[t].at.OwnSave? ==> t in s.tasks && s'.tasks[t] == s.tasks[t]
    ensures OneSave(s')
  {
  }

  lemma SpawnKeeps(s: State, gen: int, at: Point)
    requires Inv(s) && PointOk(s.c, s.aborted, s.next, Task(gen, at)) && WaitOk(s, Task(gen, at)) && !at.OwnSave?
    ensures Inv(Spawn(s, gen, at)) && ExtendsRequest(s, Spawn(s, gen, at))
  {
  }

  /** Moving one activation on, when it leaves no slot or wait behind that speaks of it. */
  lemma AtKeeps(s: State, t: Id, at: Point)
    requires Inv(s) && t in s.tasks && !at.OwnSave?
    requires PointOk(s.c, s.aborted, t, s.tasks[t].(at := at)) && WaitOk(s, s.tasks[t].(at := at))
    requires IsAttempt(s, t) ==> Opening(at) || at.Done?
    requires s.c.login == Some(t) ==> SigningIn(at)
    ensures Inv(At(s, t, at))
  {
  }

  lemma FinishKeeps(s: State, t: Id, outcome: Outcome)
    requires Inv(s) && t in s.tasks && s.c.login != Some(t)
    ensures Inv(Finish(s, t, outcome))
  {
    AtKeeps(s, t, Done(outcome));
  }

  /** Fields that no activation's point speaks of. */
  predicate SameSlots(c: Conn, d: Conn) {
    && c.generation == d.generation && c.connecting == d.connecting && c.connectingGen == d.connectingGen
    && c.refreshing == d.refreshing && c.syncing == d.syncing && c.saving == d.saving && c.login == d.login
    && (c.key.Some? ==> d.key.Some?)
    && (d.socket == None || d.socket == c.socket)
    && (d.timer == None || d.timer == c.timer || d.timer == Some(d.generation))
  }

  lemma ConnKeeps(s: State, d: Conn)
    requires Inv(s) && SameSlots(s.c, d) && Bound(d)
    ensures Inv(s.(c := d))
  {
  }

  lemma RestKeeps(s: State, s': State)
    requires Inv(s) && s'.c == s.c && s'.tasks == s.tasks && s'.sockets == s.sockets && s'.aborted == s.aborted
    requires s.next <= s'.next
    ensures Inv(s')
  {
  }

  lemma TakeSaving(s: State, t: Id, op: Id)
    requires Inv(s) && t in s.tasks && s.c.saving.None? && !IsAttempt(s, t) && s.c.login != Some(t)
    ensures Inv(At(s.(c := s.c.(saving := Some(op))), t, OwnSave(op)))
  {
  }

  lemma TakeSyncing(s: State, t: Id, from: Id)
    requires Inv(s) && t in s.tasks && s.c.syncing.None? && !IsAttempt(s, t) && s.c.login != Some(t)
    ensures var s1 := At(s, t, SyncRequest(from)); Inv(s1.(c := s1.c.(syncing := Some(t))))
  {
  }

  lemma ClearSlotKeeps(s: State, op: Id, d: Conn)
    requires Inv(s) && Finished(s, op)
    requires d == s.c || (s.c.refreshing == Some(op) && d == s.c.(refreshing := None))
          || (s.c.syncing == Some(op) && d == s.c.(syncing := None))
          || (s.c.connecting == Some(op) && d == s.c.(connecting := None))
    ensures Inv(s.(c := d))
  {
  }

  lemma SaveEndsKeeps(s: State, t: Id, at: Point)
    requires Inv(s) && t in s.tasks && s.tasks[t].at.OwnSave? && (at.Begin? || at.Done?)
    ensures Inv(At(s, t, at)) && Inv(At(s.(c := s.c.(saving := None)), t, at))
  {
    AtKeeps(s, t, at);
    var s1 := At(s, t, at);
    assert forall x :: x in s1.tasks ==> !s1.tasks[x].at.OwnSave?;
    assert At(s.(c := s.c.(saving := None)), t, at) == s1.(c := s1.c.(saving := None));
  }

  lemma StopKeeps(s: State)
    requires Inv(s)
    ensures Inv(Stop(s))
  {
  }

  lemma SetCredsKeeps(s: State, key: Option<Key>, refresh: Option<Token>)
    requires Inv(s) && Bound(s.c.(key := key, refresh := refresh))
    ensures Inv(SetCreds(s, key, refresh))
  {
    var d := s.c.(key := key, refresh := refresh, dirty := true);
    ConnKeeps(s, d);
    RestKeeps(s.(c := d), SetCreds(s, key, refresh));
  }

  lemma StoreTokensKeeps(s: State, i: Input)
    requires Inv(s) && s.c.key.Some?
    ensures Inv(StoreTokens(s, i))
  {
    SetCredsKeeps(s, s.c.key, Some(i.refresh));
    var s1 := SetCreds(s, s.c.key, Some(i.refresh));
    ConnKeeps(s1, StoreTokens(s, i).c);
  }

  lemma ScheduleReconnectKeeps(s: State, f: Failure)
    requires Inv(s)
    ensures Inv(ScheduleReconnect(s, f))
  {
    ConnKeeps(s, ScheduleReconnect(s, f).c);
  }

  // ---------------------------------------------------------------- calls

  /** An activation that has just been entered, or waits for a save: nobody else speaks of it. */
  predicate Quiet(s: State, t: Id) {
    t in s.tasks && (s.tasks[t].at.Begin? || s.tasks[t].at.OtherSave?)
  }

  lemma PersistLoopKeeps(s: State, t: Id)
    requires Inv(s) && Quiet(s, t)
    ensures Inv(PersistLoop(s, t))
  {
    if !s.c.dirty {
      AtKeeps(s, t, Done(Ok));
    } else if s.c.saving.Some? {
      AtKeeps(s, t, OtherSave(s.c.saving.value));
    } else if !s.disk.ready {
      AtKeeps(s, t, Done(Err(Other)));
    } else {
      var s1 := Enqueue(s, ByPersist(t, Creds(s.c)));
      RestKeeps(s, s1);
      TakeSaving(s1, t, s.next);
    }
  }

  lemma StartPersistKeeps(s: State)
    requires Inv(s)
    ensures Inv(StartPersist(s)) && ExtendsRequest(s, StartPersist(s)) && StartPersist(s).c.syncing == s.c.syncing
  {
    hide Inv;
    NextIsFresh(s);
    SpawnKeeps(s, s.c.generation, Begin);
    PersistLoopKeeps(Spawn(s, s.c.generation, Begin), s.next);
  }

  lemma StartEnsureKeeps(s: State)
    requires Inv(s)
    ensures Inv(StartEnsure(s)) && ExtendsRequest(s, StartEnsure(s)) && StartEnsure(s).c.syncing == s.c.syncing
  {
    hide Inv;
    NextIsFresh(s);
    SpawnKeeps(s, s.c.generation, Begin);
    var s1 := Spawn(s, s.c.generation, Begin);
    StartPersistKeeps(s1);
    AtKeeps(StartPersist(s1), s.next, EnsurePersist(s.next + 1));
  }

  lemma StartRequestKeeps(s: State)
    requires Inv(s)
    ensures Inv(StartRequest(s)) && ExtendsRequest(s, StartRequest(s)) && StartRequest(s).c.syncing == s.c.syncing
  {
    hide Inv;
    NextIsFresh(s);
    SpawnKeeps(s, s.c.generation, Begin);
    var s1 := Spawn(s, s.c.generation, Begin);
    StartEnsureKeeps(s1);
    AtKeeps(StartEnsure(s1), s.next, RequestEnsure(s.next + 1, false));
  }

  lemma StartSyncOpKeeps(s: State)
    requires Inv(s) && s.c.syncing.None?
    ensures Inv(StartSyncOp(s)) && ExtendsRequest(s, StartSyncOp(s))
  {
    hide StartRequest, Inv;
    NextIsFresh(s);
    SpawnKeeps(s, s.c.generation, Begin);
    var s1 := Spawn(s, s.c.generation, Begin);
    StartRequestKeeps(s1);
    TakeSyncing(StartRequest(s1), s.next, s.next + 1);
  }

  lemma StartSyncKeeps(s: State)
    requires Inv(s)
    ensures Inv(StartSync(s)) && ExtendsRequest(s, StartSync(s))
  {
    hide StartSyncOp;
    if s.c.syncing.Some? {
      SpawnKeeps(s, s.c.generation, SyncJoin(s.c.syncing.value));
    } else {
      SpawnKeeps(s, s.c.generation, SyncOwn(s.next + 1));
      var s1 := Spawn(s, s.c.generation, SyncOwn(s.next + 1));
      StartSyncOpKeeps(s1);
      ExtendsTransitive(s, s1, StartSyncOp(s1));
    }
  }

  lemma BeginAttemptKeeps(s: State)
    requires Inv(s) && s.c.connecting.None?
    ensures var s' := BeginAttempt(s);
            Inv(s') && Extends(s, s') && IsAttempt(s', s.next) && s'.tasks[s.next].gen == s.c.generation
  {
    AttemptTaken(s);
    hide Inv;
    NextIsFresh(s);
  }

  lemma AttemptTaken(s: State)
    requires Inv(s) && s.c.connecting.None?
    ensures Inv(BeginAttempt(s))
  {
    NoNewSave(s, BeginAttempt(s));
    hide OneSave;
  }

  lemma ConnectLoopKeeps(s: State, t: Id)
    requires Inv(s) && t in s.tasks && (s.tasks[t].at.Begin? || s.tasks[t].at.ConnectDrain?)
    requires s.tasks[t].gen == s.c.generation
    ensures Inv(ConnectLoop(s, t))
  {
    hide BeginAttempt;
    if s.c.connecting.Some? {
      assert TaskOk(s, s.c.connecting.value);
      AtKeeps(s, t, if s.c.connectingGen == s.c.generation then ConnectJoin(s.c.connecting.value)
                    else ConnectDrain(s.c.connecting.value));
    } else {
      assert TaskOk(s, t);
      BeginAttemptKeeps(s);
      AtKeeps(BeginAttempt(s), t, ConnectOwn(s.next));
    }
  }

  lemma StartConnectKeeps(s: State)
    requires Inv(s)
    ensures Inv(StartConnect(s)) && Extends(s, StartConnect(s))
  {
    hide Inv;
    NextIsFresh(s);
    SpawnKeeps(s, s.c.generation, Begin);
    ConnectLoopKeeps(Spawn(s, s.c.generation, Begin), s.next);
  }

  lemma BackgroundKeeps(s: State, gen: int)
    requires Inv(s) && gen <= s.c.generation
    ensures Inv(ConnectInBackground(s, gen))
  {
    hide StartConnect;
    SpawnKeeps(s, gen, AwaitConnect(s.next + 1));
    StartConnectKeeps(Spawn(s, gen, AwaitConnect(s.next + 1)));
  }

  lemma StartRefreshKeeps(s: State, gen: int)
    requires Inv(s) && s.c.refreshing.None? && s.c.key.Some? && gen <= s.c.generation
    ensures Inv(StartRefresh(s, gen)) && ExtendsRequest(s.(c := s.c.(refreshing := Some(s.next))), StartRefresh(s, gen))
  {
  }

  // ---------------------------------------------------------------- resuming

  lemma PropagateKeeps(s: State, t: Id, from: Id)
    requires Inv(s) && t in s.tasks && !SigningIn(s.tasks[t].at)
    ensures Inv(Propagate(s, t, from))
  {
    if Finished(s, from) {
      FinishKeeps(s, t, OutcomeOf(s, from));
    }
  }

  lemma OtherSaveKeeps(s: State, t: Id, op: Id)
    requires Inv(s) && t in s.tasks && s.tasks[t].at == OtherSave(op)
    ensures Inv(ResumeOtherSave(s, t, op))
  {
    hide PersistLoop;
    if op in s.disk.settled {
      if s.disk.settled[op] {
        PersistLoopKeeps(s, t);
      } else {
        FinishKeeps(s, t, Err(Other));
      }
    }
  }

  lemma EnsureKeeps(s: State, t: Id, from: Id, now: int)
    requires Inv(s) && t in s.tasks && s.tasks[t].at == EnsurePersist(from)
    ensures Inv(ResumeEnsure(s, t, from, now))
  {
    hide StartRefresh;
    assert TaskOk(s, t);
    if !Finished(s, from) {
    } else if OutcomeOf(s, from).Err? {
      FinishKeeps(s, t, OutcomeOf(s, from));
    } else if !Current(s, s.tasks[t].gen) {
      FinishKeeps(s, t, Err(Other));
    } else if s.c.access.Some? && s.c.expiresAt > now + 30000 {
      FinishKeeps(s, t, Ok);
    } else if s.c.refreshing.Some? {
      AtKeeps(s, t, EnsureJoin(s.c.refreshing.value));
    } else if s.c.refresh.None? {
      FinishKeeps(s, t, Err(Http(401, false)));
    } else {
      StartRefreshKeeps(s, s.tasks[t].gen);
      AtKeeps(StartRefresh(s, s.tasks[t].gen), t, EnsureOwn(s.next));
    }
  }

  /** The `finally` of a single-flight owner: clear the slot if it is still one's own, then end. */
  lemma OwnerKeeps(s: State, t: Id, op: Id)
    requires Inv(s) && t in s.tasks
    ensures s.tasks[t].at == EnsureOwn(op) ==> Inv(ResumeEnsureOwn(s, t, op))
    ensures s.tasks[t].at == SyncOwn(op) ==> Inv(ResumeSyncOwn(s, t, op))
    ensures s.tasks[t].at == ConnectOwn(op) ==> Inv(ResumeConnectOwn(s, t, op))
  {
    if Finished(s, op) {
      if s.tasks[t].at == EnsureOwn(op) {
        var d := if s.c.refreshing == Some(op) then s.c.(refreshing := None) else s.c;
        ClearSlotKeeps(s, op, d);
        FinishKeeps(s.(c := d), t, OutcomeOf(s, op));
      } else if s.tasks[t].at == SyncOwn(op) {
        var d := if s.c.syncing == Some(op) then s.c.(syncing := None) else s.c;
        ClearSlotKeeps(s, op, d);
        FinishKeeps(s.(c := d), t, OutcomeOf(s, op));
      } else if s.tasks[t].at == ConnectOwn(op) {
        var d := if s.c.connecting == Some(op) then s.c.(connecting := None) else s.c;
        ClearSlotKeeps(s, op, d);
        FinishKeeps(s.(c := d), t, OutcomeOf(s, op));
      }
    }
  }

  lemma RefreshVerifyKeeps(s: State, t: Id, i: Input)
    requires Inv(s) && t in s.tasks && s.tasks[t].at == RefreshVerify
    ensures Inv(ResumeRefreshVerify(s, t, i))
  {
    assert TaskOk(s, t);
    if i.failure.Some? {
      FinishKeeps(s, t, Err(i.failure.value));
    } else if !Current(s, s.tasks[t].gen) {
      FinishKeeps(s, t, Err(Other));
    } else {
      AtKeeps(s, t, RefreshExchange);
    }
  }

  lemma RefreshExchangeKeeps(s: State, t: Id, i: Input)
    requires Inv(s) && t in s.tasks && s.tasks[t].at == RefreshExchange
    ensures Inv(ResumeRefreshExchange(s, t, i))
  {
    hide StartPersist;
    assert TaskOk(s, t);
    if i.failure.Some? {
      FinishKeeps(s, t, Err(i.failure.value));
    } else if s.c.generation != s.tasks[t].gen {
      FinishKeeps(s, t, Err(Other));
    } else {
      StoreTokensKeeps(s, i);
      StartPersistKeeps(StoreTokens(s, i));
      AtKeeps(StartPersist(StoreTokens(s, i)), t, RefreshStore(s.next));
    }
  }

  lemma RequestEnsureKeeps(s: State, t: Id, from: Id, retry: bool)
    requires Inv(s) && t in s.tasks && s.tasks[t].at == RequestEnsure(from, retry)
    ensures Inv(ResumeRequestEnsure(s, t, from, retry))
  {
    assert TaskOk(s, t);
    if !Finished(s, from) {
    } else if OutcomeOf(s, from).Err? {
      FinishKeeps(s, t, OutcomeOf(s, from));
    } else if !Current(s, s.tasks[t].gen) || s.c.device.None? {
      FinishKeeps(s, t, Err(Other));
    } else {
      AtKeeps(s, t, RequestSend(retry));
    }
  }

  lemma RequestSendKeeps(s: State, t: Id, retry: bool, i: Input)
    requires Inv(s) && t in s.tasks && s.tasks[t].at == RequestSend(retry)
    ensures Inv(ResumeRequestSend(s, t, retry, i))
  {
    hide StartEnsure;
    assert TaskOk(s, t);
    if i.failure.None? {
      FinishKeeps(s, t, if Current(s, s.tasks[t].gen) then Ok else Err(Other));
    } else if retry {
      FinishKeeps(s, t, Err(i.failure.value));
    } else if !Current(s, s.tasks[t].gen) {
      FinishKeeps(s, t, Err(Other));
    } else if i.failure != Some(Http(401, true)) {
      FinishKeeps(s, t, Err(i.failure.value));
    } else {
      ConnKeeps(s, s.c.(access := None));
      var s1 := s.(c := s.c.(access := None));
      StartEnsureKeeps(s1);
      AtKeeps(StartEnsure(s1), t, RequestEnsure(s.next, true));
    }
  }

  lemma SyncRequestKeeps(s: State, t: Id, from: Id, valid: bool)
    requires Inv(s) && t in s.tasks && s.tasks[t].at == SyncRequest(from)
    ensures Inv(ResumeSyncRequest(s, t, from, valid))
  {
    if Finished(s, from) {
      FinishKeeps(s, t, if OutcomeOf(s, from).Ok? && !valid then Err(Other) else OutcomeOf(s, from));
    }
  }

  lemma ConnectDrainKeeps(s: State, t: Id, op: Id)
    requires Inv(s) && t in s.tasks && s.tasks[t].at == ConnectDrain(op)
    ensures Inv(ResumeConnectDrain(s, t, op))
  {
    hide ConnectLoop;
    if Finished(s, op) {
      if Current(s, s.tasks[t].gen) {
        ConnectLoopKeeps(s, t);
      } else {
        FinishKeeps(s, t, Ok);
      }
    }
  }

  lemma OpenVerifyKeeps(s: State, t: Id, i: Input)
    requires Inv(s) && t in s.tasks && s.tasks[t].at == OpenVerify
    ensures Inv(ResumeOpenVerify(s, t, i))
  {
    hide StartSync;
    assert TaskOk(s, t);
    if i.failure.Some? {
      FinishKeeps(s, t, Err(i.failure.value));
    } else if !Current(s, s.tasks[t].gen) {
      FinishKeeps(s, t, Ok);
    } else {
      StartSyncKeeps(s);
      AtKeeps(StartSync(s), t, OpenSync(s.next));
    }
  }

  lemma OpenSyncKeeps(s: State, t: Id, from: Id)
    requires Inv(s) && t in s.tasks && s.tasks[t].at == OpenSync(from)
    ensures Inv(ResumeOpenSync(s, t, from))
  {
    hide StartRequest;
    assert TaskOk(s, t);
    if !Finished(s, from) {
    } else if OutcomeOf(s, from).Err? {
      FinishKeeps(s, t, OutcomeOf(s, from));
    } else if !Current(s, s.tasks[t].gen) {
      FinishKeeps(s, t, Ok);
    } else {
      StartRequestKeeps(s);
      AtKeeps(StartRequest(s), t, OpenTicket(s.next));
    }
  }

  lemma NewSocketKeeps(s: State)
    requires Inv(s)
    ensures Inv(s.(c := s.c.(socket := Some(s.next)), sockets := s.sockets[s.next := s.c.generation], next := s.next + 1))
  {
  }

  lemma OpenTicketKeeps(s: State, t: Id, from: Id, valid: bool)
    requires Inv(s) && t in s.tasks && s.tasks[t].at == OpenTicket(from)
    ensures Inv(ResumeOpenTicket(s, t, from, valid))
  {
    if !Finished(s, from) {
    } else if OutcomeOf(s, from).Err? {
      FinishKeeps(s, t, OutcomeOf(s, from));
    } else if !valid {
      FinishKeeps(s, t, Err(Other));
    } else {
      FinishKeeps(s, t, Ok);
      NewSocketKeeps(Finish(s, t, Ok));
    }
  }

  // ---------------------------------------------------------------- login, logout, removal

  lemma EndLoginKeeps(s: State, t: Id, outcome: Outcome)
    requires Inv(s) && t in s.tasks && SigningIn(s.tasks[t].at)
    ensures Inv(EndLogin(s, t, outcome))
  {
    if s.c.login != Some(t) {
      FinishKeeps(s, t, outcome);
    }
  }

  lemma FailLoginKeeps(s: State, t: Id, f: Failure)
    requires Inv(s) && t in s.tasks && SigningIn(s.tasks[t].at)
    ensures Inv(FailLogin(s, t, f))
  {
    hide EndLogin;
    var d := s.c.(status := SignedOut, stage := None);
    ConnKeeps(s, d);
    EndLoginKeeps(s, t, Err(f));
    EndLoginKeeps(s.(c := d), t, Err(f));
  }

  lemma EnsureDeviceKeeps(s: State, newKey: Key)
    requires Inv(s)
    ensures Inv(EnsureDevice(s, newKey)) && EnsureDevice(s, newKey).c.key.Some?
  {
    if s.c.device.None? {
      var s' := EnsureDevice(s, newKey);
      ConnKeeps(s, s'.c);
      RestKeeps(s.(c := s'.c), s');
    }
  }

  lemma LoginVerifyKeeps(s: State, t: Id, i: Input)
    requires Inv(s) && t in s.tasks && s.tasks[t].at == LoginVerify
    ensures Inv(ResumeLoginVerify(s, t, i))
  {
    hide StartPersist, FailLogin;
    assert TaskOk(s, t);
    if i.failure.Some? {
      FailLoginKeeps(s, t, i.failure.value);
    } else if LoginCancelled(s, t) {
      FailLoginKeeps(s, t, Other);
    } else {
      EnsureDeviceKeeps(s, i.newKey);
      var s1 := EnsureDevice(s, i.newKey);
      StartPersistKeeps(s1);
      AtKeeps(StartPersist(s1), t, LoginPersist(s.next));
    }
  }

  lemma LoginPersistKeeps(s: State, t: Id, from: Id)
    requires Inv(s) && t in s.tasks && s.tasks[t].at == LoginPersist(from)
    ensures Inv(ResumeLoginPersist(s, t, from))
  {
    hide FailLogin;
    assert TaskOk(s, t);
    if !Finished(s, from) {
    } else if OutcomeOf(s, from).Err? {
      FailLoginKeeps(s, t, OutcomeOf(s, from).failure);
    } else if LoginCancelled(s, t) {
      FailLoginKeeps(s, t, Other);
    } else {
      var d := s.c.(stage := Some(BrowserAuthorization));
      ConnKeeps(s, d);
      AtKeeps(s.(c := d), t, LoginAuthorize);
    }
  }

  lemma LoginAuthorizeKeeps(s: State, t: Id, i: Input)
    requires Inv(s) && t in s.tasks && s.tasks[t].at == LoginAuthorize
    ensures Inv(ResumeLoginAuthorize(s, t, i))
  {
    hide StartPersist, FailLogin, EndLogin;
    assert TaskOk(s, t);
    if i.failure.Some? {
      FailLoginKeeps(s, t, i.failure.value);
    } else if s.c.generation != s.tasks[t].gen {
      EndLoginKeeps(s, t, Ok);
    } else {
      StoreTokensKeeps(s, i);
      StartPersistKeeps(StoreTokens(s, i));
      AtKeeps(StartPersist(StoreTokens(s, i)), t, LoginStore(s.next));
    }
  }

  lemma LoginStoreKeeps(s: State, t: Id, from: Id)
    requires Inv(s) && t in s.tasks && s.tasks[t].at == LoginStore(from)
    ensures Inv(ResumeLoginStore(s, t, from))
  {
    hide StartConnect, FailLogin, EndLogin;
    assert TaskOk(s, t);
    if !Finished(s, from) {
    } else if OutcomeOf(s, from).Err? {
      FailLoginKeeps(s, t, OutcomeOf(s, from).failure);
    } else if s.c.generation != s.tasks[t].gen {
      EndLoginKeeps(s, t, Ok);
    } else {
      var d := s.c.(stage := Some(ConnectingEvents));
      ConnKeeps(s, d);
      StartConnectKeeps(s.(c := d));
      AtKeeps(StartConnect(s.(c := d)), t, LoginConnect(s.next));
    }
  }

  lemma LoginConnectKeeps(s: State, t: Id, from: Id)
    requires Inv(s) && t in s.tasks && s.tasks[t].at == LoginConnect(from)
    ensures Inv(ResumeLoginConnect(s, t, from))
  {
    hide FailLogin, EndLogin;
    if Finished(s, from) {
      if OutcomeOf(s, from).Err? {
        FailLoginKeeps(s, t, OutcomeOf(s, from).failure);
      } else {
        EndLoginKeeps(s, t, Ok);
      }
    }
  }

  lemma FinishLogoutKeeps(s: State, t: Id)
    requires Inv(s) && t in s.tasks && s.tasks[t].at == LogoutRevoke
    ensures Inv(FinishLogout(s, t))
  {
    hide StartPersist;
    SetCredsKeeps(s, s.c.key, None);
    var s1 := SetCreds(s, s.c.key, None);
    var d := s1.c.(access := None, status := SignedOut);
    ConnKeeps(s1, d);
    var s2 := s1.(c := d);
    StartPersistKeeps(s2);
    AtKeeps(StartPersist(s2), t, LogoutPersist(s.next));
  }

  lemma LogoutRevokeKeeps(s: State, t: Id, i: Input)
    requires Inv(s) && t in s.tasks && s.tasks[t].at == LogoutRevoke
    ensures Inv(ResumeLogoutRevoke(s, t, i))
  {
    hide FinishLogout;
    if i.failure.Some? {
      FinishKeeps(s, t, Err(i.failure.value));
    } else if s.c.device.None? {
      FinishKeeps(s, t, Err(Other));
    } else {
      FinishLogoutKeeps(s, t);
    }
  }

  lemma FinishRemoveKeeps(s: State, t: Id)
    requires Inv(s) && t in s.tasks && s.tasks[t].at == RemoveRevoke
    ensures Inv(FinishRemove(s, t))
  {
    assert TaskOk(s, t);
    if s.disk.ready {
      var s1 := Enqueue(s.(live := false), ByRemove(t));
      RestKeeps(s, s1);
      AtKeeps(s1, t, RemoveSave(s.next));
    } else {
      RestKeeps(s, s.(live := true));
      FinishKeeps(s.(live := true), t, Err(Other));
    }
  }

  lemma AwaitConnectKeeps(s: State, t: Id, from: Id)
    requires Inv(s) && t in s.tasks && s.tasks[t].at == AwaitConnect(from)
    ensures Inv(ResumeAwaitConnect(s, t, from))
  {
    hide ScheduleReconnect;
    if Finished(s, from) {
      var s1 := Finish(s, t, OutcomeOf(s, from));
      FinishKeeps(s, t, OutcomeOf(s, from));
      if OutcomeOf(s, from).Err? {
        ScheduleReconnectKeeps(s1, OutcomeOf(s, from).failure);
      }
    }
  }

  lemma AdvanceKeeps(s: State, t: Id, i: Input)
    requires Inv(s)
    ensures Inv(Advance(s, t, i))
  {
    hide ResumeOtherSave, ResumeEnsure, ResumeEnsureOwn, ResumeRefreshVerify, ResumeRefreshExchange,
      ResumeRequestEnsure, ResumeRequestSend, ResumeSyncOwn, ResumeSyncRequest, ResumeConnectDrain, ResumeConnectOwn,
      ResumeOpenVerify, ResumeOpenSync, ResumeOpenTicket, ResumeLoginVerify, ResumeLoginPersist,
      ResumeLoginAuthorize, ResumeLoginStore, ResumeLoginConnect, ResumeLogoutRevoke, FinishRemove,
      ResumeAwaitConnect, Propagate, Inv;
    if t in s.tasks {
      match s.tasks[t].at
      case OtherSave(op) => OtherSaveKeeps(s, t, op);
      case EnsurePersist(p) => EnsureKeeps(s, t, p, i.now);
      case EnsureJoin(op) => PropagateKeeps(s, t, op);
      case EnsureOwn(op) => OwnerKeeps(s, t, op);
      case RefreshVerify => RefreshVerifyKeeps(s, t, i);
      case RefreshExchange => RefreshExchangeKeeps(s, t, i);
      case RefreshStore(p) => PropagateKeeps(s, t, p);
      case RequestEnsure(e, retry) => RequestEnsureKeeps(s, t, e, retry);
      case RequestSend(retry) => RequestSendKeeps(s, t, retry, i);
      case SyncJoin(op) => PropagateKeeps(s, t, op);
      case SyncOwn(op) => OwnerKeeps(s, t, op);
      case SyncRequest(r) => SyncRequestKeeps(s, t, r, i.valid);
      case ConnectJoin(op) => PropagateKeeps(s, t, op);
      case ConnectDrain(op) => ConnectDrainKeeps(s, t, op);
      case ConnectOwn(op) => OwnerKeeps(s, t, op);
      case OpenVerify => OpenVerifyKeeps(s, t, i);
      case OpenSync(y) => OpenSyncKeeps(s, t, y);
      case OpenTicket(r) => OpenTicketKeeps(s, t, r, i.valid);
      case LoginVerify => LoginVerifyKeeps(s, t, i);
      case LoginPersist(p) => LoginPersistKeeps(s, t, p);
      case LoginAuthorize => LoginAuthorizeKeeps(s, t, i);
      case LoginStore(p) => LoginStoreKeeps(s, t, p);
      case LoginConnect(k) => LoginConnectKeeps(s, t, k);
      case LogoutRevoke => LogoutRevokeKeeps(s, t, i);
      case LogoutPersist(p) => PropagateKeeps(s, t, p);
      case RemoveRevoke => FinishRemoveKeeps(s, t);
      case AwaitConnect(k) => AwaitConnectKeeps(s, t, k);
      case Begin => case OwnSave(_) => case RemoveSave(_) => case Done(_) =>
    }
  }

  // ---------------------------------------------------------------- the other events

  lemma LoginKeeps(s: State)
    requires Inv(s)
    ensures Inv(ApiLogin(s))
  {
  }

  lemma CancelLoginKeeps(s: State)
    requires Inv(s)
    ensures Inv(ApiCancelLogin(s))
  {
    hide Stop;
    StopKeeps(s);
    var s1 := Stop(s);
    ConnKeeps(s1, s1.c.(status := if s1.c.refresh.Some? then Reconnecting else SignedOut));
  }

  lemma LogoutKeeps(s: State)
    requires Inv(s)
    ensures Inv(ApiLogout(s))
  {
    hide FinishLogout;
    StopKeeps(s);
    SpawnKeeps(Stop(s), s.c.generation + 1, LogoutRevoke);
    FinishLogoutKeeps(Spawn(Stop(s), s.c.generation + 1, LogoutRevoke), s.next);
  }

  lemma RemoveKeeps(s: State)
    requires Inv(s)
    ensures Inv(ApiRemove(s))
  {
    hide FinishRemove;
    StopKeeps(s);
    SpawnKeeps(Stop(s), s.c.generation + 1, RemoveRevoke);
    FinishRemoveKeeps(Spawn(Stop(s), s.c.generation + 1, RemoveRevoke), s.next);
  }

  lemma ResumeKeeps(s: State)
    requires Inv(s)
    ensures Inv(ApiResume(s))
  {
    hide Stop, ConnectInBackground;
    StopKeeps(s);
    BackgroundKeeps(Stop(s), Stop(s).c.generation);
  }

  lemma SnapshotKeeps(s: State)
    requires Inv(s)
    ensures Inv(ApiSnapshot(s))
  {
    hide StartSync, ConnectInBackground;
    BackgroundKeeps(s, s.c.generation);
    StartSyncKeeps(s);
    StartSyncKeeps(ConnectInBackground(s, s.c.generation));
  }

  lemma CloseKeeps(s: State)
    requires Inv(s)
    ensures Inv(Close(s))
  {
    hide Stop;
    RestKeeps(s, s.(closed := true));
    StopKeeps(s.(closed := true));
  }

  lemma TimerKeeps(s: State)
    requires Inv(s)
    ensures Inv(TimerFires(s))
  {
    hide ConnectInBackground;
    var d := s.c.(timer := None);
    ConnKeeps(s, d);
    BackgroundKeeps(s.(c := d), s.c.generation);
  }

  lemma SocketKeeps(s: State, k: Id)
    requires Inv(s)
    ensures Inv(SocketReady(s, k)) && Inv(SocketClosed(s, k))
  {
    hide ScheduleReconnect;
    ConnKeeps(s, s.c.(status := Online, stage := None, attempt := 0));
    var d := s.c.(socket := None);
    ConnKeeps(s, d);
    ScheduleReconnectKeeps(s.(c := d), Other);
  }

  lemma OtherSavesKeeps(s: State)
    requires Inv(s)
    ensures Inv(OtherConnectionSaves(s))
  {
    RestKeeps(s, OtherConnectionSaves(s));
  }

  lemma PersistContinues(s: State, w: Write, t: Id, ok: bool)
    requires Inv(s) && w.owner.ByPersist? && w.owner.t == t && t in s.tasks && s.tasks[t].at.OwnSave?
    ensures Inv(Continue(s, w, ok))
  {
    SaveEndsKeeps(s, t, Begin);
    SaveEndsKeeps(s, t, Done(Err(Other)));
    hide PersistLoop, Inv;
    var s1 := if s.c.saving == Some(w.op) then s.(c := s.c.(saving := None)) else s;
    var s2 := At(s1, t, Begin);
    DirtyKeeps(s2);
    PersistLoopKeeps(s2, t);
    PersistLoopKeeps(s2.(c := s2.c.(dirty := false)), t);
  }

  lemma DirtyKeeps(s: State)
    requires Inv(s)
    ensures Inv(s.(c := s.c.(dirty := false)))
  {
    ConnKeeps(s, s.c.(dirty := false));
  }

  lemma ContinueKeeps(s: State, w: Write, ok: bool)
    requires Inv(s)
    ensures Inv(Continue(s, w, ok))
  {
    match w.owner
    case ByPersist(t, _) =>
      hide PersistLoop, Inv;
      if t in s.tasks && s.tasks[t].at.OwnSave? {
        PersistContinues(s, w, t, ok);
      }
    case ByRemove(t) =>
      if t in s.tasks && s.tasks[t].at.RemoveSave? {
        RestKeeps(s, s.(live := true));
        FinishKeeps(s, t, Ok);
        FinishKeeps(s.(live := true), t, Err(Other));
      }
    case ByAdd => RestKeeps(s, s.(live := false));
    case ByOther =>
  }

  lemma SettleKeeps(s: State, ok: bool)
    requires Inv(s)
    ensures Inv(Settle(s, ok))
  {
    hide Continue;
    if s.disk.queue != [] {
      RestKeeps(s, Popped(s, ok));
      ContinueKeeps(Popped(s, ok), s.disk.queue[0], ok);
    }
  }

  lemma StepKeeps(s: State, e: Event)
    requires Inv(s)
    ensures Inv(Step(s, e))
  {
    hide ApiLogin, ApiCancelLogin, ApiLogout, ApiRemove, ApiResume, ApiSnapshot, ApiRequest, Close, TimerFires,
      SocketReady, SocketClosed, OtherConnectionSaves, Settle, Advance, Inv;
    match e
    case LoginCalled => LoginKeeps(s);
    case CancelLoginCalled => CancelLoginKeeps(s);
    case LogoutCalled => LogoutKeeps(s);
    case RemoveCalled => RemoveKeeps(s);
    case ResumeCalled => ResumeKeeps(s);
    case SnapshotCalled => SnapshotKeeps(s);
    case RequestCalled => RequestKeeps(s);
    case CloseCalled => CloseKeeps(s);
    case TimerFired => TimerKeeps(s);
    case SocketOpened(k) => SocketKeeps(s, k);
    case SocketLost(k) => SocketKeeps(s, k);
    case OtherSaved => OtherSavesKeeps(s);
    case StoreChanged(ready) => RestKeeps(s, Step(s, e));
    case WriteSettled(ok) => SettleKeeps(s, ok);
    case Advanced(t, i) => AdvanceKeeps(s, t, i);
  }

  lemma RequestKeeps(s: State)
    requires Inv(s)
    ensures Inv(ApiRequest(s))
  {
    hide StartRequest;
    StartRequestKeeps(s);
  }

  lemma InitialInv(s: State)
    requires Initial(s)
    ensures Inv(s)
  {
  }

  lemma {:induction false} RunKeeps(s: State, es: seq<Event>)
    requires Inv(s)
    ensures Inv(Run(s, es))
    decreases |es|
  {
    hide Inv, Step;
    if es != [] {
      RunKeeps(s, es[..|es| - 1]);
      StepKeeps(Run(s, es[..|es| - 1]), es[|es| - 1]);
    }
  }

  /** Every state of every run from a loaded or just added connection. */
  lemma Reachable(start: State, es: seq<Event>)
    requires Initial(start)
    ensures Inv(Run(start, es))
  {
    hide Run;
    InitialInv(start);
    RunKeeps(start, es);
  }
}
