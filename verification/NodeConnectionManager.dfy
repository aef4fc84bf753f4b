/**
  The manager's connection record and the code that updates it in place, one method per stretch between awaits.
  Every method's effect is the step function of the protocol model on the record's abstract value. The methods called
  from outside also keep the protocol's invariant, do only what `Guarded` allows, and change each field for the causes
  that `Effects` names and no other; those in between, which stop at half-finished states, promise their own effect.
 */
module NodeConnectionManager {
  import opened Option
  import opened ConnectionModel
  import opened Strings
  import ConnectionInvariants
  import ConnectionTheorems
  import ConnectionDurability
  import ConnectionEffects
  import ConnectionActivations
  import ConnectionProgress
  import M = ConnectionModel

  /**
    The protocol's invariant; aborted sign-ins are older ones; whatever is awaited is there or still to come; and queued
    writes are snapshots of past credentials in order.
   */
  ghost predicate Good(s: State) {
    && ConnectionInvariants.Inv(s) && ConnectionEffects.AbortedAreOld(s) && ConnectionProgress.Linked(s, {})
    && ConnectionDurability.Ledger(s)
  }

  lemma GoodKept(s: State, e: Event)
    requires Good(s)
    ensures Good(Step(s, e)) && ConnectionTheorems.Guarded(s, e, Step(s, e))
    ensures ConnectionEffects.Effects(s, e, Step(s, e))
    ensures ConnectionEffects.Acts(s, e) ==> ConnectionActivations.Goes(s, e, Step(s, e))
    ensures e.WriteSettled? ==> ConnectionActivations.WriterGoes(s, e.ok, Step(s, e))
  {
    hide ConnectionInvariants.Inv, ConnectionEffects.AbortedAreOld, ConnectionProgress.Linked,
      ConnectionDurability.Ledger,
      ConnectionTheorems.Guarded, ConnectionEffects.Effects, ConnectionActivations.Goes,
      ConnectionActivations.WriterGoes, M.Step;
    ConnectionInvariants.StepKeeps(s, e);
    ConnectionActivations.AbortedStayOld(s, e);
    ConnectionProgress.StepLinks(s, e);
    ConnectionDurability.StepKeepsLedger(s, e);
    ConnectionTheorems.StepIsGuarded(s, e);
    ConnectionEffects.StepEffects(s, e);
    ConnectionActivations.WhoMoves(s, e);
  }

  lemma InitiallyGood(s: State)
    requires Initial(s)
    ensures Good(s)
  {
    hide ConnectionInvariants.Inv, ConnectionDurability.Ledger, ConnectionDurability.Unrepeated,
      ConnectionDurability.Fitting, ConnectionDurability.Clean;
    ConnectionDurability.InitialIsKept(s);
  }

  /** The moment the credentials are no longer owed to the store. */
  lemma GoodClean(s: State, ok: bool)
    requires Good(s) && s.c.dirty && !Settle(s, ok).c.dirty
    ensures var s' := Settle(s, ok);
            && ok && s.disk.queue != [] && s'.disk.file == s.disk.queue[0].record
            && (s'.disk.file == Some(Creds(s'.c)) <==> s.disk.queue[0].record.Some?)
  {
    hide ConnectionInvariants.Inv, ConnectionEffects.AbortedAreOld, ConnectionProgress.Linked,
      ConnectionDurability.Ledger,
      M.Settle;
    ConnectionDurability.CleanMomentIsDurable(s, WriteSettled(ok));
  }

  predicate Requesting(at: Point) {
    at.OtherSave? || at.EnsurePersist? || at.EnsureJoin? || at.EnsureOwn? || at.RefreshVerify? || at.RefreshExchange?
    || at.RefreshStore? || at.RequestEnsure? || at.RequestSend?
  }

  predicate Attempting(at: Point) {
    at.SyncJoin? || at.SyncOwn? || at.SyncRequest? || at.ConnectJoin? || at.ConnectDrain? || at.ConnectOwn?
    || at.OpenVerify? || at.OpenSync? || at.OpenTicket? || at.AwaitConnect?
  }

  predicate InSession(at: Point) {
    at.LoginVerify? || at.LoginPersist? || at.LoginAuthorize? || at.LoginStore? || at.LoginConnect? || at.LogoutRevoke?
    || at.LogoutPersist? || at.RemoveRevoke?
  }

  /** An activation that is over, or waits for its own write, does not go on by itself. */
  lemma OthersWait(s: State, t: Id, i: Input)
    requires t in s.tasks ==> !Requesting(s.tasks[t].at) && !Attempting(s.tasks[t].at) && !InSession(s.tasks[t].at)
    ensures M.Advance(s, t, i) == s
  {
  }

  lemma EndedLoginKeepsToken(s: State, t: Id, i: Input)
    requires t in s.tasks
    ensures FailLogin(s, t, if i.failure.Some? then i.failure.value else Other).c.refresh == s.c.refresh
    ensures EndLogin(s, t, Ok).c.refresh == s.c.refresh
  {
    hide M.FailLogin, M.EndLogin;
    ConnectionDurability.LoginEndsCalls(s, t, if i.failure.Some? then i.failure.value else Other, Ok);
  }

  /** A name a device may have. */
  predicate DeviceName(name: string) {
    !Blank(name) && |name| <= 80 && forall i :: 0 <= i < |name| ==> name[i] >= ' ' && name[i] != '\U{7F}'
  }

  const DEFAULT_DEVICE := "BeeBot Desktop"

  lemma DefaultDeviceName()
    ensures DeviceName(DEFAULT_DEVICE)
  {
    assert DEFAULT_DEVICE[0] == 'B';
  }

  class NodeConnection {
    const origin: string
    var closed: bool
    var live: bool
    var status: Status
    var stage: Option<Stage>
    var key: Option<Key>
    var refresh: Option<Token>
    var device: Option<Device>
    var access: Option<Token>
    var expiresAt: int
    var dirty: bool
    var saving: Option<Id>
    var generation: int
    var attempt: int
    var socket: Option<Id>
    var timer: Option<int>
    var login: Option<Id>
    var connecting: Option<Id>
    var connectingGen: int
    var refreshing: Option<Id>
    var syncing: Option<Id>
    var tasks: map<Id, Task>
    var sockets: map<Id, int>
    var aborted: set<Id>
    var next: Id
    var disk: Disk
    var history: seq<Cred>

    /** The record the manager keeps for this connection. */
    ghost function Record(): Conn
      reads this
    {
      Conn(origin, status, stage, key, refresh, device, access, expiresAt, dirty, saving, generation, attempt,
           socket, timer, login, connecting, connectingGen, refreshing, syncing)
    }

    ghost function Abs(): State
      reads this
    {
      State(Record(), closed, live, tasks, sockets, aborted, next, disk, history)
    }

    /** What every call, reply, timer, socket event and write result keeps. */
    ghost predicate Valid()
      reads this
    {
      Good(Abs())
    }

    constructor FromStore(origin: string, stored: Cred)
      ensures Valid() && Abs() == Loaded(origin, stored)
    {
      hide Good;
      InitiallyGood(Loaded(origin, stored));
      var cred := if stored.key.None? then Cred(None, None) else stored;
      this.origin := origin;
      closed, live := false, true;
      status, stage := if cred.refresh.Some? then Reconnecting else SignedOut, None;
      key, refresh := cred.key, cred.refresh;
      device := if cred.key.Some? then Some(Device(origin, cred.key.value)) else None;
      access, expiresAt, dirty, saving := None, 0, false, None;
      generation, attempt, socket, timer, login := 0, 0, None, None, None;
      connecting, connectingGen, refreshing, syncing := None, 0, None, None;
      tasks, sockets, aborted, next := map[], map[], {}, 0;
      disk := Disk(true, Some(cred), [], map[]);
      history := [cred];
    }

    method Suspend(t: Id, at: Point)
      requires t in tasks
      modifies this
      ensures Abs() == M.At(old(Abs()), t, at)
      ensures old(tasks).Keys <= tasks.Keys
    {
      tasks := tasks[t := tasks[t].(at := at)];
    }

    method End(t: Id, outcome: Outcome)
      requires t in tasks
      modifies this
      ensures Abs() == M.Finish(old(Abs()), t, outcome)
      ensures old(tasks).Keys <= tasks.Keys
    {
      Suspend(t, Done(outcome));
    }

    method Enter(gen: int, at: Point) returns (t: Id)
      modifies this
      ensures t == old(next)
      ensures Abs() == M.Spawn(old(Abs()), gen, at)
      ensures old(tasks).Keys <= tasks.Keys
    {
      t := next;
      tasks := tasks[t := Task(gen, at)];
      next := next + 1;
    }

    /** save(): the snapshot is taken now and written when the earlier writes are done. */
    method Save(owner: Owner) returns (op: Id)
      modifies this
      ensures op == old(next)
      ensures Abs() == M.Enqueue(old(Abs()), owner)
      ensures old(tasks).Keys <= tasks.Keys
    {
      op := next;
      var record := if live then Some(Cred(key, refresh)) else None;
      disk := disk.(queue := disk.queue + [Write(op, owner, record, |history|)]);
      next := next + 1;
    }

    method Owe(cred: Cred)
      modifies this
      ensures Abs() == old(Abs()).(c := old(Abs()).c.(dirty := true), history := old(history) + [cred])
    {
      dirty := true;
      history := history + [cred];
    }

    method ChangeCredentials(newKey: Option<Key>, newRefresh: Option<Token>)
      modifies this
      ensures Abs() == M.SetCreds(old(Abs()), newKey, newRefresh)
      ensures old(tasks).Keys <= tasks.Keys
    {
      Owe(Cred(newKey, newRefresh));
      key, refresh := newKey, newRefresh;
    }

    method Show(newStatus: Status, newStage: Option<Stage>)
      modifies this
      ensures Abs() == old(Abs()).(c := old(Abs()).c.(status := newStatus, stage := newStage))
    {
      status, stage := newStatus, newStage;
    }

    method AbortLogin()
      modifies this
      ensures Abs() == old(Abs()).(c := old(Abs()).c.(login := None),
        aborted := if old(login).Some? then old(aborted) + {old(login).value} else old(aborted))
    {
      if login.Some? {
        aborted := aborted + {login.value};
        login := None;
      }
    }

    method DropSession()
      modifies this
      ensures Abs() == old(Abs()).(c := old(Abs()).c.(timer := None, socket := None))
    {
      timer := None;
      socket := None;
    }

    method StopConnection()
      modifies this
      ensures Abs() == M.Stop(old(Abs()))
      ensures generation > old(generation) && socket.None? && timer.None? && login.None?
      ensures old(login).Some? ==> old(login).value in aborted
    {
      generation := generation + 1;
      AbortLogin();
      Show(status, None);
      DropSession();
    }

    method ScheduleReconnect(f: Failure)
      modifies this
      ensures Abs() == M.ScheduleReconnect(old(Abs()), f)
      ensures var lost := !closed && live && old(timer).None?;
              var signIn := refresh.None? || (f.Http? && f.status in [400, 401, 403]);
              && status == (if !lost then old(status) else if signIn then SignedOut else Reconnecting)
              && timer == (if lost && !signIn then Some(generation) else old(timer))
    {
      if closed || !live || timer.Some? {
        return;
      }
      if refresh.None? || SignInRequired(f) {
        Show(SignedOut, None);
        return;
      }
      Show(Reconnecting, None);
      attempt := attempt + 1;
      timer := Some(generation);
    }

    method StoreTokens(i: Input)
      modifies this
      ensures Abs() == M.StoreTokens(old(Abs()), i)
      ensures old(tasks).Keys <= tasks.Keys
    {
      ChangeCredentials(key, Some(i.refresh));
      access := Some(i.access);
      expiresAt := i.now + i.lifetime * 1000;
    }

    method PersistCredentials(t: Id)
      requires t in tasks
      modifies this
      ensures Abs() == M.PersistLoop(old(Abs()), t)
      ensures old(tasks).Keys <= tasks.Keys
    {
      if !dirty {
        End(t, Ok);
      } else if saving.Some? {
        Suspend(t, OtherSave(saving.value));
      } else if !disk.ready {
        End(t, Err(Other));
      } else {
        var op := Save(ByPersist(t, Cred(key, refresh)));
        saving := Some(op);
        Suspend(t, OwnSave(op));
      }
    }

    method StartPersist() returns (t: Id)
      modifies this
      ensures t == old(next)
      ensures Abs() == M.StartPersist(old(Abs()))
      ensures old(tasks).Keys <= tasks.Keys && refresh == old(refresh) && access == old(access)
    {
      ConnectionEffects.StartPersistOnly(Abs());
      t := Enter(generation, Begin);
      PersistCredentials(t);
    }

    method EnsureAccess() returns (t: Id)
      modifies this
      ensures t == old(next)
      ensures Abs() == M.StartEnsure(old(Abs()))
      ensures old(tasks).Keys <= tasks.Keys
    {
      hide M.StartPersist;
      t := Enter(generation, Begin);
      var p := StartPersist();
      Suspend(t, EnsurePersist(p));
    }

    method Request() returns (t: Id)
      modifies this
      ensures t == old(next)
      ensures Abs() == M.StartRequest(old(Abs()))
      ensures old(tasks).Keys <= tasks.Keys
    {
      hide M.StartEnsure;
      t := Enter(generation, Begin);
      var e := EnsureAccess();
      Suspend(t, RequestEnsure(e, false));
    }

    method StartSyncOp() returns (t: Id)
      modifies this
      ensures t == old(next)
      ensures Abs() == M.StartSyncOp(old(Abs()))
      ensures old(tasks).Keys <= tasks.Keys
    {
      hide M.StartRequest;
      t := Enter(generation, Begin);
      var r := Request();
      Suspend(t, SyncRequest(r));
      syncing := Some(t);
    }

    method Sync() returns (t: Id)
      modifies this
      ensures t == old(next)
      ensures Abs() == M.StartSync(old(Abs()))
      ensures old(tasks).Keys <= tasks.Keys
    {
      hide M.StartSyncOp;
      if syncing.Some? {
        t := Enter(generation, SyncJoin(syncing.value));
      } else {
        t := Enter(generation, SyncOwn(next + 1));
        var op := StartSyncOp();
      }
    }

    method OpenEventConnection() returns (op: Id)
      modifies this
      ensures op == old(next)
      ensures Abs() == M.BeginAttempt(old(Abs()))
      ensures old(tasks).Keys <= tasks.Keys
    {
      var idle := closed || socket.Some?;
      if !idle {
        Show(Connecting, stage);
      }
      op := Enter(generation, if idle then Done(Ok) else OpenVerify);
      connecting, connectingGen := Some(op), generation;
    }

    method Connect(t: Id)
      requires t in tasks
      modifies this
      ensures Abs() == M.ConnectLoop(old(Abs()), t)
      ensures old(tasks).Keys <= tasks.Keys
    {
      if connecting.Some? {
        if connectingGen == generation {
          Suspend(t, ConnectJoin(connecting.value));
        } else {
          Suspend(t, ConnectDrain(connecting.value));
        }
      } else {
        var op := OpenEventConnection();
        Suspend(t, ConnectOwn(op));
      }
    }

    method StartConnect() returns (t: Id)
      modifies this
      ensures t == old(next)
      ensures Abs() == M.StartConnect(old(Abs()))
      ensures old(tasks).Keys <= tasks.Keys
    {
      hide M.ConnectLoop;
      t := Enter(generation, Begin);
      Connect(t);
    }

    method RefreshTokens(gen: int) returns (op: Id)
      modifies this
      ensures op == old(next)
      ensures Abs() == M.StartRefresh(old(Abs()), gen)
    {
      op := Enter(gen, RefreshVerify);
      refreshing := Some(op);
    }

    method ConnectInBackground(gen: int)
      modifies this
      ensures Abs() == M.ConnectInBackground(old(Abs()), gen)
    {
      hide M.StartConnect;
      var t := Enter(gen, AwaitConnect(next + 1));
      var k := StartConnect();
    }

    /** True when what activation `from` computes is there. */
    predicate Ended(from: Id)
      reads this
    {
      from in tasks && tasks[from].at.Done?
    }

    function Result(from: Id): Outcome
      reads this
      requires Ended(from)
    {
      tasks[from].at.outcome
    }

    predicate IsCurrent(gen: int)
      reads this
    {
      !closed && generation == gen && live
    }

    method Pass(t: Id, from: Id)
      requires t in tasks
      modifies this
      ensures Abs() == M.Propagate(old(Abs()), t, from)
    {
      if Ended(from) {
        End(t, Result(from));
      }
    }

    method AfterOtherSave(t: Id, op: Id)
      requires t in tasks
      modifies this
      ensures Abs() == M.ResumeOtherSave(old(Abs()), t, op)
    {
      hide M.PersistLoop;
      if op in disk.settled {
        if disk.settled[op] {
          PersistCredentials(t);
        } else {
          End(t, Err(Other));
        }
      }
    }

    method AfterEnsurePersist(t: Id, from: Id, now: int)
      requires t in tasks
      modifies this
      ensures Abs() == M.ResumeEnsure(old(Abs()), t, from, now)
      ensures old(Ended(from)) && old(tasks)[from].at == Done(Ok) && old(IsCurrent(tasks[t].gen)) ==>
        var gen := old(tasks)[t].gen;
        if access.Some? && expiresAt > now + 30000 then tasks == old(tasks)[t := Task(gen, Done(Ok))]
        else if old(refreshing).Some? then tasks == old(tasks)[t := Task(gen, EnsureJoin(old(refreshing).value))]
        else if refresh.Some? then
          tasks == old(tasks)[old(next) := Task(gen, RefreshVerify)][t := Task(tasks[t].gen, EnsureOwn(old(next)))]
        else tasks == old(tasks)[t := Task(gen, Done(Err(Http(401, false))))]
    {
      if !Ended(from) {
      } else if Result(from).Err? {
        End(t, Result(from));
      } else if !IsCurrent(tasks[t].gen) {
        End(t, Err(Other));
      } else if access.Some? && expiresAt > now + 30000 {
        End(t, Ok);
      } else if refreshing.Some? {
        Suspend(t, EnsureJoin(refreshing.value));
      } else if refresh.None? {
        End(t, Err(Http(401, false)));
      } else {
        var op := RefreshTokens(tasks[t].gen);
        Suspend(t, EnsureOwn(op));
      }
    }

    method AfterOwnRefresh(t: Id, op: Id)
      requires t in tasks
      modifies this
      ensures Abs() == M.ResumeEnsureOwn(old(Abs()), t, op)
    {
      if Ended(op) {
        if refreshing == Some(op) {
          refreshing := None;
        }
        End(t, Result(op));
      }
    }

    method AfterOwnSync(t: Id, op: Id)
      requires t in tasks
      modifies this
      ensures Abs() == M.ResumeSyncOwn(old(Abs()), t, op)
    {
      if Ended(op) {
        if syncing == Some(op) {
          syncing := None;
        }
        End(t, Result(op));
      }
    }

    method AfterOwnConnect(t: Id, op: Id)
      requires t in tasks
      modifies this
      ensures Abs() == M.ResumeConnectOwn(old(Abs()), t, op)
    {
      if Ended(op) {
        if connecting == Some(op) {
          connecting := None;
        }
        End(t, Result(op));
      }
    }

    method AfterRefreshVerify(t: Id, i: Input)
      requires t in tasks
      modifies this
      ensures Abs() == M.ResumeRefreshVerify(old(Abs()), t, i)
    {
      if i.failure.Some? {
        End(t, Err(i.failure.value));
      } else if !IsCurrent(tasks[t].gen) {
        End(t, Err(Other));
      } else if device.None? || device.value.origin != origin {
        End(t, Err(Other));
      } else {
        Suspend(t, RefreshExchange);
      }
    }

    method AfterRefreshExchange(t: Id, i: Input)
      requires t in tasks
      modifies this
      ensures Abs() == M.ResumeRefreshExchange(old(Abs()), t, i)
      ensures refresh != old(refresh) ==> i.failure.None? && old(tasks)[t].gen == old(generation)
    {
      hide M.StartPersist;
      ConnectionDurability.RefreshedToken(Abs(), t, i);
      if i.failure.Some? {
        End(t, Err(i.failure.value));
      } else if generation != tasks[t].gen {
        End(t, Err(Other));
      } else {
        StoreTokens(i);
        var p := StartPersist();
        Suspend(t, RefreshStore(p));
      }
    }

    method AfterEnsure(t: Id, from: Id, retry: bool)
      requires t in tasks
      modifies this
      ensures Abs() == M.ResumeRequestEnsure(old(Abs()), t, from, retry)
    {
      if !Ended(from) {
      } else if Result(from).Err? {
        End(t, Result(from));
      } else if !IsCurrent(tasks[t].gen) || device.None? {
        End(t, Err(Other));
      } else {
        Suspend(t, RequestSend(retry));
      }
    }

    method AfterSend(t: Id, retry: bool, i: Input)
      requires t in tasks
      modifies this
      ensures Abs() == M.ResumeRequestSend(old(Abs()), t, retry, i)
    {
      hide M.StartEnsure;
      if i.failure.None? {
        End(t, if IsCurrent(tasks[t].gen) then Ok else Err(Other));
      } else if retry {
        End(t, Err(i.failure.value));
      } else if !IsCurrent(tasks[t].gen) {
        End(t, Err(Other));
      } else if i.failure != Some(Http(401, true)) {
        End(t, Err(i.failure.value));
      } else {
        access := None;
        var e := EnsureAccess();
        Suspend(t, RequestEnsure(e, true));
      }
    }

    method AfterSnapshot(t: Id, from: Id, valid: bool)
      requires t in tasks
      modifies this
      ensures Abs() == M.ResumeSyncRequest(old(Abs()), t, from, valid)
    {
      if Ended(from) {
        End(t, if Result(from).Ok? && !valid then Err(Other) else Result(from));
      }
    }

    method AfterDrain(t: Id, op: Id)
      requires t in tasks
      modifies this
      ensures Abs() == M.ResumeConnectDrain(old(Abs()), t, op)
    {
      hide M.ConnectLoop;
      if Ended(op) {
        if IsCurrent(tasks[t].gen) {
          Connect(t);
        } else {
          End(t, Ok);
        }
      }
    }

    method AfterOpenVerify(t: Id, i: Input)
      requires t in tasks
      modifies this
      ensures Abs() == M.ResumeOpenVerify(old(Abs()), t, i)
    {
      hide M.StartSync;
      if i.failure.Some? {
        End(t, Err(i.failure.value));
      } else if !IsCurrent(tasks[t].gen) {
        End(t, Ok);
      } else {
        var y := Sync();
        Suspend(t, OpenSync(y));
      }
    }

    method AfterOpenSync(t: Id, from: Id)
      requires t in tasks
      modifies this
      ensures Abs() == M.ResumeOpenSync(old(Abs()), t, from)
    {
      hide M.StartRequest;
      if !Ended(from) {
      } else if Result(from).Err? {
        End(t, Result(from));
      } else if !IsCurrent(tasks[t].gen) {
        End(t, Ok);
      } else {
        var r := Request();
        Suspend(t, OpenTicket(r));
      }
    }

    method OpenSocket()
      modifies this
      ensures Abs() == old(Abs()).(c := old(Abs()).c.(socket := Some(old(next))),
        sockets := old(sockets)[old(next) := old(generation)], next := old(next) + 1)
    {
      sockets := sockets[next := generation];
      socket := Some(next);
      next := next + 1;
    }

    method AfterTicket(t: Id, from: Id, valid: bool)
      requires t in tasks
      modifies this
      ensures Abs() == M.ResumeOpenTicket(old(Abs()), t, from, valid)
      ensures socket != old(socket) ==> !closed && old(socket).None? && old(tasks)[t].gen == old(generation)
    {
      if !Ended(from) {
      } else if Result(from).Err? {
        End(t, Result(from));
      } else if !valid {
        End(t, Err(Other));
      } else if closed || generation != tasks[t].gen || socket.Some? {
        End(t, Ok);
      } else {
        End(t, Ok);
        OpenSocket();
      }
    }

    method EndLogin(t: Id, outcome: Outcome)
      requires t in tasks
      modifies this
      ensures Abs() == M.EndLogin(old(Abs()), t, outcome)
    {
      if login == Some(t) {
        login := None;
      }
      End(t, outcome);
    }

    method FailLogin(t: Id, f: Failure)
      requires t in tasks
      modifies this
      ensures Abs() == M.FailLogin(old(Abs()), t, f)
    {
      if generation == tasks[t].gen {
        Show(SignedOut, None);
      }
      EndLogin(t, Err(f));
    }

    method EnsureDevice(newKey: Key)
      modifies this
      ensures Abs() == M.EnsureDevice(old(Abs()), newKey)
      ensures old(tasks).Keys <= tasks.Keys
    {
      if device.None? {
        ChangeCredentials(Some(newKey), refresh);
        device := Some(Device(origin, newKey));
      }
    }

    method AfterLoginVerify(t: Id, i: Input)
      requires t in tasks
      modifies this
      ensures Abs() == M.ResumeLoginVerify(old(Abs()), t, i)
    {
      hide M.StartPersist, M.FailLogin;
      if i.failure.Some? {
        FailLogin(t, i.failure.value);
      } else if t in aborted || generation != tasks[t].gen {
        FailLogin(t, Other);
      } else {
        EnsureDevice(i.newKey);
        var p := StartPersist();
        Suspend(t, LoginPersist(p));
      }
    }

    method AfterLoginPersist(t: Id, from: Id)
      requires t in tasks
      modifies this
      ensures Abs() == M.ResumeLoginPersist(old(Abs()), t, from)
    {
      hide M.FailLogin;
      if !Ended(from) {
      } else if Result(from).Err? {
        FailLogin(t, Result(from).failure);
      } else if t in aborted || generation != tasks[t].gen {
        FailLogin(t, Other);
      } else {
        stage := Some(BrowserAuthorization);
        Suspend(t, LoginAuthorize);
      }
    }

    method AfterAuthorize(t: Id, i: Input)
      requires t in tasks
      modifies this
      ensures Abs() == M.ResumeLoginAuthorize(old(Abs()), t, i)
      ensures refresh != old(refresh) ==> i.failure.None? && old(tasks)[t].gen == old(generation)
    {
      hide M.StartPersist, M.FailLogin, M.EndLogin;
      EndedLoginKeepsToken(Abs(), t, i);
      if i.failure.Some? {
        FailLogin(t, i.failure.value);
      } else if device.None? || device.value.origin != origin {
        FailLogin(t, Other);
      } else if generation != tasks[t].gen {
        EndLogin(t, Ok);
      } else {
        StoreTokens(i);
        var p := StartPersist();
        Suspend(t, LoginStore(p));
      }
    }

    method AfterLoginStore(t: Id, from: Id)
      requires t in tasks
      modifies this
      ensures Abs() == M.ResumeLoginStore(old(Abs()), t, from)
    {
      hide M.StartConnect, M.FailLogin, M.EndLogin;
      if !Ended(from) {
      } else if Result(from).Err? {
        FailLogin(t, Result(from).failure);
      } else if generation != tasks[t].gen {
        EndLogin(t, Ok);
      } else {
        stage := Some(ConnectingEvents);
        var k := StartConnect();
        Suspend(t, LoginConnect(k));
      }
    }

    method AfterLoginConnect(t: Id, from: Id)
      requires t in tasks
      modifies this
      ensures Abs() == M.ResumeLoginConnect(old(Abs()), t, from)
    {
      hide M.FailLogin, M.EndLogin;
      if Ended(from) {
        if Result(from).Err? {
          FailLogin(t, Result(from).failure);
        } else {
          EndLogin(t, Ok);
        }
      }
    }

    method ClearSession(t: Id)
      requires t in tasks
      modifies this
      ensures Abs() == M.FinishLogout(old(Abs()), t)
      ensures refresh.None? && access.None?
    {
      hide M.StartPersist;
      ChangeCredentials(key, None);
      access, status := None, SignedOut;
      var p := StartPersist();
      Suspend(t, LogoutPersist(p));
    }

    method AfterRevoke(t: Id, i: Input)
      requires t in tasks
      modifies this
      ensures Abs() == M.ResumeLogoutRevoke(old(Abs()), t, i)
    {
      hide M.FinishLogout;
      if i.failure.Some? {
        End(t, Err(i.failure.value));
      } else if device.None? {
        End(t, Err(Other));
      } else {
        ClearSession(t);
      }
    }

    method Forget(t: Id)
      requires t in tasks
      modifies this
      ensures Abs() == M.FinishRemove(old(Abs()), t)
    {
      live := false;
      if disk.ready {
        var op := Save(ByRemove(t));
        Suspend(t, RemoveSave(op));
      } else {
        live := true;
        End(t, Err(Other));
      }
    }

    method AfterConnect(t: Id, from: Id)
      requires t in tasks
      modifies this
      ensures Abs() == M.ResumeAwaitConnect(old(Abs()), t, from)
    {
      hide M.ScheduleReconnect;
      if Ended(from) {
        var outcome, current := Result(from), IsCurrent(tasks[t].gen);
        End(t, outcome);
        if outcome.Err? && current {
          ScheduleReconnect(outcome.failure);
        }
      }
    }

    /** An activation of persistCredentials, ensureAccess, request or sync goes on. */
    method ResumeRequest(t: Id, i: Input)
      requires t in tasks && Requesting(tasks[t].at)
      modifies this
      ensures Abs() == M.Advance(old(Abs()), t, i)
    {
      hide M.ResumeOtherSave, M.ResumeEnsure, M.ResumeEnsureOwn, M.ResumeRefreshVerify, M.ResumeRefreshExchange,
        M.ResumeRequestEnsure, M.ResumeRequestSend, M.ResumeSyncOwn, M.ResumeSyncRequest, M.ResumeConnectDrain,
        M.ResumeConnectOwn, M.ResumeOpenVerify, M.ResumeOpenSync, M.ResumeOpenTicket, M.ResumeLoginVerify,
        M.ResumeLoginPersist, M.ResumeLoginAuthorize, M.ResumeLoginStore, M.ResumeLoginConnect, M.ResumeLogoutRevoke,
        M.FinishRemove, M.ResumeAwaitConnect, M.Propagate;
      match tasks[t].at
      case OtherSave(op) => AfterOtherSave(t, op);
      case EnsurePersist(p) => AfterEnsurePersist(t, p, i.now);
      case EnsureJoin(op) => Pass(t, op);
      case EnsureOwn(op) => AfterOwnRefresh(t, op);
      case RefreshVerify => AfterRefreshVerify(t, i);
      case RefreshExchange => AfterRefreshExchange(t, i);
      case RefreshStore(p) => Pass(t, p);
      case RequestEnsure(e, retry) => AfterEnsure(t, e, retry);
      case RequestSend(retry) => AfterSend(t, retry, i);
    }

    /** An activation of sync, connect or openEventConnection goes on. */
    method ResumeAttempt(t: Id, i: Input)
      requires t in tasks && Attempting(tasks[t].at)
      modifies this
      ensures Abs() == M.Advance(old(Abs()), t, i)
    {
      hide M.ResumeOtherSave, M.ResumeEnsure, M.ResumeEnsureOwn, M.ResumeRefreshVerify, M.ResumeRefreshExchange,
        M.ResumeRequestEnsure, M.ResumeRequestSend, M.ResumeSyncOwn, M.ResumeSyncRequest, M.ResumeConnectDrain,
        M.ResumeConnectOwn, M.ResumeOpenVerify, M.ResumeOpenSync, M.ResumeOpenTicket, M.ResumeLoginVerify,
        M.ResumeLoginPersist, M.ResumeLoginAuthorize, M.ResumeLoginStore, M.ResumeLoginConnect, M.ResumeLogoutRevoke,
        M.FinishRemove, M.ResumeAwaitConnect, M.Propagate;
      match tasks[t].at
      case SyncJoin(op) => Pass(t, op);
      case SyncOwn(op) => AfterOwnSync(t, op);
      case SyncRequest(r) => AfterSnapshot(t, r, i.valid);
      case ConnectJoin(op) => Pass(t, op);
      case ConnectDrain(op) => AfterDrain(t, op);
      case ConnectOwn(op) => AfterOwnConnect(t, op);
      case OpenVerify => AfterOpenVerify(t, i);
      case OpenSync(y) => AfterOpenSync(t, y);
      case OpenTicket(r) => AfterTicket(t, r, i.valid);
      case AwaitConnect(k) => AfterConnect(t, k);
    }

    /** An activation of login, logout or remove goes on. */
    method ResumeSession(t: Id, i: Input)
      requires t in tasks && InSession(tasks[t].at)
      modifies this
      ensures Abs() == M.Advance(old(Abs()), t, i)
    {
      hide M.ResumeOtherSave, M.ResumeEnsure, M.ResumeEnsureOwn, M.ResumeRefreshVerify, M.ResumeRefreshExchange,
        M.ResumeRequestEnsure, M.ResumeRequestSend, M.ResumeSyncOwn, M.ResumeSyncRequest, M.ResumeConnectDrain,
        M.ResumeConnectOwn, M.ResumeOpenVerify, M.ResumeOpenSync, M.ResumeOpenTicket, M.ResumeLoginVerify,
        M.ResumeLoginPersist, M.ResumeLoginAuthorize, M.ResumeLoginStore, M.ResumeLoginConnect, M.ResumeLogoutRevoke,
        M.FinishRemove, M.ResumeAwaitConnect, M.Propagate;
      match tasks[t].at
      case LoginVerify => AfterLoginVerify(t, i);
      case LoginPersist(p) => AfterLoginPersist(t, p);
      case LoginAuthorize => AfterAuthorize(t, i);
      case LoginStore(p) => AfterLoginStore(t, p);
      case LoginConnect(k) => AfterLoginConnect(t, k);
      case LogoutRevoke => AfterRevoke(t, i);
      case LogoutPersist(p) => Pass(t, p);
      case RemoveRevoke => Forget(t);
    }

    /** Whatever activation t awaits has happened (or not: then nothing changes). */
    method Resume(t: Id, i: Input)
      requires Valid()
      modifies this
      ensures Valid() && Abs() == M.Advance(old(Abs()), t, i)
      ensures ConnectionTheorems.Guarded(old(Abs()), Advanced(t, i), Abs())
      ensures ConnectionEffects.Effects(old(Abs()), Advanced(t, i), Abs())
      ensures t in old(tasks) ==> ConnectionActivations.Goes(old(Abs()), Advanced(t, i), Abs())
    {
      GoodKept(Abs(), Advanced(t, i));
      if t in tasks && Requesting(tasks[t].at) {
        hide Good, ConnectionTheorems.Guarded, ConnectionEffects.Effects, ConnectionActivations.Goes, M.Advance;
        ResumeRequest(t, i);
      } else if t in tasks && Attempting(tasks[t].at) {
        hide Good, ConnectionTheorems.Guarded, ConnectionEffects.Effects, ConnectionActivations.Goes, M.Advance;
        ResumeAttempt(t, i);
      } else if t in tasks && InSession(tasks[t].at) {
        hide Good, ConnectionTheorems.Guarded, ConnectionEffects.Effects, ConnectionActivations.Goes, M.Advance;
        ResumeSession(t, i);
      } else {
        OthersWait(Abs(), t, i);
      }
    }

    /** A sign-in under an acceptable device name; any other is refused without effect. */
    method LogIn(deviceName: string)
      requires Valid()
      modifies this
      ensures Valid() && Abs() == if DeviceName(deviceName) then M.ApiLogin(old(Abs())) else old(Abs())
      ensures DeviceName(deviceName) ==> ConnectionTheorems.Guarded(old(Abs()), LoginCalled, Abs())
      ensures DeviceName(deviceName) ==> ConnectionEffects.Effects(old(Abs()), LoginCalled, Abs())
    {
      hide Good, ConnectionTheorems.Guarded, ConnectionEffects.Effects, ConnectionActivations.Goes, DeviceName;
      GoodKept(Abs(), LoginCalled);
      if closed || !live || !DeviceName(deviceName) || login.Some? {
        return;
      }
      StopConnection();
      var t := Enter(generation, LoginVerify);
      login := Some(t);
      Show(Connecting, Some(VerifyingServer));
    }

    method CancelLogin()
      requires Valid()
      modifies this
      ensures Valid() && Abs() == M.ApiCancelLogin(old(Abs()))
      ensures ConnectionTheorems.Guarded(old(Abs()), CancelLoginCalled, Abs())
      ensures ConnectionEffects.Effects(old(Abs()), CancelLoginCalled, Abs())
    {
      hide Good, ConnectionTheorems.Guarded, ConnectionEffects.Effects, ConnectionActivations.Goes;
      GoodKept(Abs(), CancelLoginCalled);
      if closed || !live || login.None? {
        return;
      }
      StopConnection();
      status := if refresh.Some? then Reconnecting else SignedOut;
    }

    method LogOut()
      requires Valid()
      modifies this
      ensures Valid() && Abs() == M.ApiLogout(old(Abs()))
      ensures ConnectionTheorems.Guarded(old(Abs()), LogoutCalled, Abs())
      ensures ConnectionEffects.Effects(old(Abs()), LogoutCalled, Abs())
    {
      hide M.FinishLogout, Good, ConnectionTheorems.Guarded, ConnectionEffects.Effects, ConnectionActivations.Goes;
      GoodKept(Abs(), LogoutCalled);
      if closed || !live {
        return;
      }
      StopConnection();
      var t := Enter(generation, LogoutRevoke);
      if refresh.None? {
        ClearSession(t);
      }
    }

    method Remove()
      requires Valid()
      modifies this
      ensures Valid() && Abs() == M.ApiRemove(old(Abs()))
      ensures ConnectionTheorems.Guarded(old(Abs()), RemoveCalled, Abs())
      ensures ConnectionEffects.Effects(old(Abs()), RemoveCalled, Abs())
    {
      hide M.FinishRemove, Good, ConnectionTheorems.Guarded, ConnectionEffects.Effects, ConnectionActivations.Goes;
      GoodKept(Abs(), RemoveCalled);
      if closed || !live {
        return;
      }
      StopConnection();
      var t := Enter(generation, RemoveRevoke);
      if refresh.None? {
        Forget(t);
      }
    }

    method ResumeConnection()
      requires Valid()
      modifies this
      ensures Valid() && Abs() == M.ApiResume(old(Abs()))
      ensures ConnectionTheorems.Guarded(old(Abs()), ResumeCalled, Abs())
      ensures ConnectionEffects.Effects(old(Abs()), ResumeCalled, Abs())
    {
      hide M.ConnectInBackground, Good, ConnectionTheorems.Guarded, ConnectionEffects.Effects,
        ConnectionActivations.Goes;
      GoodKept(Abs(), ResumeCalled);
      if !closed && live {
        StopConnection();
        ConnectInBackground(generation);
      }
    }

    method Snapshot()
      requires Valid()
      modifies this
      ensures Valid() && Abs() == M.ApiSnapshot(old(Abs()))
      ensures ConnectionTheorems.Guarded(old(Abs()), SnapshotCalled, Abs())
      ensures ConnectionEffects.Effects(old(Abs()), SnapshotCalled, Abs())
    {
      hide M.ConnectInBackground, M.StartSync, Good, ConnectionTheorems.Guarded, ConnectionEffects.Effects,
        ConnectionActivations.Goes;
      GoodKept(Abs(), SnapshotCalled);
      if !closed && live {
        if socket.None? && timer.None? && refresh.Some? {
          ConnectInBackground(generation);
        }
        var y := Sync();
      }
    }

    method CallServer()
      requires Valid()
      modifies this
      ensures Valid() && Abs() == M.ApiRequest(old(Abs()))
      ensures ConnectionTheorems.Guarded(old(Abs()), RequestCalled, Abs())
      ensures ConnectionEffects.Effects(old(Abs()), RequestCalled, Abs())
    {
      hide M.StartRequest, Good, ConnectionTheorems.Guarded, ConnectionEffects.Effects, ConnectionActivations.Goes;
      GoodKept(Abs(), RequestCalled);
      if !closed && live {
        var r := Request();
      }
    }

    method Close()
      requires Valid()
      modifies this
      ensures Valid() && Abs() == M.Close(old(Abs()))
      ensures ConnectionTheorems.Guarded(old(Abs()), CloseCalled, Abs())
      ensures ConnectionEffects.Effects(old(Abs()), CloseCalled, Abs())
      ensures old(live) ==> ConnectionTheorems.Shut(Abs())
    {
      hide Good, ConnectionTheorems.Guarded, ConnectionEffects.Effects, ConnectionActivations.Goes,
        ConnectionTheorems.Shut;
      GoodKept(Abs(), CloseCalled);
      if live {
        ConnectionTheorems.CloseShuts(Abs());
      }
      closed := true;
      if live {
        StopConnection();
      }
    }

    method TimerFired()
      requires Valid()
      modifies this
      ensures Valid() && Abs() == M.TimerFires(old(Abs()))
      ensures ConnectionTheorems.Guarded(old(Abs()), Event.TimerFired, Abs())
      ensures ConnectionEffects.Effects(old(Abs()), Event.TimerFired, Abs())
    {
      hide M.ConnectInBackground, Good, ConnectionTheorems.Guarded, ConnectionEffects.Effects,
        ConnectionActivations.Goes;
      GoodKept(Abs(), Event.TimerFired);
      if timer.Some? {
        var gen := timer.value;
        timer := None;
        if gen == generation && !closed {
          ConnectInBackground(gen);
        }
      }
    }

    method SocketReady(k: Id)
      requires Valid()
      modifies this
      ensures Valid() && Abs() == M.SocketReady(old(Abs()), k)
      ensures ConnectionTheorems.Guarded(old(Abs()), SocketOpened(k), Abs())
      ensures ConnectionEffects.Effects(old(Abs()), SocketOpened(k), Abs())
    {
      hide Good, ConnectionTheorems.Guarded, ConnectionEffects.Effects, ConnectionActivations.Goes;
      GoodKept(Abs(), SocketOpened(k));
      if !closed && k in sockets && sockets[k] == generation && socket == Some(k) {
        Show(Online, None);
        attempt := 0;
      }
    }

    method SocketClosed(k: Id)
      requires Valid()
      modifies this
      ensures Valid() && Abs() == M.SocketClosed(old(Abs()), k)
      ensures ConnectionTheorems.Guarded(old(Abs()), SocketLost(k), Abs())
      ensures ConnectionEffects.Effects(old(Abs()), SocketLost(k), Abs())
    {
      hide M.ScheduleReconnect, Good, ConnectionTheorems.Guarded, ConnectionEffects.Effects, ConnectionActivations.Goes;
      GoodKept(Abs(), SocketLost(k));
      if !closed && k in sockets && sockets[k] == generation && socket == Some(k) {
        socket := None;
        ScheduleReconnect(Other);
      }
    }

    method OtherConnectionSaves()
      requires Valid()
      modifies this
      ensures Valid() && Abs() == M.OtherConnectionSaves(old(Abs()))
      ensures ConnectionTheorems.Guarded(old(Abs()), OtherSaved, Abs())
      ensures ConnectionEffects.Effects(old(Abs()), OtherSaved, Abs())
    {
      hide Good, ConnectionTheorems.Guarded, ConnectionEffects.Effects, ConnectionActivations.Goes;
      GoodKept(Abs(), OtherSaved);
      if disk.ready {
        var op := Save(ByOther);
      }
    }

    method ClearSaving(op: Id)
      modifies this
      ensures Abs() == if old(saving) == Some(op) then old(Abs()).(c := old(Abs()).c.(saving := None)) else old(Abs())
    {
      if saving == Some(op) {
        saving := None;
      }
    }

    /** persistCredentials goes on after its own save. */
    method SaveEnded(t: Id, op: Id, captured: Cred, ok: bool)
      requires t in tasks && tasks[t].at.OwnSave?
      modifies this
      ensures forall w: Write :: w.op == op && w.owner == ByPersist(t, captured) ==>
        Abs() == M.Continue(old(Abs()), w, ok)
    {
      hide M.PersistLoop;
      ClearSaving(op);
      if !ok {
        End(t, Err(Other));
      } else {
        Suspend(t, Begin);
        if Cred(key, refresh) == captured {
          dirty := false;
        }
        PersistCredentials(t);
      }
    }

    method WriteEnded(ok: bool)
      requires Valid()
      modifies this
      ensures Valid() && Abs() == M.Settle(old(Abs()), ok)
      ensures ConnectionTheorems.Guarded(old(Abs()), WriteSettled(ok), Abs())
      ensures ConnectionEffects.Effects(old(Abs()), WriteSettled(ok), Abs())
      ensures ConnectionActivations.WriterGoes(old(Abs()), ok, Abs())
      ensures old(dirty) && !dirty ==> ok && old(disk).queue != [] && disk.file == old(disk).queue[0].record
      ensures old(dirty) && !dirty ==> (disk.file == Some(Cred(key, refresh)) <==> disk.file.Some?)
    {
      hide M.Settle, Good, ConnectionTheorems.Guarded, ConnectionEffects.Effects, ConnectionActivations.Goes;
      GoodKept(Abs(), WriteSettled(ok));
      if dirty && !M.Settle(Abs(), ok).c.dirty {
        GoodClean(Abs(), ok);
      }
      EndWrite(ok);
    }

    method EndWrite(ok: bool)
      modifies this
      ensures Abs() == M.Settle(old(Abs()), ok)
    {
      hide M.Continue;
      if disk.queue == [] {
        return;
      }
      var w := disk.queue[0];
      disk := disk.(file := if ok then w.record else disk.file, queue := disk.queue[1..],
                    settled := disk.settled[w.op := ok]);
      OwnerContinues(w, ok);
    }

    method OwnerContinues(w: Write, ok: bool)
      modifies this
      ensures Abs() == M.Continue(old(Abs()), w, ok)
    {
      match w.owner
      case ByPersist(t, captured) =>
        hide M.PersistLoop;
        if t in tasks && tasks[t].at.OwnSave? {
          SaveEnded(t, w.op, captured, ok);
        }
      case ByRemove(t) =>
        if t in tasks && tasks[t].at.RemoveSave? {
          if !ok {
            live := true;
          }
          End(t, if ok then Ok else Err(Other));
        }
      case ByAdd => live := live && ok;
      case ByOther =>
    }

    /** The keychain has become available, or has gone. */
    method ChangeStore(ready: bool)
      modifies this
      ensures Abs() == old(Abs()).(disk := old(disk).(ready := ready))
    {
      disk := disk.(ready := ready);
    }

    method Handle(e: Event)
      requires Valid()
      modifies this
      ensures Valid() && Abs() == M.Step(old(Abs()), e)
      ensures ConnectionTheorems.Guarded(old(Abs()), e, Abs())
      ensures ConnectionEffects.Effects(old(Abs()), e, Abs())
    {
      GoodKept(Abs(), e);
      hide Good, ConnectionTheorems.Guarded, ConnectionEffects.Effects, ConnectionActivations.Goes, DeviceName,
        ConnectionActivations.WriterGoes, ConnectionTheorems.Shut, ConnectionEffects.Acts, M.ApiLogin,
        M.ApiCancelLogin, M.ApiLogout, M.ApiRemove, M.ApiResume, M.ApiSnapshot, M.ApiRequest, M.Close, M.TimerFires,
        M.SocketReady, M.SocketClosed, M.OtherConnectionSaves, M.Settle, M.Advance;
      match e
      case LoginCalled => DefaultDeviceName(); LogIn(DEFAULT_DEVICE);
      case CancelLoginCalled => CancelLogin();
      case LogoutCalled => LogOut();
      case RemoveCalled => Remove();
      case ResumeCalled => ResumeConnection();
      case SnapshotCalled => Snapshot();
      case RequestCalled => CallServer();
      case CloseCalled => Close();
      case TimerFired => TimerFired();
      case SocketOpened(k) => SocketReady(k);
      case SocketLost(k) => SocketClosed(k);
      case OtherSaved => OtherConnectionSaves();
      case StoreChanged(ready) => ChangeStore(ready);
      case WriteSettled(ok) => WriteEnded(ok);
      case Advanced(t, i) => Resume(t, i);
    }

    /** The object's whole life: any sequence of events takes it where the model's run goes. */
    method Live(es: seq<Event>)
      requires Valid()
      modifies this
      ensures Valid() && Abs() == M.Run(old(Abs()), es)
    {
      hide M.Step, Good, ConnectionTheorems.Guarded, ConnectionEffects.Effects, ConnectionActivations.Goes;
      ghost var start := Abs();
      for n := 0 to |es|
        invariant Valid() && Abs() == M.Run(start, es[..n])
      {
        Handle(es[n]);
        assert es[..n + 1][..n] == es[..n];
      }
      assert es[..|es|] == es;
    }
  }
}
