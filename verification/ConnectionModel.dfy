/**
  One saved server connection, with every activation of the manager's asynchronous functions as a task that stops
  at the program points where the source awaits the network, the encrypted store, a timer or another activation.

  A step runs one activation from one await to the next. All interleavings are the event sequences given to `Run`.
  Everything the outside world decides (replies, failures, the clock, the keychain, saves made for other
  connections) is a parameter of an event.
 */
module ConnectionModel {
  import opened Option

  type Token = int
  type Key = int
  type Id = int

  datatype Status = SignedOut | Connecting | Online | Reconnecting
  datatype Stage = VerifyingServer | BrowserAuthorization | ConnectingEvents

  /** The signer built from the device key; it serves one origin only. */
  datatype Device = Device(origin: string, key: Key)

  /** What a thrown error tells the manager. */
  datatype Failure = Http(status: int, invalidToken: bool) | Other
  datatype Outcome = Ok | Err(failure: Failure)

  /** The credential part of a stored record. */
  datatype Cred = Cred(key: Option<Key>, refresh: Option<Token>)

  /** Where an activation is suspended, with the locals it captured. */
  datatype Point =
    | Begin                                                        // entered, not yet suspended
    | OtherSave(op: Id)                                            // persistCredentials awaits a save it did not start
    | OwnSave(op: Id)                                              // persistCredentials awaits its own save
    | EnsurePersist(t: Id) | EnsureJoin(op: Id) | EnsureOwn(op: Id)
    | RefreshVerify | RefreshExchange | RefreshStore(t: Id)
    | RequestEnsure(t: Id, retry: bool) | RequestSend(retry: bool)
    | SyncJoin(op: Id) | SyncOwn(op: Id) | SyncRequest(t: Id)
    | ConnectJoin(op: Id) | ConnectDrain(op: Id) | ConnectOwn(op: Id)
    | OpenVerify | OpenSync(t: Id) | OpenTicket(t: Id)
    | LoginVerify | LoginPersist(t: Id) | LoginAuthorize | LoginStore(t: Id) | LoginConnect(t: Id)
    | LogoutRevoke | LogoutPersist(t: Id)
    | RemoveRevoke | RemoveSave(op: Id)
    | AwaitConnect(t: Id)                                          // timer and snapshot: connect in the background; resume
    | Done(outcome: Outcome)

  datatype Task = Task(gen: int, at: Point)

  /** Who continues when a save ends; persistCredentials keeps the values it captured before saving. */
  datatype Owner = ByPersist(t: Id, captured: Cred) | ByRemove(t: Id) | ByAdd | ByOther

  /** A queued snapshot of the whole store, seen through this connection's record (None: not in the snapshot). */
  datatype Write = Write(op: Id, owner: Owner, record: Option<Cred>, version: int)

  /** The store: writes happen one at a time, in call order; each replaces the file or leaves it alone. */
  datatype Disk = Disk(ready: bool, file: Option<Cred>, queue: seq<Write>, settled: map<Id, bool>)

  datatype Conn = Conn(
    origin: string, status: Status, stage: Option<Stage>,
    key: Option<Key>, refresh: Option<Token>, device: Option<Device>, access: Option<Token>, expiresAt: int,
    dirty: bool, saving: Option<Id>,
    generation: int, attempt: int, socket: Option<Id>, timer: Option<int>, login: Option<Id>,
    connecting: Option<Id>, connectingGen: int, refreshing: Option<Id>, syncing: Option<Id>)

  /** `history` lists the credential values the connection has had, oldest first; it is only observed.
      A queued write's `version` is the length of the history when its snapshot was taken. */
  datatype State = State(
    c: Conn, closed: bool, live: bool,
    tasks: map<Id, Task>, sockets: map<Id, int>, aborted: set<Id>, next: Id,
    disk: Disk, history: seq<Cred>)

  // ---------------------------------------------------------------- small observations

  function Creds(c: Conn): Cred { Cred(c.key, c.refresh) }

  /** What a snapshot taken now says about this connection. */
  function Record(s: State): Option<Cred> {
    if s.live then Some(Creds(s.c)) else None
  }

  /** The credentials a stored record gives back; a missing record has none. */
  function Durable(record: Option<Cred>): Cred {
    if record.Some? then record.value else Cred(None, None)
  }

  predicate Current(s: State, gen: int) { !s.closed && s.c.generation == gen && s.live }

  predicate Finished(s: State, t: Id) { t in s.tasks && s.tasks[t].at.Done? }

  function OutcomeOf(s: State, t: Id): Outcome
    requires Finished(s, t)
  {
    s.tasks[t].at.outcome
  }

  // ---------------------------------------------------------------- primitive changes

  function At(s: State, t: Id, at: Point): State
    requires t in s.tasks
  {
    s.(tasks := s.tasks[t := s.tasks[t].(at := at)])
  }

  function Finish(s: State, t: Id, outcome: Outcome): State
    requires t in s.tasks
  {
    At(s, t, Done(outcome))
  }

  /** A new activation, suspended at `at`; its id is `s.next`. */
  function Spawn(s: State, gen: int, at: Point): State {
    s.(tasks := s.tasks[s.next := Task(gen, at)], next := s.next + 1)
  }

  /** save(): snapshot now, write later; the operation's id is `s.next`. */
  function Enqueue(s: State, owner: Owner): State {
    var write := Write(s.next, owner, Record(s), |s.history|);
    s.(disk := s.disk.(queue := s.disk.queue + [write]), next := s.next + 1)
  }

  // ---------------------------------------------------------------- changes of the connection made without awaiting

  /** New credential values, not yet acknowledged by the store. */
  function SetCreds(s: State, key: Option<Key>, refresh: Option<Token>): State {
    s.(c := s.c.(key := key, refresh := refresh, dirty := true), history := s.history + [Cred(key, refresh)])
  }

  /** stopConnection: the only place that moves the generation. */
  function Stop(s: State): State {
    s.(c := s.c.(generation := s.c.generation + 1, login := None, stage := None, timer := None, socket := None),
       aborted := if s.c.login.Some? then s.aborted + {s.c.login.value} else s.aborted)
  }

  predicate SignInRequired(f: Failure) { f.Http? && f.status in {400, 401, 403} }

  function ScheduleReconnect(s: State, f: Failure): State {
    if s.closed || !s.live || s.c.timer.Some? then s
    else if s.c.refresh.None? || SignInRequired(f) then s.(c := s.c.(stage := None, status := SignedOut))
    else s.(c := s.c.(stage := None, status := Reconnecting, attempt := s.c.attempt + 1,
                      timer := Some(s.c.generation)))
  }

  /** The synchronous half of storeTokens. */
  function StoreTokens(s: State, i: Input): State {
    var s1 := SetCreds(s, s.c.key, Some(i.refresh));
    s1.(c := s1.c.(access := Some(i.access), expiresAt := i.now + i.lifetime * 1000))
  }

  // ---------------------------------------------------------------- calls, up to their first await

  /** The loop of persistCredentials, entered or re-entered by activation t. */
  function PersistLoop(s: State, t: Id): State
    requires t in s.tasks
  {
    if !s.c.dirty then Finish(s, t, Ok)
    else if s.c.saving.Some? then At(s, t, OtherSave(s.c.saving.value))
    else if !s.disk.ready then Finish(s, t, Err(Other))
    else
      var s1 := Enqueue(s, ByPersist(t, Creds(s.c)));
      At(s1.(c := s1.c.(saving := Some(s.next))), t, OwnSave(s.next))
  }

  function StartPersist(s: State): State {
    PersistLoop(Spawn(s, s.c.generation, Begin), s.next)
  }

  function StartEnsure(s: State): State {
    var s1 := StartPersist(Spawn(s, s.c.generation, Begin));
    At(s1, s.next, EnsurePersist(s.next + 1))
  }

  function StartRequest(s: State): State {
    var s1 := StartEnsure(Spawn(s, s.c.generation, Begin));
    At(s1, s.next, RequestEnsure(s.next + 1, false))
  }

  function StartSyncOp(s: State): State {
    var s1 := StartRequest(Spawn(s, s.c.generation, Begin));
    var s2 := At(s1, s.next, SyncRequest(s.next + 1));
    s2.(c := s2.c.(syncing := Some(s.next)))
  }

  function StartSync(s: State): State {
    if s.c.syncing.Some? then Spawn(s, s.c.generation, SyncJoin(s.c.syncing.value))
    else StartSyncOp(Spawn(s, s.c.generation, SyncOwn(s.next + 1)))
  }

  /** openEventConnection up to its first await, and the slot it takes in the same turn. */
  function BeginAttempt(s: State): State {
    var idle := s.closed || s.c.socket.Some?;
    var d := s.c.(connecting := Some(s.next), connectingGen := s.c.generation,
                  status := if idle then s.c.status else Connecting);
    Spawn(s.(c := d), s.c.generation, if idle then Done(Ok) else OpenVerify)
  }

  /** connect, entered or re-entered by activation t. */
  function ConnectLoop(s: State, t: Id): State
    requires t in s.tasks
  {
    if s.c.connecting.Some? then
      if s.c.connectingGen == s.c.generation then At(s, t, ConnectJoin(s.c.connecting.value))
      else At(s, t, ConnectDrain(s.c.connecting.value))
    else At(BeginAttempt(s), t, ConnectOwn(s.next))
  }

  function StartConnect(s: State): State {
    ConnectLoop(Spawn(s, s.c.generation, Begin), s.next)
  }

  function StartRefresh(s: State, gen: int): State {
    var s1 := Spawn(s, gen, RefreshVerify);
    s1.(c := s1.c.(refreshing := Some(s.next)))
  }

  /** `void connect(c).catch(...)`: the caller does not wait. */
  function ConnectInBackground(s: State, gen: int): State {
    StartConnect(Spawn(s, gen, AwaitConnect(s.next + 1)))
  }

  // ---------------------------------------------------------------- resuming an activation

  /** What the outside answers when an activation resumes. */
  datatype Input = Input(failure: Option<Failure>, refresh: Token, access: Token, lifetime: int, now: int,
                         valid: bool, newKey: Key)

  /** Passes the outcome of an awaited activation on. */
  function Propagate(s: State, t: Id, from: Id): State
    requires t in s.tasks
  {
    if Finished(s, from) then Finish(s, t, OutcomeOf(s, from)) else s
  }

  function ResumeOtherSave(s: State, t: Id, op: Id): State
    requires t in s.tasks
  {
    if op !in s.disk.settled then s
    else if !s.disk.settled[op] then Finish(s, t, Err(Other))
    else PersistLoop(s, t)
  }

  function ResumeEnsure(s: State, t: Id, from: Id, now: int): State
    requires t in s.tasks
  {
    if !Finished(s, from) then s
    else if OutcomeOf(s, from).Err? then Finish(s, t, OutcomeOf(s, from))
    else if !Current(s, s.tasks[t].gen) then Finish(s, t, Err(Other))
    else if s.c.access.Some? && s.c.expiresAt > now + 30000 then Finish(s, t, Ok)
    else if s.c.refreshing.Some? then At(s, t, EnsureJoin(s.c.refreshing.value))
    else if s.c.refresh.None? then Finish(s, t, Err(Http(401, false)))
    else At(StartRefresh(s, s.tasks[t].gen), t, EnsureOwn(s.next))
  }

  function ResumeEnsureOwn(s: State, t: Id, op: Id): State
    requires t in s.tasks
  {
    if !Finished(s, op) then s
    else Finish(if s.c.refreshing == Some(op) then s.(c := s.c.(refreshing := None)) else s, t, OutcomeOf(s, op))
  }

  function ResumeRefreshVerify(s: State, t: Id, i: Input): State
    requires t in s.tasks
  {
    if i.failure.Some? then Finish(s, t, Err(i.failure.value))
    else if !Current(s, s.tasks[t].gen) then Finish(s, t, Err(Other))
    else if s.c.device.None? || s.c.device.value.origin != s.c.origin then Finish(s, t, Err(Other))
    else At(s, t, RefreshExchange)
  }

  function ResumeRefreshExchange(s: State, t: Id, i: Input): State
    requires t in s.tasks
  {
    if i.failure.Some? then Finish(s, t, Err(i.failure.value))
    else if s.c.generation != s.tasks[t].gen then Finish(s, t, Err(Other))
    else At(StartPersist(StoreTokens(s, i)), t, RefreshStore(s.next))
  }

  function ResumeRequestEnsure(s: State, t: Id, from: Id, retry: bool): State
    requires t in s.tasks
  {
    if !Finished(s, from) then s
    else if OutcomeOf(s, from).Err? then Finish(s, t, OutcomeOf(s, from))
    else if !Current(s, s.tasks[t].gen) || s.c.device.None? then Finish(s, t, Err(Other))
    else At(s, t, RequestSend(retry))
  }

  function ResumeRequestSend(s: State, t: Id, retry: bool, i: Input): State
    requires t in s.tasks
  {
    if i.failure.None? then Finish(s, t, if Current(s, s.tasks[t].gen) then Ok else Err(Other))
    else if retry then Finish(s, t, Err(i.failure.value))
    else if !Current(s, s.tasks[t].gen) then Finish(s, t, Err(Other))
    else if i.failure != Some(Http(401, true)) then Finish(s, t, Err(i.failure.value))
    else At(StartEnsure(s.(c := s.c.(access := None))), t, RequestEnsure(s.next, true))
  }

  function ResumeSyncOwn(s: State, t: Id, op: Id): State
    requires t in s.tasks
  {
    if !Finished(s, op) then s
    else Finish(if s.c.syncing == Some(op) then s.(c := s.c.(syncing := None)) else s, t, OutcomeOf(s, op))
  }

  function ResumeSyncRequest(s: State, t: Id, from: Id, valid: bool): State
    requires t in s.tasks
  {
    if !Finished(s, from) then s
    else if OutcomeOf(s, from).Ok? && !valid then Finish(s, t, Err(Other))
    else Finish(s, t, OutcomeOf(s, from))
  }

  function ResumeConnectDrain(s: State, t: Id, op: Id): State
    requires t in s.tasks
  {
    if !Finished(s, op) then s
    else if !Current(s, s.tasks[t].gen) then Finish(s, t, Ok)
    else ConnectLoop(s, t)
  }

  function ResumeConnectOwn(s: State, t: Id, op: Id): State
    requires t in s.tasks
  {
    if !Finished(s, op) then s
    else Finish(if s.c.connecting == Some(op) then s.(c := s.c.(connecting := None)) else s, t, OutcomeOf(s, op))
  }

  function ResumeOpenVerify(s: State, t: Id, i: Input): State
    requires t in s.tasks
  {
    if i.failure.Some? then Finish(s, t, Err(i.failure.value))
    else if !Current(s, s.tasks[t].gen) then Finish(s, t, Ok)
    else At(StartSync(s), t, OpenSync(s.next))
  }

  function ResumeOpenSync(s: State, t: Id, from: Id): State
    requires t in s.tasks
  {
    if !Finished(s, from) then s
    else if OutcomeOf(s, from).Err? then Finish(s, t, OutcomeOf(s, from))
    else if !Current(s, s.tasks[t].gen) then Finish(s, t, Ok)
    else At(StartRequest(s), t, OpenTicket(s.next))
  }

  /** The ticket reply creates the socket, whose id is `s.next`. */
  function ResumeOpenTicket(s: State, t: Id, from: Id, valid: bool): State
    requires t in s.tasks
  {
    if !Finished(s, from) then s
    else if OutcomeOf(s, from).Err? then Finish(s, t, OutcomeOf(s, from))
    else if !valid then Finish(s, t, Err(Other))
    else if s.closed || s.c.generation != s.tasks[t].gen || s.c.socket.Some? then Finish(s, t, Ok)
    else
      var s1 := Finish(s, t, Ok);
      s1.(c := s1.c.(socket := Some(s.next)), sockets := s1.sockets[s.next := s.tasks[t].gen], next := s.next + 1)
  }

  predicate LoginCancelled(s: State, t: Id)
    requires t in s.tasks
  {
    t in s.aborted || s.c.generation != s.tasks[t].gen
  }

  /** The `finally` of login. */
  function EndLogin(s: State, t: Id, outcome: Outcome): State
    requires t in s.tasks
  {
    Finish(if s.c.login == Some(t) then s.(c := s.c.(login := None)) else s, t, outcome)
  }

  function FailLogin(s: State, t: Id, f: Failure): State
    requires t in s.tasks
  {
    EndLogin(if s.c.generation == s.tasks[t].gen then s.(c := s.c.(status := SignedOut, stage := None)) else s,
             t, Err(f))
  }

  /** The first login creates the device key and its signer. */
  function EnsureDevice(s: State, newKey: Key): State {
    if s.c.device.Some? then s
    else
      var s1 := SetCreds(s, Some(newKey), s.c.refresh);
      s1.(c := s1.c.(device := Some(Device(s.c.origin, newKey))))
  }

  function ResumeLoginVerify(s: State, t: Id, i: Input): State
    requires t in s.tasks
  {
    if i.failure.Some? then FailLogin(s, t, i.failure.value)
    else if LoginCancelled(s, t) then FailLogin(s, t, Other)
    else At(StartPersist(EnsureDevice(s, i.newKey)), t, LoginPersist(s.next))
  }

  function ResumeLoginPersist(s: State, t: Id, from: Id): State
    requires t in s.tasks
  {
    if !Finished(s, from) then s
    else if OutcomeOf(s, from).Err? then FailLogin(s, t, OutcomeOf(s, from).failure)
    else if LoginCancelled(s, t) then FailLogin(s, t, Other)
    else At(s.(c := s.c.(stage := Some(BrowserAuthorization))), t, LoginAuthorize)
  }

  function ResumeLoginAuthorize(s: State, t: Id, i: Input): State
    requires t in s.tasks
  {
    if i.failure.Some? then FailLogin(s, t, i.failure.value)
    else if s.c.device.None? || s.c.device.value.origin != s.c.origin then FailLogin(s, t, Other)
    else if s.c.generation != s.tasks[t].gen then EndLogin(s, t, Ok)
    else At(StartPersist(StoreTokens(s, i)), t, LoginStore(s.next))
  }

  function ResumeLoginStore(s: State, t: Id, from: Id): State
    requires t in s.tasks
  {
    if !Finished(s, from) then s
    else if OutcomeOf(s, from).Err? then FailLogin(s, t, OutcomeOf(s, from).failure)
    else if s.c.generation != s.tasks[t].gen then EndLogin(s, t, Ok)
    else
      At(StartConnect(s.(c := s.c.(stage := Some(ConnectingEvents)))), t, LoginConnect(s.next))
  }

  function ResumeLoginConnect(s: State, t: Id, from: Id): State
    requires t in s.tasks
  {
    if !Finished(s, from) then s
    else if OutcomeOf(s, from).Err? then FailLogin(s, t, OutcomeOf(s, from).failure)
    else EndLogin(s, t, Ok)
  }

  /** The tail of logout, after the revocation or when there is nothing to revoke. */
  function FinishLogout(s: State, t: Id): State
    requires t in s.tasks
  {
    var s1 := SetCreds(s, s.c.key, None);
    var s2 := s1.(c := s1.c.(access := None, status := SignedOut));
    At(StartPersist(s2), t, LogoutPersist(s.next))
  }

  function ResumeLogoutRevoke(s: State, t: Id, i: Input): State
    requires t in s.tasks
  {
    if i.failure.Some? then Finish(s, t, Err(i.failure.value))
    else if s.c.device.None? then Finish(s, t, Err(Other))
    else FinishLogout(s, t)
  }

  /** The tail of remove: forget the connection, save, and bring it back when saving fails at once. */
  function FinishRemove(s: State, t: Id): State
    requires t in s.tasks
  {
    var gone := s.(live := false);
    if !s.disk.ready then Finish(s.(live := true), t, Err(Other))
    else At(Enqueue(gone, ByRemove(t)), t, RemoveSave(s.next))
  }

  function ResumeAwaitConnect(s: State, t: Id, from: Id): State
    requires t in s.tasks
  {
    if !Finished(s, from) then s
    else
      var s1 := Finish(s, t, OutcomeOf(s, from));
      if OutcomeOf(s, from).Err? && Current(s, s.tasks[t].gen)
      then ScheduleReconnect(s1, OutcomeOf(s, from).failure) else s1
  }

  /** One activation runs to its next await; if what it awaits has not happened, nothing changes. */
  function Advance(s: State, t: Id, i: Input): State {
    if t !in s.tasks then s
    else match s.tasks[t].at
      case OtherSave(op) => ResumeOtherSave(s, t, op)
      case OwnSave(_) => s
      case EnsurePersist(p) => ResumeEnsure(s, t, p, i.now)
      case EnsureJoin(op) => Propagate(s, t, op)
      case EnsureOwn(op) => ResumeEnsureOwn(s, t, op)
      case RefreshVerify => ResumeRefreshVerify(s, t, i)
      case RefreshExchange => ResumeRefreshExchange(s, t, i)
      case RefreshStore(p) => Propagate(s, t, p)
      case RequestEnsure(e, retry) => ResumeRequestEnsure(s, t, e, retry)
      case RequestSend(retry) => ResumeRequestSend(s, t, retry, i)
      case SyncJoin(op) => Propagate(s, t, op)
      case SyncOwn(op) => ResumeSyncOwn(s, t, op)
      case SyncRequest(r) => ResumeSyncRequest(s, t, r, i.valid)
      case ConnectJoin(op) => Propagate(s, t, op)
      case ConnectDrain(op) => ResumeConnectDrain(s, t, op)
      case ConnectOwn(op) => ResumeConnectOwn(s, t, op)
      case OpenVerify => ResumeOpenVerify(s, t, i)
      case OpenSync(y) => ResumeOpenSync(s, t, y)
      case OpenTicket(r) => ResumeOpenTicket(s, t, r, i.valid)
      case LoginVerify => ResumeLoginVerify(s, t, i)
      case LoginPersist(p) => ResumeLoginPersist(s, t, p)
      case LoginAuthorize => ResumeLoginAuthorize(s, t, i)
      case LoginStore(p) => ResumeLoginStore(s, t, p)
      case LoginConnect(k) => ResumeLoginConnect(s, t, k)
      case LogoutRevoke => ResumeLogoutRevoke(s, t, i)
      case LogoutPersist(p) => Propagate(s, t, p)
      case RemoveRevoke => FinishRemove(s, t)
      case RemoveSave(_) => s
      case AwaitConnect(k) => ResumeAwaitConnect(s, t, k)
      case Done(_) => s
      case Begin => s
  }

  // ---------------------------------------------------------------- public operations

  predicate Usable(s: State) { !s.closed && s.live }

  function ApiLogin(s: State): State {
    if !Usable(s) || s.c.login.Some? then s
    else
      var s1 := Stop(s);
      var s2 := Spawn(s1, s1.c.generation, LoginVerify);
      s2.(c := s2.c.(login := Some(s.next), status := Connecting, stage := Some(VerifyingServer)))
  }

  function ApiCancelLogin(s: State): State {
    if !Usable(s) || s.c.login.None? then s
    else
      var s1 := Stop(s);
      s1.(c := s1.c.(status := if s1.c.refresh.Some? then Reconnecting else SignedOut))
  }

  function ApiLogout(s: State): State {
    if !Usable(s) then s
    else
      var s1 := Spawn(Stop(s), s.c.generation + 1, LogoutRevoke);
      if s.c.refresh.Some? then s1 else FinishLogout(s1, s.next)
  }

  function ApiRemove(s: State): State {
    if !Usable(s) then s
    else
      var s1 := Spawn(Stop(s), s.c.generation + 1, RemoveRevoke);
      if s.c.refresh.Some? then s1 else FinishRemove(s1, s.next)
  }

  function ApiResume(s: State): State {
    if !Usable(s) then s
    else
      var s1 := Stop(s);
      ConnectInBackground(s1, s1.c.generation)
  }

  function ApiSnapshot(s: State): State {
    if !Usable(s) then s
    else
      StartSync(if s.c.socket.None? && s.c.timer.None? && s.c.refresh.Some?
                then ConnectInBackground(s, s.c.generation) else s)
  }

  function ApiRequest(s: State): State {
    if !Usable(s) then s else StartRequest(s)
  }

  /** close() stops the connections still in the manager's map. */
  function Close(s: State): State {
    var s1 := s.(closed := true);
    if s.live then Stop(s1) else s1
  }

  // ---------------------------------------------------------------- timer, socket and store

  function TimerFires(s: State): State {
    if s.c.timer.None? then s
    else
      var s1 := s.(c := s.c.(timer := None));
      if s.c.timer.value != s.c.generation || s.closed then s1 else ConnectInBackground(s1, s.c.generation)
  }

  predicate Active(s: State, k: Id) {
    !s.closed && k in s.sockets && s.sockets[k] == s.c.generation && s.c.socket == Some(k)
  }

  function SocketReady(s: State, k: Id): State {
    if !Active(s, k) then s else s.(c := s.c.(status := Online, stage := None, attempt := 0))
  }

  function SocketClosed(s: State, k: Id): State {
    if !Active(s, k) then s else ScheduleReconnect(s.(c := s.c.(socket := None)), Other)
  }

  /** A save made for another connection snapshots this one too. */
  function OtherConnectionSaves(s: State): State {
    if s.disk.ready then Enqueue(s, ByOther) else s
  }

  /** The owner of a save continues in the same turn as its completion. */
  function Continue(s: State, w: Write, ok: bool): State {
    match w.owner
    case ByPersist(t, captured) =>
      if t !in s.tasks || !s.tasks[t].at.OwnSave? then s
      else
        var s1 := if s.c.saving == Some(w.op) then s.(c := s.c.(saving := None)) else s;
        if !ok then Finish(s1, t, Err(Other))
        else
          var s2 := At(s1, t, Begin);
          PersistLoop(if Creds(s.c) == captured then s2.(c := s2.c.(dirty := false)) else s2, t)
    case ByRemove(t) =>
      if t !in s.tasks || !s.tasks[t].at.RemoveSave? then s
      else if ok then Finish(s, t, Ok) else Finish(s.(live := true), t, Err(Other))
    case ByAdd => if ok then s else s.(live := false)
    case ByOther => s
  }

  /** The oldest queued write replaces the file, or fails and leaves it alone. */
  function Popped(s: State, ok: bool): State
    requires s.disk.queue != []
  {
    var w := s.disk.queue[0];
    s.(disk := s.disk.(file := if ok then w.record else s.disk.file, queue := s.disk.queue[1..],
                       settled := s.disk.settled[w.op := ok]))
  }

  function Settle(s: State, ok: bool): State {
    if s.disk.queue == [] then s else Continue(Popped(s, ok), s.disk.queue[0], ok)
  }

  // ---------------------------------------------------------------- runs

  datatype Event =
    | LoginCalled | CancelLoginCalled | LogoutCalled | RemoveCalled | ResumeCalled | SnapshotCalled
    | RequestCalled | CloseCalled
    | TimerFired | SocketOpened(k: Id) | SocketLost(k: Id)
    | OtherSaved | StoreChanged(ready: bool) | WriteSettled(ok: bool)
    | Advanced(t: Id, i: Input)

  function Step(s: State, e: Event): State {
    match e
    case LoginCalled => ApiLogin(s)
    case CancelLoginCalled => ApiCancelLogin(s)
    case LogoutCalled => ApiLogout(s)
    case RemoveCalled => ApiRemove(s)
    case ResumeCalled => ApiResume(s)
    case SnapshotCalled => ApiSnapshot(s)
    case RequestCalled => ApiRequest(s)
    case CloseCalled => Close(s)
    case TimerFired => TimerFires(s)
    case SocketOpened(k) => SocketReady(s, k)
    case SocketLost(k) => SocketClosed(s, k)
    case OtherSaved => OtherConnectionSaves(s)
    case StoreChanged(ready) => s.(disk := s.disk.(ready := ready))
    case WriteSettled(ok) => Settle(s, ok)
    case Advanced(t, i) => Advance(s, t, i)
  }

  function Run(s: State, es: seq<Event>): State
    decreases |es|
  {
    if es == [] then s else Step(Run(s, es[..|es| - 1]), es[|es| - 1])
  }

  function Fresh(origin: string, status: Status, cred: Cred): Conn {
    Conn(origin, status, None, cred.key, cred.refresh,
         if cred.key.Some? then Some(Device(origin, cred.key.value)) else None, None, 0,
         false, None, 0, 0, None, None, None, None, 0, None, None)
  }

  /** A connection loaded from the file; load() drops a refresh token that has no key. */
  function Loaded(origin: string, stored: Cred): State {
    var cred := if stored.key.None? then Cred(None, None) else stored;
    State(Fresh(origin, if cred.refresh.Some? then Reconnecting else SignedOut, cred), false, true,
          map[], map[], {}, 0, Disk(true, Some(cred), [], map[]), [cred])
  }

  /** A connection just added: in the manager's map, its first save queued. */
  function Added(origin: string): State {
    State(Fresh(origin, SignedOut, Cred(None, None)), false, true,
          map[], map[], {}, 1,
          Disk(true, None, [Write(0, ByAdd, Some(Cred(None, None)), 1)], map[]), [Cred(None, None)])
  }

  ghost predicate Initial(s: State) {
    (exists origin, stored :: s == Loaded(origin, stored)) || (exists origin :: s == Added(origin))
  }
}
