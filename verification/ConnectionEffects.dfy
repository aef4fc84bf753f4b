/**
  Field by field: which events change a connection, and to what. Every event not named leaves the field alone. Nothing
  here speaks of the manager's own functions but its step; what an activation awaits is read from its program point.
 */
module ConnectionEffects {
  import opened Option
  import opened ConnectionModel
  import opened ConnectionInvariants

  // ---------------------------------------------------------------- the causes

  predicate Acts(s: State, e: Event) { e.Advanced? && e.t in s.tasks }

  predicate Passed(s: State, p: Id) { p in s.tasks && s.tasks[p].at == Done(Ok) }

  predicate Failed(s: State, p: Id) { p in s.tasks && s.tasks[p].at.Done? && s.tasks[p].at.outcome.Err? }

  /** The manager is open and holds the connection. */
  predicate Held(s: State) { !s.closed && s.live }

  /** The activation belongs to the generation in force. */
  predicate Mine(s: State, e: Event)
    requires Acts(s, e)
  {
    s.tasks[e.t].gen == s.c.generation
  }

  predicate LoginBegins(s: State, e: Event) { e.LoginCalled? && Held(s) && s.c.login.None? }

  predicate LoginIsCancelled(s: State, e: Event) { e.CancelLoginCalled? && Held(s) && s.c.login.Some? }

  /** Whatever went on for this connection is stopped, and a new generation begins. */
  predicate Stops(s: State, e: Event) {
    || LoginBegins(s, e) || LoginIsCancelled(s, e) || (e.CloseCalled? && s.live)
    || ((e.LogoutCalled? || e.RemoveCalled? || e.ResumeCalled?) && Held(s))
  }

  /** A token exchange of the current generation succeeds. */
  predicate TokensArrive(s: State, e: Event) {
    Acts(s, e) && (s.tasks[e.t].at.RefreshExchange? || s.tasks[e.t].at.LoginAuthorize?) && Mine(s, e) && e.i.failure.None?
  }

  /** A logout has nothing to revoke, or has revoked it. */
  predicate SessionEnds(s: State, e: Event) {
    || (e.LogoutCalled? && Held(s) && s.c.refresh.None?)
    || (Acts(s, e) && s.tasks[e.t].at.LogoutRevoke? && e.i.failure.None? && s.c.device.Some?)
  }

  /** The server rejects the access token of a first sending of the current generation. */
  predicate AccessRejected(s: State, e: Event) {
    && Acts(s, e) && s.tasks[e.t].at == RequestSend(false) && Mine(s, e) && Held(s) && e.i.failure == Some(Http(401, true))
  }

  /** The first sign-in of a connection has verified the server. */
  predicate KeyIsMade(s: State, e: Event) {
    && Acts(s, e) && s.tasks[e.t].at.LoginVerify? && Mine(s, e) && e.t !in s.aborted && e.i.failure.None?
    && s.c.device.None?
  }

  /** A save of credentials was written, and they are still those it captured. */
  predicate Acknowledged(s: State, e: Event) {
    && e == WriteSettled(true) && s.disk.queue != []
    && var w := s.disk.queue[0];
       w.owner.ByPersist? && w.owner.t in s.tasks && s.tasks[w.owner.t].at.OwnSave? && w.owner.captured == Creds(s.c)
  }

  /** The sign-in in the login field comes to its end. */
  predicate LoginIsOver(s: State, e: Event) {
    && Acts(s, e) && s.c.login == Some(e.t)
    && match s.tasks[e.t].at
       case LoginVerify => e.i.failure.Some?
       case LoginPersist(p) => Failed(s, p)
       case LoginAuthorize => e.i.failure.Some?
       case LoginStore(p) => Failed(s, p)
       case LoginConnect(k) => Finished(s, k)
       case _ => false
  }

  /** A sign-in of the current generation fails. */
  predicate LoginFails(s: State, e: Event) {
    && LoginIsOver(s, e)
    && (s.tasks[e.t].at.LoginConnect? ==> Failed(s, s.tasks[e.t].at.t))
  }

  /** The connection is asked to connect: after a resume, by a poll, by the timer, after a sign-in or an old attempt. */
  predicate ConnectIsCalled(s: State, e: Event) {
    || (e.ResumeCalled? && Held(s))
    || (e.SnapshotCalled? && Held(s) && s.c.socket.None? && s.c.timer.None? && s.c.refresh.Some?)
    || (e.TimerFired? && s.c.timer.Some? && !s.closed)
    || (Acts(s, e) && Mine(s, e)
        && ((s.tasks[e.t].at.LoginStore? && Passed(s, s.tasks[e.t].at.t))
            || (s.tasks[e.t].at.ConnectDrain? && Finished(s, s.tasks[e.t].at.op) && Held(s))))
  }

  /** An attempt really begins: none holds the slot, and there is no socket. */
  predicate AttemptBegins(s: State, e: Event) {
    ConnectIsCalled(s, e) && s.c.connecting.None? && !s.closed && (e.ResumeCalled? || s.c.socket.None?)
  }

  /** A ticket arrives for a current attempt without a socket. */
  predicate SocketOpens(s: State, e: Event) {
    && Acts(s, e) && s.tasks[e.t].at.OpenTicket? && Passed(s, s.tasks[e.t].at.t) && e.i.valid
    && Mine(s, e) && !s.closed && s.c.socket.None?
  }

  /** The socket is the one in use. */
  predicate InUse(s: State, k: Id) {
    !s.closed && s.c.socket == Some(k) && k in s.sockets && s.sockets[k] == s.c.generation
  }

  predicate GoesOnline(s: State, e: Event) { e.SocketOpened? && InUse(s, e.k) }

  predicate SocketIsLost(s: State, e: Event) { e.SocketLost? && InUse(s, e.k) }

  /** A connect that nobody waits for has failed in the current generation. */
  predicate ConnectFails(s: State, e: Event) {
    Acts(s, e) && s.tasks[e.t].at.AwaitConnect? && Failed(s, s.tasks[e.t].at.t) && Mine(s, e) && Held(s)
  }

  predicate IsLost(s: State, e: Event) { Held(s) && s.c.timer.None? && (SocketIsLost(s, e) || ConnectFails(s, e)) }

  /** The failure says that signing in again is needed, or there is no token to come back with. */
  predicate NeedsSignIn(s: State, e: Event)
    requires IsLost(s, e)
  {
    || s.c.refresh.None?
    || (ConnectFails(s, e) && OutcomeOf(s, s.tasks[e.t].at.t).failure.Http?
        && OutcomeOf(s, s.tasks[e.t].at.t).failure.status in [400, 401, 403])
  }

  predicate GivesUp(s: State, e: Event) { IsLost(s, e) && NeedsSignIn(s, e) }

  predicate Retries(s: State, e: Event) { IsLost(s, e) && !NeedsSignIn(s, e) }

  /** A removal takes the connection out of the map; a failed first save does too. */
  predicate Leaves(s: State, e: Event) {
    || (e.RemoveCalled? && Held(s) && s.c.refresh.None? && s.disk.ready)
    || (Acts(s, e) && s.tasks[e.t].at.RemoveRevoke? && s.disk.ready)
    || (e == WriteSettled(false) && s.disk.queue != [] && s.disk.queue[0].owner.ByAdd?)
  }

  /** A removal that cannot be saved puts the connection back. */
  predicate Returns(s: State, e: Event) {
    || (Acts(s, e) && s.tasks[e.t].at.RemoveRevoke? && !s.disk.ready)
    || (e == WriteSettled(false) && s.disk.queue != [] && s.disk.queue[0].owner.ByRemove?
        && s.disk.queue[0].owner.t in s.tasks && s.tasks[s.disk.queue[0].owner.t].at.RemoveSave?)
  }

  // ---------------------------------------------------------------- the effects

  predicate Credentials(s: State, e: Event, d: Conn) {
    && d.origin == s.c.origin
    && d.key == (if KeyIsMade(s, e) then Some(e.i.newKey) else s.c.key)
    && d.device == (if KeyIsMade(s, e) then Some(Device(s.c.origin, e.i.newKey)) else s.c.device)
    && d.refresh == (if TokensArrive(s, e) then Some(e.i.refresh) else if SessionEnds(s, e) then None else s.c.refresh)
    && d.access == (if TokensArrive(s, e) then Some(e.i.access)
                    else if SessionEnds(s, e) || AccessRejected(s, e) then None else s.c.access)
    && d.expiresAt == (if TokensArrive(s, e) then e.i.now + e.i.lifetime * 1000 else s.c.expiresAt)
    && d.dirty == (KeyIsMade(s, e) || TokensArrive(s, e) || SessionEnds(s, e) || (s.c.dirty && !Acknowledged(s, e)))
  }

  predicate Sessions(s: State, e: Event, d: Conn) {
    && d.generation == s.c.generation + (if Stops(s, e) then 1 else 0)
    && d.login == (if LoginBegins(s, e) then Some(s.next)
                   else if Stops(s, e) || LoginIsOver(s, e) then None else s.c.login)
    && d.socket == (if SocketOpens(s, e) then Some(s.next)
                    else if Stops(s, e) || SocketIsLost(s, e) then None else s.c.socket)
    && d.timer == (if Retries(s, e) then Some(s.c.generation)
                   else if Stops(s, e) || e.TimerFired? then None else s.c.timer)
  }

  /** What the user sees, and the count of tries since the connection was last online. */
  predicate Shows(s: State, e: Event, d: Conn) {
    && d.status == (if LoginBegins(s, e) || AttemptBegins(s, e) then Connecting
                    else if LoginIsCancelled(s, e) then if s.c.refresh.Some? then Reconnecting else SignedOut
                    else if SessionEnds(s, e) || LoginFails(s, e) || GivesUp(s, e) then SignedOut
                    else if Retries(s, e) then Reconnecting
                    else if GoesOnline(s, e) then Online else s.c.status)
    && d.stage == (if LoginBegins(s, e) then Some(VerifyingServer)
                   else if Stops(s, e) || LoginFails(s, e) || GivesUp(s, e) || Retries(s, e) || GoesOnline(s, e) then None
                   else if OpensBrowser(s, e) then Some(BrowserAuthorization)
                   else if SignedIn(s, e) then Some(ConnectingEvents) else s.c.stage)
    && d.attempt == (if GoesOnline(s, e) then 0 else if Retries(s, e) then s.c.attempt + 1 else s.c.attempt)
  }

  /** The sign-in goes to the browser: its key is saved, and nothing superseded or aborted it. */
  predicate OpensBrowser(s: State, e: Event) {
    && Acts(s, e) && s.tasks[e.t].at.LoginPersist? && Passed(s, s.tasks[e.t].at.t)
    && Mine(s, e) && e.t !in s.aborted
  }

  /** The sign-in has saved its tokens and goes on to connect. */
  predicate SignedIn(s: State, e: Event) {
    Acts(s, e) && s.tasks[e.t].at.LoginStore? && Passed(s, s.tasks[e.t].at.t) && Mine(s, e)
  }

  predicate Presence(s: State, e: Event, n: State) {
    && n.closed == (s.closed || e.CloseCalled?)
    && n.live == ((s.live && !Leaves(s, e)) || Returns(s, e))
    && n.aborted == s.aborted + (if Stops(s, e) && s.c.login.Some? then {s.c.login.value} else {})
    && n.sockets == (if SocketOpens(s, e) then s.sockets[s.next := s.c.generation] else s.sockets)
  }

  predicate Effects(s: State, e: Event, n: State) {
    Credentials(s, e, n.c) && Sessions(s, e, n.c) && Shows(s, e, n.c) && Presence(s, e, n)
  }

  /** An aborted sign-in is of an older generation. */
  predicate AbortedAreOld(s: State) {
    forall t :: t in s.aborted ==> t in s.tasks && s.tasks[t].gen < s.c.generation
  }

  // ---------------------------------------------------------------- proofs, event by event

  /** Only slots of calls under way changed, and the status when an attempt begins. */
  predicate Connects(s: State, n: State, begins: bool) {
    && n.c == s.c.(saving := n.c.saving, syncing := n.c.syncing, connecting := n.c.connecting,
                   connectingGen := n.c.connectingGen, refreshing := n.c.refreshing,
                   status := if begins then Connecting else s.c.status)
    && n.closed == s.closed && n.live == s.live && n.aborted == s.aborted && n.sockets == s.sockets
  }

  predicate Frame(s: State, n: State) { Connects(s, n, false) }

  predicate Causeless(s: State, e: Event) {
    && !KeyIsMade(s, e) && !TokensArrive(s, e) && !SessionEnds(s, e) && !AccessRejected(s, e) && !Acknowledged(s, e)
    && !Stops(s, e) && !LoginBegins(s, e) && !LoginIsCancelled(s, e) && !LoginIsOver(s, e) && !LoginFails(s, e)
    && !SocketOpens(s, e) && !SocketIsLost(s, e) && !GoesOnline(s, e) && !Retries(s, e) && !GivesUp(s, e)
    && !OpensBrowser(s, e) && !SignedIn(s, e) && !Leaves(s, e) && !Returns(s, e) && !e.CloseCalled? && !e.TimerFired?
  }

  /** An event that at most begins an attempt. */
  lemma AtMostAttempts(s: State, e: Event, n: State)
    requires Causeless(s, e) && Connects(s, n, AttemptBegins(s, e))
    ensures Effects(s, e, n)
  {
    hide KeyIsMade, TokensArrive, SessionEnds, AccessRejected, Acknowledged, Stops, LoginBegins, LoginIsCancelled,
      LoginIsOver, LoginFails, SocketOpens, SocketIsLost, GoesOnline, Retries, GivesUp, AttemptBegins, OpensBrowser,
      SignedIn, Leaves, Returns;
  }

  /** The points whose activations change nothing but their own slots. */
  predicate Plain(at: Point) {
    || at.Begin? || at.OtherSave? || at.OwnSave? || at.EnsurePersist? || at.EnsureJoin? || at.EnsureOwn?
    || at.RefreshVerify? || at.RefreshStore? || at.RequestEnsure? || at == RequestSend(true) || at.SyncJoin?
    || at.SyncOwn? || at.SyncRequest? || at.ConnectJoin? || at.ConnectOwn? || at.OpenVerify? || at.OpenSync?
    || at.LogoutPersist? || at.RemoveSave? || at.Done?
  }

  lemma PersistLoopFrame(s: State, t: Id)
    requires t in s.tasks
    ensures Frame(s, PersistLoop(s, t))
  {
  }

  lemma PersistLoopOnly(s: State, t: Id)
    requires t in s.tasks
    ensures var n := PersistLoop(s, t);
            n.c == s.c.(saving := n.c.saving) && n.closed == s.closed && n.live == s.live && n.aborted == s.aborted
            && n.sockets == s.sockets
  {
  }

  lemma StartPersistOnly(s: State)
    ensures var n := StartPersist(s);
            n.c == s.c.(saving := n.c.saving) && n.closed == s.closed && n.live == s.live && n.aborted == s.aborted
            && n.sockets == s.sockets
  {
    hide PersistLoop;
    PersistLoopOnly(Spawn(s, s.c.generation, Begin), s.next);
  }

  lemma StartPersistFrame(s: State)
    ensures Frame(s, StartPersist(s))
  {
    hide PersistLoop;
    PersistLoopFrame(Spawn(s, s.c.generation, Begin), s.next);
  }

  lemma StartEnsureFrame(s: State)
    ensures Frame(s, StartEnsure(s))
  {
    hide StartPersist;
    StartPersistFrame(Spawn(s, s.c.generation, Begin));
  }

  lemma StartRequestFrame(s: State)
    ensures Frame(s, StartRequest(s))
  {
    hide StartEnsure;
    StartEnsureFrame(Spawn(s, s.c.generation, Begin));
  }

  lemma StartSyncFrame(s: State)
    ensures Frame(s, StartSync(s))
  {
    hide StartRequest;
    var s1 := Spawn(s, s.c.generation, SyncOwn(s.next + 1));
    StartRequestFrame(Spawn(s1, s1.c.generation, Begin));
  }

  lemma OtherSaveFrame(s: State, t: Id, op: Id)
    requires t in s.tasks
    ensures Frame(s, ResumeOtherSave(s, t, op))
  {
    hide PersistLoop;
    PersistLoopFrame(s, t);
  }

  lemma OpenVerifyFrame(s: State, t: Id, i: Input)
    requires t in s.tasks
    ensures Frame(s, ResumeOpenVerify(s, t, i))
  {
    hide StartSync;
    StartSyncFrame(s);
  }

  lemma OpenSyncFrame(s: State, t: Id, from: Id)
    requires t in s.tasks
    ensures Frame(s, ResumeOpenSync(s, t, from))
  {
    hide StartRequest;
    StartRequestFrame(s);
  }

  /** An activation ends, perhaps after giving back the slot of what it owned. */
  lemma EndFrame(s: State, d: Conn, t: Id, outcome: Outcome)
    requires t in s.tasks && d == s.c.(connecting := d.connecting, refreshing := d.refreshing, syncing := d.syncing)
    ensures Frame(s, Finish(s.(c := d), t, outcome)) && Frame(s, Finish(s, t, outcome)) && Frame(s, s)
  {
  }

  lemma OwnersFrame(s: State, t: Id, op: Id)
    requires t in s.tasks
    ensures Frame(s, ResumeEnsureOwn(s, t, op)) && Frame(s, ResumeSyncOwn(s, t, op)) && Frame(s, ResumeConnectOwn(s, t, op))
    ensures Frame(s, Propagate(s, t, op))
  {
    hide Frame;
    if Finished(s, op) {
      EndFrame(s, s.c.(refreshing := None), t, OutcomeOf(s, op));
      EndFrame(s, s.c.(syncing := None), t, OutcomeOf(s, op));
      EndFrame(s, s.c.(connecting := None), t, OutcomeOf(s, op));
    }
    EndFrame(s, s.c, t, Ok);
  }

  lemma PlainFrame(s: State, t: Id, i: Input)
    requires t in s.tasks && Plain(s.tasks[t].at)
    ensures Frame(s, Advance(s, t, i))
  {
    hide Frame, Propagate, ResumeOtherSave, ResumeEnsure, ResumeEnsureOwn, ResumeRefreshVerify, ResumeRequestEnsure,
      ResumeRequestSend, ResumeSyncOwn, ResumeSyncRequest, ResumeConnectOwn, ResumeOpenVerify, ResumeOpenSync;
    EndFrame(s, s.c, t, Ok);
    match s.tasks[t].at
    case OtherSave(op) => OtherSaveFrame(s, t, op);
    case EnsurePersist(p) => EnsureFrame(s, t, p, i.now);
    case EnsureJoin(op) => OwnersFrame(s, t, op);
    case EnsureOwn(op) => OwnersFrame(s, t, op);
    case RefreshVerify => RepliesFrame(s, t, i);
    case RefreshStore(p) => OwnersFrame(s, t, p);
    case RequestEnsure(p, retry) => RequestFrame(s, t, p, retry, i);
    case RequestSend(retry) => RepliesFrame(s, t, i);
    case SyncJoin(op) => OwnersFrame(s, t, op);
    case SyncOwn(op) => OwnersFrame(s, t, op);
    case SyncRequest(r) => RequestFrame(s, t, r, false, i);
    case ConnectJoin(op) => OwnersFrame(s, t, op);
    case ConnectOwn(op) => OwnersFrame(s, t, op);
    case OpenVerify => OpenVerifyFrame(s, t, i);
    case OpenSync(y) => OpenSyncFrame(s, t, y);
    case LogoutPersist(p) => OwnersFrame(s, t, p);
    case _ =>
  }

  lemma EnsureFrame(s: State, t: Id, from: Id, now: int)
    requires t in s.tasks
    ensures Frame(s, ResumeEnsure(s, t, from, now))
  {
  }

  lemma RepliesFrame(s: State, t: Id, i: Input)
    requires t in s.tasks
    ensures Frame(s, ResumeRefreshVerify(s, t, i)) && Frame(s, ResumeRequestSend(s, t, true, i))
  {
  }

  lemma RequestFrame(s: State, t: Id, from: Id, retry: bool, i: Input)
    requires t in s.tasks
    ensures Frame(s, ResumeRequestEnsure(s, t, from, retry)) && Frame(s, ResumeSyncRequest(s, t, from, i.valid))
  {
  }

  /** Which events have which causes. */
  lemma CausesOf(s: State, e: Event)
    ensures KeyIsMade(s, e) ==> Acts(s, e) && s.tasks[e.t].at.LoginVerify?
    ensures TokensArrive(s, e) ==> Acts(s, e) && (s.tasks[e.t].at.RefreshExchange? || s.tasks[e.t].at.LoginAuthorize?)
    ensures SessionEnds(s, e) ==> e.LogoutCalled? || (Acts(s, e) && s.tasks[e.t].at.LogoutRevoke?)
    ensures AccessRejected(s, e) ==> Acts(s, e) && s.tasks[e.t].at == RequestSend(false)
    ensures Acknowledged(s, e) ==> e.WriteSettled?
    ensures Stops(s, e) ==> e.LoginCalled? || e.CancelLoginCalled? || e.LogoutCalled? || e.RemoveCalled? || e.ResumeCalled?
                            || e.CloseCalled?
    ensures LoginBegins(s, e) ==> e.LoginCalled?
    ensures LoginIsCancelled(s, e) ==> e.CancelLoginCalled?
    ensures LoginIsOver(s, e) || LoginFails(s, e) ==> Acts(s, e) && SigningIn(s.tasks[e.t].at)
    ensures SocketOpens(s, e) ==> Acts(s, e) && s.tasks[e.t].at.OpenTicket?
    ensures SocketIsLost(s, e) ==> e.SocketLost?
    ensures GoesOnline(s, e) ==> e.SocketOpened?
    ensures Retries(s, e) || GivesUp(s, e) ==> e.SocketLost? || (Acts(s, e) && s.tasks[e.t].at.AwaitConnect?)
    ensures AttemptBegins(s, e) ==> e.ResumeCalled? || e.SnapshotCalled? || e.TimerFired?
                                    || (Acts(s, e) && (s.tasks[e.t].at.LoginStore? || s.tasks[e.t].at.ConnectDrain?))
    ensures OpensBrowser(s, e) ==> Acts(s, e) && s.tasks[e.t].at.LoginPersist?
    ensures SignedIn(s, e) ==> Acts(s, e) && s.tasks[e.t].at.LoginStore?
    ensures Leaves(s, e) ==> e.RemoveCalled? || e.WriteSettled? || (Acts(s, e) && s.tasks[e.t].at.RemoveRevoke?)
    ensures Returns(s, e) ==> e.WriteSettled? || (Acts(s, e) && s.tasks[e.t].at.RemoveRevoke?)
  {
  }

  lemma PlainIsCauseless(s: State, e: Event)
    requires Acts(s, e) && Plain(s.tasks[e.t].at)
    ensures Causeless(s, e) && !AttemptBegins(s, e)
  {
    CausesOf(s, e);
    hide KeyIsMade, TokensArrive, SessionEnds, AccessRejected, Acknowledged, Stops, LoginBegins, LoginIsCancelled,
      LoginIsOver, LoginFails, SocketOpens, SocketIsLost, GoesOnline, Retries, GivesUp, AttemptBegins, OpensBrowser,
      SignedIn, Leaves, Returns;
  }

  predicate SlotIsFree(s: State) { s.c.connecting.None? && !s.closed && s.c.socket.None? }

  lemma ConnectLoopIs(s: State, t: Id)
    requires t in s.tasks
    ensures Connects(s, ConnectLoop(s, t), SlotIsFree(s))
  {
  }

  lemma StartConnectIs(s: State)
    ensures Connects(s, StartConnect(s), SlotIsFree(s))
  {
    hide ConnectLoop;
    ConnectLoopIs(Spawn(s, s.c.generation, Begin), s.next);
  }

  lemma BackgroundIs(s: State, gen: int)
    ensures Connects(s, ConnectInBackground(s, gen), SlotIsFree(s))
  {
    hide StartConnect;
    StartConnectIs(Spawn(s, gen, AwaitConnect(s.next + 1)));
  }

  /** The sign-in in the login field is the one that is current; any other under way is aborted and older. */
  lemma SignInIs(s: State, t: Id)
    requires Inv(s) && AbortedAreOld(s) && t in s.tasks && SigningIn(s.tasks[t].at)
    ensures if t in s.aborted then s.c.login != Some(t) && s.tasks[t].gen < s.c.generation
            else s.c.login == Some(t) && s.tasks[t].gen == s.c.generation
    ensures s.tasks[t].at.LoginAuthorize? ==> s.c.device.Some? && s.c.device.value.origin == s.c.origin
  {
    assert TaskOk(s, t);
  }

  lemma TimerIs(s: State)
    requires Inv(s)
    ensures s.c.timer.Some? ==> s.c.timer.value == s.c.generation
  {
  }

  lemma LogoutIs(s: State, t: Id)
    requires t in s.tasks
    ensures FinishLogout(s, t).c == s.c.(refresh := None, access := None, status := SignedOut, dirty := true,
                                         saving := FinishLogout(s, t).c.saving)
    ensures var n := FinishLogout(s, t);
            n.closed == s.closed && n.live == s.live && n.aborted == s.aborted && n.sockets == s.sockets
  {
    hide StartPersist;
    var s1 := SetCreds(s, s.c.key, None);
    StartPersistOnly(s1.(c := s1.c.(access := None, status := SignedOut)));
  }

  lemma SaverIs(s: State, w: Write, ok: bool)
    requires w.owner.ByPersist? && w.owner.t in s.tasks && s.tasks[w.owner.t].at.OwnSave?
    ensures var n := Continue(s, w, ok);
            && n.c == s.c.(saving := n.c.saving, dirty := s.c.dirty && !(ok && w.owner.captured == Creds(s.c)))
            && n.closed == s.closed && n.aborted == s.aborted && n.sockets == s.sockets && n.live == s.live
  {
    hide PersistLoop;
    var s1 := if s.c.saving == Some(w.op) then s.(c := s.c.(saving := None)) else s;
    var s2 := At(s1, w.owner.t, Begin);
    PersistLoopOnly(if Creds(s.c) == w.owner.captured then s2.(c := s2.c.(dirty := false)) else s2, w.owner.t);
  }

  /** The owner of a write goes on: the flag falls for a captured value that is still the current one. */
  lemma ContinueIs(s: State, w: Write, ok: bool)
    ensures var n := Continue(s, w, ok);
            var awaited := w.owner.ByPersist? && w.owner.t in s.tasks && s.tasks[w.owner.t].at.OwnSave?;
            var removed := w.owner.ByRemove? && w.owner.t in s.tasks && s.tasks[w.owner.t].at.RemoveSave?;
            && n.c == s.c.(saving := n.c.saving, dirty := s.c.dirty && !(ok && awaited && w.owner.captured == Creds(s.c)))
            && n.closed == s.closed && n.aborted == s.aborted && n.sockets == s.sockets
            && n.live == ((s.live && (ok || !w.owner.ByAdd?)) || (!ok && removed))
  {
    if w.owner.ByPersist? && w.owner.t in s.tasks && s.tasks[w.owner.t].at.OwnSave? {
      hide Continue;
      SaverIs(s, w, ok);
    }
  }

  lemma ConnectDrainEffects(s: State, e: Event)
    requires Acts(s, e) && s.tasks[e.t].at.ConnectDrain?
    ensures Effects(s, e, ResumeConnectDrain(s, e.t, s.tasks[e.t].at.op))
  {
    CausesOf(s, e);
    ConnectLoopIs(s, e.t);
    hide KeyIsMade, TokensArrive, SessionEnds, AccessRejected, Acknowledged, Stops, LoginBegins, LoginIsCancelled,
      LoginIsOver, LoginFails, SocketOpens, SocketIsLost, GoesOnline, Retries, GivesUp, OpensBrowser, SignedIn,
      Leaves, Returns, ConnectLoop;
  }

  lemma RequestSendEffects(s: State, e: Event)
    requires Acts(s, e) && s.tasks[e.t].at.RequestSend?
    ensures Effects(s, e, ResumeRequestSend(s, e.t, s.tasks[e.t].at.retry, e.i))
  {
    CausesOf(s, e);
    StartEnsureFrame(s.(c := s.c.(access := None)));
    hide KeyIsMade, TokensArrive, SessionEnds, Acknowledged, Stops, LoginBegins, LoginIsCancelled, LoginIsOver,
      LoginFails, SocketOpens, SocketIsLost, GoesOnline, Retries, GivesUp, AttemptBegins, OpensBrowser, SignedIn,
      Leaves, Returns, StartEnsure;
  }

  lemma OpenTicketEffects(s: State, e: Event)
    requires Acts(s, e) && s.tasks[e.t].at.OpenTicket?
    ensures Effects(s, e, ResumeOpenTicket(s, e.t, s.tasks[e.t].at.t, e.i.valid))
  {
    CausesOf(s, e);
    hide KeyIsMade, TokensArrive, SessionEnds, AccessRejected, Acknowledged, Stops, LoginBegins, LoginIsCancelled,
      LoginIsOver, LoginFails, SocketIsLost, GoesOnline, Retries, GivesUp, AttemptBegins, OpensBrowser, SignedIn,
      Leaves, Returns;
  }

  /** How a sign-in ends: the field is given up by its owner, and the failure of a current one is shown. */
  lemma EndLoginIs(s: State, t: Id, outcome: Outcome)
    requires t in s.tasks
    ensures var n := EndLogin(s, t, outcome);
            && n.c == s.c.(login := if s.c.login == Some(t) then None else s.c.login)
            && n.closed == s.closed && n.live == s.live && n.aborted == s.aborted && n.sockets == s.sockets
  {
  }

  lemma FailLoginIs(s: State, t: Id, f: Failure)
    requires t in s.tasks
    ensures var n, mine := FailLogin(s, t, f), s.c.generation == s.tasks[t].gen;
            && n.c == s.c.(login := if s.c.login == Some(t) then None else s.c.login,
                           status := if mine then SignedOut else s.c.status, stage := if mine then None else s.c.stage)
            && n.closed == s.closed && n.live == s.live && n.aborted == s.aborted && n.sockets == s.sockets
  {
  }

  /** A sign-in fails: the current one is over and shown as failed, an aborted one leaves no trace. */
  lemma FailedLoginEffects(s: State, e: Event, f: Failure)
    requires Acts(s, e) && SigningIn(s.tasks[e.t].at)
    requires if s.c.login == Some(e.t) then s.tasks[e.t].gen == s.c.generation && LoginFails(s, e)
             else s.tasks[e.t].gen < s.c.generation
    requires !KeyIsMade(s, e) && !TokensArrive(s, e) && !OpensBrowser(s, e) && !SignedIn(s, e) && !AttemptBegins(s, e)
    ensures Effects(s, e, FailLogin(s, e.t, f))
  {
    CausesOf(s, e);
    FailLoginIs(s, e.t, f);
    LoginFailsIs(s, e);
    hide FailLogin, KeyIsMade, TokensArrive, SessionEnds, AccessRejected, Acknowledged, Stops, LoginBegins,
      LoginIsCancelled, LoginIsOver, LoginFails, SocketOpens, SocketIsLost, GoesOnline, Retries, GivesUp,
      AttemptBegins, OpensBrowser, SignedIn, Leaves, Returns;
  }

  lemma LoginFailsIs(s: State, e: Event)
    ensures LoginFails(s, e) ==> LoginIsOver(s, e)
    ensures LoginIsOver(s, e) ==> Acts(s, e) && s.c.login == Some(e.t)
  {
  }

  /** A sign-in ends without failing, or a superseded one ends. */
  lemma EndedLoginEffects(s: State, e: Event)
    requires Acts(s, e) && SigningIn(s.tasks[e.t].at)
    requires s.c.login == Some(e.t) <==> LoginIsOver(s, e)
    requires !LoginFails(s, e)
    requires !KeyIsMade(s, e) && !TokensArrive(s, e) && !OpensBrowser(s, e) && !SignedIn(s, e) && !AttemptBegins(s, e)
    ensures Effects(s, e, EndLogin(s, e.t, Ok))
  {
    CausesOf(s, e);
    EndLoginIs(s, e.t, Ok);
    hide EndLogin, KeyIsMade, TokensArrive, SessionEnds, AccessRejected, Acknowledged, Stops, LoginBegins,
      LoginIsCancelled, LoginIsOver, LoginFails, SocketOpens, SocketIsLost, GoesOnline, Retries, GivesUp,
      AttemptBegins, OpensBrowser, SignedIn, Leaves, Returns;
  }

  lemma VerifiedEffects(s: State, e: Event)
    requires Acts(s, e) && s.tasks[e.t].at.LoginVerify? && e.i.failure.None?
    requires e.t !in s.aborted && s.c.login == Some(e.t) && Mine(s, e)
    ensures Effects(s, e, At(StartPersist(EnsureDevice(s, e.i.newKey)), e.t, LoginPersist(s.next)))
  {
    CausesOf(s, e);
    StartPersistOnly(EnsureDevice(s, e.i.newKey));
    assert !LoginIsOver(s, e) && !LoginFails(s, e);
    assert KeyIsMade(s, e) <==> s.c.device.None?;
    hide StartPersist, KeyIsMade, TokensArrive, SessionEnds, AccessRejected, Acknowledged, Stops, LoginBegins,
      LoginIsCancelled, LoginIsOver, LoginFails, SocketOpens, SocketIsLost, GoesOnline, Retries, GivesUp,
      AttemptBegins, OpensBrowser, SignedIn, Leaves, Returns;
  }

  lemma LoginVerifyEffects(s: State, e: Event)
    requires Acts(s, e) && s.tasks[e.t].at.LoginVerify?
    requires Inv(s) && AbortedAreOld(s)
    ensures Effects(s, e, ResumeLoginVerify(s, e.t, e.i))
  {
    SignInIs(s, e.t);
    CausesOf(s, e);
    hide Inv, AbortedAreOld, Effects, FailLogin, StartPersist, EnsureDevice;
    if e.i.failure.Some? {
      FailedLoginEffects(s, e, e.i.failure.value);
    } else if LoginCancelled(s, e.t) {
      FailedLoginEffects(s, e, Other);
    } else {
      VerifiedEffects(s, e);
    }
  }

  lemma BrowserEffects(s: State, e: Event)
    requires Acts(s, e) && s.tasks[e.t].at.LoginPersist? && Passed(s, s.tasks[e.t].at.t)
    requires e.t !in s.aborted && s.c.login == Some(e.t) && Mine(s, e)
    ensures Effects(s, e, At(s.(c := s.c.(stage := Some(BrowserAuthorization))), e.t, LoginAuthorize))
  {
    CausesOf(s, e);
    assert OpensBrowser(s, e) && !LoginIsOver(s, e) && !LoginFails(s, e);
    hide KeyIsMade, TokensArrive, SessionEnds, AccessRejected, Acknowledged, Stops, LoginBegins, LoginIsCancelled,
      LoginIsOver, LoginFails, SocketOpens, SocketIsLost, GoesOnline, Retries, GivesUp, AttemptBegins, OpensBrowser,
      SignedIn, Leaves, Returns;
  }

  lemma LoginPersistEffects(s: State, e: Event)
    requires Acts(s, e) && s.tasks[e.t].at.LoginPersist?
    requires Inv(s) && AbortedAreOld(s)
    ensures Effects(s, e, ResumeLoginPersist(s, e.t, s.tasks[e.t].at.t))
  {
    SignInIs(s, e.t);
    CausesOf(s, e);
    hide Inv, AbortedAreOld, Effects, FailLogin;
    var from := s.tasks[e.t].at.t;
    if !Finished(s, from) {
      WaitingEffects(s, e);
    } else if OutcomeOf(s, from).Err? {
      FailedLoginEffects(s, e, OutcomeOf(s, from).failure);
    } else if LoginCancelled(s, e.t) {
      FailedLoginEffects(s, e, Other);
    } else {
      BrowserEffects(s, e);
    }
  }

  /** What a sign-in awaits has not happened. */
  lemma WaitingEffects(s: State, e: Event)
    requires Acts(s, e)
    requires s.tasks[e.t].at.LoginPersist? || s.tasks[e.t].at.LoginStore? || s.tasks[e.t].at.LoginConnect?
    requires !Finished(s, s.tasks[e.t].at.t)
    ensures Effects(s, e, s)
  {
    CausesOf(s, e);
    assert !OpensBrowser(s, e) && !LoginIsOver(s, e) && !LoginFails(s, e) && !SignedIn(s, e) && !AttemptBegins(s, e);
    hide Effects;
    AtMostAttempts(s, e, s);
  }

  lemma TokenEffects(s: State, e: Event)
    requires TokensArrive(s, e) && !LoginIsOver(s, e) && !LoginFails(s, e)
    ensures Effects(s, e, StartPersist(StoreTokens(s, e.i)))
  {
    CausesOf(s, e);
    StartPersistOnly(StoreTokens(s, e.i));
    assert !OpensBrowser(s, e) && !SignedIn(s, e) && !AttemptBegins(s, e) && !KeyIsMade(s, e);
    hide StartPersist, KeyIsMade, TokensArrive, SessionEnds, AccessRejected, Acknowledged, Stops, LoginBegins,
      LoginIsCancelled, LoginIsOver, LoginFails, SocketOpens, SocketIsLost, GoesOnline, Retries, GivesUp,
      AttemptBegins, OpensBrowser, SignedIn, Leaves, Returns;
  }

  /** Where an activation stands is not among the effects. */
  lemma MovedEffects(s: State, e: Event, n: State, t: Id, at: Point)
    requires Effects(s, e, n) && t in n.tasks
    ensures Effects(s, e, At(n, t, at))
  {
    hide Credentials, Sessions, Shows, KeyIsMade, TokensArrive, SessionEnds, AccessRejected, Acknowledged, Stops,
      LoginBegins, LoginIsCancelled, LoginIsOver, LoginFails, SocketOpens, SocketIsLost, GoesOnline, Retries, GivesUp,
      AttemptBegins, OpensBrowser, SignedIn, Leaves, Returns;
  }

  lemma RefreshExchangeEffects(s: State, e: Event)
    requires Acts(s, e) && s.tasks[e.t].at.RefreshExchange?
    ensures Effects(s, e, ResumeRefreshExchange(s, e.t, e.i))
  {
    CausesOf(s, e);
    assert !LoginIsOver(s, e) && !LoginFails(s, e);
    hide StartPersist, Effects;
    if TokensArrive(s, e) {
      TokenEffects(s, e);
      StartedKeepsTask(s, e.t, e.i);
      MovedEffects(s, e, StartPersist(StoreTokens(s, e.i)), e.t, RefreshStore(s.next));
    } else {
      AtMostAttempts(s, e, ResumeRefreshExchange(s, e.t, e.i));
    }
  }

  lemma StartedKeepsTask(s: State, t: Id, i: Input)
    requires t in s.tasks
    ensures t in StartPersist(StoreTokens(s, i)).tasks
  {
  }

  lemma LoginAuthorizeEffects(s: State, e: Event)
    requires Acts(s, e) && s.tasks[e.t].at.LoginAuthorize?
    requires Inv(s) && AbortedAreOld(s)
    ensures Effects(s, e, ResumeLoginAuthorize(s, e.t, e.i))
  {
    SignInIs(s, e.t);
    CausesOf(s, e);
    hide Inv, AbortedAreOld, Effects, FailLogin, EndLogin, StartPersist;
    if e.i.failure.Some? {
      FailedLoginEffects(s, e, e.i.failure.value);
    } else if !Mine(s, e) {
      EndedLoginEffects(s, e);
    } else {
      TokenEffects(s, e);
      StartedKeepsTask(s, e.t, e.i);
      MovedEffects(s, e, StartPersist(StoreTokens(s, e.i)), e.t, LoginStore(s.next));
    }
  }

  lemma SignedInEffects(s: State, e: Event)
    requires SignedIn(s, e) && !LoginIsOver(s, e) && !LoginFails(s, e)
    ensures Effects(s, e, At(StartConnect(s.(c := s.c.(stage := Some(ConnectingEvents)))), e.t, LoginConnect(s.next)))
  {
    CausesOf(s, e);
    var m := s.(c := s.c.(stage := Some(ConnectingEvents)));
    StartConnectIs(m);
    assert !OpensBrowser(s, e) && !KeyIsMade(s, e) && (AttemptBegins(s, e) <==> SlotIsFree(m));
    hide StartConnect, KeyIsMade, TokensArrive, SessionEnds, AccessRejected, Acknowledged, Stops, LoginBegins,
      LoginIsCancelled, LoginIsOver, LoginFails, SocketOpens, SocketIsLost, GoesOnline, Retries, GivesUp,
      AttemptBegins, OpensBrowser, SignedIn, Leaves, Returns;
  }

  lemma LoginStoreEffects(s: State, e: Event)
    requires Acts(s, e) && s.tasks[e.t].at.LoginStore?
    requires Inv(s) && AbortedAreOld(s)
    ensures Effects(s, e, ResumeLoginStore(s, e.t, s.tasks[e.t].at.t))
  {
    SignInIs(s, e.t);
    CausesOf(s, e);
    hide Inv, AbortedAreOld, Effects, FailLogin, EndLogin, StartConnect;
    var from := s.tasks[e.t].at.t;
    if !Finished(s, from) {
      WaitingEffects(s, e);
    } else if OutcomeOf(s, from).Err? {
      FailedLoginEffects(s, e, OutcomeOf(s, from).failure);
    } else if !Mine(s, e) {
      EndedLoginEffects(s, e);
    } else {
      SignedInEffects(s, e);
    }
  }

  lemma LoginConnectEffects(s: State, e: Event)
    requires Acts(s, e) && s.tasks[e.t].at.LoginConnect?
    requires Inv(s) && AbortedAreOld(s)
    ensures Effects(s, e, ResumeLoginConnect(s, e.t, s.tasks[e.t].at.t))
  {
    SignInIs(s, e.t);
    CausesOf(s, e);
    hide Inv, AbortedAreOld, Effects, FailLogin, EndLogin;
    var from := s.tasks[e.t].at.t;
    if !Finished(s, from) {
      WaitingEffects(s, e);
    } else if OutcomeOf(s, from).Err? {
      FailedLoginEffects(s, e, OutcomeOf(s, from).failure);
    } else {
      EndedLoginEffects(s, e);
    }
  }

  lemma LogoutRevokeEffects(s: State, e: Event)
    requires Acts(s, e) && s.tasks[e.t].at.LogoutRevoke?
    ensures Effects(s, e, ResumeLogoutRevoke(s, e.t, e.i))
  {
    CausesOf(s, e);
    LogoutIs(s, e.t);
    hide KeyIsMade, TokensArrive, AccessRejected, Acknowledged, Stops, LoginBegins, LoginIsCancelled, LoginIsOver,
      LoginFails, SocketOpens, SocketIsLost, GoesOnline, Retries, GivesUp, AttemptBegins, OpensBrowser, SignedIn,
      Leaves, Returns, FinishLogout;
  }

  lemma RemoveRevokeEffects(s: State, e: Event)
    requires Acts(s, e) && s.tasks[e.t].at.RemoveRevoke?
    ensures Effects(s, e, FinishRemove(s, e.t))
  {
    CausesOf(s, e);
    hide KeyIsMade, TokensArrive, SessionEnds, AccessRejected, Acknowledged, Stops, LoginBegins, LoginIsCancelled,
      LoginIsOver, LoginFails, SocketOpens, SocketIsLost, GoesOnline, Retries, GivesUp, AttemptBegins, OpensBrowser,
      SignedIn;
  }

  /** A lost or failed connection: what the failure needs decides between signing out and trying again. */
  lemma ReconnectIs(s: State, f: Failure)
    ensures var n := ScheduleReconnect(s, f);
            var lost := Held(s) && s.c.timer.None?;
            var out := s.c.refresh.None? || (f.Http? && f.status in [400, 401, 403]);
            && n.c == s.c.(status := if !lost then s.c.status else if out then SignedOut else Reconnecting,
                           stage := if lost then None else s.c.stage,
                           attempt := if lost && !out then s.c.attempt + 1 else s.c.attempt,
                           timer := if lost && !out then Some(s.c.generation) else s.c.timer)
            && n.closed == s.closed && n.live == s.live && n.aborted == s.aborted && n.sockets == s.sockets
  {
  }

  lemma AwaitConnectEffects(s: State, e: Event)
    requires Acts(s, e) && s.tasks[e.t].at.AwaitConnect?
    ensures Effects(s, e, ResumeAwaitConnect(s, e.t, s.tasks[e.t].at.t))
  {
    CausesOf(s, e);
    var k := s.tasks[e.t].at.t;
    if Failed(s, k) {
      ReconnectIs(Finish(s, e.t, OutcomeOf(s, k)), OutcomeOf(s, k).failure);
    }
    hide KeyIsMade, TokensArrive, SessionEnds, AccessRejected, Acknowledged, Stops, LoginBegins, LoginIsCancelled,
      LoginIsOver, LoginFails, SocketOpens, SocketIsLost, GoesOnline, AttemptBegins, OpensBrowser, SignedIn, Leaves,
      Returns, ScheduleReconnect;
  }

  lemma LoginEffects(s: State, e: Event)
    requires e.LoginCalled?
    ensures Effects(s, e, ApiLogin(s))
  {
    CausesOf(s, e);
    hide KeyIsMade, TokensArrive, SessionEnds, AccessRejected, Acknowledged, LoginIsCancelled, LoginIsOver,
      LoginFails, SocketOpens, SocketIsLost, GoesOnline, Retries, GivesUp, AttemptBegins, OpensBrowser, SignedIn,
      Leaves, Returns;
  }

  lemma CancelLoginEffects(s: State, e: Event)
    requires e.CancelLoginCalled?
    ensures Effects(s, e, ApiCancelLogin(s))
  {
    CausesOf(s, e);
    hide KeyIsMade, TokensArrive, SessionEnds, AccessRejected, Acknowledged, LoginBegins, LoginIsOver, LoginFails,
      SocketOpens, SocketIsLost, GoesOnline, Retries, GivesUp, AttemptBegins, OpensBrowser, SignedIn, Leaves, Returns;
  }

  lemma LogoutEffects(s: State, e: Event)
    requires e.LogoutCalled?
    ensures Effects(s, e, ApiLogout(s))
  {
    CausesOf(s, e);
    hide FinishLogout, Effects;
    if Held(s) && s.c.refresh.None? {
      LogoutClears(s, e);
    } else if Held(s) {
      LogoutWaits(s, e);
    } else {
      AtMostAttempts(s, e, s);
    }
  }

  lemma LogoutClears(s: State, e: Event)
    requires e.LogoutCalled? && Held(s) && s.c.refresh.None?
    ensures Effects(s, e, FinishLogout(Spawn(Stop(s), s.c.generation + 1, LogoutRevoke), s.next))
  {
    CausesOf(s, e);
    LogoutIs(Spawn(Stop(s), s.c.generation + 1, LogoutRevoke), s.next);
    assert SessionEnds(s, e) && Stops(s, e);
    hide FinishLogout, KeyIsMade, TokensArrive, SessionEnds, AccessRejected, Acknowledged, Stops, LoginBegins,
      LoginIsCancelled, LoginIsOver, LoginFails, SocketOpens, SocketIsLost, GoesOnline, Retries, GivesUp,
      AttemptBegins, OpensBrowser, SignedIn, Leaves, Returns;
  }

  lemma LogoutWaits(s: State, e: Event)
    requires e.LogoutCalled? && Held(s) && s.c.refresh.Some?
    ensures Effects(s, e, Spawn(Stop(s), s.c.generation + 1, LogoutRevoke))
  {
    CausesOf(s, e);
    assert !SessionEnds(s, e) && Stops(s, e);
    hide KeyIsMade, TokensArrive, SessionEnds, AccessRejected, Acknowledged, Stops, LoginBegins, LoginIsCancelled,
      LoginIsOver, LoginFails, SocketOpens, SocketIsLost, GoesOnline, Retries, GivesUp, AttemptBegins, OpensBrowser,
      SignedIn, Leaves, Returns;
  }

  lemma RemoveEffects(s: State, e: Event)
    requires e.RemoveCalled?
    ensures Effects(s, e, ApiRemove(s))
  {
    CausesOf(s, e);
    hide KeyIsMade, TokensArrive, SessionEnds, AccessRejected, Acknowledged, LoginBegins, LoginIsCancelled,
      LoginIsOver, LoginFails, SocketOpens, SocketIsLost, GoesOnline, Retries, GivesUp, AttemptBegins, OpensBrowser,
      SignedIn, Returns;
  }

  lemma ResumeEffects(s: State, e: Event)
    requires e.ResumeCalled?
    ensures Effects(s, e, ApiResume(s))
  {
    CausesOf(s, e);
    BackgroundIs(Stop(s), Stop(s).c.generation);
    hide KeyIsMade, TokensArrive, SessionEnds, AccessRejected, Acknowledged, LoginBegins, LoginIsCancelled,
      LoginIsOver, LoginFails, SocketOpens, SocketIsLost, GoesOnline, Retries, GivesUp, OpensBrowser, SignedIn,
      Leaves, Returns, ConnectInBackground;
  }

  lemma ConnectsThenFrame(s: State, m: State, n: State, begins: bool)
    requires Connects(s, m, begins) && Frame(m, n)
    ensures Connects(s, n, begins)
  {
  }

  lemma SnapshotEffects(s: State, e: Event)
    requires e.SnapshotCalled?
    ensures Effects(s, e, ApiSnapshot(s))
  {
    CausesOf(s, e);
    BackgroundIs(s, s.c.generation);
    StartSyncFrame(s);
    var m := ConnectInBackground(s, s.c.generation);
    StartSyncFrame(m);
    hide Effects, ConnectInBackground, StartSync, Connects;
    ConnectsThenFrame(s, m, StartSync(m), SlotIsFree(s));
    NothingConnects(s);
    AtMostAttempts(s, e, ApiSnapshot(s));
  }

  lemma NothingConnects(s: State)
    ensures Connects(s, s, false)
  {
  }

  lemma RequestEffects(s: State, e: Event)
    requires e.RequestCalled?
    ensures Effects(s, e, ApiRequest(s))
  {
    CausesOf(s, e);
    StartRequestFrame(s);
    hide Effects, StartRequest, Connects;
    NothingConnects(s);
    AtMostAttempts(s, e, ApiRequest(s));
  }

  lemma CloseEffects(s: State, e: Event)
    requires e.CloseCalled?
    ensures Effects(s, e, Close(s))
  {
    CausesOf(s, e);
    hide KeyIsMade, TokensArrive, SessionEnds, AccessRejected, Acknowledged, LoginBegins, LoginIsCancelled,
      LoginIsOver, LoginFails, SocketOpens, SocketIsLost, GoesOnline, Retries, GivesUp, AttemptBegins, OpensBrowser,
      SignedIn, Leaves, Returns;
  }

  lemma TimerEffects(s: State, e: Event)
    requires e.TimerFired?
    requires Inv(s) && AbortedAreOld(s)
    ensures Effects(s, e, TimerFires(s))
  {
    CausesOf(s, e);
    TimerIs(s);
    BackgroundIs(s.(c := s.c.(timer := None)), s.c.generation);
    hide KeyIsMade, TokensArrive, SessionEnds, AccessRejected, Acknowledged, Stops, LoginBegins, LoginIsCancelled,
      LoginIsOver, LoginFails, SocketOpens, SocketIsLost, GoesOnline, Retries, GivesUp, OpensBrowser, SignedIn,
      Leaves, Returns, ConnectInBackground, Inv, AbortedAreOld;
  }

  lemma SocketOpenedEffects(s: State, e: Event)
    requires e.SocketOpened?
    ensures Effects(s, e, SocketReady(s, e.k))
  {
    CausesOf(s, e);
    hide KeyIsMade, TokensArrive, SessionEnds, AccessRejected, Acknowledged, Stops, LoginBegins, LoginIsCancelled,
      LoginIsOver, LoginFails, SocketOpens, SocketIsLost, Retries, GivesUp, AttemptBegins, OpensBrowser, SignedIn,
      Leaves, Returns;
  }

  lemma SocketLostEffects(s: State, e: Event)
    requires e.SocketLost?
    ensures Effects(s, e, SocketClosed(s, e.k))
  {
    CausesOf(s, e);
    ReconnectIs(s.(c := s.c.(socket := None)), Other);
    hide KeyIsMade, TokensArrive, SessionEnds, AccessRejected, Acknowledged, Stops, LoginBegins, LoginIsCancelled,
      LoginIsOver, LoginFails, SocketOpens, GoesOnline, AttemptBegins, OpensBrowser, SignedIn, Leaves, Returns,
      ScheduleReconnect;
  }

  lemma WriteEffects(s: State, e: Event)
    requires e.WriteSettled?
    ensures Effects(s, e, Settle(s, e.ok))
  {
    CausesOf(s, e);
    if s.disk.queue != [] {
      ContinueIs(Popped(s, e.ok), s.disk.queue[0], e.ok);
    }
    hide KeyIsMade, TokensArrive, SessionEnds, AccessRejected, Stops, LoginBegins, LoginIsCancelled, LoginIsOver,
      LoginFails, SocketOpens, SocketIsLost, GoesOnline, Retries, GivesUp, AttemptBegins, OpensBrowser, SignedIn,
      Continue;
  }

  lemma AdvanceEffects(s: State, e: Event)
    requires Inv(s) && AbortedAreOld(s) && Acts(s, e)
    ensures Effects(s, e, Advance(s, e.t, e.i))
  {
    hide Inv, AbortedAreOld, Effects, ResumeConnectDrain, ResumeRequestSend, ResumeRefreshExchange, ResumeOpenTicket,
      ResumeLoginVerify, ResumeLoginPersist, ResumeLoginAuthorize, ResumeLoginStore, ResumeLoginConnect,
      ResumeLogoutRevoke, FinishRemove, ResumeAwaitConnect, ResumeEnsure, ResumeOpenVerify, ResumeOpenSync;
    match s.tasks[e.t].at
    case ConnectDrain(_) => ConnectDrainEffects(s, e);
    case RequestSend(retry) => RequestSendEffects(s, e);
    case RefreshExchange => RefreshExchangeEffects(s, e);
    case OpenTicket(_) => OpenTicketEffects(s, e);
    case LoginVerify => LoginVerifyEffects(s, e);
    case LoginPersist(_) => LoginPersistEffects(s, e);
    case LoginAuthorize => LoginAuthorizeEffects(s, e);
    case LoginStore(_) => LoginStoreEffects(s, e);
    case LoginConnect(_) => LoginConnectEffects(s, e);
    case LogoutRevoke => LogoutRevokeEffects(s, e);
    case RemoveRevoke => RemoveRevokeEffects(s, e);
    case AwaitConnect(_) => AwaitConnectEffects(s, e);
    case _ => PlainEffects(s, e);
  }

  lemma PlainEffects(s: State, e: Event)
    requires Acts(s, e) && Plain(s.tasks[e.t].at)
    ensures Effects(s, e, Advance(s, e.t, e.i))
  {
    hide Advance, Effects, Connects;
    PlainIsCauseless(s, e);
    PlainFrame(s, e.t, e.i);
    AtMostAttempts(s, e, Advance(s, e.t, e.i));
  }

  /** Replies to nobody, and the store itself, change nothing here. */
  lemma OutsideEffects(s: State, e: Event)
    requires (e.Advanced? && !Acts(s, e)) || e.OtherSaved? || e.StoreChanged?
    ensures Effects(s, e, Step(s, e))
  {
    CausesOf(s, e);
    hide Effects;
    AtMostAttempts(s, e, Step(s, e));
  }

  /** Every event changes each field of the connection exactly as its causes say. */
  lemma StepEffects(s: State, e: Event)
    requires Inv(s) && AbortedAreOld(s)
    ensures Effects(s, e, Step(s, e))
  {
    hide Inv, AbortedAreOld, Effects, ApiLogin, ApiCancelLogin, ApiLogout, ApiRemove, ApiResume, ApiSnapshot, ApiRequest,
      Close, TimerFires, SocketReady, SocketClosed, Settle, Advance;
    match e
    case LoginCalled => LoginEffects(s, e);
    case CancelLoginCalled => CancelLoginEffects(s, e);
    case LogoutCalled => LogoutEffects(s, e);
    case RemoveCalled => RemoveEffects(s, e);
    case ResumeCalled => ResumeEffects(s, e);
    case SnapshotCalled => SnapshotEffects(s, e);
    case RequestCalled => RequestEffects(s, e);
    case CloseCalled => CloseEffects(s, e);
    case TimerFired => TimerEffects(s, e);
    case SocketOpened(k) => SocketOpenedEffects(s, e);
    case SocketLost(k) => SocketLostEffects(s, e);
    case OtherSaved => OutsideEffects(s, e);
    case StoreChanged(_) => OutsideEffects(s, e);
    case WriteSettled(_) => WriteEffects(s, e);
    case Advanced(_, _) => if Acts(s, e) { AdvanceEffects(s, e); } else { OutsideEffects(s, e); }
  }
}
