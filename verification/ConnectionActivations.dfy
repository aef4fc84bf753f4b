/**
  How every activation of the manager's asynchronous functions goes on: when it moves, how it ends, and what it does next.
  The rules are those of all functions together; none of them names the function whose activation it is.
 */
module ConnectionActivations {
  import opened Option
  import opened ConnectionModel
  import opened ConnectionInvariants
  import opened ConnectionEffects
  import ConnectionTheorems

  // ---------------------------------------------------------------- the rules

  /** The activation that one at this point awaits. */
  function Awaited(at: Point): Option<Id> {
    match at
    case EnsurePersist(p) => Some(p) case EnsureJoin(p) => Some(p) case EnsureOwn(p) => Some(p)
    case RefreshStore(p) => Some(p) case RequestEnsure(p, _) => Some(p)
    case SyncJoin(p) => Some(p) case SyncOwn(p) => Some(p) case SyncRequest(p) => Some(p)
    case ConnectJoin(p) => Some(p) case ConnectDrain(p) => Some(p) case ConnectOwn(p) => Some(p)
    case OpenSync(p) => Some(p) case OpenTicket(p) => Some(p)
    case LoginPersist(p) => Some(p) case LoginStore(p) => Some(p) case LoginConnect(p) => Some(p)
    case LogoutPersist(p) => Some(p) case AwaitConnect(p) => Some(p)
    case _ => None
  }

  /** The points that await a reply from the network. */
  predicate Network(at: Point) {
    || at.RefreshVerify? || at.RefreshExchange? || at.RequestSend? || at.OpenVerify? || at.LoginVerify?
    || at.LoginAuthorize? || at.LogoutRevoke? || at.RemoveRevoke?
  }

  /** What the activation awaits is there. */
  predicate Ready(s: State, t: Id)
    requires t in s.tasks
  {
    var at := s.tasks[t].at;
    || Network(at) || (Awaited(at).Some? && Finished(s, Awaited(at).value))
    || (at.OtherSave? && at.op in s.disk.settled)
  }

  /** The session the activation began in is over. */
  predicate Superseded(s: State, e: Event)
    requires Acts(s, e)
  {
    !Mine(s, e) || !Held(s)
  }

  /** Activations that fail when their session is over; those not named just end, or do not care. */
  predicate Lost(s: State, e: Event)
    requires Acts(s, e)
  {
    var at := s.tasks[e.t].at;
    || ((at.EnsurePersist? || at.RefreshVerify? || at.RequestEnsure? || at.RequestSend?) && Superseded(s, e))
    || (at.RefreshExchange? && !Mine(s, e))
    || ((at.LoginVerify? || at.LoginPersist?) && (!Mine(s, e) || e.t in s.aborted))
  }

  /** The access token lives for more than thirty seconds. */
  predicate Lives(c: Conn, now: int) { c.access.Some? && c.expiresAt > now + 30000 }

  /** The reply is a failure that the activation passes on. */
  predicate ReplyFails(s: State, e: Event)
    requires Acts(s, e)
  {
    var at := s.tasks[e.t].at;
    && Network(at) && !at.RemoveRevoke? && e.i.failure.Some?
    && !(at == RequestSend(false) && (Lost(s, e) || e.i.failure == Some(Http(401, true))))
  }

  /** What the activation needs in its own turn is missing: a valid reply, a token, a signer, or the store. */
  function Missing(s: State, e: Event): Option<Failure>
    requires Acts(s, e)
  {
    match s.tasks[e.t].at
    case SyncRequest(_) => if e.i.valid then None else Some(Other)
    case OpenTicket(_) => if e.i.valid then None else Some(Other)
    case EnsurePersist(_) =>
      if !Lives(s.c, e.i.now) && s.c.refreshing.None? && s.c.refresh.None? then Some(Http(401, false)) else None
    case RequestEnsure(_, _) => if s.c.device.None? then Some(Other) else None
    case LogoutRevoke => if s.c.device.None? then Some(Other) else None
    case RemoveRevoke => if s.disk.ready then None else Some(Other)
    case OtherSave(op) =>
      if (op in s.disk.settled && !s.disk.settled[op]) || (s.c.dirty && s.c.saving.None? && !s.disk.ready)
      then Some(Other) else None
    case _ => None
  }

  /**
    How an activation fails: with the failure of what it awaited, else with that of the reply, else because its session
    is over, else for what is missing. Only a drained attempt's failure is nobody's.
   */
  function FailureOf(s: State, e: Event): Option<Failure>
    requires Acts(s, e)
  {
    var at := s.tasks[e.t].at;
    if Awaited(at).Some? && Failed(s, Awaited(at).value) && !at.ConnectDrain?
    then Some(s.tasks[Awaited(at).value].at.outcome.failure)
    else if ReplyFails(s, e) then e.i.failure
    else if Lost(s, e) then Some(Other)
    else Missing(s, e)
  }

  /** What is left when nothing failed: the activation is done, or superseded where that is no failure. */
  predicate Succeeds(s: State, e: Event)
    requires Acts(s, e)
  {
    match s.tasks[e.t].at
    case EnsurePersist(_) => Lives(s.c, e.i.now)
    case OtherSave(_) => !s.c.dirty
    case RequestSend(_) => e.i.failure.None?
    case OpenVerify => Superseded(s, e)
    case OpenSync(_) => Superseded(s, e)
    case ConnectDrain(_) => Superseded(s, e)
    case LoginAuthorize => !Mine(s, e)
    case LoginStore(_) => !Mine(s, e)
    case RefreshVerify => false
    case RefreshExchange => false
    case RequestEnsure(_, _) => false
    case LoginVerify => false
    case LoginPersist(_) => false
    case LogoutRevoke => false
    case RemoveRevoke => false
    case _ => true
  }

  /** The order of the stretches of each function. A request is sent again at most once. */
  predicate Follows(at: Point, after: Point) {
    match at
    case OtherSave(_) => after.OtherSave? || after.OwnSave?
    case OwnSave(_) => after.OtherSave? || after.OwnSave?
    case EnsurePersist(_) => after.EnsureJoin? || after.EnsureOwn?
    case RefreshVerify => after.RefreshExchange?
    case RefreshExchange => after.RefreshStore?
    case RequestEnsure(_, retry) => after == RequestSend(retry)
    case RequestSend(retry) => !retry && after.RequestEnsure? && after.retry
    case ConnectDrain(_) => after.ConnectJoin? || after.ConnectDrain? || after.ConnectOwn?
    case OpenVerify => after.OpenSync?
    case OpenSync(_) => after.OpenTicket?
    case LoginVerify => after.LoginPersist?
    case LoginPersist(_) => after.LoginAuthorize?
    case LoginAuthorize => after.LoginStore?
    case LoginStore(_) => after.LoginConnect?
    case LogoutRevoke => after.LogoutPersist?
    case RemoveRevoke => after.RemoveSave?
    case _ => false
  }

  /** Everybody else stays where they are. */
  predicate Others(s: State, n: State, t: Id) {
    forall u :: u in s.tasks && u != t ==> u in n.tasks && n.tasks[u] == s.tasks[u]
  }

  /** The activation moves by the rules, and nobody else does. */
  predicate Goes(s: State, e: Event, n: State)
    requires Acts(s, e)
  {
    && Others(s, n, e.t) && e.t in n.tasks && n.tasks[e.t].gen == s.tasks[e.t].gen
    && var at, after := s.tasks[e.t].at, n.tasks[e.t].at;
       if !Ready(s, e.t) then n == s
       else if FailureOf(s, e).Some? then after == Done(Err(FailureOf(s, e).value))
       else if Succeeds(s, e) then after == Done(Ok)
       else Follows(at, after)
  }

  // ---------------------------------------------------------------- proofs, point by point

  lemma StayingGoes(s: State, e: Event)
    requires Acts(s, e)
    requires s.tasks[e.t].at.OwnSave? || s.tasks[e.t].at.RemoveSave? || s.tasks[e.t].at.Done? || s.tasks[e.t].at.Begin?
    ensures Goes(s, e, Advance(s, e.t, e.i))
  {
    assert !Ready(s, e.t) && Advance(s, e.t, e.i) == s;
    hide Advance, FailureOf, Succeeds, Follows;
  }

  lemma PersistLoopStays(s: State, t: Id)
    requires t in s.tasks
    ensures Others(s, PersistLoop(s, t), t) && t in PersistLoop(s, t).tasks
    ensures PersistLoop(s, t).tasks[t].gen == s.tasks[t].gen
    ensures var after := PersistLoop(s, t).tasks[t].at;
            if !s.c.dirty then after == Done(Ok)
            else if s.c.saving.None? && !s.disk.ready then after == Done(Err(Other))
            else after.OtherSave? || after.OwnSave?
  {
  }

  lemma ConnectLoopStays(s: State, t: Id)
    requires t in s.tasks && s.next !in s.tasks
    ensures Others(s, ConnectLoop(s, t), t) && t in ConnectLoop(s, t).tasks
    ensures ConnectLoop(s, t).tasks[t].gen == s.tasks[t].gen
    ensures var after := ConnectLoop(s, t).tasks[t].at; after.ConnectJoin? || after.ConnectDrain? || after.ConnectOwn?
  {
  }

  lemma EndLoginStays(s: State, t: Id, outcome: Outcome)
    requires t in s.tasks
    ensures EndLogin(s, t, outcome).tasks == s.tasks[t := s.tasks[t].(at := Done(outcome))]
  {
  }

  lemma FailLoginStays(s: State, t: Id, f: Failure)
    requires t in s.tasks
    ensures FailLogin(s, t, f).tasks == s.tasks[t := s.tasks[t].(at := Done(Err(f)))]
  {
  }

  /** The rules when an activation awaits the network, or what it awaited is there. */
  lemma Rules(s: State, e: Event)
    requires Acts(s, e)
    ensures SigningIn(s.tasks[e.t].at) && Awaited(s.tasks[e.t].at).Some? ==>
      var p := Awaited(s.tasks[e.t].at).value;
      && (Ready(s, e.t) <==> Finished(s, p))
      && (FailureOf(s, e) == if Failed(s, p) then Some(OutcomeOf(s, p).failure)
                             else if s.tasks[e.t].at.LoginPersist? && LoginCancelled(s, e.t) then Some(Other) else None)
      && (Succeeds(s, e) <==> s.tasks[e.t].at.LoginConnect? || (s.tasks[e.t].at.LoginStore? && !Mine(s, e)))
    ensures SigningIn(s.tasks[e.t].at) && Awaited(s.tasks[e.t].at).None? ==>
      && Ready(s, e.t)
      && (FailureOf(s, e) == if e.i.failure.Some? then e.i.failure
                             else if s.tasks[e.t].at.LoginVerify? && LoginCancelled(s, e.t) then Some(Other) else None)
      && (Succeeds(s, e) <==> s.tasks[e.t].at.LoginAuthorize? && !Mine(s, e))
  {
  }

  lemma SendRules(s: State, e: Event)
    requires Acts(s, e) && s.tasks[e.t].at.RequestSend?
    ensures Ready(s, e.t) && (Succeeds(s, e) <==> e.i.failure.None?)
    ensures FailureOf(s, e) == if s.tasks[e.t].at.retry && e.i.failure.Some? then e.i.failure
                               else if !Current(s, s.tasks[e.t].gen) then Some(Other)
                               else if e.i.failure == Some(Http(401, true)) then None else e.i.failure
  {
  }

  lemma DrainRules(s: State, e: Event)
    requires Acts(s, e) && s.tasks[e.t].at.ConnectDrain?
    ensures Ready(s, e.t) <==> Finished(s, s.tasks[e.t].at.op)
    ensures FailureOf(s, e) == None && (Succeeds(s, e) <==> !Current(s, s.tasks[e.t].gen))
  {
  }

  lemma PassingRules(s: State, e: Event)
    requires Acts(s, e) && Passes(s.tasks[e.t].at)
    ensures Awaited(s.tasks[e.t].at).Some? && (Ready(s, e.t) <==> Finished(s, Awaited(s.tasks[e.t].at).value))
    ensures Ready(s, e.t) ==>
      match OutcomeOf(s, Awaited(s.tasks[e.t].at).value)
      case Err(f) => FailureOf(s, e) == Some(f)
      case Ok =>
        if s.tasks[e.t].at.SyncRequest? && !e.i.valid then FailureOf(s, e) == Some(Other)
        else FailureOf(s, e) == None && Succeeds(s, e)
  {
  }

  lemma WaitingGoes(s: State, e: Event)
    requires Acts(s, e) && !Ready(s, e.t)
    ensures Goes(s, e, s)
  {
    hide FailureOf, Succeeds, Ready;
  }

  /** An activation that has ended by the rules. */
  lemma EndingGoes(s: State, e: Event, n: State, outcome: Outcome)
    requires Acts(s, e) && Ready(s, e.t) && n.tasks == s.tasks[e.t := s.tasks[e.t].(at := Done(outcome))]
    requires if outcome.Err? then FailureOf(s, e) == Some(outcome.failure) else FailureOf(s, e) == None && Succeeds(s, e)
    ensures Goes(s, e, n)
  {
    hide FailureOf, Succeeds, Ready;
  }

  /** An activation that has gone on to its next stretch, perhaps after starting others. */
  lemma FollowingGoes(s: State, e: Event, m: State, at: Point)
    requires Acts(s, e) && Ready(s, e.t) && FailureOf(s, e) == None && !Succeeds(s, e) && Follows(s.tasks[e.t].at, at)
    requires forall u :: u in s.tasks ==> u in m.tasks && m.tasks[u] == s.tasks[u]
    ensures Goes(s, e, At(m, e.t, at))
  {
    hide FailureOf, Succeeds, Ready, Follows;
  }

  /** Activations that only pass on what they awaited, or own the slot of it. */
  predicate Passes(at: Point) {
    || at.EnsureJoin? || at.EnsureOwn? || at.RefreshStore? || at.SyncJoin? || at.SyncOwn? || at.SyncRequest?
    || at.ConnectJoin? || at.ConnectOwn? || at.LogoutPersist?
  }

  lemma PassingGoes(s: State, e: Event)
    requires Acts(s, e) && Passes(s.tasks[e.t].at)
    ensures Goes(s, e, Advance(s, e.t, e.i))
  {
    PassingRules(s, e);
    hide Follows, FailureOf, Succeeds, Ready;
  }

  lemma OtherSaveGoes(s: State, e: Event)
    requires Acts(s, e) && s.tasks[e.t].at.OtherSave?
    ensures Goes(s, e, ResumeOtherSave(s, e.t, s.tasks[e.t].at.op))
  {
    hide PersistLoop;
    PersistLoopStays(s, e.t);
  }

  lemma EnsureRules(s: State, e: Event)
    requires Acts(s, e) && s.tasks[e.t].at.EnsurePersist?
    ensures var from := s.tasks[e.t].at.t;
            && (Ready(s, e.t) <==> Finished(s, from))
            && FailureOf(s, e) == (if Failed(s, from) then Some(OutcomeOf(s, from).failure)
                                   else if !Current(s, s.tasks[e.t].gen) then Some(Other)
                                   else if !Lives(s.c, e.i.now) && s.c.refreshing.None? && s.c.refresh.None?
                                   then Some(Http(401, false)) else None)
            && (Succeeds(s, e) <==> Lives(s.c, e.i.now))
  {
  }

  lemma EnsurePersistGoes(s: State, e: Event)
    requires Inv(s) && Acts(s, e) && s.tasks[e.t].at.EnsurePersist?
    ensures Goes(s, e, ResumeEnsure(s, e.t, s.tasks[e.t].at.t, e.i.now))
  {
    NextIsFresh(s);
    EnsureRules(s, e);
    hide Inv, FailureOf, Succeeds, Ready;
  }

  lemma RefreshVerifyGoes(s: State, e: Event)
    requires Inv(s) && Acts(s, e) && s.tasks[e.t].at.RefreshVerify?
    ensures Goes(s, e, ResumeRefreshVerify(s, e.t, e.i))
  {
    assert TaskOk(s, e.t);
  }

  lemma RefreshExchangeGoes(s: State, e: Event)
    requires Inv(s) && Acts(s, e) && s.tasks[e.t].at.RefreshExchange?
    ensures Goes(s, e, ResumeRefreshExchange(s, e.t, e.i))
  {
    hide Inv, StartPersist;
    if Mine(s, e) {
      TokensStay(s, e.t, e.i);
    }
  }

  lemma TokensStay(s: State, t: Id, i: Input)
    requires Inv(s) && t in s.tasks && (s.tasks[t].at.RefreshExchange? || s.tasks[t].at.LoginAuthorize?)
    ensures var n := StartPersist(StoreTokens(s, i)); forall u :: u in s.tasks ==> u in n.tasks && n.tasks[u] == s.tasks[u]
  {
    assert TaskOk(s, t);
    StoreTokensKeeps(s, i);
    hide Inv, StartPersist;
    StartPersistKeeps(StoreTokens(s, i));
  }

  lemma RequestEnsureGoes(s: State, e: Event)
    requires Acts(s, e) && s.tasks[e.t].at.RequestEnsure?
    ensures Goes(s, e, ResumeRequestEnsure(s, e.t, s.tasks[e.t].at.t, s.tasks[e.t].at.retry))
  {
  }

  lemma RejectionStays(s: State, t: Id)
    requires Inv(s)
    ensures var n := StartEnsure(s.(c := s.c.(access := None)));
            forall u :: u in s.tasks ==> u in n.tasks && n.tasks[u] == s.tasks[u]
  {
    ConnectionTheorems.AccessDropped(s);
    hide Inv, StartEnsure;
    StartEnsureKeeps(s.(c := s.c.(access := None)));
  }

  lemma RequestSendGoes(s: State, e: Event)
    requires Inv(s) && Acts(s, e) && s.tasks[e.t].at.RequestSend?
    ensures Goes(s, e, ResumeRequestSend(s, e.t, s.tasks[e.t].at.retry, e.i))
  {
    RejectionStays(s, e.t);
    SendRules(s, e);
    hide Inv, StartEnsure, FailureOf, Succeeds, Ready;
  }

  lemma ConnectDrainGoes(s: State, e: Event)
    requires Inv(s) && Acts(s, e) && s.tasks[e.t].at.ConnectDrain?
    ensures Goes(s, e, ResumeConnectDrain(s, e.t, s.tasks[e.t].at.op))
  {
    NextIsFresh(s);
    DrainRules(s, e);
    hide Inv, ConnectLoop, FailureOf, Succeeds, Ready;
    ConnectLoopStays(s, e.t);
  }

  lemma OpenVerifyGoes(s: State, e: Event)
    requires Inv(s) && Acts(s, e) && s.tasks[e.t].at.OpenVerify?
    ensures Goes(s, e, ResumeOpenVerify(s, e.t, e.i))
  {
    hide Inv, StartSync;
    StartSyncKeeps(s);
  }

  lemma OpenSyncGoes(s: State, e: Event)
    requires Inv(s) && Acts(s, e) && s.tasks[e.t].at.OpenSync?
    ensures Goes(s, e, ResumeOpenSync(s, e.t, s.tasks[e.t].at.t))
  {
    hide Inv, StartRequest;
    StartRequestKeeps(s);
  }

  lemma OpenTicketGoes(s: State, e: Event)
    requires Acts(s, e) && s.tasks[e.t].at.OpenTicket?
    ensures Goes(s, e, ResumeOpenTicket(s, e.t, s.tasks[e.t].at.t, e.i.valid))
  {
  }

  lemma DeviceStays(s: State, newKey: Key)
    ensures EnsureDevice(s, newKey).tasks == s.tasks && EnsureDevice(s, newKey).next == s.next
  {
  }

  lemma LoginVerifyGoes(s: State, e: Event)
    requires Inv(s) && Acts(s, e) && s.tasks[e.t].at.LoginVerify?
    ensures Goes(s, e, ResumeLoginVerify(s, e.t, e.i))
  {
    Rules(s, e);
    EnsureDeviceKeeps(s, e.i.newKey);
    DeviceStays(s, e.i.newKey);
    hide Inv, StartPersist, EnsureDevice, FailLogin, FailureOf, Succeeds, Ready, Goes;
    StartPersistKeeps(EnsureDevice(s, e.i.newKey));
    if FailureOf(s, e).Some? {
      FailLoginStays(s, e.t, FailureOf(s, e).value);
      EndingGoes(s, e, FailLogin(s, e.t, FailureOf(s, e).value), Err(FailureOf(s, e).value));
    } else {
      FollowingGoes(s, e, StartPersist(EnsureDevice(s, e.i.newKey)), LoginPersist(s.next));
    }
  }

  lemma LoginPersistGoes(s: State, e: Event)
    requires Acts(s, e) && s.tasks[e.t].at.LoginPersist?
    ensures Goes(s, e, ResumeLoginPersist(s, e.t, s.tasks[e.t].at.t))
  {
    Rules(s, e);
    FailLoginStays(s, e.t, if Failed(s, s.tasks[e.t].at.t) then OutcomeOf(s, s.tasks[e.t].at.t).failure else Other);
    FailLoginStays(s, e.t, Other);
    hide FailLogin, FailureOf, Succeeds, Ready;
  }

  lemma LoginAuthorizeGoes(s: State, e: Event)
    requires Inv(s) && AbortedAreOld(s) && Acts(s, e) && s.tasks[e.t].at.LoginAuthorize?
    ensures Goes(s, e, ResumeLoginAuthorize(s, e.t, e.i))
  {
    SignInIs(s, e.t);
    Rules(s, e);
    TokensStay(s, e.t, e.i);
    EndLoginStays(s, e.t, Ok);
    hide Inv, AbortedAreOld, StartPersist, StoreTokens, FailLogin, EndLogin, FailureOf, Succeeds, Ready, Goes;
    if FailureOf(s, e).Some? {
      FailLoginStays(s, e.t, FailureOf(s, e).value);
      EndingGoes(s, e, FailLogin(s, e.t, FailureOf(s, e).value), Err(FailureOf(s, e).value));
    } else if Succeeds(s, e) {
      EndingGoes(s, e, EndLogin(s, e.t, Ok), Ok);
    } else {
      FollowingGoes(s, e, StartPersist(StoreTokens(s, e.i)), LoginStore(s.next));
    }
  }

  lemma SignedInStays(s: State)
    requires Inv(s)
    ensures var n := StartConnect(s.(c := s.c.(stage := Some(ConnectingEvents))));
            forall u :: u in s.tasks ==> u in n.tasks && n.tasks[u] == s.tasks[u]
  {
    ConnectionTheorems.StageSet(s);
    hide Inv, StartConnect;
    StartConnectKeeps(s.(c := s.c.(stage := Some(ConnectingEvents))));
  }

  lemma SignedInGoes(s: State, e: Event)
    requires Inv(s) && Acts(s, e) && s.tasks[e.t].at.LoginStore?
    requires Ready(s, e.t) && FailureOf(s, e) == None && !Succeeds(s, e)
    ensures Goes(s, e, At(StartConnect(s.(c := s.c.(stage := Some(ConnectingEvents)))), e.t, LoginConnect(s.next)))
  {
    SignedInStays(s);
    hide Inv, StartConnect, FailureOf, Succeeds, Ready, Goes;
    FollowingGoes(s, e, StartConnect(s.(c := s.c.(stage := Some(ConnectingEvents)))), LoginConnect(s.next));
  }

  lemma LoginStoreGoes(s: State, e: Event)
    requires Inv(s) && Acts(s, e) && s.tasks[e.t].at.LoginStore?
    ensures Goes(s, e, ResumeLoginStore(s, e.t, s.tasks[e.t].at.t))
  {
    Rules(s, e);
    EndLoginStays(s, e.t, Ok);
    hide Inv, StartConnect, FailLogin, EndLogin, FailureOf, Succeeds, Ready, Goes;
    if !Ready(s, e.t) {
      WaitingGoes(s, e);
    } else if FailureOf(s, e).Some? {
      FailLoginStays(s, e.t, FailureOf(s, e).value);
      EndingGoes(s, e, FailLogin(s, e.t, FailureOf(s, e).value), Err(FailureOf(s, e).value));
    } else if Succeeds(s, e) {
      EndingGoes(s, e, EndLogin(s, e.t, Ok), Ok);
    } else {
      SignedInGoes(s, e);
    }
  }

  lemma LoginConnectGoes(s: State, e: Event)
    requires Acts(s, e) && s.tasks[e.t].at.LoginConnect?
    ensures Goes(s, e, ResumeLoginConnect(s, e.t, s.tasks[e.t].at.t))
  {
    Rules(s, e);
    FailLoginStays(s, e.t, if Failed(s, s.tasks[e.t].at.t) then OutcomeOf(s, s.tasks[e.t].at.t).failure else Other);
    EndLoginStays(s, e.t, Ok);
    hide FailLogin, EndLogin, FailureOf, Succeeds, Ready;
  }

  lemma LogoutStays(s: State, t: Id)
    requires Inv(s) && t in s.tasks
    ensures var n := FinishLogout(s, t);
            Others(s, n, t) && t in n.tasks && n.tasks[t].gen == s.tasks[t].gen && n.tasks[t].at.LogoutPersist?
  {
    ConnectionTheorems.LoggedOut(s);
    hide Inv, StartPersist;
    var s1 := SetCreds(s, s.c.key, None);
    StartPersistKeeps(s1.(c := s1.c.(access := None, status := SignedOut)));
  }

  lemma LogoutRevokeGoes(s: State, e: Event)
    requires Inv(s) && Acts(s, e) && s.tasks[e.t].at.LogoutRevoke?
    ensures Goes(s, e, ResumeLogoutRevoke(s, e.t, e.i))
  {
    hide Inv, FinishLogout;
    LogoutStays(s, e.t);
  }

  lemma RemoveRevokeGoes(s: State, e: Event)
    requires Acts(s, e) && s.tasks[e.t].at.RemoveRevoke?
    ensures Goes(s, e, FinishRemove(s, e.t))
  {
  }

  lemma AwaitConnectGoes(s: State, e: Event)
    requires Acts(s, e) && s.tasks[e.t].at.AwaitConnect?
    ensures Goes(s, e, ResumeAwaitConnect(s, e.t, s.tasks[e.t].at.t))
  {
  }

  /**
    Every activation moves exactly when what it awaits is there; it fails, succeeds or goes on to its next stretch by the
    same few rules, and moves nobody else.
   */
  lemma ActivationGoes(s: State, e: Event)
    requires Inv(s) && AbortedAreOld(s) && Acts(s, e)
    ensures Goes(s, e, Advance(s, e.t, e.i))
  {
    hide Inv, AbortedAreOld, Goes, ResumeOtherSave, ResumeEnsure, ResumeRefreshVerify, ResumeRefreshExchange,
      ResumeRequestEnsure, ResumeRequestSend, ResumeConnectDrain, ResumeOpenVerify, ResumeOpenSync, ResumeOpenTicket,
      ResumeLoginVerify, ResumeLoginPersist, ResumeLoginAuthorize, ResumeLoginStore, ResumeLoginConnect,
      ResumeLogoutRevoke, FinishRemove, ResumeAwaitConnect;
    match s.tasks[e.t].at
    case OtherSave(_) => OtherSaveGoes(s, e);
    case EnsurePersist(_) => EnsurePersistGoes(s, e);
    case RefreshVerify => RefreshVerifyGoes(s, e);
    case RefreshExchange => RefreshExchangeGoes(s, e);
    case RequestEnsure(_, _) => RequestEnsureGoes(s, e);
    case RequestSend(_) => RequestSendGoes(s, e);
    case ConnectDrain(_) => ConnectDrainGoes(s, e);
    case OpenVerify => OpenVerifyGoes(s, e);
    case OpenSync(_) => OpenSyncGoes(s, e);
    case OpenTicket(_) => OpenTicketGoes(s, e);
    case LoginVerify => LoginVerifyGoes(s, e);
    case LoginPersist(_) => LoginPersistGoes(s, e);
    case LoginAuthorize => LoginAuthorizeGoes(s, e);
    case LoginStore(_) => LoginStoreGoes(s, e);
    case LoginConnect(_) => LoginConnectGoes(s, e);
    case LogoutRevoke => LogoutRevokeGoes(s, e);
    case RemoveRevoke => RemoveRevokeGoes(s, e);
    case AwaitConnect(_) => AwaitConnectGoes(s, e);
    case _ => if Passes(s.tasks[e.t].at) { PassingGoes(s, e); } else { StayingGoes(s, e); }
  }

  // ---------------------------------------------------------------- events that are no activation's turn

  /** Nobody moves. */
  predicate AllStay(s: State, n: State) { forall u :: u in s.tasks ==> u in n.tasks && n.tasks[u] == s.tasks[u] }

  lemma CallsStay(s: State, e: Event)
    requires Inv(s) && !e.Advanced? && !e.WriteSettled?
    ensures AllStay(s, Step(s, e))
  {
    hide Inv, ApiLogin, ApiLogout, ApiRemove, ApiResume, ApiSnapshot, ApiRequest, TimerFires;
    match e
    case LoginCalled => StopStays(s);
    case LogoutCalled => LogoutCallStays(s);
    case RemoveCalled => StopStays(s);
    case ResumeCalled => ResumeStays(s);
    case SnapshotCalled => SnapshotStays(s);
    case RequestCalled => RequestStays(s);
    case TimerFired => TimerStays(s);
    case _ =>
  }

  lemma StopStays(s: State)
    requires Inv(s)
    ensures AllStay(s, ApiLogin(s)) && AllStay(s, ApiRemove(s))
  {
    NextIsFresh(s);
    hide Inv;
  }

  lemma StayTwice(s: State, m: State, n: State)
    requires AllStay(s, m) && AllStay(m, n)
    ensures AllStay(s, n)
  {
  }

  lemma SpawnStays(s: State, gen: int, at: Point)
    requires s.next !in s.tasks
    ensures AllStay(s, Spawn(s, gen, at))
  {
  }

  lemma StoppedSpawns(s: State)
    requires Inv(s)
    ensures Inv(Spawn(Stop(s), s.c.generation + 1, LogoutRevoke)) && s.next !in s.tasks
  {
    NextIsFresh(s);
    StopKeeps(s);
    SpawnKeeps(Stop(s), s.c.generation + 1, LogoutRevoke);
  }

  lemma LogoutCallStays(s: State)
    requires Inv(s)
    ensures AllStay(s, ApiLogout(s))
  {
    hide Inv, FinishLogout;
    StoppedSpawns(s);
    LogoutStays(Spawn(Stop(s), s.c.generation + 1, LogoutRevoke), s.next);
  }

  lemma BackgroundSpawns(s: State)
    requires Inv(s)
    ensures Inv(Spawn(s, s.c.generation, AwaitConnect(s.next + 1))) && s.next !in s.tasks
  {
    NextIsFresh(s);
    SpawnKeeps(s, s.c.generation, AwaitConnect(s.next + 1));
  }

  lemma ExtendsStays(s: State, n: State)
    requires Extends(s, n)
    ensures AllStay(s, n)
  {
  }

  lemma BackgroundStays(s: State)
    requires Inv(s)
    ensures AllStay(s, ConnectInBackground(s, s.c.generation))
  {
    hide Inv, StartConnect, AllStay, Extends;
    BackgroundSpawns(s);
    var m := Spawn(s, s.c.generation, AwaitConnect(s.next + 1));
    SpawnStays(s, s.c.generation, AwaitConnect(s.next + 1));
    StartConnectKeeps(m);
    ExtendsStays(m, StartConnect(m));
    StayTwice(s, m, StartConnect(m));
  }

  lemma ResumeStays(s: State)
    requires Inv(s)
    ensures AllStay(s, ApiResume(s))
  {
    StopKeeps(s);
    hide Inv, ConnectInBackground;
    BackgroundStays(Stop(s));
  }

  lemma SnapshotStays(s: State)
    requires Inv(s)
    ensures AllStay(s, ApiSnapshot(s))
  {
    hide Inv, ConnectInBackground, StartSync;
    BackgroundStays(s);
    BackgroundKeeps(s, s.c.generation);
    StartSyncKeeps(s);
    StartSyncKeeps(ConnectInBackground(s, s.c.generation));
  }

  lemma RequestStays(s: State)
    requires Inv(s)
    ensures AllStay(s, ApiRequest(s))
  {
    hide Inv, StartRequest;
    StartRequestKeeps(s);
  }

  lemma TimerStays(s: State)
    requires Inv(s)
    ensures AllStay(s, TimerFires(s))
  {
    ConnKeeps(s, s.c.(timer := None));
    hide Inv, ConnectInBackground;
    BackgroundStays(s.(c := s.c.(timer := None)));
  }

  /** The activation whose own write is the oldest queued one. */
  function Writer(s: State): Option<Id> {
    if s.disk.queue == [] then None
    else match s.disk.queue[0].owner
      case ByPersist(t, _) => if t in s.tasks && s.tasks[t].at.OwnSave? then Some(t) else None
      case ByRemove(t) => if t in s.tasks && s.tasks[t].at.RemoveSave? then Some(t) else None
      case _ => None
  }

  /**
    A finished write lets its owner go on in the same turn and nobody else: a failed one fails its owner. A removal has
    then succeeded; saved credentials are done unless more are owed, and then saved again.
   */
  predicate WriterGoes(s: State, ok: bool, n: State) {
    match Writer(s)
    case None => AllStay(s, n)
    case Some(t) =>
      && Others(s, n, t) && t in n.tasks && n.tasks[t].gen == s.tasks[t].gen
      && if !ok then n.tasks[t].at == Done(Err(Other))
         else if s.tasks[t].at.RemoveSave? then n.tasks[t].at == Done(Ok)
         else if !n.c.dirty then n.tasks[t].at == Done(Ok)
         else n.tasks[t].at == Done(Err(Other)) || Follows(s.tasks[t].at, n.tasks[t].at)
  }

  lemma WriteGoes(s: State, ok: bool)
    ensures WriterGoes(s, ok, Settle(s, ok))
  {
    hide PersistLoop;
    if s.disk.queue != [] {
      var w := s.disk.queue[0];
      if w.owner.ByPersist? && w.owner.t in s.tasks && s.tasks[w.owner.t].at.OwnSave? {
        SaverGoes(s, ok);
      }
    }
  }

  lemma SaverGoes(s: State, ok: bool)
    requires s.disk.queue != [] && s.disk.queue[0].owner.ByPersist?
    requires s.disk.queue[0].owner.t in s.tasks && s.tasks[s.disk.queue[0].owner.t].at.OwnSave?
    ensures WriterGoes(s, ok, Settle(s, ok))
  {
    hide PersistLoop;
    var w, p := s.disk.queue[0], Popped(s, ok);
    var s1 := if p.c.saving == Some(w.op) then p.(c := p.c.(saving := None)) else p;
    var s2 := At(s1, w.owner.t, Begin);
    var s3 := if Creds(p.c) == w.owner.captured then s2.(c := s2.c.(dirty := false)) else s2;
    PersistLoopStays(s3, w.owner.t);
    PersistLoopOnly(s3, w.owner.t);
    if ok {
      assert Settle(s, ok) == PersistLoop(s3, w.owner.t);
    }
  }

  /** Activations never vanish, keep their generation, and stay as they ended. */
  predicate Evolves(s: State, n: State) {
    forall u :: u in s.tasks ==>
      u in n.tasks && n.tasks[u].gen == s.tasks[u].gen && (s.tasks[u].at.Done? ==> n.tasks[u] == s.tasks[u])
  }

  lemma StepEvolves(s: State, e: Event)
    requires Inv(s) && AbortedAreOld(s)
    ensures Evolves(s, Step(s, e))
  {
    hide Inv, AbortedAreOld, Step;
    if e.Advanced? {
      if Acts(s, e) {
        ActivationMoves(s, e);
      } else {
        NobodyMoves(s, e);
      }
    } else if e.WriteSettled? {
      WriteMoves(s, e.ok);
    } else {
      CallsStay(s, e);
    }
  }

  lemma NobodyMoves(s: State, e: Event)
    requires e.Advanced? && !Acts(s, e)
    ensures Step(s, e) == s
  {
  }

  lemma ActivationMoves(s: State, e: Event)
    requires Inv(s) && AbortedAreOld(s) && Acts(s, e)
    ensures Step(s, e) == Advance(s, e.t, e.i) && Goes(s, e, Step(s, e)) && Evolves(s, Step(s, e))
  {
    hide Inv, AbortedAreOld, Advance, FailureOf, Succeeds;
    ActivationGoes(s, e);
  }

  lemma WriteMoves(s: State, ok: bool)
    ensures Step(s, WriteSettled(ok)) == Settle(s, ok) && Evolves(s, Settle(s, ok))
  {
    hide Settle, Follows;
    WriteGoes(s, ok);
  }

  /** Who moves in an event, and how: the activation whose turn it is, the owner of the write that ended, or nobody. */
  lemma WhoMoves(s: State, e: Event)
    requires Inv(s) && AbortedAreOld(s)
    ensures Acts(s, e) ==> Goes(s, e, Step(s, e))
    ensures e.WriteSettled? ==> WriterGoes(s, e.ok, Step(s, e))
    ensures !Acts(s, e) && !e.WriteSettled? ==> AllStay(s, Step(s, e))
  {
    hide Inv, AbortedAreOld, Step, Goes, WriterGoes;
    if Acts(s, e) {
      ActivationMoves(s, e);
    } else if e.WriteSettled? {
      WriteGoes(s, e.ok);
      WriteMoves(s, e.ok);
    } else if e.Advanced? {
      NobodyMoves(s, e);
    } else {
      CallsStay(s, e);
    }
  }

  // ---------------------------------------------------------------- whole runs

  lemma AbortedStayOld(s: State, e: Event)
    requires Inv(s) && AbortedAreOld(s)
    ensures AbortedAreOld(Step(s, e))
  {
    StepEvolves(s, e);
    StepEffects(s, e);
    if s.c.login.Some? {
      assert s.c.login.value in s.tasks && s.tasks[s.c.login.value].gen == s.c.generation;
    }
    hide Inv, Step, Stops, LoginBegins, Credentials, Shows;
  }

  /** What every run keeps of the activations, besides the protocol's invariant. */
  lemma {:induction false} RunKeepsActivations(start: State, es: seq<Event>)
    requires Initial(start)
    ensures Inv(Run(start, es)) && AbortedAreOld(Run(start, es))
    decreases |es|
  {
    hide Inv, Step;
    Reachable(start, es);
    if es != [] {
      RunKeepsActivations(start, es[..|es| - 1]);
      AbortedStayOld(Run(start, es[..|es| - 1]), es[|es| - 1]);
    }
  }
}
