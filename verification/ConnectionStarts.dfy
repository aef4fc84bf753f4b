/** Which activations an event starts, where they stand, and what they await. */
module ConnectionStarts {
  import opened Option
  import opened ConnectionModel
  import opened ConnectionInvariants
  import opened ConnectionEffects
  import opened ConnectionActivations
  import opened ConnectionProgress

  // ---------------------------------------------------------------- what an event starts

  /** A refresh is begun by an activation of ensureAccess that finds no living token, no refresh, and a refresh token. */
  predicate BeginsRefresh(s: State, e: Event) {
    && Acts(s, e) && s.tasks[e.t].at.EnsurePersist? && Mine(s, e) && Held(s)
    && !Lives(s.c, e.i.now) && s.c.refreshing.None? && s.c.refresh.Some?
  }

  /** New activations stand at a first stretch; a logout or a removal may be further if there was nothing to revoke. */
  predicate StartOk(s: State, e: Event, n: State, u: Id)
    requires u in n.tasks
  {
    var at := n.tasks[u].at;
    || Starting(at)
    || (at.RefreshVerify? && BeginsRefresh(s, e) && n.tasks[u].gen == s.c.generation)
    || (at.LogoutPersist? && e.LogoutCalled? && SessionEnds(s, e))
    || (at.RemoveSave? && e.RemoveCalled?)
  }

  predicate StartsOk(s: State, e: Event, n: State) {
    forall u :: u in n.tasks && u !in s.tasks ==> StartOk(s, e, n, u)
  }

  /** Who comes to await a save that is done already has found the credentials saved. */
  predicate AllFindSaved(s: State, n: State) {
    forall u :: u in n.tasks && (u !in s.tasks || n.tasks[u].at != s.tasks[u].at) ==> FindsSaved(n, n.tasks[u].at)
  }

  predicate EntersRight(s: State, e: Event, n: State) { StartsOk(s, e, n) && AllFindSaved(s, n) }

  lemma GrewStarts(s: State, e: Event, n: State)
    requires Grew(s, n)
    ensures EntersRight(s, e, n)
  {
    hide Starting, FindsSaved;
  }

  /** An activation of s awaits what it has just started. */
  lemma CallStarts(s: State, e: Event, b: State, m: State, t: Id, at: Point)
    requires b.tasks == s.tasks && Grew(b, m) && t in s.tasks && FindsSaved(m, at) && !at.Done?
    ensures EntersRight(s, e, At(m, t, at))
  {
    hide Starting, Below;
  }

  lemma NothingStarts(s: State, e: Event, n: State)
    requires StartsNobody(s, n)
    ensures EntersRight(s, e, n)
  {
  }

  lemma SaveStarts(s: State, e: Event, b: State, t: Id, at: Point)
    requires b.tasks == s.tasks && b.next == s.next && Linked(b, {}) && t in s.tasks
    requires Awaited(at) == Some(s.next) && Below(at) == 0
    ensures EntersRight(s, e, At(StartPersist(b), t, at))
  {
    hide Linked, Grew, StartPersist, EntersRight;
    StartPersistLinks(b, {});
    CallStarts(s, e, b, StartPersist(b), t, at);
  }

  lemma RefreshStarts(s: State, e: Event)
    requires s.next !in s.tasks && BeginsRefresh(s, e)
    ensures EntersRight(s, e, At(StartRefresh(s, s.tasks[e.t].gen), e.t, EnsureOwn(s.next)))
  {
    var n := At(StartRefresh(s, s.tasks[e.t].gen), e.t, EnsureOwn(s.next));
    assert n.tasks[s.next] == Task(s.c.generation, RefreshVerify) && n.tasks[e.t].at == EnsureOwn(s.next);
    assert forall u :: u in n.tasks && u != s.next && u != e.t ==> u in s.tasks && n.tasks[u] == s.tasks[u];
    hide Starting, Lives, BeginsRefresh;
  }

  lemma EnsureStarts(s: State, e: Event)
    requires Linked(s, {}) && Acts(s, e) && s.tasks[e.t].at.EnsurePersist?
    ensures EntersRight(s, e, ResumeEnsure(s, e.t, s.tasks[e.t].at.t, e.i.now))
  {
    hide Linked, EntersRight, StartRefresh;
    FreshNext(s, {});
    var from := s.tasks[e.t].at.t;
    NothingStarts(s, e, s);
    EndStarts(s, e, Ok);
    EndStarts(s, e, Err(Other));
    EndStarts(s, e, Err(Http(401, false)));
    EndStarts(s, e, if Finished(s, from) then OutcomeOf(s, from) else Ok);
    if s.c.refreshing.Some? {
      NothingStarts(s, e, At(s, e.t, EnsureJoin(s.c.refreshing.value)));
    } else if BeginsRefresh(s, e) {
      RefreshStarts(s, e);
    }
  }

  lemma ExchangeStarts(s: State, e: Event)
    requires Linked(s, {}) && Acts(s, e) && s.tasks[e.t].at.RefreshExchange?
    ensures EntersRight(s, e, ResumeRefreshExchange(s, e.t, e.i))
  {
    hide Linked, StartPersist, StoreTokens, EntersRight;
    SameLinksOfTokens(s, e.i);
    SaveStarts(s, e, StoreTokens(s, e.i), e.t, RefreshStore(s.next));
    EndStarts(s, e, Err(Other));
    EndStarts(s, e, Err(if e.i.failure.Some? then e.i.failure.value else Other));
    StoredNext(s, e.i);
  }

  lemma SameLinksOfTokens(s: State, i: Input)
    requires Linked(s, {})
    ensures Linked(StoreTokens(s, i), {}) && StoreTokens(s, i).tasks == s.tasks && StoreTokens(s, i).next == s.next
  {
    hide Linked;
    SameLinks(s, {}, StoreTokens(s, i));
  }

  lemma EndStarts(s: State, e: Event, outcome: Outcome)
    requires Acts(s, e)
    ensures EntersRight(s, e, Finish(s, e.t, outcome))
  {
    hide EntersRight;
    NothingStarts(s, e, Finish(s, e.t, outcome));
  }

  lemma SendStarts(s: State, e: Event)
    requires Linked(s, {}) && Acts(s, e) && s.tasks[e.t].at.RequestSend?
    ensures EntersRight(s, e, ResumeRequestSend(s, e.t, s.tasks[e.t].at.retry, e.i))
  {
    hide Linked, StartEnsure, EntersRight, Grew;
    var m := s.(c := s.c.(access := None));
    SameLinks(s, {}, m);
    StartEnsureLinks(m, {});
    CallStarts(s, e, m, StartEnsure(m), e.t, RequestEnsure(s.next, true));
    EndStarts(s, e, Ok);
    EndStarts(s, e, Err(Other));
    EndStarts(s, e, Err(if e.i.failure.Some? then e.i.failure.value else Other));
  }

  lemma DrainStarts(s: State, e: Event)
    requires Linked(s, {}) && Acts(s, e) && s.tasks[e.t].at.ConnectDrain?
    ensures EntersRight(s, e, ResumeConnectDrain(s, e.t, s.tasks[e.t].at.op))
  {
    hide Linked, EntersRight, ConnectLoop;
    FreshNext(s, {});
    ConnectingIsOld(s, {});
    EndStarts(s, e, Ok);
    NothingStarts(s, e, s);
    LoopStarts(s, e);
  }

  lemma LoopStarts(s: State, e: Event)
    requires Acts(s, e) && s.next !in s.tasks && (s.c.connecting.Some? ==> !JustEntered(s, s.c.connecting.value))
    ensures EntersRight(s, e, ConnectLoop(s, e.t))
  {
    hide ConnectLoop;
    ConnectLoopGrows(s, e.t);
  }

  lemma OpenVerifyStarts(s: State, e: Event)
    requires Linked(s, {}) && Acts(s, e) && s.tasks[e.t].at.OpenVerify?
    ensures EntersRight(s, e, ResumeOpenVerify(s, e.t, e.i))
  {
    hide Linked, StartSync, EntersRight, Grew;
    StartSyncLinks(s, {});
    CallStarts(s, e, s, StartSync(s), e.t, OpenSync(s.next));
    EndStarts(s, e, Ok);
    EndStarts(s, e, Err(if e.i.failure.Some? then e.i.failure.value else Other));
  }

  lemma OpenSyncStarts(s: State, e: Event)
    requires Linked(s, {}) && Acts(s, e) && s.tasks[e.t].at.OpenSync?
    ensures EntersRight(s, e, ResumeOpenSync(s, e.t, s.tasks[e.t].at.t))
  {
    hide Linked, StartRequest, EntersRight, Grew;
    var from := s.tasks[e.t].at.t;
    StartRequestLinks(s, {});
    CallStarts(s, e, s, StartRequest(s), e.t, OpenTicket(s.next));
    EndStarts(s, e, Ok);
    EndStarts(s, e, if Finished(s, from) then OutcomeOf(s, from) else Ok);
    NothingStarts(s, e, s);
  }

  lemma FailStarts(s: State, e: Event, f: Failure, outcome: Outcome)
    requires Acts(s, e)
    ensures EntersRight(s, e, FailLogin(s, e.t, f)) && EntersRight(s, e, EndLogin(s, e.t, outcome))
  {
    hide EntersRight, FailLogin, EndLogin;
    FailLoginStays(s, e.t, f);
    EndLoginStays(s, e.t, outcome);
    NothingStarts(s, e, FailLogin(s, e.t, f));
    NothingStarts(s, e, EndLogin(s, e.t, outcome));
  }

  lemma LoginVerifyStarts(s: State, e: Event)
    requires Linked(s, {}) && Acts(s, e) && s.tasks[e.t].at.LoginVerify?
    ensures EntersRight(s, e, ResumeLoginVerify(s, e.t, e.i))
  {
    hide Linked, StartPersist, EnsureDevice, FailLogin, EntersRight;
    DeviceLinks(s, e.i.newKey);
    SaveStarts(s, e, EnsureDevice(s, e.i.newKey), e.t, LoginPersist(s.next));
    FailStarts(s, e, Other, Ok);
    FailStarts(s, e, if e.i.failure.Some? then e.i.failure.value else Other, Ok);
  }

  lemma LoginAuthorizeStarts(s: State, e: Event)
    requires Linked(s, {}) && Acts(s, e) && s.tasks[e.t].at.LoginAuthorize?
    ensures EntersRight(s, e, ResumeLoginAuthorize(s, e.t, e.i))
  {
    hide Linked, StartPersist, StoreTokens, FailLogin, EndLogin, EntersRight;
    SameLinksOfTokens(s, e.i);
    SaveStarts(s, e, StoreTokens(s, e.i), e.t, LoginStore(s.next));
    FailStarts(s, e, Other, Ok);
    FailStarts(s, e, if e.i.failure.Some? then e.i.failure.value else Other, Ok);
  }

  lemma LoginStoreStarts(s: State, e: Event)
    requires Linked(s, {}) && Acts(s, e) && s.tasks[e.t].at.LoginStore?
    ensures EntersRight(s, e, ResumeLoginStore(s, e.t, s.tasks[e.t].at.t))
  {
    hide Linked, StartConnect, FailLogin, EndLogin, EntersRight, Grew;
    var m := s.(c := s.c.(stage := Some(ConnectingEvents)));
    SameLinks(s, {}, m);
    StartConnectLinks(m, {});
    CallStarts(s, e, m, StartConnect(m), e.t, LoginConnect(s.next));
    FailStarts(s, e, if Failed(s, s.tasks[e.t].at.t) then OutcomeOf(s, s.tasks[e.t].at.t).failure else Other, Ok);
    NothingStarts(s, e, s);
  }

  lemma LoginOtherStarts(s: State, e: Event)
    requires Acts(s, e) && (s.tasks[e.t].at.LoginPersist? || s.tasks[e.t].at.LoginConnect?)
    ensures EntersRight(s, e, if s.tasks[e.t].at.LoginPersist? then ResumeLoginPersist(s, e.t, s.tasks[e.t].at.t)
                          else ResumeLoginConnect(s, e.t, s.tasks[e.t].at.t))
  {
    hide FailLogin, EndLogin, EntersRight;
    FailStarts(s, e, if Failed(s, s.tasks[e.t].at.t) then OutcomeOf(s, s.tasks[e.t].at.t).failure else Other, Ok);
    FailStarts(s, e, Other, Ok);
    NothingStarts(s, e, s);
    NothingStarts(s, e, At(s.(c := s.c.(stage := Some(BrowserAuthorization))), e.t, LoginAuthorize));
  }

  lemma LogoutRevokeStarts(s: State, e: Event)
    requires Linked(s, {}) && Acts(s, e) && s.tasks[e.t].at.LogoutRevoke?
    ensures EntersRight(s, e, ResumeLogoutRevoke(s, e.t, e.i))
  {
    hide Linked, StartPersist, EntersRight;
    var s1 := SetCreds(s, s.c.key, None);
    var m := s1.(c := s1.c.(access := None, status := SignedOut));
    SameLinks(s, {}, m);
    SaveStarts(s, e, m, e.t, LogoutPersist(s.next));
    EndStarts(s, e, Err(Other));
    EndStarts(s, e, Err(if e.i.failure.Some? then e.i.failure.value else Other));
  }

  /** The points whose activations start nobody when they go on. */
  predicate Alone(at: Point) {
    || Passes(at) || at.OwnSave? || at.RemoveSave? || at.Done? || at.Begin? || at.OtherSave? || at.RefreshVerify?
    || at.RequestEnsure? || at.OpenTicket? || at.RemoveRevoke? || at.AwaitConnect?
  }

  lemma AloneStarts(s: State, e: Event)
    requires Acts(s, e) && Alone(s.tasks[e.t].at)
    ensures EntersRight(s, e, Advance(s, e.t, e.i))
  {
    hide EntersRight, Advance;
    if s.tasks[e.t].at.OtherSave? {
      SavesAlone(s, e);
    } else if Passes(s.tasks[e.t].at) {
      PassesAlone(s, e);
    } else {
      OthersAlone(s, e);
    }
    NothingStarts(s, e, Advance(s, e.t, e.i));
  }

  /** Nobody new, and nobody who comes to await a save. */
  predicate StartsNobody(s: State, n: State) {
    && n.tasks.Keys == s.tasks.Keys
    && forall u :: u in s.tasks && n.tasks[u].at != s.tasks[u].at ==> Awaited(n.tasks[u].at).None? || Below(n.tasks[u].at) != 0
  }

  lemma SavesAlone(s: State, e: Event)
    requires Acts(s, e) && s.tasks[e.t].at.OtherSave?
    ensures StartsNobody(s, Advance(s, e.t, e.i))
  {
    hide PersistLoop;
    PersistLoopStays(s, e.t);
    LoopKeys(s, e.t);
  }

  lemma LoopKeys(s: State, t: Id)
    requires t in s.tasks
    ensures PersistLoop(s, t).tasks.Keys == s.tasks.Keys
  {
  }

  lemma FinishedAlone(s: State, t: Id, outcome: Outcome)
    requires t in s.tasks
    ensures StartsNobody(s, Finish(s, t, outcome))
  {
  }

  lemma PassesAlone(s: State, e: Event)
    requires Acts(s, e) && Passes(s.tasks[e.t].at)
    ensures StartsNobody(s, Advance(s, e.t, e.i))
  {
    hide StartsNobody;
    FinishedAlone(s, e.t, Err(Other));
    var p := Awaited(s.tasks[e.t].at);
    if p.Some? && Finished(s, p.value) {
      FinishedAlone(s, e.t, OutcomeOf(s, p.value));
    }
    GivesBackAlone(s, e.t);
  }

  /** Giving back a slot before the end makes no difference to who is there. */
  lemma GivesBackAlone(s: State, t: Id)
    requires t in s.tasks
    ensures StartsNobody(s, s)
    ensures forall d, outcome :: StartsNobody(s, Finish(s.(c := d), t, outcome))
  {
    forall d, outcome
      ensures StartsNobody(s, Finish(s.(c := d), t, outcome))
    {
      FinishedAlone(s, t, outcome);
    }
  }

  lemma OthersAlone(s: State, e: Event)
    requires Acts(s, e) && Alone(s.tasks[e.t].at) && !Passes(s.tasks[e.t].at) && !s.tasks[e.t].at.OtherSave?
    ensures StartsNobody(s, Advance(s, e.t, e.i))
  {
    hide StartsNobody, ResumeRefreshVerify, ResumeRequestEnsure, ResumeOpenTicket, FinishRemove, ResumeAwaitConnect;
    GivesBackAlone(s, e.t);
    match s.tasks[e.t].at
    case RefreshVerify => RefreshVerifyAlone(s, e.t, e.i);
    case RequestEnsure(p, retry) => RequestEnsureAlone(s, e.t, p, retry);
    case OpenTicket(r) => TicketAlone(s, e.t, r, e.i.valid);
    case RemoveRevoke => RemoveAlone(s, e.t);
    case AwaitConnect(k) => ConnectAlone(s, e.t, k);
    case _ =>
  }

  lemma MovedAlone(s: State, t: Id, at: Point)
    requires t in s.tasks && Awaited(at).None?
    ensures StartsNobody(s, At(s, t, at))
  {
  }

  lemma RefreshVerifyAlone(s: State, t: Id, i: Input)
    requires t in s.tasks
    ensures StartsNobody(s, ResumeRefreshVerify(s, t, i))
  {
    hide StartsNobody;
    FinishedAlone(s, t, Err(Other));
    FinishedAlone(s, t, Err(if i.failure.Some? then i.failure.value else Other));
    MovedAlone(s, t, RefreshExchange);
  }

  lemma RequestEnsureAlone(s: State, t: Id, from: Id, retry: bool)
    requires t in s.tasks
    ensures StartsNobody(s, ResumeRequestEnsure(s, t, from, retry))
  {
    hide StartsNobody;
    GivesBackAlone(s, t);
    FinishedAlone(s, t, Err(Other));
    FinishedAlone(s, t, if Finished(s, from) then OutcomeOf(s, from) else Ok);
    MovedAlone(s, t, RequestSend(retry));
  }

  lemma SameTasksAlone(s: State, m: State, n: State)
    requires StartsNobody(s, m) && n.tasks == m.tasks
    ensures StartsNobody(s, n)
  {
  }

  lemma TicketAlone(s: State, t: Id, from: Id, valid: bool)
    requires t in s.tasks
    ensures StartsNobody(s, ResumeOpenTicket(s, t, from, valid))
  {
    hide StartsNobody;
    GivesBackAlone(s, t);
    if Finished(s, from) {
      FinishedAlone(s, t, OutcomeOf(s, from));
    }
    FinishedAlone(s, t, Err(Other));
    FinishedAlone(s, t, Ok);
    SameTasksAlone(s, Finish(s, t, Ok), if Finished(s, from) && OutcomeOf(s, from).Ok? && valid
                                        then ResumeOpenTicket(s, t, from, valid) else Finish(s, t, Ok));
  }

  lemma RemoveAlone(s: State, t: Id)
    requires t in s.tasks
    ensures StartsNobody(s, FinishRemove(s, t))
  {
  }

  lemma ConnectAlone(s: State, t: Id, from: Id)
    requires t in s.tasks
    ensures StartsNobody(s, ResumeAwaitConnect(s, t, from))
  {
    hide StartsNobody;
    GivesBackAlone(s, t);
    if Finished(s, from) {
      FinishedAlone(s, t, OutcomeOf(s, from));
      SameTasksAlone(s, Finish(s, t, OutcomeOf(s, from)), ResumeAwaitConnect(s, t, from));
    }
  }

  lemma AdvanceStarts(s: State, e: Event)
    requires Linked(s, {}) && Acts(s, e)
    ensures EntersRight(s, e, Advance(s, e.t, e.i))
  {
    hide Linked, EntersRight, ResumeEnsure, ResumeRefreshExchange, ResumeRequestSend, ResumeConnectDrain, ResumeOpenVerify,
      ResumeOpenSync, ResumeLoginVerify, ResumeLoginPersist, ResumeLoginAuthorize, ResumeLoginStore, ResumeLoginConnect,
      ResumeLogoutRevoke;
    match s.tasks[e.t].at
    case EnsurePersist(_) => EnsureStarts(s, e);
    case RefreshExchange => ExchangeStarts(s, e);
    case RequestSend(_) => SendStarts(s, e);
    case ConnectDrain(_) => DrainStarts(s, e);
    case OpenVerify => OpenVerifyStarts(s, e);
    case OpenSync(_) => OpenSyncStarts(s, e);
    case LoginVerify => LoginVerifyStarts(s, e);
    case LoginPersist(_) => LoginOtherStarts(s, e);
    case LoginAuthorize => LoginAuthorizeStarts(s, e);
    case LoginStore(_) => LoginStoreStarts(s, e);
    case LoginConnect(_) => LoginOtherStarts(s, e);
    case LogoutRevoke => LogoutRevokeStarts(s, e);
    case _ => AloneStarts(s, e);
  }

  /** Two calls in one turn. */
  lemma GrewTwice(s: State, e: Event, m: State, n: State)
    requires Grew(s, m) && Grew(m, n) && Linked(m, {})
    ensures EntersRight(s, e, n)
  {
    hide Starting, Below, Linked;
    forall u | u in n.tasks && (u !in s.tasks || n.tasks[u].at != s.tasks[u].at)
      ensures Starting(n.tasks[u].at) && FindsSaved(n, n.tasks[u].at)
    {
      if u in m.tasks {
        assert n.tasks[u] == m.tasks[u];
        Below0(m, u);
        KeepsFinding(m, n, u);
      }
    }
  }

  /** What waits for a save in m still finds the credentials saved in n, or is not over. */
  lemma KeepsFinding(m: State, n: State, u: Id)
    requires Grew(m, n) && u in m.tasks && FindsSaved(m, m.tasks[u].at)
    requires Awaited(m.tasks[u].at).Some? && Below(m.tasks[u].at) == 0 ==> Awaited(m.tasks[u].at).value in m.tasks
    ensures FindsSaved(n, m.tasks[u].at)
  {
  }

  lemma LogoutCallStarts(s: State, e: Event)
    requires Linked(s, {}) && e.LogoutCalled? && Held(s) && s.c.refresh.None?
    ensures EntersRight(s, e, FinishLogout(Spawn(Stop(s), s.c.generation + 1, LogoutRevoke), s.next))
  {
    hide Linked, StartPersist, Grew;
    FreshNext(s, {});
    SameLinks(s, {}, Stop(s));
    PlainWaits(Stop(s), s.next, LogoutRevoke);
    SpawnLinks(Stop(s), {}, s.c.generation + 1, LogoutRevoke);
    var b := Spawn(Stop(s), s.c.generation + 1, LogoutRevoke);
    var s1 := SetCreds(b, s.c.key, None);
    var m := s1.(c := s1.c.(access := None, status := SignedOut));
    SameLinks(b, {}, m);
    StartPersistLinks(m, {});
    LogoutEnters(s, e, m, StartPersist(m));
  }

  lemma LogoutEnters(s: State, e: Event, b: State, m: State)
    requires s.next !in s.tasks && b.tasks.Keys == s.tasks.Keys + {s.next} && b.next == s.next + 1
    requires AllStay(s, b) && b.tasks[s.next].at.LogoutRevoke? && Grew(b, m) && (Passed(m, b.next) ==> !m.c.dirty)
    requires e.LogoutCalled? && SessionEnds(s, e)
    ensures EntersRight(s, e, At(m, s.next, LogoutPersist(b.next)))
  {
    hide Starting, Below, SessionEnds;
  }

  /** One more activation, which awaits nobody. */
  lemma NewcomerEnters(s: State, e: Event, n: State, at: Point)
    requires s.next !in s.tasks && n.tasks.Keys == s.tasks.Keys + {s.next} && AllStay(s, n) && n.tasks[s.next].at == at
    requires Awaited(at).None? && (Starting(at) || (at.RemoveSave? && e.RemoveCalled?))
    ensures EntersRight(s, e, n)
  {
    hide Starting;
  }

  lemma RemoveCallStarts(s: State, e: Event)
    requires s.next !in s.tasks && e.RemoveCalled?
    ensures EntersRight(s, e, ApiRemove(s))
  {
    hide EntersRight;
    NothingStarts(s, e, s);
    if Held(s) {
      RemoverStands(s);
      NewcomerEnters(s, e, ApiRemove(s), ApiRemove(s).tasks[s.next].at);
    }
  }

  lemma RemoverStands(s: State)
    requires s.next !in s.tasks && Held(s)
    ensures var n := ApiRemove(s);
            && n.tasks.Keys == s.tasks.Keys + {s.next} && AllStay(s, n)
            && (n.tasks[s.next].at.RemoveRevoke? || n.tasks[s.next].at.RemoveSave? || n.tasks[s.next].at.Done?)
  {
  }

  lemma LoginCallStarts(s: State, e: Event)
    requires s.next !in s.tasks && e.LoginCalled?
    ensures EntersRight(s, e, ApiLogin(s))
  {
    hide EntersRight;
    NothingStarts(s, e, s);
    if LoginBegins(s, e) {
      NewcomerEnters(s, e, ApiLogin(s), LoginVerify);
    }
  }

  lemma SessionCallStarts(s: State, e: Event)
    requires Linked(s, {}) && (e.LoginCalled? || e.CancelLoginCalled? || e.LogoutCalled? || e.RemoveCalled? || e.CloseCalled?)
    ensures EntersRight(s, e, Step(s, e))
  {
    hide Linked, EntersRight, FinishLogout, ApiLogin, ApiRemove;
    FreshNext(s, {});
    if e.LogoutCalled? {
      if Held(s) && s.c.refresh.None? {
        LogoutCallStarts(s, e);
      } else if Held(s) {
        NewcomerEnters(s, e, Spawn(Stop(s), s.c.generation + 1, LogoutRevoke), LogoutRevoke);
      } else {
        NothingStarts(s, e, s);
      }
    } else if e.LoginCalled? {
      LoginCallStarts(s, e);
    } else if e.RemoveCalled? {
      RemoveCallStarts(s, e);
    } else {
      NothingStarts(s, e, Step(s, e));
    }
  }

  lemma ConnectCallStarts(s: State, e: Event)
    requires Linked(s, {}) && (e.ResumeCalled? || e.SnapshotCalled? || e.RequestCalled? || e.TimerFired?)
    ensures EntersRight(s, e, Step(s, e))
  {
    hide Linked, Grew, ConnectInBackground, StartSync, StartRequest, EntersRight;
    NothingStarts(s, e, s);
    if e.ResumeCalled? {
      SameLinks(s, {}, Stop(s));
      BackgroundLinks(Stop(s), {}, Stop(s).c.generation);
      BackgroundEnters(s, e, Stop(s));
    } else if e.SnapshotCalled? {
      BackgroundLinks(s, {}, s.c.generation);
      StartSyncLinks(s, {});
      var m := ConnectInBackground(s, s.c.generation);
      StartSyncLinks(m, {});
      GrewTwice(s, e, m, StartSync(m));
      GrewStarts(s, e, StartSync(s));
    } else if e.RequestCalled? {
      StartRequestLinks(s, {});
      GrewStarts(s, e, StartRequest(s));
    } else {
      var m := s.(c := s.c.(timer := None));
      SameLinks(s, {}, m);
      BackgroundLinks(m, {}, s.c.generation);
      BackgroundEnters(s, e, m);
      NothingStarts(s, e, m);
    }
  }

  lemma BackgroundEnters(s: State, e: Event, b: State)
    requires b.tasks == s.tasks && Grew(b, ConnectInBackground(b, b.c.generation))
    ensures EntersRight(s, e, ConnectInBackground(b, b.c.generation))
  {
    hide ConnectInBackground, Starting, FindsSaved;
  }

  lemma WriteStarts(s: State, e: Event)
    requires e.WriteSettled?
    ensures EntersRight(s, e, Settle(s, e.ok))
  {
    hide EntersRight, Settle;
    SettleAlone(s, e.ok);
    NothingStarts(s, e, Settle(s, e.ok));
  }

  lemma SettleAlone(s: State, ok: bool)
    ensures StartsNobody(s, Settle(s, ok))
  {
    hide Settle;
    WriteGoes(s, ok);
    SettleKeys(s, ok);
  }

  lemma SettleKeys(s: State, ok: bool)
    ensures Settle(s, ok).tasks.Keys == s.tasks.Keys
  {
    hide PersistLoop;
    if s.disk.queue != [] && s.disk.queue[0].owner.ByPersist? && s.disk.queue[0].owner.t in s.tasks {
      var w, p := s.disk.queue[0], Popped(s, ok);
      var s1 := if p.c.saving == Some(w.op) then p.(c := p.c.(saving := None)) else p;
      var s2 := At(s1, w.owner.t, Begin);
      LoopKeys(if Creds(p.c) == w.owner.captured then s2.(c := s2.c.(dirty := false)) else s2, w.owner.t);
    }
  }

  lemma QuietStarts(s: State, e: Event)
    requires e.SocketOpened? || e.SocketLost? || e.OtherSaved? || e.StoreChanged?
    ensures EntersRight(s, e, Step(s, e))
  {
    hide EntersRight;
    NothingStarts(s, e, Step(s, e));
  }

  /** Whatever happens, new activations stand at their first stretch, and none awaits a save it did not just start. */
  lemma StepStarts(s: State, e: Event)
    requires Linked(s, {})
    ensures EntersRight(s, e, Step(s, e))
  {
    hide Linked, EntersRight, Step;
    if e.Advanced? {
      if Acts(s, e) {
        AdvanceStarts(s, e);
        AdvanceIsStep(s, e);
      } else {
        NobodyMoves(s, e);
        NothingStarts(s, e, s);
      }
    } else if e.WriteSettled? {
      WriteStarts(s, e);
      SettleIsStep(s, e);
    } else if e.SocketOpened? || e.SocketLost? || e.OtherSaved? || e.StoreChanged? {
      QuietStarts(s, e);
    } else if e.ResumeCalled? || e.SnapshotCalled? || e.RequestCalled? || e.TimerFired? {
      ConnectCallStarts(s, e);
    } else {
      SessionCallStarts(s, e);
    }
  }
}
