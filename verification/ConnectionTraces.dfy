/** What lies behind the state of an activation: which events of the run brought it there, and what they found. */
module ConnectionTraces {
  import opened Option
  import opened ConnectionModel
  import opened ConnectionInvariants
  import opened ConnectionEffects
  import opened ConnectionActivations
  import opened ConnectionProgress
  import opened ConnectionStarts

  /** What holds of every reachable state. */
  predicate Reached(s: State) { Inv(s) && AbortedAreOld(s) && Linked(s, {}) }

  lemma RunReaches(start: State, es: seq<Event>)
    requires Initial(start)
    ensures Reached(Run(start, es))
  {
    hide Inv, AbortedAreOld, Linked, Run;
    RunKeepsActivations(start, es);
    RunIsLinked(start, es);
  }

  lemma LastStep(start: State, es: seq<Event>)
    requires es != []
    ensures Run(start, es) == Step(Run(start, es[..|es| - 1]), es[|es| - 1])
  {
  }

  /** The state before event k. */
  function Before(start: State, es: seq<Event>, k: int): State
    requires 0 <= k <= |es|
  {
    Run(start, es[..k])
  }

  lemma BeforeNext(start: State, es: seq<Event>, k: int)
    requires 0 <= k < |es|
    ensures Before(start, es, k + 1) == Step(Before(start, es, k), es[k])
  {
    LastStep(start, es[..k + 1]);
    assert es[..k + 1][..k] == es[..k];
  }

  lemma BeforeShorter(start: State, es: seq<Event>, n: int, k: int)
    requires 0 <= k <= n <= |es|
    ensures Before(start, es[..n], k) == Before(start, es, k)
  {
    assert es[..n][..k] == es[..k];
  }

  // ---------------------------------------------------------------- access

  predicate Arrives(start: State, es: seq<Event>, k: int) { 0 <= k < |es| && TokensArrive(Before(start, es, k), es[k]) }

  predicate Ends(start: State, es: seq<Event>, k: int) { 0 <= k < |es| && SessionEnds(Before(start, es, k), es[k]) }

  predicate Rejected(start: State, es: seq<Event>, k: int) { 0 <= k < |es| && AccessRejected(Before(start, es, k), es[k]) }

  /** Event k stored the tokens in force: none came, was cleared or was rejected since. */
  predicate LastArrival(start: State, es: seq<Event>, k: int) {
    && Arrives(start, es, k)
    && forall l :: k < l < |es| ==> !Arrives(start, es, l) && !Ends(start, es, l) && !Rejected(start, es, l)
  }

  lemma LaterStep(start: State, es: seq<Event>, k: int)
    requires es != [] && 0 <= k < |es| - 1
    ensures Arrives(start, es, k) == Arrives(start, es[..|es| - 1], k)
    ensures Ends(start, es, k) == Ends(start, es[..|es| - 1], k)
    ensures Rejected(start, es, k) == Rejected(start, es[..|es| - 1], k)
  {
    hide TokensArrive, SessionEnds, AccessRejected, Run;
    BeforeShorter(start, es, |es| - 1, k);
  }

  /** An access token is that of the last token exchange of the run, with the lifetime it was given. */
  lemma {:induction false} AccessCameFrom(start: State, es: seq<Event>) returns (k: int)
    requires Initial(start) && Run(start, es).c.access.Some?
    ensures LastArrival(start, es, k)
    ensures var c := Run(start, es).c;
            && c.access == Some(es[k].i.access) && c.refresh == Some(es[k].i.refresh)
            && c.expiresAt == es[k].i.now + es[k].i.lifetime * 1000
    decreases |es|
  {
    hide Step, Inv, AbortedAreOld, Linked, TokensArrive, SessionEnds, AccessRejected, KeyIsMade, Acknowledged, Sessions, Shows,
      Presence;
    if es == [] {
      assert false;
    } else {
      var n := |es| - 1;
      var s, e := Run(start, es[..n]), es[n];
      LastStep(start, es);
      RunReaches(start, es[..n]);
      hide Run;
      StepEffects(s, e);
      forall l | 0 <= l < n
        ensures Arrives(start, es, l) == Arrives(start, es[..n], l) && Ends(start, es, l) == Ends(start, es[..n], l)
        ensures Rejected(start, es, l) == Rejected(start, es[..n], l)
      {
        LaterStep(start, es, l);
      }
      if TokensArrive(s, e) {
        k := n;
      } else {
        k := AccessCameFrom(start, es[..n]);
      }
    }
  }

  /** The activation waits for the pending credential save, which has succeeded, in its own session. */
  predicate MayUseAccess(s: State, t: Id) {
    && t in s.tasks && s.tasks[t].at.EnsurePersist? && Passed(s, s.tasks[t].at.t)
    && !s.closed && s.live && s.tasks[t].gen == s.c.generation
  }

  /**
    After the pending save ensureAccess is done exactly when the access token lives for more than thirty seconds. Else it
    joins the refresh under way; or starts one, the only new activation, which has its generation; or without a refresh
    token asks to sign in.
   */
  lemma EnsureAccessIff(s: State, t: Id, i: Input)
    requires Inv(s) && MayUseAccess(s, t)
    ensures var n, gen := Step(s, Advanced(t, i)), s.tasks[t].gen;
            if s.c.access.Some? && s.c.expiresAt > i.now + 30000 then n.tasks == s.tasks[t := Task(gen, Done(Ok))]
            else if s.c.refreshing.Some? then n.tasks == s.tasks[t := Task(gen, EnsureJoin(s.c.refreshing.value))]
            else if s.c.refresh.Some? then
              && s.next !in s.tasks && n.c.refreshing == Some(s.next)
              && n.tasks == s.tasks[s.next := Task(gen, RefreshVerify)][t := Task(gen, EnsureOwn(s.next))]
            else n.tasks == s.tasks[t := Task(gen, Done(Err(Http(401, false))))]
  {
    NextIsFresh(s);
    hide Inv;
  }

  /**
    When ensureAccess lets a request go at once, the token it will carry was stored by an exchange of this run, was not
    cleared or rejected since, and still lives for more than thirty seconds by the lifetime that exchange gave it.
   */
  lemma UsedTokenIsAlive(start: State, es: seq<Event>, t: Id, i: Input) returns (k: int)
    requires Initial(start) && MayUseAccess(Run(start, es), t)
    requires Step(Run(start, es), Advanced(t, i)).tasks[t].at == Done(Ok)
    ensures LastArrival(start, es, k) && Run(start, es).c.access == Some(es[k].i.access)
    ensures es[k].i.now + es[k].i.lifetime * 1000 > i.now + 30000
  {
    hide Inv, Run, LastArrival;
    Reachable(start, es);
    EnsureAccessIff(Run(start, es), t, i);
    k := AccessCameFrom(start, es);
  }

  /** A refresh joined or started by ensureAccess is the only one in flight, and has an owner that gives back its slot. */
  lemma OneRefresh(start: State, es: seq<Event>, t: Id)
    requires Initial(start) && t in Run(start, es).tasks
    requires Run(start, es).tasks[t].at.EnsureJoin? || Run(start, es).tasks[t].at.EnsureOwn?
    ensures var s := Run(start, es); var op := s.tasks[t].at.op;
            && op in s.tasks && (s.tasks[op].at.Done? || Exchanging(s.tasks[op].at))
            && (Exchanging(s.tasks[op].at) ==>
                  && s.c.refreshing == Some(op) && Somebody(s, EnsureOwn(op))
                  && forall u :: u in s.tasks && Exchanging(s.tasks[u].at) ==> u == op)
  {
    hide Run, SlotsOwned;
    RunReaches(start, es);
    var s := Run(start, es);
    assert Waits(s, t, s.tasks[t].at);
    OwnedSlots(s, {});
    assert forall u :: u in s.tasks ==> TaskOk(s, u);
  }

  // ---------------------------------------------------------------- order

  /** How far a request is: it may be sent again once. */
  function Stretch(at: Point): int {
    match at
    case RequestEnsure(_, retry) => if retry then 2 else 0
    case RequestSend(retry) => if retry then 3 else 1
    case Done(_) => 4
    case _ => -1
  }

  lemma StretchGrows(s: State, e: Event, t: Id)
    requires Inv(s) && AbortedAreOld(s) && t in s.tasks && Stretch(s.tasks[t].at) >= 0
    ensures var n := Step(s, e);
            && t in n.tasks && Stretch(n.tasks[t].at) >= Stretch(s.tasks[t].at)
            && (e.Advanced? && e.t == t && s.tasks[t].at.RequestSend? ==>
                  && Stretch(n.tasks[t].at) > Stretch(s.tasks[t].at)
                  && (!n.tasks[t].at.Done? ==> AccessRejected(s, e)))
  {
    hide Inv, AbortedAreOld, Step;
    WhoMoves(s, e);
  }

  lemma {:induction false} StretchThrough(start: State, es: seq<Event>, t: Id, j: int, k: int)
    requires Initial(start) && 0 <= j <= k <= |es|
    requires t in Before(start, es, j).tasks && Stretch(Before(start, es, j).tasks[t].at) >= 0
    ensures t in Before(start, es, k).tasks
    ensures Stretch(Before(start, es, k).tasks[t].at) >= Stretch(Before(start, es, j).tasks[t].at)
    decreases k
  {
    hide Run, Step, Inv, AbortedAreOld, Linked, AccessRejected;
    if j < k {
      StretchThrough(start, es, t, j, k - 1);
      RunReaches(start, es[..k - 1]);
      BeforeNext(start, es, k - 1);
      StretchGrows(Before(start, es, k - 1), es[k - 1], t);
    }
  }

  /** The event is the reply to a sending of request t. */
  predicate Answers(start: State, es: seq<Event>, t: Id, k: int) {
    && 0 <= k < |es| && es[k].Advanced? && es[k].t == t
    && t in Before(start, es, k).tasks && Before(start, es, k).tasks[t].at.RequestSend?
  }

  /**
    A request is sent at most twice, and the second time only because the server rejected the access token of the first
    in the same session: of two replies the first was that rejection and the second ends the request.
   */
  lemma SentAtMostTwice(start: State, es: seq<Event>, t: Id, j: int, k: int)
    requires Initial(start) && j < k && Answers(start, es, t, j) && Answers(start, es, t, k)
    ensures Before(start, es, j).tasks[t].at == RequestSend(false) && Rejected(start, es, j)
    ensures Before(start, es, k).tasks[t].at == RequestSend(true)
    ensures Step(Before(start, es, k), es[k]).tasks[t].at.Done?
  {
    hide Run, Step, Inv, AbortedAreOld, Linked, AccessRejected;
    RunReaches(start, es[..j]);
    RunReaches(start, es[..k]);
    BeforeNext(start, es, j);
    StretchGrows(Before(start, es, j), es[j], t);
    StretchThrough(start, es, t, j + 1, k);
    StretchGrows(Before(start, es, k), es[k], t);
  }

  // ---------------------------------------------------------------- the server is verified first

  /** The points behind the check of the server's identity. */
  predicate Behind(at: Point) {
    || at.RefreshExchange? || at.RefreshStore? || at.OpenSync? || at.OpenTicket? || at.LoginPersist? || at.LoginAuthorize?
    || at.LoginStore? || at.LoginConnect?
  }

  /** Event k confirmed the server's identity to activation t, whose session was not over. */
  predicate Verified(start: State, es: seq<Event>, t: Id, k: int) {
    && 0 <= k < |es| && es[k].Advanced? && es[k].t == t && es[k].i.failure.None?
    && var s := Before(start, es, k);
       && t in s.tasks && s.tasks[t].gen == s.c.generation
       && (s.tasks[t].at.RefreshVerify? || s.tasks[t].at.OpenVerify? || s.tasks[t].at.LoginVerify?)
  }

  lemma BehindStep(s: State, e: Event, t: Id)
    requires Inv(s) && AbortedAreOld(s) && Linked(s, {}) && t in Step(s, e).tasks && Behind(Step(s, e).tasks[t].at)
    ensures t in s.tasks
    ensures Behind(s.tasks[t].at)
            || (e.Advanced? && e.t == t && e.i.failure.None? && s.tasks[t].gen == s.c.generation
                && (s.tasks[t].at.RefreshVerify? || s.tasks[t].at.OpenVerify? || s.tasks[t].at.LoginVerify?))
  {
    hide Inv, AbortedAreOld, Linked, Step;
    StepStarts(s, e);
    WhoMoves(s, e);
  }

  /**
    Before an activation exchanges tokens, fetches a snapshot or a ticket for the event connection, or goes to the
    browser, an event of the run confirmed the server's identity to it in its own session.
   */
  lemma {:induction false} VerifiedFirst(start: State, es: seq<Event>, t: Id) returns (k: int)
    requires Initial(start) && t in Run(start, es).tasks && Behind(Run(start, es).tasks[t].at)
    ensures Verified(start, es, t, k)
    decreases |es|
  {
    hide Step, Inv, AbortedAreOld, Linked, Behind;
    if es == [] {
      assert false;
    } else {
      var n := |es| - 1;
      LastStep(start, es);
      RunReaches(start, es[..n]);
      hide Run;
      BehindStep(Run(start, es[..n]), es[n], t);
      if Behind(Run(start, es[..n]).tasks[t].at) {
        k := VerifiedFirst(start, es[..n], t);
        BeforeShorter(start, es, n, k);
      } else {
        k := n;
      }
    }
  }

  // ---------------------------------------------------------------- nothing is used before it is stored

  /** The save of credentials that an activation awaits. */
  function SaveAwaited(at: Point): Option<Id> { if Below(at) == 0 then Awaited(at) else None }

  /** At some moment since save p began nothing was owed to the store. */
  predicate CleanSince(start: State, es: seq<Event>, p: Id, k: int) {
    0 <= k <= |es| && p in Before(start, es, k).tasks && !Before(start, es, k).c.dirty
  }

  lemma SaveStep(s: State, e: Event, t: Id)
    requires Inv(s) && AbortedAreOld(s) && Linked(s, {}) && t in Step(s, e).tasks
    requires var n := Step(s, e); var p := SaveAwaited(n.tasks[t].at); p.Some? && Passed(n, p.value)
    ensures var n := Step(s, e); var p := SaveAwaited(n.tasks[t].at).value;
            || !n.c.dirty || (p in s.tasks && !s.c.dirty)
            || (t in s.tasks && s.tasks[t].at == n.tasks[t].at && Passed(s, p))
  {
    hide Inv, AbortedAreOld, Linked, Step;
    StepStarts(s, e);
    var n := Step(s, e);
    var p := SaveAwaited(n.tasks[t].at).value;
    if t in s.tasks && s.tasks[t].at == n.tasks[t].at && !Passed(s, p) {
      Below0(s, t);
      SaverStep(s, e, p);
    }
  }

  /** A save ends well only when nothing is owed any more. */
  lemma SaverStep(s: State, e: Event, p: Id)
    requires Inv(s) && AbortedAreOld(s) && Linked(s, {}) && OnLayer(s, p, 0) && !Passed(s, p) && Passed(Step(s, e), p)
    ensures !Step(s, e).c.dirty || !s.c.dirty
  {
    hide Inv, AbortedAreOld, Linked, Step;
    Below0(s, p);
    WhoMoves(s, e);
  }

  /**
    When the save that an activation awaits has succeeded - ensureAccess before it uses a token, a refresh or a sign-in
    before it is done, a logout before it ends - there was a moment since that save began at which the store owed nothing.
   */
  lemma {:induction false} StoredFirst(start: State, es: seq<Event>, t: Id) returns (k: int)
    requires Initial(start) && t in Run(start, es).tasks
    requires var s := Run(start, es); var p := SaveAwaited(s.tasks[t].at); p.Some? && Passed(s, p.value)
    ensures CleanSince(start, es, SaveAwaited(Run(start, es).tasks[t].at).value, k)
    decreases |es|
  {
    hide Step, Inv, AbortedAreOld, Linked, Awaited, Below;
    if es == [] {
      assert false;
    } else {
      var n := |es| - 1;
      LastStep(start, es);
      RunReaches(start, es[..n]);
      assert es[..|es|] == es;
      var s := Run(start, es[..n]);
      var p := SaveAwaited(Run(start, es).tasks[t].at).value;
      hide Run;
      SaveStep(s, es[n], t);
      if !Run(start, es).c.dirty {
        k := |es|;
      } else if p in s.tasks && !s.c.dirty {
        k := n;
      } else {
        k := StoredFirst(start, es[..n], t);
        BeforeShorter(start, es, n, k);
      }
    }
  }

  // ---------------------------------------------------------------- what a logout leaves

  /** Every exchange that succeeded since event k was followed by the end of another session. */
  predicate AllEnded(start: State, es: seq<Event>, k: int) {
    forall l :: k < l < |es| && Arrives(start, es, l) ==> exists m :: l < m < |es| && Ends(start, es, m)
  }

  lemma AllEndedStep(start: State, es: seq<Event>, k: int)
    requires 0 <= k < |es| - 1
    ensures var n := |es| - 1;
            AllEnded(start, es, k) <==> Ends(start, es, n) || (!Arrives(start, es, n) && AllEnded(start, es[..n], k))
  {
    hide TokensArrive, SessionEnds, Run, Arrives, Ends;
    var n := |es| - 1;
    forall l | 0 <= l < n
      ensures Arrives(start, es, l) == Arrives(start, es[..n], l) && Ends(start, es, l) == Ends(start, es[..n], l)
    {
      LaterStep(start, es, l);
    }
    if AllEnded(start, es, k) && !Ends(start, es, n) {
      forall l | k < l < n && Arrives(start, es[..n], l)
        ensures exists m :: l < m < n && Ends(start, es[..n], m)
      {
        var m :| l < m < |es| && Ends(start, es, m);
      }
    }
    if Ends(start, es, n) {
      EndsNoArrival(start, es, n);
    }
  }

  lemma EndsNoArrival(start: State, es: seq<Event>, n: int)
    ensures !(Ends(start, es, n) && Arrives(start, es, n))
  {
    hide Run;
  }

  /** After a session has ended the refresh token is gone exactly when each token that came since ended too. */
  lemma {:induction false} RefreshAfterEnd(start: State, es: seq<Event>, k: int)
    requires Initial(start) && Ends(start, es, k)
    ensures Run(start, es).c.refresh.None? <==> AllEnded(start, es, k)
    decreases |es|
  {
    hide Step, Inv, AbortedAreOld, Linked, TokensArrive, SessionEnds, AccessRejected, KeyIsMade, Acknowledged, Sessions, Shows,
      Presence, AllEnded;
    var n := |es| - 1;
    LastStep(start, es);
    RunReaches(start, es[..n]);
    var s, e := Run(start, es[..n]), es[n];
    hide Run;
    StepEffects(s, e);
    EndsNoArrival(start, es, n);
    if k < n {
      LaterStep(start, es, k);
      RefreshAfterEnd(start, es[..n], k);
      AllEndedStep(start, es, k);
    } else {
      NothingSince(start, es, k);
    }
  }

  lemma NothingSince(start: State, es: seq<Event>, k: int)
    requires k == |es| - 1
    ensures AllEnded(start, es, k)
  {
  }

  /** An access token is never held without a refresh token. */
  lemma AccessHasRefresh(start: State, es: seq<Event>)
    requires Initial(start)
    ensures Run(start, es).c.access.Some? ==> Run(start, es).c.refresh.Some?
  {
    if Run(start, es).c.access.Some? {
      hide Run;
      var k := AccessCameFrom(start, es);
    }
  }

  lemma LogoutStep(s: State, e: Event, t: Id)
    requires Inv(s) && AbortedAreOld(s) && Linked(s, {}) && t in Step(s, e).tasks && Step(s, e).tasks[t].at.LogoutPersist?
    ensures (t in s.tasks && s.tasks[t].at.LogoutPersist?) || SessionEnds(s, e)
  {
    hide Inv, AbortedAreOld, Linked, Step;
    StepStarts(s, e);
    WhoMoves(s, e);
  }

  /** Behind a logout that waits for its save stands the event in which it ended the session; it was not there before. */
  lemma {:induction false} LogoutEndedSession(start: State, es: seq<Event>, t: Id) returns (k: int)
    requires Initial(start) && t in Run(start, es).tasks && Run(start, es).tasks[t].at.LogoutPersist?
    ensures Ends(start, es, k)
    ensures var s := Before(start, es, k); t in s.tasks ==> !s.tasks[t].at.LogoutPersist?
    ensures var s := Before(start, es, k + 1); t in s.tasks && s.tasks[t].at.LogoutPersist?
    decreases |es|
  {
    hide Step, Inv, AbortedAreOld, Linked, SessionEnds;
    if es == [] {
      assert false;
    } else {
      var n := |es| - 1;
      LastStep(start, es);
      RunReaches(start, es[..n]);
      assert es[..|es|] == es;
      var s := Run(start, es[..n]);
      hide Run;
      LogoutStep(s, es[n], t);
      if t in s.tasks && s.tasks[t].at.LogoutPersist? {
        k := LogoutEndedSession(start, es[..n], t);
        LaterStep(start, es, k);
        BeforeShorter(start, es, n, k);
        BeforeShorter(start, es, n, k + 1);
      } else {
        k := n;
      }
    }
  }

  /**
    A logout that ends well has ended the session at event k. It leaves neither token in memory exactly when every token
    exchange that succeeded since then was followed by the end of another session.
   */
  lemma LogoutLeavesNothingIff(start: State, es: seq<Event>, t: Id, i: Input) returns (k: int)
    requires Initial(start) && t in Run(start, es).tasks && Run(start, es).tasks[t].at.LogoutPersist?
    requires Run(start, es + [Advanced(t, i)]).tasks[t].at == Done(Ok)
    ensures Ends(start, es, k)
    ensures var c := Run(start, es + [Advanced(t, i)]).c;
            c.refresh.None? && c.access.None? <==> AllEnded(start, es, k)
  {
    hide Step, Inv, AbortedAreOld, Linked, AllEnded, SessionEnds, TokensArrive;
    var e := Advanced(t, i);
    assert (es + [e])[..|es|] == es;
    LastStep(start, es + [e]);
    hide Run;
    k := LogoutEndedSession(start, es, t);
    RefreshAfterEnd(start, es, k);
    AccessHasRefresh(start, es);
    RunReaches(start, es);
    LogoutEndKeeps(Run(start, es), e);
  }

  lemma LogoutEndKeeps(s: State, e: Event)
    requires Acts(s, e) && s.tasks[e.t].at.LogoutPersist?
    ensures Step(s, e).c == s.c
  {
  }

  /** No token can arrive but by a new sign-in: no refresh of this generation is under way, and no sign-in. */
  predicate NothingInFlight(s: State) {
    && s.c.login.None?
    && forall u :: u in s.tasks && (s.tasks[u].at.RefreshVerify? || s.tasks[u].at.RefreshExchange?) ==>
         s.tasks[u].gen < s.c.generation
  }

  predicate SignedOff(s: State) { s.c.refresh.None? && s.c.access.None? && NothingInFlight(s) }

  lemma NothingArrives(s: State, e: Event)
    requires Inv(s) && AbortedAreOld(s) && NothingInFlight(s)
    ensures !TokensArrive(s, e)
  {
    if Acts(s, e) && s.tasks[e.t].at.LoginAuthorize? {
      SignInIs(s, e.t);
    }
  }

  lemma SignedOffStep(s: State, e: Event)
    requires Inv(s) && AbortedAreOld(s) && Linked(s, {}) && SignedOff(s) && !LoginBegins(s, e)
    ensures SignedOff(Step(s, e))
  {
    hide Inv, AbortedAreOld, Linked, Step, LoginIsOver, SocketOpens, SocketIsLost, Retries, Stops, TokensArrive, SessionEnds,
      AccessRejected, KeyIsMade, Acknowledged, Shows, Presence, LoginBegins;
    NothingArrives(s, e);
    StepEffects(s, e);
    NoExchangeBegins(s, e);
  }

  lemma NoExchangeBegins(s: State, e: Event)
    requires Inv(s) && AbortedAreOld(s) && Linked(s, {}) && SignedOff(s) && Step(s, e).c.generation >= s.c.generation
    ensures var n := Step(s, e);
            forall u :: u in n.tasks && (n.tasks[u].at.RefreshVerify? || n.tasks[u].at.RefreshExchange?) ==>
              n.tasks[u].gen < n.c.generation
  {
    hide Inv, AbortedAreOld, Linked, Step;
    StepStarts(s, e);
    StepEvolves(s, e);
    WhoMoves(s, e);
  }

  /**
    A session that ended while no refresh of its generation was under way, and no sign-in, stays ended: until a new
    sign-in begins there is no token in memory, whatever else happens.
   */
  lemma {:induction false} EndedStaysEnded(start: State, es: seq<Event>, k: int)
    requires Initial(start) && Ends(start, es, k) && NothingInFlight(Before(start, es, k + 1))
    requires forall l :: k < l < |es| ==> !LoginBegins(Before(start, es, l), es[l])
    ensures SignedOff(Run(start, es))
    decreases |es|
  {
    hide Step, Inv, AbortedAreOld, Linked, TokensArrive, SessionEnds, SignedOff, LoginBegins, NothingInFlight;
    var n := |es| - 1;
    LastStep(start, es);
    RunReaches(start, es[..n]);
    assert es[..|es|] == es;
    var s, e := Run(start, es[..n]), es[n];
    hide Run;
    if k < n {
      LaterStep(start, es, k);
      BeforeShorter(start, es, n, k + 1);
      forall l | k < l < n
        ensures !LoginBegins(Before(start, es[..n], l), es[..n][l])
      {
        BeforeShorter(start, es, n, l);
      }
      EndedStaysEnded(start, es[..n], k);
      SignedOffStep(s, e);
    } else {
      JustEnded(s, e);
    }
  }

  lemma JustEnded(s: State, e: Event)
    requires Inv(s) && AbortedAreOld(s) && SessionEnds(s, e) && NothingInFlight(Step(s, e))
    ensures SignedOff(Step(s, e))
  {
    hide Inv, AbortedAreOld, Step, AccessRejected, KeyIsMade, Acknowledged, Sessions, Shows, Presence, NothingInFlight;
    StepEffects(s, e);
    assert !TokensArrive(s, e);
  }
}
