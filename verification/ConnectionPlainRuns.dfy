/**
  What happens in a run, rather than what the file and the queue then hold, that keeps a connection durable and listed:
  no clear, set, clear of its token inside one pending save, and no removal that left it out puts it back.
 */
module ConnectionPlainRuns {
  import opened Option
  import opened ConnectionModel
  import opened ConnectionInvariants
  import opened ConnectionDurability

  // ---------------------------------------------------------------- clear, set, clear

  /** The save that ends was taken signed out, as the connection is again; in between it held a token. */
  predicate ClearSetClear(s: State, e: Event) {
    && BecomesClean(s, e) && s.disk.queue != [] && s.c.refresh.None?
    && exists k :: s.disk.queue[0].version <= k < |s.history| && 0 <= k && s.history[k].refresh.Some?
  }

  /** A signed-out connection that owes nothing, in the map or out of it, has no token in the file or the queue. */
  predicate Tidy(s: State) {
    !s.c.dirty && s.c.refresh.None? ==>
      !HoldsToken(s.disk.file) && forall i :: 0 <= i < |s.disk.queue| ==> !HoldsToken(s.disk.queue[i].record)
  }

  /** The oldest write was taken with the credentials in memory, and no token was held since: no snapshot holds one. */
  lemma NoTokenSince(s: State, i: int)
    requires Ledger(s) && 0 <= i < |s.disk.queue| && s.c.refresh.None?
    requires s.disk.queue[0].owner.ByPersist? && s.disk.queue[0].owner.captured == Creds(s.c)
    requires forall k :: s.disk.queue[0].version <= k < |s.history| && 0 <= k ==> s.history[k].refresh.None?
    ensures !HoldsToken(s.disk.queue[i].record)
  {
    assert s.disk.queue[0].version <= s.disk.queue[i].version;
  }

  lemma BecomingCleanIsTidy(s: State, e: Event)
    requires Inv(s) && Ledger(s) && BecomesClean(s, e) && !ClearSetClear(s, e)
    ensures Tidy(Step(s, e))
  {
    hide Inv, Ledger, Step, HoldsToken;
    CleanMomentIsDurable(s, e);
    if s.c.refresh.None? {
      forall i | 0 <= i < |s.disk.queue|
        ensures !HoldsToken(s.disk.queue[i].record)
      {
        NoTokenSince(s, i);
      }
    }
  }

  lemma TidyStays(s: State, e: Event)
    requires Inv(s) && Ledger(s) && Tidy(s) && !ClearSetClear(s, e)
    ensures Tidy(Step(s, e))
  {
    if BecomesClean(s, e) {
      hide Inv, Ledger, Step, Tidy;
      BecomingCleanIsTidy(s, e);
    } else if !e.WriteSettled? {
      hide Inv, Ledger, Step;
      StepMoves(s, e);
    } else if s.disk.queue != [] {
      hide Inv, Ledger, Continue;
      ContinueCalls(Popped(s, e.ok), s.disk.queue[0], e.ok);
    }
  }

  /** What is tidy recurs only after a clear, set, clear. */
  lemma TidyDoesNotRecur(s: State, e: Event)
    requires Inv(s) && Ledger(s) && Tidy(s) && !ClearSetClear(s, e)
    ensures !Recurs(s, e)
  {
    hide Inv, Ledger, Step, MakesClean, HoldsToken, FileAfter, QueueAfter;
    TidyStays(s, e);
    if MakesClean(s, e) {
      NewlyCleanOnlyBy(s, e);
      var s' := Step(s, e);
      assert forall w :: w in QueueAfter(s, e) ==> exists i :: 0 <= i < |s'.disk.queue| && s'.disk.queue[i] == w;
    }
  }

  predicate NeverClearSetClear(s: State, es: seq<Event>)
    decreases |es|
  {
    es == [] || (NeverClearSetClear(s, es[..|es| - 1]) && !ClearSetClear(Run(s, es[..|es| - 1]), es[|es| - 1]))
  }

  predicate NeverLoses(s: State, es: seq<Event>)
    decreases |es|
  {
    es == [] || (NeverLoses(s, es[..|es| - 1]) && !Loses(Run(s, es[..|es| - 1]), es[|es| - 1]))
  }

  lemma InitiallyTidy(s: State)
    requires Initial(s)
    ensures Inv(s) && Ledger(s) && Tidy(s)
  {
    hide Inv, Ledger, Unrepeated, Fitting, Clean;
    InitialIsKept(s);
  }

  lemma {:induction false} PlainRunIsOrderly(start: State, es: seq<Event>)
    requires Initial(start) && NeverClearSetClear(start, es) && NeverLoses(start, es)
    ensures Inv(Run(start, es)) && Ledger(Run(start, es)) && Tidy(Run(start, es)) && Orderly(start, es)
    decreases |es|
  {
    hide Inv, Ledger, Tidy, Step, ClearSetClear, Loses, Recurs;
    InitiallyTidy(start);
    if es != [] {
      var before, e := es[..|es| - 1], es[|es| - 1];
      PlainRunIsOrderly(start, before);
      var s := Run(start, before);
      StepKeeps(s, e);
      StepKeepsLedger(s, e);
      TidyStays(s, e);
      TidyDoesNotRecur(s, e);
    }
  }

  /**
    With fresh tokens, no clear, set, clear inside one pending save and no loss, the stored record of a clean connection
    in the manager gives back its credentials.
   */
  lemma PlainRunIsDurable(start: State, es: seq<Event>)
    requires Initial(start) && FreshTokens(start, es) && NeverClearSetClear(start, es) && NeverLoses(start, es)
    ensures var s := Run(start, es);
            s.live && !s.c.dirty ==> Durable(s.disk.file) == Creds(s.c)
  {
    hide FreshTokens, Orderly, NeverClearSetClear, NeverLoses, Run, Tidy, Inv, Ledger;
    PlainRunIsOrderly(start, es);
    CleanIsDurable(start, es);
  }

  // ---------------------------------------------------------------- whether the connection is in the file at all

  /** The first save of a connection just added has still to end. */
  predicate AddPending(queue: seq<Write>) { queue != [] && queue[0].owner.ByAdd? }

  /** A connection in the manager is in every snapshot still to be written and, once it was saved, in the file. */
  predicate Listed(s: State) {
    s.live ==>
      && (s.disk.file.Some? || AddPending(s.disk.queue))
      && (forall w :: w in s.disk.queue ==> w.record.Some?)
  }

  /** A removal failed, which puts the connection back. */
  predicate Returns(s: State, e: Event) {
    || (e.WriteSettled? && s.disk.queue != [] && PutsBack(s, s.disk.queue[0], e.ok))
    || PutsBackAtOnce(s, e)
  }

  /** The connection comes back while it is missing from the file or from a snapshot still to be written. */
  predicate Drops(s: State, e: Event) {
    && !s.live && Returns(s, e)
    && ((FileAfter(s, e).None? && !AddPending(QueueAfter(s, e))) || exists w :: w in QueueAfter(s, e) && w.record.None?)
  }

  lemma BackOnlyBy(s: State, e: Event)
    requires !s.live
    ensures Step(s, e).live <==> Returns(s, e)
    ensures Returns(s, e) ==> Step(s, e).disk.file == FileAfter(s, e) && Step(s, e).disk.queue == QueueAfter(s, e)
  {
    if e.WriteSettled? {
      hide Continue;
      if s.disk.queue != [] {
        WriteMakesClean(Popped(s, e.ok), s.disk.queue[0], e.ok);
      }
    } else if e.Advanced? && e.t in s.tasks && s.tasks[e.t].at.RemoveRevoke? {
      hide FinishRemove;
      RemovalMoves(s, e.t);
    } else {
      hide Step;
      StepMoves(s, e);
    }
  }

  /** A write that ends while the connection is in the map leaves it listed. */
  lemma WriteKeepsListed(s: State, ok: bool)
    requires s.live && Listed(s)
    ensures Listed(Step(s, WriteSettled(ok)))
  {
    hide Continue;
    if s.disk.queue != [] {
      var w := s.disk.queue[0];
      ContinueCalls(Popped(s, ok), w, ok);
      if w.owner.ByAdd? && !ok {
        FailedAddIsGone(Popped(s, ok), w, ok);
      }
      assert w in s.disk.queue;
    }
  }

  lemma FailedAddIsGone(s: State, w: Write, ok: bool)
    requires w.owner.ByAdd? && !ok
    ensures !Continue(s, w, ok).live
  {
  }

  /** One event keeps a listed connection listed exactly when it does not drop it. */
  lemma StepIsListedIff(s: State, e: Event)
    requires Listed(s)
    ensures Listed(Step(s, e)) <==> !Drops(s, e)
  {
    if !s.live {
      hide Step, Returns, FileAfter, QueueAfter;
      BackOnlyBy(s, e);
    } else if e.WriteSettled? {
      hide Step, Listed;
      WriteKeepsListed(s, e.ok);
    } else {
      hide Step;
      StepMoves(s, e);
    }
  }

  predicate NeverDrops(s: State, es: seq<Event>)
    decreases |es|
  {
    es == [] || (NeverDrops(s, es[..|es| - 1]) && !Drops(Run(s, es[..|es| - 1]), es[|es| - 1]))
  }

  /** A run from a loaded or added connection lists it at every moment exactly when no event drops it. */
  lemma {:induction false} ListedThroughoutIff(start: State, es: seq<Event>)
    requires Initial(start)
    ensures NeverDrops(start, es) <==> forall k :: 0 <= k <= |es| ==> Listed(Run(start, es[..k]))
    decreases |es|
  {
    if es != [] {
      hide Step, Drops, Listed, Run;
      var before, e := es[..|es| - 1], es[|es| - 1];
      ListedThroughoutIff(start, before);
      LastStep(start, es);
      assert forall k :: 0 <= k <= |before| ==> before[..k] == es[..k];
      assert es[..|es|] == es && before[..|before|] == before;
      if Listed(Run(start, before)) {
        StepIsListedIff(Run(start, before), e);
      }
    } else {
      assert es[..0] == es;
    }
  }

  /** In such a run, once its first save has ended, a clean connection is in the file with exactly its credentials. */
  lemma CleanIsStored(start: State, es: seq<Event>)
    requires Initial(start) && FreshTokens(start, es) && Orderly(start, es) && NeverDrops(start, es)
    ensures var s := Run(start, es);
            s.live && !s.c.dirty && !AddPending(s.disk.queue) ==> s.disk.file == Some(Creds(s.c))
  {
    hide FreshTokens, Orderly, NeverDrops, Run;
    CleanIsDurable(start, es);
    ListedThroughoutIff(start, es);
    assert es[..|es|] == es;
  }
}
