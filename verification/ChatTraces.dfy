/**
  What each event changes in the remote chat, field by field, and which snapshot a command rests on. Nothing here speaks
  of the controller's own functions but its step.
 */
module ChatTraces {
  import opened Option
  import opened Strings
  import opened NodeChat

  // ---------------------------------------------------------------- the effects of one event

  /** The connection is listed with the node, and can be used or is coming back. */
  predicate Reachable(list: Option<Option<Server>>, nodeId: string) {
    && list.Some? && list.value.Some? && list.value.value.nodeId == nodeId
    && (list.value.value.status == "online" || list.value.value.status == "reconnecting")
  }

  /** An opening call that nothing overtook sees its connection online with the same node again. */
  predicate Selects(s: State, e: Event) {
    && e.OpenConfirmed? && IsOpen(s, e.task, Confirming)
    && s.tasks[e.task].serial == s.selectionSerial && s.tasks[e.task].epoch == s.connectionEpoch
    && e.list == Some(Some(Server("online", s.tasks[e.task].nodeId)))
  }

  /** The reply is one that a refresh of the open conversation waits for, and no connection changed meanwhile. */
  predicate Refreshing(s: State, e: Event) {
    && ((e.RefreshListed? && IsRefresh(s, e.task, Listing)) || (e.RefreshRead? && IsRefresh(s, e.task, Reading))
        || (e.RefreshConfirmed? && IsRefresh(s, e.task, Confirming)))
    && s.context == Some(s.tasks[e.task].ctx) && s.tasks[e.task].since == s.connectionEpoch
  }

  /** The last reply of a refresh, with a connection that can be used. */
  predicate Confirms(s: State, e: Event) {
    Refreshing(s, e) && e.RefreshConfirmed? && Reachable(e.list, s.contexts[s.tasks[e.task].ctx].nodeId)
  }

  /** What a refresh has read is that of the conversation's node, complete, and names its bot. */
  predicate Shows(s: State, e: Event) {
    && Confirms(s, e)
    && var c, read := s.contexts[s.tasks[e.task].ctx], s.tasks[e.task].shown;
       read.nodeId == c.nodeId && read.complete && c.botId in read.bots
  }

  /** The connection is listed differently or not at all, or what was read is of another node or lacks the bot. */
  predicate Clears(s: State, e: Event) {
    && Refreshing(s, e)
    && var c, read := s.contexts[s.tasks[e.task].ctx], s.tasks[e.task].shown;
       || ((e.RefreshListed? || e.RefreshConfirmed?) && e.list.Some? && !Reachable(e.list, c.nodeId))
       || (Confirms(s, e) && (read.nodeId != c.nodeId || (read.complete && c.botId !in read.bots)))
  }

  /** A request of the refresh failed, or what it read is incomplete. */
  predicate Fails(s: State, e: Event) {
    && Refreshing(s, e)
    && var c, read := s.contexts[s.tasks[e.task].ctx], s.tasks[e.task].shown;
       || ((e.RefreshListed? || e.RefreshConfirmed?) && e.list.None?)
       || (e.RefreshRead? && e.snapshot.None?)
       || (Confirms(s, e) && read.nodeId == c.nodeId && !read.complete)
  }

  predicate HasContext(s: State) { s.context.Some? && IsCtx(s, s.context.value) }

  function Open(s: State): Context
    requires HasContext(s)
  {
    s.contexts[s.context.value]
  }

  /** The conversation an event puts on the screen. */
  function Shown(s: State, e: Event): Option<Conversation> {
    if Selects(s, e) then Some(s.tasks[e.task].read)
    else if Shows(s, e) then Some(s.tasks[e.task].shown.bots[Open(s).botId]) else None
  }

  /** The selection takes the conversation that is open already. */
  predicate Reselects(s: State, e: Event) {
    && Selects(s, e) && HasContext(s)
    && var t := s.tasks[e.task]; ScopeOf(Open(s)) == Scope(t.id, t.nodeId, t.botId)
  }

  /** A command of the open conversation ends. */
  predicate Settles(s: State, e: Event) {
    e.Settled? && IsCommand(s, e.task) && s.context == Some(s.tasks[e.task].ctx)
  }

  /** A refresh of the open conversation begins, on its own or after a command. */
  predicate StartsRefresh(s: State, e: Event) {
    HasContext(s) && !Open(s).pending && (e.Refresh? || Settles(s, e))
  }

  /** The refresh waits for its next reply. */
  predicate GoesOn(s: State, e: Event) {
    && Refreshing(s, e)
    && ((e.RefreshListed? && Reachable(e.list, s.contexts[s.tasks[e.task].ctx].nodeId))
        || (e.RefreshRead? && e.snapshot.Some?))
  }

  /** The reply ends a refresh of context i. */
  predicate EndsRefresh(s: State, e: Event, i: int) {
    && ((e.RefreshListed? && IsRefresh(s, e.task, Listing)) || (e.RefreshRead? && IsRefresh(s, e.task, Reading))
        || (e.RefreshConfirmed? && IsRefresh(s, e.task, Confirming)))
    && s.tasks[e.task].ctx == i && !GoesOn(s, e)
  }

  /** A message is attempted: it says something, and the open conversation is idle and may be written to. */
  predicate Sends(s: State, e: Event) {
    && e.Send? && !Blank(e.text) && HasContext(s) && !s.screen.busy && s.screen.online
    && Open(s).available && !Open(s).frozen && !s.screen.uncertain && !s.screen.cancelling
  }

  /** A goal of the open conversation is acted upon: it is idle, and the goal is one of those shown. */
  predicate Acts(s: State, e: Event) {
    && e.Act? && !e.command.Submit? && HasContext(s) && !s.screen.busy && s.screen.online
    && Open(s).available && e.command.goalId in Open(s).goals
  }

  predicate Reconnects(s: State, e: Event) { e.Reconnect? && HasContext(s) && !s.screen.busy }

  /** What the screen says. */
  predicate ScreenMoves(s: State, e: Event, n: State) {
    var shown := Shown(s, e);
    && n.screen.online == (if Selects(s, e) then true else if Shows(s, e) then e.list.value.value.status == "online"
                           else s.screen.online && !Clears(s, e))
    && n.screen.cancelling == (if shown.Some? then shown.value.cancelling else s.screen.cancelling && !Clears(s, e))
    && n.screen.uncertain == (if shown.Some? then shown.value.uncertain else s.screen.uncertain && !Clears(s, e))
    && n.screen.active == (Selects(s, e) || (s.screen.active && !e.Close?))
    && n.screen.busy == (if Selects(s, e) then Reselects(s, e) && s.screen.busy
                         else Sends(s, e) || Acts(s, e) || Reconnects(s, e)
                              || (s.screen.busy && !e.Close? && !Settles(s, e)))
    && (!Selects(s, e) && !e.SetDraft? && !e.Settled? ==> n.screen.draft == s.screen.draft)
  }

  /** What is known of conversation i; only the open one changes. */
  predicate ContextMoves(s: State, e: Event, n: State, i: int)
    requires 0 <= i < |s.contexts| <= |n.contexts|
  {
    var c, d, open := s.contexts[i], n.contexts[i], s.context == Some(i);
    var shown := if open && (Reselects(s, e) || Shows(s, e)) then Shown(s, e) else None;
    && d.id == c.id && d.nodeId == c.nodeId
    && d.botId == (if open && Reselects(s, e) then s.tasks[e.task].botId else c.botId)
    && d.pending == ((c.pending && !EndsRefresh(s, e, i)) || (open && StartsRefresh(s, e)))
    && d.available == (shown.Some? || (c.available && !(open && (Clears(s, e) || Fails(s, e) || e.ConnectionChanged?))))
    && d.frozen == (if shown.Some? then shown.value.frozen else c.frozen)
    && d.goals == (if shown.Some? then shown.value.goals
                   else if open && (Clears(s, e) || Fails(s, e)) then {} else c.goals)
    && d.readIn == (if shown.Some? then s.connectionEpoch else c.readIn)
  }

  /** Which conversation is open. */
  predicate SelectionMoves(s: State, e: Event, n: State) {
    var another := Selects(s, e) && !Reselects(s, e);
    && n.context == (if another then Some(|s.contexts|) else if e.Close? then None else s.context)
    && |n.contexts| == |s.contexts| + (if another then 1 else 0)
    && (another ==>
          var t := s.tasks[e.task];
          n.contexts[|s.contexts|] == Context(t.id, t.nodeId, t.botId, false, true, t.read.frozen, t.read.goals,
                                              s.connectionEpoch))
  }

  predicate Moves(s: State, e: Event, n: State) {
    && ScreenMoves(s, e, n) && SelectionMoves(s, e, n)
    && forall i :: 0 <= i < |s.contexts| ==> ContextMoves(s, e, n, i)
  }

  lemma OpeningMoves(s: State, e: Event)
    requires e.Open? || e.OpenAborted? || e.OpenListed? || e.OpenRead?
    ensures Moves(s, e, Step(s, e))
  {
    hide OpenConfirmReply, CloseCall, DraftCall, ChangeCall, RefreshCall, RefreshListReply, RefreshReadReply,
      RefreshConfirmReply, SendCall, ActCall, ReconnectCall, SettledReply;
    hide StillChosen, ScopeOf;
  }

  lemma OpenConfirmedIsApart(s: State, e: Event)
    requires e.OpenConfirmed?
    ensures !Sends(s, e) && !Acts(s, e) && !Reconnects(s, e) && !Settles(s, e) && !StartsRefresh(s, e)
    ensures !Shows(s, e) && !Clears(s, e) && !Fails(s, e) && forall i :: !EndsRefresh(s, e, i)
  {
  }

  lemma OpenConfirmedScreen(s: State, e: Event)
    requires e.OpenConfirmed? && ReadInEpoch(s)
    ensures ScreenMoves(s, e, Step(s, e)) && SelectionMoves(s, e, Step(s, e))
  {
    OpenConfirmedIsApart(s, e);
    hide Sends, Acts, Reconnects, Settles, StartsRefresh, Shows, Clears, Fails, EndsRefresh;
  }

  lemma SelectedContext(s: State, e: Event, i: int)
    requires Selects(s, e) && ReadInEpoch(s) && 0 <= i < |s.contexts|
    ensures |Step(s, e).contexts| >= |s.contexts| && ContextMoves(s, e, Step(s, e), i)
  {
    hide OpenCall, OpenListReply, OpenReadReply, CloseCall, DraftCall, ChangeCall, RefreshCall, RefreshListReply,
      RefreshReadReply, RefreshConfirmReply, SendCall, ActCall, ReconnectCall, SettledReply;
    OpenConfirmedIsApart(s, e);
    hide Sends, Acts, Reconnects, Settles, StartsRefresh, Shows, Clears, Fails, EndsRefresh;
  }

  lemma UnselectedContext(s: State, e: Event, i: int)
    requires e.OpenConfirmed? && !Selects(s, e) && 0 <= i < |s.contexts|
    ensures |Step(s, e).contexts| >= |s.contexts| && ContextMoves(s, e, Step(s, e), i)
  {
    hide OpenCall, OpenListReply, OpenReadReply, CloseCall, DraftCall, ChangeCall, RefreshCall, RefreshListReply,
      RefreshReadReply, RefreshConfirmReply, SendCall, ActCall, ReconnectCall, SettledReply, Commit;
    OpenConfirmedIsApart(s, e);
    hide Sends, Acts, Reconnects, Settles, StartsRefresh, Shows, Clears, Fails, EndsRefresh;
  }

  lemma OpenConfirmedContext(s: State, e: Event, i: int)
    requires e.OpenConfirmed? && ReadInEpoch(s) && 0 <= i < |s.contexts|
    ensures |Step(s, e).contexts| >= |s.contexts| && ContextMoves(s, e, Step(s, e), i)
  {
    hide ContextMoves;
    if Selects(s, e) {
      SelectedContext(s, e, i);
    } else {
      UnselectedContext(s, e, i);
    }
  }

  lemma OpenConfirmedMoves(s: State, e: Event)
    requires e.OpenConfirmed? && ReadInEpoch(s)
    ensures Moves(s, e, Step(s, e))
  {
    hide Step, ScreenMoves, ContextMoves;
    OpenConfirmedScreen(s, e);
    forall i | 0 <= i < |s.contexts|
      ensures ContextMoves(s, e, Step(s, e), i)
    {
      OpenConfirmedContext(s, e, i);
    }
  }

  lemma ClosingMoves(s: State, e: Event)
    requires (e.Close? || e.SetDraft? || e.ConnectionChanged?) && ReadInEpoch(s)
    ensures Moves(s, e, Step(s, e))
  {
    hide OpenCall, OpenListReply, OpenReadReply, OpenConfirmReply, RefreshCall, RefreshListReply, RefreshReadReply,
      RefreshConfirmReply, SendCall, ActCall, ReconnectCall, SettledReply;
    hide ScopeOf;
  }

  lemma RefreshCallMoves(s: State, e: Event)
    requires e.Refresh? && ReadInEpoch(s)
    ensures Moves(s, e, Step(s, e))
  {
    hide ScopeOf;
  }

  /** Replies to a refresh select nothing and concern no command. */
  lemma RefreshRepliesAreApart(s: State, e: Event)
    requires e.RefreshListed? || e.RefreshRead? || e.RefreshConfirmed?
    ensures !Selects(s, e) && !Reselects(s, e) && !Sends(s, e) && !Acts(s, e) && !Reconnects(s, e) && !Settles(s, e)
    ensures !StartsRefresh(s, e)
  {
  }

  lemma RefreshListedScreen(s: State, e: Event)
    requires e.RefreshListed?
    ensures ScreenMoves(s, e, Step(s, e)) && SelectionMoves(s, e, Step(s, e))
  {
    RefreshRepliesAreApart(s, e);
    hide Selects, Reselects, Sends, Acts, Reconnects, Settles, StartsRefresh;
    if IsRefresh(s, e.task, Listing) {
      UsableIff(e.list, s.contexts[s.tasks[e.task].ctx].nodeId);
    }
    hide Usable, Reachable;
  }

  lemma RefreshListedContext(s: State, e: Event, i: int)
    requires e.RefreshListed? && 0 <= i < |s.contexts|
    ensures |Step(s, e).contexts| == |s.contexts| && ContextMoves(s, e, Step(s, e), i)
  {
    hide OpenCall, OpenListReply, OpenReadReply, OpenConfirmReply, CloseCall, DraftCall, ChangeCall,
      RefreshCall, RefreshReadReply, RefreshConfirmReply, SendCall, ActCall, ReconnectCall, SettledReply;
    RefreshRepliesAreApart(s, e);
    hide Selects, Reselects, Sends, Acts, Reconnects, Settles, StartsRefresh;
    if IsRefresh(s, e.task, Listing) {
      UsableIff(e.list, s.contexts[s.tasks[e.task].ctx].nodeId);
    }
    hide Usable, Reachable;
  }

  lemma RefreshListedMoves(s: State, e: Event)
    requires e.RefreshListed?
    ensures Moves(s, e, Step(s, e))
  {
    hide Step, ScreenMoves, ContextMoves;
    RefreshListedScreen(s, e);
    forall i | 0 <= i < |s.contexts|
      ensures ContextMoves(s, e, Step(s, e), i)
    {
      RefreshListedContext(s, e, i);
    }
  }

  lemma UsableIff(list: Option<Option<Server>>, nodeId: string)
    ensures Usable(list, nodeId) <==> Reachable(list, nodeId)
  {
  }

  lemma RefreshReadScreen(s: State, e: Event)
    requires e.RefreshRead?
    ensures ScreenMoves(s, e, Step(s, e)) && SelectionMoves(s, e, Step(s, e))
  {
    hide OpenCall, OpenListReply, OpenReadReply, OpenConfirmReply, CloseCall, DraftCall, ChangeCall,
      RefreshCall, RefreshListReply, RefreshConfirmReply, SendCall, ActCall, ReconnectCall, SettledReply;
    RefreshRepliesAreApart(s, e);
    hide Selects, Reselects, Sends, Acts, Reconnects, Settles, StartsRefresh, Reachable;
  }

  /** The snapshot's reply of a refresh shows and clears nothing yet: it fails, or lets the refresh go on. */
  lemma ReadVerdicts(s: State, e: Event)
    requires e.RefreshRead?
    ensures !Shows(s, e) && !Clears(s, e) && Shown(s, e) == None
    ensures Fails(s, e) <==> Refreshing(s, e) && e.snapshot.None?
    ensures GoesOn(s, e) <==> Refreshing(s, e) && e.snapshot.Some?
  {
  }

  lemma RefreshReadContext(s: State, e: Event, i: int)
    requires e.RefreshRead? && 0 <= i < |s.contexts|
    ensures |Step(s, e).contexts| == |s.contexts| && ContextMoves(s, e, Step(s, e), i)
  {
    hide OpenCall, OpenListReply, OpenReadReply, OpenConfirmReply, CloseCall, DraftCall, ChangeCall, RefreshCall,
      RefreshListReply, RefreshConfirmReply, SendCall, ActCall, ReconnectCall, SettledReply;
    RefreshRepliesAreApart(s, e);
    ReadVerdicts(s, e);
    hide Selects, Reselects, Sends, Acts, Reconnects, Settles, StartsRefresh, Shows, Clears, Fails, GoesOn, Shown;
  }

  lemma RefreshReadMoves(s: State, e: Event)
    requires e.RefreshRead?
    ensures Moves(s, e, Step(s, e))
  {
    hide Step, ScreenMoves, ContextMoves;
    RefreshReadScreen(s, e);
    forall i | 0 <= i < |s.contexts|
      ensures ContextMoves(s, e, Step(s, e), i)
    {
      RefreshReadContext(s, e, i);
    }
  }

  /** At most one of the three verdicts applies, and only to the open conversation. */
  lemma VerdictsExclude(s: State, e: Event)
    ensures !(Shows(s, e) && Clears(s, e)) && !(Shows(s, e) && Fails(s, e)) && !(Clears(s, e) && Fails(s, e))
    ensures e.RefreshConfirmed? ==> !GoesOn(s, e)
  {
    hide IsRefresh;
  }

  lemma ConfirmedShows(s: State, e: Event)
    requires e.RefreshConfirmed? && Shows(s, e)
    ensures Moves(s, e, Step(s, e))
  {
    RefreshRepliesAreApart(s, e);
    VerdictsExclude(s, e);
    UsableIff(e.list, s.contexts[s.tasks[e.task].ctx].nodeId);
    hide Selects, Reselects, Sends, Acts, Reconnects, Settles, StartsRefresh, Usable, Reachable, Clears, Fails, GoesOn;
  }

  lemma ConfirmedClears(s: State, e: Event)
    requires e.RefreshConfirmed? && Clears(s, e)
    ensures Moves(s, e, Step(s, e))
  {
    RefreshRepliesAreApart(s, e);
    VerdictsExclude(s, e);
    UsableIff(e.list, s.contexts[s.tasks[e.task].ctx].nodeId);
    hide Selects, Reselects, Sends, Acts, Reconnects, Settles, StartsRefresh, Usable, Reachable, Shows, Fails, GoesOn;
  }

  lemma ConfirmedFails(s: State, e: Event)
    requires e.RefreshConfirmed? && Fails(s, e)
    ensures Moves(s, e, Step(s, e))
  {
    RefreshRepliesAreApart(s, e);
    VerdictsExclude(s, e);
    UsableIff(e.list, s.contexts[s.tasks[e.task].ctx].nodeId);
    hide Selects, Reselects, Sends, Acts, Reconnects, Settles, StartsRefresh, Usable, Reachable, Shows, Clears, GoesOn;
  }

  lemma ConfirmedForNobody(s: State, e: Event)
    requires e.RefreshConfirmed? && !Shows(s, e) && !Clears(s, e) && !Fails(s, e)
    ensures Moves(s, e, Step(s, e))
  {
    RefreshRepliesAreApart(s, e);
    VerdictsExclude(s, e);
    if IsRefresh(s, e.task, Confirming) {
      NoVerdict(s, e);
    }
    hide Selects, Reselects, Sends, Acts, Reconnects, Settles, StartsRefresh, Usable, Reachable, GoesOn, Shows, Clears, Fails;
  }

  /** Without a verdict the refresh is not that of the open conversation, or a connection changed. */
  lemma NoVerdict(s: State, e: Event)
    requires e.RefreshConfirmed? && !Shows(s, e) && !Clears(s, e) && !Fails(s, e) && IsRefresh(s, e.task, Confirming)
    ensures !StillShown(s, s.tasks[e.task])
  {
    hide Reachable;
  }

  lemma RefreshConfirmedMoves(s: State, e: Event)
    requires e.RefreshConfirmed?
    ensures Moves(s, e, Step(s, e))
  {
    hide Step, Moves, Shows, Clears, Fails;
    if Shows(s, e) {
      ConfirmedShows(s, e);
    } else if Clears(s, e) {
      ConfirmedClears(s, e);
    } else if Fails(s, e) {
      ConfirmedFails(s, e);
    } else {
      ConfirmedForNobody(s, e);
    }
  }

  lemma CommandMoves(s: State, e: Event)
    requires (e.Send? || e.Act? || e.Reconnect?) && ReadInEpoch(s)
    ensures Moves(s, e, Step(s, e))
  {
    hide OpenCall, OpenListReply, OpenReadReply, OpenConfirmReply, CloseCall, DraftCall, ChangeCall,
      RefreshCall, RefreshListReply, RefreshReadReply, RefreshConfirmReply, SettledReply;
    hide ScopeOf, Blank;
  }

  /** The end of a command has no verdict on the conversation. */
  lemma SettledIsApart(s: State, e: Event)
    requires e.Settled?
    ensures !Selects(s, e) && !Reselects(s, e) && !Sends(s, e) && !Acts(s, e) && !Reconnects(s, e)
    ensures !Shows(s, e) && !Clears(s, e) && !Fails(s, e) && forall i :: !EndsRefresh(s, e, i)
  {
  }

  lemma RefreshCallIs(s: State)
    requires ReadInEpoch(s)
    ensures var n := RefreshCall(s);
            && n == s.(contexts := n.contexts, tasks := n.tasks) && |n.contexts| == |s.contexts|
            && forall i :: 0 <= i < |s.contexts| ==>
                 n.contexts[i] == s.contexts[i].(pending := s.contexts[i].pending || s.context == Some(i))
  {
  }

  lemma SucceedIs(s: State, t: Task)
    requires t.Sending? && IsCtx(s, t.ctx)
    ensures var n := Succeed(s, t);
            && n == s.(screen := n.screen, drafts := n.drafts, commands := n.commands, log := n.log)
            && n.screen == s.screen.(draft := n.screen.draft)
  {
  }

  /** The state in which the end of a command leaves the conversation, before the refresh that may follow. */
  function Delivered(s: State, i: int, ok: bool): State
    requires IsCommand(s, i)
  {
    var t, n := s.tasks[i], End(s, i);
    if ok && t.Sending? then Succeed(n, t) else n
  }

  lemma DeliveredIs(s: State, i: int, ok: bool)
    requires IsCommand(s, i)
    ensures var m := Delivered(s, i, ok);
            && m.context == s.context && m.contexts == s.contexts && m.connectionEpoch == s.connectionEpoch
            && m.tasks == s.tasks[i := Ended] && m.screen == s.screen.(draft := m.screen.draft)
  {
    hide Succeed;
    if s.tasks[i].Sending? {
      SucceedIs(End(s, i), s.tasks[i]);
    }
  }

  lemma DeliveredFirst(s: State, i: int, ok: bool)
    requires IsCommand(s, i)
    ensures var m := Delivered(s, i, ok);
            SettledReply(s, i, ok) ==
              if s.context == Some(s.tasks[i].ctx) then RefreshCall(m.(screen := m.screen.(busy := false))) else m
  {
    hide Succeed, RefreshCall;
  }

  lemma SettledReplyIs(s: State, i: int, ok: bool)
    requires IsCommand(s, i) && ReadInEpoch(s)
    ensures var n, mine := SettledReply(s, i, ok), s.context == Some(s.tasks[i].ctx);
            && n.context == s.context && |n.contexts| == |s.contexts|
            && n.screen == s.screen.(draft := n.screen.draft, busy := s.screen.busy && !mine)
            && forall j :: 0 <= j < |s.contexts| ==>
                 n.contexts[j] == s.contexts[j].(pending := s.contexts[j].pending || (mine && s.context == Some(j)))
  {
    hide RefreshCall, SettledReply, Delivered;
    DeliveredIs(s, i, ok);
    var m := Delivered(s, i, ok);
    DeliveredFirst(s, i, ok);
    RefreshCallIs(m.(screen := m.screen.(busy := false)));
  }

  lemma SettledMoves(s: State, e: Event)
    requires e.Settled? && ReadInEpoch(s)
    ensures Moves(s, e, Step(s, e))
  {
    SettledIsApart(s, e);
    if IsCommand(s, e.task) {
      SettledReplyIs(s, e.task, e.ok);
    }
    hide SettledReply, Selects, Reselects, Sends, Acts, Reconnects, Shows, Clears, Fails, EndsRefresh;
  }

  /** Field by field: which events change the screen, the selection and what is known of each conversation. */
  lemma StepMoves(s: State, e: Event)
    requires Inv(s)
    ensures Moves(s, e, Step(s, e))
  {
    assert ReadInEpoch(s);
    hide Inv, Step, Moves, ReadInEpoch;
    if e.Open? || e.OpenAborted? || e.OpenListed? || e.OpenRead? {
      OpeningMoves(s, e);
    } else if e.OpenConfirmed? {
      OpenConfirmedMoves(s, e);
    } else if e.Close? || e.SetDraft? || e.ConnectionChanged? {
      ClosingMoves(s, e);
    } else if e.Refresh? {
      RefreshCallMoves(s, e);
    } else if e.RefreshListed? {
      RefreshListedMoves(s, e);
    } else if e.RefreshRead? {
      RefreshReadMoves(s, e);
    } else if e.RefreshConfirmed? {
      RefreshConfirmedMoves(s, e);
    } else if e.Settled? {
      SettledMoves(s, e);
    } else {
      CommandMoves(s, e);
    }
  }

  // ---------------------------------------------------------------- the calls that wait

  /** The reply belongs to an opening call that nothing overtook. */
  predicate Chosen(s: State, t: Task)
    requires t.Opening?
  {
    t.serial == s.selectionSerial && t.epoch == s.connectionEpoch
  }

  /** The first reply of an opening call names a node that is online. */
  predicate Finds(s: State, e: Event) {
    && e.OpenListed? && IsOpen(s, e.task, Listing) && Chosen(s, s.tasks[e.task])
    && e.list.Some? && e.list.value.Some? && e.list.value.value.status == "online" && e.list.value.value.nodeId != ""
  }

  /** Its second reply is of that node, complete, and names the bot. */
  predicate Reads(s: State, e: Event) {
    && e.OpenRead? && IsOpen(s, e.task, Reading) && Chosen(s, s.tasks[e.task])
    && e.snapshot.Some? && e.snapshot.value.nodeId == s.tasks[e.task].nodeId && e.snapshot.value.complete
    && s.tasks[e.task].botId in e.snapshot.value.bots
  }

  /** The event is one that call i waits for. */
  predicate Concerns(s: State, e: Event, i: int)
    requires 0 <= i < |s.tasks|
  {
    match s.tasks[i]
    case Opening(_, _, _, _, _, point, _) =>
      || (e.OpenAborted? && e.task == i) || (e.OpenListed? && e.task == i && point.Listing?)
      || (e.OpenRead? && e.task == i && point.Reading?) || (e.OpenConfirmed? && e.task == i && point.Confirming?)
    case Refreshing(ctx, _, stage, _) =>
      && IsCtx(s, ctx)
      && ((e.RefreshListed? && e.task == i && stage.Listing?) || (e.RefreshRead? && e.task == i && stage.Reading?)
          || (e.RefreshConfirmed? && e.task == i && stage.Confirming?))
    case Sending(ctx, _, _) => e.Settled? && e.task == i && IsCtx(s, ctx)
    case Resuming(ctx) => e.Settled? && e.task == i && IsCtx(s, ctx)
    case Ended => false
  }

  /** What becomes of call i. */
  function Becomes(s: State, e: Event, i: int): Task
    requires 0 <= i < |s.tasks|
  {
    var t := s.tasks[i];
    if !Concerns(s, e, i) then t
    else if Finds(s, e) then t.(nodeId := e.list.value.value.nodeId, point := Reading)
    else if Reads(s, e) then t.(read := e.snapshot.value.bots[t.botId], point := Confirming)
    else if GoesOn(s, e) && e.RefreshListed? then t.(stage := Reading)
    else if GoesOn(s, e) then t.(stage := Confirming, shown := e.snapshot.value)
    else Ended
  }

  /** The call an event makes. */
  function Begun(s: State, e: Event): seq<Task>
  {
    if e.Open? && e.id != "" && e.botId != "" then
      [Opening(s.selectionSerial + 1, s.connectionEpoch, e.id, e.botId, "", Listing, BLANK)]
    else if StartsRefresh(s, e) then [Task.Refreshing(s.context.value, s.connectionEpoch, Listing, UNREAD)]
    else if Sends(s, e) || Acts(s, e) then [Sending(s.context.value, Meant(s, e), KeyFor(s, e))]
    else if Reconnects(s, e) then [Resuming(s.context.value)] else []
  }

  /** The command meant: addressed to the open conversation. */
  function Meant(s: State, e: Event): Signature
    requires (e.Send? || e.Act?) && HasContext(s)
  {
    Signature(ScopeOf(Open(s)), if e.Send? then Submit(Open(s).botId, e.text) else e.command)
  }

  function KeyFor(s: State, e: Event): int
    requires (e.Send? || e.Act?) && HasContext(s)
  {
    if Meant(s, e) in s.commands then s.commands[Meant(s, e)] else s.keys
  }

  predicate TasksMove(s: State, e: Event, n: State)
  {
    && |n.tasks| == |s.tasks| + |Begun(s, e)|
    && (forall i :: 0 <= i < |s.tasks| ==> n.tasks[i] == Becomes(s, e, i))
    && (Begun(s, e) != [] ==> n.tasks[|s.tasks|] == Begun(s, e)[0])
  }

  lemma OpeningTasksMove(s: State, e: Event)
    requires e.Open? || e.OpenAborted? || e.OpenListed? || e.OpenRead?
    ensures TasksMove(s, e, Step(s, e))
  {
    hide OpenConfirmReply, CloseCall, DraftCall, ChangeCall, RefreshCall, RefreshListReply, RefreshReadReply,
      RefreshConfirmReply, SendCall, ActCall, ReconnectCall, SettledReply;
  }

  lemma OpenConfirmedTasksMove(s: State, e: Event)
    requires e.OpenConfirmed?
    ensures TasksMove(s, e, Step(s, e))
  {
    OpenConfirmedIsApart(s, e);
    hide ScopeOf, Apply, StartsRefresh, Sends, Acts, Reconnects;
    hide OpenCall, OpenListReply, OpenReadReply, CloseCall, DraftCall, ChangeCall, RefreshCall,
      RefreshListReply, RefreshReadReply, RefreshConfirmReply, SendCall, ActCall, ReconnectCall, SettledReply;
  }

  lemma ClosingTasksMove(s: State, e: Event)
    requires e.Close? || e.SetDraft? || e.ConnectionChanged? || e.Refresh?
    ensures TasksMove(s, e, Step(s, e))
  {
    hide ScopeOf;
  }

  lemma RefreshListedTasksMove(s: State, e: Event)
    requires e.RefreshListed?
    ensures TasksMove(s, e, Step(s, e))
  {
    RefreshRepliesAreApart(s, e);
    if IsRefresh(s, e.task, Listing) {
      UsableIff(e.list, s.contexts[s.tasks[e.task].ctx].nodeId);
    }
    hide Usable, Reachable, StartsRefresh, Sends, Acts, Reconnects, ReadFailed, ClearUnavailable;
  }

  lemma RefreshReadTasksMove(s: State, e: Event)
    requires e.RefreshRead?
    ensures TasksMove(s, e, Step(s, e))
  {
    RefreshRepliesAreApart(s, e);
    hide Reachable, StartsRefresh, Sends, Acts, Reconnects, ReadFailed;
  }

  lemma RefreshConfirmedTasksMove(s: State, e: Event)
    requires e.RefreshConfirmed?
    ensures TasksMove(s, e, Step(s, e))
  {
    RefreshRepliesAreApart(s, e);
    hide Usable, Reachable, Apply, StartsRefresh, Sends, Acts, Reconnects, ReadFailed, ClearUnavailable;
  }

  lemma CommandTasksMove(s: State, e: Event)
    requires e.Send? || e.Act? || e.Reconnect?
    ensures TasksMove(s, e, Step(s, e))
  {
    hide ScopeOf, Blank;
  }

  lemma RefreshCallTasks(s: State)
    requires ReadInEpoch(s)
    ensures RefreshCall(s).tasks ==
            s.tasks + if HasContext(s) && !Open(s).pending
                      then [Task.Refreshing(s.context.value, s.connectionEpoch, Listing, UNREAD)] else []
  {
  }

  lemma SettledReplyTasks(s: State, i: int, ok: bool)
    requires IsCommand(s, i) && ReadInEpoch(s)
    ensures SettledReply(s, i, ok).tasks ==
            s.tasks[i := Ended] + if s.context == Some(s.tasks[i].ctx) && !Open(s).pending
                                  then [Task.Refreshing(s.context.value, s.connectionEpoch, Listing, UNREAD)] else []
  {
    hide RefreshCall, SettledReply, Delivered;
    DeliveredIs(s, i, ok);
    DeliveredFirst(s, i, ok);
    var m := Delivered(s, i, ok);
    RefreshCallTasks(m.(screen := m.screen.(busy := false)));
  }

  lemma SettledTasksMove(s: State, e: Event)
    requires e.Settled? && ReadInEpoch(s)
    ensures TasksMove(s, e, Step(s, e))
  {
    SettledIsApart(s, e);
    if IsCommand(s, e.task) {
      SettledReplyTasks(s, e.task, e.ok);
    }
    hide SettledReply, Sends, Acts, Reconnects;
  }

  /** A call is moved by its own replies only, and those end it unless they let it go on; what a call starts waits. */
  lemma StepMovesTasks(s: State, e: Event)
    requires Inv(s)
    ensures TasksMove(s, e, Step(s, e))
  {
    assert ReadInEpoch(s);
    hide Inv, Step, TasksMove, ReadInEpoch;
    if e.Open? || e.OpenAborted? || e.OpenListed? || e.OpenRead? {
      OpeningTasksMove(s, e);
    } else if e.OpenConfirmed? {
      OpenConfirmedTasksMove(s, e);
    } else if e.Close? || e.SetDraft? || e.ConnectionChanged? || e.Refresh? {
      ClosingTasksMove(s, e);
    } else if e.RefreshListed? {
      RefreshListedTasksMove(s, e);
    } else if e.RefreshRead? {
      RefreshReadTasksMove(s, e);
    } else if e.RefreshConfirmed? {
      RefreshConfirmedTasksMove(s, e);
    } else if e.Settled? {
      SettledTasksMove(s, e);
    } else {
      CommandTasksMove(s, e);
    }
  }

  // ---------------------------------------------------------------- when a command is attempted

  /** A command that was attempted has succeeded. */
  predicate Succeeds(s: State, e: Event) {
    e.Settled? && e.ok && IsCommand(s, e.task) && s.tasks[e.task].Sending?
  }

  lemma SettledLogs(s: State, e: Event)
    requires e.Settled?
    ensures Step(s, e).log == s.log + if Succeeds(s, e) then [Succeeded(s.tasks[e.task].signature)] else []
  {
    hide ScopeOf, RefreshCall;
    if IsCommand(s, e.task) {
      var t, n := s.tasks[e.task], End(s, e.task);
      var m := if e.ok && t.Sending? then Succeed(n, t) else n;
      RefreshFrame(m.(screen := m.screen.(busy := false)), Refresh);
    }
  }

  /**
    A message is attempted exactly when it says something and the open conversation is idle, online, available and not
    frozen, with no goal uncertain or being cancelled; a goal is acted upon exactly when it is shown in an idle, online,
    available conversation. Anything else attempts nothing.
   */
  lemma AttemptsIff(s: State, e: Event)
    ensures Step(s, e).log ==
            s.log + if Sends(s, e) || Acts(s, e) then [Attempted(Meant(s, e), KeyFor(s, e), TargetOf(Open(s)))]
                    else if Succeeds(s, e) then [Succeeded(s.tasks[e.task].signature)] else []
  {
    if e.Settled? {
      SettledLogs(s, e);
    } else if !e.Send? && !e.Act? {
      OtherStepsKeepKeys(s, e);
    } else {
      hide ScopeOf, Blank;
    }
  }

  // ---------------------------------------------------------------- the snapshot a command rests on

  /** Event j is the reply to call i that carries the snapshot. */
  predicate ReadBy(es: seq<Event>, i: int, read: Snapshot, j: int) {
    0 <= j < |es| && (es[j] == Event.OpenRead(i, Some(read)) || es[j] == Event.RefreshRead(i, Some(read)))
  }

  ghost predicate WasRead(es: seq<Event>, i: int, read: Snapshot) { exists j :: ReadBy(es, i, read, j) }

  /** The snapshot is of the node, complete, and says this of the bot. */
  predicate Says(read: Snapshot, nodeId: string, botId: string, conversation: Conversation) {
    read.nodeId == nodeId && read.complete && botId in read.bots && read.bots[botId] == conversation
  }

  ghost predicate TaskWasRead(es: seq<Event>, i: int, t: Task) {
    && (t.Opening? && t.point.Confirming? ==> exists read :: WasRead(es, i, read) && Says(read, t.nodeId, t.botId, t.read))
    && (t.Refreshing? && t.stage.Confirming? ==> WasRead(es, i, t.shown))
  }

  lemma WasReadLonger(es: seq<Event>, e: Event, i: int, t: Task)
    requires TaskWasRead(es, i, t)
    ensures TaskWasRead(es + [e], i, t)
  {
    hide Says;
    forall read | WasRead(es, i, read)
      ensures WasRead(es + [e], i, read)
    {
      var j :| ReadBy(es, i, read, j);
      assert ReadBy(es + [e], i, read, j);
    }
  }

  lemma NewlyRead(es: seq<Event>, e: Event, i: int)
    requires 0 <= i < |Run(es).tasks| && TaskWasRead(es, i, Run(es).tasks[i])
    ensures TaskWasRead(es + [e], i, Becomes(Run(es), e, i))
  {
    hide Run, TaskWasRead, WasRead, Chosen, Reachable;
    var s := Run(es);
    WasReadLonger(es, e, i, s.tasks[i]);
    if Concerns(s, e, i) && Reads(s, e) {
      assert ReadBy(es + [e], i, e.snapshot.value, |es|);
      ReadIsTold(es + [e], i, e.snapshot.value, Becomes(s, e, i));
    } else if Concerns(s, e, i) && GoesOn(s, e) && e.RefreshRead? {
      assert ReadBy(es + [e], i, e.snapshot.value, |es|);
      ReadIsTold(es + [e], i, e.snapshot.value, Becomes(s, e, i));
    } else if Concerns(s, e, i) {
      NothingRead(es + [e], i, Becomes(s, e, i));
    }
  }

  lemma ReadIsTold(es: seq<Event>, i: int, read: Snapshot, t: Task)
    requires WasRead(es, i, read)
    requires (t.Opening? && Says(read, t.nodeId, t.botId, t.read)) || (t.Refreshing? && t.shown == read)
    ensures TaskWasRead(es, i, t)
  {
  }

  lemma NothingRead(es: seq<Event>, i: int, t: Task)
    requires (t.Opening? ==> !t.point.Confirming?) && (t.Refreshing? ==> !t.stage.Confirming?)
    ensures TaskWasRead(es, i, t)
  {
  }

  /** What a call holds before its last reply is what a reply to it carried. */
  lemma {:induction false} EveryTaskWasRead(es: seq<Event>, i: int)
    requires 0 <= i < |Run(es).tasks|
    ensures TaskWasRead(es, i, Run(es).tasks[i])
    decreases |es|
  {
    hide Step, TaskWasRead, Becomes, Begun, StartsRefresh, Sends, Acts, Reconnects;
    var before, e := es[..|es| - 1], es[|es| - 1];
    var s := Run(before);
    assert es == before + [e];
    RunKeeps(before);
    StepMovesTasks(s, e);
    if i < |s.tasks| {
      EveryTaskWasRead(before, i);
      NewlyRead(before, e, i);
    } else {
      BegunReadsNothing(s, e);
      NothingRead(es, i, Run(es).tasks[i]);
    }
  }

  lemma BegunReadsNothing(s: State, e: Event)
    ensures |Begun(s, e)| <= 1
    ensures forall t :: t in Begun(s, e) ==> (t.Opening? ==> !t.point.Confirming?) && (t.Refreshing? ==> !t.stage.Confirming?)
  {
  }

  /** What the screen and the open conversation say of its bot. */
  function OnScreen(s: State): Conversation
    requires HasContext(s)
  {
    Conversation(Open(s).frozen, Open(s).goals, s.screen.cancelling, s.screen.uncertain)
  }

  /** The selection reopened a conversation of another target whose scope reads the same. */
  predicate Confuses(s: State, e: Event) {
    && Reselects(s, e)
    && var t := s.tasks[e.task]; !Separable(TargetOf(Open(s)), Target(t.id, t.nodeId, t.botId))
  }

  /** What an event shows was read before, of the node of the conversation then open. */
  lemma ShownWasRead(es: seq<Event>, e: Event) returns (j: int, read: Snapshot)
    requires Shown(Run(es), e).Some?
    ensures ReadBy(es, e.task, read, j) && HasContext(Step(Run(es), e)) && Open(Step(Run(es), e)).available
    ensures var n := Step(Run(es), e);
            && read.complete && Open(n).botId in read.bots && read.bots[Open(n).botId] == OnScreen(n)
            && (read.nodeId == Open(n).nodeId || Confuses(Run(es), e))
  {
    hide Run, Step, TaskWasRead, WasRead;
    var s := Run(es);
    RunKeeps(es);
    EveryTaskWasRead(es, e.task);
    read := ReadOf(es, e.task, s.tasks[e.task]);
    j :| ReadBy(es, e.task, read, j);
    ShownIsOnScreen(s, e, read);
  }

  lemma ReadOf(es: seq<Event>, i: int, t: Task) returns (read: Snapshot)
    requires TaskWasRead(es, i, t) && ((t.Opening? && t.point.Confirming?) || (t.Refreshing? && t.stage.Confirming?))
    ensures WasRead(es, i, read)
    ensures if t.Opening? then Says(read, t.nodeId, t.botId, t.read) else read == t.shown
  {
    if t.Opening? {
      read :| WasRead(es, i, read) && Says(read, t.nodeId, t.botId, t.read);
    } else {
      read := t.shown;
    }
  }

  lemma ShownIsOnScreen(s: State, e: Event, read: Snapshot)
    requires Inv(s) && Shown(s, e).Some?
    requires var t := s.tasks[e.task];
             if t.Opening? then Says(read, t.nodeId, t.botId, t.read) else t.Refreshing? && read == t.shown
    ensures var n := Step(s, e);
            && HasContext(n) && Open(n).available
            && read.complete && Open(n).botId in read.bots && read.bots[Open(n).botId] == OnScreen(n)
            && (read.nodeId == Open(n).nodeId || Confuses(s, e))
  {
    StepMoves(s, e);
    hide Step, Inv, ScopeOf, Reachable, Clears, Fails, EndsRefresh, StartsRefresh, Sends, Acts, Reconnects, Settles;
    if Reselects(s, e) {
      assert ContextMoves(s, e, Step(s, e), s.context.value);
      SameScope(s, e);
    } else if Shows(s, e) {
      assert ContextMoves(s, e, Step(s, e), s.context.value);
    }
  }

  lemma SameScope(s: State, e: Event)
    requires Reselects(s, e)
    ensures Open(s).nodeId == s.tasks[e.task].nodeId || Confuses(s, e)
  {
    var t := s.tasks[e.task];
    if Separable(TargetOf(Open(s)), Target(t.id, t.nodeId, t.botId)) {
      ScopeIsInjective(TargetOf(Open(s)), Target(t.id, t.nodeId, t.botId));
    }
  }

  /** An event that shows nothing leaves what an available conversation says as it was. */
  lemma UnshownIsKept(s: State, e: Event)
    requires Inv(s) && Shown(s, e).None? && HasContext(Step(s, e)) && Open(Step(s, e)).available
    ensures HasContext(s) && Open(s).available && OnScreen(Step(s, e)) == OnScreen(s)
    ensures TargetOf(Open(Step(s, e))) == TargetOf(Open(s))
  {
    StepMoves(s, e);
    assert ReadInEpoch(s);
    hide Step, Inv, ScopeOf, Reachable, EndsRefresh, StartsRefresh, Sends, Acts, Reconnects, Settles;
    assert ContextMoves(s, e, Step(s, e), s.context.value);
    hide ContextMoves, Fails;
    ClearsOpen(s, e);
  }

  lemma ClearsOpen(s: State, e: Event)
    ensures Clears(s, e) ==> s.context.Some?
  {
  }

  /**
    An available conversation shows what the last snapshot shown says of its bot: event j carried that snapshot, event k
    put it on the screen, and no event since showed another one. The snapshot is of the conversation's node unless the
    selection confused two scopes.
   */
  lemma {:induction false} LastShown(es: seq<Event>) returns (j: int, k: int, read: Snapshot)
    requires HasContext(Run(es)) && Open(Run(es)).available
    ensures 0 <= j < k < |es| && Shown(Run(es[..k]), es[k]).Some? && ReadBy(es, es[k].task, read, j)
    ensures forall l :: k < l < |es| ==> Shown(Run(es[..l]), es[l]).None?
    ensures var s := Run(es);
            && read.complete && Open(s).botId in read.bots && read.bots[Open(s).botId] == OnScreen(s)
            && (read.nodeId == Open(s).nodeId || Confuses(Run(es[..k]), es[k]))
    decreases |es|
  {
    hide Step, Shown, Confuses;
    var n := |es| - 1;
    var before, e := es[..n], es[n];
    assert Run(es) == Step(Run(before), e);
    hide Run;
    if Shown(Run(before), e).Some? {
      j, read := ShownWasRead(before, e);
      k := n;
    } else {
      RunKeeps(before);
      UnshownIsKept(Run(before), e);
      j, k, read := LastShown(before);
      assert forall l :: k <= l < n ==> before[..l] == es[..l] && before[l] == es[l];
    }
  }

  /**
    A message is attempted only on what the last snapshot shown says: its bot is not frozen, no goal of it is uncertain or
    being cancelled; and a goal is acted upon only if that snapshot holds it.
   */
  lemma CommandsFollowTheSnapshot(es: seq<Event>, e: Event) returns (j: int, k: int, read: Snapshot)
    requires (e.Send? || e.Act?) && Step(Run(es), e).log != Run(es).log
    ensures 0 <= j < k < |es| && Shown(Run(es[..k]), es[k]).Some? && ReadBy(es, es[k].task, read, j)
    ensures forall l :: k < l < |es| ==> Shown(Run(es[..l]), es[l]).None?
    ensures HasContext(Run(es)) && read.complete && Open(Run(es)).botId in read.bots
    ensures var conversation := read.bots[Open(Run(es)).botId];
            if e.Send? then !conversation.frozen && !conversation.uncertain && !conversation.cancelling
            else e.command.goalId in conversation.goals
    ensures read.nodeId == Open(Run(es)).nodeId || Confuses(Run(es[..k]), es[k])
  {
    hide Run, Step, Shown, Confuses, Blank;
    AttemptsIff(Run(es), e);
    j, k, read := LastShown(es);
  }

  // ---------------------------------------------------------------- nothing stays busy for nobody

  ghost predicate CommandUnderway(s: State, ctx: int) {
    exists i :: 0 <= i < |s.tasks| && Runs(s.tasks[i]) && s.tasks[i].ctx == ctx
  }

  ghost predicate RefreshUnderway(s: State, ctx: int) {
    exists i :: 0 <= i < |s.tasks| && s.tasks[i].Refreshing? && s.tasks[i].ctx == ctx
  }

  /** A context is refreshed by one call at a time. */
  predicate RefreshesApart(s: State) {
    forall i, j :: 0 <= i < j < |s.tasks| && s.tasks[i].Refreshing? && s.tasks[j].Refreshing?
                   ==> s.tasks[i].ctx != s.tasks[j].ctx
  }

  /** The open conversation is busy exactly while a command of it is under way, each one pending exactly while refreshed. */
  ghost predicate Accounted(s: State) {
    && (HasContext(s) ==> (s.screen.busy <==> CommandUnderway(s, s.context.value)))
    && (forall c :: 0 <= c < |s.contexts| ==> (s.contexts[c].pending <==> RefreshUnderway(s, c)))
    && RefreshesApart(s)
  }

  /** A call of another kind is neither command nor refresh, and one that goes on stays with its conversation. */
  lemma BecomesKind(s: State, e: Event, i: int)
    requires Inv(s) && RefreshesApart(s) && 0 <= i < |s.tasks|
    ensures var t, u := s.tasks[i], Becomes(s, e, i);
            && (Runs(u) <==> Runs(t) && !(e.Settled? && e.task == i))
            && (u.Refreshing? <==> t.Refreshing? && !EndsRefresh(s, e, t.ctx))
            && (Runs(u) || u.Refreshing? ==> u.ctx == t.ctx)
            && (t.Refreshing? || Runs(t) ==> IsCtx(s, t.ctx))
  {
    assert TaskOk(s, s.tasks[i]);
  }

  lemma CommandsStep(s: State, e: Event, ctx: int)
    requires Inv(s) && RefreshesApart(s)
    ensures CommandUnderway(Step(s, e), ctx) <==>
            || (s.context == Some(ctx) && (Sends(s, e) || Acts(s, e) || Reconnects(s, e)))
            || exists i :: 0 <= i < |s.tasks| && Runs(s.tasks[i]) && s.tasks[i].ctx == ctx && !(e.Settled? && e.task == i)
  {
    hide Inv, Step, Becomes, EndsRefresh, StartsRefresh, Sends, Acts, Reconnects, Meant, KeyFor;
    var n := Step(s, e);
    StepMovesTasks(s, e);
    forall i | 0 <= i < |s.tasks|
      ensures Runs(n.tasks[i]) <==> Runs(s.tasks[i]) && !(e.Settled? && e.task == i)
      ensures Runs(n.tasks[i]) ==> n.tasks[i].ctx == s.tasks[i].ctx
    {
      BecomesKind(s, e, i);
    }
    BegunIs(s, e);
  }

  lemma BegunIs(s: State, e: Event)
    ensures |Begun(s, e)| <= 1
    ensures (Begun(s, e) != [] && Runs(Begun(s, e)[0])) <==> Sends(s, e) || Acts(s, e) || Reconnects(s, e)
    ensures (Begun(s, e) != [] && Begun(s, e)[0].Refreshing?) <==> StartsRefresh(s, e)
    ensures forall t :: t in Begun(s, e) && (Runs(t) || t.Refreshing?) ==> s.context == Some(t.ctx)
  {
    hide ScopeOf, Blank;
  }

  lemma RefreshesStep(s: State, e: Event)
    requires Inv(s) && Accounted(s)
    ensures RefreshesApart(Step(s, e))
    ensures forall ctx :: RefreshUnderway(Step(s, e), ctx) <==>
              (s.context == Some(ctx) && StartsRefresh(s, e)) || (RefreshUnderway(s, ctx) && !EndsRefresh(s, e, ctx))
  {
    hide Inv, Step, Becomes, EndsRefresh, Sends, Acts, Reconnects, Meant, KeyFor, CommandUnderway;
    var n := Step(s, e);
    StepMovesTasks(s, e);
    forall i | 0 <= i < |s.tasks|
      ensures n.tasks[i].Refreshing? <==> s.tasks[i].Refreshing? && !EndsRefresh(s, e, s.tasks[i].ctx)
      ensures n.tasks[i].Refreshing? ==> n.tasks[i].ctx == s.tasks[i].ctx
    {
      BecomesKind(s, e, i);
    }
    BegunIs(s, e);
    hide Begun;
    forall ctx
      ensures RefreshUnderway(n, ctx) <==>
                (s.context == Some(ctx) && StartsRefresh(s, e)) || (RefreshUnderway(s, ctx) && !EndsRefresh(s, e, ctx))
    {
      if RefreshUnderway(s, ctx) && !EndsRefresh(s, e, ctx) {
        var i :| 0 <= i < |s.tasks| && s.tasks[i].Refreshing? && s.tasks[i].ctx == ctx;
        assert n.tasks[i].Refreshing? && n.tasks[i].ctx == ctx;
      }
      if s.context == Some(ctx) && StartsRefresh(s, e) {
        assert n.tasks[|s.tasks|].Refreshing? && n.tasks[|s.tasks|].ctx == ctx;
      }
    }
  }

  /** Commands and refreshes belong to contexts that exist; a context has one command at most. */
  lemma CallsAreOfContexts(s: State, e: Event)
    requires Inv(s)
    ensures forall ctx :: CommandUnderway(s, ctx) || RefreshUnderway(s, ctx) ==> IsCtx(s, ctx)
    ensures Settles(s, e) ==>
      forall i :: 0 <= i < |s.tasks| && Runs(s.tasks[i]) && s.context == Some(s.tasks[i].ctx) ==> i == e.task
    ensures e.Settled? && !Settles(s, e) ==>
      (0 <= e.task < |s.tasks| && Runs(s.tasks[e.task]) ==> s.context != Some(s.tasks[e.task].ctx))
  {
    assert forall i :: 0 <= i < |s.tasks| ==> TaskOk(s, s.tasks[i]);
  }

  lemma PendingStep(s: State, e: Event)
    requires Inv(s) && Accounted(s)
    ensures var n := Step(s, e);
            forall c :: 0 <= c < |n.contexts| ==> (n.contexts[c].pending <==> RefreshUnderway(n, c))
  {
    hide Inv, Step, EndsRefresh, StartsRefresh, RefreshUnderway, ScreenMoves, Selects, Reselects, Shown;
    var n := Step(s, e);
    StepMoves(s, e);
    RefreshesStep(s, e);
    CallsAreOfContexts(s, e);
    StartsOnOpen(s, e);
    forall c | 0 <= c < |n.contexts|
      ensures n.contexts[c].pending <==> RefreshUnderway(n, c)
    {
      if c < |s.contexts| {
        assert ContextMoves(s, e, n, c);
      }
    }
  }

  /** A refresh starts on the open context, which no refresh of it is leaving. */
  lemma StartsOnOpen(s: State, e: Event)
    ensures StartsRefresh(s, e) ==> HasContext(s) && !Selects(s, e)
    ensures StartsRefresh(s, e) ==> forall c :: !EndsRefresh(s, e, c)
  {
  }

  lemma BusyStep(s: State, e: Event)
    requires Inv(s) && Accounted(s)
    ensures var n := Step(s, e); HasContext(n) ==> (n.screen.busy <==> CommandUnderway(n, n.context.value))
  {
    assert ReadInEpoch(s);
    hide Inv, Step, Sends, Acts, Reconnects, Settles, Shown, ContextMoves, Selects, Reselects, RefreshUnderway,
      RefreshesApart;
    var n := Step(s, e);
    StepMoves(s, e);
    CallsAreOfContexts(s, e);
    CommandsAreOfOpen(s, e);
    if HasContext(n) {
      CommandsStep(s, e, n.context.value);
      assert Selects(s, e) && !Reselects(s, e) ==> !CommandUnderway(s, n.context.value);
    }
  }

  lemma CommandsAreOfOpen(s: State, e: Event)
    ensures Sends(s, e) || Acts(s, e) || Reconnects(s, e) ==> HasContext(s) && !Selects(s, e) && !e.Close?
    ensures Reselects(s, e) ==> Selects(s, e) && HasContext(s)
    ensures Selects(s, e) ==> e.OpenConfirmed?
    ensures Settles(s, e) ==> e.Settled? && HasContext(s)
  {
    hide Blank;
  }

  /**
    In every reachable state the open conversation is busy exactly while a command of it is under way, and a conversation
    waits for a refresh exactly while one of it, the only one, is under way: no flag outlives its call.
   */
  lemma {:induction false} NothingStaysBusy(es: seq<Event>)
    ensures Accounted(Run(es))
    decreases |es|
  {
    hide Step;
    if es != [] {
      var before, e := es[..|es| - 1], es[|es| - 1];
      NothingStaysBusy(before);
      RunKeeps(before);
      hide Run, Accounted;
      AccountedStep(Run(before), e);
    }
  }

  lemma AccountedStep(s: State, e: Event)
    requires Inv(s) && Accounted(s)
    ensures Accounted(Step(s, e))
  {
    PendingStep(s, e);
    BusyStep(s, e);
    RefreshesStep(s, e);
    hide Step, Inv, CommandUnderway, RefreshUnderway, RefreshesApart;
  }

  // ---------------------------------------------------------------- the draft on the screen

  predicate DraftShown(s: State) { HasContext(s) ==> s.screen.draft == Draft(s, ScopeOf(Open(s))) }

  /** A message that is the open conversation's draft is delivered, but for a context of that scope left earlier. */
  predicate Bypasses(s: State, e: Event) {
    && Succeeds(s, e) && !Settles(s, e) && s.tasks[e.task].signature.command.Submit? && HasContext(s)
    && var scope, prompt := ScopeOf(Open(s)), s.tasks[e.task].signature.command.prompt;
       ScopeOf(s.contexts[s.tasks[e.task].ctx]) == scope && prompt != "" && Draft(s, scope) == prompt
  }

  lemma DeliveredDraft(s: State, i: int, ok: bool)
    requires IsCommand(s, i) && DraftShown(s)
    ensures DraftShown(Delivered(s, i, ok)) <==> !Bypasses(s, Settled(i, ok))
  {
    hide ScopeOf;
  }

  lemma SettledDraftShown(s: State, e: Event)
    requires e.Settled? && ReadInEpoch(s) && DraftShown(s)
    ensures DraftShown(Step(s, e)) <==> !Bypasses(s, e)
  {
    hide ScopeOf, RefreshCall, Delivered, Bypasses, SettledReply;
    if IsCommand(s, e.task) {
      DeliveredDraft(s, e.task, e.ok);
      DeliveredIs(s, e.task, e.ok);
      DeliveredFirst(s, e.task, e.ok);
      var m := Delivered(s, e.task, e.ok);
      var idle := m.(screen := m.screen.(busy := false));
      RefreshCallIs(idle);
      SameScopes(idle, RefreshCall(idle));
    } else {
      NothingBypasses(s, e);
    }
  }

  lemma NothingBypasses(s: State, e: Event)
    requires e.Settled? && !IsCommand(s, e.task)
    ensures !Bypasses(s, e)
  {
  }

  lemma SameScopes(s: State, n: State)
    requires |n.contexts| == |s.contexts|
    requires forall i :: 0 <= i < |s.contexts| ==> n.contexts[i] == s.contexts[i].(pending := n.contexts[i].pending)
    ensures forall i :: 0 <= i < |s.contexts| ==> ScopeOf(n.contexts[i]) == ScopeOf(s.contexts[i])
  {
  }

  lemma ScopesStay(s: State, e: Event)
    requires Refreshes(e) && Inv(s)
    ensures var n := Step(s, e);
            n.context == s.context && n.drafts == s.drafts && n.screen.draft == s.screen.draft
            && |n.contexts| == |s.contexts|
            && forall i :: 0 <= i < |s.contexts| ==> ScopeOf(n.contexts[i]) == ScopeOf(s.contexts[i])
  {
    StepMoves(s, e);
    RefreshFrame(s, e);
    hide Step, Inv, Clears, Fails, Shows, EndsRefresh, StartsRefresh, Sends, Acts, Reconnects, Settles;
    assert !Selects(s, e) && !Reselects(s, e);
    forall i | 0 <= i < |s.contexts|
      ensures ScopeOf(Step(s, e).contexts[i]) == ScopeOf(s.contexts[i])
    {
      assert ContextMoves(s, e, Step(s, e), i);
    }
  }

  lemma OpenConfirmedDraft(s: State, e: Event)
    requires e.OpenConfirmed? && ReadInEpoch(s) && DraftShown(s)
    ensures DraftShown(Step(s, e)) && !Bypasses(s, e)
  {
    hide StillChosen;
  }

  /**
    The draft on the screen is the one kept for the open conversation, until a message with its text is delivered for
    another context of the same scope: then the stored draft goes and the one on the screen stays.
   */
  lemma DraftStaysShownIff(s: State, e: Event)
    requires Inv(s) && DraftShown(s)
    ensures DraftShown(Step(s, e)) <==> !Bypasses(s, e)
  {
    assert ReadInEpoch(s);
    hide Inv;
    if e.Settled? {
      SettledDraftShown(s, e);
    } else if Refreshes(e) {
      hide Step, ScopeOf;
      ScopesStay(s, e);
    } else if e.OpenConfirmed? {
      hide Step;
      OpenConfirmedDraft(s, e);
    } else {
      hide Blank, StillChosen, ScopeOf, OpenConfirmReply, RefreshListReply, RefreshReadReply, RefreshConfirmReply, SettledReply;
    }
  }
}
