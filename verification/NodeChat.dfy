/**
  The controller of remote conversations: selecting one, keeping it fresh, and sending commands under idempotency keys.
  Every method is cut at its waits; the calls waiting are the tasks of the state.
 */
module NodeChat {
  import opened Option
  import opened Strings

  /** A connection as listed: its status and the node it is bound to. */
  datatype Server = Server(status: string, nodeId: string)

  /** What a snapshot says of one bot, as far as later steps look at it. */
  datatype Conversation = Conversation(frozen: bool, goals: set<string>, cancelling: bool, uncertain: bool)

  /** `complete` says whether the lists of bots and goals are there; `bots` holds the bots that can be read. */
  datatype Snapshot = Snapshot(nodeId: string, complete: bool, bots: map<string, Conversation>)

  /** `readIn` is the connection epoch in which the conversation shown was asked for. */
  datatype Context = Context(id: string, nodeId: string, botId: string, pending: bool, available: bool, frozen: bool,
                             goals: set<string>, readIn: int)

  datatype Screen = Screen(active: bool, draft: string, busy: bool, online: bool, cancelling: bool, uncertain: bool)

  datatype Command =
    | Submit(botId: string, prompt: string)
    | Cancel(goalId: string)
    | Accept(goalId: string, expectedVersion: int)
    | Reconcile(goalId: string, expectedVersion: int, note: string)

  /** Stands for the JSON text of scope and command, which tells different ones apart. */
  datatype Signature = Signature(scope: string, command: Command)

  datatype Point = Listing | Reading | Confirming

  /** Contexts are objects, named by their position; an opening call holds what it has read so far. */
  datatype Task =
    | Opening(serial: int, epoch: int, id: string, botId: string, nodeId: string, point: Point, read: Conversation)
    | Refreshing(ctx: int, since: int, stage: Point, shown: Snapshot)
    | Sending(ctx: int, signature: Signature, key: int)
    | Resuming(ctx: int)
    | Ended

  /** What a command is addressed to: one bot, of one node, over one connection. */
  datatype Target = Target(id: string, nodeId: string, botId: string)

  datatype Entry = Attempted(signature: Signature, key: int, target: Target) | Succeeded(signature: Signature)

  datatype State = State(
    selectionSerial: int, connectionEpoch: int, context: Option<int>, contexts: seq<Context>, screen: Screen,
    drafts: map<string, string>, commands: map<Signature, int>, keys: int, tasks: seq<Task>, log: seq<Entry>)

  /** A list reply is None when the request failed, otherwise the connection if it is listed. */
  datatype Event =
    | Open(id: string, botId: string)
    | OpenAborted(task: int)
    | OpenListed(task: int, list: Option<Option<Server>>)
    | OpenRead(task: int, snapshot: Option<Snapshot>)
    | OpenConfirmed(task: int, list: Option<Option<Server>>)
    | Close
    | SetDraft(text: string)
    | ConnectionChanged
    | Refresh
    | RefreshListed(task: int, list: Option<Option<Server>>)
    | RefreshRead(task: int, snapshot: Option<Snapshot>)
    | RefreshConfirmed(task: int, list: Option<Option<Server>>)
    | Send(text: string)
    | Act(command: Command)
    | Reconnect
    | Settled(task: int, ok: bool)

  const BLANK := Conversation(false, {}, false, false)
  const UNREAD := Snapshot("", false, map[])

  function Initial(): State {
    State(0, 0, None, [], Screen(false, "", false, false, false, false), map[], map[], 0, [], [])
  }

  function Scope(id: string, nodeId: string, botId: string): string { id + ":" + nodeId + ":" + botId }

  function ScopeOf(c: Context): string { Scope(c.id, c.nodeId, c.botId) }

  function TargetOf(c: Context): Target { Target(c.id, c.nodeId, c.botId) }

  function Draft(s: State, scope: string): string { if scope in s.drafts then s.drafts[scope] else "" }

  function End(s: State, i: int): State
    requires 0 <= i < |s.tasks|
  {
    s.(tasks := s.tasks[i := Ended])
  }

  predicate IsOpen(s: State, i: int, point: Point) {
    0 <= i < |s.tasks| && s.tasks[i].Opening? && s.tasks[i].point == point
  }

  predicate IsRefresh(s: State, i: int, point: Point) {
    && 0 <= i < |s.tasks| && s.tasks[i].Refreshing? && s.tasks[i].stage == point
    && 0 <= s.tasks[i].ctx < |s.contexts|
  }

  // ---------------------------------------------------------------- opening and closing

  /** No other selection and no connection change since the call began. */
  predicate StillChosen(s: State, t: Task)
    requires t.Opening?
  {
    t.serial == s.selectionSerial && t.epoch == s.connectionEpoch
  }

  function OpenCall(s: State, id: string, botId: string): State {
    if id == "" || botId == "" then s
    else
      s.(selectionSerial := s.selectionSerial + 1,
         tasks := s.tasks + [Opening(s.selectionSerial + 1, s.connectionEpoch, id, botId, "", Listing, BLANK)])
  }

  function OpenListReply(s: State, i: int, list: Option<Option<Server>>): State
    requires IsOpen(s, i, Listing)
  {
    var t := s.tasks[i];
    if StillChosen(s, t) && list.Some? && list.value.Some? && list.value.value.status == "online"
       && list.value.value.nodeId != ""
    then s.(tasks := s.tasks[i := t.(nodeId := list.value.value.nodeId, point := Reading)])
    else End(s, i)
  }

  function OpenReadReply(s: State, i: int, snapshot: Option<Snapshot>): State
    requires IsOpen(s, i, Reading)
  {
    var t := s.tasks[i];
    if StillChosen(s, t) && snapshot.Some? && snapshot.value.nodeId == t.nodeId && snapshot.value.complete && t.botId in snapshot.value.bots
    then s.(tasks := s.tasks[i := t.(read := snapshot.value.bots[t.botId], point := Confirming)])
    else End(s, i)
  }

  /** The confirming reply lets the call take the selection. */
  predicate Commits(s: State, i: int, list: Option<Option<Server>>) {
    && IsOpen(s, i, Confirming) && StillChosen(s, s.tasks[i])
    && list.Some? && list.value.Some? && list.value.value == Server("online", s.tasks[i].nodeId)
  }

  function Apply(c: Context, botId: string, read: Conversation, epoch: int): Context {
    c.(botId := botId, available := true, frozen := read.frozen, goals := read.goals, readIn := epoch)
  }

  /** A selection of the scope already open keeps its context, any other makes a new one. */
  function Commit(s: State, t: Task): State
    requires t.Opening?
  {
    var scope := Scope(t.id, t.nodeId, t.botId);
    if s.context.Some? && 0 <= s.context.value < |s.contexts| && ScopeOf(s.contexts[s.context.value]) == scope then
      var c := Apply(s.contexts[s.context.value], t.botId, t.read, t.epoch);
      s.(contexts := s.contexts[s.context.value := c],
         screen := Screen(true, Draft(s, ScopeOf(c)), s.screen.busy, true, t.read.cancelling, t.read.uncertain))
    else
      var c := Apply(Context(t.id, t.nodeId, t.botId, false, false, false, {}, 0), t.botId, t.read, t.epoch);
      s.(context := Some(|s.contexts|), contexts := s.contexts + [c],
         screen := Screen(true, Draft(s, scope), false, true, t.read.cancelling, t.read.uncertain))
  }

  function OpenConfirmReply(s: State, i: int, list: Option<Option<Server>>): State
    requires IsOpen(s, i, Confirming)
  {
    if Commits(s, i, list) then Commit(End(s, i), s.tasks[i]) else End(s, i)
  }

  function CloseCall(s: State): State {
    s.(selectionSerial := s.selectionSerial + 1, context := None, screen := s.screen.(active := false, busy := false))
  }

  function DraftCall(s: State, text: string): State {
    if s.context.None? || !(0 <= s.context.value < |s.contexts|) then s
    else s.(drafts := s.drafts[ScopeOf(s.contexts[s.context.value]) := text], screen := s.screen.(draft := text))
  }

  function ChangeCall(s: State): State {
    var n := s.(connectionEpoch := s.connectionEpoch + 1);
    if s.context.None? || !(0 <= s.context.value < |s.contexts|) then n
    else n.(contexts := s.contexts[s.context.value := s.contexts[s.context.value].(available := false)])
  }

  // ---------------------------------------------------------------- refreshing

  function RefreshCall(s: State): State {
    if s.context.None? || !(0 <= s.context.value < |s.contexts|) || s.contexts[s.context.value].pending then s
    else
      s.(contexts := s.contexts[s.context.value := s.contexts[s.context.value].(pending := true)],
         tasks := s.tasks + [Refreshing(s.context.value, s.connectionEpoch, Listing, UNREAD)])
  }

  predicate StillShown(s: State, t: Task)
    requires t.Refreshing?
  {
    s.context == Some(t.ctx) && t.since == s.connectionEpoch
  }

  function EndRefresh(s: State, i: int): State
    requires 0 <= i < |s.tasks| && s.tasks[i].Refreshing? && 0 <= s.tasks[i].ctx < |s.contexts|
  {
    var ctx := s.tasks[i].ctx;
    s.(tasks := s.tasks[i := Ended], contexts := s.contexts[ctx := s.contexts[ctx].(pending := false)])
  }

  /** The connection cannot be used: nothing is shown any more, and the server counts as `online` says. */
  function ClearUnavailable(s: State, ctx: int, online: bool): State
    requires 0 <= ctx < |s.contexts|
  {
    s.(contexts := s.contexts[ctx := s.contexts[ctx].(available := false, goals := {})],
       screen := s.screen.(online := online, cancelling := false, uncertain := false))
  }

  /** A read failed: what was shown stays on the screen but cannot be acted upon. */
  function ReadFailed(s: State, ctx: int): State
    requires 0 <= ctx < |s.contexts|
  {
    s.(contexts := s.contexts[ctx := s.contexts[ctx].(available := false, goals := {})])
  }

  predicate Usable(list: Option<Option<Server>>, nodeId: string) {
    list.Some? && list.value.Some? && list.value.value.nodeId == nodeId && list.value.value.status in ["online", "reconnecting"]
  }

  /** What a list reply that rules the connection out does. */
  function Refused(s: State, ctx: int, list: Option<Option<Server>>): State
    requires 0 <= ctx < |s.contexts|
  {
    if list.None? then ReadFailed(s, ctx) else ClearUnavailable(s, ctx, false)
  }

  function RefreshListReply(s: State, i: int, list: Option<Option<Server>>): State
    requires IsRefresh(s, i, Listing)
  {
    var t := s.tasks[i];
    if !StillShown(s, t) then EndRefresh(s, i)
    else if Usable(list, s.contexts[t.ctx].nodeId) then s.(tasks := s.tasks[i := t.(stage := Reading)])
    else EndRefresh(Refused(s, t.ctx, list), i)
  }

  function RefreshReadReply(s: State, i: int, snapshot: Option<Snapshot>): State
    requires IsRefresh(s, i, Reading)
  {
    var t := s.tasks[i];
    if !StillShown(s, t) then EndRefresh(s, i)
    else if snapshot.None? then EndRefresh(ReadFailed(s, t.ctx), i)
    else s.(tasks := s.tasks[i := t.(stage := Confirming, shown := snapshot.value)])
  }

  function RefreshConfirmReply(s: State, i: int, list: Option<Option<Server>>): State
    requires IsRefresh(s, i, Confirming)
  {
    var t, c := s.tasks[i], s.contexts[s.tasks[i].ctx];
    if !StillShown(s, t) then EndRefresh(s, i)
    else if !Usable(list, c.nodeId) then EndRefresh(Refused(s, t.ctx, list), i)
    else if t.shown.nodeId != c.nodeId then EndRefresh(ClearUnavailable(s, t.ctx, false), i)
    else if !t.shown.complete then EndRefresh(ReadFailed(s, t.ctx), i)
    else if c.botId !in t.shown.bots then EndRefresh(ClearUnavailable(s, t.ctx, false), i)
    else
      var read := t.shown.bots[c.botId];
      EndRefresh(s.(contexts := s.contexts[t.ctx := Apply(c, c.botId, read, t.since)],
                    screen := s.screen.(online := list.value.value.status == "online", cancelling := read.cancelling,
                                        uncertain := read.uncertain)), i)
  }

  // ---------------------------------------------------------------- commands

  /** An open context with nothing under way. */
  predicate Idle(s: State) { s.context.Some? && 0 <= s.context.value < |s.contexts| && !s.screen.busy }

  predicate MaySend(s: State, text: string) {
    && Idle(s) && !Blank(text)
    && var c := s.contexts[s.context.value];
       s.screen.online && c.available && !s.screen.uncertain && !c.frozen && !s.screen.cancelling
  }

  predicate MayAct(s: State, command: Command) {
    && Idle(s) && !command.Submit?
    && var c := s.contexts[s.context.value];
       s.screen.online && c.available && command.goalId in c.goals
  }

  /** Attempts a command under the key of earlier unsuccessful attempts, or under a fresh one. */
  function Perform(s: State, ctx: int, signature: Signature): State
    requires 0 <= ctx < |s.contexts|
  {
    var isNew := signature !in s.commands;
    var key := if isNew then s.keys else s.commands[signature];
    s.(commands := s.commands[signature := key], keys := if isNew then s.keys + 1 else s.keys,
       tasks := s.tasks + [Sending(ctx, signature, key)], log := s.log + [Attempted(signature, key, TargetOf(s.contexts[ctx]))],
       screen := s.screen.(busy := true))
  }

  function SendCall(s: State, text: string): State {
    if !MaySend(s, text) then s
    else
      var c := s.contexts[s.context.value];
      Perform(s, s.context.value, Signature(ScopeOf(c), Submit(c.botId, text)))
  }

  function ActCall(s: State, command: Command): State {
    if !MayAct(s, command) then s
    else Perform(s, s.context.value, Signature(ScopeOf(s.contexts[s.context.value]), command))
  }

  function ReconnectCall(s: State): State {
    if !Idle(s) then s
    else s.(tasks := s.tasks + [Resuming(s.context.value)], screen := s.screen.(busy := true))
  }

  predicate IsCommand(s: State, i: int) {
    0 <= i < |s.tasks| && (s.tasks[i].Sending? || s.tasks[i].Resuming?) && 0 <= s.tasks[i].ctx < |s.contexts|
  }

  /** A success forgets the key; that of a message also drops its draft, unless it was edited meanwhile. */
  function Succeed(s: State, t: Task): State
    requires t.Sending? && 0 <= t.ctx < |s.contexts|
  {
    var n := s.(commands := s.commands - {t.signature}, log := s.log + [Succeeded(t.signature)]);
    if !t.signature.command.Submit? then n
    else
      var scope := ScopeOf(s.contexts[t.ctx]);
      var sent := scope in s.drafts && s.drafts[scope] == t.signature.command.prompt;
      var m := n.(drafts := if sent then s.drafts - {scope} else s.drafts);
      if s.context == Some(t.ctx) then m.(screen := s.screen.(draft := Draft(m, scope))) else m
  }

  function SettledReply(s: State, i: int, ok: bool): State
    requires IsCommand(s, i)
  {
    var t, n := s.tasks[i], End(s, i);
    var m := if ok && t.Sending? then Succeed(n, t) else n;
    if s.context == Some(t.ctx) then RefreshCall(m.(screen := m.screen.(busy := false))) else m
  }

  /** A reply no task waits for is no event at all. */
  function Step(s: State, e: Event): State {
    match e
    case Open(id, botId) => OpenCall(s, id, botId)
    case OpenAborted(i) => if 0 <= i < |s.tasks| && s.tasks[i].Opening? then End(s, i) else s
    case OpenListed(i, list) => if IsOpen(s, i, Listing) then OpenListReply(s, i, list) else s
    case OpenRead(i, snapshot) => if IsOpen(s, i, Reading) then OpenReadReply(s, i, snapshot) else s
    case OpenConfirmed(i, list) => if IsOpen(s, i, Confirming) then OpenConfirmReply(s, i, list) else s
    case Close => CloseCall(s)
    case SetDraft(text) => DraftCall(s, text)
    case ConnectionChanged => ChangeCall(s)
    case Refresh => RefreshCall(s)
    case RefreshListed(i, list) => if IsRefresh(s, i, Listing) then RefreshListReply(s, i, list) else s
    case RefreshRead(i, snapshot) => if IsRefresh(s, i, Reading) then RefreshReadReply(s, i, snapshot) else s
    case RefreshConfirmed(i, list) => if IsRefresh(s, i, Confirming) then RefreshConfirmReply(s, i, list) else s
    case Send(text) => SendCall(s, text)
    case Act(command) => ActCall(s, command)
    case Reconnect => ReconnectCall(s)
    case Settled(i, ok) => if IsCommand(s, i) then SettledReply(s, i, ok) else s
  }

  function Run(es: seq<Event>): State
    decreases |es|
  {
    if es == [] then Initial() else Step(Run(es[..|es| - 1]), es[|es| - 1])
  }

  // ---------------------------------------------------------------- a selection is undisturbed

  /** Whether an event is a selection, a close or a connection change. */
  predicate Disturbs(e: Event) { (e.Open? && e.id != "" && e.botId != "") || e.Close? || e.ConnectionChanged? }

  /** The clocks of an opening call and what it captured move on as they may. */
  predicate Follows(s: State, n: State, ticks: int) {
    && n.selectionSerial + n.connectionEpoch == s.selectionSerial + s.connectionEpoch + ticks
    && n.selectionSerial >= s.selectionSerial && n.connectionEpoch >= s.connectionEpoch
    && |n.tasks| >= |s.tasks|
    && forall i :: 0 <= i < |s.tasks| && n.tasks[i].Opening? ==>
         s.tasks[i].Opening? && n.tasks[i].serial == s.tasks[i].serial && n.tasks[i].epoch == s.tasks[i].epoch
         && n.tasks[i].id == s.tasks[i].id && n.tasks[i].botId == s.tasks[i].botId
  }

  lemma OpenFollows(s: State, e: Event)
    requires e.Open? || e.OpenAborted? || e.OpenListed? || e.OpenRead? || e.OpenConfirmed?
    ensures Follows(s, Step(s, e), if Disturbs(e) then 1 else 0)
  {
  }

  predicate Refreshes(e: Event) { e.Refresh? || e.RefreshListed? || e.RefreshRead? || e.RefreshConfirmed? }

  /** Only contexts, the screen and tasks other than opening calls change. */
  predicate OnlyShows(s: State, n: State) {
    && n == s.(contexts := n.contexts, screen := n.screen, tasks := n.tasks)
    && |n.tasks| >= |s.tasks|
    && forall i :: 0 <= i < |s.tasks| ==> n.tasks[i] == s.tasks[i] || !n.tasks[i].Opening?
  }

  lemma RefreshListedFrame(s: State, i: int, list: Option<Option<Server>>)
    requires IsRefresh(s, i, Listing)
    ensures OnlyShows(s, RefreshListReply(s, i, list))
  {
    hide Usable;
  }

  lemma RefreshReadFrame(s: State, i: int, snapshot: Option<Snapshot>)
    requires IsRefresh(s, i, Reading)
    ensures OnlyShows(s, RefreshReadReply(s, i, snapshot))
  {
  }

  lemma RefreshConfirmedFrame(s: State, i: int, list: Option<Option<Server>>)
    requires IsRefresh(s, i, Confirming)
    ensures OnlyShows(s, RefreshConfirmReply(s, i, list))
  {
    hide Usable, Apply;
  }

  /** Refreshing changes contexts, the screen and its own task. */
  lemma RefreshFrame(s: State, e: Event)
    requires Refreshes(e)
    ensures OnlyShows(s, Step(s, e))
  {
    hide RefreshListReply, RefreshReadReply, RefreshConfirmReply;
    if e.RefreshListed? && IsRefresh(s, e.task, Listing) {
      RefreshListedFrame(s, e.task, e.list);
    } else if e.RefreshRead? && IsRefresh(s, e.task, Reading) {
      RefreshReadFrame(s, e.task, e.snapshot);
    } else if e.RefreshConfirmed? && IsRefresh(s, e.task, Confirming) {
      RefreshConfirmedFrame(s, e.task, e.list);
    }
  }

  /** A success touches neither the contexts nor the tasks. */
  lemma SucceedFrame(s: State, t: Task)
    requires t.Sending? && IsCtx(s, t.ctx)
    ensures var n := Succeed(s, t);
            n == s.(screen := n.screen, drafts := n.drafts, commands := n.commands, log := n.log)
  {
  }

  lemma SettledFollows(s: State, e: Event)
    requires e.Settled?
    ensures Follows(s, Step(s, e), 0)
  {
    hide Succeed, RefreshCall;
    if IsCommand(s, e.task) {
      var t, n := s.tasks[e.task], End(s, e.task);
      if t.Sending? {
        SucceedFrame(n, t);
      }
      var m := if e.ok && t.Sending? then Succeed(n, t) else n;
      RefreshFrame(m.(screen := m.screen.(busy := false)), Refresh);
    }
  }

  lemma StepFollows(s: State, e: Event)
    ensures Follows(s, Step(s, e), if Disturbs(e) then 1 else 0)
  {
    if e.Open? || e.OpenAborted? || e.OpenListed? || e.OpenRead? || e.OpenConfirmed? {
      OpenFollows(s, e);
    } else if Refreshes(e) {
      hide Step;
      RefreshFrame(s, e);
    } else if e.Settled? {
      SettledFollows(s, e);
    }
  }

  lemma RunOfPrefix(es: seq<Event>, k: int)
    requires 0 <= k < |es|
    ensures Run(es[..k + 1]) == Step(Run(es[..k]), es[k])
  {
    assert es[..k + 1][..k] == es[..k];
  }

  /** From event b, which began call i, to event k: how far the serial and the epoch have moved. */
  lemma {:induction false} CaptureThrough(es: seq<Event>, b: int, k: int)
    requires 0 <= b < k <= |es| && es[b].Open? && Disturbs(es[b])
    ensures var i, s, n := |Run(es[..b]).tasks|, Run(es[..b]), Run(es[..k]);
            && i < |n.tasks|
            && (n.tasks[i].Opening? ==> n.tasks[i].serial == s.selectionSerial + 1 && n.tasks[i].epoch == s.connectionEpoch
                                        && n.tasks[i].id == es[b].id && n.tasks[i].botId == es[b].botId)
            && n.selectionSerial >= s.selectionSerial + 1 && n.connectionEpoch >= s.connectionEpoch
            && (n.selectionSerial + n.connectionEpoch == s.selectionSerial + s.connectionEpoch + 1 ==>
                  forall l :: b < l < k ==> !Disturbs(es[l]))
    decreases k
  {
    hide Step;
    RunOfPrefix(es, k - 1);
    if k == b + 1 {
      FreshOpening(Run(es[..b]), es[b]);
    } else {
      CaptureThrough(es, b, k - 1);
      StepFollows(Run(es[..k - 1]), es[k - 1]);
    }
  }

  lemma FreshOpening(s: State, e: Event)
    requires e.Open? && Disturbs(e)
    ensures var n := Step(s, e);
            && |n.tasks| == |s.tasks| + 1
            && n.tasks[|s.tasks|] == Opening(s.selectionSerial + 1, s.connectionEpoch, e.id, e.botId, "", Listing, BLANK)
            && n.selectionSerial == s.selectionSerial + 1 && n.connectionEpoch == s.connectionEpoch
  {
  }

  /**
    When event k makes the call begun by event b take the selection, nothing was selected or closed and no connection
    changed in between.
   */
  lemma CommitIsUndisturbed(es: seq<Event>, b: int, k: int)
    requires 0 <= b < k < |es| && es[b].Open? && Disturbs(es[b]) && es[k].OpenConfirmed?
    requires es[k].task == |Run(es[..b]).tasks| && Commits(Run(es[..k]), es[k].task, es[k].list)
    ensures forall l :: b < l < k ==> !Disturbs(es[l])
    ensures var t := Run(es[..k]).tasks[es[k].task]; t.id == es[b].id && t.botId == es[b].botId
  {
    hide Run;
    CaptureThrough(es, b, k);
  }

  /** A call that does not take the selection changes nothing but itself; one that does leaves the stored drafts alone. */
  lemma UncommittedOpenIsInvisible(s: State, e: Event)
    requires e.OpenAborted? || e.OpenListed? || e.OpenRead? || e.OpenConfirmed?
    ensures var n := Step(s, e);
            if e.OpenConfirmed? && Commits(s, e.task, e.list)
            then n.drafts == s.drafts && n.commands == s.commands && n.log == s.log
            else n == s.(tasks := n.tasks)
  {
  }

  // ---------------------------------------------------------------- what every run keeps

  predicate IsCtx(s: State, ctx: int) { 0 <= ctx < |s.contexts| }

  predicate TaskOk(s: State, t: Task) {
    && (t.Refreshing? || t.Sending? || t.Resuming? ==> IsCtx(s, t.ctx))
    && (t.Sending? || t.Resuming? ==> s.context == Some(t.ctx) ==> s.screen.busy)
    && (t.Opening? ==> t.epoch <= s.connectionEpoch)
  }

  predicate Runs(t: Task) { t.Sending? || t.Resuming? }

  predicate CommandsApart(s: State) {
    forall i, j :: 0 <= i < j < |s.tasks| && Runs(s.tasks[i]) && Runs(s.tasks[j]) ==> s.tasks[i].ctx != s.tasks[j].ctx
  }

  /** The conversation that can be acted upon was asked for after the last connection change. */
  predicate ReadInEpoch(s: State) {
    && (s.context.Some? ==> IsCtx(s, s.context.value))
    && (s.context.Some? && s.contexts[s.context.value].available ==>
          s.contexts[s.context.value].readIn == s.connectionEpoch)
  }

  predicate Inv(s: State) { ReadInEpoch(s) && CommandsApart(s) && forall t :: t in s.tasks ==> TaskOk(s, t) }

  /** A task is replaced by one that needs no more. */
  lemma ReplaceKeeps(s: State, i: int, t: Task)
    requires Inv(s) && 0 <= i < |s.tasks| && TaskOk(s, t) && !Runs(t)
    ensures Inv(s.(tasks := s.tasks[i := t]))
  {
    var n := s.(tasks := s.tasks[i := t]);
    forall u | u in n.tasks
      ensures TaskOk(n, u)
    {
      assert u == t || u in s.tasks;
    }
  }

  /** No command of the open context is under way once it is idle. */
  predicate NoCommandOf(s: State, ctx: int) { forall t :: t in s.tasks && Runs(t) ==> t.ctx != ctx }

  lemma AddKeeps(s: State, t: Task)
    requires Inv(s) && TaskOk(s, t) && (Runs(t) ==> NoCommandOf(s, t.ctx))
    ensures Inv(s.(tasks := s.tasks + [t]))
  {
    var n := s.(tasks := s.tasks + [t]);
    forall u | u in n.tasks
      ensures TaskOk(n, u)
    {
      assert u == t || u in s.tasks;
    }
  }

  /** Changes of a context that do not make it available, and of the screen that do not make it idle. */
  lemma ContextKeeps(s: State, ctx: int, c: Context, screen: Screen)
    requires Inv(s) && IsCtx(s, ctx) && (s.screen.busy ==> screen.busy)
    requires c.available ==> (s.contexts[ctx].available && c.readIn == s.contexts[ctx].readIn) || c.readIn == s.connectionEpoch
    ensures Inv(s.(contexts := s.contexts[ctx := c], screen := screen))
  {
    var n := s.(contexts := s.contexts[ctx := c], screen := screen);
    forall t | t in n.tasks
      ensures TaskOk(n, t)
    {
      assert TaskOk(s, t);
    }
  }

  lemma ScreenKeeps(s: State, screen: Screen)
    requires Inv(s) && (s.screen.busy && s.context.Some? && !screen.busy ==> NoCommandOf(s, s.context.value))
    ensures Inv(s.(screen := screen))
  {
    var n := s.(screen := screen);
    forall t | t in n.tasks
      ensures TaskOk(n, t)
    {
      assert TaskOk(s, t);
    }
  }

  lemma CommitKeeps(s: State, t: Task)
    requires Inv(s) && t.Opening? && t.epoch == s.connectionEpoch
    ensures Inv(Commit(s, t))
  {
    var n := Commit(s, t);
    forall u | u in n.tasks
      ensures TaskOk(n, u)
    {
      assert TaskOk(s, u);
    }
  }

  lemma OpensKeep(s: State, e: Event)
    requires Inv(s) && (e.Open? || e.OpenAborted? || e.OpenListed? || e.OpenRead? || e.OpenConfirmed?)
    ensures Inv(Step(s, e))
  {
    hide Inv, Commit;
    if e.Open? {
      if e.id != "" && e.botId != "" {
        var n := s.(selectionSerial := s.selectionSerial + 1);
        SerialKeeps(s);
        AddKeeps(n, Opening(s.selectionSerial + 1, s.connectionEpoch, e.id, e.botId, "", Listing, BLANK));
      }
    } else if 0 <= e.task < |s.tasks| && s.tasks[e.task].Opening? {
      OpeningIsOk(s, e.task);
      ReplaceKeeps(s, e.task, Ended);
      var t := s.tasks[e.task];
      if e.OpenListed? && e.list.Some? && e.list.value.Some? {
        ReplaceKeeps(s, e.task, t.(nodeId := e.list.value.value.nodeId, point := Reading));
      } else if e.OpenRead? && e.snapshot.Some? && t.botId in e.snapshot.value.bots {
        ReplaceKeeps(s, e.task, t.(read := e.snapshot.value.bots[t.botId], point := Confirming));
      }
      if e.OpenConfirmed? && Commits(s, e.task, e.list) {
        CommitKeeps(End(s, e.task), s.tasks[e.task]);
      }
    }
  }

  lemma OpeningIsOk(s: State, i: int)
    requires Inv(s) && 0 <= i < |s.tasks|
    ensures TaskOk(s, s.tasks[i])
  {
  }

  lemma SerialKeeps(s: State)
    requires Inv(s)
    ensures Inv(s.(selectionSerial := s.selectionSerial + 1))
  {
    var n := s.(selectionSerial := s.selectionSerial + 1);
    forall t | t in n.tasks
      ensures TaskOk(n, t)
    {
      assert TaskOk(s, t);
    }
  }

  lemma ClosesKeep(s: State, e: Event)
    requires Inv(s) && (e.Close? || e.SetDraft? || e.ConnectionChanged?)
    ensures Inv(Step(s, e))
  {
    var n := Step(s, e);
    forall t | t in n.tasks
      ensures TaskOk(n, t)
    {
      assert TaskOk(s, t);
    }
  }

  lemma RefreshCallKeeps(s: State)
    requires Inv(s)
    ensures Inv(RefreshCall(s))
  {
    if s.context.Some? && IsCtx(s, s.context.value) && !s.contexts[s.context.value].pending {
      var ctx := s.context.value;
      ContextKeeps(s, ctx, s.contexts[ctx].(pending := true), s.screen);
      hide Inv;
      AddKeeps(s.(contexts := s.contexts[ctx := s.contexts[ctx].(pending := true)], screen := s.screen),
               Refreshing(ctx, s.connectionEpoch, Listing, UNREAD));
    }
  }

  lemma EndRefreshKeeps(s: State, i: int)
    requires Inv(s) && 0 <= i < |s.tasks| && s.tasks[i].Refreshing? && IsCtx(s, s.tasks[i].ctx)
    ensures Inv(EndRefresh(s, i))
  {
    hide Inv;
    var ctx := s.tasks[i].ctx;
    ReplaceKeeps(s, i, Ended);
    var m := s.(tasks := s.tasks[i := Ended]);
    ContextKeeps(m, ctx, m.contexts[ctx].(pending := false), m.screen);
  }

  lemma RefusedKeeps(s: State, ctx: int, online: bool)
    requires Inv(s) && IsCtx(s, ctx)
    ensures Inv(ReadFailed(s, ctx)) && Inv(ClearUnavailable(s, ctx, online))
  {
    hide Inv;
    var c := s.contexts[ctx].(available := false, goals := {});
    ContextKeeps(s, ctx, c, s.screen);
    ContextKeeps(s, ctx, c, s.screen.(online := online, cancelling := false, uncertain := false));
  }

  lemma RefreshesKeep(s: State, e: Event)
    requires Inv(s) && (e.RefreshListed? || e.RefreshRead? || e.RefreshConfirmed?)
    ensures Inv(Step(s, e))
  {
    if 0 <= e.task < |s.tasks| && s.tasks[e.task].Refreshing? && IsCtx(s, s.tasks[e.task].ctx) {
      OpeningIsOk(s, e.task);
      hide Inv, EndRefresh, ReadFailed, ClearUnavailable;
      var i, t, ctx := e.task, s.tasks[e.task], s.tasks[e.task].ctx;
      EndRefreshKeeps(s, i);
      RefusedKeeps(s, ctx, false);
      EndRefreshKeeps(RefusedFor(s, ctx, true), i);
      EndRefreshKeeps(RefusedFor(s, ctx, false), i);
      ReplaceKeeps(s, i, t.(stage := Reading));
      if e.RefreshRead? && e.snapshot.Some? {
        ReplaceKeeps(s, i, t.(stage := Confirming, shown := e.snapshot.value));
      }
      if e.RefreshConfirmed? && t.since == s.connectionEpoch && Usable(e.list, s.contexts[ctx].nodeId)
         && s.contexts[ctx].botId in t.shown.bots {
        var c, read := s.contexts[ctx], t.shown.bots[s.contexts[ctx].botId];
        var screen := s.screen.(online := e.list.value.value.status == "online", cancelling := read.cancelling,
                                uncertain := read.uncertain);
        ContextKeeps(s, ctx, Apply(c, c.botId, read, t.since), screen);
        EndRefreshKeeps(s.(contexts := s.contexts[ctx := Apply(c, c.botId, read, t.since)], screen := screen), i);
      }
    }
  }

  function RefusedFor(s: State, ctx: int, soft: bool): State
    requires IsCtx(s, ctx)
  {
    if soft then ReadFailed(s, ctx) else ClearUnavailable(s, ctx, false)
  }

  /** Nothing of an idle context is under way. */
  lemma IdleHasNoCommand(s: State)
    requires Inv(s) && Idle(s)
    ensures NoCommandOf(s, s.context.value)
  {
    forall t | t in s.tasks && Runs(t)
      ensures t.ctx != s.context.value
    {
      assert TaskOk(s, t);
    }
  }

  lemma CommandsKeep(s: State, e: Event)
    requires Inv(s) && (e.Send? || e.Act? || e.Reconnect?)
    ensures Inv(Step(s, e))
  {
    hide Inv, NoCommandOf, Blank;
    var n := Step(s, e);
    if n != s {
      IdleHasNoCommand(s);
      var busy := s.(screen := s.screen.(busy := true));
      ScreenKeeps(s, busy.screen);
      IdleInRange(s);
      SameTasks(s, busy, s.context.value);
      AddKeeps(busy, n.tasks[|s.tasks|]);
      KeysPlayNoPart(busy.(tasks := busy.tasks + [n.tasks[|s.tasks|]]), n);
    }
  }

  lemma IdleInRange(s: State)
    requires Inv(s) && Idle(s)
    ensures IsCtx(s, s.context.value)
  {
  }

  lemma SameTasks(s: State, n: State, ctx: int)
    requires s.tasks == n.tasks && NoCommandOf(s, ctx)
    ensures NoCommandOf(n, ctx)
  {
  }

  lemma KeysPlayNoPart(s: State, n: State)
    requires Inv(s) && n == s.(commands := n.commands, keys := n.keys, log := n.log, drafts := n.drafts)
    ensures Inv(n)
  {
    forall t | t in n.tasks
      ensures TaskOk(n, t)
    {
      assert TaskOk(s, t);
    }
  }

  lemma EndedCommand(s: State, i: int)
    requires Inv(s) && IsCommand(s, i)
    ensures Inv(End(s, i)) && NoCommandOf(End(s, i), s.tasks[i].ctx)
  {
    ReplaceKeeps(s, i, Ended);
  }

  lemma SucceedKeeps(s: State, t: Task)
    requires Inv(s) && t.Sending? && IsCtx(s, t.ctx)
    ensures var n := Succeed(s, t);
            Inv(n) && n.tasks == s.tasks && n.contexts == s.contexts && n.context == s.context && n.screen.busy == s.screen.busy
  {
    hide Inv;
    var n := Succeed(s, t);
    ScreenKeeps(s, n.screen);
    KeysPlayNoPart(s.(screen := n.screen), n);
  }

  lemma SettledKeeps(s: State, e: Event)
    requires Inv(s) && e.Settled?
    ensures Inv(Step(s, e))
  {
    hide Inv, Succeed, RefreshCall, NoCommandOf;
    if IsCommand(s, e.task) {
      var t, n := s.tasks[e.task], End(s, e.task);
      EndedCommand(s, e.task);
      var m := if e.ok && t.Sending? then Succeed(n, t) else n;
      if e.ok && t.Sending? {
        SucceedKeeps(n, t);
      }
      SameTasks(n, m, t.ctx);
      if s.context == Some(t.ctx) {
        ScreenKeeps(m, m.screen.(busy := false));
        RefreshCallKeeps(m.(screen := m.screen.(busy := false)));
      }
    }
  }

  lemma StepKeeps(s: State, e: Event)
    requires Inv(s)
    ensures Inv(Step(s, e))
  {
    if e.Open? || e.OpenAborted? || e.OpenListed? || e.OpenRead? || e.OpenConfirmed? {
      OpensKeep(s, e);
    } else if e.Close? || e.SetDraft? || e.ConnectionChanged? {
      ClosesKeep(s, e);
    } else if e.Refresh? {
      RefreshCallKeeps(s);
    } else if e.Send? || e.Act? || e.Reconnect? {
      CommandsKeep(s, e);
    } else if e.Settled? {
      SettledKeeps(s, e);
    } else {
      RefreshesKeep(s, e);
    }
  }

  lemma {:induction false} RunKeeps(es: seq<Event>)
    ensures Inv(Run(es))
    decreases |es|
  {
    if es != [] {
      hide Inv, Step;
      RunKeeps(es[..|es| - 1]);
      StepKeeps(Run(es[..|es| - 1]), es[|es| - 1]);
    }
  }

  /** Of one context at most one command is under way, and while the open one has a command under way it is busy. */
  lemma OneCommandPerContext(es: seq<Event>, i: int, j: int)
    requires var tasks := Run(es).tasks; 0 <= i < |tasks| && 0 <= j < |tasks| && Runs(tasks[i]) && Runs(tasks[j])
    ensures var s := Run(es);
            && (s.tasks[i].ctx == s.tasks[j].ctx ==> i == j)
            && (s.context == Some(s.tasks[i].ctx) ==> s.screen.busy)
  {
    RunKeeps(es);
    assert TaskOk(Run(es), Run(es).tasks[i]);
  }

  /** A command is only attempted on a conversation that was asked for after the last connection change. */
  lemma CommandsAreCurrent(es: seq<Event>, e: Event)
    requires |Step(Run(es), e).log| > |Run(es).log| && (e.Send? || e.Act?)
    ensures var s := Run(es);
            && s.context.Some? && IsCtx(s, s.context.value)
            && var c := s.contexts[s.context.value];
               c.available && c.readIn == s.connectionEpoch && Step(s, e).log[|s.log|].signature.scope == ScopeOf(c)
  {
    hide Run;
    RunKeeps(es);
    AttemptsAreCurrent(Run(es), e);
  }

  lemma AttemptsAreCurrent(s: State, e: Event)
    requires Inv(s) && (e.Send? || e.Act?) && |Step(s, e).log| > |s.log|
    ensures s.context.Some? && IsCtx(s, s.context.value)
    ensures var c := s.contexts[s.context.value];
            c.available && c.readIn == s.connectionEpoch && Step(s, e).log[|s.log|].signature.scope == ScopeOf(c)
  {
    hide Blank, ScopeOf, Perform, CommandsApart, TaskOk;
    var ctx := s.context.value;
    var c := s.contexts[ctx];
    if e.Send? {
      PerformLogs(s, ctx, Signature(ScopeOf(c), Submit(c.botId, e.text)));
    } else {
      PerformLogs(s, ctx, Signature(ScopeOf(c), e.command));
    }
  }

  lemma PerformLogs(s: State, ctx: int, g: Signature)
    requires IsCtx(s, ctx)
    ensures |Perform(s, ctx, g).log| == |s.log| + 1 && Perform(s, ctx, g).log[|s.log|].signature == g
  {
  }

  // ---------------------------------------------------------------- idempotency keys

  /** The key an attempt of a command shares, if it was attempted since its last success. */
  function KeyOf(log: seq<Entry>, g: Signature): Option<int> {
    if log == [] then None
    else
      var last := log[|log| - 1];
      if last.signature != g then KeyOf(log[..|log| - 1], g)
      else if last.Attempted? then Some(last.key) else None
  }

  /** Attempt j uses the shared key, or one that no earlier attempt used. */
  predicate AttemptOk(log: seq<Entry>, j: int)
    requires 0 <= j < |log| && log[j].Attempted?
  {
    match KeyOf(log[..j], log[j].signature)
    case Some(key) => key == log[j].key
    case None => forall i :: 0 <= i < j && log[i].Attempted? ==> log[i].key != log[j].key
  }

  predicate WellKeyed(log: seq<Entry>) { forall j :: 0 <= j < |log| && log[j].Attempted? ==> AttemptOk(log, j) }

  /** The scope of an attempt is that of its target. */
  predicate Addressed(e: Entry)
    requires e.Attempted?
  {
    e.signature.scope == Scope(e.target.id, e.target.nodeId, e.target.botId)
  }

  ghost predicate KeysOk(s: State) {
    && WellKeyed(s.log)
    && (forall j :: 0 <= j < |s.log| && s.log[j].Attempted? ==> s.log[j].key < s.keys && Addressed(s.log[j]))
    && (forall g :: KeyOf(s.log, g) == if g in s.commands then Some(s.commands[g]) else None)
  }

  lemma LogGrows(log: seq<Entry>, e: Entry)
    requires WellKeyed(log) && (e.Attempted? ==> AttemptOk(log + [e], |log|))
    ensures WellKeyed(log + [e])
    ensures forall g :: KeyOf(log + [e], g) == if e.signature != g then KeyOf(log, g) else if e.Attempted? then Some(e.key) else None
  {
    var more := log + [e];
    assert more[..|log|] == log;
    forall j | 0 <= j < |more| && more[j].Attempted?
      ensures AttemptOk(more, j)
    {
      if j < |log| {
        assert AttemptOk(log, j);
        assert more[..j] == log[..j];
      }
    }
  }

  lemma PerformKeepsKeys(s: State, ctx: int, g: Signature)
    requires KeysOk(s) && IsCtx(s, ctx) && g.scope == ScopeOf(s.contexts[ctx])
    ensures KeysOk(Perform(s, ctx, g))
  {
    hide WellKeyed, KeyOf, Scope;
    var n := Perform(s, ctx, g);
    var attempt := Attempted(g, n.commands[g], TargetOf(s.contexts[ctx]));
    assert n.log == s.log + [attempt] && n.log[..|s.log|] == s.log;
    assert KeyOf(s.log, g) == if g in s.commands then Some(s.commands[g]) else None;
    if g in s.commands {
      var i := SharedKeyWasAttempted(s.log, g);
      assert s.log[i].key < s.keys;
    }
    assert AttemptOk(n.log, |s.log|);
    LogGrows(s.log, attempt);
    forall h
      ensures KeyOf(n.log, h) == if h in n.commands then Some(n.commands[h]) else None
    {
      assert KeyOf(s.log, h) == if h in s.commands then Some(s.commands[h]) else None;
    }
  }

  lemma SucceedKeepsKeys(s: State, t: Task)
    requires KeysOk(s) && t.Sending? && IsCtx(s, t.ctx)
    ensures KeysOk(Succeed(s, t))
  {
    hide WellKeyed, KeyOf;
    var n := Succeed(s, t);
    var success := Succeeded(t.signature);
    assert n.log == s.log + [success];
    LogGrows(s.log, success);
    forall h
      ensures KeyOf(n.log, h) == if h in n.commands then Some(n.commands[h]) else None
    {
      assert KeyOf(s.log, h) == if h in s.commands then Some(s.commands[h]) else None;
    }
  }

  lemma OtherStepsKeepKeys(s: State, e: Event)
    requires !e.Send? && !e.Act? && !e.Settled?
    ensures var n := Step(s, e); n.log == s.log && n.keys == s.keys && n.commands == s.commands
  {
    if Refreshes(e) {
      hide Step;
      RefreshFrame(s, e);
    }
  }

  lemma StepKeepsKeys(s: State, e: Event)
    requires KeysOk(s)
    ensures KeysOk(Step(s, e))
  {
    hide KeysOk, Perform, Succeed;
    if e.Send? {
      if MaySend(s, e.text) {
        var c := s.contexts[s.context.value];
        PerformKeepsKeys(s, s.context.value, Signature(ScopeOf(c), Submit(c.botId, e.text)));
      }
    } else if e.Act? {
      if MayAct(s, e.command) {
        PerformKeepsKeys(s, s.context.value, Signature(ScopeOf(s.contexts[s.context.value]), e.command));
      }
    } else if e.Settled? {
      if IsCommand(s, e.task) {
        var t, n := s.tasks[e.task], End(s, e.task);
        SameKeys(s, n);
        if e.ok && t.Sending? {
          SucceedKeepsKeys(n, t);
        }
        var m := if e.ok && t.Sending? then Succeed(n, t) else n;
        SameKeys(m, Step(s, e));
      }
    } else {
      OtherStepsKeepKeys(s, e);
      SameKeys(s, Step(s, e));
    }
  }

  lemma SameKeys(s: State, n: State)
    requires n.log == s.log && n.keys == s.keys && n.commands == s.commands && KeysOk(s)
    ensures KeysOk(n)
  {
  }

  lemma {:induction false} RunKeepsKeys(es: seq<Event>)
    ensures KeysOk(Run(es))
    decreases |es|
  {
    if es != [] {
      hide KeysOk, Step;
      RunKeepsKeys(es[..|es| - 1]);
      StepKeepsKeys(Run(es[..|es| - 1]), es[|es| - 1]);
    } else {
      assert Run(es).log == [];
    }
  }

  lemma {:induction false} SharedKeyWasAttempted(log: seq<Entry>, g: Signature) returns (i: int)
    requires KeyOf(log, g).Some?
    ensures 0 <= i < |log| && log[i].Attempted? && log[i].signature == g && log[i].key == KeyOf(log, g).value
  {
    if log[|log| - 1].signature == g {
      i := |log| - 1;
    } else {
      i := SharedKeyWasAttempted(log[..|log| - 1], g);
    }
  }

  lemma {:induction false} SameKeySameCommand(log: seq<Entry>, i: int, j: int)
    requires WellKeyed(log) && 0 <= i < j < |log| && log[i].Attempted? && log[j].Attempted? && log[i].key == log[j].key
    ensures log[i].signature == log[j].signature
    decreases j, i
  {
    assert AttemptOk(log, j);
    if KeyOf(log[..j], log[j].signature).Some? {
      var k := SharedKeyWasAttempted(log[..j], log[j].signature);
      assert log[k].Attempted? && log[k].signature == log[j].signature && log[k].key == log[j].key;
      if k < i {
        SameKeySameCommand(log, k, i);
      } else if i < k {
        SameKeySameCommand(log, i, k);
      }
    }
  }

  /** While a command does not succeed, the key of its attempt stays the shared one. */
  lemma {:induction false} KeyIsHeld(log: seq<Entry>, i: int, j: int)
    requires WellKeyed(log) && 0 <= i < j <= |log| && log[i].Attempted?
    requires forall m :: i < m < j ==> log[m] != Succeeded(log[i].signature)
    ensures KeyOf(log[..j], log[i].signature) == Some(log[i].key)
  {
    assert log[..j][..j - 1] == log[..j - 1];
    if i < j - 1 {
      KeyIsHeld(log, i, j - 1);
      if log[j - 1].Attempted? {
        assert AttemptOk(log, j - 1);
      }
    }
  }

  /** After a success the shared key is none of those attempted before. */
  lemma {:induction false} KeyIsNewAfterSuccess(log: seq<Entry>, m: int, j: int)
    requires WellKeyed(log) && 0 <= m < j <= |log| && log[m].Succeeded?
    ensures var key := KeyOf(log[..j], log[m].signature);
            key.Some? ==> forall i :: 0 <= i < m && log[i].Attempted? ==> log[i].key != key.value
  {
    assert log[..j][..j - 1] == log[..j - 1];
    if m < j - 1 {
      KeyIsNewAfterSuccess(log, m, j - 1);
      if log[j - 1].Attempted? {
        assert AttemptOk(log, j - 1);
      }
    }
  }

  /**
    Two attempts in a run use the same key exactly when they are attempts of the same command and no attempt of it
    succeeded in between.
   */
  lemma KeySharedIff(es: seq<Event>, i: int, j: int)
    requires var log := Run(es).log; 0 <= i < j < |log| && log[i].Attempted? && log[j].Attempted?
    ensures var log := Run(es).log;
            log[i].key == log[j].key
            <==> log[i].signature == log[j].signature && forall m :: i < m < j ==> log[m] != Succeeded(log[i].signature)
  {
    hide WellKeyed, Run, KeyOf;
    RunKeepsKeys(es);
    var log := Run(es).log;
    if log[i].key == log[j].key {
      SameKeySameCommand(log, i, j);
    }
    if log[i].signature == log[j].signature {
      KeysOfOneCommand(log, i, j);
    }
  }

  lemma KeysOfOneCommand(log: seq<Entry>, i: int, j: int)
    requires WellKeyed(log) && 0 <= i < j < |log| && log[i].Attempted? && log[j].Attempted?
    requires log[i].signature == log[j].signature
    ensures log[i].key == log[j].key <==> forall m :: i < m < j ==> log[m] != Succeeded(log[i].signature)
  {
    KeyIsHeld(log, j, j + 1);
    if m :| i < m < j && log[m] == Succeeded(log[i].signature) {
      KeyIsNewAfterSuccess(log, m, j + 1);
    } else {
      KeyIsHeld(log, i, j);
      assert AttemptOk(log, j);
    }
  }

  /** The parts two scopes must differ in: connections, or else nodes that are known to be one or free of colons. */
  predicate Separable(t: Target, u: Target) {
    && ':' !in t.id && ':' !in u.id
    && (t.id == u.id ==> t.nodeId == u.nodeId || (':' !in t.nodeId && ':' !in u.nodeId))
  }

  /**
    Connection ids are UUIDs, and a connection keeps its node. So scopes tell targets apart, whatever colons the ids of
    nodes and bots contain.
   */
  lemma ScopeIsInjective(t: Target, u: Target)
    requires Separable(t, u) && Scope(t.id, t.nodeId, t.botId) == Scope(u.id, u.nodeId, u.botId)
    ensures t == u
  {
    assert Scope(t.id, t.nodeId, t.botId) == t.id + ":" + (t.nodeId + ":" + t.botId);
    assert Scope(u.id, u.nodeId, u.botId) == u.id + ":" + (u.nodeId + ":" + u.botId);
    FirstColon(t.id, t.nodeId + ":" + t.botId, u.id, u.nodeId + ":" + u.botId);
    if ':' !in t.nodeId && ':' !in u.nodeId {
      FirstColon(t.nodeId, t.botId, u.nodeId, u.botId);
    } else {
      SameRest(t.nodeId + ":", t.botId, u.botId);
    }
  }

  lemma SameRest(prefix: string, a: string, b: string)
    requires prefix + a == prefix + b
    ensures a == b
  {
    assert a == (prefix + a)[|prefix|..] && b == (prefix + b)[|prefix|..];
  }

  /** A scope is that of one triple of ids only, exactly when none of the three contains a colon. */
  lemma ScopeIsUniqueIff(t: Target)
    ensures (forall u: Target :: Scope(u.id, u.nodeId, u.botId) == Scope(t.id, t.nodeId, t.botId) ==> u == t)
            <==> ':' !in t.id && ':' !in t.nodeId && ':' !in t.botId
  {
    hide Scope;
    if ':' in t.id || ':' in t.nodeId || ':' in t.botId {
      var u := ColonsConfuseScopes(t);
    } else {
      forall u: Target | Scope(u.id, u.nodeId, u.botId) == Scope(t.id, t.nodeId, t.botId)
        ensures u == t
      {
        FewColons(u, t);
        ScopeIsInjective(u, t);
      }
    }
  }

  /** A colon in any of the three ids makes another triple with the same scope. */
  lemma ColonsConfuseScopes(t: Target) returns (u: Target)
    requires ':' in t.id || ':' in t.nodeId || ':' in t.botId
    ensures u != t && Scope(u.id, u.nodeId, u.botId) == Scope(t.id, t.nodeId, t.botId)
  {
    if ':' in t.id {
      var a, b := AtColon(t.id);
      u := Target(a, b + ":" + t.nodeId, t.botId);
      assert a + ":" + (b + ":" + t.nodeId) + ":" + t.botId == (a + ":" + b) + ":" + t.nodeId + ":" + t.botId;
    } else if ':' in t.nodeId {
      var a, b := AtColon(t.nodeId);
      u := Target(t.id + ":" + a, b, t.botId);
      assert (t.id + ":" + a) + ":" + b + ":" + t.botId == t.id + ":" + (a + ":" + b) + ":" + t.botId;
      assert |u.id| > |t.id|;
    } else {
      var a, b := AtColon(t.botId);
      u := Target(t.id, t.nodeId + ":" + a, b);
      assert t.id + ":" + (t.nodeId + ":" + a) + ":" + b == t.id + ":" + t.nodeId + ":" + (a + ":" + b);
      assert |u.nodeId| > |t.nodeId|;
    }
  }

  lemma AtColon(s: string) returns (a: string, b: string)
    requires ':' in s
    ensures s == a + ":" + b && |a| < |s|
  {
    var i :| 0 <= i < |s| && s[i] == ':';
    a, b := s[..i], s[i + 1..];
  }

  function Colons(s: string): nat { if s == "" then 0 else Colons(s[1..]) + if s[0] == ':' then 1 else 0 }

  lemma {:induction false} ColonsAdd(a: string, b: string)
    ensures Colons(a + b) == Colons(a) + Colons(b)
  {
    if a == "" {
      assert a + b == b;
    } else {
      ColonsAdd(a[1..], b);
      assert (a + b)[1..] == a[1..] + b;
    }
  }

  lemma {:induction false} NoColons(s: string)
    ensures Colons(s) == 0 <==> ':' !in s
  {
    if s != "" {
      NoColons(s[1..]);
    }
  }

  lemma ColonsOfScope(t: Target)
    ensures Colons(Scope(t.id, t.nodeId, t.botId)) == Colons(t.id) + Colons(t.nodeId) + Colons(t.botId) + 2
  {
    ColonsAdd(t.id, ":");
    ColonsAdd(t.id + ":", t.nodeId);
    ColonsAdd(t.id + ":" + t.nodeId, ":");
    ColonsAdd(t.id + ":" + t.nodeId + ":", t.botId);
    assert ":"[1..] == "" && Colons(":") == 1;
  }

  /** Equal scopes, one of ids without colons: the other's have none either. */
  lemma FewColons(u: Target, t: Target)
    requires Scope(u.id, u.nodeId, u.botId) == Scope(t.id, t.nodeId, t.botId)
    requires ':' !in t.id && ':' !in t.nodeId && ':' !in t.botId
    ensures Separable(u, t)
  {
    hide Scope, Colons;
    ColonsOfScope(u);
    ColonsOfScope(t);
    NoColons(u.id);
    NoColons(u.nodeId);
    NoColons(t.id);
    NoColons(t.nodeId);
    NoColons(t.botId);
  }

  lemma FirstColon(a: string, rest: string, a': string, rest': string)
    requires ':' !in a && ':' !in a' && a + ":" + rest == a' + ":" + rest'
    ensures a == a' && rest == rest'
  {
    var s, s' := a + ":" + rest, a' + ":" + rest';
    assert s[|a|] == ':' && s'[|a'|] == ':';
    assert forall k :: 0 <= k < |a| ==> s[k] == a[k];
    assert forall k :: 0 <= k < |a'| ==> s'[k] == a'[k];
    assert |a| == |a'|;
    assert a == s[..|a|] && a' == s'[..|a'|] && rest == s[|a| + 1..] && rest' == s'[|a'| + 1..];
  }

  /**
    Two attempts in a run that use the same key are attempts of the same command to the same bot of the same node over
    the same connection.
   */
  lemma SameKeySameTarget(es: seq<Event>, i: int, j: int)
    requires var log := Run(es).log;
             && 0 <= i < |log| && 0 <= j < |log| && log[i].Attempted? && log[j].Attempted?
             && log[i].key == log[j].key && Separable(log[i].target, log[j].target)
    ensures var log := Run(es).log;
            log[i].target == log[j].target && log[i].signature.command == log[j].signature.command
  {
    hide WellKeyed, Run, KeyOf, Scope, Separable;
    RunKeepsKeys(es);
    var log := Run(es).log;
    if i < j {
      SameKeySameCommand(log, i, j);
    } else if j < i {
      SameKeySameCommand(log, j, i);
    }
    ScopeIsInjective(log[i].target, log[j].target);
  }

  // ---------------------------------------------------------------- drafts

  /** The draft of a scope is set. */
  predicate Sets(s: State, e: Event, scope: string) {
    e.SetDraft? && s.context.Some? && IsCtx(s, s.context.value) && ScopeOf(s.contexts[s.context.value]) == scope
  }

  /** A message with just this text, sent in a conversation of the scope, succeeds. */
  predicate Delivers(s: State, e: Event, scope: string, text: string) {
    e.Settled? && e.ok && IsCommand(s, e.task)
    && var t := s.tasks[e.task];
       t.Sending? && t.signature.command.Submit? && t.signature.command.prompt == text && ScopeOf(s.contexts[t.ctx]) == scope
  }

  lemma StepKeepsDraft(s: State, e: Event, scope: string)
    ensures var n := Step(s, e);
            if Sets(s, e, scope) then scope in n.drafts && n.drafts[scope] == e.text
            else if scope in s.drafts && Delivers(s, e, scope, s.drafts[scope]) then scope !in n.drafts
            else (scope in n.drafts <==> scope in s.drafts) && (scope in s.drafts ==> n.drafts[scope] == s.drafts[scope])
  {
    hide ScopeOf;
    if Refreshes(e) {
      hide Step;
      RefreshFrame(s, e);
    } else if e.OpenAborted? || e.OpenListed? || e.OpenRead? || e.OpenConfirmed? {
      hide Step;
      UncommittedOpenIsInvisible(s, e);
    } else if e.Settled? {
      SettledDraft(s, e, scope);
    }
  }

  lemma SettledDraft(s: State, e: Event, scope: string)
    requires e.Settled?
    ensures var n := Step(s, e);
            if scope in s.drafts && Delivers(s, e, scope, s.drafts[scope]) then scope !in n.drafts
            else (scope in n.drafts <==> scope in s.drafts) && (scope in s.drafts ==> n.drafts[scope] == s.drafts[scope])
  {
    hide ScopeOf;
  }

  /**
    A draft stays as it was set, through sends, refreshes, closing and other selections, until it is set again or a
    message with just that text is delivered in its scope.
   */
  lemma {:induction false} DraftIsKept(es: seq<Event>, i: int, j: int, scope: string)
    requires 0 <= i < j <= |es| && Sets(Run(es[..i]), es[i], scope)
    requires forall l :: i < l < j ==> !Sets(Run(es[..l]), es[l], scope) && !Delivers(Run(es[..l]), es[l], scope, es[i].text)
    ensures scope in Run(es[..j]).drafts && Run(es[..j]).drafts[scope] == es[i].text
    decreases j
  {
    hide Step, Sets, Delivers;
    RunOfPrefix(es, j - 1);
    StepKeepsDraft(Run(es[..j - 1]), es[j - 1], scope);
    if i < j - 1 {
      DraftIsKept(es, i, j - 1, scope);
    } else {
      assert Sets(Run(es[..i]), es[i], scope);
    }
  }

  /** Selecting a conversation shows the draft kept for its scope. */
  lemma CommitShowsDraft(s: State, i: int, list: Option<Option<Server>>)
    requires Commits(s, i, list)
    ensures var n := OpenConfirmReply(s, i, list);
            && n.context.Some? && IsCtx(n, n.context.value)
            && n.screen.draft == Draft(s, ScopeOf(n.contexts[n.context.value])) && n.screen.active
  {
  }

  // ---------------------------------------------------------------- the controller

  /** What holds of every reachable state. */
  ghost predicate Good(s: State) { Inv(s) && KeysOk(s) }

  lemma GoodKept(s: State, e: Event)
    requires Good(s)
    ensures Good(Step(s, e))
  {
    hide Inv, KeysOk, Step;
    StepKeeps(s, e);
    StepKeepsKeys(s, e);
  }

  lemma AttemptsAreActable(s: State, e: Event)
    requires Good(s) && (e.Send? || e.Act?)
    ensures Step(s, e).contexts == s.contexts && Step(s, e).context == s.context && s.log <= Step(s, e).log
    ensures Step(s, e).connectionEpoch == s.connectionEpoch
    ensures Step(s, e).log != s.log ==>
      && s.context.Some? && IsCtx(s, s.context.value)
      && s.contexts[s.context.value].available && s.contexts[s.context.value].readIn == s.connectionEpoch
  {
    hide Inv, KeysOk, ScopeOf, Blank, MaySend, MayAct;
    if Step(s, e).log != s.log {
      AttemptsAreCurrent(s, e);
    }
  }

  lemma OpenConfirmedIs(s: State, i: int, list: Option<Option<Server>>)
    requires IsOpen(s, i, Confirming)
    ensures var n := OpenConfirmReply(s, i, list);
            if Commits(s, i, list)
            then n.context.Some? && IsCtx(n, n.context.value) && n.screen.active
                 && n.screen.draft == Draft(s, ScopeOf(n.contexts[n.context.value]))
            else n == End(s, i)
  {
    hide Commit;
    if Commits(s, i, list) {
      CommitShowsDraft(s, i, list);
    }
  }

  lemma InitiallyGood()
    ensures Good(Initial())
  {
  }

  class NodeChat {
    var selectionSerial: int
    var connectionEpoch: int
    var context: Option<int>
    var contexts: seq<Context>
    var screen: Screen
    var drafts: map<string, string>
    var commands: map<Signature, int>
    var keys: int
    /** The calls at their waits. */
    var tasks: seq<Task>
    ghost var log: seq<Entry>

    ghost function Abs(): State
      reads this
    {
      State(selectionSerial, connectionEpoch, context, contexts, screen, drafts, commands, keys, tasks, log)
    }

    /**
      One command per conversation, nothing acted upon but what was read in this epoch, and for every command the key of
      its unsuccessful attempts.
     */
    ghost predicate Valid()
      reads this
    {
      Good(Abs())
    }

    constructor ()
      ensures Valid() && Abs() == Initial()
    {
      InitiallyGood();
      selectionSerial, connectionEpoch, context, contexts := 0, 0, None, [];
      screen := Screen(false, "", false, false, false, false);
      drafts, commands, keys, tasks, log := map[], map[], 0, [], [];
    }

    /** The open conversation was asked for after the last connection change. */
    ghost predicate Actable()
      reads this
    {
      && context.Some? && IsCtx(Abs(), context.value)
      && contexts[context.value].available && contexts[context.value].readIn == connectionEpoch
    }

    method EndTask(i: int)
      requires 0 <= i < |tasks|
      modifies this`tasks
      ensures Abs() == End(old(Abs()), i)
    {
      tasks := tasks[i := Ended];
    }

    method OpenConversation(id: string, botId: string)
      requires Valid()
      modifies this`selectionSerial, this`tasks
      ensures Valid() && Abs() == OpenCall(old(Abs()), id, botId)
    {
      hide Good;
      GoodKept(Abs(), Open(id, botId));
      if id == "" || botId == "" {
        return;
      }
      selectionSerial := selectionSerial + 1;
      tasks := tasks + [Opening(selectionSerial, connectionEpoch, id, botId, "", Listing, BLANK)];
    }

    method Check(t: Task) returns (ok: bool)
      requires t.Opening?
      ensures ok == StillChosen(Abs(), t)
    {
      ok := t.serial == selectionSerial && t.epoch == connectionEpoch;
    }

    method OpenListed(i: int, list: Option<Option<Server>>)
      requires Valid()
      requires IsOpen(Abs(), i, Listing)
      modifies this`tasks
      ensures Valid() && Abs() == OpenListReply(old(Abs()), i, list)
    {
      hide Good;
      GoodKept(Abs(), Event.OpenListed(i, list));
      var t := tasks[i];
      var ok := Check(t);
      if !ok || list.None? || list.value.None? || list.value.value.status != "online" || list.value.value.nodeId == "" {
        EndTask(i);
        return;
      }
      tasks := tasks[i := t.(nodeId := list.value.value.nodeId, point := Reading)];
    }

    method OpenRead(i: int, snapshot: Option<Snapshot>)
      requires Valid()
      requires IsOpen(Abs(), i, Reading)
      modifies this`tasks
      ensures Valid() && Abs() == OpenReadReply(old(Abs()), i, snapshot)
    {
      hide Good;
      GoodKept(Abs(), Event.OpenRead(i, snapshot));
      var t := tasks[i];
      var ok := Check(t);
      if !ok || snapshot.None? || snapshot.value.nodeId != t.nodeId || !snapshot.value.complete
         || t.botId !in snapshot.value.bots {
        EndTask(i);
        return;
      }
      tasks := tasks[i := t.(read := snapshot.value.bots[t.botId], point := Confirming)];
    }

    method OpenConfirmed(i: int, list: Option<Option<Server>>)
      requires Valid()
      requires IsOpen(Abs(), i, Confirming)
      modifies this`tasks, this`context, this`contexts, this`screen
      ensures Valid() && Abs() == OpenConfirmReply(old(Abs()), i, list)
      ensures if Commits(old(Abs()), i, list)
              then context.Some? && IsCtx(Abs(), context.value) && screen.active
                   && screen.draft == Draft(old(Abs()), ScopeOf(contexts[context.value]))
              else Abs() == End(old(Abs()), i)
    {
      hide Commit, Good;
      GoodKept(Abs(), Event.OpenConfirmed(i, list));
      OpenConfirmedIs(Abs(), i, list);
      var t := tasks[i];
      var ok := Check(t);
      EndTask(i);
      if ok && list.Some? && list.value.Some? && list.value.value.status == "online" && list.value.value.nodeId == t.nodeId {
        assert list.value.value == Server("online", t.nodeId);
        TakeSelection(t);
      }
    }

    method TakeSelection(t: Task)
      requires t.Opening?
      modifies this`context, this`contexts, this`screen
      ensures Abs() == Commit(old(Abs()), t)
    {
      var scope := Scope(t.id, t.nodeId, t.botId);
      var same := context.Some? && 0 <= context.value < |contexts| && ScopeOf(contexts[context.value]) == scope;
      var busy := same && screen.busy;
      var c := if same then contexts[context.value] else Context(t.id, t.nodeId, t.botId, false, false, false, {}, 0);
      c := Apply(c, t.botId, t.read, t.epoch);
      if same {
        contexts := contexts[context.value := c];
      } else {
        context, contexts := Some(|contexts|), contexts + [c];
      }
      var draft := if ScopeOf(c) in drafts then drafts[ScopeOf(c)] else "";
      screen := Screen(true, draft, busy, true, t.read.cancelling, t.read.uncertain);
    }

    method Close()
      requires Valid()
      modifies this`selectionSerial, this`context, this`screen
      ensures Valid() && Abs() == CloseCall(old(Abs()))
    {
      hide Good;
      GoodKept(Abs(), Event.Close);
      selectionSerial, context := selectionSerial + 1, None;
      screen := screen.(active := false, busy := false);
    }

    method SetDraft(text: string)
      requires Valid()
      modifies this`drafts, this`screen
      ensures Valid() && Abs() == DraftCall(old(Abs()), text)
    {
      hide Good;
      GoodKept(Abs(), Event.SetDraft(text));
      if context.None? || !(0 <= context.value < |contexts|) {
        return;
      }
      drafts := drafts[ScopeOf(contexts[context.value]) := text];
      screen := screen.(draft := text);
    }

    method Changed()
      requires Valid()
      modifies this`connectionEpoch, this`contexts
      ensures Valid() && Abs() == ChangeCall(old(Abs()))
    {
      hide Good;
      GoodKept(Abs(), ConnectionChanged);
      connectionEpoch := connectionEpoch + 1;
      if context.Some? && 0 <= context.value < |contexts| {
        contexts := contexts[context.value := contexts[context.value].(available := false)];
      }
    }

    method Refresh()
      requires Valid()
      modifies this`contexts, this`tasks
      ensures Valid() && Abs() == RefreshCall(old(Abs()))
    {
      hide Good, RefreshCall;
      GoodKept(Abs(), Event.Refresh);
      StartRefresh();
    }

    method StartRefresh()
      modifies this`contexts, this`tasks
      ensures Abs() == RefreshCall(old(Abs()))
    {
      if context.None? || !(0 <= context.value < |contexts|) || contexts[context.value].pending {
        return;
      }
      contexts := contexts[context.value := contexts[context.value].(pending := true)];
      tasks := tasks + [Refreshing(context.value, connectionEpoch, Listing, UNREAD)];
    }

    method FinishRefresh(i: int)
      requires 0 <= i < |tasks| && tasks[i].Refreshing? && 0 <= tasks[i].ctx < |contexts|
      modifies this`contexts, this`tasks
      ensures Abs() == EndRefresh(old(Abs()), i)
    {
      var ctx := tasks[i].ctx;
      tasks := tasks[i := Ended];
      contexts := contexts[ctx := contexts[ctx].(pending := false)];
    }

    method Invalidate(ctx: int)
      requires 0 <= ctx < |contexts|
      modifies this`contexts
      ensures Abs() == ReadFailed(old(Abs()), ctx)
    {
      contexts := contexts[ctx := contexts[ctx].(available := false, goals := {})];
    }

    method MarkUnavailable(ctx: int)
      requires 0 <= ctx < |contexts|
      modifies this`contexts, this`screen
      ensures Abs() == ClearUnavailable(old(Abs()), ctx, false)
    {
      Invalidate(ctx);
      screen := screen.(online := false, cancelling := false, uncertain := false);
    }

    method Refuse(ctx: int, list: Option<Option<Server>>)
      requires 0 <= ctx < |contexts|
      modifies this`contexts, this`screen
      ensures Abs() == Refused(old(Abs()), ctx, list)
    {
      if list.None? {
        Invalidate(ctx);
      } else {
        MarkUnavailable(ctx);
      }
    }

    method RefreshListed(i: int, list: Option<Option<Server>>)
      requires Valid()
      requires IsRefresh(Abs(), i, Listing)
      modifies this`contexts, this`screen, this`tasks
      ensures Valid() && Abs() == RefreshListReply(old(Abs()), i, list)
    {
      hide EndRefresh, Usable, Good;
      GoodKept(Abs(), Event.RefreshListed(i, list));
      var t := tasks[i];
      if context != Some(t.ctx) || t.since != connectionEpoch {
        FinishRefresh(i);
      } else if Usable(list, contexts[t.ctx].nodeId) {
        tasks := tasks[i := t.(stage := Reading)];
      } else {
        Refuse(t.ctx, list);
        FinishRefresh(i);
      }
    }

    method RefreshRead(i: int, snapshot: Option<Snapshot>)
      requires Valid()
      requires IsRefresh(Abs(), i, Reading)
      modifies this`contexts, this`screen, this`tasks
      ensures Valid() && Abs() == RefreshReadReply(old(Abs()), i, snapshot)
    {
      hide EndRefresh, Good;
      GoodKept(Abs(), Event.RefreshRead(i, snapshot));
      var t := tasks[i];
      if context != Some(t.ctx) || t.since != connectionEpoch {
        FinishRefresh(i);
      } else if snapshot.None? {
        Invalidate(t.ctx);
        FinishRefresh(i);
      } else {
        tasks := tasks[i := t.(stage := Confirming, shown := snapshot.value)];
      }
    }

    method RefreshConfirmed(i: int, list: Option<Option<Server>>)
      requires Valid()
      requires IsRefresh(Abs(), i, Confirming)
      modifies this`contexts, this`screen, this`tasks
      ensures Valid() && Abs() == RefreshConfirmReply(old(Abs()), i, list)
    {
      hide EndRefresh, Usable, Apply, Good;
      GoodKept(Abs(), Event.RefreshConfirmed(i, list));
      var t := tasks[i];
      var c := contexts[t.ctx];
      if context == Some(t.ctx) && t.since == connectionEpoch {
        if !Usable(list, c.nodeId) {
          Refuse(t.ctx, list);
        } else if t.shown.nodeId != c.nodeId {
          MarkUnavailable(t.ctx);
        } else if !t.shown.complete {
          Invalidate(t.ctx);
        } else if c.botId !in t.shown.bots {
          MarkUnavailable(t.ctx);
        } else {
          Show(t.ctx, t.shown.bots[c.botId], list);
        }
      }
      FinishRefresh(i);
    }

    method Show(ctx: int, read: Conversation, list: Option<Option<Server>>)
      requires 0 <= ctx < |contexts| && Usable(list, contexts[ctx].nodeId)
      modifies this`contexts, this`screen
      ensures Abs() == old(Abs()).(
                contexts := old(contexts)[ctx := Apply(old(contexts)[ctx], old(contexts)[ctx].botId, read, connectionEpoch)],
                screen := old(screen).(online := list.value.value.status == "online", cancelling := read.cancelling,
                                       uncertain := read.uncertain))
    {
      contexts := contexts[ctx := Apply(contexts[ctx], contexts[ctx].botId, read, connectionEpoch)];
      screen := screen.(online := list.value.value.status == "online", cancelling := read.cancelling,
                        uncertain := read.uncertain);
    }

    method StartCommand(ctx: int, signature: Signature)
      requires 0 <= ctx < |contexts|
      modifies this`commands, this`keys, this`tasks, this`log, this`screen
      ensures Abs() == Perform(old(Abs()), ctx, signature) && |log| == |old(log)| + 1
    {
      screen := screen.(busy := true);
      if signature !in commands {
        commands, keys := commands[signature := keys], keys + 1;
      }
      assert commands[signature := commands[signature]] == commands;
      tasks := tasks + [Sending(ctx, signature, commands[signature])];
      log := log + [Attempted(signature, commands[signature], TargetOf(contexts[ctx]))];
    }

    method Send(text: string)
      requires Valid()
      modifies this`commands, this`keys, this`tasks, this`log, this`screen
      ensures Valid() && Abs() == SendCall(old(Abs()), text)
      ensures log != old(log) ==> Actable()
      ensures log != old(log) <==>
        && !Blank(text) && context.Some? && 0 <= context.value < |contexts| && !old(screen).busy && old(screen).online
        && contexts[context.value].available && !contexts[context.value].frozen
        && !old(screen).uncertain && !old(screen).cancelling
    {
      hide Perform, ScopeOf, Blank, Good;
      GoodKept(Abs(), Event.Send(text));
      AttemptsAreActable(Abs(), Event.Send(text));
      if context.None? || !(0 <= context.value < |contexts|) || screen.busy || Blank(text) {
        return;
      }
      var c := contexts[context.value];
      if !screen.online || !c.available || screen.uncertain || c.frozen || screen.cancelling {
        return;
      }
      StartCommand(context.value, Signature(ScopeOf(c), Submit(c.botId, text)));
    }

    method Act(command: Command)
      requires Valid()
      requires !command.Submit?
      modifies this`commands, this`keys, this`tasks, this`log, this`screen
      ensures Valid() && Abs() == ActCall(old(Abs()), command)
      ensures log != old(log) ==> Actable()
      ensures log != old(log) <==>
        && context.Some? && 0 <= context.value < |contexts| && !old(screen).busy && old(screen).online
        && contexts[context.value].available && command.goalId in contexts[context.value].goals
    {
      hide Perform, ScopeOf, Good;
      GoodKept(Abs(), Event.Act(command));
      AttemptsAreActable(Abs(), Event.Act(command));
      if context.None? || !(0 <= context.value < |contexts|) || screen.busy {
        return;
      }
      var c := contexts[context.value];
      if !screen.online || !c.available || command.goalId !in c.goals {
        return;
      }
      StartCommand(context.value, Signature(ScopeOf(c), command));
    }

    method Reconnect()
      requires Valid()
      modifies this`tasks, this`screen
      ensures Valid() && Abs() == ReconnectCall(old(Abs()))
    {
      hide Good;
      GoodKept(Abs(), Event.Reconnect);
      if context.Some? && 0 <= context.value < |contexts| && !screen.busy {
        screen := screen.(busy := true);
        tasks := tasks + [Resuming(context.value)];
      }
    }

    method Succeeded(t: Task)
      requires t.Sending? && 0 <= t.ctx < |contexts|
      modifies this`commands, this`log, this`drafts, this`screen
      ensures Abs() == Succeed(old(Abs()), t)
    {
      commands := commands - {t.signature};
      log := log + [Entry.Succeeded(t.signature)];
      if t.signature.command.Submit? {
        var scope := ScopeOf(contexts[t.ctx]);
        if scope in drafts && drafts[scope] == t.signature.command.prompt {
          drafts := drafts - {scope};
        }
        if context == Some(t.ctx) {
          screen := screen.(draft := if scope in drafts then drafts[scope] else "");
        }
      }
    }

    method Settled(i: int, ok: bool)
      requires Valid()
      requires IsCommand(Abs(), i)
      modifies this
      ensures Valid() && Abs() == SettledReply(old(Abs()), i, ok)
    {
      hide Succeed, RefreshCall, Good;
      GoodKept(Abs(), Event.Settled(i, ok));
      var t := tasks[i];
      EndTask(i);
      if ok && t.Sending? {
        Succeeded(t);
        SucceedFrame(old(Abs()).(tasks := tasks), t);
      }
      if context == Some(t.ctx) {
        screen := screen.(busy := false);
        StartRefresh();
      }
    }

    /** Any event, and so any run, takes the controller where the model goes. */
    method Handle(e: Event)
      requires Valid()
      modifies this
      ensures Valid() && Abs() == Step(old(Abs()), e)
    {
      GoodKept(Abs(), e);
      hide Good, OpenCall, OpenListReply, OpenReadReply, OpenConfirmReply, CloseCall, DraftCall, ChangeCall, RefreshCall,
        RefreshListReply, RefreshReadReply, RefreshConfirmReply, SendCall, ReconnectCall, SettledReply, Perform;
      match e
      case Open(id, botId) => OpenConversation(id, botId);
      case OpenAborted(i) => if 0 <= i < |tasks| && tasks[i].Opening? { EndTask(i); }
      case OpenListed(i, list) => if OpenAt(i, Listing) { OpenListed(i, list); }
      case OpenRead(i, snapshot) => if OpenAt(i, Reading) { OpenRead(i, snapshot); }
      case OpenConfirmed(i, list) => if OpenAt(i, Confirming) { OpenConfirmed(i, list); }
      case Close => Close();
      case SetDraft(text) => SetDraft(text);
      case ConnectionChanged => Changed();
      case Refresh => Refresh();
      case RefreshListed(i, list) => if RefreshAt(i, Listing) { RefreshListed(i, list); }
      case RefreshRead(i, snapshot) => if RefreshAt(i, Reading) { RefreshRead(i, snapshot); }
      case RefreshConfirmed(i, list) => if RefreshAt(i, Confirming) { RefreshConfirmed(i, list); }
      case Send(text) => Send(text);
      case Act(command) => if !command.Submit? { Act(command); }
      case Reconnect => Reconnect();
      case Settled(i, ok) =>
        if 0 <= i < |tasks| && (tasks[i].Sending? || tasks[i].Resuming?) && 0 <= tasks[i].ctx < |contexts| { Settled(i, ok); }
    }

    predicate OpenAt(i: int, point: Point)
      reads this
    {
      0 <= i < |tasks| && tasks[i].Opening? && tasks[i].point == point
    }

    predicate RefreshAt(i: int, stage: Point)
      reads this
    {
      0 <= i < |tasks| && tasks[i].Refreshing? && tasks[i].stage == stage && 0 <= tasks[i].ctx < |contexts|
    }
  }
}
