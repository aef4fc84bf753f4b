/**
  Nothing waits for nothing. Activations await only activations of lower layers, saves await queued writes, and every
  single-flight slot has an owner that gives it back: so while an activation is unfinished, something can go on.
 */
module ConnectionProgress {
  import opened Option
  import opened ConnectionModel
  import opened ConnectionInvariants
  import opened ConnectionEffects
  import opened ConnectionActivations

  // ---------------------------------------------------------------- layers

  /** Saves, token refreshes, access, requests, snapshots, their callers, attempts, connects, sessions. */
  function Layer(at: Point): int {
    match at
    case Begin => 0 case OtherSave(_) => 0 case OwnSave(_) => 0
    case RefreshVerify => 1 case RefreshExchange => 1 case RefreshStore(_) => 1
    case EnsurePersist(_) => 2 case EnsureJoin(_) => 2 case EnsureOwn(_) => 2
    case RequestEnsure(_, _) => 3 case RequestSend(_) => 3
    case SyncRequest(_) => 4
    case SyncJoin(_) => 5 case SyncOwn(_) => 5
    case OpenVerify => 6 case OpenSync(_) => 6 case OpenTicket(_) => 6
    case ConnectJoin(_) => 7 case ConnectDrain(_) => 7 case ConnectOwn(_) => 7
    case Done(_) => 9
    case _ => 8
  }

  /** The layer of what is awaited. */
  function Below(at: Point): int {
    match at
    case EnsureJoin(_) => 1 case EnsureOwn(_) => 1
    case RequestEnsure(_, _) => 2
    case SyncRequest(_) => 3 case OpenTicket(_) => 3
    case SyncJoin(_) => 4 case SyncOwn(_) => 4
    case OpenSync(_) => 5
    case ConnectJoin(_) => 6 case ConnectDrain(_) => 6 case ConnectOwn(_) => 6
    case LoginConnect(_) => 7 case AwaitConnect(_) => 7
    case _ => 0
  }

  predicate OnLayer(s: State, p: Id, layer: int) {
    p in s.tasks && (s.tasks[p].at.Done? || Layer(s.tasks[p].at) == layer)
  }

  predicate Queued(s: State, op: Id) { exists j :: 0 <= j < |s.disk.queue| && s.disk.queue[j].op == op }

  predicate QueuedFor(s: State, op: Id, t: Id, remove: bool) {
    exists j :: 0 <= j < |s.disk.queue| && s.disk.queue[j].op == op
                && if remove then s.disk.queue[j].owner == ByRemove(t)
                   else s.disk.queue[j].owner.ByPersist? && s.disk.queue[j].owner.t == t
  }

  /** What the activation awaits is there, or still to come. */
  predicate Waits(s: State, t: Id, at: Point) {
    && !at.Begin?
    && (Awaited(at).Some? ==> OnLayer(s, Awaited(at).value, Below(at)))
    && (at.OtherSave? ==> at.op in s.disk.settled || Queued(s, at.op))
    && (at.OwnSave? ==> QueuedFor(s, at.op, t, false))
    && (at.RemoveSave? ==> QueuedFor(s, at.op, t, true))
  }

  /** Some activation stands at the point. */
  predicate Somebody(s: State, at: Point) { exists o :: o in s.tasks && s.tasks[o].at == at }

  predicate SavingOwned(s: State, d: Conn) { d.saving.Some? ==> Somebody(s, OwnSave(d.saving.value)) }

  predicate RefreshingOwned(s: State, d: Conn) {
    d.refreshing.Some? ==> OnLayer(s, d.refreshing.value, 1) && Somebody(s, EnsureOwn(d.refreshing.value))
  }

  predicate SyncingOwned(s: State, d: Conn) {
    d.syncing.Some? ==> OnLayer(s, d.syncing.value, 4) && Somebody(s, SyncOwn(d.syncing.value))
  }

  predicate ConnectingOwned(s: State, d: Conn) {
    d.connecting.Some? ==> OnLayer(s, d.connecting.value, 6) && Somebody(s, ConnectOwn(d.connecting.value))
  }

  /** A taken slot is that of a call under way, and its owner waits to give it back. */
  predicate SlotsOwned(s: State) {
    SavingOwned(s, s.c) && RefreshingOwned(s, s.c) && SyncingOwned(s, s.c) && ConnectingOwned(s, s.c)
  }

  /** Writes are numbered apart, and those settled are queued no more. */
  predicate WritesApart(s: State) {
    && (forall j, k :: 0 <= j < k < |s.disk.queue| ==> s.disk.queue[j].op != s.disk.queue[k].op)
    && (forall j :: 0 <= j < |s.disk.queue| ==> s.disk.queue[j].op < s.next && s.disk.queue[j].op !in s.disk.settled)
    && (forall op :: op in s.disk.settled ==> op < s.next)
  }

  /** A queued save of credentials, or of a removal, is awaited by its owner. */
  predicate OwnersWait(s: State) {
    forall j :: 0 <= j < |s.disk.queue| ==>
      var w := s.disk.queue[j];
      && (w.owner.ByPersist? ==> w.owner.t in s.tasks && s.tasks[w.owner.t].at == OwnSave(w.op))
      && (w.owner.ByRemove? ==> w.owner.t in s.tasks && s.tasks[w.owner.t].at == RemoveSave(w.op))
  }

  /** Every activation waits for something that is there or still to come; those in x are just being started. */
  predicate TasksLinked(s: State, x: set<Id>) {
    forall t :: t in s.tasks ==>
      && t < s.next
      && if t in x then s.tasks[t].at.Begin? || s.tasks[t].at.SyncOwn? || s.tasks[t].at.AwaitConnect?
         else Waits(s, t, s.tasks[t].at)
  }

  predicate Linked(s: State, x: set<Id>) {
    && TasksLinked(s, x) && x <= s.tasks.Keys && WritesApart(s) && OwnersWait(s) && SlotsOwned(s)
  }

  // ---------------------------------------------------------------- primitive changes

  /** The points new activations stand at. */
  predicate Starting(at: Point) {
    || at.Done? || at.OtherSave? || at.OwnSave? || at.EnsurePersist? || (at.RequestEnsure? && !at.retry) || at.SyncRequest?
    || at.SyncJoin? || at.SyncOwn? || at.OpenVerify? || at.ConnectJoin? || at.ConnectDrain? || at.ConnectOwn?
    || at.AwaitConnect? || at.LoginVerify? || at.LogoutRevoke? || at.RemoveRevoke?
  }

  /** The activation was just entered and is not what a new one may await. */
  predicate JustEntered(s: State, p: Id) { p in s.tasks && s.tasks[p].at.Begin? }

  /** Whoever awaits a save that is done already has found the credentials saved. */
  predicate FindsSaved(n: State, at: Point) {
    Awaited(at).Some? && Below(at) == 0 ==> (Passed(n, Awaited(at).value) ==> !n.c.dirty)
  }

  /** A call has started others, which wait; nobody else moved, and writes were at most added. */
  predicate Grew(s: State, n: State) {
    && s.next < n.next && AllStay(s, n)
    && (forall u :: u in n.tasks && u !in s.tasks ==>
          && s.next <= u && Starting(n.tasks[u].at)
          && (Awaited(n.tasks[u].at).Some? ==> !JustEntered(s, Awaited(n.tasks[u].at).value))
          && FindsSaved(n, n.tasks[u].at))
    && n.c.dirty == s.c.dirty && s.disk.queue <= n.disk.queue && n.disk.settled == s.disk.settled
    && n.c.refreshing == s.c.refreshing
    && (n.c.syncing == s.c.syncing || (n.c.syncing.Some? && s.next <= n.c.syncing.value))
    && (n.c.connecting == s.c.connecting || (n.c.connecting.Some? && s.next <= n.c.connecting.value))
  }

  lemma WaitsLonger(s: State, n: State, t: Id, at: Point)
    requires Waits(s, t, at) && AllStay(s, n) && s.disk.queue <= n.disk.queue && n.disk.settled == s.disk.settled
    ensures Waits(n, t, at)
  {
    forall op | Queued(s, op)
      ensures Queued(n, op)
    {
      var j :| 0 <= j < |s.disk.queue| && s.disk.queue[j].op == op;
      assert n.disk.queue[j].op == op;
    }
    forall op, remove | QueuedFor(s, op, t, remove)
      ensures QueuedFor(n, op, t, remove)
    {
      var j :| 0 <= j < |s.disk.queue| && s.disk.queue[j].op == op
               && if remove then s.disk.queue[j].owner == ByRemove(t)
                  else s.disk.queue[j].owner.ByPersist? && s.disk.queue[j].owner.t == t;
      assert n.disk.queue[j] == s.disk.queue[j];
    }
  }

  lemma SomebodyStays(s: State, n: State)
    requires AllStay(s, n)
    ensures forall at :: Somebody(s, at) ==> Somebody(n, at)
  {
    forall at | Somebody(s, at)
      ensures Somebody(n, at)
    {
      var o :| o in s.tasks && s.tasks[o].at == at;
      assert n.tasks[o].at == at;
    }
  }

  /** A new activation that waits already, or is being started. */
  lemma SpawnLinks(s: State, x: set<Id>, gen: int, at: Point)
    requires Linked(s, x) && (Waits(s, s.next, at) || at.Begin? || at.SyncOwn? || at.AwaitConnect?)
    ensures var n := Spawn(s, gen, at);
            && s.next !in s.tasks && AllStay(s, n)
            && (at.Begin? || at.SyncOwn? || at.AwaitConnect? ==> Linked(n, x + {s.next}))
            && (Waits(s, s.next, at) && s.next !in x ==> Linked(n, x))
  {
    var n := Spawn(s, gen, at);
    hide Waits, Somebody;
    forall t, p | Waits(s, t, p)
      ensures Waits(n, t, p)
    {
      WaitsLonger(s, n, t, p);
    }
    SomebodyStays(s, n);
  }

  /** Nobody awaits t, but for those being started. */
  predicate Unawaited(s: State, x: set<Id>, t: Id) {
    && (forall u :: u in s.tasks && u !in x ==> Awaited(s.tasks[u].at) != Some(t))
    && s.c.refreshing != Some(t) && s.c.syncing != Some(t) && s.c.connecting != Some(t)
  }

  /** t is not the owner of a taken slot. */
  predicate OwnsNothing(s: State, t: Id)
    requires t in s.tasks
  {
    && (s.c.saving.Some? ==> s.tasks[t].at != OwnSave(s.c.saving.value))
    && (s.c.refreshing.Some? ==> s.tasks[t].at != EnsureOwn(s.c.refreshing.value))
    && (s.c.syncing.Some? ==> s.tasks[t].at != SyncOwn(s.c.syncing.value))
    && (s.c.connecting.Some? ==> s.tasks[t].at != ConnectOwn(s.c.connecting.value))
  }

  /** An activation goes on within its layer, or ends. */
  lemma AtLinks(s: State, x: set<Id>, t: Id, at: Point)
    requires Linked(s, x) && t in s.tasks && OwnsNothing(s, t) && !s.tasks[t].at.OwnSave? && !s.tasks[t].at.RemoveSave?
    requires at.Done? || Layer(at) == Layer(s.tasks[t].at) || Unawaited(s, x, t)
    requires Waits(s, t, at) && Awaited(at) != Some(t)
    ensures Linked(At(s, t, at), x - {t})
  {
    hide TasksLinked, WritesApart, OwnersWait, SlotsOwned, Waits;
    AtKeepsSlots(s, x, t, at);
    AtKeepsWaits(s, x, t, at);
    AtKeepsOwners(s, t, at);
  }

  lemma AtKeepsOwners(s: State, t: Id, at: Point)
    requires t in s.tasks && OwnersWait(s) && WritesApart(s) && !s.tasks[t].at.OwnSave? && !s.tasks[t].at.RemoveSave?
    ensures OwnersWait(At(s, t, at)) && WritesApart(At(s, t, at))
  {
  }

  lemma AtKeepsWaits(s: State, x: set<Id>, t: Id, at: Point)
    requires TasksLinked(s, x) && t in s.tasks && Waits(s, t, at) && Awaited(at) != Some(t)
    requires at.Done? || Layer(at) == Layer(s.tasks[t].at) || Unawaited(s, x, t)
    ensures TasksLinked(At(s, t, at), x - {t})
  {
    var n := At(s, t, at);
    forall u | u in s.tasks && u !in x - {t}
      ensures Waits(n, u, n.tasks[u].at)
    {
      assert Waits(s, u, n.tasks[u].at);
      assert Awaited(n.tasks[u].at).Some? ==> OnLayer(s, Awaited(n.tasks[u].at).value, Below(n.tasks[u].at));
    }
  }

  /** Whoever stands elsewhere than t stands there still. */
  lemma SomebodyElseStays(s: State, n: State, t: Id)
    requires t in s.tasks && Others(s, n, t)
    ensures forall at :: at != s.tasks[t].at && Somebody(s, at) ==> Somebody(n, at)
  {
    forall p | p != s.tasks[t].at && Somebody(s, p)
      ensures Somebody(n, p)
    {
      var o :| o in s.tasks && s.tasks[o].at == p;
      assert n.tasks[o].at == p;
    }
  }

  lemma AtKeepsSlots(s: State, x: set<Id>, t: Id, at: Point)
    requires t in s.tasks && SlotsOwned(s) && OwnsNothing(s, t)
    requires at.Done? || Layer(at) == Layer(s.tasks[t].at) || Unawaited(s, x, t)
    ensures SlotsOwned(At(s, t, at))
  {
    SomebodyElseStays(s, At(s, t, at), t);
    hide Somebody, OnLayer;
    LayersStay(s, t, at);
  }

  lemma TopIsDone(at: Point)
    ensures Layer(at) == 9 <==> at.Done?
  {
  }

  lemma LayersStay(s: State, t: Id, at: Point)
    requires t in s.tasks
    ensures forall p, layer :: OnLayer(s, p, layer) && (p != t || at.Done? || Layer(at) == Layer(s.tasks[t].at))
                               ==> OnLayer(At(s, t, at), p, layer)
  {
    hide Layer;
    TopIsDone(at);
    TopIsDone(s.tasks[t].at);
  }



  lemma SameWaits(s: State, x: set<Id>, n: State)
    requires TasksLinked(s, x) && n.tasks == s.tasks && s.next <= n.next
    requires n.disk.queue == s.disk.queue && n.disk.settled == s.disk.settled
    ensures TasksLinked(n, x)
  {
    forall t | t in s.tasks && t !in x
      ensures Waits(n, t, s.tasks[t].at)
    {
      WaitsLonger(s, n, t, s.tasks[t].at);
    }
    hide Waits;
  }

  lemma SameWrites(s: State, n: State)
    requires WritesApart(s) && OwnersWait(s) && n.tasks == s.tasks && s.next <= n.next
    requires n.disk.queue == s.disk.queue && n.disk.settled == s.disk.settled
    ensures WritesApart(n) && OwnersWait(n)
  {
  }

  lemma SameSlots(s: State, n: State)
    requires SlotsOwned(s) && n.tasks == s.tasks
    requires n.c.saving == s.c.saving && n.c.refreshing == s.c.refreshing && n.c.syncing == s.c.syncing
    requires n.c.connecting == s.c.connecting
    ensures SlotsOwned(n)
  {
    hide Somebody;
    SomebodyStays(s, n);
  }

  /** Fields that no link speaks of. */
  lemma SameLinks(s: State, x: set<Id>, n: State)
    requires Linked(s, x) && n.tasks == s.tasks && s.next <= n.next
    requires n.disk.queue == s.disk.queue && n.disk.settled == s.disk.settled
    requires n.c.saving == s.c.saving && n.c.refreshing == s.c.refreshing && n.c.syncing == s.c.syncing
    requires n.c.connecting == s.c.connecting
    ensures Linked(n, x)
  {
    hide TasksLinked, WritesApart, OwnersWait, SlotsOwned;
    SameWaits(s, x, n);
    SameSlots(s, n);
    SameWrites(s, n);
  }

  /** A write that no activation waits for is added. */
  lemma EnqueueLinks(s: State, x: set<Id>)
    requires Linked(s, x)
    ensures Linked(Enqueue(s, ByOther), x)
  {
    hide TasksLinked, SlotsOwned;
    EnqueueKeepsWaits(s, x, ByOther);
    EnqueueKeepsSlots(s, ByOther);
  }

  /** A write is added whose owner waits for it. */
  lemma OwnWriteLinks(s: State, x: set<Id>, t: Id, owner: Owner, at: Point)
    requires Linked(s, x) && t in s.tasks && OwnsNothing(s, t) && !s.tasks[t].at.OwnSave? && !s.tasks[t].at.RemoveSave?
    requires Layer(at) == Layer(s.tasks[t].at)
    requires (owner.ByPersist? && owner.t == t && at == OwnSave(s.next)) || (owner == ByRemove(t) && at == RemoveSave(s.next))
    ensures Linked(At(Enqueue(s, owner), t, at), x - {t})
  {
    hide TasksLinked, WritesApart, OwnersWait, SlotsOwned, Waits, Somebody;
    var m := Enqueue(s, owner);
    EnqueueKeepsWaits(s, x, owner);
    OwnWriteWaits(s, t, owner, at);
    AtKeepsWaits(m, x, t, at);
    EnqueueKeepsSlots(s, owner);
    AtKeepsSlots(m, x, t, at);
    OwnWriteApart(s, t, owner, at);
  }

  lemma EnqueueKeepsSlots(s: State, owner: Owner)
    requires SlotsOwned(s)
    ensures SlotsOwned(Enqueue(s, owner))
  {
    hide Somebody;
    SomebodyStays(s, Enqueue(s, owner));
  }

  lemma OwnWriteApart(s: State, t: Id, owner: Owner, at: Point)
    requires WritesApart(s) && OwnersWait(s) && t in s.tasks && !s.tasks[t].at.OwnSave? && !s.tasks[t].at.RemoveSave?
    requires (owner.ByPersist? && owner.t == t && at == OwnSave(s.next)) || (owner == ByRemove(t) && at == RemoveSave(s.next))
    ensures WritesApart(At(Enqueue(s, owner), t, at)) && OwnersWait(At(Enqueue(s, owner), t, at))
  {
  }

  lemma EnqueueKeepsWaits(s: State, x: set<Id>, owner: Owner)
    requires TasksLinked(s, x)
    ensures TasksLinked(Enqueue(s, owner), x)
  {
    var n := Enqueue(s, owner);
    forall t | t in s.tasks && t !in x
      ensures Waits(n, t, s.tasks[t].at)
    {
      WaitsLonger(s, n, t, s.tasks[t].at);
    }
    hide Waits;
  }

  lemma OwnWriteWaits(s: State, t: Id, owner: Owner, at: Point)
    requires (owner.ByPersist? && owner.t == t && at == OwnSave(s.next)) || (owner == ByRemove(t) && at == RemoveSave(s.next))
    ensures Waits(Enqueue(s, owner), t, at)
  {
    var m := Enqueue(s, owner);
    assert m.disk.queue[|s.disk.queue|].op == s.next;
  }

  lemma OwnedSlots(s: State, x: set<Id>)
    requires Linked(s, x)
    ensures SavingOwned(s, s.c) && RefreshingOwned(s, s.c) && SyncingOwned(s, s.c) && ConnectingOwned(s, s.c)
  {
    hide TasksLinked, WritesApart, OwnersWait;
  }

  /** Slots are taken for activations that have an owner, or given back. */
  lemma SlotLinks(s: State, x: set<Id>, d: Conn)
    requires Linked(s, x)
    requires d.saving == s.c.saving || SavingOwned(s, d)
    requires d.refreshing == s.c.refreshing || RefreshingOwned(s, d)
    requires d.syncing == s.c.syncing || SyncingOwned(s, d)
    requires d.connecting == s.c.connecting || ConnectingOwned(s, d)
    ensures Linked(s.(c := d), x)
  {
    hide TasksLinked, WritesApart, OwnersWait, SlotsOwned;
    SlotWaits(s, x, d);
    SlotsTaken(s, x, d);
    SameWrites(s, s.(c := d));
  }

  lemma SlotWaits(s: State, x: set<Id>, d: Conn)
    requires TasksLinked(s, x)
    ensures TasksLinked(s.(c := d), x)
  {
    SameWaits(s, x, s.(c := d));
  }

  lemma SlotsTaken(s: State, x: set<Id>, d: Conn)
    requires Linked(s, x)
    requires d.saving == s.c.saving || SavingOwned(s, d)
    requires d.refreshing == s.c.refreshing || RefreshingOwned(s, d)
    requires d.syncing == s.c.syncing || SyncingOwned(s, d)
    requires d.connecting == s.c.connecting || ConnectingOwned(s, d)
    ensures SlotsOwned(s.(c := d))
  {
    hide Linked, Somebody;
    OwnedSlots(s, x);
    SomebodyStays(s, s.(c := d));
  }

  // ---------------------------------------------------------------- calls

  /** The loop of persistCredentials, for an activation of its layer that awaits no own save any more. */
  lemma PersistLoopLinks(s: State, x: set<Id>, t: Id)
    requires Linked(s, x) && t in s.tasks && (s.tasks[t].at.Begin? || s.tasks[t].at.OtherSave?) && OwnsNothing(s, t)
    ensures Linked(PersistLoop(s, t), x - {t})
  {
    hide Linked, OwnsNothing, Somebody, Queued;
    if !s.c.dirty {
      AtLinks(s, x, t, Done(Ok));
    } else if s.c.saving.Some? {
      SavingIsQueued(s, x);
      AtLinks(s, x, t, OtherSave(s.c.saving.value));
    } else if !s.disk.ready {
      AtLinks(s, x, t, Done(Err(Other)));
    } else {
      OwnSaveLinks(s, x, t);
    }
  }

  lemma OwnSaveLinks(s: State, x: set<Id>, t: Id)
    requires Linked(s, x) && t in s.tasks && (s.tasks[t].at.Begin? || s.tasks[t].at.OtherSave?) && OwnsNothing(s, t)
    ensures var s1 := At(Enqueue(s, ByPersist(t, Creds(s.c))), t, OwnSave(s.next));
            Linked(s1.(c := s1.c.(saving := Some(s.next))), x - {t})
  {
    hide Linked, Waits, OwnsNothing, Somebody;
    var s1 := At(Enqueue(s, ByPersist(t, Creds(s.c))), t, OwnSave(s.next));
    OwnWriteLinks(s, x, t, ByPersist(t, Creds(s.c)), OwnSave(s.next));
    Stands(s1, t);
    SlotLinks(s1, x - {t}, s1.c.(saving := Some(s.next)));
  }

  lemma Stands(s: State, t: Id)
    requires t in s.tasks
    ensures Somebody(s, s.tasks[t].at)
  {
  }

  lemma SavingIsQueued(s: State, x: set<Id>)
    requires Linked(s, x) && s.c.saving.Some?
    ensures Queued(s, s.c.saving.value)
  {
    var o :| o in s.tasks && s.tasks[o].at == OwnSave(s.c.saving.value);
    assert Waits(s, o, s.tasks[o].at);
    var j :| 0 <= j < |s.disk.queue| && s.disk.queue[j].op == s.c.saving.value;
  }

  lemma PersistLoopGrows(s: State, t: Id)
    requires t in s.tasks && s.next !in s.tasks
    ensures var n := PersistLoop(s, t);
            && Others(s, n, t) && n.tasks.Keys == s.tasks.Keys && s.next <= n.next
            && (n.tasks[t].at.Done? || n.tasks[t].at.OtherSave? || n.tasks[t].at.OwnSave?)
            && s.disk.queue <= n.disk.queue && n.disk.settled == s.disk.settled
            && n.c == s.c.(saving := n.c.saving) && (Passed(n, t) ==> !n.c.dirty)
  {
  }

  lemma StartPersistLinks(s: State, x: set<Id>)
    requires Linked(s, x)
    ensures var n := StartPersist(s);
            Linked(n, x) && Grew(s, n) && OnLayer(n, s.next, 0) && n.c == s.c.(saving := n.c.saving)
            && (Passed(n, s.next) ==> !n.c.dirty)
  {
    hide Waits, Somebody, PersistLoop;
    var m := Spawn(s, s.c.generation, Begin);
    SpawnLinks(s, x, s.c.generation, Begin);
    assert OwnsNothing(m, s.next);
    FreshNext(m, x + {s.next});
    PersistLoopLinks(m, x + {s.next}, s.next);
    PersistLoopGrows(m, s.next);
    assert x + {s.next} - {s.next} == x;
  }

  lemma FreshNext(s: State, x: set<Id>)
    requires Linked(s, x)
    ensures s.next !in s.tasks
  {
  }

  /** While a call starts others, nobody comes to await the caller. */
  lemma CallerIsUnawaited(s: State, x: set<Id>, gen: int, m: State)
    requires Linked(s, x) && Grew(Spawn(s, gen, Begin), m)
    ensures Unawaited(m, x, s.next)
  {
    var s1 := Spawn(s, gen, Begin);
    forall u | u in m.tasks && u !in x
      ensures Awaited(m.tasks[u].at) != Some(s.next)
    {
      if u in s1.tasks {
        assert m.tasks[u] == s1.tasks[u];
        assert u in s.tasks ==> Waits(s, u, s.tasks[u].at);
      } else {
        assert JustEntered(s1, s.next);
      }
    }
  }

  /** A caller has started what it waits for. */
  lemma CallerLinks(s: State, x: set<Id>, gen: int, m: State, at: Point)
    requires Linked(s, x) && Grew(Spawn(s, gen, Begin), m) && Linked(m, x + {s.next})
    requires Awaited(at) == Some(s.next + 1) && OnLayer(m, s.next + 1, Below(at)) && Starting(at) && FindsSaved(m, at)
    ensures Linked(At(m, s.next, at), x) && Grew(s, At(m, s.next, at))
  {
    FreshNext(s, x);
    CallerIsUnawaited(s, x, gen, m);
    CallerAt(s, x, gen, m, at);
    CallerGrew(s, gen, m, at);
  }

  lemma CallerAt(s: State, x: set<Id>, gen: int, m: State, at: Point)
    requires s.next !in x && Linked(m, x + {s.next}) && Unawaited(m, x, s.next)
    requires s.next in m.tasks && m.tasks[s.next].at.Begin?
    requires Awaited(at) == Some(s.next + 1) && OnLayer(m, s.next + 1, Below(at))
    ensures Linked(At(m, s.next, at), x)
  {
    AtLinks(m, x + {s.next}, s.next, at);
    assert x + {s.next} - {s.next} == x;
  }

  lemma CallerGrew(s: State, gen: int, m: State, at: Point)
    requires Grew(Spawn(s, gen, Begin), m) && s.next !in s.tasks
    requires Starting(at) && Awaited(at) == Some(s.next + 1) && s.next + 1 !in s.tasks && FindsSaved(m, at) && !at.Done?
    ensures Grew(s, At(m, s.next, at))
  {
    hide Starting, Below;
  }

  lemma StartEnsureLinks(s: State, x: set<Id>)
    requires Linked(s, x)
    ensures var n := StartEnsure(s);
            Linked(n, x) && Grew(s, n) && OnLayer(n, s.next, 2) && n.c == s.c.(saving := n.c.saving)
  {
    hide Waits, Somebody, StartPersist, Linked, Grew;
    var s1 := Spawn(s, s.c.generation, Begin);
    SpawnLinks(s, x, s.c.generation, Begin);
    StartPersistLinks(s1, x + {s.next});
    CallerLinks(s, x, s.c.generation, StartPersist(s1), EnsurePersist(s.next + 1));
  }

  lemma StartRequestLinks(s: State, x: set<Id>)
    requires Linked(s, x)
    ensures var n := StartRequest(s);
            Linked(n, x) && Grew(s, n) && OnLayer(n, s.next, 3) && n.c == s.c.(saving := n.c.saving)
  {
    hide Waits, Somebody, StartEnsure, Linked, Grew;
    var s1 := Spawn(s, s.c.generation, Begin);
    SpawnLinks(s, x, s.c.generation, Begin);
    StartEnsureLinks(s1, x + {s.next});
    CallerLinks(s, x, s.c.generation, StartEnsure(s1), RequestEnsure(s.next + 1, false));
  }

  /** An activation that was being started has got what it waits for. */
  lemma StartedLinks(s: State, x: set<Id>, t: Id)
    requires Linked(s, x) && t in s.tasks && Waits(s, t, s.tasks[t].at)
    ensures Linked(s, x - {t})
  {
    hide Waits;
  }

  lemma StartSyncOpLinks(s: State, x: set<Id>)
    requires Linked(s, x) && s.c.syncing.None? && Somebody(s, SyncOwn(s.next))
    ensures Linked(StartSyncOp(s), x) && Grew(s, StartSyncOp(s)) && OnLayer(StartSyncOp(s), s.next, 4)
  {
    hide Waits, Somebody, StartRequest, Linked, Grew;
    var s1 := Spawn(s, s.c.generation, Begin);
    SpawnLinks(s, x, s.c.generation, Begin);
    StartRequestLinks(s1, x + {s.next});
    GrewStays(s1, StartRequest(s1));
    var m := At(StartRequest(s1), s.next, SyncRequest(s.next + 1));
    CallerLinks(s, x, s.c.generation, StartRequest(s1), SyncRequest(s.next + 1));
    GrewStays(s, m);
    SomebodyStays(s, m);
    SlotLinks(m, x, m.c.(syncing := Some(s.next)));
    SyncingGrew(s, m);
  }

  lemma GrewStays(s: State, n: State)
    requires Grew(s, n)
    ensures AllStay(s, n)
  {
  }

  lemma SyncingGrew(s: State, m: State)
    requires Grew(s, m)
    ensures Grew(s, m.(c := m.c.(syncing := Some(s.next))))
  {
    hide Starting, JustEntered;
  }

  lemma SpawnedGrew(s: State, gen: int, at: Point, n: State)
    requires Grew(Spawn(s, gen, at), n) && Starting(at) && Awaited(at) == Some(s.next + 1) && Below(at) != 0
    requires forall t :: t in s.tasks ==> t < s.next
    ensures Grew(s, n)
  {
    hide Starting;
  }

  lemma JoinSyncLinks(s: State, x: set<Id>)
    requires Linked(s, x) && s.c.syncing.Some?
    ensures var n := Spawn(s, s.c.generation, SyncJoin(s.c.syncing.value));
            Linked(n, x) && Grew(s, n) && OnLayer(n, s.next, 5)
  {
    IdsBelow(s, x);
    SyncIsUnderway(s, x);
    SpawnLinks(s, x, s.c.generation, SyncJoin(s.c.syncing.value));
    hide Linked, Waits, JustEntered;
  }

  lemma OwnSyncLinks(s: State, x: set<Id>)
    requires Linked(s, x) && s.c.syncing.None?
    ensures var n := StartSyncOp(Spawn(s, s.c.generation, SyncOwn(s.next + 1)));
            Linked(n, x) && Grew(s, n) && OnLayer(n, s.next, 5)
  {
    hide Linked, Waits, Grew, StartSyncOp, Somebody;
    IdsBelow(s, x);
    var s1 := Spawn(s, s.c.generation, SyncOwn(s.next + 1));
    SpawnLinks(s, x, s.c.generation, SyncOwn(s.next + 1));
    Stands(s1, s.next);
    StartSyncOpLinks(s1, x + {s.next});
    GrewStays(s1, StartSyncOp(s1));
    SyncOwnWaits(StartSyncOp(s1), s.next, s.next + 1);
    StartedLinks(StartSyncOp(s1), x + {s.next}, s.next);
    assert x + {s.next} - {s.next} == x;
    SpawnedGrew(s, s.c.generation, SyncOwn(s.next + 1), StartSyncOp(s1));
  }

  lemma StartSyncLinks(s: State, x: set<Id>)
    requires Linked(s, x)
    ensures Linked(StartSync(s), x) && Grew(s, StartSync(s)) && OnLayer(StartSync(s), s.next, 5)
  {
    hide Linked, Grew, OnLayer, StartSyncOp;
    if s.c.syncing.Some? {
      JoinSyncLinks(s, x);
    } else {
      OwnSyncLinks(s, x);
    }
  }

  lemma IdsBelow(s: State, x: set<Id>)
    requires Linked(s, x)
    ensures s.next !in x && forall t :: t in s.tasks ==> t < s.next
  {
  }

  lemma SyncIsUnderway(s: State, x: set<Id>)
    requires Linked(s, x) && s.c.syncing.Some?
    ensures Waits(s, s.next, SyncJoin(s.c.syncing.value)) && !JustEntered(s, s.c.syncing.value)
  {
  }

  lemma SyncOwnWaits(s: State, t: Id, op: Id)
    requires OnLayer(s, op, 4)
    ensures Waits(s, t, SyncOwn(op))
  {
  }

  /** The loop of connect, for an activation just entered or one that has drained an older attempt. */
  lemma ConnectLoopLinks(s: State, x: set<Id>, t: Id)
    requires Linked(s, x) && t in s.tasks && OwnsNothing(s, t)
    requires s.tasks[t].at.ConnectDrain? || (s.tasks[t].at.Begin? && Unawaited(s, x, t))
    ensures Linked(ConnectLoop(s, t), x - {t})
  {
    if s.c.connecting.Some? {
      var at := if s.c.connectingGen == s.c.generation then ConnectJoin(s.c.connecting.value)
                else ConnectDrain(s.c.connecting.value);
      AttemptIsUnderway(s, x, t);
      AtLinks(s, x, t, at);
    } else {
      AttemptLinks(s, x, t);
    }
  }

  lemma AttemptIsUnderway(s: State, x: set<Id>, t: Id)
    requires Linked(s, x) && s.c.connecting.Some? && t in s.tasks && (s.tasks[t].at.ConnectDrain? || s.tasks[t].at.Begin?)
    ensures var k := s.c.connecting.value;
            Waits(s, t, ConnectJoin(k)) && Waits(s, t, ConnectDrain(k)) && k != t && !JustEntered(s, k)
  {
  }

  lemma AttemptLinks(s: State, x: set<Id>, t: Id)
    requires Linked(s, x) && t in s.tasks && OwnsNothing(s, t) && s.c.connecting.None?
    requires s.tasks[t].at.ConnectDrain? || (s.tasks[t].at.Begin? && Unawaited(s, x, t))
    ensures Linked(ConnectLoop(s, t), x - {t})
  {
    hide Linked, Waits, Somebody, Unawaited, OwnsNothing, ConnectLoop, BeginAttempt;
    IdsBelow(s, x);
    var at := if s.closed || s.c.socket.Some? then Done(Ok) else OpenVerify;
    var s1 := Spawn(s, s.c.generation, at);
    PlainWaits(s, s.next, at);
    SpawnLinks(s, x, s.c.generation, at);
    AttemptUnawaited(s, x, t, at);
    OwnWaits(s1, t, s.next);
    AtLinks(s1, x, t, ConnectOwn(s.next));
    var s2 := At(s1, t, ConnectOwn(s.next));
    Stands(s2, t);
    AttemptIs(s, t);
    SlotLinks(s2, x - {t}, BeginAttempt(s).c);
  }

  /** Beginning an attempt: a new activation, its owner, and the slot. */
  lemma AttemptIs(s: State, t: Id)
    requires t in s.tasks && s.c.connecting.None? && t != s.next
    ensures var at := if s.closed || s.c.socket.Some? then Done(Ok) else OpenVerify;
            ConnectLoop(s, t) == At(Spawn(s, s.c.generation, at), t, ConnectOwn(s.next)).(c := BeginAttempt(s).c)
    ensures var d := BeginAttempt(s).c;
            d == s.c.(connecting := Some(s.next), connectingGen := d.connectingGen, status := d.status)
  {
  }

  lemma PlainWaits(s: State, t: Id, at: Point)
    requires Awaited(at).None? && !at.Begin? && !at.OtherSave? && !at.OwnSave? && !at.RemoveSave?
    ensures Waits(s, t, at)
  {
  }

  lemma AttemptUnawaited(s: State, x: set<Id>, t: Id, at: Point)
    requires t in s.tasks && (at.Done? || at.OpenVerify?) && OwnsNothing(s, t)
    ensures Unawaited(s, x, t) ==> Unawaited(Spawn(s, s.c.generation, at), x, t)
    ensures t != s.next ==> OwnsNothing(Spawn(s, s.c.generation, at), t)
  {
  }

  lemma OwnWaits(s: State, t: Id, op: Id)
    requires OnLayer(s, op, 6)
    ensures Waits(s, t, ConnectOwn(op))
  {
  }

  lemma ConnectLoopGrows(s: State, t: Id)
    requires t in s.tasks && s.next !in s.tasks
    requires s.c.connecting.Some? ==> !JustEntered(s, s.c.connecting.value)
    ensures t in ConnectLoop(s, t).tasks
    ensures var n := ConnectLoop(s, t);
            && Others(s, n, t) && s.next <= n.next
            && (n.tasks[t].at.ConnectJoin? || n.tasks[t].at.ConnectDrain? || n.tasks[t].at.ConnectOwn?)
            && (Awaited(n.tasks[t].at).Some? ==> !JustEntered(s, Awaited(n.tasks[t].at).value))
            && (forall u :: u in n.tasks && u !in s.tasks ==> u == s.next && (n.tasks[u].at.Done? || n.tasks[u].at.OpenVerify?))
            && n.disk == s.disk && n.c.refreshing == s.c.refreshing && n.c.syncing == s.c.syncing
            && n.c.dirty == s.c.dirty
            && (n.c.connecting == s.c.connecting || n.c.connecting == Some(s.next))
  {
  }

  lemma StartConnectLinks(s: State, x: set<Id>)
    requires Linked(s, x)
    ensures Linked(StartConnect(s), x) && Grew(s, StartConnect(s)) && OnLayer(StartConnect(s), s.next, 7)
  {
    hide Linked, Waits, Somebody, ConnectLoop, Unawaited, Starting;
    IdsBelow(s, x);
    var m := Spawn(s, s.c.generation, Begin);
    SpawnLinks(s, x, s.c.generation, Begin);
    NewcomerIsUnawaited(s, x);
    ConnectingIsOld(m, x + {s.next});
    FreshNext(m, x + {s.next});
    assert OwnsNothing(m, s.next);
    ConnectLoopLinks(m, x + {s.next}, s.next);
    assert x + {s.next} - {s.next} == x;
    ConnectGrew(s, m);
  }

  lemma ConnectGrew(s: State, m: State)
    requires m == Spawn(s, s.c.generation, Begin) && s.next !in s.tasks && m.next !in m.tasks
    requires s.c.connecting.Some? ==> !JustEntered(m, s.c.connecting.value)
    ensures Grew(s, ConnectLoop(m, s.next)) && OnLayer(ConnectLoop(m, s.next), s.next, 7)
  {
    hide ConnectLoop;
    ConnectLoopGrows(m, s.next);
  }

  lemma ConnectingIsOld(s: State, x: set<Id>)
    requires Linked(s, x)
    ensures s.c.connecting.Some? ==> !JustEntered(s, s.c.connecting.value)
  {
  }

  lemma NewcomerIsUnawaited(s: State, x: set<Id>)
    requires Linked(s, x)
    ensures Unawaited(Spawn(s, s.c.generation, Begin), x + {s.next}, s.next)
  {
    forall u | u in s.tasks && u !in x
      ensures Awaited(s.tasks[u].at) != Some(s.next)
    {
      assert Waits(s, u, s.tasks[u].at);
    }
  }

  lemma BackgroundLinks(s: State, x: set<Id>, gen: int)
    requires Linked(s, x)
    ensures var n := ConnectInBackground(s, gen); Linked(n, x) && Grew(s, n)
  {
    hide Linked, Waits, Grew, StartConnect, Somebody, OnLayer;
    IdsBelow(s, x);
    var s1 := Spawn(s, gen, AwaitConnect(s.next + 1));
    SpawnLinks(s, x, gen, AwaitConnect(s.next + 1));
    StartConnectLinks(s1, x + {s.next});
    GrewStays(s1, StartConnect(s1));
    BackgroundWaits(StartConnect(s1), s.next, s.next + 1);
    StartedLinks(StartConnect(s1), x + {s.next}, s.next);
    assert x + {s.next} - {s.next} == x;
    SpawnedGrew(s, gen, AwaitConnect(s.next + 1), StartConnect(s1));
  }

  lemma BackgroundWaits(s: State, t: Id, k: Id)
    requires OnLayer(s, k, 7)
    ensures Waits(s, t, AwaitConnect(k))
  {
  }

  // ---------------------------------------------------------------- resuming

  /** An activation that owns neither a slot nor a queued write. */
  predicate Owner(at: Point) {
    at.OwnSave? || at.RemoveSave? || at.EnsureOwn? || at.SyncOwn? || at.ConnectOwn?
  }

  lemma MoveLinks(s: State, t: Id, at: Point)
    requires Linked(s, {}) && t in s.tasks && !Owner(s.tasks[t].at)
    requires (at.Done? || Layer(at) == Layer(s.tasks[t].at)) && Waits(s, t, at) && Awaited(at) != Some(t)
    ensures Linked(At(s, t, at), {})
  {
    hide Linked, Waits;
    AtLinks(s, {}, t, at);
    assert {} - {t} == {};
  }

  lemma EndLinks(s: State, t: Id, outcome: Outcome)
    requires Linked(s, {}) && t in s.tasks && !Owner(s.tasks[t].at)
    ensures Linked(Finish(s, t, outcome), {})
  {
    hide Linked;
    MoveLinks(s, t, Done(outcome));
  }

  /** An activation goes on by awaiting a call it has just made. */
  lemma CallLinks(s: State, m: State, t: Id, at: Point)
    requires t in s.tasks && t < s.next && !Owner(s.tasks[t].at) && Grew(s, m) && Linked(m, {})
    requires Layer(at) == Layer(s.tasks[t].at) && Awaited(at) == Some(s.next) && OnLayer(m, s.next, Below(at))
    ensures Linked(At(m, t, at), {})
  {
    hide Linked;
    MoveLinks(m, t, at);
  }

  lemma Below0(s: State, t: Id)
    requires Linked(s, {}) && t in s.tasks
    ensures t < s.next && Waits(s, t, s.tasks[t].at)
  {
  }

  lemma PassLinks(s: State, t: Id, from: Id)
    requires Linked(s, {}) && t in s.tasks && !Owner(s.tasks[t].at)
    ensures Linked(Propagate(s, t, from), {})
  {
    hide Linked;
    if Finished(s, from) {
      EndLinks(s, t, OutcomeOf(s, from));
    }
  }

  lemma OtherSaveLinks(s: State, t: Id, op: Id)
    requires Linked(s, {}) && t in s.tasks && s.tasks[t].at.OtherSave?
    ensures Linked(ResumeOtherSave(s, t, op), {})
  {
    hide Linked, PersistLoop;
    if op in s.disk.settled {
      if s.disk.settled[op] {
        PersistLoopLinks(s, {}, t);
        assert {} - {t} == {};
      } else {
        EndLinks(s, t, Err(Other));
      }
    }
  }

  lemma RefreshIsUnderway(s: State, t: Id)
    requires Linked(s, {}) && s.c.refreshing.Some? && t in s.tasks && s.tasks[t].at.EnsurePersist?
    ensures Waits(s, t, EnsureJoin(s.c.refreshing.value)) && s.c.refreshing != Some(t)
  {
  }

  lemma RefreshLinks(s: State, t: Id)
    requires Linked(s, {}) && t in s.tasks && s.tasks[t].at.EnsurePersist? && s.c.refreshing.None?
    ensures Linked(At(StartRefresh(s, s.tasks[t].gen), t, EnsureOwn(s.next)), {})
  {
    hide Linked, Waits, Somebody;
    Below0(s, t);
    FreshNext(s, {});
    var s1 := Spawn(s, s.tasks[t].gen, RefreshVerify);
    PlainWaits(s, s.next, RefreshVerify);
    SpawnLinks(s, {}, s.tasks[t].gen, RefreshVerify);
    EnsureOwnWaits(s1, t, s.next);
    MoveLinks(s1, t, EnsureOwn(s.next));
    var s2 := At(s1, t, EnsureOwn(s.next));
    Stands(s2, t);
    SlotLinks(s2, {}, s2.c.(refreshing := Some(s.next)));
  }

  lemma EnsureOwnWaits(s: State, t: Id, op: Id)
    requires OnLayer(s, op, 1)
    ensures Waits(s, t, EnsureOwn(op))
  {
  }

  lemma EnsureLinks(s: State, t: Id, from: Id, now: int)
    requires Linked(s, {}) && t in s.tasks && s.tasks[t].at.EnsurePersist?
    ensures Linked(ResumeEnsure(s, t, from, now), {})
  {
    hide Linked, StartRefresh, Waits;
    EndLinks(s, t, Ok);
    EndLinks(s, t, Err(Other));
    EndLinks(s, t, Err(Http(401, false)));
    PassLinks(s, t, from);
    if s.c.refreshing.Some? {
      RefreshIsUnderway(s, t);
      MoveLinks(s, t, EnsureJoin(s.c.refreshing.value));
    } else {
      RefreshLinks(s, t);
    }
  }

  /** The `finally` of the owner of a slot: it is given back before the owner ends. */
  lemma GiveBackLinks(s: State, t: Id, d: Conn, outcome: Outcome)
    requires Linked(s, {}) && t in s.tasks && !s.tasks[t].at.OwnSave? && !s.tasks[t].at.RemoveSave?
    requires d.saving == s.c.saving && (d.refreshing == s.c.refreshing || d.refreshing.None?)
    requires (d.syncing == s.c.syncing || d.syncing.None?) && (d.connecting == s.c.connecting || d.connecting.None?)
    requires OwnsNothing(s.(c := d), t)
    ensures Linked(Finish(s.(c := d), t, outcome), {})
  {
    hide Linked, OwnsNothing, Somebody;
    SlotLinks(s, {}, d);
    AtLinks(s.(c := d), {}, t, Done(outcome));
    assert {} - {t} == {};
  }

  lemma OwnerLinks(s: State, t: Id, op: Id)
    requires Linked(s, {}) && t in s.tasks
    ensures s.tasks[t].at == EnsureOwn(op) ==> Linked(ResumeEnsureOwn(s, t, op), {})
    ensures s.tasks[t].at == SyncOwn(op) ==> Linked(ResumeSyncOwn(s, t, op), {})
    ensures s.tasks[t].at == ConnectOwn(op) ==> Linked(ResumeConnectOwn(s, t, op), {})
  {
    hide Linked;
    if Finished(s, op) {
      if s.tasks[t].at == EnsureOwn(op) {
        GiveBackLinks(s, t, if s.c.refreshing == Some(op) then s.c.(refreshing := None) else s.c, OutcomeOf(s, op));
      } else if s.tasks[t].at == SyncOwn(op) {
        GiveBackLinks(s, t, if s.c.syncing == Some(op) then s.c.(syncing := None) else s.c, OutcomeOf(s, op));
      } else if s.tasks[t].at == ConnectOwn(op) {
        GiveBackLinks(s, t, if s.c.connecting == Some(op) then s.c.(connecting := None) else s.c, OutcomeOf(s, op));
      }
    }
  }

  lemma RefreshVerifyLinks(s: State, t: Id, i: Input)
    requires Linked(s, {}) && t in s.tasks && s.tasks[t].at.RefreshVerify?
    ensures Linked(ResumeRefreshVerify(s, t, i), {})
  {
    hide Linked;
    EndLinks(s, t, Err(if i.failure.Some? then i.failure.value else Other));
    EndLinks(s, t, Err(Other));
    MoveLinks(s, t, RefreshExchange);
  }

  lemma TokensLinks(s: State, t: Id, i: Input, at: Point)
    requires Linked(s, {}) && t in s.tasks && !Owner(s.tasks[t].at) && Layer(at) == Layer(s.tasks[t].at)
    requires at == RefreshStore(s.next) || at == LoginStore(s.next)
    ensures Linked(At(StartPersist(StoreTokens(s, i)), t, at), {})
  {
    hide Linked, StartPersist, Grew;
    Below0(s, t);
    SameLinks(s, {}, StoreTokens(s, i));
    StartPersistLinks(StoreTokens(s, i), {});
    CallLinks(StoreTokens(s, i), StartPersist(StoreTokens(s, i)), t, at);
  }

  lemma RefreshExchangeLinks(s: State, t: Id, i: Input)
    requires Linked(s, {}) && t in s.tasks && s.tasks[t].at.RefreshExchange?
    ensures Linked(ResumeRefreshExchange(s, t, i), {})
  {
    hide Linked, StartPersist, StoreTokens;
    EndLinks(s, t, Err(if i.failure.Some? then i.failure.value else Other));
    EndLinks(s, t, Err(Other));
    TokensLinks(s, t, i, RefreshStore(s.next));
    StoredNext(s, i);
  }

  lemma StoredNext(s: State, i: Input)
    ensures StoreTokens(s, i).next == s.next && StoreTokens(s, i).tasks == s.tasks
  {
  }

  lemma RequestEnsureLinks(s: State, t: Id, from: Id, retry: bool)
    requires Linked(s, {}) && t in s.tasks && s.tasks[t].at.RequestEnsure?
    ensures Linked(ResumeRequestEnsure(s, t, from, retry), {})
  {
    hide Linked;
    PassLinks(s, t, from);
    EndLinks(s, t, Err(Other));
    MoveLinks(s, t, RequestSend(retry));
  }

  lemma RequestSendLinks(s: State, t: Id, retry: bool, i: Input)
    requires Linked(s, {}) && t in s.tasks && s.tasks[t].at.RequestSend?
    ensures Linked(ResumeRequestSend(s, t, retry, i), {})
  {
    hide Linked, StartEnsure, Grew;
    Below0(s, t);
    EndLinks(s, t, Ok);
    EndLinks(s, t, Err(Other));
    EndLinks(s, t, Err(if i.failure.Some? then i.failure.value else Other));
    var m := s.(c := s.c.(access := None));
    SameLinks(s, {}, m);
    StartEnsureLinks(m, {});
    CallLinks(m, StartEnsure(m), t, RequestEnsure(s.next, true));
  }

  lemma SyncRequestLinks(s: State, t: Id, from: Id, valid: bool)
    requires Linked(s, {}) && t in s.tasks && s.tasks[t].at.SyncRequest?
    ensures Linked(ResumeSyncRequest(s, t, from, valid), {})
  {
    hide Linked;
    EndLinks(s, t, Err(Other));
    if Finished(s, from) {
      EndLinks(s, t, OutcomeOf(s, from));
    }
  }

  lemma ConnectDrainLinks(s: State, t: Id, op: Id)
    requires Linked(s, {}) && t in s.tasks && s.tasks[t].at.ConnectDrain?
    ensures Linked(ResumeConnectDrain(s, t, op), {})
  {
    hide Linked, ConnectLoop;
    EndLinks(s, t, Ok);
    ConnectLoopLinks(s, {}, t);
    assert {} - {t} == {};
  }

  lemma OpenVerifyLinks(s: State, t: Id, i: Input)
    requires Linked(s, {}) && t in s.tasks && s.tasks[t].at.OpenVerify?
    ensures Linked(ResumeOpenVerify(s, t, i), {})
  {
    hide Linked, StartSync, Grew;
    Below0(s, t);
    EndLinks(s, t, Ok);
    EndLinks(s, t, Err(if i.failure.Some? then i.failure.value else Other));
    StartSyncLinks(s, {});
    CallLinks(s, StartSync(s), t, OpenSync(s.next));
  }

  lemma OpenSyncLinks(s: State, t: Id, from: Id)
    requires Linked(s, {}) && t in s.tasks && s.tasks[t].at.OpenSync?
    ensures Linked(ResumeOpenSync(s, t, from), {})
  {
    hide Linked, StartRequest, Grew;
    Below0(s, t);
    PassLinks(s, t, from);
    EndLinks(s, t, Ok);
    StartRequestLinks(s, {});
    CallLinks(s, StartRequest(s), t, OpenTicket(s.next));
  }

  lemma OpenTicketLinks(s: State, t: Id, from: Id, valid: bool)
    requires Linked(s, {}) && t in s.tasks && s.tasks[t].at.OpenTicket?
    ensures Linked(ResumeOpenTicket(s, t, from, valid), {})
  {
    hide Linked;
    PassLinks(s, t, from);
    EndLinks(s, t, Err(Other));
    EndLinks(s, t, Ok);
    var s1 := Finish(s, t, Ok);
    SameLinks(s1, {}, s1.(c := s1.c.(socket := Some(s.next)), sockets := s1.sockets[s.next := s.tasks[t].gen],
                          next := s.next + 1));
  }

  lemma EndLoginLinks(s: State, t: Id, outcome: Outcome)
    requires Linked(s, {}) && t in s.tasks && SigningIn(s.tasks[t].at)
    ensures Linked(EndLogin(s, t, outcome), {})
  {
    hide Linked;
    var m := s.(c := s.c.(login := None));
    SameLinks(s, {}, m);
    EndLinks(s, t, outcome);
    EndLinks(m, t, outcome);
  }

  lemma FailLoginLinks(s: State, t: Id, f: Failure)
    requires Linked(s, {}) && t in s.tasks && SigningIn(s.tasks[t].at)
    ensures Linked(FailLogin(s, t, f), {})
  {
    hide Linked, EndLogin;
    var m := s.(c := s.c.(status := SignedOut, stage := None));
    SameLinks(s, {}, m);
    EndLoginLinks(s, t, Err(f));
    EndLoginLinks(m, t, Err(f));
  }

  lemma LoginVerifyLinks(s: State, t: Id, i: Input)
    requires Linked(s, {}) && t in s.tasks && s.tasks[t].at.LoginVerify?
    ensures Linked(ResumeLoginVerify(s, t, i), {})
  {
    hide Linked, StartPersist, FailLogin, EnsureDevice, Grew;
    Below0(s, t);
    FailLoginLinks(s, t, if i.failure.Some? then i.failure.value else Other);
    FailLoginLinks(s, t, Other);
    var m := EnsureDevice(s, i.newKey);
    DeviceLinks(s, i.newKey);
    StartPersistLinks(m, {});
    CallLinks(m, StartPersist(m), t, LoginPersist(s.next));
  }

  lemma DeviceLinks(s: State, newKey: Key)
    requires Linked(s, {})
    ensures var m := EnsureDevice(s, newKey); Linked(m, {}) && m.next == s.next && m.tasks == s.tasks
  {
    hide Linked;
    SameLinks(s, {}, EnsureDevice(s, newKey));
  }

  lemma LoginPersistLinks(s: State, t: Id, from: Id)
    requires Linked(s, {}) && t in s.tasks && s.tasks[t].at.LoginPersist?
    ensures Linked(ResumeLoginPersist(s, t, from), {})
  {
    hide Linked, FailLogin;
    FailLoginLinks(s, t, if Failed(s, from) then OutcomeOf(s, from).failure else Other);
    FailLoginLinks(s, t, Other);
    var m := s.(c := s.c.(stage := Some(BrowserAuthorization)));
    SameLinks(s, {}, m);
    MoveLinks(m, t, LoginAuthorize);
  }

  lemma LoginAuthorizeLinks(s: State, t: Id, i: Input)
    requires Linked(s, {}) && t in s.tasks && s.tasks[t].at.LoginAuthorize?
    ensures Linked(ResumeLoginAuthorize(s, t, i), {})
  {
    hide Linked, StartPersist, StoreTokens, FailLogin, EndLogin;
    FailLoginLinks(s, t, if i.failure.Some? then i.failure.value else Other);
    FailLoginLinks(s, t, Other);
    EndLoginLinks(s, t, Ok);
    TokensLinks(s, t, i, LoginStore(s.next));
    StoredNext(s, i);
  }

  lemma LoginStoreLinks(s: State, t: Id, from: Id)
    requires Linked(s, {}) && t in s.tasks && s.tasks[t].at.LoginStore?
    ensures Linked(ResumeLoginStore(s, t, from), {})
  {
    hide Linked, StartConnect, FailLogin, EndLogin, Grew;
    Below0(s, t);
    FailLoginLinks(s, t, if Failed(s, from) then OutcomeOf(s, from).failure else Other);
    EndLoginLinks(s, t, Ok);
    var m := s.(c := s.c.(stage := Some(ConnectingEvents)));
    SameLinks(s, {}, m);
    StartConnectLinks(m, {});
    CallLinks(m, StartConnect(m), t, LoginConnect(s.next));
  }

  lemma LoginConnectLinks(s: State, t: Id, from: Id)
    requires Linked(s, {}) && t in s.tasks && s.tasks[t].at.LoginConnect?
    ensures Linked(ResumeLoginConnect(s, t, from), {})
  {
    hide Linked, FailLogin, EndLogin;
    FailLoginLinks(s, t, if Failed(s, from) then OutcomeOf(s, from).failure else Other);
    EndLoginLinks(s, t, Ok);
  }

  lemma FinishLogoutLinks(s: State, t: Id)
    requires Linked(s, {}) && t in s.tasks && s.tasks[t].at.LogoutRevoke?
    ensures Linked(FinishLogout(s, t), {})
  {
    hide Linked, StartPersist, Grew;
    Below0(s, t);
    var s1 := SetCreds(s, s.c.key, None);
    var m := s1.(c := s1.c.(access := None, status := SignedOut));
    SameLinks(s, {}, m);
    StartPersistLinks(m, {});
    CallLinks(m, StartPersist(m), t, LogoutPersist(s.next));
  }

  lemma LogoutRevokeLinks(s: State, t: Id, i: Input)
    requires Linked(s, {}) && t in s.tasks && s.tasks[t].at.LogoutRevoke?
    ensures Linked(ResumeLogoutRevoke(s, t, i), {})
  {
    hide Linked, FinishLogout;
    EndLinks(s, t, Err(if i.failure.Some? then i.failure.value else Other));
    EndLinks(s, t, Err(Other));
    FinishLogoutLinks(s, t);
  }

  lemma FinishRemoveLinks(s: State, t: Id)
    requires Linked(s, {}) && t in s.tasks && s.tasks[t].at.RemoveRevoke?
    ensures Linked(FinishRemove(s, t), {})
  {
    hide Linked;
    var gone, back := s.(live := false), s.(live := true);
    SameLinks(s, {}, gone);
    SameLinks(s, {}, back);
    EndLinks(back, t, Err(Other));
    OwnWriteLinks(gone, {}, t, ByRemove(t), RemoveSave(s.next));
    assert {} - {t} == {};
  }

  lemma AwaitConnectLinks(s: State, t: Id, from: Id)
    requires Linked(s, {}) && t in s.tasks && s.tasks[t].at.AwaitConnect?
    ensures Linked(ResumeAwaitConnect(s, t, from), {})
  {
    hide Linked, ScheduleReconnect;
    if Finished(s, from) {
      EndLinks(s, t, OutcomeOf(s, from));
      if OutcomeOf(s, from).Err? {
        ReconnectLinks(Finish(s, t, OutcomeOf(s, from)), OutcomeOf(s, from).failure);
      }
    }
  }

  lemma ReconnectLinks(s: State, f: Failure)
    requires Linked(s, {})
    ensures Linked(ScheduleReconnect(s, f), {})
  {
    hide Linked;
    SameLinks(s, {}, ScheduleReconnect(s, f));
  }

  lemma AdvanceLinks(s: State, t: Id, i: Input)
    requires Linked(s, {}) && t in s.tasks
    ensures Linked(Advance(s, t, i), {})
  {
    hide Linked, Propagate, ResumeOtherSave, ResumeEnsure, ResumeEnsureOwn, ResumeRefreshVerify, ResumeRefreshExchange,
      ResumeRequestEnsure, ResumeRequestSend, ResumeSyncOwn, ResumeSyncRequest, ResumeConnectDrain, ResumeConnectOwn,
      ResumeOpenVerify, ResumeOpenSync, ResumeOpenTicket, ResumeLoginVerify, ResumeLoginPersist, ResumeLoginAuthorize,
      ResumeLoginStore, ResumeLoginConnect, ResumeLogoutRevoke, FinishRemove, ResumeAwaitConnect;
    match s.tasks[t].at
    case OtherSave(op) => OtherSaveLinks(s, t, op);
    case EnsurePersist(p) => EnsureLinks(s, t, p, i.now);
    case EnsureOwn(op) => OwnerLinks(s, t, op);
    case RefreshVerify => RefreshVerifyLinks(s, t, i);
    case RefreshExchange => RefreshExchangeLinks(s, t, i);
    case RequestEnsure(p, retry) => RequestEnsureLinks(s, t, p, retry);
    case RequestSend(retry) => RequestSendLinks(s, t, retry, i);
    case SyncOwn(op) => OwnerLinks(s, t, op);
    case SyncRequest(r) => SyncRequestLinks(s, t, r, i.valid);
    case ConnectDrain(op) => ConnectDrainLinks(s, t, op);
    case ConnectOwn(op) => OwnerLinks(s, t, op);
    case OpenVerify => OpenVerifyLinks(s, t, i);
    case OpenSync(y) => OpenSyncLinks(s, t, y);
    case OpenTicket(r) => OpenTicketLinks(s, t, r, i.valid);
    case LoginVerify => LoginVerifyLinks(s, t, i);
    case LoginPersist(p) => LoginPersistLinks(s, t, p);
    case LoginAuthorize => LoginAuthorizeLinks(s, t, i);
    case LoginStore(p) => LoginStoreLinks(s, t, p);
    case LoginConnect(k) => LoginConnectLinks(s, t, k);
    case LogoutRevoke => LogoutRevokeLinks(s, t, i);
    case RemoveRevoke => FinishRemoveLinks(s, t);
    case AwaitConnect(k) => AwaitConnectLinks(s, t, k);
    case EnsureJoin(op) => PassLinks(s, t, op);
    case RefreshStore(p) => PassLinks(s, t, p);
    case SyncJoin(op) => PassLinks(s, t, op);
    case ConnectJoin(op) => PassLinks(s, t, op);
    case LogoutPersist(p) => PassLinks(s, t, p);
    case _ =>
  }

  // ---------------------------------------------------------------- writes

  /** The oldest write is done and its owner goes on, having given back the slot of saves if it was its own. */
  function Taken(s: State, ok: bool, d: Conn, t: Id, at: Point): State
    requires s.disk.queue != [] && t in s.tasks
  {
    At(Popped(s, ok).(c := d), t, at)
  }

  predicate Writes(s: State, t: Id) {
    && s.disk.queue != [] && t in s.tasks
    && var w := s.disk.queue[0];
       (w.owner.ByPersist? && w.owner.t == t && s.tasks[t].at == OwnSave(w.op))
       || (w.owner == ByRemove(t) && s.tasks[t].at == RemoveSave(w.op))
  }

  lemma TakenWaits(s: State, ok: bool, d: Conn, t: Id, at: Point)
    requires TasksLinked(s, {}) && Writes(s, t) && (at.Done? || (at.Begin? && s.tasks[t].at.OwnSave?))
    ensures TasksLinked(Taken(s, ok, d, t, at), if at.Begin? then {t} else {})
  {
    var n := Taken(s, ok, d, t, at);
    forall u | u in s.tasks && u != t
      ensures Waits(n, u, s.tasks[u].at)
    {
      OtherWaits(s, ok, d, t, at, u);
    }
    PlainOrDone(n, t, at);
    hide Waits;
  }

  lemma PlainOrDone(s: State, t: Id, at: Point)
    ensures at.Done? ==> Waits(s, t, at)
  {
  }

  lemma OtherWaits(s: State, ok: bool, d: Conn, t: Id, at: Point, u: Id)
    requires Writes(s, t) && u in s.tasks && u != t && Waits(s, u, s.tasks[u].at)
    requires at.Done? || (at.Begin? && s.tasks[t].at.OwnSave?)
    ensures Waits(Taken(s, ok, d, t, at), u, s.tasks[u].at)
  {
    var n := Taken(s, ok, d, t, at);
    assert forall j :: 1 <= j < |s.disk.queue| ==> n.disk.queue[j - 1] == s.disk.queue[j];
    var p := s.tasks[u].at;
    if p.OtherSave? && p.op !in s.disk.settled {
      var j :| 0 <= j < |s.disk.queue| && s.disk.queue[j].op == p.op;
      assert j > 0 ==> n.disk.queue[j - 1].op == p.op;
    } else if p.OwnSave? {
      var j :| 0 <= j < |s.disk.queue| && s.disk.queue[j].op == p.op && s.disk.queue[j].owner.ByPersist?
               && s.disk.queue[j].owner.t == u;
      assert n.disk.queue[j - 1] == s.disk.queue[j];
    } else if p.RemoveSave? {
      var j :| 0 <= j < |s.disk.queue| && s.disk.queue[j].op == p.op && s.disk.queue[j].owner == ByRemove(u);
      assert n.disk.queue[j - 1] == s.disk.queue[j];
    }
  }

  lemma TakenApart(s: State, ok: bool, d: Conn, t: Id, at: Point)
    requires WritesApart(s) && OwnersWait(s) && Writes(s, t)
    ensures WritesApart(Taken(s, ok, d, t, at)) && OwnersWait(Taken(s, ok, d, t, at))
  {
    var n := Taken(s, ok, d, t, at);
    assert forall j :: 0 <= j < |n.disk.queue| ==> n.disk.queue[j] == s.disk.queue[j + 1];
  }

  lemma TakenSlots(s: State, ok: bool, d: Conn, t: Id, at: Point)
    requires SlotsOwned(s) && Writes(s, t) && (at.Done? || (at.Begin? && s.tasks[t].at.OwnSave?))
    requires d == s.c.(saving := d.saving, dirty := d.dirty) && (d.saving == s.c.saving || d.saving.None?)
    requires d.saving != Some(s.disk.queue[0].op)
    ensures SlotsOwned(Taken(s, ok, d, t, at))
  {
    hide Somebody;
    SomebodyElseStays(s, Taken(s, ok, d, t, at), t);
  }

  lemma TakenLinks(s: State, ok: bool, d: Conn, t: Id, at: Point)
    requires Linked(s, {}) && Writes(s, t) && (at.Done? || (at.Begin? && s.tasks[t].at.OwnSave?))
    requires d == s.c.(saving := d.saving, dirty := d.dirty) && (d.saving == s.c.saving || d.saving.None?)
    requires d.saving != Some(s.disk.queue[0].op)
    ensures Linked(Taken(s, ok, d, t, at), if at.Begin? then {t} else {})
  {
    hide TasksLinked, WritesApart, OwnersWait, SlotsOwned, Writes;
    TakenWaits(s, ok, d, t, at);
    TakenApart(s, ok, d, t, at);
    TakenSlots(s, ok, d, t, at);
    WriterIsKnown(s, t);
  }

  lemma WriterIsKnown(s: State, t: Id)
    requires Writes(s, t)
    ensures t in s.tasks && s.disk.queue != []
  {
  }

  /** The owner of the oldest write waits for it. */
  lemma FirstWriter(s: State)
    requires Linked(s, {}) && s.disk.queue != [] && (s.disk.queue[0].owner.ByPersist? || s.disk.queue[0].owner.ByRemove?)
    ensures Writes(s, s.disk.queue[0].owner.t)
  {
  }

  /** A write that no activation waits for is done. */
  lemma UnownedLinks(s: State, ok: bool)
    requires Linked(s, {}) && s.disk.queue != [] && (s.disk.queue[0].owner.ByAdd? || s.disk.queue[0].owner.ByOther?)
    ensures Linked(Popped(s, ok), {})
  {
    hide TasksLinked, WritesApart, OwnersWait, SlotsOwned;
    UnownedWaits(s, ok);
    UnownedApart(s, ok);
    SameSlots(s, Popped(s, ok));
  }

  lemma UnownedApart(s: State, ok: bool)
    requires s.disk.queue != [] && WritesApart(s) && OwnersWait(s)
    ensures WritesApart(Popped(s, ok)) && OwnersWait(Popped(s, ok))
  {
    var n := Popped(s, ok);
    assert forall j :: 0 <= j < |n.disk.queue| ==> n.disk.queue[j] == s.disk.queue[j + 1];
  }

  lemma UnownedWaits(s: State, ok: bool)
    requires TasksLinked(s, {}) && s.disk.queue != []
    requires s.disk.queue[0].owner.ByAdd? || s.disk.queue[0].owner.ByOther?
    ensures TasksLinked(Popped(s, ok), {})
  {
    var n := Popped(s, ok);
    assert forall j :: 1 <= j < |s.disk.queue| ==> n.disk.queue[j - 1] == s.disk.queue[j];
    forall u | u in s.tasks
      ensures Waits(n, u, s.tasks[u].at)
    {
      UnownedWait(s, ok, u);
    }
    hide Waits;
  }

  lemma UnownedWait(s: State, ok: bool, u: Id)
    requires s.disk.queue != [] && u in s.tasks && Waits(s, u, s.tasks[u].at)
    requires s.disk.queue[0].owner.ByAdd? || s.disk.queue[0].owner.ByOther?
    ensures Waits(Popped(s, ok), u, s.tasks[u].at)
  {
    var n := Popped(s, ok);
    var p := s.tasks[u].at;
    if p.OtherSave? && p.op !in s.disk.settled {
      var j :| 0 <= j < |s.disk.queue| && s.disk.queue[j].op == p.op;
      assert j > 0 ==> n.disk.queue[j - 1].op == p.op;
    } else if p.OwnSave? {
      var j :| 0 <= j < |s.disk.queue| && s.disk.queue[j].op == p.op && s.disk.queue[j].owner.ByPersist?
               && s.disk.queue[j].owner.t == u;
      assert n.disk.queue[j - 1] == s.disk.queue[j];
    } else if p.RemoveSave? {
      var j :| 0 <= j < |s.disk.queue| && s.disk.queue[j].op == p.op && s.disk.queue[j].owner == ByRemove(u);
      assert n.disk.queue[j - 1] == s.disk.queue[j];
    }
  }

  lemma SaverLinks(s: State, ok: bool)
    requires Linked(s, {}) && s.disk.queue != [] && s.disk.queue[0].owner.ByPersist?
    ensures Linked(Settle(s, ok), {})
  {
    hide Linked, PersistLoop, Taken, OwnsNothing;
    var w := s.disk.queue[0];
    var t := w.owner.t;
    FirstWriter(s);
    var d := s.c.(saving := if s.c.saving == Some(w.op) then None else s.c.saving);
    if ok {
      TakenLinks(s, ok, d, t, Begin);
      SaverLoops(s);
      var m := Taken(s, ok, d, t, Begin);
      var n := if Creds(s.c) == w.owner.captured then m.(c := m.c.(dirty := false)) else m;
      TakenIs(s, ok, d, t, Begin);
      SameLinks(m, {t}, n);
      BeginOwnsNothing(n, t);
      PersistLoopLinks(n, {t}, t);
      assert {t} - {t} == {};
    } else {
      TakenLinks(s, ok, d, t, Done(Err(Other)));
      SaverFails(s);
    }
  }

  lemma BeginOwnsNothing(s: State, t: Id)
    requires t in s.tasks && s.tasks[t].at.Begin?
    ensures OwnsNothing(s, t)
  {
  }

  lemma TakenIs(s: State, ok: bool, d: Conn, t: Id, at: Point)
    requires s.disk.queue != [] && t in s.tasks
    ensures var n := Taken(s, ok, d, t, at); t in n.tasks && n.tasks[t].at == at && n.c == d
  {
  }

  lemma SaverLoops(s: State)
    requires s.disk.queue != [] && s.disk.queue[0].owner.ByPersist? && Writes(s, s.disk.queue[0].owner.t)
    ensures var w := s.disk.queue[0];
            var d := s.c.(saving := if s.c.saving == Some(w.op) then None else s.c.saving);
            var m := Taken(s, true, d, w.owner.t, Begin);
            Settle(s, true) == PersistLoop(if Creds(s.c) == w.owner.captured then m.(c := m.c.(dirty := false)) else m, w.owner.t)
  {
    hide PersistLoop;
  }

  lemma SaverFails(s: State)
    requires s.disk.queue != [] && s.disk.queue[0].owner.ByPersist? && Writes(s, s.disk.queue[0].owner.t)
    ensures var w := s.disk.queue[0];
            var d := s.c.(saving := if s.c.saving == Some(w.op) then None else s.c.saving);
            Settle(s, false) == Taken(s, false, d, w.owner.t, Done(Err(Other)))
  {
    hide PersistLoop;
  }

  lemma RemoverLinks(s: State, ok: bool)
    requires Linked(s, {}) && s.disk.queue != [] && s.disk.queue[0].owner.ByRemove?
    ensures Linked(Settle(s, ok), {})
  {
    hide Linked;
    var t := s.disk.queue[0].owner.t;
    FirstWriter(s);
    SavingIsNoRemoval(s);
    var m := Taken(s, ok, s.c, t, Done(if ok then Ok else Err(Other)));
    TakenLinks(s, ok, s.c, t, Done(if ok then Ok else Err(Other)));
    SameLinks(m, {}, m.(live := m.live || !ok));
    assert Settle(s, ok) == m.(live := m.live || !ok);
  }

  lemma SavingIsNoRemoval(s: State)
    requires Linked(s, {}) && s.disk.queue != [] && s.disk.queue[0].owner.ByRemove?
    ensures s.c.saving != Some(s.disk.queue[0].op)
  {
  }

  lemma SettleLinks(s: State, ok: bool)
    requires Linked(s, {})
    ensures Linked(Settle(s, ok), {})
  {
    hide Linked;
    if s.disk.queue != [] {
      if s.disk.queue[0].owner.ByPersist? {
        SaverLinks(s, ok);
      } else if s.disk.queue[0].owner.ByRemove? {
        RemoverLinks(s, ok);
      } else {
        UnownedLinks(s, ok);
        var m := Popped(s, ok);
        SameLinks(m, {}, m.(live := false));
      }
    }
  }

  // ---------------------------------------------------------------- events and runs

  lemma SessionCallsLink(s: State, e: Event)
    requires Linked(s, {}) && (e.LoginCalled? || e.CancelLoginCalled? || e.LogoutCalled? || e.RemoveCalled? || e.CloseCalled?)
    ensures Linked(Step(s, e), {})
  {
    hide Linked, FinishLogout, FinishRemove;
    var s1 := Stop(s);
    SameLinks(s, {}, s1);
    SameLinks(s, {}, s.(closed := true));
    FreshNext(s1, {});
    PlainWaits(s1, s1.next, LoginVerify);
    PlainWaits(s1, s1.next, LogoutRevoke);
    PlainWaits(s1, s1.next, RemoveRevoke);
    if e.LoginCalled? {
      SpawnLinks(s1, {}, s1.c.generation, LoginVerify);
      var s2 := Spawn(s1, s1.c.generation, LoginVerify);
      SameLinks(s2, {}, s2.(c := s2.c.(login := Some(s.next), status := Connecting, stage := Some(VerifyingServer))));
    } else if e.LogoutCalled? {
      SpawnLinks(s1, {}, s.c.generation + 1, LogoutRevoke);
      FinishLogoutLinks(Spawn(s1, s.c.generation + 1, LogoutRevoke), s.next);
    } else if e.RemoveCalled? {
      SpawnLinks(s1, {}, s.c.generation + 1, RemoveRevoke);
      FinishRemoveLinks(Spawn(s1, s.c.generation + 1, RemoveRevoke), s.next);
    } else if e.CancelLoginCalled? {
      SameLinks(s1, {}, s1.(c := s1.c.(status := if s1.c.refresh.Some? then Reconnecting else SignedOut)));
    } else {
      var c := s.(closed := true);
      SameLinks(c, {}, Stop(c));
    }
  }

  lemma ConnectCallsLink(s: State, e: Event)
    requires Linked(s, {}) && (e.ResumeCalled? || e.SnapshotCalled? || e.RequestCalled? || e.TimerFired?)
    ensures Linked(Step(s, e), {})
  {
    hide Linked, Grew, ConnectInBackground, StartSync, StartRequest;
    if e.ResumeCalled? {
      SameLinks(s, {}, Stop(s));
      BackgroundLinks(Stop(s), {}, Stop(s).c.generation);
    } else if e.SnapshotCalled? {
      BackgroundLinks(s, {}, s.c.generation);
      StartSyncLinks(s, {});
      StartSyncLinks(ConnectInBackground(s, s.c.generation), {});
    } else if e.RequestCalled? {
      StartRequestLinks(s, {});
    } else {
      var m := s.(c := s.c.(timer := None));
      SameLinks(s, {}, m);
      BackgroundLinks(m, {}, s.c.generation);
    }
  }

  lemma SocketsLink(s: State, e: Event)
    requires Linked(s, {}) && (e.SocketOpened? || e.SocketLost? || e.OtherSaved? || e.StoreChanged?)
    ensures Linked(Step(s, e), {})
  {
    hide Linked, ScheduleReconnect;
    if e.SocketOpened? {
      SameLinks(s, {}, SocketReady(s, e.k));
    } else if e.SocketLost? {
      var m := s.(c := s.c.(socket := None));
      SameLinks(s, {}, m);
      ReconnectLinks(m, Other);
    } else if e.OtherSaved? {
      EnqueueLinks(s, {});
    } else {
      SameLinks(s, {}, Step(s, e));
    }
  }

  lemma StepLinks(s: State, e: Event)
    requires Linked(s, {})
    ensures Linked(Step(s, e), {})
  {
    hide Linked, Step;
    if e.Advanced? {
      if Acts(s, e) {
        AdvanceLinks(s, e.t, e.i);
        AdvanceIsStep(s, e);
      } else {
        NobodyMoves(s, e);
      }
    } else if e.WriteSettled? {
      SettleLinks(s, e.ok);
      SettleIsStep(s, e);
    } else if e.SocketOpened? || e.SocketLost? || e.OtherSaved? || e.StoreChanged? {
      SocketsLink(s, e);
    } else if e.ResumeCalled? || e.SnapshotCalled? || e.RequestCalled? || e.TimerFired? {
      ConnectCallsLink(s, e);
    } else {
      SessionCallsLink(s, e);
    }
  }

  lemma AdvanceIsStep(s: State, e: Event)
    requires e.Advanced?
    ensures Step(s, e) == Advance(s, e.t, e.i)
  {
  }

  lemma SettleIsStep(s: State, e: Event)
    requires e.WriteSettled?
    ensures Step(s, e) == Settle(s, e.ok)
  {
  }

  lemma {:induction false} RunIsLinked(start: State, es: seq<Event>)
    requires Initial(start)
    ensures Linked(Run(start, es), {})
    decreases |es|
  {
    hide Step;
    if es != [] {
      hide Linked;
      RunIsLinked(start, es[..|es| - 1]);
      StepLinks(Run(start, es[..|es| - 1]), es[|es| - 1]);
    } else {
      assert Run(start, es) == start;
    }
  }

  // ---------------------------------------------------------------- something can go on

  /** What the activation awaits is there; a drained attempt's owner gives back its slot first. */
  predicate GoesNow(s: State, u: Id)
    requires u in s.tasks
  {
    Ready(s, u) && !(s.tasks[u].at.ConnectDrain? && s.c.connecting == Some(s.tasks[u].at.op))
  }

  /** The activation, or the write it waits for, is due now: its reply, the outcome it awaits, or the end of the write. */
  predicate IsDue(s: State, u: Id) {
    && u in s.tasks && !s.tasks[u].at.Done?
    && (GoesNow(s, u) || ((s.tasks[u].at.OtherSave? || s.tasks[u].at.OwnSave? || s.tasks[u].at.RemoveSave?)
                          && Queued(s, s.tasks[u].at.op)))
  }

  /** Below every unfinished activation stands one that is due. */
  lemma {:induction false} SomebodyIsDue(s: State, t: Id) returns (u: Id)
    requires Linked(s, {}) && t in s.tasks && !s.tasks[t].at.Done?
    ensures IsDue(s, u) && Layer(s.tasks[u].at) <= Layer(s.tasks[t].at)
    decreases Layer(s.tasks[t].at)
  {
    assert Waits(s, t, s.tasks[t].at);
    u := t;
    if Awaited(s.tasks[t].at).Some? && !Finished(s, Awaited(s.tasks[t].at).value) {
      u := SomebodyIsDue(s, Awaited(s.tasks[t].at).value);
    } else if s.tasks[t].at.OwnSave? || s.tasks[t].at.RemoveSave? {
      OwnWriteIsQueued(s, t);
    } else if s.tasks[t].at.ConnectDrain? && s.c.connecting == Some(s.tasks[t].at.op) {
      u :| u in s.tasks && s.tasks[u].at == ConnectOwn(s.tasks[t].at.op);
    }
  }

  lemma OwnWriteIsQueued(s: State, t: Id)
    requires t in s.tasks && Waits(s, t, s.tasks[t].at) && (s.tasks[t].at.OwnSave? || s.tasks[t].at.RemoveSave?)
    ensures Queued(s, s.tasks[t].at.op)
  {
  }

  /** A settled save is not the one under way. */
  lemma SettledIsOver(s: State, op: Id)
    requires Linked(s, {}) && op in s.disk.settled
    ensures s.c.saving != Some(op)
  {
    if s.c.saving == Some(op) {
      SavingIsQueued(s, {});
    }
  }

  lemma OtherSaveGoesOn(s: State, t: Id, op: Id)
    requires Linked(s, {}) && t in s.tasks && s.tasks[t].at == OtherSave(op) && op in s.disk.settled
    ensures t in ResumeOtherSave(s, t, op).tasks && ResumeOtherSave(s, t, op).tasks[t].at != OtherSave(op)
  {
    SettledIsOver(s, op);
    hide Linked;
  }

  lemma DrainGoesOn(s: State, t: Id, op: Id)
    requires t in s.tasks && s.tasks[t].at == ConnectDrain(op) && Finished(s, op) && s.c.connecting != Some(op)
    ensures t in ResumeConnectDrain(s, t, op).tasks && ResumeConnectDrain(s, t, op).tasks[t].at != ConnectDrain(op)
  {
  }

  lemma FollowingIsNew(at: Point, after: Point)
    requires Follows(at, after) && !at.OtherSave? && !at.OwnSave? && !at.ConnectDrain?
    ensures after != at
  {
  }

  /** Whatever the reply says, an activation that can go on leaves its point. */
  lemma ReadyGoesOn(s: State, u: Id, i: Input)
    requires Inv(s) && AbortedAreOld(s) && Linked(s, {}) && u in s.tasks && !s.tasks[u].at.Done? && GoesNow(s, u)
    ensures u in Step(s, Advanced(u, i)).tasks && Step(s, Advanced(u, i)).tasks[u].at != s.tasks[u].at
  {
    hide Inv, AbortedAreOld, Linked, FailureOf, Succeeds, Follows, Advance;
    ActivationMoves(s, Advanced(u, i));
    if s.tasks[u].at.OtherSave? {
      OtherSaveGoesOn(s, u, s.tasks[u].at.op);
      ResumesSave(s, u, i);
    } else if s.tasks[u].at.ConnectDrain? {
      DrainGoesOn(s, u, s.tasks[u].at.op);
      ResumesDrain(s, u, i);
    } else if Follows(s.tasks[u].at, Step(s, Advanced(u, i)).tasks[u].at) {
      FollowingIsNew(s.tasks[u].at, Step(s, Advanced(u, i)).tasks[u].at);
    }
  }

  lemma ResumesSave(s: State, u: Id, i: Input)
    requires u in s.tasks && s.tasks[u].at.OtherSave?
    ensures Advance(s, u, i) == ResumeOtherSave(s, u, s.tasks[u].at.op)
  {
  }

  lemma ResumesDrain(s: State, u: Id, i: Input)
    requires u in s.tasks && s.tasks[u].at.ConnectDrain?
    ensures Advance(s, u, i) == ResumeConnectDrain(s, u, s.tasks[u].at.op)
  {
  }

  /** However it ends, a write settles and lets the others move up. */
  lemma QueueMovesUp(s: State, ok: bool)
    requires s.disk.queue != []
    ensures var n := Settle(s, ok);
            && s.disk.queue[0].op in n.disk.settled && |n.disk.queue| >= |s.disk.queue| - 1
            && forall j :: 1 <= j < |s.disk.queue| ==> n.disk.queue[j - 1] == s.disk.queue[j]
  {
    hide Continue;
    ContinueAddsWrites(Popped(s, ok), s.disk.queue[0], ok);
  }

  lemma ContinueAddsWrites(s: State, w: Write, ok: bool)
    ensures s.disk.queue <= Continue(s, w, ok).disk.queue && Continue(s, w, ok).disk.settled == s.disk.settled
  {
    hide PersistLoop;
    if w.owner.ByPersist? && w.owner.t in s.tasks && s.tasks[w.owner.t].at.OwnSave? {
      var s1 := if s.c.saving == Some(w.op) then s.(c := s.c.(saving := None)) else s;
      var s2 := At(s1, w.owner.t, Begin);
      LoopAddsWrites(if Creds(s.c) == w.owner.captured then s2.(c := s2.c.(dirty := false)) else s2, w.owner.t);
    }
  }

  lemma LoopAddsWrites(s: State, t: Id)
    requires t in s.tasks
    ensures s.disk.queue <= PersistLoop(s, t).disk.queue && PersistLoop(s, t).disk.settled == s.disk.settled
  {
  }

  /**
    In every reachable state in which some activation is unfinished, one is due: its next event is a reply, the outcome it
    awaits is there, or its write is queued. Such an event really moves it, and a queued write moves up with each one that
    ends: the activations never wait for each other in a circle, for a lost write or for a slot that nobody gives back.
   */
  lemma NothingWaitsForNothing(start: State, es: seq<Event>, t: Id, i: Input) returns (u: Id)
    requires Initial(start) && t in Run(start, es).tasks && !Run(start, es).tasks[t].at.Done?
    ensures var s := Run(start, es);
            && IsDue(s, u)
            && (GoesNow(s, u) ==> var n := Step(s, Advanced(u, i)); u in n.tasks && n.tasks[u].at != s.tasks[u].at)
    ensures var c := Run(start, es).c;
            && (c.saving.Some? ==> Somebody(Run(start, es), OwnSave(c.saving.value)))
            && (c.refreshing.Some? ==> Somebody(Run(start, es), EnsureOwn(c.refreshing.value)))
            && (c.syncing.Some? ==> Somebody(Run(start, es), SyncOwn(c.syncing.value)))
            && (c.connecting.Some? ==> Somebody(Run(start, es), ConnectOwn(c.connecting.value)))
  {
    hide Inv, AbortedAreOld, Linked, GoesNow, Run, Step, Somebody;
    RunIsLinked(start, es);
    RunKeepsActivations(start, es);
    var s := Run(start, es);
    OwnedSlots(s, {});
    u := SomebodyIsDue(s, t);
    if GoesNow(s, u) {
      ReadyGoesOn(s, u, i);
    }
  }
}
