/** The library of targets delivered in a conversation: a capped, deduplicated projection of its entries. */
module ConversationLibrary {
  import opened Collections
  import opened Option

  const MAX_ITEMS := 2000
  const MAX_PER_ENTRY := 128

  /**
    An entry of the conversation. `targets` are the links, images and attachments found in its message, in the order
    they are offered, None for one that is not an acceptable target. Entries without a text id have id "".
   */
  datatype Entry = Entry(
    kind: string, id: string, streaming: bool, branched: bool, message: bool, messageChannel: bool,
    entryChannel: bool, delivery: string, targets: seq<Option<string>>)

  datatype Item = Item(key: string, url: string, sourceEntryId: string, order: int)

  datatype Snapshot = Snapshot(entries: seq<Entry>, pending: set<string>, failed: set<string>)

  predicate Eligible(s: Snapshot, e: Entry) {
    && e.kind == "send-message" && e.id != "" && !e.streaming && !e.branched
    && e.id !in s.pending && e.id !in s.failed
    && e.message && !e.messageChannel && !e.entryChannel
    && (e.delivery == "" || e.delivery in ["sent", "replied", "processed"])
  }

  function Key(id: string, url: string): string { id + "\0" + url }

  function Keys(items: seq<Item>): set<string> { set it | it in items :: it.key }

  function Take<T>(s: seq<T>, n: nat): seq<T> { if |s| <= n then s else s[..n] }

  /** The items of the first n targets of an entry that are new with respect to `seen` and to each other. */
  function Fresh(e: Entry, order: int, seen: set<string>, n: nat): seq<Item>
    requires n <= |e.targets|
  {
    if n == 0 then []
    else
      var before := Fresh(e, order, seen, n - 1);
      match e.targets[n - 1]
      case None => before
      case Some(url) =>
        var key := Key(e.id, url);
        if key in seen || key in Keys(before) then before else before + [Item(key, url, e.id, order)]
  }

  /** What one entry contributes: its first 128 new targets. */
  function Contribution(s: Snapshot, order: int, seen: set<string>): seq<Item>
    requires 0 <= order < |s.entries|
  {
    var e := s.entries[order];
    if Eligible(s, e) then Take(Fresh(e, order, seen, |e.targets|), MAX_PER_ENTRY) else []
  }

  /** The uncapped projection of the oldest n entries, newest first. */
  function Projection(s: Snapshot, n: nat, seen: set<string>): seq<Item>
    requires n <= |s.entries|
  {
    if n == 0 then []
    else
      var here := Contribution(s, n - 1, seen);
      here + Projection(s, n - 1, seen + Keys(here))
  }

  function Library(s: Snapshot): seq<Item> { Take(Projection(s, |s.entries|, {}), MAX_ITEMS) }

  // ---------------------------------------------------------------- the final sort

  /** Newest entry first. */
  predicate Ordered(items: seq<Item>) { forall i, j :: 0 <= i < j < |items| ==> items[i].order >= items[j].order }

  function OfOrder(items: seq<Item>, order: int): seq<Item> {
    if items == [] then []
    else (if items[0].order == order then [items[0]] else []) + OfOrder(items[1..], order)
  }

  /** Newest first, items of the same order staying as they were. */
  ghost predicate IsStableSort(xs: seq<Item>, ys: seq<Item>) {
    Ordered(ys) && forall order :: OfOrder(ys, order) == OfOrder(xs, order)
  }

  function Insert(it: Item, sorted: seq<Item>): seq<Item> {
    if sorted == [] || it.order >= sorted[0].order then [it] + sorted else [sorted[0]] + Insert(it, sorted[1..])
  }

  function StableSort(items: seq<Item>): seq<Item> {
    if items == [] then [] else Insert(items[0], StableSort(items[1..]))
  }

  lemma OfOrderCons(it: Item, items: seq<Item>, order: int)
    ensures OfOrder([it] + items, order) == (if it.order == order then [it] else []) + OfOrder(items, order)
  {
    assert ([it] + items)[1..] == items;
  }

  lemma {:induction false} InsertSorts(it: Item, sorted: seq<Item>)
    requires Ordered(sorted)
    ensures Ordered(Insert(it, sorted))
    ensures forall x :: x in Insert(it, sorted) ==> x == it || x in sorted
  {
    if sorted != [] && it.order < sorted[0].order {
      InsertSorts(it, sorted[1..]);
      var rest := Insert(it, sorted[1..]);
      forall j | 0 <= j < |rest|
        ensures sorted[0].order >= rest[j].order
      {
        assert rest[j] == it || rest[j] in sorted[1..];
      }
    }
  }

  lemma {:induction false} InsertIsStable(it: Item, sorted: seq<Item>, order: int)
    ensures OfOrder(Insert(it, sorted), order) == OfOrder([it] + sorted, order)
  {
    if sorted != [] && it.order < sorted[0].order {
      InsertIsStable(it, sorted[1..], order);
      assert sorted == [sorted[0]] + sorted[1..];
      OfOrderCons(it, sorted, order);
      OfOrderCons(it, sorted[1..], order);
      OfOrderCons(sorted[0], sorted[1..], order);
      OfOrderCons(sorted[0], Insert(it, sorted[1..]), order);
    }
  }

  lemma {:induction false} StableSortIsStable(items: seq<Item>)
    ensures IsStableSort(items, StableSort(items))
  {
    if items != [] {
      StableSortIsStable(items[1..]);
      var rest := StableSort(items[1..]);
      InsertSorts(items[0], rest);
      forall order
        ensures OfOrder(StableSort(items), order) == OfOrder(items, order)
      {
        InsertIsStable(items[0], rest, order);
        OfOrderCons(items[0], rest, order);
      }
    }
  }

  lemma {:induction false} OfOrderFinds(items: seq<Item>, order: int)
    ensures OfOrder(items, order) == [] <==> forall it :: it in items ==> it.order != order
  {
    if items != [] {
      OfOrderFinds(items[1..], order);
    }
  }

  lemma SameTail(xs: seq<Item>, ys: seq<Item>, order: int)
    requires xs != [] && ys != [] && xs[0] == ys[0] && OfOrder(xs, order) == OfOrder(ys, order)
    ensures OfOrder(xs[1..], order) == OfOrder(ys[1..], order)
  {
    var head := if xs[0].order == order then [xs[0]] else [];
    assert OfOrder(xs[1..], order) == OfOrder(xs, order)[|head|..];
    assert OfOrder(ys[1..], order) == OfOrder(ys, order)[|head|..];
  }

  /** The first items of two orderings that agree order by order. */
  lemma SameHead(xs: seq<Item>, ys: seq<Item>)
    requires Ordered(xs) && IsStableSort(xs, ys)
    ensures xs == [] <==> ys == []
    ensures xs != [] && ys != [] ==> xs[0] == ys[0]
  {
    hide OfOrder;
    if xs != [] {
      OfOrderFinds(xs, xs[0].order);
      OfOrderFinds(ys, xs[0].order);
      FirstOfOrder(xs);
    }
    if ys != [] {
      OfOrderFinds(ys, ys[0].order);
      OfOrderFinds(xs, ys[0].order);
      FirstOfOrder(ys);
    }
  }

  lemma FirstOfOrder(items: seq<Item>)
    requires items != []
    ensures OfOrder(items, items[0].order) != [] && OfOrder(items, items[0].order)[0] == items[0]
  {
  }

  /** Any stable sort of items that are newest first already leaves them as they are. */
  lemma {:induction false} StableSortOfOrdered(xs: seq<Item>, ys: seq<Item>)
    requires Ordered(xs) && IsStableSort(xs, ys)
    ensures ys == xs
  {
    hide OfOrder;
    SameHead(xs, ys);
    if ys != [] {
      forall order
        ensures OfOrder(ys[1..], order) == OfOrder(xs[1..], order)
      {
        assert OfOrder(xs, order) == OfOrder(ys, order);
        SameTail(xs, ys, order);
      }
      StableSortOfOrdered(xs[1..], ys[1..]);
    }
  }

  // ---------------------------------------------------------------- the loops

  /** Items followed by what one entry adds, both caps applied. */
  function Joined(items: seq<Item>, xs: seq<Item>): seq<Item> { Take(items + Take(xs, MAX_PER_ENTRY), MAX_ITEMS) }

  lemma JoinedWithRoom(items: seq<Item>, xs: seq<Item>)
    ensures |Joined(items, xs)| < MAX_ITEMS ==> Joined(items, xs) == items + Take(xs, MAX_PER_ENTRY)
    ensures |Take(xs, MAX_PER_ENTRY)| < MAX_PER_ENTRY ==> Take(xs, MAX_PER_ENTRY) == xs
  {
  }

  lemma JoinedOneMore(items: seq<Item>, xs: seq<Item>, it: Item)
    requires |xs| < MAX_PER_ENTRY && |Joined(items, xs)| < MAX_ITEMS
    ensures Joined(items, xs + [it]) == Joined(items, xs) + [it]
  {
    assert items + (xs + [it]) == (items + xs) + [it];
  }

  /** Once a cap is reached, more items change nothing. */
  lemma JoinedWhenFull(items: seq<Item>, xs: seq<Item>, ys: seq<Item>)
    requires xs <= ys
    requires xs == ys || |Take(xs, MAX_PER_ENTRY)| == MAX_PER_ENTRY || |Joined(items, xs)| >= MAX_ITEMS
    ensures Joined(items, ys) == Joined(items, xs)
    ensures |Joined(items, xs)| < MAX_ITEMS ==> Take(ys, MAX_PER_ENTRY) == Take(xs, MAX_PER_ENTRY)
  {
    var a, b := Take(xs, MAX_PER_ENTRY), Take(ys, MAX_PER_ENTRY);
    assert a <= b;
    if |items + a| >= MAX_ITEMS {
      assert (items + b)[..MAX_ITEMS] == (items + a)[..MAX_ITEMS];
    }
  }

  /** Offers the targets of one eligible entry; `seen` only matters while there is room for more items. */
  method AddEntry(s: Snapshot, order: int, items: seq<Item>, seen: set<string>)
    returns (items': seq<Item>, seen': set<string>)
    requires 0 <= order < |s.entries| && Eligible(s, s.entries[order]) && |items| < MAX_ITEMS
    ensures items' == Joined(items, Contribution(s, order, seen))
    ensures |items'| < MAX_ITEMS ==> seen' == seen + Keys(Contribution(s, order, seen))
  {
    hide Eligible, Key, Joined, Keys;
    var e := s.entries[order];
    items', seen' := items, seen;
    var count, i := 0, 0;
    Nothing(items);
    while i < |e.targets|
      invariant 0 <= i <= |e.targets|
      invariant items' == Joined(items, Fresh(e, order, seen, i))
      invariant |items'| < MAX_ITEMS ==> count == |Take(Fresh(e, order, seen, i), MAX_PER_ENTRY)|
      invariant |items'| < MAX_ITEMS ==> seen' == seen + Keys(Take(Fresh(e, order, seen, i), MAX_PER_ENTRY))
    {
      ghost var before := Fresh(e, order, seen, i);
      JoinedWithRoom(items, before);
      if count >= MAX_PER_ENTRY || |items'| >= MAX_ITEMS || e.targets[i].None? {
        JoinedWhenFull(items, before, Fresh(e, order, seen, i + 1));
      } else {
        var url := e.targets[i].value;
        var key := Key(e.id, url);
        if key !in seen' {
          seen', count := seen' + {key}, count + 1;
          items' := items' + [Item(key, url, e.id, order)];
          JoinedOneMore(items, before, Item(key, url, e.id, order));
          KeysOfAppended(before, Item(key, url, e.id, order));
        }
      }
      i := i + 1;
    }
    ContributionIsCut(s, order, seen, items);
  }

  lemma Nothing(items: seq<Item>)
    requires |items| < MAX_ITEMS
    ensures Joined(items, []) == items && Keys([]) == {}
  {
    assert items + [] == items;
  }

  lemma ContributionIsCut(s: Snapshot, order: int, seen: set<string>, items: seq<Item>)
    requires 0 <= order < |s.entries| && Eligible(s, s.entries[order])
    ensures var all := Fresh(s.entries[order], order, seen, |s.entries[order].targets|);
            Contribution(s, order, seen) == Take(all, MAX_PER_ENTRY)
            && Joined(items, all) == Joined(items, Contribution(s, order, seen))
  {
  }

  lemma KeysOfAppended(items: seq<Item>, it: Item)
    ensures Keys(items + [it]) == Keys(items) + {it.key}
  {
    assert forall x :: x in items + [it] <==> x in items || x == it;
  }

  /** What is collected, and what is still to be collected from the oldest n entries, make up the library. */
  predicate Halfway(s: Snapshot, n: int, items: seq<Item>, seen: set<string>)
    requires 0 <= n <= |s.entries|
  {
    if |items| < MAX_ITEMS then seen == Keys(items) && items + Projection(s, n, seen) == Projection(s, |s.entries|, {})
    else items == Library(s)
  }

  method Collect(s: Snapshot) returns (items: seq<Item>)
    ensures items == Library(s)
  {
    items := [];
    var seen: set<string> := {};
    var order := |s.entries| - 1;
    while order >= 0 && |items| < MAX_ITEMS
      invariant -1 <= order < |s.entries|
      invariant Halfway(s, order + 1, items, seen)
      decreases order
    {
      hide Eligible, Contribution, Projection, Keys, Library, Joined, Halfway;
      if Eligible(s, s.entries[order]) {
        AfterEntry(s, order, items, seen);
        items, seen := AddEntry(s, order, items, seen);
        SeenIsMootWhenFull(s, order, items, seen);
      } else {
        IneligibleAddsNothing(s, order, items, seen);
      }
      order := order - 1;
    }
  }

  lemma AfterEntry(s: Snapshot, order: int, items: seq<Item>, seen: set<string>)
    requires 0 <= order < |s.entries| && |items| < MAX_ITEMS && Halfway(s, order + 1, items, seen)
    ensures var here := Contribution(s, order, seen);
            Halfway(s, order, Joined(items, here), seen + Keys(here))
  {
    hide Contribution, Keys, From, DistinctKeys;
    var here := Contribution(s, order, seen);
    var rest := Projection(s, order, seen + Keys(here));
    ContributionItems(s, order, seen);
    Associates(items, here, rest);
    if |items + here| < MAX_ITEMS {
      KeysOfConcatenation(items, here);
    } else {
      assert ((items + here) + rest)[..MAX_ITEMS] == (items + here)[..MAX_ITEMS];
    }
  }

  lemma SeenIsMootWhenFull(s: Snapshot, n: int, items: seq<Item>, seen: set<string>)
    requires 0 <= n <= |s.entries|
    ensures |items| >= MAX_ITEMS ==> forall other :: Halfway(s, n, items, other) ==> Halfway(s, n, items, seen)
  {
    hide Projection, Library, Keys;
  }

  method ProjectConversationLibrary(s: Snapshot) returns (items: seq<Item>)
    ensures items == Library(s)
  {
    hide Library, StableSort, Ordered, IsStableSort;
    items := Collect(s);
    LibraryIsOrdered(s);
    StableSortIsStable(items);
    StableSortOfOrdered(items, StableSort(items));
    items := StableSort(items);
  }

  lemma KeysOfConcatenation(xs: seq<Item>, ys: seq<Item>)
    ensures Keys(xs + ys) == Keys(xs) + Keys(ys)
  {
    assert forall x :: x in xs + ys <==> x in xs || x in ys;
  }

  lemma IneligibleAddsNothing(s: Snapshot, order: int, items: seq<Item>, seen: set<string>)
    requires 0 <= order < |s.entries| && !Eligible(s, s.entries[order]) && Halfway(s, order + 1, items, seen)
    ensures Halfway(s, order, items, seen)
  {
    assert seen + Keys([]) == seen;
    assert Projection(s, order + 1, seen) == [] + Projection(s, order, seen + Keys([]));
  }

  // ---------------------------------------------------------------- what the projection promises

  /** Where an item comes from: an eligible entry offering its target. */
  predicate From(s: Snapshot, it: Item) {
    && 0 <= it.order < |s.entries|
    && var e := s.entries[it.order];
       Eligible(s, e) && it.sourceEntryId == e.id && it.key == Key(e.id, it.url) && Some(it.url) in e.targets
  }

  predicate DistinctKeys(items: seq<Item>) { forall i, j :: 0 <= i < j < |items| ==> items[i].key != items[j].key }

  lemma {:induction false} FreshItems(e: Entry, order: int, seen: set<string>, n: nat)
    requires n <= |e.targets|
    ensures forall it :: it in Fresh(e, order, seen, n) ==>
      it.order == order && it.sourceEntryId == e.id && it.key == Key(e.id, it.url) && Some(it.url) in e.targets
      && it.key !in seen
    ensures DistinctKeys(Fresh(e, order, seen, n))
    ensures forall i :: 0 <= i < n && e.targets[i].Some? ==>
      Key(e.id, e.targets[i].value) in seen + Keys(Fresh(e, order, seen, n))
  {
    if n > 0 {
      FreshItems(e, order, seen, n - 1);
    }
  }

  lemma ContributionItems(s: Snapshot, order: int, seen: set<string>)
    requires 0 <= order < |s.entries|
    ensures var here := Contribution(s, order, seen);
            && |here| <= MAX_PER_ENTRY && DistinctKeys(here)
            && forall it :: it in here ==> it.order == order && From(s, it) && it.key !in seen
    ensures var e, here := s.entries[order], Contribution(s, order, seen);
            Eligible(s, e) && |here| < MAX_PER_ENTRY ==>
              forall i :: 0 <= i < |e.targets| && e.targets[i].Some? ==> Key(e.id, e.targets[i].value) in seen + Keys(here)
  {
    var e := s.entries[order];
    FreshItems(e, order, seen, |e.targets|);
  }

  lemma {:induction false} ProjectionIsSound(s: Snapshot, n: nat, seen: set<string>)
    requires n <= |s.entries|
    ensures var all := Projection(s, n, seen);
            Ordered(all) && DistinctKeys(all) && forall it :: it in all ==> it.order < n && From(s, it) && it.key !in seen
  {
    if n > 0 {
      hide Contribution, From, Eligible;
      var here := Contribution(s, n - 1, seen);
      ContributionItems(s, n - 1, seen);
      ProjectionIsSound(s, n - 1, seen + Keys(here));
    }
  }

  lemma {:induction false} OfOrderConcatenates(xs: seq<Item>, ys: seq<Item>, order: int)
    ensures OfOrder(xs + ys, order) == OfOrder(xs, order) + OfOrder(ys, order)
  {
    if xs == [] {
      assert xs + ys == ys;
    } else {
      hide OfOrder;
      var it, rest := xs[0], xs[1..];
      assert xs == [it] + rest;
      OfOrderConcatenates(rest, ys, order);
      OfOrderCons(it, rest, order);
      OfOrderCons(it, rest + ys, order);
      Associates([it], rest, ys);
      Associates(if it.order == order then [it] else [], OfOrder(rest, order), OfOrder(ys, order));
    }
  }

  lemma {:induction false} OfOwnOrder(items: seq<Item>, order: int)
    requires forall it :: it in items ==> it.order == order
    ensures OfOrder(items, order) == items
  {
    if items != [] {
      OfOwnOrder(items[1..], order);
    }
  }

  /** Of each entry at most 128 items; and unless it has exactly 128, all its targets are there. */
  lemma {:induction false} ProjectionByEntry(s: Snapshot, n: nat, seen: set<string>, order: int)
    requires n <= |s.entries| && 0 <= order < n
    ensures var all := Projection(s, n, seen);
            && |OfOrder(all, order)| <= MAX_PER_ENTRY
            && (Eligible(s, s.entries[order]) && |OfOrder(all, order)| < MAX_PER_ENTRY ==>
                  forall url :: Some(url) in s.entries[order].targets ==>
                    Key(s.entries[order].id, url) in seen + Keys(all))
  {
    hide Contribution, From, Eligible, Ordered, DistinctKeys, Key, OfOrder, Keys;
    var here := Contribution(s, n - 1, seen);
    var rest := Projection(s, n - 1, seen + Keys(here));
    OrdersApart(s, n, seen, order);
    KeysOfConcatenation(here, rest);
    if order == n - 1 {
      ContributionItems(s, n - 1, seen);
    } else {
      ProjectionByEntry(s, n - 1, seen + Keys(here), order);
    }
  }

  /** The items of one order are the contribution of its entry. */
  lemma OrdersApart(s: Snapshot, n: nat, seen: set<string>, order: int)
    requires n <= |s.entries| && 0 <= order < n
    ensures var here := Contribution(s, n - 1, seen);
            OfOrder(Projection(s, n, seen), order)
            == if order == n - 1 then here else OfOrder(Projection(s, n - 1, seen + Keys(here)), order)
  {
    hide Contribution, From, Eligible, Ordered, DistinctKeys, Key, OfOrder;
    var here := Contribution(s, n - 1, seen);
    var rest := Projection(s, n - 1, seen + Keys(here));
    ContributionItems(s, n - 1, seen);
    ProjectionIsSound(s, n - 1, seen + Keys(here));
    OfOrderConcatenates(here, rest, order);
    if order == n - 1 {
      OfOwnOrder(here, order);
      OfOrderFinds(rest, order);
    } else {
      OfOrderFinds(here, order);
    }
  }

  lemma LibraryIsOrdered(s: Snapshot)
    ensures Ordered(Library(s))
  {
    ProjectionIsSound(s, |s.entries|, {});
  }

  /** At most 2000 items, newest first, each key once, each a target of an eligible entry. */
  lemma LibraryIsSound(s: Snapshot)
    ensures var items := Library(s);
            && |items| <= MAX_ITEMS && Ordered(items) && DistinctKeys(items)
            && (forall it :: it in items ==> From(s, it))
  {
    hide From;
    ProjectionIsSound(s, |s.entries|, {});
  }

  /** At most 128 items of one entry. */
  lemma LibraryCapsEntries(s: Snapshot, order: int)
    requires 0 <= order < |s.entries|
    ensures |OfOrder(Library(s), order)| <= MAX_PER_ENTRY
  {
    hide Projection;
    var all := Projection(s, |s.entries|, {});
    assert all == Library(s) + all[|Library(s)|..];
    OfOrderConcatenates(Library(s), all[|Library(s)|..], order);
    ProjectionByEntry(s, |s.entries|, {}, order);
  }

  /**
    A library short of 2000 items has every target of every eligible entry, except those of an entry with 128 items of
    its own.
   */
  lemma LibraryIsComplete(s: Snapshot, order: int, url: string)
    requires |Library(s)| < MAX_ITEMS
    requires 0 <= order < |s.entries| && Eligible(s, s.entries[order]) && Some(url) in s.entries[order].targets
    ensures |OfOrder(Library(s), order)| == MAX_PER_ENTRY || Key(s.entries[order].id, url) in Keys(Library(s))
  {
    hide Eligible;
    ProjectionByEntry(s, |s.entries|, {}, order);
    assert Library(s) == Projection(s, |s.entries|, {});
  }

  /** A full library leaves out no item of a newer entry in favour of one of an older entry. */
  lemma FullLibraryIsNewest(s: Snapshot, dropped: Item, kept: Item)
    requires dropped in Projection(s, |s.entries|, {})[|Library(s)|..] && kept in Library(s)
    ensures dropped.order <= kept.order && dropped.key != kept.key
  {
    ProjectionIsSound(s, |s.entries|, {});
  }

  lemma LastNul(id: string, url: string)
    requires '\0' !in url
    ensures Key(id, url)[|id|] == '\0' && forall k :: |id| < k < |Key(id, url)| ==> Key(id, url)[k] != '\0'
  {
    forall k | |id| < k < |Key(id, url)|
      ensures Key(id, url)[k] != '\0'
    {
      assert Key(id, url)[k] == url[k - |id| - 1];
    }
  }

  /** With targets free of NUL, which acceptable targets are, a key names one entry id and one target. */
  lemma KeyIsInjective(id: string, url: string, id': string, url': string)
    requires '\0' !in url && '\0' !in url' && Key(id, url) == Key(id', url')
    ensures id == id' && url == url'
  {
    LastNul(id, url);
    LastNul(id', url');
    assert |id| == |id'|;
    assert url == Key(id, url)[|id| + 1..] && url' == Key(id', url')[|id'| + 1..];
    assert id == Key(id, url)[..|id|] && id' == Key(id', url')[..|id'|];
  }
}
