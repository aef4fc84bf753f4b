/** The ledger that lets repeated createAgent calls with one nonce share one mint. */
module AgentLedger {
  import opened Collections
  import opened Option

  const CAP := 64

  /** A held nonce and the mint it stands for, oldest insertion first. */
  datatype Entry = Entry(nonce: string, mint: int)

  predicate Holds(held: seq<Entry>, nonce: string) { exists i :: 0 <= i < |held| && held[i].nonce == nonce }

  function MintOf(held: seq<Entry>, nonce: string): Option<int> {
    if held == [] then None else if held[0].nonce == nonce then Some(held[0].mint) else MintOf(held[1..], nonce)
  }

  function Without(held: seq<Entry>, nonce: string): seq<Entry> {
    if held == [] then [] else if held[0].nonce == nonce then Without(held[1..], nonce)
    else [held[0]] + Without(held[1..], nonce)
  }

  function Trimmed(held: seq<Entry>): seq<Entry> { if |held| <= CAP then held else held[|held| - CAP..] }

  /** `mints` lists the nonce of every mint started, a mint being named by its position; None for calls without nonce. */
  datatype Ledger = Ledger(held: seq<Entry>, mints: seq<Option<string>>)

  datatype Event = Create(nonce: Option<string>) | Failed(mint: int)

  /** A call with a held nonce gets the mint it stands for; any other call starts a mint. */
  function CreateCall(l: Ledger, nonce: Option<string>): (Ledger, int) {
    var mint := |l.mints|;
    if nonce.None? || nonce.value == "" then (l.(mints := l.mints + [None]), mint)
    else
      match MintOf(l.held, nonce.value)
      case Some(held) => (l, held)
      case None => (Ledger(Trimmed(l.held + [Entry(nonce.value, mint)]), l.mints + [nonce]), mint)
  }

  /** A failed mint deletes its nonce, whatever mint the nonce stands for by then. */
  function Fail(l: Ledger, mint: int): Ledger {
    if 0 <= mint < |l.mints| && l.mints[mint].Some? then l.(held := Without(l.held, l.mints[mint].value)) else l
  }

  function Step(l: Ledger, e: Event): Ledger {
    if e.Create? then CreateCall(l, e.nonce).0 else Fail(l, e.mint)
  }

  function Run(es: seq<Event>): Ledger
    decreases |es|
  {
    if es == [] then Ledger([], []) else Step(Run(es[..|es| - 1]), es[|es| - 1])
  }

  class HostGatewayApi {
    var held: seq<Entry>
    var mints: seq<Option<string>>

    ghost function Abs(): Ledger
      reads this
    {
      Ledger(held, mints)
    }

    /** At most 64 distinct nonces are held, each with a mint of its own. */
    ghost predicate Valid()
      reads this
    {
      Ok(Abs())
    }

    constructor ()
      ensures Valid() && Abs() == Ledger([], [])
    {
      held, mints := [], [];
    }

    method MintAgent(nonce: Option<string>) returns (mint: int)
      modifies this
      ensures mint == |old(mints)| && mints == old(mints) + [nonce] && held == old(held)
    {
      mint := |mints|;
      mints := mints + [nonce];
    }

    /** A call with a nonce gets the mint the ledger holds for it from then on. */
    method CreateAgent(nonce: Option<string>) returns (mint: int)
      requires Valid()
      modifies this
      ensures Valid() && (Abs(), mint) == CreateCall(old(Abs()), nonce)
      ensures nonce.Some? && nonce.value != "" ==> Entry(nonce.value, mint) in held
    {
      hide Ok, Trimmed, MintOf;
      StepKeepsOk(Abs(), Create(nonce));
      CreateHolds(Abs(), nonce);
      if nonce.None? || nonce.value == "" {
        mint := MintAgent(None);
        return;
      }
      var pending := MintOf(held, nonce.value);
      if pending.Some? {
        return pending.value;
      }
      mint := MintAgent(nonce);
      held := held + [Entry(nonce.value, mint)];
      EvictOldest();
    }

    method EvictOldest()
      modifies this`held
      ensures held == Trimmed(old(held))
    {
      ghost var dropped := 0;
      while |held| > CAP
        invariant 0 <= dropped <= |old(held)| && held == old(held)[dropped..]
        invariant dropped > 0 ==> |held| >= CAP
        decreases |held|
      {
        held := held[1..];
        dropped := dropped + 1;
      }
    }

    method MintFailed(mint: int)
      requires Valid()
      modifies this
      ensures Valid() && Abs() == Fail(old(Abs()), mint)
      ensures 0 <= mint < |mints| && mints[mint].Some? ==> !Holds(held, mints[mint].value)
    {
      hide Ok;
      StepKeepsOk(Abs(), Failed(mint));
      if 0 <= mint < |mints| && mints[mint].Some? {
        WithoutKeeps(held, mints[mint].value);
      }
      if 0 <= mint < |mints| && mints[mint].Some? {
        held := Without(held, mints[mint].value);
      }
    }

    /** Any event, and so any run, takes the object where the model goes. */
    method Handle(e: Event)
      requires Valid()
      modifies this
      ensures Valid() && Abs() == Step(old(Abs()), e)
    {
      hide CreateCall, Fail, Ok;
      match e
      case Create(nonce) => var mint := CreateAgent(nonce);
      case Failed(mint) => MintFailed(mint);
    }
  }

  lemma CreateHolds(l: Ledger, nonce: Option<string>)
    ensures var (after, mint) := CreateCall(l, nonce);
            nonce.Some? && nonce.value != "" ==> Entry(nonce.value, mint) in after.held
  {
    if nonce.Some? && nonce.value != "" {
      MintOfHeld(l.held, nonce.value);
      var all := l.held + [Entry(nonce.value, |l.mints|)];
      assert Trimmed(all)[|Trimmed(all)| - 1] == Entry(nonce.value, |l.mints|);
    }
  }

  // ---------------------------------------------------------------- invariants of every run

  /** Order and uniqueness of the held entries. */
  predicate Ordered(held: seq<Entry>) {
    forall i, j :: 0 <= i < j < |held| ==> held[i].mint < held[j].mint && held[i].nonce != held[j].nonce
  }

  predicate Minted(e: Entry, mints: seq<Option<string>>) { 0 <= e.mint < |mints| && mints[e.mint] == Some(e.nonce) }

  predicate AllMinted(held: seq<Entry>, mints: seq<Option<string>>) { forall e :: e in held ==> Minted(e, mints) }

  predicate Ok(l: Ledger) { |l.held| <= CAP && AllMinted(l.held, l.mints) && Ordered(l.held) }

  lemma {:induction false} WithoutKeeps(held: seq<Entry>, nonce: string)
    ensures |Without(held, nonce)| <= |held|
    ensures forall e :: e in Without(held, nonce) <==> e in held && e.nonce != nonce
  {
    if held != [] {
      WithoutKeeps(held[1..], nonce);
    }
  }

  lemma {:induction false} MintOfHeld(held: seq<Entry>, nonce: string)
    ensures MintOf(held, nonce).Some? <==> Holds(held, nonce)
    ensures MintOf(held, nonce).Some? ==> Entry(nonce, MintOf(held, nonce).value) in held
  {
    if held != [] {
      MintOfHeld(held[1..], nonce);
      if held[0].nonce == nonce {
        assert held[0] == Entry(nonce, held[0].mint);
      }
      if Holds(held, nonce) && held[0].nonce != nonce {
        var i :| 0 <= i < |held| && held[i].nonce == nonce;
        assert held[1..][i - 1].nonce == nonce;
      }
    }
  }

  lemma {:induction false} WithoutStaysOrdered(held: seq<Entry>, nonce: string)
    requires Ordered(held)
    ensures Ordered(Without(held, nonce))
  {
    if held != [] {
      WithoutStaysOrdered(held[1..], nonce);
      WithoutKeeps(held[1..], nonce);
      var rest := Without(held[1..], nonce);
      forall j | 0 <= j < |rest|
        ensures held[0].mint < rest[j].mint && held[0].nonce != rest[j].nonce
      {
        assert rest[j] in held[1..];
      }
    }
  }

  /** Appending the entry of a new mint for a nonce not held. */
  lemma AppendingKeeps(held: seq<Entry>, mints: seq<Option<string>>, nonce: string)
    requires AllMinted(held, mints) && Ordered(held) && !Holds(held, nonce)
    ensures var all := held + [Entry(nonce, |mints|)]; AllMinted(all, mints + [Some(nonce)]) && Ordered(all)
  {
    var all := held + [Entry(nonce, |mints|)];
    forall e | e in all
      ensures Minted(e, mints + [Some(nonce)])
    {
    }
    forall i, j | 0 <= i < j < |all|
      ensures all[i].mint < all[j].mint && all[i].nonce != all[j].nonce
    {
      if j == |held| {
        assert held[i] in held && Minted(held[i], mints);
      }
    }
  }

  lemma TrimmingKeeps(all: seq<Entry>, mints: seq<Option<string>>)
    requires AllMinted(all, mints) && Ordered(all)
    ensures AllMinted(Trimmed(all), mints) && Ordered(Trimmed(all)) && |Trimmed(all)| <= CAP
  {
  }

  lemma StepKeepsOk(l: Ledger, e: Event)
    requires Ok(l)
    ensures Ok(Step(l, e))
  {
    hide Ordered, Holds, MintOf, Without, Trimmed, Minted;
    if e.Create? {
      if e.nonce.Some? && e.nonce.value != "" {
        MintOfHeld(l.held, e.nonce.value);
        if MintOf(l.held, e.nonce.value).None? {
          AppendingKeeps(l.held, l.mints, e.nonce.value);
          TrimmingKeeps(l.held + [Entry(e.nonce.value, |l.mints|)], l.mints + [e.nonce]);
        }
      } else {
        MoreMintsKeep(l.held, l.mints, None);
      }
    } else if 0 <= e.mint < |l.mints| && l.mints[e.mint].Some? {
      WithoutKeeps(l.held, l.mints[e.mint].value);
      WithoutStaysOrdered(l.held, l.mints[e.mint].value);
    }
  }

  lemma MoreMintsKeep(held: seq<Entry>, mints: seq<Option<string>>, more: Option<string>)
    requires AllMinted(held, mints)
    ensures AllMinted(held, mints + [more])
  {
  }

  /** After every call at most 64 nonces are held, each standing for a mint of its own. */
  lemma {:induction false} LedgerIsBounded(es: seq<Event>)
    ensures Ok(Run(es))
    decreases |es|
  {
    if es != [] {
      LedgerIsBounded(es[..|es| - 1]);
      StepKeepsOk(Run(es[..|es| - 1]), es[|es| - 1]);
    }
  }

  /** A call with a held nonce starts no mint and answers with the mint held for it. */
  lemma HeldNonceShares(es: seq<Event>, nonce: string)
    requires nonce != "" && Holds(Run(es).held, nonce)
    ensures var (l, mint) := CreateCall(Run(es), Some(nonce));
            l == Run(es) && 0 <= mint < |l.mints| && l.mints[mint] == Some(nonce)
  {
    LedgerIsBounded(es);
    MintOfHeld(Run(es).held, nonce);
  }

  // ---------------------------------------------------------------- when a nonce is minted again

  /** The nonces of some mints. */
  function Inserted(mints: seq<Option<string>>): set<string> {
    if mints == [] then {}
    else
      var last := mints[|mints| - 1];
      Inserted(mints[..|mints| - 1]) + if last.Some? then {last.value} else {}
  }

  /** The nonces inserted after the mint at position m, apart from its own. */
  function OthersSince(mints: seq<Option<string>>, m: int, nonce: string): set<string>
    requires 0 <= m < |mints|
  {
    Inserted(mints[m + 1..]) - {nonce}
  }

  lemma OneMoreMint(mints: seq<Option<string>>, more: Option<string>, m: int, nonce: string)
    requires 0 <= m < |mints|
    ensures OthersSince(mints, m, nonce) <= OthersSince(mints + [more], m, nonce)
    ensures |OthersSince(mints, m, nonce)| <= |OthersSince(mints + [more], m, nonce)|
  {
    var later := (mints + [more])[m + 1..];
    assert later[..|later| - 1] == mints[m + 1..];
    SubsetSize(OthersSince(mints, m, nonce), OthersSince(mints + [more], m, nonce));
  }

  lemma {:induction false} MintIsInserted(mints: seq<Option<string>>, k: int)
    requires 0 <= k < |mints| && mints[k].Some?
    ensures mints[k].value in Inserted(mints)
  {
    if k < |mints| - 1 {
      MintIsInserted(mints[..|mints| - 1], k);
    }
  }

  function Nonces(held: seq<Entry>): set<string> { if held == [] then {} else {held[0].nonce} + Nonces(held[1..]) }

  lemma {:induction false} NoncesAre(held: seq<Entry>)
    ensures forall x :: x in Nonces(held) <==> exists e :: e in held && e.nonce == x
  {
    if held != [] {
      NoncesAre(held[1..]);
      forall x
        ensures x in Nonces(held) <==> exists e :: e in held && e.nonce == x
      {
        assert x in Nonces(held) <==> x == held[0].nonce || x in Nonces(held[1..]);
        assert held == [held[0]] + held[1..];
        if e :| e in held && e.nonce == x {
          assert e == held[0] || e in held[1..];
        }
      }
    }
  }

  lemma {:induction false} NoncesAreDistinct(held: seq<Entry>)
    requires Ordered(held)
    ensures |Nonces(held)| == |held|
    ensures forall x :: x in Nonces(held) ==> exists e :: e in held && e.nonce == x
  {
    NoncesAre(held);
    if held != [] {
      NoncesAreDistinct(held[1..]);
      NoncesAre(held[1..]);
      assert held[0].nonce !in Nonces(held[1..]);
    }
  }

  /** Entries held after the one minted at m name that many other nonces inserted since. */
  lemma LaterEntriesWereInserted(mints: seq<Option<string>>, later: seq<Entry>, m: int, nonce: string)
    requires 0 <= m < |mints| && AllMinted(later, mints) && Ordered(later)
    requires forall e :: e in later ==> m < e.mint && e.nonce != nonce
    ensures |OthersSince(mints, m, nonce)| >= |later|
  {
    hide Ordered, Nonces, Inserted;
    NoncesAreDistinct(later);
    forall x | x in Nonces(later)
      ensures x in OthersSince(mints, m, nonce)
    {
      var e :| e in later && e.nonce == x;
      assert Minted(e, mints) && mints[m + 1..][e.mint - m - 1] == Some(x);
      MintIsInserted(mints[m + 1..], e.mint - m - 1);
    }
    SubsetSize(Nonces(later), OthersSince(mints, m, nonce));
  }

  /** What is known of a nonce minted at position m while no mint of it fails: it is held, or 64 others came after it. */
  predicate HeldOrOvertaken(l: Ledger, nonce: string, m: int) {
    && 0 <= m < |l.mints|
    && (Entry(nonce, m) in l.held || |OthersSince(l.mints, m, nonce)| >= CAP)
  }

  lemma EvictionNeedsCapOthers(all: seq<Entry>, mints: seq<Option<string>>, nonce: string, m: int)
    requires 0 <= m < |mints| && AllMinted(all, mints) && Ordered(all) && |all| <= CAP + 1
    requires Entry(nonce, m) in all && Entry(nonce, m) !in Trimmed(all)
    ensures |OthersSince(mints, m, nonce)| >= CAP
  {
    hide OthersSince, Minted;
    assert |all| == CAP + 1 && Trimmed(all) == all[1..];
    assert all == [all[0]] + all[1..];
    assert all[0] == Entry(nonce, m);
    LaterEntriesWereInserted(mints, all[1..], m, nonce);
  }

  lemma CreateKeepsHeldOrOvertaken(l: Ledger, inserted: string, nonce: string, m: int)
    requires Ok(l) && HeldOrOvertaken(l, nonce, m) && !Holds(l.held, inserted)
    ensures HeldOrOvertaken(
              Ledger(Trimmed(l.held + [Entry(inserted, |l.mints|)]), l.mints + [Some(inserted)]), nonce, m)
  {
    hide OthersSince, Minted, Ordered, Holds, Trimmed;
    OneMoreMint(l.mints, Some(inserted), m, nonce);
    var all := l.held + [Entry(inserted, |l.mints|)];
    AppendingKeeps(l.held, l.mints, inserted);
    if Entry(nonce, m) in l.held && Entry(nonce, m) !in Trimmed(all) {
      assert Entry(nonce, m) in all;
      EvictionNeedsCapOthers(all, l.mints + [Some(inserted)], nonce, m);
    }
  }

  lemma StepKeepsHeldOrOvertaken(l: Ledger, e: Event, nonce: string, m: int)
    requires Ok(l) && HeldOrOvertaken(l, nonce, m)
    requires e.Failed? && 0 <= e.mint < |l.mints| ==> l.mints[e.mint] != Some(nonce)
    ensures HeldOrOvertaken(Step(l, e), nonce, m)
  {
    hide OthersSince, Minted, Ordered, Holds, Trimmed, MintOf, Without;
    if e.Create? {
      if e.nonce.None? || e.nonce.value == "" {
        OneMoreMint(l.mints, None, m, nonce);
      } else {
        MintOfHeld(l.held, e.nonce.value);
        if MintOf(l.held, e.nonce.value).None? {
          CreateKeepsHeldOrOvertaken(l, e.nonce.value, nonce, m);
        }
      }
    } else if 0 <= e.mint < |l.mints| && l.mints[e.mint].Some? {
      WithoutKeeps(l.held, l.mints[e.mint].value);
    }
  }

  predicate NoFailureOf(es: seq<Event>, from: int, to: int, nonce: string)
    requires 0 <= from <= to <= |es|
  {
    forall k :: from <= k < to && es[k].Failed? && 0 <= es[k].mint < |Run(es[..k]).mints|
      ==> Run(es[..k]).mints[es[k].mint] != Some(nonce)
  }

  /** A nonce minted by event i stays held or is overtaken while no mint of it fails. */
  lemma {:induction false} MintedStaysHeldOrOvertaken(es: seq<Event>, i: int, j: int, nonce: string)
    requires 0 <= i < j <= |es| && nonce != ""
    requires |Run(es[..i + 1]).mints| > |Run(es[..i]).mints| && es[i] == Create(Some(nonce))
    requires NoFailureOf(es, i + 1, j, nonce)
    ensures HeldOrOvertaken(Run(es[..j]), nonce, |Run(es[..i]).mints|)
    decreases j
  {
    hide OthersSince, Ok, Trimmed, HeldOrOvertaken, Step;
    RunOfPrefix(es, j - 1);
    if j == i + 1 {
      FreshMintIsHeld(Run(es[..i]), nonce);
    } else {
      MintedStaysHeldOrOvertaken(es, i, j - 1, nonce);
      LedgerIsBounded(es[..j - 1]);
      StepKeepsHeldOrOvertaken(Run(es[..j - 1]), es[j - 1], nonce, |Run(es[..i]).mints|);
    }
  }

  lemma RunOfPrefix(es: seq<Event>, k: int)
    requires 0 <= k < |es|
    ensures Run(es[..k + 1]) == Step(Run(es[..k]), es[k])
  {
    assert es[..k + 1][..k] == es[..k];
  }

  lemma FreshMintIsHeld(l: Ledger, nonce: string)
    requires nonce != "" && |Step(l, Create(Some(nonce))).mints| > |l.mints|
    ensures HeldOrOvertaken(Step(l, Create(Some(nonce))), nonce, |l.mints|)
  {
    hide OthersSince, MintOf;
    var all := l.held + [Entry(nonce, |l.mints|)];
    assert Trimmed(all)[|Trimmed(all)| - 1] == Entry(nonce, |l.mints|);
  }

  /**
    When events i and j both mint a nonce, and no mint of that nonce fails in between, at least 64 other nonces were
    inserted in between.
   */
  lemma RemintedOnlyAfterCapOthers(es: seq<Event>, i: int, j: int, nonce: string)
    requires 0 <= i < j < |es| && nonce != ""
    requires es[i] == es[j] == Create(Some(nonce))
    requires |Run(es[..i + 1]).mints| > |Run(es[..i]).mints| && |Run(es[..j + 1]).mints| > |Run(es[..j]).mints|
    requires NoFailureOf(es, i + 1, j, nonce)
    ensures var mints, m := Run(es[..j]).mints, |Run(es[..i]).mints|;
            m < |mints| && |OthersSince(mints, m, nonce)| >= CAP
  {
    hide OthersSince, Run, Trimmed, NoFailureOf, MintOf;
    MintedStaysHeldOrOvertaken(es, i, j, nonce);
    RunOfPrefix(es, j);
    MintOfHeld(Run(es[..j]).held, nonce);
  }

  // ---------------------------------------------------------------- exactly when a nonce is still held

  /** Mint m of a nonce is the last one of it and not overtaken. */
  predicate LastOf(mints: seq<Option<string>>, m: int, nonce: string) {
    && 0 <= m < |mints| && (forall q :: m < q < |mints| ==> mints[q] != Some(nonce))
    && |OthersSince(mints, m, nonce)| < CAP
  }

  lemma {:induction false} MintsGrow(es: seq<Event>, a: int, b: int)
    requires 0 <= a <= b <= |es|
    ensures Run(es[..a]).mints <= Run(es[..b]).mints
    decreases b
  {
    hide Run;
    if a < b {
      MintsGrow(es, a, b - 1);
      RunOfPrefix(es, b - 1);
    }
  }

  lemma StepKeepsForgotten(l: Ledger, e: Event, nonce: string)
    requires !Holds(l.held, nonce)
    requires |Step(l, e).mints| > |l.mints| ==> Step(l, e).mints[|l.mints|] != Some(nonce)
    ensures !Holds(Step(l, e).held, nonce)
  {
    if e.Create? {
      if e.nonce.Some? && e.nonce.value != "" {
        MintOfHeld(l.held, e.nonce.value);
      }
    } else if 0 <= e.mint < |l.mints| && l.mints[e.mint].Some? {
      WithoutKeeps(l.held, l.mints[e.mint].value);
      assert forall i :: 0 <= i < |Step(l, e).held| ==> Step(l, e).held[i] in l.held;
    }
  }

  lemma {:induction false} ForgottenStays(es: seq<Event>, k: int, j: int, nonce: string)
    requires 0 <= k <= j <= |es| && !Holds(Run(es[..k]).held, nonce)
    requires forall q :: |Run(es[..k]).mints| <= q < |Run(es[..j]).mints| ==> Run(es[..j]).mints[q] != Some(nonce)
    ensures !Holds(Run(es[..j]).held, nonce)
    decreases j
  {
    hide Run, Step, Holds;
    if k < j {
      MintsGrow(es, k, j - 1);
      MintsGrow(es, j - 1, j);
      RunOfPrefix(es, j - 1);
      ForgottenStays(es, k, j - 1, nonce);
      StepKeepsForgotten(Run(es[..j - 1]), es[j - 1], nonce);
    }
  }

  lemma FailureForgets(l: Ledger, mint: int, nonce: string)
    requires 0 <= mint < |l.mints| && l.mints[mint] == Some(nonce)
    ensures !Holds(Step(l, Failed(mint)).held, nonce) && Step(l, Failed(mint)).mints == l.mints
  {
    WithoutKeeps(l.held, nonce);
  }

  /**
    After event i minted a nonce, and with fewer than 64 other nonces and no further mint of it since, the nonce is held
    exactly when no mint of it failed meanwhile; so exactly then the next call with it shares the mint.
   */
  lemma HeldIffNoFailure(es: seq<Event>, i: int, j: int, nonce: string)
    requires 0 <= i < j <= |es| && nonce != "" && es[i] == Create(Some(nonce))
    requires |Run(es[..i + 1]).mints| > |Run(es[..i]).mints|
    requires LastOf(Run(es[..j]).mints, |Run(es[..i]).mints|, nonce)
    ensures Holds(Run(es[..j]).held, nonce) <==> NoFailureOf(es, i + 1, j, nonce)
    ensures |CreateCall(Run(es[..j]), Some(nonce)).0.mints| == |Run(es[..j]).mints| <==> NoFailureOf(es, i + 1, j, nonce)
  {
    hide OthersSince, Run, Trimmed, MintOf, Step, Holds;
    var m := |Run(es[..i]).mints|;
    if NoFailureOf(es, i + 1, j, nonce) {
      MintedStaysHeldOrOvertaken(es, i, j, nonce);
      HeldEntryHolds(Run(es[..j]).held, Entry(nonce, m));
    } else {
      var k :| i + 1 <= k < j && es[k].Failed? && 0 <= es[k].mint < |Run(es[..k]).mints|
               && Run(es[..k]).mints[es[k].mint] == Some(nonce);
      FailureForgets(Run(es[..k]), es[k].mint, nonce);
      RunOfPrefix(es, k);
      MintsGrow(es, i + 1, k);
      MintsGrow(es, k, j);
      ForgottenStays(es, k + 1, j, nonce);
    }
    MintOfHeld(Run(es[..j]).held, nonce);
  }

  lemma HeldEntryHolds(held: seq<Entry>, e: Entry)
    requires e in held
    ensures Holds(held, e.nonce)
  {
  }

  /**
    The exclusion of failures is needed: when an evicted mint of a nonce fails after the nonce was minted again, the
    entry of the newer mint is deleted, and the next call mints a third time with nothing inserted in between.
   */
  lemma StaleFailureForgetsNewerMint(l: Ledger, nonce: string, stale: int, newer: int)
    requires Ok(l) && nonce != "" && 0 <= stale < newer && Entry(nonce, newer) in l.held && l.mints[stale] == Some(nonce)
    ensures var after := Step(l, Failed(stale));
            && !Holds(after.held, nonce) && after.mints == l.mints
            && CreateCall(after, Some(nonce)).1 == |l.mints| && |CreateCall(after, Some(nonce)).0.mints| == |l.mints| + 1
  {
    WithoutKeeps(l.held, nonce);
    MintOfHeld(Without(l.held, nonce), nonce);
  }

  const N := "n"

  function Name(k: nat): string { seq(k + 1, _ => 'x') }

  function Other(k: nat): Event { Create(Some(Name(k))) }

  function OtherEntries(n: nat): seq<Entry> { seq(n, k requires 0 <= k < n => Entry(Name(k), k + 1)) }

  /** A nonce, then n others. */
  function Filling(n: nat): seq<Event> { [Create(Some(N))] + seq(n, k requires 0 <= k < n => Other(k)) }

  lemma OthersAreNew(held: seq<Entry>, n: nat)
    requires held == OtherEntries(n) || held == [Entry(N, 0)] + OtherEntries(n)
    ensures !Holds(held, Name(n)) && MintOf(held, Name(n)).None?
    ensures held == OtherEntries(n) ==> !Holds(held, N)
  {
    MintOfHeld(held, Name(n));
    assert |N| == 1 && |Name(n)| == n + 1 && N[0] == 'n';
    forall i | 0 <= i < |held|
      ensures held[i].nonce != Name(n) && (held == OtherEntries(n) ==> held[i].nonce != N)
    {
      assert Name(n)[0] == 'x';
      if held == OtherEntries(n) {
        assert held[i].nonce == Name(i) && |Name(i)| == i + 1 && Name(i)[0] == 'x';
      } else if i > 0 {
        assert held[i].nonce == Name(i - 1) && |Name(i - 1)| == i;
      }
    }
  }

  lemma FillsFirst()
    ensures Run(Filling(0)) == Step(Run([]), Create(Some(N)))
  {
    assert Filling(0) == [Create(Some(N))];
    assert Filling(0)[..0] == [];
  }

  /** What the ledger is after a nonce and n others. */
  predicate HoldsAll(l: Ledger, n: nat) {
    l.held == [Entry(N, 0)] + OtherEntries(n) && |l.mints| == n + 1 && l.mints[0] == Some(N)
  }

  lemma OtherEntriesGrow(n: nat)
    ensures OtherEntries(n + 1) == OtherEntries(n) + [Entry(Name(n), n + 1)] && |OtherEntries(n)| == n
    ensures OtherEntries(0) == []
  {
  }

  lemma FillStep(l: Ledger, n: nat)
    requires HoldsAll(l, n) && n + 1 < CAP
    ensures HoldsAll(Step(l, Other(n)), n + 1)
  {
    OthersAreNew(l.held, n);
    OtherEntriesGrow(n);
    assert |Name(n)| == n + 1;
    hide MintOf, OtherEntries, Name, Holds;
  }

  lemma {:induction false} Filled(n: nat)
    requires n < CAP
    ensures HoldsAll(Run(Filling(n)), n)
  {
    hide HoldsAll, Filling, Run, Step;
    if n == 0 {
      FillsFirst();
      FirstIsHeld();
    } else {
      Filled(n - 1);
      FillsOneMore(n - 1);
      FillStep(Run(Filling(n - 1)), n - 1);
    }
  }

  lemma FirstIsHeld()
    ensures HoldsAll(Step(Run([]), Create(Some(N))), 0)
  {
    OtherEntriesGrow(0);
    assert |N| == 1 && MintOf([], N).None?;
  }

  lemma FillsOneMore(n: nat)
    ensures Run(Filling(n + 1)) == Step(Run(Filling(n)), Other(n))
  {
    var more := Filling(n + 1);
    assert more[..|more| - 1] == Filling(n);
  }

  /** The 64th other nonce evicts the first one. */
  lemma Overflows()
    ensures var l := Run(Filling(CAP)); l.held == OtherEntries(CAP) && |l.mints| == CAP + 1 && l.mints[0] == Some(N)
  {
    Filled(CAP - 1);
    FillsOneMore(CAP - 1);
    OthersAreNew(Run(Filling(CAP - 1)).held, CAP - 1);
    var all := [Entry(N, 0)] + OtherEntries(CAP - 1) + [Entry(Name(CAP - 1), CAP)];
    assert all[1..] == OtherEntries(CAP);
  }

  function StaleRun(): seq<Event> { Filling(CAP) + [Create(Some(N)), Failed(0), Create(Some(N))] }

  /**
    A run in which this happens: a nonce is minted, 64 others, the nonce again; then its first mint fails, and the next
    call with it mints a third time although nothing was inserted in between.
   */
  lemma StaleFailureIsReachable()
    ensures var es := StaleRun();
            && |es| == CAP + 4 && es[CAP + 1] == es[CAP + 3] == Create(Some(N))
            && |Run(es[..CAP + 2]).mints| == |Run(es[..CAP + 1]).mints| + 1
            && Run(es[..CAP + 3]).mints == Run(es[..CAP + 2]).mints
            && |Run(es).mints| == |Run(es[..CAP + 3]).mints| + 1
  {
    hide Run, Step, Filling, OtherEntries, Ok;
    Overflows();
    FillingLength(CAP);
    var es := StaleRun();
    assert es[..CAP + 1] == Filling(CAP) && es[..|es|] == es;
    RunOfPrefix(es, CAP + 1);
    RunOfPrefix(es, CAP + 2);
    RunOfPrefix(es, CAP + 3);
    OthersAreNew(Run(es[..CAP + 1]).held, CAP);
    MintsAgain(Run(es[..CAP + 1]));
    LedgerIsBounded(es[..CAP + 2]);
    StaleFailureForgetsNewerMint(Run(es[..CAP + 2]), N, 0, CAP + 1);
    CreateIsStep(Run(es[..CAP + 3]), N);
  }

  lemma FillingLength(n: nat)
    ensures |Filling(n)| == n + 1
  {
  }

  lemma CreateIsStep(l: Ledger, nonce: string)
    ensures Step(l, Create(Some(nonce))) == CreateCall(l, Some(nonce)).0
  {
  }

  lemma MintsAgain(l: Ledger)
    requires !Holds(l.held, N)
    ensures var after := Step(l, Create(Some(N)));
            Entry(N, |l.mints|) in after.held && after.mints == l.mints + [Some(N)]
  {
    MintOfHeld(l.held, N);
    CreateHolds(l, Some(N));
    assert |N| == 1;
  }

  // ---------------------------------------------------------------- which calls mint

  /** A call starts a mint exactly when it brings no nonce, an empty one, or one that is not held; and gets that mint. */
  lemma MintsIff(l: Ledger, nonce: Option<string>)
    ensures var (after, mint) := CreateCall(l, nonce);
            && (|after.mints| > |l.mints| <==> nonce.None? || nonce.value == "" || !Holds(l.held, nonce.value))
            && (|after.mints| > |l.mints| ==> mint == |l.mints| && |after.mints| == |l.mints| + 1)
            && (nonce.None? || nonce.value == "" ==> after.held == l.held)
  {
    if nonce.Some? {
      MintOfHeld(l.held, nonce.value);
    }
  }
}
