/** The encrypted connection file: what is written, what reading it gives back, and the order of writes. */
module SecureStore {
  import opened Option

  datatype Result<+T> = Ok(value: T) | Err(error: StoreError)
  datatype StoreError = KeychainUnavailable | DeviceKeyRequired | InvalidKey | InvalidOrigin

  /** What the manager saves; the status of a profile is not stored. */
  datatype StoredConnection = StoredConnection(
    id: string, nodeId: string, name: string, baseUrl: string, refreshToken: Option<string>, deviceKeyPem: Option<string>)

  datatype DiskEntry = DiskEntry(
    id: string, nodeId: string, name: string, baseUrl: string,
    encryptedDeviceKey: Option<string>, encryptedRefreshToken: Option<string>)

  /** The keychain codec, the key parser and the origin parser, which are not part of this model. */
  datatype Platform = Platform(
    available: bool, encrypt: string -> string, decrypt: string -> string,
    validKey: string -> bool, origin: string -> Option<string>)

  /** A field counts as present when it is a non-empty string. */
  predicate Truthy(o: Option<string>) { o.Some? && o.value != "" }

  function Kept(o: Option<string>): Option<string> { if Truthy(o) then o else None }

  function Encrypted(p: Platform, o: Option<string>): Option<string> {
    if Truthy(o) then Some(p.encrypt(o.value)) else None
  }

  function SaveEntry(p: Platform, c: StoredConnection): Result<DiskEntry> {
    if (Truthy(c.refreshToken) || Truthy(c.deviceKeyPem)) && !p.available then Err(KeychainUnavailable)
    else if Truthy(c.refreshToken) && !Truthy(c.deviceKeyPem) then Err(DeviceKeyRequired)
    else if Truthy(c.deviceKeyPem) && !p.validKey(c.deviceKeyPem.value) then Err(InvalidKey)
    else Ok(DiskEntry(c.id, c.nodeId, c.name, c.baseUrl, Encrypted(p, c.deviceKeyPem), Encrypted(p, c.refreshToken)))
  }

  function LoadEntry(p: Platform, e: DiskEntry): Result<StoredConnection> {
    match p.origin(e.baseUrl)
    case None => Err(InvalidOrigin)
    case Some(baseUrl) =>
      if !Truthy(e.encryptedDeviceKey) then Ok(StoredConnection(e.id, e.nodeId, e.name, baseUrl, None, None))
      else if !p.available then Err(KeychainUnavailable)
      else
        var key := p.decrypt(e.encryptedDeviceKey.value);
        if !p.validKey(key) then Err(InvalidKey)
        else
          Ok(StoredConnection(e.id, e.nodeId, e.name, baseUrl,
                              if Truthy(e.encryptedRefreshToken) then Some(p.decrypt(e.encryptedRefreshToken.value)) else None,
                              Some(key)))
  }

  /** The first entry that throws decides. */
  function SaveAll(p: Platform, cs: seq<StoredConnection>): Result<seq<DiskEntry>> {
    if cs == [] then Ok([])
    else
      match SaveEntry(p, cs[0])
      case Err(e) => Err(e)
      case Ok(head) =>
        match SaveAll(p, cs[1..])
        case Err(e) => Err(e)
        case Ok(rest) => Ok([head] + rest)
  }

  function LoadAll(p: Platform, es: seq<DiskEntry>): Result<seq<StoredConnection>> {
    if es == [] then Ok([])
    else
      match LoadEntry(p, es[0])
      case Err(e) => Err(e)
      case Ok(head) =>
        match LoadAll(p, es[1..])
        case Err(e) => Err(e)
        case Ok(rest) => Ok([head] + rest)
  }

  /** Decryption inverts encryption, and an encrypted secret is never empty. */
  ghost predicate Invertible(p: Platform) {
    forall s: string :: p.decrypt(p.encrypt(s)) == s && p.encrypt(s) != ""
  }

  predicate Canonical(p: Platform, c: StoredConnection) { p.origin(c.baseUrl) == Some(c.baseUrl) }

  /** Reading gives back the saved identity and its credentials, an empty string counting as no credential. */
  function Restored(c: StoredConnection): StoredConnection {
    c.(refreshToken := Kept(c.refreshToken), deviceKeyPem := Kept(c.deviceKeyPem))
  }

  function RestoredAll(cs: seq<StoredConnection>): seq<StoredConnection> {
    seq(|cs|, i requires 0 <= i < |cs| => Restored(cs[i]))
  }

  lemma {:induction false} LoadAfterSave(p: Platform, cs: seq<StoredConnection>)
    requires Invertible(p) && SaveAll(p, cs).Ok?
    requires forall i :: 0 <= i < |cs| ==> Canonical(p, cs[i])
    ensures LoadAll(p, SaveAll(p, cs).value) == Ok(RestoredAll(cs))
  {
    if cs != [] {
      LoadAfterSave(p, cs[1..]);
      var saved := SaveAll(p, cs).value;
      assert saved[1..] == SaveAll(p, cs[1..]).value;
      assert LoadEntry(p, saved[0]) == Ok(Restored(cs[0]));
      assert RestoredAll(cs) == [Restored(cs[0])] + RestoredAll(cs[1..]);
    } else {
      assert RestoredAll(cs) == [];
    }
  }

  predicate Savable(p: Platform, c: StoredConnection) {
    && (Truthy(c.refreshToken) || Truthy(c.deviceKeyPem) ==> p.available)
    && (Truthy(c.refreshToken) ==> Truthy(c.deviceKeyPem))
    && (Truthy(c.deviceKeyPem) ==> p.validKey(c.deviceKeyPem.value))
  }

  /** Saving throws exactly when some connection cannot be stored. */
  lemma {:induction false} SaveFailsIff(p: Platform, cs: seq<StoredConnection>)
    ensures SaveAll(p, cs).Ok? <==> forall i :: 0 <= i < |cs| ==> Savable(p, cs[i])
  {
    if cs != [] {
      SaveFailsIff(p, cs[1..]);
      assert forall i :: 1 <= i < |cs| ==> cs[i] == cs[1..][i - 1];
      assert (forall i :: 0 <= i < |cs| ==> Savable(p, cs[i]))
        <==> Savable(p, cs[0]) && (forall i :: 0 <= i < |cs[1..]| ==> Savable(p, cs[1..][i]));
    }
  }

  /** Whatever the file holds, a loaded refresh token comes with a device key. */
  lemma {:induction false} LoadedTokensAreBound(p: Platform, es: seq<DiskEntry>, i: int)
    requires LoadAll(p, es).Ok? && 0 <= i < |LoadAll(p, es).value|
    ensures var c := LoadAll(p, es).value[i]; c.refreshToken.Some? ==> c.deviceKeyPem.Some?
  {
    if i > 0 {
      LoadedTokensAreBound(p, es[1..], i - 1);
      assert LoadAll(p, es).value[1..] == LoadAll(p, es[1..]).value;
    }
  }

  // ---------------------------------------------------------------- the order of writes

  type Snapshot = seq<DiskEntry>
  datatype Ended = Ended(snapshot: Snapshot, ok: bool)

  /** What the file holds after some writes ended: the last one that succeeded. */
  function FileAfter(start: Option<Snapshot>, ended: seq<Ended>): Option<Snapshot>
    decreases |ended|
  {
    if ended == [] then start
    else if ended[|ended| - 1].ok then Some(ended[|ended| - 1].snapshot)
    else FileAfter(start, ended[..|ended| - 1])
  }

  function Snapshots(ended: seq<Ended>): seq<Snapshot> {
    seq(|ended|, i requires 0 <= i < |ended| => ended[i].snapshot)
  }

  /** save() chains each write to the one before it (`tail`), whether or not that one fails. */
  class ConnectionStore {
    const p: Platform
    var file: Option<Snapshot>
    var tail: seq<Snapshot>
    ghost var start: Option<Snapshot>
    ghost var called: seq<Snapshot>
    ghost var ended: seq<Ended>

    /** Writes end in call order, and the file is the newest snapshot whose write succeeded. */
    ghost predicate Valid()
      reads this
    {
      Snapshots(ended) + tail == called && file == FileAfter(start, ended)
    }

    constructor (p: Platform, file: Option<Snapshot>)
      ensures Valid() && called == [] && this.file == file && this.p == p
    {
      this.p, this.file, tail := p, file, [];
      start, called, ended := file, [], [];
    }

    method Save(connections: seq<StoredConnection>) returns (thrown: Option<StoreError>)
      requires Valid()
      modifies this
      ensures Valid() && file == old(file) && ended == old(ended)
      ensures match SaveAll(p, connections)
              case Ok(snapshot) => thrown == None && called == old(called) + [snapshot]
              case Err(e) => thrown == Some(e) && called == old(called) && tail == old(tail)
    {
      match SaveAll(p, connections)
      case Err(e) => thrown := Some(e);
      case Ok(snapshot) =>
        thrown := None;
        tail := tail + [snapshot];
        called := called + [snapshot];
    }

    /** The write at the head of the chain ends: written and renamed into place, or failed. */
    method WriteEnds(ok: bool)
      requires Valid() && tail != []
      modifies this
      ensures Valid() && called == old(called) && tail == old(tail)[1..]
      ensures ended == old(ended) + [Ended(old(tail)[0], ok)]
    {
      ghost var e := Ended(tail[0], ok);
      if ok {
        file := Some(tail[0]);
      }
      ended := ended + [e];
      tail := tail[1..];
      hide Snapshots, FileAfter;
      OneMoreEnded(start, old(ended), e);
      assert old(tail) == [e.snapshot] + tail;
    }
  }

  /** A write that ended is the last one, and decides about the file if it succeeded. */
  lemma OneMoreEnded(start: Option<Snapshot>, ended: seq<Ended>, e: Ended)
    ensures Snapshots(ended + [e]) == Snapshots(ended) + [e.snapshot]
    ensures FileAfter(start, ended + [e]) == if e.ok then Some(e.snapshot) else FileAfter(start, ended)
  {
    assert (ended + [e])[..|ended|] == ended;
  }

  /** With nothing left to write, the file is the last saved snapshot whenever its write succeeded. */
  lemma IdleFileIsLastSave(store: ConnectionStore)
    requires store.Valid() && store.tail == [] && store.ended != [] && store.ended[|store.ended| - 1].ok
    ensures store.file == Some(store.called[|store.called| - 1])
  {
    assert store.called == Snapshots(store.ended);
  }

  /** The file is the snapshot of the last write that succeeded, or what it was when none did. */
  lemma {:induction false} FileIsLastSuccess(start: Option<Snapshot>, ended: seq<Ended>) returns (i: int)
    ensures -1 <= i < |ended| && (i >= 0 ==> ended[i].ok) && forall j :: i < j < |ended| ==> !ended[j].ok
    ensures FileAfter(start, ended) == if i < 0 then start else Some(ended[i].snapshot)
    decreases |ended|
  {
    i := |ended| - 1;
    if ended != [] && !ended[|ended| - 1].ok {
      i := FileIsLastSuccess(start, ended[..|ended| - 1]);
      assert forall j :: 0 <= j < |ended| - 1 ==> ended[..|ended| - 1][j] == ended[j];
    }
  }
}
