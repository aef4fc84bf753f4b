# BeeBot desktop client: verified state machines

This project models the parts of the BeeBot desktop client whose correctness depends on order, on interleaving or on
arithmetic, and proves what they promise. `dafny verify dfyconfig.toml` checks everything.

* **Server connections.** `ConnectionModel` cuts every asynchronous function of the connection manager at its waits
  for the network, the encrypted store, a timer or another activation. Each activation is a task at a program point
  with the locals it captured; a run is any sequence of events. `ConnectionInvariants` holds the invariant of every
  reachable state, `ConnectionTheorems` the protocol's guarantees. `ConnectionEffects` says of each field which events
  change it and to what, `ConnectionActivations` by which rules an activation moves, fails, succeeds and goes on,
  `ConnectionProgress` that nothing waits for nothing, `ConnectionStarts` what an event starts, `ConnectionTraces`
  what lies behind a state in its run. `ConnectionDurability` says when in-memory credentials are the stored ones,
  `ConnectionPlainRuns` what in a run keeps them so; `ConnectionCounterexamples` holds three runs in which what one
  would expect fails. `NodeConnectionManager` is the object itself, with its fields and methods, proved step by step
  against the model. `SecureStore` is the encrypted file, `DpopTransport` the signed request (sections 8 and 9 of RFC
  9449) and the browser callback (section 7.3 of RFC 8252, section 2 of RFC 9207).
* **Server preflight.** `ServerPreflight` is the challenge, inspection and identity protocol over every interleaving,
  `PreflightTraces` what each of its events changes and where the identity in force comes from, `HostReport` the
  strict parser of the probe's report, `InstallPlan` the choice of a release and the plan.
* **Remote chat.** `NodeChat` is the controller of remote conversations: selection, refresh, commands under
  idempotency keys, drafts. `ChatTraces` says what each event changes and which snapshot a command rests on.
* **Algorithms.** `UiLanguage` (lazy pattern matching and formatting), `VncLiveness` (sliding-window detector),
  `WindowPlacement`, `WindowStateStore` (coalescing writer), `ShellStream` (streamed shell output),
  `ConversationLibrary` (capped projection), `AgentLedger` (create-agent nonces).
* **Helpers.** `Option`, `Collections` and `Strings`.

Code that changes fields step by step is a class here; its methods are proved equal to functions on values, the
promises are lemmas about runs of those functions, and the methods called from outside keep a `Valid()` that is the
invariant of those runs. Pure code is functions and lemmas, loops are methods with invariants.

Assumed of the outside: fresh UUIDs, tokens and keys have not been seen before; decryption inverts encryption; a
rename replaces the file at once; a clock passed to the liveness detector never goes back. Replies, failures and
times are parameters of events. Synchronous promise hops are steps of their own, except that a write's completion
and the continuation of the call that owns the write are one step.

Five claims that look natural are false of the code. Each has a run or an input that breaks it, or an exact condition,
and mostly both:

* A clean connection need not be durable, even if no token is ever repeated: `FailedRemovalLosesTheRecord` and
  `RecurrenceLeavesAStaleToken` are such runs. `DurableThroughoutIff` is exact: a run is durable at every moment iff
  no event loses the record of a clean connection (`Loses`) and none leaves a token of a signed-out one behind
  (`Recurs`); both look at the file and the queue before the event. Harmless failed removals are allowed.
  `ConnectionPlainRuns` says the same of what happens in the run: no clear, set, clear of the token inside one pending
  save (`PlainRunIsDurable`), and which failed removals leave the connection out of the file (`ListedThroughoutIff`).
* A logout that ends well need not leave the connection without tokens: in the run of `LogoutLosesToARefresh` a
  request made while the logout revokes starts a refresh, whose tokens are stored, and saved, after the logout has
  cleared the old ones. `LogoutLeavesNothingIff` is exact: neither token is left iff every exchange that succeeded
  since the clearing was followed by the end of another session. `EndedStaysEnded` names what to look at when the
  tokens are cleared: with no refresh of that generation and no sign-in under way they stay away until a new sign-in
  begins.
* The draft on the screen need not be the stored one: `DraftStaysShownIff` names the only event that parts them, the
  delivery of a message from a conversation of the same scope that was left and opened again meanwhile.
* Formatting a pattern with what was captured need not give the input back when a slot is repeated
  (`RepeatedSlotLosesText`). `FormatIffAgree` is exact for patterns in which one slot occurs twice and every other
  once: it does iff the two captures agree. `DeterminedFormatIffAgree` says the same of any pattern whose formatted text
  determines its arguments. Beyond both, captures that disagree can still format to the input
  (`DisagreeingCapturesMayFit`).
* A nonce can be minted again with nothing inserted in between (`StaleFailureIsReachable`). `HeldIffNoFailure` is
  exact: with fewer than 64 other nonces and no further mint of it since, a nonce is still held iff no mint of it failed.

## Model

| member | source | states |
|---|---|---|
| `ConnectionInvariants.RunKeeps` | source/client-connections/manager.ts:80-430 | every step of every activation, in any order and with any failure, keeps the protocol's invariant |
| `ConnectionTheorems.OneOfEachInFlight` | source/client-connections/manager.ts:193-278 | across all generations at most one event-connection attempt, one refresh exchange, one snapshot request and one own credential save are in flight |
| `ConnectionTheorems.ConnectAdoptsOwnGeneration` | source/client-connections/manager.ts:263-278 | a connect takes only the completion of an attempt of its own generation as its own, and drains only an older one |
| `ConnectionTheorems.OneLiveLogin` | source/client-connections/manager.ts:153-184 | a sign-in under way is not aborted iff it is the current one, so at most one is live, and it is of the current generation |
| `ConnectionTheorems.SocketAndTimerAreCurrent` | source/client-connections/manager.ts:280-341 | the socket in use and the reconnect timer always belong to the current generation |
| `ConnectionTheorems.EveryStepIsGuarded` | source/client-connections/manager.ts:153-341 | in every reachable state tokens are stored only by an exchange of the current generation, a socket is opened only by a ticket reply of the current generation in an open manager without one, only the socket in use goes online, a closed manager sets no timer and starts no login, a device key never changes |
| `ConnectionTheorems.StepIsGuarded` | source/client-connections/manager.ts:153-430 | the same for one step from any state that meets the invariant |
| `ConnectionTheorems.AfterClose` | source/client-connections/manager.ts:423-430 | after close no socket, timer or login exists in any later state |
| `ConnectionTheorems.CloseShuts` | source/client-connections/manager.ts:423-430 | close leaves a held connection without socket, timer and login |
| `ConnectionTheorems.KeyIsForever` | source/client-connections/manager.ts:163-166 | a device key once set is the connection's key and the key of its signer, for its own origin, in every later state |
| `ConnectionTheorems.TokensAreBound` | source/client-connections/manager.ts:65-75 | tokens in memory imply a device key, and the signer is always that of the connection's key and origin |
| `ConnectionEffects.StepEffects` | source/client-connections/manager.ts:80-430 | field by field, in every reachable state: key, signer, tokens, expiry, dirty flag, generation, login, socket, timer, status, stage, retry count, membership and abort signals change exactly by the named causes - among them: a lost or failed connection signs out iff there is no refresh token or the failure is a 400, 401 or 403, and otherwise sets one timer - and every other event leaves them alone |
| `ConnectionActivations.ActivationGoes` | source/client-connections/manager.ts:80-422 | every activation moves exactly when its reply, or what it awaits, is there; it fails with the awaited failure, the reply failure, a lost session or what is missing, in that order, succeeds, or goes on to the next stretch of its function; it moves nobody else |
| `ConnectionActivations.WriteGoes` | source/client-connections/manager.ts:80-91 | a write that ends lets only its owner go on: a failed one fails it; saved credentials are done unless more are owed, and then saved again |
| `ConnectionProgress.NothingWaitsForNothing` | source/client-connections/manager.ts:80-422 | in every reachable state with an unfinished activation one is due: its reply is awaited, the outcome it awaits is there, or its write is queued; then it really moves; and each taken single-flight slot has an owner that waits to give it back: no circle, no lost write, no slot taken for good |
| `ConnectionProgress.QueueMovesUp` | source/client-connections/secure-store.ts:38-45 | each write that ends, well or not, settles and moves the queued ones up by one |
| `ConnectionStarts.StepStarts` | source/client-connections/manager.ts:80-422 | an event starts activations only at the first stretch of their functions; a refresh only from ensureAccess with no living token, no refresh under way and a refresh token; nobody awaits a save that another one started |
| `ConnectionTraces.EnsureAccessIff` | source/client-connections/manager.ts:193-208 | after the pending save ensureAccess is done iff the access token lives for more than 30 seconds; else it joins the refresh under way, starts exactly one of its generation, or without a refresh token ends with a 401 |
| `ConnectionTraces.UsedTokenIsAlive` | source/client-connections/manager.ts:185-197 | the token ensureAccess lets a request use was stored by an exchange of the run, not cleared or rejected since, and lives for more than 30 seconds by the lifetime that exchange gave it |
| `ConnectionTraces.AccessCameFrom` | source/client-connections/manager.ts:185-191 | an access token in memory, its expiry and the refresh token are those of the last exchange of the run |
| `ConnectionTraces.OneRefresh` | source/client-connections/manager.ts:198-208 | the refresh an activation has joined or started is the only one in flight, and its owner gives back the slot |
| `ConnectionTraces.SentAtMostTwice` | source/client-connections/manager.ts:221-235 | a request gets at most two replies; the first of two was the rejection of its access token in the same session, the second ends it |
| `ConnectionTraces.VerifiedFirst` | source/client-connections/manager.ts:149-288 | tokens are exchanged, snapshots and tickets fetched for an event connection, and the browser opened, only by an activation to which an event of the run confirmed the identity of the server in its own session |
| `ConnectionTraces.StoredFirst` | source/client-connections/manager.ts:77-91 | when the save an activation awaits has succeeded, there was a moment since that save began at which nothing was owed to the store: new credentials are not used before they are stored |
| `ConnectionTraces.LogoutLeavesNothingIff` | source/client-connections/manager.ts:402-409 | a logout that ends well has ended the session in an earlier event, and leaves neither token in memory iff every exchange that succeeded since was followed by the end of another session |
| `ConnectionTraces.EndedStaysEnded` | source/client-connections/manager.ts:402-409 | a session that ended with no refresh of its generation and no sign-in under way leaves no token in memory until a new sign-in begins |
| `ConnectionCounterexamples.LogoutLosesToARefresh` | source/client-connections/manager.ts:402-409 | a run with fresh tokens and no sign-in after which a logout has ended well and the connection, shown as signed out, has its tokens in memory and in the file |
| `ConnectionDurability.CleanMomentIsDurable` | source/client-connections/manager.ts:80-91 | the dirty flag falls only when a write succeeded whose snapshot was taken with the credentials in memory; the file then holds them iff the connection was in the map when the snapshot was taken |
| `ConnectionDurability.BecomingCleanIsDurableIff` | source/client-connections/manager.ts:80-91 | an event that makes the connection clean, or puts a clean one back after a failed removal, leaves it durable iff its record is in the file and every pending snapshot and, when it is signed out, none of them holds a token |
| `ConnectionDurability.NewlyCleanOnlyBy` | source/client-connections/manager.ts:80-91 | a clean connection newly appears in the map exactly when its own save found the values unchanged or a removal of a clean one failed |
| `ConnectionDurability.CleanRecordsFit` | source/client-connections/manager.ts:73-91 | in every run with fresh tokens, whatever fails, each stored or pending record of a clean connection is that of its credentials or holds a token the connection, now signed out, had before |
| `ConnectionDurability.CleanStays` | source/client-connections/manager.ts:73-91 | every event that does not newly make a clean connection keeps a clean one durable, removals and failures included |
| `ConnectionDurability.FreshlyCleanIsDurable` | source/client-connections/manager.ts:80-91 | with the connection in every pending snapshot, becoming clean is durable iff no pending snapshot or file of a signed-out connection holds a token |
| `ConnectionDurability.StepIsDurableIff` | source/client-connections/manager.ts:73-91 | one event keeps a durable state durable iff it neither loses nor recurs |
| `ConnectionDurability.DurableThroughoutIff` | source/client-connections/manager.ts:73-91 | a run with fresh tokens is durable at every moment iff none of its events loses or recurs |
| `ConnectionDurability.CleanIsDurable` | source/client-connections/manager.ts:73-91 | in such a run a clean connection in the manager has its key and refresh token in the file |
| `ConnectionDurability.RunKeepsLedger` | source/client-connections/secure-store.ts:29-46 | queued writes are snapshots of past credentials in the order those were current |
| `ConnectionDurability.SnapshotsAreStorable` | source/client-connections/secure-store.ts:32 | the manager never saves a refresh token without a device key, so the store's refusal is unreachable |
| `ConnectionPlainRuns.TidyStays` | source/client-connections/manager.ts:80-91 | a signed-out connection that owes nothing has no token in the file or a pending save, unless its token was cleared, set and cleared inside one pending save |
| `ConnectionPlainRuns.PlainRunIsDurable` | source/client-connections/manager.ts:73-91 | with fresh tokens, no clear, set, clear inside one pending save and no loss, a clean connection in the manager has its key and refresh token in the file |
| `ConnectionPlainRuns.ListedThroughoutIff` | source/client-connections/manager.ts:415-422 | a connection in the manager is at every moment in the pending snapshots and, once saved, in the file, iff no failed removal puts it back while it is missing from one of them |
| `ConnectionPlainRuns.CleanIsStored` | source/client-connections/manager.ts:73-91 | then a clean connection, with or without credentials, is in the file with exactly them |
| `ConnectionCounterexamples.FailedRemovalLosesTheRecord` | source/client-connections/manager.ts:415-422 | a run with fresh tokens after which a clean connection is in the manager and not in the file: a logout saves while a removal is pending whose own save then fails |
| `ConnectionCounterexamples.RecurrenceLeavesAStaleToken` | source/client-connections/manager.ts:80-91 | a run with fresh tokens after which a clean, signed-out connection still has a refresh token in the file: clear, set, clear in one pending save |
| `NodeConnectionManager.NodeConnection.Live` | source/client-connections/manager.ts:30-432 | any sequence of calls, replies, timers, socket events and write results takes the object where the model's run goes, and keeps the invariant: single flight, bound sessions, nothing waiting for nothing, and queued snapshots in order |
| `NodeConnectionManager.NodeConnection.Handle` | source/client-connections/manager.ts:30-432 | every event changes the fields as the model's step does, and each only by the causes named for it; it keeps the invariant, and stores tokens, opens sockets, goes online, sets timers and starts logins only where the guard allows |
| `NodeConnectionManager.NodeConnection.Resume` | source/client-connections/manager.ts:80-422 | an activation goes on by the common rules, and the fields change only by their causes |
| `NodeConnectionManager.NodeConnection.Close` | source/client-connections/manager.ts:423-430 | a connection still in the map is left without socket, timer and login for good |
| `NodeConnectionManager.NodeConnection.WriteEnded` | source/client-connections/manager.ts:80-91 | when the credentials are no longer owed, the write succeeded and the file is the snapshot it wrote, equal to the memory iff the connection was in it |
| `NodeConnectionManager.NodeConnection.FromStore` | source/client-connections/manager.ts:65-71 | a stored refresh token without a key is dropped; one with a key starts reconnecting |
| `NodeConnectionManager.NodeConnection.StopConnection` | source/client-connections/manager.ts:423-429 | a new generation, with login, timer and socket gone and the login aborted |
| `NodeConnectionManager.NodeConnection.PersistCredentials` | source/client-connections/manager.ts:80-91 | the loop from one wait to the next: joins a pending save or starts its own with the captured values |
| `NodeConnectionManager.NodeConnection.StoreTokens` | source/client-connections/manager.ts:185-191 | the new tokens are in memory and owed to the store |
| `NodeConnectionManager.NodeConnection.EnsureAccess` | source/client-connections/manager.ts:193-196 | starts with the pending credential save |
| `NodeConnectionManager.NodeConnection.AfterEnsurePersist` | source/client-connections/manager.ts:196-208 | after it: a token that lives for 30 seconds more is used, else a refresh under way joined, else one refresh of the caller's generation started, else a missing refresh token refused with a 401; stated over the fields |
| `NodeConnectionManager.NodeConnection.AfterRefreshVerify` | source/client-connections/manager.ts:202-203 | the exchange is begun only by a current refresh with a signer of the same origin |
| `NodeConnectionManager.NodeConnection.AfterRefreshExchange` | source/client-connections/manager.ts:203-205 | the refresh token changes only by a successful exchange of the current generation; tokens of an older one are dropped |
| `NodeConnectionManager.NodeConnection.AfterAuthorize` | source/client-connections/manager.ts:172-174 | the same of the tokens of a sign-in |
| `NodeConnectionManager.NodeConnection.Connect` | source/client-connections/manager.ts:263-278 | adopts, drains or starts an attempt |
| `NodeConnectionManager.NodeConnection.OpenEventConnection` | source/client-connections/manager.ts:280-284 | the attempt from entry to its first wait; nothing to do when closed or connected |
| `NodeConnectionManager.NodeConnection.AfterOpenVerify` | source/client-connections/manager.ts:284-286 | a superseded attempt ends, a current one fetches a snapshot |
| `NodeConnectionManager.NodeConnection.AfterOpenSync` | source/client-connections/manager.ts:286-288 | a superseded attempt ends, a current one asks for a ticket |
| `NodeConnectionManager.NodeConnection.AfterTicket` | source/client-connections/manager.ts:288-294 | a socket is opened only with a valid ticket, by a current attempt, without another socket |
| `NodeConnectionManager.NodeConnection.ScheduleReconnect` | source/client-connections/manager.ts:325-341 | in an open manager that holds the connection and has no timer: signed out iff there is no refresh token or the failure is a 400, 401 or 403, else one timer of the current generation; otherwise nothing |
| `NodeConnectionManager.NodeConnection.LogIn` | source/client-connections/manager.ts:153-160 | refuses an invalid device name and a second sign-in without effect, else stops the connection and begins a new one |
| `NodeConnectionManager.NodeConnection.LogOut` | source/client-connections/manager.ts:402-409 | stops, then revokes or clears and saves |
| `NodeConnectionManager.NodeConnection.ClearSession` | source/client-connections/manager.ts:406-408 | both tokens are gone and the credentials are being saved |
| `NodeConnectionManager.NodeConnection.Remove` | source/client-connections/manager.ts:415-422 | stops, then revokes or deletes and saves |
| `SecureStore.LoadAfterSave` | source/client-connections/secure-store.ts:12-38 | loading what was saved gives the same identities and credentials, with an invertible codec and canonical origins |
| `SecureStore.SaveFailsIff` | source/client-connections/secure-store.ts:30-37 | saving throws iff some connection has a secret without keychain, a token without key, or an invalid key |
| `SecureStore.LoadedTokensAreBound` | source/client-connections/secure-store.ts:18-27 | whatever the file holds, a loaded token comes with its key |
| `SecureStore.ConnectionStore.Save` | source/client-connections/secure-store.ts:29-46 | a save that throws leaves everything alone, any other queues exactly its snapshot |
| `SecureStore.ConnectionStore.WriteEnds` | source/client-connections/secure-store.ts:38-45 | writes end in call order, whether or not one fails |
| `SecureStore.IdleFileIsLastSave` | source/client-connections/secure-store.ts:38-45 | with nothing left to write the file is the last saved snapshot when its write succeeded |
| `SecureStore.FileIsLastSuccess` | source/client-connections/secure-store.ts:38-45 | the file is the snapshot of the last write that succeeded, or what it was when none did |
| `DpopTransport.DpopClient.Request` | source/client-connections/transport.ts:54-68 | one repetition at most, of the same request, only after a valid nonce challenge and with that nonce; the throw after the loop is unreachable |
| `DpopTransport.Request` | source/client-connections/manager.ts:211-235 | from the replies alone: nothing is sent for a refused target or a lost session; else one exchange, and a second one iff the first ended in `invalid_token`, the session was current and another token was there; the token and nonce of every attempt; and exactly when the result is a refused target, a lost session, a failed renewal or the last reply |
| `DpopTransport.RepetitionsAreJustified` | source/client-connections/manager.ts:211-235 | such attempts are at most four, all of the same method, route, body and key; every one but the last was answered by a nonce challenge or an `invalid_token`; another token is only sent after a rejection |
| `DpopTransport.TwoExchanges` | source/client-connections/manager.ts:227-234 | two signed exchanges, the second with the renewed token and nonce, are the attempts of such a call and end in its last reply |
| `DpopTransport.CallbackListener.Receive` | source/client-connections/transport.ts:103-117 | the first acceptable callback is consumed, everything else is refused and changes nothing |
| `DpopTransport.CallbackListener.ReceiveAll` | source/client-connections/transport.ts:102-117 | whatever arrives, callbacks and an abort in any order, the result is the verdict of the first acceptable callback before the abort |
| `DpopTransport.FirstVerdictExtends` | source/client-connections/transport.ts:102-117 | later callbacks and aborts never change a verdict |
| `DpopTransport.GrantedCodeIsBound` | source/client-connections/transport.ts:102-117 | a code comes from a callback before any abort: a GET of the listener's host and path with this state and issuer, no parameter twice, the code of at most 512 characters and no error |
| `ServerPreflight.RunKeeps` | source/client-provisioning/manager.ts:10-72 | every interleaving of scan, inspect, cancel and identity change keeps the protocol's invariant |
| `ServerPreflight.StagesExclude` | source/client-provisioning/manager.ts:18-46 | a challenge and an inspection are never both set, nor either while an operation of its generation waits |
| `ServerPreflight.OneRunPerChallenge` | source/client-provisioning/manager.ts:42-61 | each challenge feeds at most one SSH process, begun before it expired |
| `ServerPreflight.SupersededIsAborted` | source/client-provisioning/manager.ts:18-31 | of the waiting scans and inspections exactly those of the current generation are not aborted, at most one |
| `ServerPreflight.InspectionIsTrusted` | source/client-provisioning/manager.ts:32-72 | behind a present inspection stand, in this order, a scan call for its target, the reply to it that issued a challenge, and an inspect call that confirmed the challenge's fingerprint before it expired; no operation began since, and the identity in force is the one used |
| `ServerPreflight.EveryChallengeWasScanned` | source/client-provisioning/manager.ts:32-41 | every challenge was issued by the reply to a scan that was called for its target |
| `ServerPreflight.PlansAreTrusted` | source/client-provisioning/manager.ts:30-72 | a plan is only made for the target and fingerprint of a confirmed challenge |
| `ServerPreflight.GenerationCounts` | source/client-provisioning/manager.ts:18-46 | the generation counts the operations begun; refused calls begin none and consume nothing |
| `PreflightTraces.FieldsMoveIff` | source/client-provisioning/manager.ts:17-72 | field by field: which calls and replies change generation, identity, challenge, inspection and the SSH runs, and to what; every other event leaves them alone |
| `PreflightTraces.TasksMoveIff` | source/client-provisioning/manager.ts:17-72 | an operation is moved by its own replies only, and those end it, except that an inspection waits three times |
| `PreflightTraces.SignalsMoveIff` | source/client-provisioning/manager.ts:17-31 | beginning an operation aborts the signal of the one it supersedes and no other |
| `PreflightTraces.RepliesAreHonest` | source/client-provisioning/manager.ts:18-72 | success is reported iff the change was made, a cancellation iff another operation began, and a refused confirmation names its reason |
| `PreflightTraces.IdentityIff` | source/client-provisioning/manager.ts:18-29 | a path is the identity in force iff a call for it was answered by an accepting reply with no operation begun in between, and no later event cleared or replaced it |
| `PreflightTraces.SshIdentityWasAccepted` | source/client-provisioning/manager.ts:42-61 | the identity given to an SSH process was in force, so accepted and not replaced, when its inspection was called; a process without one began when none was in force |
| `PreflightTraces.InspectionUsedTheIdentity` | source/client-provisioning/manager.ts:42-70 | the inspection that plans rest on was made under the identity in force, accepted and not replaced since |
| `ServerPreflight.ServerPreflight.Handle` | source/client-provisioning/manager.ts:10-72 | every call and reply takes the object where the model's step goes and keeps the invariant; a challenge and an inspection are never both set |
| `ServerPreflight.ServerPreflight.Inspect` | source/client-provisioning/manager.ts:42-46 | refuses without consuming the challenge, else consumes it and waits |
| `ServerPreflight.ServerPreflight.Scanned` | source/client-provisioning/manager.ts:34-40 | a scan that succeeded and was not superseded issues a fresh challenge of its target for five minutes; any other reply issues nothing |
| `ServerPreflight.ServerPreflight.SshEnded` | source/client-provisioning/manager.ts:61-70 | a report for an inspection that was not superseded becomes the inspection of its challenge; any other reply leaves none |
| `ServerPreflight.ServerPreflight.IdentityChecked` | source/client-provisioning/manager.ts:24-27 | the path becomes the identity iff its file is acceptable and nothing superseded the call; an unacceptable file is refused, a superseded call cancelled, and neither changes the identity |
| `ServerPreflight.ServerPreflight.PreviewInstall` | source/client-provisioning/manager.ts:30 | the preview is that of the present inspection |
| `HostReport.ParseInvertsPrint` | source/client-provisioning/preflight.ts:87-124 | parsing a printed report gives it back iff the disk size is below 10^15; larger ones are refused |
| `HostReport.EveryOrderIsAccepted` | source/client-provisioning/preflight.ts:105-124 | the eight lines are accepted in every order, each giving its key's value |
| `HostReport.OnlyReportsAreAccepted` | source/client-provisioning/preflight.ts:105-124 | anything accepted is the header and eight well-formed lines with each key exactly once |
| `HostReport.CompletenessIsImplied` | source/client-provisioning/preflight.ts:122 | the final completeness check never refuses what the lines passed, by counting |
| `HostReport.EightKeysAreAll` | source/client-provisioning/preflight.ts:111-122 | eight distinct known keys are all the keys |
| `HostReport.DigitLimitIsSafe` | source/client-provisioning/preflight.ts:116 | fifteen digits never exceed a safe integer |
| `HostReport.ParseHostReport` | source/client-provisioning/preflight.ts:105-124 | the loop, which also checks for safe integers, computes the specification, which does not and whose completeness test never refuses what the lines passed |
| `InstallPlan.SelectedIsHighest` | source/client-provisioning/install-plan.ts:36-37 | the release offered is a current one of the platform of highest sequence, none iff there is none |
| `InstallPlan.CatalogueOrderIsIrrelevant` | source/client-provisioning/install-plan.ts:30-58 | permuting the catalogue changes neither the refusal nor anything in the plan |
| `InstallPlan.PlanExpiry` | source/client-provisioning/install-plan.ts:26-52 | a plan expires after now, at most five minutes after the inspection and no later than its release, and no earlier than the first of these |
| `InstallPlan.DiskBlockers` | source/client-provisioning/install-plan.ts:38-41 | the disk blockers are all absent iff the known free space meets both minimums |
| `InstallPlan.NeverUnblocked` | source/client-provisioning/install-plan.ts:38-44 | every plan is blocked, and by nothing else iff the host lacks nothing and a release is offered that fits the known free space |
| `InstallPlan.HostBlockersCount` | source/client-provisioning/preflight.ts:126-135 | a host has one blocker for each thing it lacks, and none iff it is Linux on a known architecture with bash, a local engine, compose, a writable home, no installation and two GiB of known free space |
| `InstallPlan.PreviewIff` | source/client-provisioning/install-plan.ts:26-41 | there is a plan iff there is a current inspection with a good target and fingerprint, accepted options and distinct release numbers; otherwise the first of these that is missing is named |
| `InstallPlan.PlanFollows` | source/client-provisioning/install-plan.ts:26-60 | a plan is for what was inspected and asked for, on the platform of the host, with a highest current release of it or none; it has a single blocker iff the host lacks nothing and the release fits its free space |
| `InstallPlan.HasDuplicate` | source/client-provisioning/install-plan.ts:31-35 | the loop finds a repeated sequence number iff there is one |
| `InstallPlan.PreviewInstallation` | source/client-provisioning/install-plan.ts:24-60 | each refusal in its order, else the plan of the selected release |
| `InstallPlan.HostSummary` | source/client-provisioning/preflight.ts:125-141 | one blocker for each thing the host lacks, in order |
| `NodeChat.RunKeeps` | scripts/lib/beebot-node-chat-controller.snippet.js:6-155 | every interleaving keeps the controller's invariant |
| `NodeChat.CommitIsUndisturbed` | scripts/lib/beebot-node-chat-controller.snippet.js:72-109 | an opening call takes the selection only if nothing was selected or closed and no connection changed since it began, and for the target it was called with |
| `NodeChat.UncommittedOpenIsInvisible` | scripts/lib/beebot-node-chat-controller.snippet.js:72-109 | an opening call that does not take the selection changes nothing but itself |
| `NodeChat.CommitShowsDraft` | scripts/lib/beebot-node-chat-controller.snippet.js:101-107 | a new selection shows the draft kept for its scope |
| `ChatTraces.StepMoves` | scripts/lib/beebot-node-chat-controller.snippet.js:48-150 | field by field: which events change the selection, what is known of the open conversation and what the screen says, and to what; every other event leaves them alone |
| `ChatTraces.StepMovesTasks` | scripts/lib/beebot-node-chat-controller.snippet.js:50-150 | an opening call, refresh or command is moved by its own replies only; those end it unless they let it go on, and what a call starts waits |
| `ChatTraces.AttemptsIff` | scripts/lib/beebot-node-chat-controller.snippet.js:111-150 | a message is attempted iff the open conversation is idle, online, available, not frozen, with no goal uncertain or being cancelled, and the text is not blank; an action iff the goal is shown in an idle, online, available conversation; with its target and key |
| `ChatTraces.LastShown` | scripts/lib/beebot-node-chat-controller.snippet.js:21-66 | an available conversation shows what the last snapshot put on the screen says of its bot, and that snapshot was carried by a reply to the same call, complete and of the node of the conversation unless two scopes were confused |
| `ChatTraces.CommandsFollowTheSnapshot` | scripts/lib/beebot-node-chat-controller.snippet.js:123-150 | a message is attempted only if the last snapshot shown says that the bot is not frozen and no goal of it is uncertain or being cancelled; a goal is acted upon only if that snapshot holds it |
| `ChatTraces.NothingStaysBusy` | scripts/lib/beebot-node-chat-controller.snippet.js:50-150 | in every reachable state the open conversation is busy iff a command of it is under way, and each conversation pending iff the one refresh of it is |
| `ChatTraces.DraftStaysShownIff` | scripts/lib/beebot-node-chat-controller.snippet.js:107-140 | the screen shows the draft kept for the open conversation until a message with its text is delivered for another conversation object of the same scope |
| `NodeChat.CommandsAreCurrent` | scripts/lib/beebot-node-chat-controller.snippet.js:45-153 | a command is attempted only on a conversation asked for after the last connection change, under its own scope |
| `NodeChat.OneCommandPerContext` | scripts/lib/beebot-node-chat-controller.snippet.js:123-149 | of one conversation object at most one command is under way, and the open one is busy meanwhile |
| `NodeChat.KeySharedIff` | scripts/lib/beebot-node-chat-controller.snippet.js:111-116 | two attempts use the same key iff they are attempts of the same command with no success of it in between |
| `NodeChat.SameKeySameCommand` | scripts/lib/beebot-node-chat-controller.snippet.js:111-116 | different commands never share a key |
| `NodeChat.SameKeySameTarget` | scripts/lib/beebot-node-chat-controller.snippet.js:111-116 | two attempts with the same key are attempts of the same command to the same bot, node and connection |
| `NodeChat.KeyIsNewAfterSuccess` | scripts/lib/beebot-node-chat-controller.snippet.js:111-116 | after a success a command's key is none used before it |
| `NodeChat.ScopeIsInjective` | scripts/lib/beebot-node-chat-controller.snippet.js:12 | with connection ids free of colons, as UUIDs are, and one node per connection, a scope names one connection, node and bot, whatever colons the other ids contain |
| `NodeChat.ColonsConfuseScopes` | scripts/lib/beebot-node-chat-controller.snippet.js:12 | a colon in any of three arbitrary ids makes another triple with the same scope |
| `NodeChat.ScopeIsUniqueIff` | scripts/lib/beebot-node-chat-controller.snippet.js:12 | a scope is that of one triple of arbitrary ids only iff none of the three contains a colon |
| `NodeChat.DraftIsKept` | scripts/lib/beebot-node-chat-controller.snippet.js:122-139 | a draft stays as set, through sends, refreshes and other selections, until set again or delivered as it is |
| `NodeChat.NodeChat.Handle` | scripts/lib/beebot-node-chat-controller.snippet.js:6-155 | every call and reply takes the controller where the model's step goes and keeps the invariant |
| `NodeChat.NodeChat.TakeSelection` | scripts/lib/beebot-node-chat-controller.snippet.js:101-107 | the open conversation of the same scope is kept, any other replaced |
| `NodeChat.NodeChat.OpenConfirmed` | scripts/lib/beebot-node-chat-controller.snippet.js:96-107 | an undisturbed, confirmed call takes the selection and shows the kept draft; any other changes nothing but its own task |
| `NodeChat.NodeChat.StartCommand` | scripts/lib/beebot-node-chat-controller.snippet.js:111-114 | an attempt uses the key of earlier unsuccessful ones or a fresh one |
| `NodeChat.NodeChat.Send` | scripts/lib/beebot-node-chat-controller.snippet.js:123-131 | a message is attempted iff it says something and the open conversation is idle, online, available and not frozen, with no goal uncertain or being cancelled; only on a conversation read in the current epoch |
| `NodeChat.NodeChat.Settled` | scripts/lib/beebot-node-chat-controller.snippet.js:130-135 | a success forgets the key and an unedited draft, a failure keeps both; the open conversation is idle again and refreshed |
| `NodeChat.NodeChat.RefreshConfirmed` | scripts/lib/beebot-node-chat-controller.snippet.js:50-71 | a snapshot is shown only while its conversation is open, its epoch current and its identity confirmed again |
| `UiLanguage.FillSplit` | scripts/lib/ui-language-runtime.snippet.js:23 | splitting a pattern into literals and slots loses nothing |
| `UiLanguage.MatchIsSound` | scripts/lib/ui-language-runtime.snippet.js:24-25 | putting the captures back into the pattern yields the input |
| `UiLanguage.MatchIsComplete` | scripts/lib/ui-language-runtime.snippet.js:24-25 | every instance of a pattern is matched |
| `UiLanguage.MatchIsExact` | scripts/lib/ui-language-runtime.snippet.js:24-25 | the arguments are recovered when each non-final slot is followed by a literal first occurring right after its argument |
| `UiLanguage.CollectedIffAgree` | scripts/lib/ui-language-runtime.snippet.js:26 | the collected values are the captures iff repeated slots captured the same text |
| `UiLanguage.FormatIffAgree` | scripts/lib/ui-language-runtime.snippet.js:16-27 | with at most one slot repeated, and that once, formatting what was captured gives the input iff the two captures agree |
| `UiLanguage.DeterminedFormatIffAgree` | scripts/lib/ui-language-runtime.snippet.js:16-27 | the same of any pattern whose formatted text determines its arguments |
| `UiLanguage.DisagreeingCapturesMayFit` | scripts/lib/ui-language-runtime.snippet.js:16-27 | beyond both, captures that disagree can still format to the input |
| `UiLanguage.MatchThenFormat` | scripts/lib/ui-language-runtime.snippet.js:16-27 | for distinct slots formatting the pattern with what was captured gives the input |
| `UiLanguage.RepeatedSlotLosesText` | scripts/lib/ui-language-runtime.snippet.js:26 | with a repeated slot formatting need not give the input back |
| `UiLanguage.Runtime.Computed` | scripts/lib/ui-language-runtime.snippet.js:18-29 | the loops decide by the first pattern that is, or matches, the text |
| `UiLanguage.Runtime.FirstClaimDecides` | scripts/lib/ui-language-runtime.snippet.js:18-29 | the first pattern that is or matches the text decides: the text itself is translated, a match gives the translated pattern filled with the captures, and a text no pattern claims stays |
| `UiLanguage.Runtime.ComputedTranslatesFormat` | scripts/lib/ui-language-runtime.snippet.js:16-29 | a text formatted in English from determined values is recognised as the same values formatted in Chinese |
| `VncLiveness.SamplesAreTheWindow` | source/electron-preload/box-vnc-liveness.ts:113-133 | the pruned samples are the whole history since the last baseline restricted to the window |
| `VncLiveness.ReportsAreSound` | source/electron-preload/box-vnc-liveness.ts:134-161 | every report has a fully covered window with enough inputs, no draw, no byte, and the age of its oldest input as the stall, within the window |
| `VncLiveness.ReportsAreSeparated` | source/electron-preload/box-vnc-liveness.ts:134-151 | between two reports there is a draw or a new baseline, strictly between them when the clock never goes back |
| `VncLiveness.ReportsIff` | source/electron-preload/box-vnc-liveness.ts:113-161 | with a clock that never goes back a sample reports iff the whole window lies after the baseline, it holds enough inputs and no draw and no byte, and nothing was reported since the last draw or new baseline |
| `VncLiveness.VncLivenessDetector.Sample` | source/electron-preload/box-vnc-liveness.ts:113-161 | one sample changes the detector as specified, keeps the samples equal to the windowed history, and reports iff a covered window is unanswered for the first time |
| `VncLiveness.Sums` | source/electron-preload/box-vnc-liveness.ts:137-148 | the loop adds up the window |
| `WindowPlacement.Resolve` | source/electron-main/window-state-store.ts:26-86 | the first work area of greatest overlap decides; the bounds are clamped into it, or absent when too little shows or it is too small |
| `WindowPlacement.PlacedInside` | source/electron-main/window-state-store.ts:69-85 | a placement lies wholly in its work area and has at least the minimum size |
| `WindowPlacement.ClampedIsNearest` | source/electron-main/window-state-store.ts:69-85 | no window of the minimum size inside the work area is nearer in width or height to the one asked for, nor one of the same size in position; a window that fits is left as it is, and only such a one |
| `WindowPlacement.SharedArePoints` | source/electron-main/window-state-store.ts:41-55 | the overlap of two intervals counts the points they have in common |
| `WindowPlacement.OverlapAtMostWhole` | source/electron-main/window-state-store.ts:41-55 | no overlap exceeds the window's own area, and it equals it iff the window lies inside |
| `WindowPlacement.PlacingIsIdempotent` | source/electron-main/window-state-store.ts:26-86 | placing the result again gives the same bounds, even when work areas overlap |
| `WindowPlacement.LaunchTwice` | source/electron-main/window-state-store.ts:26-86 | the same of two launches in a row |
| `WindowStateStore.EveryRunIsFaithful` | source/electron-main/window-state-store.ts:115-135 | attempts and the waiting text are notes in order, the last of them being the last note |
| `WindowStateStore.AtMostOneWrite` | source/electron-main/window-state-store.ts:115-135 | of the writes started all are over but at most one, and the flag says whether it is under way |
| `WindowStateStore.IdleMeansLatest` | source/electron-main/window-state-store.ts:115-135 | attempted writes are a subsequence of the notes, and when idle the last attempt is the last note, even if writes fail |
| `WindowStateStore.WritingSettles` | source/electron-main/window-state-store.ts:124-135 | with no new note writing stops after at most one more write |
| `WindowStateStore.SandWindowStateStore.NoteState` | source/electron-main/window-state-store.ts:115-122 | a note is written at once or waits as the only trailing one |
| `WindowStateStore.SandWindowStateStore.WriteFinished` | source/electron-main/window-state-store.ts:129-134 | an ended write starts the trailing one |
| `ShellStream.StreamIsComplete` | source/box-exec-daemon/server.ts:317-362 | for every arrival order: start, all chunks in arrival order, one exit, one close; it never sleeps while a chunk or the exit is pending |
| `ShellStream.ExitedStreamDrains` | source/box-exec-daemon/server.ts:337-354 | after the exit the stream ends after exactly the pending chunks, the exit and the close |
| `ShellStream.ArrivalsAreAll` | source/box-exec-daemon/server.ts:317-352 | what counts as arrived are all chunks the child sent on either channel until its exit was emitted; the exit code is that of its first close |
| `ShellStream.WokenEmits` | source/box-exec-daemon/server.ts:337-349 | a woken stream emits the next chunk, or the exit when there is none |
| `ShellStream.OtherPathsAreShort` | source/box-exec-daemon/server.ts:220-254 | a refused path or failed answer is one thrown element, a failed spawn is thrown after the start; each is followed by the close |
| `ShellStream.EveryExecutionClosesOnce` | source/box-exec-daemon/server.ts:220-254 | on every path a consumed execution has exactly one close, and it comes last |
| `ShellStream.Exec.Handle` | source/box-exec-daemon/server.ts:317-362 | every pull, chunk and exit takes the generator where the model's step goes; closed, it has emitted everything with one close; asleep, it has nothing pending |
| `ConversationLibrary.ProjectConversationLibrary` | scripts/lib/beebot-conversation-library.snippet.js:15-47 | the loops and the sort compute the first 2000 items of the uncapped projection |
| `ConversationLibrary.LibraryIsSound` | scripts/lib/beebot-conversation-library.snippet.js:15-47 | at most 2000 items, newest entry first, each key once, each the target of an eligible entry |
| `ConversationLibrary.LibraryCapsEntries` | scripts/lib/beebot-conversation-library.snippet.js:24-28 | at most 128 items of one entry |
| `ConversationLibrary.LibraryIsComplete` | scripts/lib/beebot-conversation-library.snippet.js:18-45 | a library short of 2000 has every target of every eligible entry, except of entries with 128 items |
| `ConversationLibrary.FullLibraryIsNewest` | scripts/lib/beebot-conversation-library.snippet.js:18-46 | what a full library leaves out is no newer than what it holds |
| `ConversationLibrary.StableSortOfOrdered` | scripts/lib/beebot-conversation-library.snippet.js:46 | any stable sort by order leaves the collected items as they are |
| `ConversationLibrary.StableSortIsStable` | scripts/lib/beebot-conversation-library.snippet.js:46 | the sort orders the items and keeps those of one entry in their order |
| `ConversationLibrary.KeyIsInjective` | scripts/lib/beebot-conversation-library.snippet.js:28 | a key names one entry id and one target |
| `ConversationLibrary.AddEntry` | scripts/lib/beebot-conversation-library.snippet.js:24-44 | one entry adds its first 128 new targets as far as there is room |
| `AgentLedger.LedgerIsBounded` | source/host/host-gateway-api.ts:298-312 | after every call at most 64 nonces are held, each for a mint of its own |
| `AgentLedger.HeldNonceShares` | source/host/host-gateway-api.ts:299-302 | a call with a held nonce starts no mint and gets the mint held for it |
| `AgentLedger.MintsIff` | source/host/host-gateway-api.ts:298-312 | a call starts a mint iff it brings no nonce, an empty one, or one that is not held |
| `AgentLedger.RemintedOnlyAfterCapOthers` | source/host/host-gateway-api.ts:298-312 | unless a mint of the nonce failed, a nonce is minted again only after at least 64 other nonces were inserted |
| `AgentLedger.HeldIffNoFailure` | source/host/host-gateway-api.ts:298-312 | with fewer than 64 other nonces and no further mint of it since, a minted nonce is held, and its mint shared by the next call, iff no mint of it failed meanwhile |
| `AgentLedger.StaleFailureForgetsNewerMint` | source/host/host-gateway-api.ts:306 | a late failure of an evicted mint deletes the entry of a newer one, so the next call mints again |
| `AgentLedger.StaleFailureIsReachable` | source/host/host-gateway-api.ts:298-312 | a run from the empty ledger in which this makes a nonce be minted again with nothing inserted in between |
| `AgentLedger.HostGatewayApi.CreateAgent` | source/host/host-gateway-api.ts:298-312 | the ledger and the mint a call gets; a nonce is held for that mint from then on, among at most 64 |
| `AgentLedger.HostGatewayApi.EvictOldest` | source/host/host-gateway-api.ts:307-310 | the eviction loop keeps exactly the newest 64 |

## Left out

- ConnectionDurability.CleanIsDurable: holds of runs with fresh tokens in which no event loses or recurs, which `DurableThroughoutIff` shows to be exactly the durable ones.
- AgentLedger.RemintedOnlyAfterCapOthers: takes for granted that no mint of the nonce fails in between; `HeldIffNoFailure` says what a failure does.
- SecureStore.LoadAfterSave: takes canonical origins and an invertible codec as given; origin parsing, keys and encryption are not part of this model.
- HostReport.EveryOrderIsAccepted: the probe's shell script is modelled by its final printf only.
- UiLanguage.FormatIffAgree: for patterns that repeat more than that, the condition is that of `DeterminedFormatIffAgree`.
- NodeConnectionManager.NodeConnection.ScheduleReconnect: the text of the error and the random, exponential delay are left out; the timer may fire at any time.
- NodeConnectionManager.NodeConnection.Remove: the returned flag that says whether the server revoked the session is left out; it decides nothing.
- Connections: one connection is modelled with all its activations; other connections appear as saves of the shared store. Errors' texts, snapshot contents, listeners, previews and the merging of concurrent adds are left out; an added connection is a start state with its first save queued.
- Connections: the identity check and the revoke request of logout and remove are one network wait.
- Connections: the store's refusals appear as a store that is not ready; a write may fail at any time.
- Transport: the response size loop, token validation, URL normalisation, proofs and key derivation, and the PKCE exchange of section 4 of RFC 7636, which is cryptography.
- Preflight: target and option checks, the host key parser and the SSH command line; which of several error codes a failed scan or inspection reports.
- Plan: identifiers, digests and the constant parts of the plan.
- Chat: messages, sorting of goals, error texts, and the timers, whose refreshes may come at any time; request replies about other connections.
- UI language: `set` and `initialize`, whose guard is one counter compared once, and the DOM.
- Liveness: parsing of beacon counters and the injected scripts; the two constants are positive parameters.
- Shell stream: chunks that arrive after the exit element reach nobody and are not counted as arrivals; killing, timeouts, the background write queue, paged reads and path checks are left out.
- Library: which links a message contains and which of them are acceptable targets is given per entry; titles, kinds and excerpts of items are left out.
- Ledger: what minting does; a mint is named by its position.
- Host lock, gateway routes, menus, preloads and telemetry: input and output, or facts of a single branch.
