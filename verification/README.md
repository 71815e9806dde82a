# Verification of the TWAG session logic

VectorCore TWAG attaches Wi-Fi clients to a PGW. Several event sources drive its shared state
at once: RADIUS, Diameter, GTP-C, GTP-U and DHCP. This project models that state and proves
what keeps it consistent. `dafny verify dfyconfig.toml` checks everything.

## What is proved

- **One owner per subscriber** (`OwnerGuard`). Before a PGW session is created a session is
  marked PGWPending, and then two separate reads look for rivals. Every store call and every
  read is one step; steps of different activations interleave freely. No two live sessions
  that passed the guard are the same subscriber, and the guard refuses no more than that needs.
- **All-or-nothing activation and detach** (`Lifecycle`, `CallLedger`). Foreign calls fail at
  will and are recorded in a ghost list of calls. What is held, and in which order it was
  given back, is read off that list.
- **Alternation of PGW sessions under the subscriber locks** (`LockedRuns`, `LockExactness`,
  `AttachFlow`). The locks are a table, and the steps of all operations interleave freely.
  Between two PGW sessions of one subscriber there is an attempt to delete the first as long as
  no session on its way to the PGW is taken down without its own lock. For which subscribers
  the locks achieve that is an if-and-only-if, with a run for every pair for which they do not.
  `SoloRuns` ties the steps to the methods.
- **The session store and the authorization cache** (`SessionStore`, `SessionManager`,
  `AuthCache`). Pointer maps updated in place, proved against a value model whose indexes are
  sound without conditions and complete exactly when no key is shared.
- **The recovery limiter** (`RecoveryLimiter`), **the GTP-C and Diameter multiplexers**
  (`GTPTransactions`, `SequenceNumbers`, `TransactionNumbers`, `DiameterPending`), **the address allocator**
  (`AddressPool`), **the codecs** (`GTPv2Codec`, `DiameterCodec`, `MPPE`, `Checksum`) and **the
  DHCP gate** (`DHCP`).

`Lifecycle.Service` and `AttachFlow` are the methods of the service in their own form.
`serialised` there says that operations run one at a time, so that the store does not change
between two steps of one of them. Where it is false the store may change at every `Yield`, and
only the claims that do not mention it remain; that resources are given back in reverse order
is among these. The subscriber locks do not make operations run one at a time, not even those
of one subscriber. What they do achieve is the subject of `LockedRuns`, which takes the same
operations apart into steps and needs no such assumption.

## What the code does that its documentation does not say

- README.md:550 promises one PGW session per IMSI and APN. The code treats two different
  non-empty MAC addresses as different subscribers (internal/lifecycle/service.go:1912), and a
  missing APN as a wildcard in one place and not in another; `Sessions.GuardDetectsSameSubscriber`
  and `OwnerGuard.GuardIsExact` say exactly what is excluded.
- `Attach` looks for earlier sessions a second time when the authentication names another lock
  (internal/lifecycle/service.go:287-309). That lookup can pick the session the attach itself
  created. The attach then takes it down and fails when it applies the authentication.
  `AttachFlow.ParkedFindsItself` gives the exact condition: a request without IMSI, but with a
  MAC address, whose authentication supplies the IMSI; or one without APN whose authentication
  supplies the APN. When nothing else matches such an attach never succeeds, and when the
  second lock cannot be had the AuthPending session stays (`AttachFlow.ResumeAttach`).
- A store refusal after the PGW answered (internal/lifecycle/service.go:631-642, 680-683)
  returns without releasing anything; `lost` in `Lifecycle.Service.ActivateAuthorizedSession`
  marks this case. It needs another goroutine to have ended the session meanwhile. Three can:
  a handler that takes no lock (`LockExactness.UnlockedDisconnectionBreaks`); an attach that
  matches the session but names another lock, because lookups match by IMSI or MAC address
  while the lock goes by the IMSI if there is one (`LockExactness.MACOnlyAttachBreaks`); and a
  detach that found the session before its attach changed locks
  (`LockExactness.DetachAfterRenamingBreaks`). The next attach of the subscriber then opens a
  second PGW session beside the first.
- `SetSubscriberIP` with a missing address plants an index entry that outlives its session
  (`SessionStore.MissingIPOutlivesSession`); `ExpireInactive` drops sessions without deleting
  their PGW context (`CallLedger.ExpiryKeepsLedgerIff`), but the service never calls it.
- Removing an index entry does not ask whose it is. In the authorization cache one expired
  entry can hide a live one from a lookup by accounting session (`AuthCache.LookupHidesIff`,
  `AuthCache.LiveEntryHidden`).
- A pool with prefix 0 makes the allocator's counting loop run for ever (`AddressPool.ZeroPrefixContainsAll`).
- A DHCP option longer than 255 octets overflows its length octet; the gate holds all the same
  (`DHCP.AnswerIsGated`). A request without option 50 and without a client address is refused.

## Model

| member | source | states |
|---|---|---|
| OwnerGuard.SingleOwner | internal/lifecycle/service.go:587-611 | In every interleaving of store calls and guard reads, two stored live sessions that both passed the guard are never a pair its reads can tell to be one subscriber |
| OwnerGuard.SingleOwnerPerSubscriber | internal/lifecycle/service.go:1886-1919 | With APNs present, no two distinct sessions that passed the guard and are still live belong to the same subscriber |
| OwnerGuard.GuardIsExact | internal/lifecycle/service.go:1886-1903 | Two identities can own sessions at the same time in some run if and only if the reads cannot tell them to be the same subscriber |
| OwnerGuard.OwnersOnFields | internal/lifecycle/service.go:1886-1919 | The same on the fields: exactly two with different IMSIs, different MAC addresses or different APNs, or two that share neither a MAC address nor an IMSI with its APN, can own at the same time |
| OwnerGuard.TwoSIMsOwnTogether | internal/lifecycle/service.go:1905-1919 | A run in which two SIMs behind one MAC address and APN both own a session |
| OwnerGuard.OtherDeviceOrAPNOwnsToo | internal/lifecycle/service.go:1905-1919 | Runs in which one subscription owns in two devices, and on two APNs |
| OwnerGuard.SharedIdentityNeverOwnsTwice | internal/lifecycle/service.go:1905-1919 | In no run do two own together that share an IMSI or a MAC address, differ in neither, and have the same APN |
| OwnerGuard.Admit | internal/lifecycle/service.go:587-592 | A newcomer that no owner is a rival of gets past the guard, from any state of the store: the guard refuses no more than it must |
| OwnerGuard.StepKeepsOrder | internal/lifecycle/service.go:587-592 | The invariant behind exclusion: of two activations the later reader has seen the earlier one, step by step |
| OwnerGuard.PendingIdentityFixed | internal/session/manager.go:128-145 | From PGWPending on no operation changes IMSI, MAC or APN of a session, and liveness is never regained |
| Sessions.GuardDetectsSameSubscriber | internal/lifecycle/service.go:1905-1919 | On the fields, who is the same subscriber and who is detected, both as if-and-only-ifs; detection is symmetric, equals the same-subscriber relation when both APNs are present, and exactly which pairs are missed otherwise |
| Sessions.SameAPNIffFolded | internal/session/manager.go:848-850 | APNs are the same if and only if they agree letter by letter up to the case of ASCII letters |
| Sessions.TransitionsAre | internal/session/manager.go:781-810 | The fifteen moves between different states that are allowed besides failing, and that everything but Terminated can fail |
| Sessions.TransitionRaisesRank | internal/session/manager.go:781-810 | Every allowed change of state raises the rank or keeps the state; Terminated and Failed are final |
| Lifecycle.Service.ActivateAuthorizedSession | internal/lifecycle/service.go:564-719 | An activation of a ready session fails if and only if a rival lives, a call that was to acquire something failed, the PGW answered without an address and nobody else gave one, or the checks afterwards turn it down; when it succeeds the record is exactly what authorization, lease and PGW returned. It is all or nothing: Active with everything held, or everything acquired given back last-first and the session Failed or gone; no PGW session is asked for while a rival lives; others' records are untouched. The one exception is a store refusal after the PGW answered, which happens only when the session is gone or neither PGWPending nor Active any more |
| Lifecycle.Service.BringUp | internal/lifecycle/service.go:564-697 | The same up to the checks afterwards: when it fails, and the record it ends with |
| Lifecycle.Service.Prepare | internal/lifecycle/service.go:565-611 | The part before the PGW: it fails if and only if a rival lives or the lease is refused, holds at most a lease, and a failure leaves nothing |
| Lifecycle.Service.PassGuard | internal/lifecycle/service.go:587-611 | PGWPending first, then the rival check; a refusal gives the lease back and fails the session |
| Lifecycle.Service.OpenPGW | internal/lifecycle/service.go:615-655 | Takes over the PGW's answer, and fails if and only if the PGW refuses or nobody gave an address; a local lease goes back early when the PGW assigns another address; a missing address undoes everything; the PGW session is left behind if and only if the store refuses the answer, and then the session is no longer stored |
| Lifecycle.Service.LayDatapath | internal/lifecycle/service.go:656-679 | Route and user plane, or both undone in reverse order |
| Lifecycle.Service.GoActive | internal/lifecycle/service.go:680-697 | Active with the access binding, or everything undone in reverse order; something is left behind if and only if the store refuses, and then the session is gone or neither PGWPending nor Active |
| Lifecycle.Service.RollBack | internal/lifecycle/service.go:663-695 | Gives back exactly what is held at a depth, last acquired first, and fails the session |
| Lifecycle.Service.CleanUp | internal/lifecycle/service.go:1318-1346 | All configured cleanups are attempted in order, whichever fail, and exactly the fatal errors are reported in call order |
| Lifecycle.Service.DetachSessionLocked | internal/lifecycle/service.go:1312-1352 | Unless the session cannot be terminated, every cleanup is attempted, the session is dropped, the fatal errors are reported, and no PGW session of it stays unsettled |
| Lifecycle.CleanUpReleasesAll | internal/lifecycle/service.go:1318-1346 | After the cleanups of a detach nothing that an active session holds is still held |
| Lifecycle.Service.FindLiveSessionDifferentFrom | internal/lifecycle/service.go:1886-1903 | The candidate loop over both reads finds a rival if and only if another live session shares the MAC address, or the IMSI and the APN, and differs in none of the three where both have it |
| CallLedger.CallKeepsLedger | internal/lifecycle/service.go:615-616 | Opening a PGW session without a rival, or any other call, keeps the ledger: unsettled PGW sessions belong to live stored sessions of the same identity |
| CallLedger.CreateKeepsLedgerIff | internal/lifecycle/service.go:615-616 | Opening a PGW session keeps the ledger if and only if its session is stored, live and pending under that identity, and no unsettled PGW session is of the same session or subscriber |
| CallLedger.OpKeepsLedgerIff | internal/session/manager.go:765-779 | A store operation, expiry included, keeps the ledger if and only if it ends no live session whose PGW context is unsettled |
| CallLedger.OpKeepsLedger | internal/session/manager.go:765-779 | Of the operations on one session only failure and deletion can break it |
| CallLedger.ExpiryKeepsLedgerIff | internal/session/manager.go:256-271 | Expiry keeps the ledger if and only if every expired live session is settled |
| CallLedger.WithoutLast | internal/lifecycle/service.go:681-692 | Releasing the last thing acquired restores what was held before it |
| LockedRuns.CoveredRunsAlternate | internal/lifecycle/service.go:1921-1939 | With every store call, guard read, foreign call, lock and unlock a step of its own, and all operations interleaved: as long as no pending session is taken down without the lock of its identity, PGW sessions of one subscriber alternate with their deletion, an unsettled one belongs to a live stored session, no store refusal loses one, and each lock has one holder |
| LockedRuns.LockCoverage | internal/lifecycle/service.go:1941-1947 | A request that takes a session for its own names the lock of that session if and only if both have an IMSI or neither has, and the APNs are the same |
| LockedRuns.EveryMove | internal/lifecycle/service.go:564-719 | Every single step keeps the guard's order and the ledger, leads its goroutine to a place where the invariant holds, and leaves other sessions as the others rely on |
| LockedRuns.KeepsOther | internal/lifecycle/service.go:1921-1939 | A goroutine that holds another lock, or none, is not disturbed by such a step, wherever it is |
| LockedRuns.OpeningMove | internal/lifecycle/service.go:615-616 | The step that opens a PGW session overlaps no unsettled one, by the guard's exclusion over the shared store |
| LockExactness.LocksSufficeExactly | internal/lifecycle/service.go:1941-1947 | Alternation holds in every interleaving of authorized attaches under a set of identities, detaches, error indications, PGW deletions and accounting stops, in every configuration, if and only if of any two of the identities that match both name the same lock |
| LockExactness.LocksAgreeWhen | internal/session/manager.go:812-831 | That is the case if and only if no two of them match of which one lacks the IMSI, or has another APN, than the other |
| LockExactness.AgreeingLocksSuffice | internal/lifecycle/service.go:1798-1862 | Where locks agree every takedown of a pending session is under that session's lock |
| LockExactness.DisagreeingLocksBreak | internal/lifecycle/service.go:1798-1862 | For any two identities that match and name different locks: a run in which a subscriber gets a second PGW session beside the first |
| LockExactness.MACOnlyAttachBreaks | internal/lifecycle/service.go:1798-1862 | An attach that names the MAC address alone, beside one with IMSI and MAC address, is such a pair |
| LockExactness.UnlockedDisconnectionBreaks | internal/lifecycle/service.go:1513-1540 | A disconnection by the AAA server, which takes no lock, does the same to a single subscriber |
| LockExactness.DetachAfterRenamingBreaks | internal/lifecycle/service.go:749-760 | So does a detach that found the session before its attach changed locks |
| LockExactness.AnsweredTooLate | internal/lifecycle/service.go:631-642 | The step at which the PGW session is lost: the store refuses the answer for a session that is gone |
| SoloRuns.AttachComesUp | internal/lifecycle/service.go:338-410 | The steps agree with the methods: an attach left alone, nobody else of its subscriber in the store and every call succeeding, ends with its session stored as the method's contract says, with the calls of an activation in their order and the locks as they were |
| SoloRuns.AttachReuses | internal/lifecycle/service.go:1798-1862 | So does one whose lookup picks a session in use: nothing is done |
| SoloRuns.HandlersTakeDown | internal/lifecycle/service.go:1312-1352 | So does every operation that takes down: however the calls fail, exactly the named session is dropped, with all the calls of a takedown made for it in their order and the locks as they were |
| AttachFlow.Serve | internal/lifecycle/service.go:215-410 | The methods themselves, run one at a time in any schedule of attaches (also those that change locks midway), detaches and teardown events, under any pattern of failures: between two PGW sessions of one subscriber lies an attempt to delete the first |
| AttachFlow.Perform | internal/lifecycle/service.go:215-410 | One step of such a run keeps the ledger and the attaches that wait between locks |
| AttachFlow.AttachAuthorized | internal/lifecycle/service.go:338-410 | The whole outcome: rejected, without the lock, reuse of a session in use, the end at a takedown that reported an error, or exactly what the activation comes to, with no PGW session opened after such a takedown; other sessions are spared unless they match and may not be reused; a session that must be reused is left alone whichever match the lookup picks |
| AttachFlow.AttachAgain | internal/lifecycle/service.go:215-410 | However often a subscriber with a session in use attaches, with or without an authorization of its own, no PGW session is opened and the session stays as it is |
| AttachFlow.BeginAttach | internal/lifecycle/service.go:215-287 | The same for an attach that authenticates itself, up to its end or to where it must change locks |
| AttachFlow.ResumeAttach | internal/lifecycle/service.go:288-313 | The rest of such an attach in whatever state the others left: it picks its own session only if that matches, and then fails without a PGW session; otherwise it goes exactly as an attach with an authorization does; without the second lock nothing changes and its session stays |
| AttachFlow.ParkedFindsItself | internal/lifecycle/service.go:287-296 | Exactly which attaches find their own session on the second lookup: those whose authentication only filled in a missing IMSI or a missing APN |
| AttachFlow.MACOnlyAttachFindsItself | internal/lifecycle/service.go:287-296 | A run from the empty store: a request with a MAC address only, whose authentication supplies the IMSI, finds its own session and nothing else |
| AttachFlow.HandleExistingBeforeAttach | internal/lifecycle/service.go:1798-1862 | Reuse if and only if the session is in use; otherwise it is taken down first with every cleanup attempted, and the attach is stopped if and only if the takedown reports an error and none that says the PGW no longer knew the context |
| AttachFlow.InUseIffKept | internal/lifecycle/service.go:1864-1884 | Kept are exactly Active sessions with an address, without GTP-U errors and under no other APN, unless the policy is to replace |
| AttachFlow.MatchesAreSame | internal/session/manager.go:812-832 | The lookup of an attach matches exactly the sessions that the guard takes for the same subscriber's |
| AttachFlow.WantedFields | internal/lifecycle/service.go:338-360 | What an attach asks for: the names of the authorization where it has them, then those of the request, then the configured APN |
| AttachFlow.FindAttachExisting | internal/lifecycle/service.go:2022-2029 | Any match may be picked, one that is over is dropped; when some session matches and none that matches is over, one is found |
| AttachFlow.DiscardPreAuthSession | internal/lifecycle/service.go:324-336 | Drops the attach's own session and no other |
| AttachFlow.Detach | internal/lifecycle/service.go:749-760 | Without a session, without the lock, or with a session that is over, nothing happens and the error says which; otherwise exactly the session found is dropped, every cleanup is attempted on it, and an error is returned if and only if a cleanup reported one |
| AttachFlow.DetachFindsByScan | internal/lifecycle/service.go:1981-2001 | With indexes in order: the session of that id if stored, else one with that IMSI, else one with that MAC address, and none only if there is none |
| AttachFlow.HandleGTPUErrorIndication | internal/lifecycle/service.go:1377-1480 | A session is picked unless no stored one has that remote TEID; the error is counted on it; an Active one is taken down with every cleanup attempted unless its lock cannot be had, and anything but a forgotten PGW context is reported |
| AttachFlow.HandlePGWInitiatedDelete | internal/lifecycle/service.go:1482-1511 | Exactly the Active session with that TEID is dropped, with every cleanup attempted; otherwise nothing happens |
| AttachFlow.HandleAAAInitiatedDisconnect | internal/lifecycle/service.go:1513-1540 | Exactly the named session is dropped, unless it is Terminated or Failed, with every cleanup attempted; otherwise nothing happens |
| AttachFlow.HandleAccountingStop | internal/lifecycle/service.go:861-884 | Unless it is Terminating, Terminated or Failed or its lock cannot be had, the session is dropped with every cleanup attempted, and an error is returned if and only if one was reported; otherwise its record only takes over the accounting session |
| SessionStore.ExecSoundIff | internal/session/manager.go:899-925 | An operation keeps every index entry pointing to a stored session that has the key, if and only if it does not set a missing address |
| SessionStore.RunKeepsSound | internal/session/manager.go:899-925 | The same over whole runs |
| SessionStore.LookupsAreHonest | internal/session/manager.go:273-297 | In every run from empty, a lookup answers only with a stored session that has the key now |
| SessionStore.MissingIPOutlivesSession | internal/session/manager.go:147-155 | A missing address once set still answers lookups after its session is gone |
| SessionStore.ExecCompleteIff | internal/session/manager.go:899-925 | Every session stays findable under all its keys if and only if the operation hands out no key another stored session has |
| SessionStore.LookupsEqualScan | internal/session/manager.go:273-297 | In runs where no key is shared, each index lookup equals the scan of the primary map |
| SessionStore.RecordStep | internal/session/manager.go:753-779 | What one operation can do to one record: nothing, its own edit, or its creation |
| SessionStore.RecordFields | internal/session/manager.go:117-221 | Field by field, what each accepted operation makes of the record it names |
| SessionStore.RecordCreated | internal/session/manager.go:79-115 | A new session has its input, no address and no tunnel, and is found under all its keys |
| SessionStore.NewKeysAnswer | internal/session/manager.go:128-221 | A session with a new identity, address or tunnel is found under it at once, and no longer under the address or tunnel before |
| SessionStore.ExpiryIsExact | internal/session/manager.go:256-271 | Expiry removes exactly the sessions whose time is set and over |
| SessionStore.WentThroughAuthorized | internal/session/manager.go:121-145 | A session in or beyond Authorized was in Authorized at some point of the run and still carries both flags |
| SessionManager.Manager.Create | internal/session/manager.go:79-115 | The object graph does what the value model says: a new record under a fresh id, entered under all its keys |
| SessionManager.Manager.Transition | internal/session/manager.go:765-779 | Checks the state machine, applies the edit and moves the state in place, or changes nothing |
| SessionManager.Manager.ApplyAuthResult | internal/session/manager.go:128-145 | Re-indexes the record under its new identity |
| SessionManager.Manager.SetSubscriberIP | internal/session/manager.go:147-155 | Moves the address entry with the address; the indexes stay in order if and only if the address is present or the call is refused |
| SessionManager.Manager.UpdateSubscriberIP | internal/session/manager.go:157-167 | The same, and a missing address leaves no entry |
| SessionManager.Manager.BindTEIDs | internal/session/manager.go:193-205 | Moves the TEID entry with the TEID |
| SessionManager.Manager.ApplyPGWResult | internal/session/manager.go:207-221 | Moves the TEID entry and takes over the PGW addresses |
| SessionManager.Manager.Delete | internal/session/manager.go:223-237 | Terminates and removes the record with its keys, or changes nothing |
| SessionManager.Manager.ExpireInactive | internal/session/manager.go:256-271 | The loop removes exactly the expired sessions and their keys, and returns them |
| SessionManager.Manager.LookupByIMSI | internal/session/manager.go:273-278 | Answers as the value model does |
| AuthCache.ExecRefinesMap | internal/session/manager.go:452-593 | Each operation changes the plain map of entries only at the key it touches, by an update, a deletion or lazy expiry |
| AuthCache.Run | internal/session/manager.go:927-959 | Over every run no index entry is stale: all secondary keys lead to entries of the primary map that own them |
| AuthCache.UpsertRefines | internal/session/manager.go:452-526 | An update writes one key of the plain map and leaves the entry findable under every key it has now, also when its accounting session or NAS changed |
| AuthCache.UpsertCompleteIff | internal/session/manager.go:927-959 | Every entry stays findable under all its keys if and only if the update takes no key from another entry |
| AuthCache.UpsertFields | internal/session/manager.go:452-526 | Field by field: what an update names is in the entry whatever was there, and what it leaves empty stays |
| AuthCache.RenewedEntryIsFound | internal/session/manager.go:452-554 | After an update the lookup under its identity finds the entry at every time before the new expiry |
| AuthCache.LookupOrder | internal/session/manager.go:528-554 | Which entry a lookup looks at, in which order, and what it answers about it |
| AuthCache.LookupMissesNobody | internal/session/manager.go:528-554 | In caches that share no key a failure means there is no such entry, or the one looked at has expired or is for another APN |
| AuthCache.AcctKeysAre | internal/session/manager.go:927-959 | The accounting keys of an entry: its session with or without each half of its NAS |
| AuthCache.AcctOrder | internal/session/manager.go:556-579 | A lookup by accounting session tries the full key, then without the identifier, then without the address, then the session alone |
| AuthCache.DeleteDrops | internal/session/manager.go:581-593 | A deletion drops the entry of the full key, else that of the MAC address, and nothing else |
| AuthCache.LookupValidIsHonest | internal/session/manager.go:528-554 | Answers only with stored, unexpired, APN-compatible entries that share the MAC or IMSI; an exact key decides alone; only expired entries are lost |
| AuthCache.LookupByKeysIsHonest | internal/session/manager.go:556-579 | Answers only with unexpired entries owning one of the keys; without shared keys a failure means that none is left |
| AuthCache.LookupHidesIff | internal/session/manager.go:556-579 | The lookup by accounting session fails if and only if each of its keys that leads to a live entry is owned by an expired entry met under an earlier key |
| AuthCache.LookupFailsIff | internal/session/manager.go:556-579 | The same for any list of keys: it fails exactly when all it meets has expired |
| AuthCache.LiveEntryHidden | internal/session/manager.go:556-579 | A run from the empty cache after which a live entry under one of the keys is not found |
| AuthCache.ExpiredEntryHidesOthers | internal/session/manager.go:556-579 | An expired entry under its full accounting key makes the lookup fail whatever other entries exist |
| AuthCache.Cache.UpsertAuthCache | internal/session/manager.go:452-526 | The pointer maps do what the value model says, the four-way key fan-out included |
| AuthCache.Cache.LookupValidAuthCache | internal/session/manager.go:528-554 | The same for lookups by MAC and IMSI |
| AuthCache.Cache.LookupValidAuthCacheByAcct | internal/session/manager.go:556-579 | The same for the loop over the four accounting keys |
| AuthCache.Cache.DeleteAuthCache | internal/session/manager.go:581-593 | The same for deletion |
| RecoveryLimiter.LimiterIsSafe | internal/lifecycle/service.go:1004-1071 | Over every run with a clock that does not go back: one recovery per subscriber at a time, each at least the cooldown after anything before it, and no minute (T-60s, T] with more than the bound |
| RecoveryLimiter.LimiterIsExact | internal/lifecycle/service.go:1004-1071 | After every such run a recovery is let through if and only if none is going on for the subscriber, everything before is a cooldown ago, and the last minute has room: the limiter refuses no more than it must |
| RecoveryLimiter.FaithfulStep | internal/lifecycle/service.go:1043-1049 | The compacted list answers every later question as the full history does |
| RecoveryLimiter.Record.Compact | internal/lifecycle/service.go:1043-1049 | Compaction within the backing array keeps exactly the attempts of the last minute, in order, and writes no slot beyond the list |
| RecoveryLimiter.Limiter.BeginRecovery | internal/lifecycle/service.go:1004-1058 | Accepts if and only if enabled, not in flight, cooled down and within the bound; only that subscriber's record changes |
| RecoveryLimiter.Limiter.FinishRecovery | internal/lifecycle/service.go:1060-1071 | Starts the cooldown of that subscriber and nothing else |
| GTPTransactions.CloseStrandsNobody | internal/gtp/gtp.go:248-266 | In every interleaving: once failPending has run, everyone who waits has a value to take, nobody can register, and the table stays empty |
| GTPTransactions.AnswersAreOwn | internal/gtp/gtp.go:449-514 | Success comes only with a response of the caller's own sequence and expected type; no two registered transactions share a sequence |
| GTPTransactions.ResponseReachesItsCaller | internal/gtp/gtp.go:449-514 | In every run a response with the sequence and type a waiting caller expects is what that caller returns with, and its entry is gone |
| GTPTransactions.OtherMessagesAreReported | internal/gtp/gtp.go:562-623 | A message of another type makes that caller return a type error; a message for a sequence nobody waits for changes nothing |
| GTPTransactions.FirstResponseStays | internal/gtp/gtp.go:562-623 | A response once delivered is what its caller takes, whatever comes after |
| GTPTransactions.InboundRequestsConsumeNoWaiter | internal/gtp/gtp.go:562-623 | Every run ends, for every caller, as the same run without the inbound echo and delete requests, whatever sequence numbers they carry |
| GTPTransactions.DoKeepsConsistent | internal/gtp/gtp.go:488-532 | What every step keeps: until failPending the table holds exactly the registered transactions |
| GTPTransactions.Client.RegisterTransaction | internal/gtp/gtp.go:501-514 | Refuses after close and for a sequence in use, otherwise adds one entry |
| GTPTransactions.Client.UnregisterTransaction | internal/gtp/gtp.go:516-520 | Removes one entry |
| GTPTransactions.FailAll | internal/gtp/gtp.go:522-532 | Offers the error to every transaction once and takes nothing back that was waiting |
| GTPTransactions.Client.FailPendingTransactions | internal/gtp/gtp.go:522-532 | Empties the table after offering the error to each transaction |
| GTPTransactions.Client.HandleIncoming | internal/gtp/gtp.go:562-623 | A response of the expected type reaches the one transaction with its sequence if its channel is empty, another type is reported to it as an error, and nothing else changes; requests touch no transaction |
| SequenceNumbers.NumbersRepeatExactly | internal/gtp/gtpv2.go:83-94 | Under any interleaving of callers two numbers are equal if and only if a multiple of 0x7fffff allocations lies between them, and all lie in range |
| SequenceNumbers.Allocator.Next | internal/gtp/gtpv2.go:83-94 | The compare-and-swap loop hands out the successor of the last number, however many other callers draw between its load and its swap, and loses only attempts that were overtaken |
| TransactionNumbers.NoCallerCollides | internal/gtp/gtp.go:449-514 | Allocator and table together, in every interleaving: as long as each request in flight sees fewer than 0x7fffff further numbers handed out, no caller is ever refused because its number is in use |
| TransactionNumbers.CollidesIff | internal/gtp/gtp.go:501-514 | Registration is refused for that reason if and only if a registered transaction stands a multiple of 0x7fffff allocations away |
| DiameterPending.SendsNeverBlock | internal/diameter/sta_client.go:805-810 | In every interleaving, whatever the identifiers: no channel carries a second value and no send blocks, in particular none under the lock |
| DiameterPending.AnswerReaches | internal/diameter/sta_client.go:805-810 | A waiting request gets the answer found under its identifier, or the failure when its connection goes |
| DiameterPending.DisconnectStrandsNobody | internal/diameter/sta_client.go:470-482 | With fresh hop-by-hop identifiers, after a processed disconnect everyone who waits on that connection has a value to take or one about to be sent |
| DiameterPending.ReusedHopStrands | internal/diameter/sta_client.go:728-732 | Fresh identifiers are needed: a run in which a reused one leaves a request waiting after the disconnect |
| DiameterPending.StrandedExactly | internal/diameter/sta_client.go:728-732 | In any run, a waiting request is left for good without an answer if and only if some step registered its identifier again while it was in the table, or withdrew another request with that identifier |
| DiameterPending.FailAll | internal/diameter/sta_client.go:805-810 | Fails every request of the table; each send finds its channel empty |
| AddressPool.MemoryIPAM.Allocate | internal/ipam/ipam.go:71-95 | A new session gets the least free address; it fails if and only if as many leases exist as usable addresses; a session with a lease gets it again |
| AddressPool.MemoryIPAM.Release | internal/ipam/ipam.go:97-111 | Removes the lease from both maps, or nothing |
| AddressPool.MemoryIPAM.GetStatus | internal/ipam/ipam.go:125-144 | Used and free add up to the number of usable addresses, free is the number of those not leased and never negative |
| AddressPool.MemoryIPAM.Lookup | internal/ipam/ipam.go:113-121 | The lease of a session, never the network or gateway address |
| AddressPool.PoolFull | internal/ipam/ipam.go:71-95 | The pigeonhole argument over the two inverse maps |
| AddressPool.PoolIsRange | internal/ipam/ipam.go:167-178 | Masked octet comparison is a range test, and the broadcast test is base plus size less one |
| AddressPool.IncIPv4 | internal/ipam/ipam.go:180-187 | The in-place ripple-carry increment is plus one modulo 2^32 |
| AddressPool.UsableCount | internal/ipam/ipam.go:156-165 | For prefixes from 1 on the scan ends and counts 2^(32-p) - 2, less one for a gateway among the hosts; a /32 gives 0 |
| AddressPool.ZeroPrefixContainsAll | internal/ipam/ipam.go:156-165 | A /0 pool contains every address, so that the scan would have no end |
| AddressPool.NewMemory | internal/ipam/ipam.go:44-69 | Refuses a gateway outside the pool and a pool without usable addresses, and nothing else; the allocator is over that pool and gateway with that many addresses |
| GTPv2Codec.MsgRoundTrip | internal/gtp/gtpv2.go:32-59 | Every message that encodes decodes to itself, the TEID zero where there is none |
| GTPv2Codec.MsgConverse | internal/gtp/gtpv2.go:96-123 | An accepted message re-encodes to its octets but for the spare bits, or is refused for its sequence |
| GTPv2Codec.IEListRoundTrip | internal/gtp/gtpv2_ie.go:56-91 | A list of elements survives if and only if instances are below 16 and payloads within 65535 octets |
| GTPv2Codec.DecodeEncodeIEs | internal/gtp/gtpv2_ie.go:73-91 | Whatever octets are accepted, encoding the result gives them back but for the high half of each fourth octet |
| GTPv2Codec.DecodeEncodeNodes | internal/gtp/gtpv2_ie.go:73-91 | The same at every depth of Bearer Contexts |
| GTPv2Codec.TreeRoundTrip | internal/gtp/gtpv2_ie.go:56-91 | The same if and only if at every depth of Bearer Contexts |
| GTPv2Codec.FTEIDRoundTrip | internal/gtp/gtpv2_ie.go:169-181 | An endpoint survives if and only if its interface type fits six bits |
| GTPv2Codec.TBCDRoundTrip | internal/gtp/gtpv2_ie.go:233-250 | The digits of a number come back in order, no others, two to an octet |
| GTPv2Codec.EncodeElement | internal/gtp/gtpv2_ie.go:56-63 | The buffer filled by offset holds the element's octets |
| GTPv2Codec.EncodeElements | internal/gtp/gtpv2_ie.go:65-71 | The loop concatenates the encodings |
| GTPv2Codec.DecodeElements | internal/gtp/gtpv2_ie.go:73-91 | The loop over the shrinking slice decodes as the recursive reading does, errors included |
| GTPv2Codec.EncodeMessage | internal/gtp/gtpv2.go:32-59 | The buffer filled by offset holds the message's octets, or the error |
| GTPv2Codec.EncodeTelephonyDigits | internal/gtp/gtpv2_ie.go:233-250 | The two loops keep the digits and pack them |
| GTPv2Codec.HeaderOctets | internal/gtp/gtpv2.go:32-59 | Where version, flag, type, length, TEID and sequence are in an encoded message, number by number in network order |
| GTPv2Codec.ElementOctets | internal/gtp/gtpv2_ie.go:56-63 | Where type, length and instance of an element are |
| GTPv2Codec.BearerContextOctets | internal/gtp/gtpv2_ie.go:56-71 | A Bearer Context is element type 93 around its elements |
| GTPv2Codec.FTEIDOctets | internal/gtp/gtpv2_ie.go:169-181 | Element type 87, the V4 flag over the interface type, TEID and address in their places |
| GTPv2Codec.TBCDOctets | internal/gtp/gtpv2_ie.go:233-250 | Each octet has the earlier digit in its low half; 15 stands for a missing one |
| DiameterCodec.AVPListRoundTrip | internal/diameter/message.go:129-181 | A list of AVPs survives, vendor flags put right, if and only if no AVP without a vendor claims one and every length fits 24 bits |
| DiameterCodec.TreeRoundTrip | internal/diameter/message.go:201-207 | Trees of AVPs survive if and only if at every depth every AVP fits and exactly the grouped codes carry children |
| DiameterCodec.MsgRoundTrip | internal/diameter/message.go:79-127 | A message read from a stream is the one written, the stream goes on right behind it, and the length is a multiple of four |
| DiameterCodec.EncodingIsPadded | internal/diameter/message.go:260-265 | Every list of AVPs encodes to a multiple of four octets |
| DiameterCodec.EncodeOneAVP | internal/diameter/message.go:129-149 | The padded buffer holds the AVP's octets |
| DiameterCodec.DecodeList | internal/diameter/message.go:151-181 | The loop decodes as the recursive reading does, errors included |
| DiameterCodec.AVPOctets | internal/diameter/message.go:129-149 | Where code, flags, length, vendor and data of an AVP are, the length without the padding, and zeros behind |
| DiameterCodec.MsgOctets | internal/diameter/message.go:79-95 | Version 1, and length, flags, command and identifiers of a message in their places |
| MPPE.KeyRoundTrip | internal/radius/mppe.go:65-105 | With any digest function, decryption gives back every key of up to 255 octets; the output is two octets and whole blocks; the three refusals exactly |
| MPPE.AttributeOctets | internal/radius/mppe.go:65-105 | Octet by octet: the salt, then length, key and zeros added to the digest of the secret and the block before, the first of secret, authenticator and salt |
| MPPE.XorOctetBits | internal/radius/mppe.go:65-105 | That addition is bit by bit |
| MPPE.EncryptMPPEKey | internal/radius/mppe.go:65-105 | The loop that reads back the block it wrote before computes the chain |
| Checksum.ChecksumVerifies | internal/accessside/manager.go:197-210 | Writing the checksum into the zeroed field makes the checksum zero whenever the word sum fits 32 bits |
| Checksum.ShortBuffersVerify | internal/accessside/manager.go:197-210 | That holds for every buffer of up to 131074 octets |
| Checksum.ComputeChecksum | internal/accessside/manager.go:197-210 | The accumulating and the folding loop compute the folded word sum, 32-bit wrap-around included |
| Checksum.Fold | internal/accessside/manager.go:206-208 | Folding ends below 2^16, keeps the value modulo 65535, and gives zero only for zero |
| DHCP.OnlyAuthorizedClientsGetAddresses | internal/accessside/dhcp.go:115-190 | Over every run of the session manager: a reply that reads back as Offer or Ack carries the address of a session that is stored, Active, the client's own by MAC, and went through Authorized |
| DHCP.ServedAsAuthorized | internal/accessside/dhcp.go:115-190 | A client with an Active session and address gets an Offer of it for a Discover, an Ack and a lease for a Request of it, a NAK for a Request of another, and nothing otherwise |
| DHCP.RefusedWithoutSession | internal/accessside/dhcp.go:115-190 | Any other client gets a NAK for a stale Request if configured, no lease, and otherwise nothing |
| DHCP.RecoveryGrounds | internal/accessside/dhcp.go:140-236 | Which recovery such a client sets off: of the lost session by a Discover, or from the authorization cache, and none for a client that is served |
| DHCP.FrameFields | internal/accessside/dhcp.go:322-365 | Where a reply frame has its addresses, ports, operation, transaction, offered address, hardware address, cookie and options |
| DHCP.ReplyOptionsReadBack | internal/accessside/dhcp.go:249-261 | Read back, a reply says its type, mask, router, name servers, server, lease, renewal and rebinding times |
| DHCP.RequestIsRead | internal/accessside/dhcp.go:285-320 | A request as clients send it over IPv4 and UDP is read as it is meant |
| DHCP.MACStringDigits | internal/accessside/dhcp.go:238-247 | A hardware address is looked up in lower-case hexadecimal with colons |
| DHCP.RecoveriesAreSpaced | internal/accessside/dhcp.go:192-236 | Recoveries set off for one client or one lost session keep their pause, however often the client asks and whatever the clock does |
| DHCP.AnswerIsGated | internal/accessside/dhcp.go:238-261 | An answer that reads as Offer or Ack was built for the client's authorized session, however configured options overflow their length octet |
| DHCP.NAKReadsBack | internal/accessside/dhcp.go:263-269 | A NAK frame always reads back as a NAK without an address |
| DHCP.OptionsRoundTrip | internal/accessside/dhcp.go:367-390 | Options that fit their length octet read back as what they say, later ones winning, whatever follows |
| DHCP.FrameHeaderVerifies | internal/accessside/dhcp.go:351-358 | The IPv4 header of every frame that is built has checksum zero |
| DHCP.ReadOptions | internal/accessside/dhcp.go:367-390 | The index loop reads options as the recursive reading does |
| DHCP.BuildFrame | internal/accessside/dhcp.go:322-365 | The buffer holds the Ethernet, IPv4, UDP and DHCP parts |
| DHCP.Server.HandleFrame | internal/accessside/dhcp.go:115-190 | The reply to a frame, a lease recorded exactly for a request of the session's own address, and a recovery started exactly for a client without a session after its pause |

## Left out

- Lifecycle.Service.ActivateAuthorizedSession: under interference an update that the store refuses after the PGW answered leaves the PGW context behind, as in the code; the contract says when.
- AttachFlow.Serve: one operation at a time; operations that overlap are the subject of `LockedRuns`, on steps instead of methods.
- AttachFlow.AttachAgain: an attach whose authentication names another subscriber is not followed beyond that point.
- LockExactness.LocksSufficeExactly: attaches that authenticate themselves and disconnections by the AAA server are left out of the runs it speaks of, because with them the locks are not enough, as two more runs show.
- LockedRuns.CoveredRunsAlternate: dynamic authorization and the recoveries it starts are no operations of these runs; the wait for a lock ends when the lock is had or given up.
- SoloRuns.AttachComesUp: an attach whose calls fail is followed on the methods alone, and the steps note reasons in texts of their own.
- DHCP.ReplyOptionsReadBack: for up to 63 name servers; with more the length octet of the option overflows, as in the code.
- AttachFlow.HandleAccountingStop: how the session is found, and the accounting counters, are not modelled; the session found is an argument.
- SequenceNumbers.Allocator.Next: how many numbers other callers draw during one call is bounded by a number of the caller's choice, so that the loop ends.
- DiameterPending.DisconnectStrandsNobody: assumes that a write on a closed connection fails and that hop-by-hop identifiers in flight are distinct; the code counts them modulo 2^32.
- AddressPool.UsableCount: prefix 0 is excluded, because the loop then does not end.
- AddressPool.NewMemory: the same; with prefix 0 the constructor never returns.
- DiameterCodec.TreeRoundTrip: which codes are grouped is an argument, as the decoder does not know it.
- The service and the DHCP server work on the store as a value; that the object graph behaves so is proved for `SessionManager.Manager`.
- Recovery tombstones beyond what the DHCP server looks up in them, dynamic authorization, the EAP exchange and shutdown.
- RADIUS transport and attributes, access point registry, configuration, logging, counters.
- Sockets, netlink, kernel GTP and routing tables: calls that may fail.
- MD5, AES, SHA-1 and HMAC: MD5 is an arbitrary function to 16 octets.
- ARP, the GTP-U forwarder, tickers, backoff and watchdog pacing.
- Fields of sessions and cache entries that are only copied (user name, SSID, class, counters).
- MAC addresses and other identifiers are taken as trimmed and canonical; case folding of APNs is ASCII; keys joined with a bar are tuples.
- APN, PAA, AMBR, QoS and serving network elements: small constructors without a decoder in the code.
