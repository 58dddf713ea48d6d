# Verified model of TG-Proxy-Relay

This project models the stateful parts of the relay in Dafny and proves what they are meant
to keep. `dafny verify dfyconfig.toml` checks all of it.

**Owner control plane** (`ControlState`, `ControlPlane` and the modules between them). The locked
regions of `control_plane.go` are functions from plane to plane in `ControlState`; the class
`ControlPlane` is the object as the program runs it: its loops, the added tokens in an array that is
appended to, cut and filtered in place, the copies that rollbacks need. Every method is proved equal
to its function. A run is any sequence of those regions, of failed writes, of timers that fire late,
and of restarts at any moment, with other regions between the authorization of a client and its
registration. `TokenLedger` says what adding and deleting tokens means, `Migration` and `Pruning`
and `Eviction` what happens to the client directory, `ControlInvariant` and `ControlRuns` what every
run keeps, `ControlSessions` that no session escapes revocation, and `SecretReuse` the one way in
which it can. `Blocks` says how long a block lasts, and `BlockLoss` builds the run in which it is
lost; `SessionLabels` says which record a session stamps when it ends, and builds the run in which
it stamps none. `Flushing` says how many flush timers there can be, and `StepFrames` says what each
step leaves alone. What the operations answer and record is said once more without their functions:
`Registration` for the identity of a request, its admission and the records it leaves, `Creation`
for the owner's token requests up to the client that presents the secret, `Closers` for the closing
functions that deletion, blocking, disconnecting and shutdown hand out, and `Starting` for the state
files that a start refuses. `Text` and `Config` hold the name and token rules all this rests on.

**WebSocket bridge** (section 5 and section 7.4 of RFC 6455). `Bytes` and `Frames` define the client
frame codec on bytes and prove it exact; `FrameReader` is the reading code, bit operations and
64-bit shifts included. `Reassembly` handles fragments, `FrameWriter` the short-write loop and the
shared writer, `Closing` the Close payloads with the check of UTF-8, which `Unicode` proves to
accept the encodings of Unicode characters and nothing else, `Bridge` the two loops between client
and Telegram with end-to-end theorems in both directions, `Answers` what a client is told in each
case, `SharedWriter` the three goroutines that write to the client in any order on one connection,
and `Heartbeat` the ping and pong protocol on two atomics, one atomic operation a step.

**Upstream pool**. `SessionLimiter` has the three admission counters as objects, `EndpointPool` the
cooldown and probe leases, `EndpointRace` one wave of concurrent dials as a step machine of
goroutines, channel, receiver and drain.

**Routes and topology**. `RouteCheck` has the dispatcher and its workers as a step machine, and the
loops that prepare and print the report. `Topology` has the acceptance of signed bundles, and
`TopologyManager` the last-known-good file over refreshes, failed writes and restarts.

Conventions. Times are integers, zero being the empty time in the control plane and the endpoint pool.
SHA-256, Ed25519, base64, JSON and timestamp parsing are fields of a record of functions, so that every
theorem holds for any such functions unless it says more. Drawn ids, secrets, clock readings and the
outcome of every write, dial and read are parameters of the step that uses them.

## What the code does not meet

- A supplied secret is never compared with stored ones (`internal/relay/control_plane.go:347-368`).
  `ControlRuns.RestartExact` shows that the next start succeeds if and only if a stored token's hash
  and id are new, and `ControlRuns.ReusedHashBlocksRestart` the owner's call that ends it.
- Registration compares only the hash of a token that was authorized before the dial
  (`internal/relay/control_plane.go:860-871`). `ControlSessions.RegisterExact` shows that the session
  guarantee survives if and only if the token's id still belongs to a live token, and
  `SecretReuse.SecretReuseEscapes` a run in which a session outlives its token because a later token
  was given the same secret.
- `sanitizeDisplay` trims before it strips and truncates. `Text.SanitizeDisplayFixpoint` shows that
  cleaning twice is cleaning once if and only if no white space was left at the ends,
  `Text.SanitizeDisplayFixpointGiven` says the same of the name as given, and
  `ControlRuns.CreationIdempotent` that exactly these names can be replayed; for the others a
  replay is refused as another name.
- Pruning takes a blocked client together with its block (`internal/relay/control_plane.go:1276-1280`).
  `Blocks.RegistrationBlocks` shows that a registration loses a block if and only if the directory is
  full and the client is first in the order of eviction, `Blocks.StepBlockExact` that nothing else
  does short of lifting the block or deleting the token, and `BlockLoss.BlockLostByPruning` a run from
  a fresh installation after which the blocked device is admitted again.
- The closing function of a session stamps the record under the key it captured
  (`internal/relay/control_plane.go:694-709`). `ControlSessions.UnregisterStamps` shows that the record
  the session is filed under is stamped if and only if that is its key, `SessionLabels.StepLabels` that
  a step changes the key if and only if it is a registration that absorbs the record,
  `SessionLabels.UnrelabelledStampsOwn` that without such a step the session stamps its own record, and
  `SessionLabels.RelabelledStampsNothing` a run from a fresh installation in which a device comes again
  under its new id and the end of its first session leaves no trace.
- One flush timer is meant to be ahead at a time, but a callback clears the handle of whatever timer is
  armed by then (`internal/relay/control_plane.go:1132-1165`). `Flushing.StepOneTimer` shows that there
  comes to be more than one if and only if a critical write or the end of shutdown stops a timer whose
  callback has begun, and `Flushing.TwoTimers` such a run. `ControlRuns.WriteBehindLosesNothing` holds
  all the same.
- A refresh compares with the generation in memory, not in the file
  (`internal/relay/topology_manager.go:140`). `TopologyManager.FileGoesBackExact` shows that the file's
  generation goes down if and only if an accepted bundle between the two replaces it,
  `TopologyManager.FileGoesBack` such a case after a replacement that reported an error, and
  `TopologyManager.FileNeverGoesBack` that it never goes down when replacements report none.
- A clock set back by more than the five minutes of tolerance can keep the topology file from loading;
  `TopologyManager.RestartExact` gives the condition, and `TopologyManager.ClockSetBack` the readings
  on either side of it.
- Section 5.5.1 of RFC 6455 allows no data after a Close, but nothing stops the pump between the
  reader's Close and the closing of the connection (`internal/relay/websocket.go:166-233`).
  `SharedWriter.DataAfterCloseExact` shows that a run breaks the rule if and only if the pump writes a
  chunk on the unbroken line after the reader is done, and `SharedWriter.DataAfterClose` such a run.

## Model

| member | source | states |
|---|---|---|
| Text.SanitizeDisplayFixpoint | internal/relay/control_plane.go:1283-1296 | cleaning a cleaned name changes nothing if and only if no white space was left at its ends |
| Text.SanitizeDisplayFixpointGiven | internal/relay/control_plane.go:1283-1296 | the same of the name as given: the first and the last kept character of the trimmed, stripped, cut text are not white space |
| Text.SanitizeDisplayNotIdempotent | internal/relay/control_plane.go:1283-1296 | a name on which cleaning twice differs from cleaning once |
| Text.JoinInjective | internal/relay/control_plane.go:599-607 | a client key determines its token id and its device id |
| Text.TrimExact | internal/relay/control_plane.go:1283-1309 | trimming removes white space at the ends and leaves a text without any there |
| Text.SanitizeDisplayExact | internal/relay/control_plane.go:1283-1296 | cleaning keeps, of the trimmed text, the first characters that are no control characters, in order, as many as fit |
| Config.NormalizeHashExact | internal/config/config.go:639-668 | exactly the ways to write 64 hexadecimal digits, with or without the prefix, in any case and with white space around, become the valid hash with these digits, and a token without an id of its own is called by the first sixteen |
| Config.SameDigestIsEquality | internal/relay/control_plane.go:288-301 | the comparison of digests is equality on valid hashes |
| Config.StableIdIsStable | internal/config/config.go:659-669 | the stable id of a token with a valid hash is itself a valid id and stable under a second application |
| Config.ValidateBy | internal/config/config.go:670-709 | one pass with two seen-sets accepts exactly the bounded lists of well-formed tokens without repeated hash or id |
| Config.ValidateTokens | internal/config/config.go:670-709 | validation accepts exactly the lists it promises |
| Config.ValidTokensGiveValidBase | internal/relay/control_plane.go:158-171 | validated tokens give the control plane distinct, normal base tokens |
| TokenLedger.AllTokensExact | internal/relay/control_plane.go:932-951 | exactly the stored tokens whose hash is not revoked are visible |
| TokenLedger.AddedBelowCap | internal/relay/control_plane.go:365-367 | the count of visible tokens bounds the stored list, so the limit of 1024 protects the state file |
| TokenLedger.CreatedIsNew | internal/relay/control_plane.go:328-364 | a creation that is not a replay stores a normal token, and with an idempotency key its id is new |
| TokenLedger.KeyedIdIsNew | internal/relay/control_plane.go:347-364 | an id derived from an idempotency key that is neither visible nor a tombstone is new |
| TokenLedger.AdditionExact | internal/relay/control_plane.go:368-373 | appending a token keeps the stored lists good if and only if its hash and id are new |
| TokenLedger.DeletionKeepsTokens | internal/relay/control_plane.go:424-447 | filtering, revoking and tombstoning keep the stored lists good |
| TokenLedger.DeletionExact | internal/relay/control_plane.go:424-447 | a deletion hides the deleted token and no other |
| Migration.MergeAssociative | internal/relay/control_plane.go:784-808 | merging client records is associative |
| Migration.MergeKeysMoves | internal/relay/control_plane.go:718-783 | merging any list of old keys moves exactly their sessions and records to the new key |
| Migration.MergeKeysStamps | internal/relay/control_plane.go:784-808 | the surviving record carries the least non-empty first and the greatest last stamp of all that were merged |
| Migration.MergeKeysFields | internal/relay/control_plane.go:784-808 | each field of the surviving record is its own if that is not empty, otherwise that of the first old key, in the order of the list, whose record has it, and empty if none has |
| Migration.MergeKeyBlocks | internal/relay/control_plane.go:753-783 | of two blocks that are merged the earlier one is left, under the new key |
| Migration.MigrationConserves | internal/relay/control_plane.go:718-783 | migration keeps every session in its bucket, moves exactly the sessions of merged records, touches no other token, and leaves under the new key a record with the extreme stamps and, in every field, the first text that is not empty |
| Registration.IdentityExact | internal/relay/control_plane.go:504-540 | which device, previous and address ids a request names: identifiers once trimmed, a previous id only from a `dev_` id to another `dev2_` id |
| Registration.AuthorizeExact | internal/relay/control_plane.go:242-265 | a hash authorizes if and only if it is not revoked and some stored token has it, and then that token |
| Registration.AdmissionExact | internal/relay/control_plane.go:620-688 | a session is registered if and only if shutdown has not begun, the hash is still in force and nothing the request names is blocked; it gets a number never given out, and a refusal changes nothing |
| Registration.RegistrationRecords | internal/relay/control_plane.go:646-681 | the record under the request's key is seen now, first seen as before or now, at the request's address, with each cleaned header that is not empty, the old value otherwise, and the cached place when there was no country; every other record stays as migration left it |
| Registration.AbsorptionExact | internal/relay/control_plane.go:718-751 | after a registration no record is left under a previous id, and one under the address's id is gone if and only if it was pruned or its maker, model and address are the device's |
| Registration.SurvivorFields | internal/relay/control_plane.go:718-808 | each field of the record that a migration leaves is the device's own, else the previous id's, else, if its maker, model and address are the device's, that of the record of the address |
| Registration.LocateExact | internal/relay/control_plane.go:1167-1208 | a lookup writes country and city, cleaned unless cached, if and only if the client is known and, for an answer, that is not empty and the address is still the same; it writes nothing else |
| Creation.CreationExact | internal/relay/control_plane.go:302-374 | the answer to every creation: each error exactly for its reason and in its turn, the stored token as a replay, or the new token with the secret it was hashed from, the cleaned name and the given time |
| Creation.SecretAuthorizesExact | internal/relay/control_plane.go:302-374 | right after a creation that succeeds the secret that was handed back authorizes the token of the answer, if and only if that is a replay or the hash of the secret was new |
| Closers.DeletionCloses | internal/relay/control_plane.go:393-482 | a deletion fails exactly for the reasons listed; otherwise it hands out the closers of exactly the live sessions of the token, collects them, and leaves exactly the records of other tokens and their blocks |
| Closers.BlockCloses | internal/relay/control_plane.go:560-597 | a block is stored with the time it is given and hands out the closers of exactly the live sessions of the device; lifting one removes it and hands out none; nothing else changes, and each error has its reason |
| Closers.DisconnectCloses | internal/relay/control_plane.go:542-558 | disconnecting hands out the closers of exactly the live sessions of the device, and changes nothing else |
| Closers.StepHandsOut | internal/relay/control_plane.go:393-827 | in every step exactly the closers that are handed out are added to the collected ones |
| Closers.CollectedWereHandedOut | internal/relay/control_plane.go:393-827 | over any run each collected closer was handed out by a step since the last start |
| Closers.EscapedWereHandedOut | internal/relay/control_plane.go:393-827 | over any run without reused secrets a live session without a live token, or with a blocked key, or after shutdown began, was handed out to be closed by a step since the last start |
| Starting.LoadableExact | internal/relay/control_plane.go:984-1058 | which state files load: version 1 to 3, an identity that is absent or well formed, lists within their limits, every entry well formed, and no block without a client or without a time |
| Starting.StartExact | internal/relay/control_plane.go:158-201 | a start is refused for a file that does not load, for tokens that share an id or a hash, or for another configured identity, in this order; otherwise memory is the file, or empty, in the current version and under the configured identity, else the file's, else a new one |
| Pruning.PruneExact | internal/relay/control_plane.go:1243-1281 | pruning does nothing below the cap, otherwise leaves one place free, evicts idle clients before live ones and longest unseen first, and removes blocks exactly with their clients |
| Pruning.PruneKeepsGood | internal/relay/control_plane.go:1243-1281 | a pruned directory is below its cap and its blocks are blocks of kept clients, unchanged |
| Blocks.RegistrationBlocks | internal/relay/control_plane.go:639-646 | an admitted registration loses the block of a client if and only if the directory is full and that client is the first to be evicted; other blocks keep their stamps |
| Blocks.StepBlockExact | internal/relay/control_plane.go:302-859 | over any step a block is gone if and only if the owner lifted it, its token was deleted, or its client was evicted |
| Blocks.RunKeepsBlock | internal/relay/control_plane.go:639-645 | a block survives every run short of those steps, restarts and failed writes included, and meanwhile every request that names the device is refused |
| BlockLoss.BlockLostByPruning | internal/relay/control_plane.go:1243-1281 | a run from a fresh installation that fills the directory, after which one registration evicts a blocked client and its device is admitted |
| Eviction.SortBySeen | internal/relay/control_plane.go:1266-1275 | the sort returns the same keys ordered by last sighting |
| Eviction.JoinedOrder | internal/relay/control_plane.go:1253-1280 | idle clients sorted, then live clients sorted, is an eviction order |
| Eviction.OrderExists | internal/relay/control_plane.go:1243-1281 | every directory has an eviction order |
| ControlInvariant.GoodDiskStarts | internal/relay/control_plane.go:953-1058 | a good state passes every check of loading and of the comparison with the configuration, under the same identity |
| ControlInvariant.StepInv | internal/relay/control_plane.go:302-859 | every locked region, callback and restart keeps the invariant when stored tokens are new |
| ControlInvariant.InvRestarts | internal/relay/control_plane.go:158-201 | in every state that satisfies the invariant the next start succeeds, finds the tokens and blocks in force, and restores the invariant |
| StepFrames.StepFrame | internal/relay/control_plane.go:242-859 | which steps may change tokens, tombstones, blocks, sessions, collected closers and authorizations, and that no step but a restart forgets that the file was written |
| ControlRuns.RunInv | internal/relay/control_plane.go:302-859 | the invariant holds after every run |
| ControlRuns.RestartExact | internal/relay/control_plane.go:347-373 | after any step the next start succeeds if and only if a token stored by that step had a new hash and id |
| ControlRuns.ReusedHashBlocksRestart | internal/relay/control_plane.go:347-373 | creating a token with the secret of a configured one is accepted and makes the next start fail |
| ControlRuns.RestartAlwaysSucceeds | internal/relay/control_plane.go:953-1058 | after any run with new tokens the next start succeeds with the same tokens, revocations, tombstones, blocks and identity |
| ControlRuns.OwnerMutationsAtomic | internal/relay/control_plane.go:365-598 | the functions that the three owner mutations are proved equal to leave the whole state as it was on every refusal and failed write, and have it on disk on every success |
| ControlRuns.WriteBehindLosesNothing | internal/relay/control_plane.go:1120-1165 | after the first write clean memory equals the file, and dirty memory has a callback pending until shutdown, however late stopped timers run |
| ControlRuns.FlushDelivers | internal/relay/control_plane.go:1147-1165 | a pending callback leaves memory alone, brings the file up to it, or leaves the file and arms another callback |
| ControlRuns.ShutdownDelivers | internal/relay/control_plane.go:844-858 | the last write of shutdown leaves nothing dirty and, for dirty memory or once anything was written, a file that holds all of memory |
| ControlRuns.ShutdownSaves | internal/relay/control_plane.go:844-858 | once a process, the first or one after a restart, has written its state, a shutdown after any run of it, however late its timers, leaves a file that holds all of memory if its write succeeds |
| ControlRuns.PreparedIsSynced | internal/relay/control_plane.go:203-216 | the write with which a process prepares puts it in that position |
| Flushing.StepOneTimer | internal/relay/control_plane.go:1120-1165 | while at most one flush callback is ahead, a step leaves it so if and only if it does not stop a timer whose callback has begun |
| Flushing.FromStartOneTimer | internal/relay/control_plane.go:1120-1165 | from a first start, over any run in which no timer is stopped that late, restarts and failed writes included, at most one callback is ahead |
| Flushing.TwoTimers | internal/relay/control_plane.go:1120-1165 | for any state with a callback that has begun and two live sessions, a run after which two timers are armed |
| Flushing.ShutdownArmsNone | internal/relay/control_plane.go:1132-1165 | once shutdown has begun no step makes the callbacks that are ahead more |
| ControlRuns.RunAppends | internal/relay/control_plane.go:431-447 | revocations and tombstones only grow, and an id becomes a tombstone only by its own deletion |
| ControlRuns.DeletionRevokes | internal/relay/control_plane.go:419-470 | a deleted token is not visible, authorizes no more, and its id or hash is recorded |
| ControlRuns.RevocationPermanent | internal/relay/control_plane.go:932-951 | a revoked hash authorizes at no later time, through runs and restarts |
| ControlRuns.TombstonePermanent | internal/relay/control_plane.go:347-350 | a deleted idempotency key errors at every later time and changes nothing |
| ControlRuns.RunKeepsToken | internal/relay/control_plane.go:932-951 | a visible token stays visible through any run that does not delete it |
| ControlRuns.ReplayExact | internal/relay/control_plane.go:347-364 | a repeated keyed request returns the stored token if and only if its name has no white space at the ends |
| ControlRuns.CreationIdempotent | internal/relay/control_plane.go:347-373 | after a keyed creation and any run short of deleting the token, the same request stores nothing and returns the same token, if and only if the cleaned name is tight |
| ControlSessions.RegisterExact | internal/relay/control_plane.go:631-672 | a registration keeps the session guarantee if and only if the authorized token's id still belongs to a live token |
| ControlSessions.DeleteGuarded | internal/relay/control_plane.go:393-480 | deleting a token collects the closer of every session it leaves without a live token |
| ControlSessions.BlockGuarded | internal/relay/control_plane.go:560-597 | blocking a device collects the closer of every session with its key |
| ControlSessions.StepGuarded | internal/relay/control_plane.go:302-859 | every step keeps the session guarantee when secrets are never reused |
| ControlSessions.NoSessionEscapes | internal/relay/control_plane.go:631-711 | after any run without reused secrets each live session has a live token and an unblocked key, or its closer was collected |
| ControlSessions.NothingAfterShutdown | internal/relay/control_plane.go:635-638 | nothing is registered once shutdown has begun |
| ControlSessions.RunRegistersNothing | internal/relay/control_plane.go:635-638 | over any run after shutdown has begun no session id is given out and every live session was live before |
| ControlSessions.UnregisterStamps | internal/relay/control_plane.go:694-709 | the closing function removes its session and stamps exactly the record under the key it captured, which is the session's own if and only if no migration relabelled it |
| SessionLabels.RegistrationLabels | internal/relay/control_plane.go:646-673 | a registration begins a session filed under the key it captures, gives another session the new key if and only if its record is absorbed, and changes no captured key |
| SessionLabels.StepLabels | internal/relay/control_plane.go:302-859 | over any step that a session survives its captured key stays, and the key it is filed under changes if and only if the step is a registration that absorbs its record |
| SessionLabels.UnrelabelledStampsOwn | internal/relay/control_plane.go:694-709 | after any run in which a session is not relabelled its end stamps the record it is filed under and no other |
| SessionLabels.RelabelledStampsNothing | internal/relay/control_plane.go:694-709 | a run from a fresh installation with an upgrade of the device id, after which a session is filed under the new key, has captured the old one, and ends without changing the stamp of the surviving record |
| SessionLabels.UpgradeExists | internal/relay/control_plane.go:504-528 | there are requests of one device under an old and a new id |
| SecretReuse.SecretReuseEscapes | internal/relay/control_plane.go:860-871 | a run with a reused secret in which a session stays open, uncollected, although its token is gone and its hash authorizes nobody |
| ControlPlane.FilterInPlace | internal/relay/control_plane.go:424-430 | the filter in the array that holds the tokens puts those without the hash at its front, in order, and leaves the rest of the array as it was |
| ControlPlane.MergeTrackedClient | internal/relay/control_plane.go:784-808 | the branches of the merge compute the merged record: a field of the destination is replaced by the source's only if it is empty, the first stamp is the lesser that is not empty and the last one the greater |
| ControlPlane.EvictionCandidates | internal/relay/control_plane.go:1253-1275 | splitting and sorting the clients gives an eviction order |
| ControlPlane.Open | internal/relay/control_plane.go:158-201 | opening succeeds, or fails with the same error, as the start function says |
| ControlPlane.ControlPlane.Persist | internal/relay/control_plane.go:1060-1119 | a write replaces the file by memory or leaves it alone |
| ControlPlane.ControlPlane.PersistCritical | internal/relay/control_plane.go:1120-1131 | a critical write stops the timer and clears the dirty flag only when it succeeds |
| ControlPlane.ControlPlane.ScheduleClientPersist | internal/relay/control_plane.go:1132-1146 | scheduling marks memory dirty and arms one timer unless one is armed or shutdown has begun |
| ControlPlane.ControlPlane.FlushClientState | internal/relay/control_plane.go:1147-1165 | the callback clears the handle, writes dirty state and arms again on failure |
| ControlPlane.ControlPlane.AllTokensLocked | internal/relay/control_plane.go:932-951 | the loop over base and added tokens returns the visible tokens |
| ControlPlane.ControlPlane.AuthorizeClient | internal/relay/control_plane.go:242-265 | the authorized token is the visible one with the presented hash |
| ControlPlane.ControlPlane.StoreToken | internal/relay/control_plane.go:368-372 | appending in the array, which may move it, and cutting it again when the write fails leaves the whole state as it was or the token on disk |
| ControlPlane.ControlPlane.CreateToken | internal/relay/control_plane.go:302-374 | the method computes the creation function: checks, replay, limit, append, write and rollback |
| ControlPlane.ControlPlane.RevokeToken | internal/relay/control_plane.go:419-447 | the added tokens are overwritten where they are; a limit met afterwards restores the lists from the copy |
| ControlPlane.ControlPlane.CommitDeletion | internal/relay/control_plane.go:448-470 | records and blocks of the token go; when the write fails lists, records and blocks are put back |
| ControlPlane.ControlPlane.DeleteFound | internal/relay/control_plane.go:419-470 | with the copy made before the filter, every error leaves the state as it was although the array was overwritten |
| ControlPlane.ControlPlane.DeleteToken | internal/relay/control_plane.go:393-482 | the method computes the deletion function, and every error, from the first check to the failed write, leaves the whole state as it was |
| ControlPlane.ControlPlane.WriteBlock | internal/relay/control_plane.go:573-588 | the block is set or lifted and written, and put back with its old stamp when the write fails |
| ControlPlane.ControlPlane.SetDeviceBlocked | internal/relay/control_plane.go:560-597 | the method computes the blocking function with its rollback and its collected closers |
| ControlPlane.ControlPlane.DisconnectDevice | internal/relay/control_plane.go:542-558 | the method collects exactly the sessions of the device |
| ControlPlane.ControlPlane.PruneClients | internal/relay/control_plane.go:1243-1281 | the method prunes by an eviction order |
| ControlPlane.ControlPlane.MergeClientKey | internal/relay/control_plane.go:753-783 | the method merges one old key and relabels its sessions |
| ControlPlane.ControlPlane.MigrateClientIdentity | internal/relay/control_plane.go:718-741 | the method merges all old keys of an identity |
| ControlPlane.ControlPlane.RegisterSession | internal/relay/control_plane.go:620-688 | the method computes the registration function: refusals, pruning, migration, record, session, and the place found in the cache |
| ControlPlane.ControlPlane.UnregisterSession | internal/relay/control_plane.go:694-709 | the closure removes its session wherever migration left it, once, and stamps the record under the key it captured |
| ControlPlane.ControlPlane.LocationFromCache | internal/relay/control_plane.go:1173-1182 | a cached place is recorded as it is for a known client, and marks memory dirty |
| ControlPlane.ControlPlane.LocationResolved | internal/relay/control_plane.go:1190-1207 | a place that is not empty is cleaned and recorded if the client is known and its remote address is still the one that was looked up |
| ControlPlane.ControlPlane.ShutdownBegins | internal/relay/control_plane.go:810-827 | shutdown bars registration and hands out the closers of exactly the live sessions |
| ControlPlane.ControlPlane.ShutdownFinishes | internal/relay/control_plane.go:844-858 | shutdown stops the timer and writes dirty state |
| Frames.ParseEncode | internal/relay/websocket.go:404-463 | parsing the canonical encoding of a legal frame under any mask returns the frame and leaves the rest unread |
| Frames.ParseSound | internal/relay/websocket.go:404-463 | accepted bytes are the canonical encoding, under their own mask, of the legal frame returned |
| Frames.ParseExact | internal/relay/websocket.go:404-463 | the accepted inputs are exactly the encodings of legal frames |
| Frames.EncodeUnambiguous | internal/relay/websocket.go:404-463 | no input starts with two encodings |
| Frames.PrefixTruncated | internal/relay/websocket.go:404-463 | a proper prefix of a legal frame is never refused, only waited for |
| FrameReader.ByteReader.ReadFull | internal/relay/websocket.go:405-408 | a full read fills the buffer and advances, or consumes what is left and fails |
| FrameReader.Unmask | internal/relay/websocket.go:459-461 | the in-place loop leaves every byte combined with its byte of the mask |
| FrameReader.LongLength | internal/relay/websocket.go:435-442 | eight 64-bit shifts push out the short length and leave the big-endian number |
| FrameReader.ReadLength | internal/relay/websocket.go:422-446 | the length code returns the parsed length or its refusal, having read just its bytes |
| FrameReader.ReadClientFrame | internal/relay/websocket.go:404-463 | the reader returns what the codec says and leaves the same bytes unread |
| Reassembly.DeliveryExact | internal/relay/websocket.go:331-369 | however messages are cut and wherever control frames fall, control frames are delivered as they come and messages whole and in order |
| Reassembly.DeliveryIffFits | internal/relay/websocket.go:357-359 | a stream is delivered to its end if and only if every message fits the limit; otherwise it ends with 1009 at the first that does not |
| Reassembly.DeliverOversized | internal/relay/websocket.go:355-369 | an oversized message is refused after exactly the control frames before the piece at which it outgrows |
| Reassembly.AcceptedAreItems | internal/relay/websocket.go:331-369 | frames that are accepted to the end are whole items followed by a begun message, and the events are those |
| Reassembly.NothingLost | internal/relay/websocket.go:331-369 | delivered bytes and buffer are all data bytes read, and neither message nor buffer exceeds the limit |
| Reassembly.DeliveryOnBytes | internal/relay/websocket.go:331-463 | the same delivery on encoded bytes under any masks |
| Reassembly.SessionByEvents | internal/relay/websocket.go:331-369 | taking events one at a time gives the whole stream |
| Reassembly.ClientFrameReader.NextEvent | internal/relay/websocket.go:331-380 | the loop returns the first event of what is left to read, or the error, and leaves the state behind it |
| FrameWriter.WriteAll | internal/relay/websocket.go:593-604 | under any short writes and errors a first part is sent, and all of it on success |
| FrameWriter.Header | internal/relay/websocket.go:569-587 | the header has the final bit, the opcode and the shortest length |
| FrameWriter.SendFrame | internal/relay/websocket.go:569-592 | a first part of the encoded frame is sent, and all of it on success |
| FrameWriter.ParseEncodeOut | internal/relay/websocket.go:569-592 | a legal server frame is read back by section 5.2 of RFC 6455 with nothing of the rest consumed |
| FrameWriter.ParseEncodeOuts | internal/relay/websocket.go:301-312 | a concatenation of legal frames is read back as those frames |
| FrameWriter.WebsocketWriter.WriteFrame | internal/relay/websocket.go:301-312 | until the first error the connection has received exactly the logged frames; then the log is fixed |
| Closing.OwnCloseValid | internal/relay/websocket.go:314-322 | a Close the relay builds passes its own check if and only if the code may be sent and the cut leaves well-formed UTF-8 |
| Closing.AsciiCloseValid | internal/relay/websocket.go:314-322 | with a valid code and an ASCII reason it passes |
| Closing.CloseSendable | internal/relay/websocket.go:314-322 | such a Close is a legal frame of at most 125 bytes that passes the check |
| Unicode.Utf8Exact | internal/relay/websocket.go:465-480 | a Close reason is accepted as text if and only if it is the encoding of a sequence of Unicode characters (section 3 of RFC 3629) |
| Bridge.FirstEventReportable | internal/relay/websocket.go:331-402 | every byte stream yields deliverable events and an error whose Close may be sent |
| Bridge.RepliesSendable | internal/relay/websocket.go:193-231 | every reply to every client stream is legal, and every Close among them passes the relay's own check |
| Bridge.Handle | internal/relay/websocket.go:200-231 | one event sends to Telegram and to the client what it calls for |
| Bridge.ReadLoop | internal/relay/websocket.go:191-233 | unless a write fails, Telegram was sent and the client answered exactly what the stream calls for; when Telegram's write fails the client is told |
| Bridge.PumpLoop | internal/relay/websocket.go:166-186 | the frames logged are those the reads call for, all of them unless a write failed |
| Bridge.PumpKeepsBytes | internal/relay/websocket.go:166-186 | the data in those frames is the bytes read from Telegram |
| Bridge.ClientReceivesTelegram | internal/relay/websocket.go:166-186 | a client that decodes the relay's output finds the bytes from Telegram, however they were cut |
| Bridge.TelegramReceivesClient | internal/relay/websocket.go:191-207 | a client's messages reach Telegram as one byte stream in order, whatever the fragments, masks and pings |
| Answers.CloseOutExact | internal/relay/websocket.go:314-322 | a Close of the relay carries its code in two bytes and its reason character by character |
| Answers.CloseReplyExact | internal/relay/websocket.go:465-496 | a Close of the client is answered with itself, or with 1002 for a single byte or a code that may not be said, or with 1007 for a reason that is not text; a Close without payload with one without |
| Answers.HeaderRefusals | internal/relay/websocket.go:404-463 | the refusals that the two header bytes decide: reserved bits, reserved opcode, no mask, fragmented control frame, each with 1002 and its reason |
| Answers.OverlongFrame | internal/relay/websocket.go:404-463 | a data frame over the limit is refused with 1009 and a control frame over 125 bytes with 1002 as soon as its header is there |
| Answers.AcceptRefusals | internal/relay/websocket.go:331-369 | which well-formed frames are refused where they come, with which code: text, a message begun within another, a continuation of none, and 1009 for a message that outgrows the limit |
| Answers.TrafficExact | internal/relay/websocket.go:191-233 | what a stream calls for, one frame at a time: a read error is reported with its own code, the end of the input with 1002, a message goes up, a ping is echoed, a Close is answered and ends it |
| Answers.PingsAreEchoed | internal/relay/websocket.go:191-233 | every ping of a client is echoed with its payload, in order, wherever it falls between the pieces of messages and whatever the masks |
| Answers.OversizedIsTold | internal/relay/websocket.go:331-402 | a client whose message outgrows the limit is told so with 1009, after the echoes of the pings that came before |
| Answers.PumpExact | internal/relay/websocket.go:166-186 | Telegram's reads go out as one data frame each, and then one Close: 1000 when Telegram closed, 1011 when reading failed |
| SharedWriter.WrittenExact | internal/relay/websocket.go:301-312 | the writes of the step machine are exactly those that the locked write of a frame may perform |
| SharedWriter.EverythingWrittenIsSendable | internal/relay/websocket.go:147-322 | for every interleaving of pump, reader and heartbeat each frame is one the relay may send, and until the first write error the bytes on the line decode to exactly those frames |
| SharedWriter.LineIsInterleaving | internal/relay/websocket.go:147-271 | an unbroken line is an interleaving of three streams: in each goroutine's order, what the reads from Telegram, the client's bytes and the heartbeat call for, less what is still to be written |
| SharedWriter.ClientReceivesAll | internal/relay/websocket.go:166-271 | for every interleaving with pongs, pings and closes, the data that a client decodes and what the pump has still to write are the bytes read from Telegram; all of them once the pump is done |
| SharedWriter.ClientReceivesFirst | internal/relay/websocket.go:166-271 | on a broken line the data that came through whole is a first part of the bytes read |
| SharedWriter.TelegramReceivesFirst | internal/relay/websocket.go:193-207 | for every interleaving and every failure Telegram has been sent a first part of the byte stream that the client's messages carry |
| SharedWriter.DataAfterCloseExact | internal/relay/websocket.go:166-233 | over any run data follows a Close if and only if the pump writes a chunk on the unbroken line after the reader is done |
| SharedWriter.StepClosers | internal/relay/websocket.go:166-233 | in every step an unbroken line carries a Close if and only if the reader or the pump is done |
| SharedWriter.DataAfterClose | internal/relay/websocket.go:166-233 | for any chunk, mask and limit, a run in which the client's Close is answered and data follows |
| Heartbeat.StepInv | internal/relay/websocket.go:221-271 | every atomic operation of reader and heartbeat keeps the invariant |
| Heartbeat.HeartbeatSound | internal/relay/websocket.go:221-271 | over every interleaving a round begins only after a pong for the round before was matched after that began, no newer round is cleared, and only unacknowledged rounds time out |
| Heartbeat.TimerExact | internal/relay/websocket.go:263-269 | when the timer fires the link stays up if and only if a pong was acknowledged for the round |
| Heartbeat.LateClearingHarmless | internal/relay/websocket.go:223-226 | a late compare-and-swap clears only its own round |
| Heartbeat.StalePongIgnored | internal/relay/websocket.go:221-228 | a pong with another number changes nothing |
| Heartbeat.EchoMatches | internal/relay/websocket.go:249-253 | an echo of the current ping is matched |
| SessionLimiter.TokensSumToActive | internal/relay/upstream_pool.go:191-255 | the per-token counts add up to the active count |
| SessionLimiter.PendingWithinActive | internal/relay/upstream_pool.go:224-255 | pending dials never exceed active sessions |
| SessionLimiter.DrainedIsNew | internal/relay/upstream_pool.go:236-255 | when everything is released all counters are zero and no token has an entry |
| SessionLimiter.Limiter.Reserve | internal/relay/upstream_pool.go:209-222 | a reservation is refused exactly at a cap, with its status, and keeps the counters exact and the caps |
| SessionLimiter.Reservation.UpstreamDialDone | internal/relay/upstream_pool.go:224-234 | the first call ends the dial, later calls do nothing, and the counters stay exact |
| SessionLimiter.Reservation.Release | internal/relay/upstream_pool.go:236-255 | the first call ends session and dial, later calls do nothing, and the counters stay exact |
| EndpointPool.StableSortExact | internal/relay/upstream_pool.go:60-69 | the sort keeps the addresses, orders them by retry time and keeps the order of equals |
| EndpointPool.StableSortUnique | internal/relay/upstream_pool.go:60-69 | there is only one stable order |
| EndpointPool.OrderedExact | internal/relay/upstream_pool.go:37-71 | the result is the eligible part of the rotation from the cursor, stably sorted by retry time: the same addresses as often, in order, equals as they come in the rotation; and the cursor moves on by one |
| EndpointPool.OrderedUnique | internal/relay/upstream_pool.go:37-71 | no other list is that |
| EndpointPool.UntrackedRotate | internal/relay/upstream_pool.go:46-71 | while no address is tracked each call returns the whole rotation and begins with the next address |
| EndpointPool.OrderedLeases | internal/relay/upstream_pool.go:49-59 | exactly the endpoints neither cooling down nor leased are granted, and granted tracked ones, and no others, are leased for five seconds |
| EndpointPool.GrantsApart | internal/relay/upstream_pool.go:53-58 | over any run two grants of a tracked endpoint without a report between them are at least five seconds apart |
| EndpointPool.CooldownExact | internal/relay/upstream_pool.go:73-91 | over any run an endpoint is tracked while its latest report is a failure, and the k-th failure in a row blocks it for its cooldown |
| EndpointPool.ShortCooldowns | internal/relay/upstream_pool.go:79-88 | the cooldowns are 1, 2, 4, 8, 16 and then 32 seconds |
| EndpointPool.NoGrantWhileCooling | internal/relay/upstream_pool.go:53-55 | no ordering grants an endpoint during its cooldown |
| EndpointPool.UpstreamPool.TakeOrdered | internal/relay/upstream_pool.go:37-71 | the loop computes the ordering and the new leases |
| EndpointPool.UpstreamPool.ReportSuccess | internal/relay/upstream_pool.go:73-77 | a success forgets the endpoint |
| EndpointPool.UpstreamPool.ReportFailure | internal/relay/upstream_pool.go:79-91 | a failure counts up to six and sets the cooldown |
| EndpointRace.StepInv | internal/relay/upstream_pool.go:126-189 | every step of goroutines, receiver and drain keeps the accounting |
| EndpointRace.NoConnectionLost | internal/relay/upstream_pool.go:126-189 | under every schedule each open connection is held by a goroutine, lies in the channel, or is the one returned |
| EndpointRace.RaceSettles | internal/relay/upstream_pool.go:126-189 | when a wave is over every result was received exactly once and only the returned connection is open |
| EndpointRace.ReportsExact | internal/relay/upstream_pool.go:158-177 | while results are received exactly the uncancelled failures have been reported, in order; with a winner those received before it and then the winner; without one those received before the caller gave up, or all; no address twice |
| EndpointRace.ReportsEnd | internal/relay/upstream_pool.go:158-189 | once the receiver has returned nothing more is reported |
| EndpointRace.NoWinnerMeansNone | internal/relay/upstream_pool.go:158-180 | without a winner and without a cancelled caller every address failed |
| EndpointRace.RunsEnd | internal/relay/upstream_pool.go:126-189 | every schedule is finite |
| EndpointRace.NeverStuck | internal/relay/upstream_pool.go:126-189 | until the wave is over something can move |
| RouteCheck.SortedDCs | internal/relay/server.go:432-446 | the list has the first request of each centre in strictly increasing order |
| RouteCheck.StepInv | internal/relay/server.go:312-368 | every step of dispatcher and workers keeps each entry with one writer |
| RouteCheck.AllComplete | internal/relay/server.go:359-366 | when the workers have left every entry is complete, so the last loop changes nothing |
| RouteCheck.CheckExact | internal/relay/server.go:312-368 | under every schedule each centre gets one pair of verdicts from one party: its own two checks, or the context's error twice |
| RouteCheck.OkOnlyIfChecked | internal/relay/server.go:312-368 | a scope without an error was checked and its own check returned none |
| RouteCheck.RunsEnd | internal/relay/server.go:312-368 | every schedule is finite |
| RouteCheck.NeverStuck | internal/relay/server.go:312-368 | until the check is finished something can move |
| RouteCheck.FormatRouteReport | internal/relay/server.go:370-391 | the text has two lines for every centre in turn, and all is available if and only if no check failed |
| RouteCheck.DigitsExact | internal/relay/server.go:370-391 | the digits of a centre stand for its number, without leading zeros |
| RouteCheck.ReportSound | internal/relay/server.go:312-391 | the report lists centres strictly increasing and says OK only of scopes whose own check succeeded |
| Topology.VerifyExact | internal/topology/bundle.go:46-131 | a bundle is accepted if and only if it is authentic, begins within five minutes and has not expired or may have; the snapshot does not depend on the clock |
| Topology.AcceptedStaysGood | internal/topology/bundle.go:100-131 | accepted bytes are accepted as last known good at any later time with the same snapshot |
| Topology.SignedIsAccepted | internal/topology/bundle.go:82-98 | what was signed is accepted until it expires, and as last known good for ever |
| TopologyManager.NeverDowngrades | internal/relay/topology_manager.go:60-151 | under a clock that does not go back restarts succeed and the generation in use never goes down, even when the sync after the rename fails |
| TopologyManager.NeverDowngradesFromStart | internal/relay/topology_manager.go:38-73 | the same from a first start with or without a file |
| TopologyManager.RestartExact | internal/relay/topology_manager.go:60-72 | at any clock reading a restart succeeds if and only if the file's bundle begins within five minutes of it |
| TopologyManager.ClockSetBack | internal/relay/topology_manager.go:60-72 | one nanosecond more than five minutes before the bundle begins a restart fails, at five minutes it succeeds |
| TopologyManager.RefreshedExact | internal/relay/topology_manager.go:103-154 | a newer bundle that verifies becomes current and the file if its write succeeds, only the file if the write reports an error after the replacement, and otherwise nothing changes; success means that memory has the newest bundle it was told of |
| TopologyManager.EnsuredExact | internal/relay/topology_manager.go:160-179 | a route request is answered with the lookup in what memory has when the answer is given, and fetches if and only if memory has no route and thirty seconds have passed since the last fetch on demand |
| TopologyManager.FetchedRouteIsAnswered | internal/relay/topology_manager.go:160-179 | a request that may fetch and is brought a newer bundle that is written is answered with that bundle's addresses |
| TopologyManager.FileGoesBackExact | internal/relay/topology_manager.go:120-151 | a refresh lowers the generation in the file if and only if it replaces the file by an accepted bundle newer than memory and older than the file |
| TopologyManager.FileGoesBack | internal/relay/topology_manager.go:120-151 | a replacement that reports an error leaves generation 5 in the file over 1 in memory, and a later bundle of generation 3 then overwrites it |
| TopologyManager.FileNeverGoesBack | internal/relay/topology_manager.go:120-151 | over runs in which no replacement reports an error, under a clock that does not go back, file and memory have the same generation, and it never goes down |
| TopologyManager.FetchesApart | internal/relay/topology_manager.go:160-179 | unknown routes send at most one request to the update source in thirty seconds |
| TopologyManager.Manager.PersistSnapshot | internal/relay/topology_manager.go:347-388 | the file is left alone with an error, or replaced with or without one |
| TopologyManager.Manager.Refresh | internal/relay/topology_manager.go:103-154 | the method computes the refresh function |
| TopologyManager.Manager.EnsureRoute | internal/relay/topology_manager.go:160-179 | the method computes the lookup with its on-demand refresh, and in every case, the cooldown included, returns the addresses that the state it leaves has for the route |

## Left out

- HTTP handlers, headers, JSON bodies, the landing page and the command line: plumbing.
- The control plane without a state path or with the owner API disabled, `overview`, and the read-only check `deviceBlocked`: no state of their own.
- A topology manager without an update source: it neither refreshes nor fetches on demand.
- Files: a state write either replaces the file or leaves it; the Windows remove-then-rename path and the 8 MiB limit on the state file are not modelled.
- State files edited by hand or left by older versions whose token hashes are not in normal form.
- Client records are values, so aliasing between record pointers is not captured, and the revoked hashes and tombstones, which are only appended to, are sequences; the added tokens are an array with a length, shared and overwritten as the slice is.
- The location cache, its expiry and eviction, the set of lookups under way and the resolver: a cache hit is a parameter of the registration, and the outcome of a lookup one of the step that records it.
- The two-second wait in `shutdown`: only its first and last locked regions are modelled.
- Case folding beyond ASCII, invalid UTF-8 in names, and failures of the random source.
- Overflow of 64-bit session ids and heartbeat numbers.
- Deadlines, keep-alives and the idle watchdog.
- `io.ReadFull` and `sort.SliceStable` are modelled by what they are documented to do.
- Bridge.ReadLoop: the other users of the shared writer do not interleave with the method; all interleavings are in `SharedWriter`, where a frame is one step because of the writer's lock.
- Bridge.PumpLoop: the same.
- Bridge.ClientReceivesTelegram: it speaks of the pump's own frames; `SharedWriter.ClientReceivesAll` says the same of every interleaving.
- Reassembly.ClientFrameReader: `fragmented` is a value, so neither the buffer that is reused from one message to the next nor the copy that protects a delivered message from it is captured.
- `SharedWriter` does not link one goroutine's end to the closing of the connection for the others: they may go on or fail at any point, which allows more runs than the program has.
- `dialTelegramRoute`: the loop that runs the waves one after another, and the stagger times within a wave.
- `AddressesForRoute`, `configuredDCs` and the checks of addresses, hosts and paths: tables and lookups, taken as functions.
- The jitter in the refresh delay, and the HTTP client of the topology source, whose answer is a parameter.
- Heartbeat.EchoMatches: numbers from 2^64 on are not considered.
