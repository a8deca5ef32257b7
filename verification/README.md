# A verified model of vt-yubi

vt-yubi keeps secrets and SSH keys behind a hardware touch: an SSH agent that prompts for a touch of a YubiKey, a
codec that turns secrets into `vt://mac/...` tokens, an `inject` command that puts the secrets back in place of the
tokens for the run time of one program, and the commands that set all of this up. This project models its four hard
parts and proves what they promise, in Dafny. Run `dafny verify dfyconfig.toml` in this directory. Nothing here was
executed against the original program; everything below is about the model.

| file | what it models |
|---|---|
| `Common.dfy` | options, results, key material, substrings |
| `AuthCache.dfy` | the authorization cache as a class over a map, against the history of grants and clears |
| `AncestorWalk.dfy` | the walk up the process table to the enclosing application |
| `AgentMachine.dfy` | the agent as N tasks on six fair read-write locks, one step per lock operation or stretch of code |
| `AgentGuards.dfy` | which guards are held at which program point |
| `AgentProgress.dfy` | lock order, deadlock freedom, bounded runs |
| `AgentDiscipline.dfy` | every shared read and write happens under its guard |
| `AgentAuthorization.dfy`, `AgentCacheUse.dfy` | every approval over every run has its touch; what the cache answers, exactly |
| `AgentSigningKey.dfy` | a key in use stays in memory |
| `AgentAlone.dfy`, `AgentSimulation.dfy` | one request at a time at the fine level, and that this is the request-level agent |
| `AgentFairness.dfy` | infinite fair runs: every single request finishes while others keep arriving |
| `AgentIdleFlag.dfy`, `AgentLockProtocol.dfy`, `AgentRefusal.dfy`, `AgentFlush.dfy` | the idle flag, lock and unlock, refused unlocks, what a lock wipes |
| `AgentStragglers.dfy`, `AgentLateApprovals.dfy` | requests that passed their check before a lock: which of them still list, add, are approved or sign |
| `AgentLockReturn.dfy`, `AgentLockedMemory.dfy`, `AgentLockedListing.dfy`, `AgentLockedRuns.dfy` | the key map of a locked agent: exactly when it can be filled again, when it can be listed, and two such runs |
| `KeyFile.dfy` | the key file and its seven edits, from the command line and from the agent |
| `Agent.dfy`, `AgentAnswers.dfy` | the agent one request at a time, memory against key file; when each request succeeds |
| `Mpint.dfy` | the signature blob encoder, byte by byte |
| `Base64Url.dfy`, `Codec.dfy` | unpadded base64url, sealing and opening tokens |
| `Scanner.dfy`, `Substitution.dfy` | the token scanner; replacing map entries one after another |
| `Inject.dfy`, `InjectSealed.dfy`, `InjectRace.dfy` | the vector of texts pushed and popped; from sealed tokens to plaintexts; backup, cleanup child and restore |
| `SecretStore.dfy` | the order of writes at init and import, with a crash at any of them |

The agent is modelled at two levels. At the fine level (`Agent...` modules over `AgentMachine`) every acquisition and
release of a lock is a step, tasks interleave freely, the queue of each lock is fair (a waiting writer blocks later
readers), time only grows, process tables change at will, and reading the key file returns any keys at all, because
the file is not protected by any lock. At the request level (`Agent`) each request is one step over memory and key
file. Statements that relate memory and disk are made at the request level only. The two levels are tied together: a
request that runs alone at the fine level leaves and answers what the request level says, so every run of the request
level is one of the fine level (`AgentSimulation`).

Library code enters as function values: AEAD sealing, UTF-8, the one-time-password generator, hashing, OpenSSH key
texts, fingerprints, PIV encryption. What is assumed of them is stated once each: `Codec.Sound`, `KeyFile.Sound`,
`SecretStore.StoreSound`. A touch is an event with a yes or a no.

## What turned out false of the code

These are behaviours of the code as it is; each comes with a lemma that gives the exact condition.

- A locked agent may still list and take keys. List, sign and add give the `locked` guard back before they touch the
  keys, so a request that has passed its check is not stopped by a lock that comes after. `lock` lets nothing new start
  (`AgentLockProtocol.LockedStartsNothing`), but there are runs in which, after the lock has returned, a key is added to
  memory (`AgentLockedRuns.LockedAgentTakesKey`) and in which a list shows keys (`AgentLockedRuns.LockedAgentListsKeys`).
  - From the moment the lock is set: a key can be added before the next unlock if and only if an add stands past its
    check, and a list can be answered from the map, be it empty or not, if and only if a list does
    (`AgentStragglers.ServedWhileLocked`). A decrypt or auth can still be approved if and only if it stands past its
    check; a sign that holds its key can still sign (`AgentLateApprovals.ApprovedWhileLocked`, `SignedWhileLocked`).
  - From the moment the lock empties the map: a key can get into memory before the next unlock if and only if some
    request will fill the map: an add past its check, a reload that is about to read the key file or has read a key from
    it, or a request still to test the idle flag while the flag is up and no reload of an empty file comes before it
    (`AgentLockedMemory.MapStaysEmpty`). If none will, every listing until the unlock is empty. If one will and nobody
    queues for the keys to clear them again, a list past its check can show a key (`AgentLockedListing.FilledMapIsListed`).
  - So "a locked agent has no keys in memory" holds for requests taken one at a time, not for interleaved ones.
- The reload done by `unlock` leaves the idle flag up. The flag therefore does not say whether the map is loaded, only
  that the sweeper emptied it and `ensure_keys_loaded` has not reloaded it since (`AgentIdleFlag.IdleFlagIsExact`,
  `AgentIdleFlag.UnlockReloadLeavesFlag`, `Agent.UnlockLeavesIdleFlag`).
- Idle clears are not always invisible. Adding a key to a map the sweeper has emptied makes the map non-empty, so the
  other keys on disk are never reloaded (`Agent.TransparentStep` gives the exact condition,
  `Agent.AddAfterIdleClearHides` the run). Without such an add, idle clears are invisible
  (`Agent.IdleClearIsTransparent`).
- The order in which the secret map is walked matters exactly when a token is a proper prefix of a match
  (`Substitution.OrderMattersIffPrefix`); plain values and borders are needed as well
  (`Substitution.TokenValuesMatter`, `Substitution.BordersMatter`).
- A cache that is overwritten with the latest grant forgets a longer one when the two lifetimes differ and one
  fingerprint gets both kinds (`AuthCache.KindsMatterUnlessLifetimesAgree`). The agent's fingerprints have fixed kinds,
  so it does not happen (`AgentAuthorization.FingerprintKinds`, `AuthCache.CacheRefinesHistory`).
- inject restores its file exactly when the child was forked or the command could not be started; a failing fork
  leaves the secrets in the file (`InjectRace.FilesAtTheEnd`, `InjectRace.FailedForkLeavesSecrets`).
- An agent that cannot read the key file takes it for empty and overwrites it (`KeyFile.UnreadableUntilOverwritten`,
  `Agent.BackedStep`), and an unlock with an unreadable file leaves an unlocked agent without keys
  (`Agent.UnlockWithoutFile`).
- An import stopped in the middle of its last write leaves a configuration without a readable passphrase, and one
  stopped just before it leaves a usable store with another passphrase and cannot be repeated
  (`SecretStore.StepKeepsConsistent`, `SecretStore.InterruptedImportSticks`).
- A blob can be read back exactly when both lengths fit in 32 bits, because the length is cast to u32
  (`Mpint.BlobRoundTrip`).

## Model

The methods of `KeyFile.File`, `Agent.VtAgent` and `SecretStore.Store` are each proved equal, in state and answer, to
`KeyFile.Edited`, `Agent.Apply` and `SecretStore.Step`; only those with a loop or an error path of their own have a row.

| member | source | states |
|---|---|---|
| AuthCache.EntryHasGrant | src/ssh_agent.rs:134-152 | whatever the map holds for a context and fingerprint is the expiry of some grant for them that no clear has followed, in every history |
| AuthCache.CacheRefinesHistory | src/ssh_agent.rs:126-152 | with a monotone clock and the kind fixed by the fingerprint, the map answers yes at t if and only if since the last clear there was a grant at some g <= t with t < g + the decrypt lifetime if it was for a decrypt, else t < g + the sign lifetime |
| AuthCache.GrantLasts | src/ssh_agent.rs:126-152 | after a grant at g, with any sweeps and any grants for other keys since but no clear and no other grant for this one, the answer at t is yes if and only if t < g + the decrypt lifetime for a decrypt, t < g + the sign lifetime otherwise |
| AuthCache.KindsMatterUnlessLifetimesAgree | src/ssh_agent.rs:134-142 | without fixed kinds the refinement holds for all histories if and only if the sign and decrypt lifetimes are equal |
| AuthCache.SweepingIsInvisible | src/ssh_agent.rs:148-151 | removing all sweeps from any history changes no answer from the end of that history on |
| AuthCache.Cache.constructor | src/ssh_agent.rs:118-124 | a new cache has an empty history and the two lifetimes |
| AuthCache.Cache.Authorized | src/ssh_agent.rs:126-132 | the method answers yes if and only if the history holds an uncleared grant for this context and fingerprint that is younger than the lifetime of its kind |
| AuthCache.Cache.GrantAt | src/ssh_agent.rs:134-142 | inserting appends one grant of this kind to the history; map and history stay in step, so the entry runs for the decrypt lifetime if it is a decrypt, else for the sign lifetime |
| AuthCache.Cache.ClearAll | src/ssh_agent.rs:144-146 | clearing appends a clear, the map is empty |
| AuthCache.Cache.SweepExpired | src/ssh_agent.rs:148-151 | only entries still running stay, and every later answer is as before |
| AncestorWalk.FindAppPid | src/ssh_agent.rs:271-292 | over any process table, cycles included: the first pid above 1 on the parent chain within 64 steps whose path is inside an app bundle, else the direct parent, else the peer, with the casts of the code |
| AncestorWalk.AppPidIsContext | src/ssh_agent.rs:271-292 | what the walk answers is described without the walk: the end of the shortest chain of parents, of fewer than 64 steps and through pids above 1, that ends in a bundle; if there is none, the direct parent, or the peer where it is unknown |
| AncestorWalk.WalkEnds | src/ssh_agent.rs:273-288 | once the chain has ended no later step meets an application |
| AncestorWalk.SameAppSameContext | src/ssh_agent.rs:618-621 | peers whose walks first reach the same application get the same cache context |
| AncestorWalk.AncestorsShareContext | src/ssh_agent.rs:271-292 | every process on the way up to the application has the context of the peer below it |
| AgentGuards.NextKeepsGuards | src/ssh_agent.rs:570-1000 | each step keeps: guards held are those of the program point, write guards exclude all others, queues hold exactly waiting tasks, once each |
| AgentGuards.GuardsAlwaysHold | src/ssh_agent.rs:570-1132 | the guard invariant in every state of every schedule of any number of tasks |
| AgentProgress.AcquiresInOrder | src/ssh_agent.rs:570-1000 | a task asks only for a lock ranked above every lock it holds, so it never asks twice for one |
| AgentProgress.FindRunnable | src/ssh_agent.rs:570-1132 | from any unfinished task, following the holders leads to a task with an enabled step |
| AgentProgress.DeadlockFree | src/ssh_agent.rs:570-1132 | in every reachable state with an unfinished task some task can step, on fair locks where a queued writer blocks later readers |
| AgentProgress.StepDoesWork | src/ssh_agent.rs:570-1132 | every task step lowers the total work left, whatever the world answers |
| AgentProgress.RunsAreBounded | src/ssh_agent.rs:570-1132 | without new requests no schedule is longer than the work left at its start |
| AgentProgress.MaximalRunsFinish | src/ssh_agent.rs:570-1132 | a schedule that cannot be continued has finished every request |
| AgentFairness.HeadTakes | src/ssh_agent.rs:570-1132 | on a fair run whoever heads the queue of a lock takes it |
| AgentFairness.EveryRequestFinishes | src/ssh_agent.rs:570-1132 | on every infinite run on which a task that can step is not passed over forever, every request finishes, however many others keep arriving |
| AgentFairness.FairRunExists | src/ssh_agent.rs:570-1132 | every finite schedule, with whatever requests in it, begins some fair run |
| AgentDiscipline.EveryWriteIsGuarded | src/ssh_agent.rs:570-1132 | no step changes a shared cell without holding its write guard |
| AgentDiscipline.EveryReadIsGuarded | src/ssh_agent.rs:570-1132 | what a step does depends only on cells it holds a guard for |
| AgentAuthorization.AuthAlwaysHolds | src/ssh_agent.rs:604-651 | in every interleaving the cache is the replay of the trace and every task past its touch or hit has it in the trace |
| AgentAuthorization.EntryHasGrant | src/ssh_agent.rs:134-152 | every cache entry of a run has an uncleared grant event in the trace with that expiry |
| AgentAuthorization.HitIsBacked | src/ssh_agent.rs:630-638 | a cache hit has a grant for the same context and fingerprint, of the right kind, touched for, less than the decrypt or sign lifetime old according to its kind, not cleared since |
| AgentAuthorization.FingerprintKinds | src/ssh_agent.rs:691-713 | a key's fingerprint never equals the decrypt name, so sign grants never serve a decrypt nor the reverse |
| AgentAuthorization.ApprovalsAreJustified | src/ssh_agent.rs:604-651 | every approval in every run has its own touch or, except for auth, mode none and unknown peers, a touch-backed live grant for the same fingerprint and for the context that its own peer has in the process table of its look-up: its terminal, or the application around it |
| AgentAuthorization.CachedApprovalsShareContext | src/ssh_agent.rs:604-651 | in every run, an approval without a touch of its own rests on a touched grant to a request for the same key, still running and not cleared, whose peer had the very same context: the same terminal number, or the same application, each in the table of its own look-up |
| AgentAuthorization.FingerprintsNameKeys | src/ssh_agent.rs:691-713 | two requests use the same cache fingerprint if and only if they sign with the same key or both decrypt |
| AgentCacheUse.CacheAnswersExactly | src/ssh_agent.rs:630-638 | in every run, a request that asks the cache goes on without a touch if and only if some uncleared grant for its key and context is younger than the lifetime of its kind; otherwise it is sent to the prompt |
| AgentSigningKey.BorrowedKeysStay | src/ssh_agent.rs:688-771 | in every reachable state a sign between look-up and signature holds exactly the key that memory has under its fingerprint, whatever adds, removals, locks and sweeps the other tasks are at |
| AgentAlone.SignAlone | src/ssh_agent.rs:667-771 | a sign that runs alone ends with its signature if and only if the agent is unlocked, keys can be had, the key is among them and a running grant or a touch allows it; the memory it leaves is spelled out cell by cell |
| AgentAlone.ExtensionAlone | src/ssh_agent.rs:774-853 | alone, an extension is refused by a locked agent; a decrypt is approved by a running grant or a touch, an authentication by a touch only, an encryption needs none, and the cache and the activity time are left accordingly |
| AgentAlone.LockAlone | src/ssh_agent.rs:944-961 | alone, a lock sets flag and hash and empties keys and cache, or changes nothing if the agent is locked already |
| AgentAlone.UnlockAlone | src/ssh_agent.rs:963-1000 | alone, an unlock opens if and only if the agent is locked under this hash, wipes the hash and reloads what is on file |
| AgentAlone.IdleSweepAlone | src/ssh_agent.rs:1085-1112 | alone, a sweep empties the memory and raises the flag if and only if the timeout has passed since the last activity and there are keys |
| AgentAlone.CacheSweepAlone | src/ssh_agent.rs:1118-1124 | alone, a cache sweep keeps exactly the grants still running, with their expiries, and touches nothing else |
| AgentSimulation.RequestAlone | src/ssh_agent.rs:656-1000 | a request that runs alone at the fine level leaves memory, flags and hash as the request-level agent does, and lists, adds and signatures are recorded exactly if that agent answers them |
| AgentSimulation.RequestsAreRuns | src/ssh_agent.rs:656-1112 | every sequence of requests to the request-level agent is a run of the interleaved one that ends in the same memory |
| AgentAuthorization.SignaturesAreApproved | src/ssh_agent.rs:710-771 | every signature follows a justified approval of the same request |
| AgentIdleFlag.IdleStateMeaning | src/ssh_agent.rs:1093-1113 | the flag replayed from the trace is set if and only if the sweeper emptied the map and `ensure_keys_loaded` has not reloaded it since |
| AgentIdleFlag.IdleFlagIsExact | src/ssh_agent.rs:570-592 | whenever nobody holds the keys for writing, the flag is up if and only if the sweeper emptied the map and `ensure_keys_loaded` has not reloaded it since; the reload of an unlock does not count |
| AgentIdleFlag.UnlockReloadLeavesFlag | src/ssh_agent.rs:988-992 | in every run the reload of an unlock fills the map, leaves the flag as it was, and the flag is still exact afterwards |
| AgentLockProtocol.LockedIffPassphrase | src/ssh_agent.rs:944-1000 | whenever nobody holds the lock flag for writing, locked if and only if a passphrase hash is stored, and it is the one of the latest lock |
| AgentLockProtocol.LockedStartsNothing | src/ssh_agent.rs:656-681 | between a lock and any request that passes its check later lies an unlock with the hash of that lock, and no request passes before it; AgentStragglers, AgentLateApprovals and AgentLockedMemory treat the requests that passed before the lock |
| AgentLockProtocol.WorkIsStartedUnlocked | src/ssh_agent.rs:774-860 | every listing, addition, prompt, approval and signature belongs to a request that passed the locked check while the agent was unlocked; the listing or addition itself may come after a lock |
| AgentRefusal.RefusedUnlockChangesNothing | src/ssh_agent.rs:963-984 | over any run: if an unlock request is refused at some point, none of its steps from its arrival on has changed shared memory; `AgentLockProtocol.RefusalStep` says when it is refused |
| AgentStragglers.Serve | src/ssh_agent.rs:656-674 | from any locked state with a list or add past its check there is a continuation, without any unlock, in which it is answered, an added key being in memory |
| AgentStragglers.ServedWhileLocked | src/ssh_agent.rs:855-914 | in every locked state, so when the lock is set: some continuation adds a key before the next unlock if and only if an add stands past its check and short of its add, and some continuation answers a list from the map, empty or not, if and only if a list stands past its check and short of its reading |
| AgentLateApprovals.ApprovedWhileLocked | src/ssh_agent.rs:774-843 | in every locked state: a decrypt or auth under way can be approved before the next unlock if and only if it stands past its check and is not approved yet |
| AgentLateApprovals.SignedWhileLocked | src/ssh_agent.rs:688-771 | a sign that holds its key can sign before the next unlock, one still before its check cannot |
| AgentLockReturn.RunToReturn | src/ssh_agent.rs:944-961 | from any point of a lock after setting the flag it can be run to its return without moving any request that holds and awaits none of its locks; the map is empty then and, once emptied, nobody has moved in the queue for the keys |
| AgentLockedMemory.FillerFillsLater | src/ssh_agent.rs:944-961 | such a request, if bound to bring a key, and once the map is empty every filler, can put a key in memory after the lock has returned and before any unlock |
| AgentLockedMemory.MapStaysEmpty | src/ssh_agent.rs:570-592 | when the lock empties the map: in all continuations up to the next unlock the map stays empty, nothing is added or signed and listings are empty, if and only if no add is past its check, no reload is about to read the file or has read a key, and no request still to test the flag will find it up, a reload of an empty file before it taking it down |
| AgentLockedMemory.CleanLockStaysEmpty | src/ssh_agent.rs:944-961 | if no request stands between its check and its last store of keys when the agent is locked, the map stays empty from the flush to the next unlock |
| AgentLockedRuns.LockedAgentTakesKey | src/ssh_agent.rs:855-907 | for every key and every start with two sessions, a run in which the lock has returned, nobody has unlocked, and the key is added to memory |
| AgentLockedListing.FilledMapIsListed | src/ssh_agent.rs:656-674 | when the lock has emptied the map and nobody queues to clear it: with a request that will fill it, a list past its check, being that request or outside all queues, can show a key after the lock has returned and before any unlock |
| AgentLockedRuns.LockedAgentListsKeys | src/ssh_agent.rs:570-592 | from every start with a key and two sessions, after an idle sweep, a run in which the lock has returned, nobody has unlocked, and a list shows a key of the file |
| AgentFlush.LockFlushesForGood | src/ssh_agent.rs:944-961 | after a lock has returned, in every later state, no task holds a private key looked up before the flush and no sign grant in the cache was made under a keys guard taken before it |
| AgentFlush.LockedCacheIsLate | src/ssh_agent.rs:955-958 | after a lock has returned and until an unlock, every cache entry, decrypt entries included, was granted after the lock's clear by a request that had passed its check before the lock was set |
| KeyFile.File.SshRemove | src/ssh_cli.rs:140-175 | the loop finds all entries whose fingerprint contains the text; none or several are errors that leave the file |
| KeyFile.File.SshComment | src/ssh_cli.rs:185-226 | the entry found is rewritten in the list, errors leave the file |
| KeyFile.File.AddFromAgent | src/ssh_agent.rs:893-904 | the agent appends unless present, taking an unreadable file for an empty one |
| KeyFile.RemoveDropsOne | src/ssh_cli.rs:140-175 | removing succeeds if and only if exactly one fingerprint contains the text and file access works; then exactly that entry goes and the rest keeps its order, otherwise the file stays |
| KeyFile.RemoveUndoesAdd | src/ssh_cli.rs:99-175 | removing a key by its fingerprint gives back the very list it was added to, if no other fingerprint contains that one |
| KeyFile.CommentChangesOne | src/ssh_cli.rs:204-226 | a successful comment change leaves every other entry, and of this one fingerprint, algorithm and key material; comment and stored comment are the new one |
| KeyFile.CommentSucceeds | src/ssh_cli.rs:185-226 | a comment change succeeds if and only if exactly one fingerprint contains the text, its key text can be parsed and written under the new comment, and file access works |
| KeyFile.UnclearPatternIsRefused | src/ssh_cli.rs:151-204 | a removal or comment change to which no entry answers, or more than one, says so and changes nothing |
| KeyFile.EditsSucceed | src/ssh_cli.rs:95-183 | loading gives the entries, or none for a missing file; an add succeeds if and only if the key is supported and can be serialized, the file can be read, and it holds the fingerprint or can be written; removing all succeeds if and only if the file can be written and leaves it empty |
| KeyFile.EditsKeepFile | src/ssh_cli.rs:103-226 | no sequence of command line and agent edits, failing or not, puts a fingerprint in twice or separates an entry from its key |
| KeyFile.UnreadableUntilOverwritten | src/ssh_agent.rs:894-923 | through any sequence of edits an unreadable file stays as it is if and only if none of them is an agent edit or a remove-all that can write |
| KeyFile.FailedEditsAreInvisible | src/ssh_cli.rs:140-226 | in any sequence of edits, leaving out those that report an error changes nothing |
| Agent.VtAgent.LoadAllKeys | src/ssh_agent.rs:414-430 | the loop builds the map of parsable entries, later ones winning |
| Agent.VtAgent.EnsureKeysLoaded | src/ssh_agent.rs:570-592 | reloads exactly when the map is empty and the idle flag is up; a read error changes nothing |
| Agent.VtAgent.AddIdentity | src/ssh_agent.rs:855-914 | state and answer of an add; a failed save keeps the key out of memory |
| Agent.VtAgent.UnlockAgent | src/ssh_agent.rs:963-1000 | state and answer of an unlock request, the reload included |
| Agent.KeysOfKept | src/ssh_agent.rs:414-430 | loading a well-kept file gives exactly its fingerprints, each with its own key |
| Agent.BackedStep | src/ssh_agent.rs:855-942 | a request keeps every key in memory on disk with the same key material if and only if it does not rewrite the file unread while memory holds other keys; failing saves never matter |
| Agent.MemoryAgreesWithDisk | src/ssh_agent.rs:570-1000 | with working I/O, in every reachable state each key in memory is on disk with the same material, and an unlocked agent not idle-cleared has exactly the keys on disk |
| Agent.WorkingAnswers | src/ssh_agent.rs:656-771 | then a list shows exactly the keys on disk and exactly those of them that are of a supported kind can sign once approved, with their own material |
| AgentAnswers.SignAnswers | src/ssh_agent.rs:667-771 | for every state and any file access: a sign is answered with a signature if and only if it was approved, the agent is unlocked, the keys can be had and the one under this fingerprint is of a supported kind; that very key signs |
| AgentAnswers.ListAnswers | src/ssh_agent.rs:656-665 | a list fails if and only if an unlocked, idle-cleared agent cannot read the file; otherwise it shows exactly the keys that can be used, none when locked |
| AgentAnswers.ServingLeaves | src/ssh_agent.rs:570-592 | a list or sign leaves the state alone, but for an unlocked, idle-cleared one, whose memory becomes the last parsable entry of each fingerprint in the file |
| AgentAnswers.AddAnswers | src/ssh_agent.rs:855-914 | an add succeeds if and only if the agent is unlocked, the key is supported and can be serialized, and it is stored already or the file can be written; what is then in memory and on file, and that a failure changes nothing |
| AgentAnswers.RemoveAnswers | src/ssh_agent.rs:916-932 | a removal always succeeds; exactly the key goes from memory, and from the file what can be taken away there |
| AgentAnswers.LockAnswers | src/ssh_agent.rs:944-1000 | a lock succeeds if and only if the agent is unlocked, an unlock if and only if it is locked under the same hash, and what either leaves |
| AgentAnswers.ClearingAnswers | src/ssh_agent.rs:934-942 | removing all keys empties memory, and the file if it can be written; an idle sweep empties memory alone and raises the flag only if there was something to clear |
| Agent.TransparentStep | src/ssh_agent.rs:570-1113 | a request keeps idle clears invisible if and only if it is not an accepted add to a cleared map while the disk holds another key |
| Agent.IdleClearIsTransparent | src/ssh_agent.rs:570-1113 | in every run in which no add falls between an idle clear and the next unlocked list or sign, such a request works on exactly the disk's keys, whatever locks, unlocks and removals lie between |
| Agent.AddAfterIdleClearHides | src/ssh_agent.rs:570-592 | after sweep and add, listing shows the added key alone and changes nothing, for every disk with another key |
| Agent.LockHoldsUntilItsUnlock | src/ssh_agent.rs:944-1000 | from a lock through any requests without an unlock of the same hash nothing is listed, signed or added; that unlock brings back exactly the keys then on disk |
| Agent.UnlockLeavesIdleFlag | src/ssh_agent.rs:988-1000 | after a sweep, a lock and its unlock the agent has all keys back and the idle flag is still up |
| Agent.UnlockWithoutFile | src/ssh_agent.rs:988-996 | an unlock that cannot read the file leaves no keys, and the next request works on the disk's keys if and only if the idle flag was up or the disk is empty |
| Mpint.Buffer.PutMpint | src/ssh_agent.rs:34-49 | the in-place loops append exactly the encoding, leading zeros gone, padded when the top bit is set |
| Mpint.EncodeSignature | src/ssh_agent.rs:33-55 | the blob is the two encodings in order |
| Mpint.BodyValue | src/ssh_agent.rs:36-48 | the body read as two's complement is the unsigned integer of the bytes |
| Mpint.BodyDependsOnInteger | src/ssh_agent.rs:36-37 | two inputs have the same body if and only if they have the same integer |
| Mpint.ShortestForm | src/ssh_agent.rs:36-48 | no two's complement form of the integer is shorter, and none of the same length differs |
| Mpint.BlobRoundTrip | src/ssh_agent.rs:33-55 | decoding the blob gives back exactly both integers if and only if both lengths fit in 32 bits |
| Mpint.BlobInjective | src/ssh_agent.rs:33-55 | equal integer pairs give equal blobs, and below the length limit equal blobs come only from equal pairs |
| Mpint.BlobBound | src/ssh_agent.rs:33-55 | at most 74 bytes for 32-byte and 106 bytes for 48-byte inputs |
| Base64Url.DecodeEncode | src/security.rs:66-92 | decoding an encoding gives the bytes back |
| Base64Url.EncodeDecode | src/core.rs:97-103 | only the encoding of some bytes decodes to them |
| Base64Url.EncodedLength | src/core.rs:82 | the length is the ceiling of 4n/3 |
| Base64Url.CharsAreAlphabet | src/core.rs:80-84 | the characters are those of the URL-safe alphabet, in its order |
| Base64Url.TripleKeepsBits | src/core.rs:80-84 | four characters hold the 24 bits of three bytes, highest first |
| Base64Url.TailKeepsBits | src/core.rs:80-84 | one and two bytes at the end become two and three characters, filled up with zero bits |
| Base64Url.EncodedInGroups | src/core.rs:80-84 | longer byte strings are encoded three bytes at a time |
| Codec.TypeRoundTrip | src/core.rs:49-67 | reading a written secret type gives the type back |
| Codec.TypeNames | src/core.rs:50-58 | exactly the names raw and totp in capital or small letters, 0 and 1 stand for these types |
| Codec.DoEncrypt | src/core.rs:75-95 | the loop seals item by item under its own nonce, errors in place |
| Codec.DoDecrypt | src/core.rs:97-144 | the loop answers item by item what the token opens to, with an empty error, or the reason why it does not open, in its place |
| Codec.FailuresAreTold | src/core.rs:132-141 | as long as the password generator gives a reason when it fails, an answer has an empty error message if and only if the token opens |
| Codec.ItemRoundTrip | src/core.rs:75-144 | opening an emitted token gives the plaintext, the current password, or the refusal of the type |
| Codec.EmittedIsToken | src/cli.rs:510-516 | the scanner finds an emitted token as one match covering the whole string |
| Codec.EmittedLength | src/core.rs:79-83 | 10 + ceil(4(n + 28)/3) characters for an n-byte plaintext |
| Codec.EncryptThenDecrypt | src/core.rs:75-144 | for any list of raw items the plaintexts come back index by index with empty errors, every string between being one whole match of the stated length |
| Codec.OnlyTokensOpen | src/core.rs:97-121 | whatever opens is the canonical token of the sealed bytes |
| Codec.OpensExactly | src/core.rs:97-144 | a token opens to a value if and only if it is vt://mac/0 and the base64url of a 12-byte nonce and a ciphertext that open to that value, or vt://mac/1 and those of a secret whose current password it is |
| Scanner.MatchAt | src/cli.rs:510 | the hand-written loops find the end of the longest match at a position |
| Scanner.MatchEndIsLongest | src/cli.rs:510 | that is the longest match of the declared pattern, and none if there is none |
| Scanner.ScanIsLeftmostLongest | src/cli.rs:511-516 | reported matches do not overlap, each is the longest at its place, and every position where the pattern matches lies in one of them |
| Scanner.FindMatches | src/cli.rs:511-516 | the scanning loop returns the texts of exactly these matches in order |
| Scanner.DoubleSlash | src/cli.rs:510 | two slashes in a row occur in a token only at offset 3 |
| Scanner.TokenInsideToken | src/cli.rs:510 | a token that occurs inside another one is a prefix of it |
| Codec.DataIsBase64 | src/cli.rs:510 | the characters the scanner takes for data are exactly those of the URL-safe alphabet |
| Substitution.SequentialResult | src/cli.rs:549-557 | for every iteration order: the text in which each match reads what the first key of the order that begins it makes of it |
| Substitution.SubstitutionIsSimultaneous | src/cli.rs:549-557 | if no key is a proper prefix of a match, replacing in any order equals swapping every match at once for its own value |
| Substitution.OrderMattersIffPrefix | src/cli.rs:549-557 | for bordered texts, all orders and all plain values give the simultaneous result if and only if no key is a proper prefix of a match |
| Substitution.TokenValuesMatter | src/cli.rs:552-554 | a value that is itself a token makes two orders differ |
| Substitution.BordersMatter | src/cli.rs:552-554 | a stray character before a match makes two orders differ |
| Inject.SecretKeys | src/cli.rs:541-546 | the map's keys are exactly the matches found |
| Inject.LastAnswerWins | src/cli.rs:541-546 | each match maps to the last answer given for it: to its result if that has no error message, else to the message |
| Inject.FoundInOrder | src/cli.rs:509-516 | the tokens sent to the server are the matches of the texts, one text after the other |
| Inject.Substitute | src/cli.rs:550-555 | the loop over an unordered map is a replacement in some order of all its keys |
| Inject.DecryptFromMultiStr | src/cli.rs:504-559 | request errors and wrong reply lengths are errors; otherwise every text is substituted with the one map of all matches, in which LastAnswerWins says what each stands for |
| Inject.PipelineSwaps | src/cli.rs:504-559 | with vt://mac/ tokens set apart from token characters, none a proper prefix of another, and values without vt://, every text comes back with all its matches swapped at once |
| Inject.Process.SetVariables | src/cli.rs:620-623 | popping in reverse gives each variable the value pushed for it and changes no other |
| Inject.Process.WriteOutput | src/cli.rs:625-643 | backup first, then the popped content to the one output; a failing copy or write ends it and leaves what it leaves |
| Inject.Process.Prepare | src/cli.rs:561-643 | errors up to the server's reply change nothing; after that each variable and the output hold the substitution of their own text, a failing copy or write is reported with the variables already set, and on success exactly the substituted arguments are left in order, no pop meeting an empty vector |
| Inject.PlanSucceeds | src/cli.rs:569-618 | inject goes ahead if and only if no other file is given beside a replaced one, the file it works on can be read, and the server answers every token of arguments, content and matching variables |
| Inject.PlanNeedsContent | src/cli.rs:600-607 | it never goes ahead without a readable file to work on, where one is named |
| Inject.OutputMeans | src/cli.rs:625-643 | the output works if and only if the copy and write it needs do; then the replaced file holds the text and its copy the old content, or the output file the text, or it is printed |
| Inject.OriginalSurvives | src/cli.rs:625-637 | however copying or writing ends, the original content of a replaced file is in place or in the backup, and no other file has changed |
| Inject.HasTokenMeans | src/cli.rs:611-613 | a variable is pushed if and only if the pattern matches somewhere in its value |
| Inject.CleanInject | src/cli.rs:561-643 | on such clean texts each variable, each argument and the one output hold their own text with all matches swapped at once for the values LastAnswerWins gives, each in its own place, in any map order and whether or not writing works |
| InjectSealed.ServedSecrets | src/cli.rs:518-547 | with a server that opens token by token, each match maps to what it opens to or to the reason why it does not |
| InjectSealed.EmittedSeals | src/core.rs:75-95 | what the encryption of a raw secret emits seals it in this sense |
| InjectSealed.SealedTextsOpen | src/cli.rs:504-559 | if every token of clean texts seals a plaintext, in prefix, type, nonce and ciphertext, every text comes back with each token exchanged for its plaintext |
| InjectSealed.SealedInject | src/cli.rs:561-643 | then variables, arguments and the one output of the whole command hold the plaintexts in place of their own tokens |
| InjectRace.StepKeepsInv | src/cli.rs:625-716 | each step of parent or child keeps the files in the one state its phase allows |
| InjectRace.OriginalAlwaysThere | src/cli.rs:625-716 | at every point of every interleaving the original content is in the file or in its backup |
| InjectRace.RunsEnd | src/cli.rs:662-716 | no interleaving takes more than ten steps |
| InjectRace.FinishedMeansDone | src/cli.rs:702-716 | a run stops only with both processes done: kill and wait never hang |
| InjectRace.FilesAtTheEnd | src/cli.rs:625-716 | in every finished run the files are exactly restored if and only if the child was forked or the command failed to start, else exactly as written |
| InjectRace.RestoredFiles | src/cli.rs:645-660 | restored means: original content and no backup, or no output file |
| InjectRace.FailedForkLeavesSecrets | src/cli.rs:684-689 | when forking fails the substituted content stays, whatever the timeout |
| SecretStore.Store.WriteSecrets | src/yk_backend.rs:245-272 | the three writes in their order, each ending the run when it fails; SecretStore.InitSucceeds says when all succeed |
| SecretStore.Store.ImportSecret | src/cli.rs:747-784 | state and result of an import, from decoding to the last write |
| SecretStore.WritesAreConsistent | src/yk_backend.rs:245-272 | wherever the writes stop, a configuration means both files decrypt; finished, they hold the drawn passphrase and the twice hashed token |
| SecretStore.InitSucceeds | src/yk_backend.rs:209-273 | an initialization succeeds if and only if there is no configuration, the new key parses and takes both secrets and all three writes finish, whatever the serial; then the three files and the printed token are exactly these |
| SecretStore.InitWithKeySucceeds | src/yk_backend.rs:285-349 | with a given public key it succeeds if and only if, besides, the device gives the test text back; a key it does not answer changes nothing, and serial 0 is stored |
| SecretStore.ImportSucceeds | src/cli.rs:747-784 | with a text that opens to a passphrase, an import succeeds if and only if the initialization does, the passphrase can be sealed to the new key and the last write finishes; it is then what passphrase.enc holds |
| SecretStore.ImportRefuses | src/cli.rs:748-770 | a text that opens to nothing changes nothing, and a configuration that can be read is the reason given if there is one |
| SecretStore.ExportSucceeds | src/cli.rs:720-744 | an export succeeds if and only if there is a configuration and the device opens a passphrase that can be sealed; what it prints opens to it under the same master passphrase |
| SecretStore.StepKeepsConsistent | src/yk_backend.rs:209-349 | every command stopped anywhere keeps the store consistent if and only if it is not an import cut short in the middle of rewriting passphrase.enc |
| SecretStore.AlwaysConsistent | src/yk_backend.rs:209-349 | over every sequence of commands stopped between any writes, config.toml means both .enc files decrypt under the configured key |
| SecretStore.PrintedTokenFits | src/security.rs:33-39 | the printed VT_AUTH decodes to a token whose twice hashed bytes are the key stored in auth_token.enc, for all three commands |
| SecretStore.ExportImport | src/cli.rs:720-784 | export and import under one master passphrase leave a passphrase.enc that decrypts to the original |
| SecretStore.TokensSurviveImport | src/cli.rs:720-784 | a token made before the export is opened with the imported passphrase |
| SecretStore.InterruptedImportSticks | src/cli.rs:748-777 | an import stopped before re-encryption leaves a usable store with the drawn passphrase, and every further command refuses |

## Left out

- AES-GCM, SHA-256, ECDH, ECDSA, one-time passwords, UTF-8 and OpenSSH key texts are function values with stated inverse assumptions; the random nonce of each sealing is a parameter.
- Touch prompts always return, with yes or no; PIN prompts, notifications and PC/SC errors other than a refused or failed operation are not modelled.
- Races on ssh_keys.enc: at the fine level reading the file yields any keys, at the request level each load-modify-save is one step; concurrent command line edits during one request are not modelled.
- A failed write of ssh_keys.enc leaves the old content; the writes of inject's output, of init and of import may fail or be cut short.
- The fine level models sweepers as requests that arrive at any time, any number of them, so it has no sleep intervals; the cache sweeper may also run in mode none, where the cache is always empty.
- Instants are natural numbers, so the overflow of adding a very long lifetime is not modelled.
- Codec.DoDecrypt: requires the character after `vt://mac/` to be a single byte, because the code slices one byte there and panics otherwise.
- Codec.TypeOf: lower-cases ASCII letters only; no other letter can make a one-character type.
- AgentLockedListing.FilledMapIsListed: one way only; with somebody in the queue who clears the map, whether a list of a locked agent can show a key depends on the order of the whole queue.
- AgentLateApprovals.SignedWhileLocked: says nothing of a sign between its check and its key lookup, which signs only if the map still holds its key.
- InjectRace.FilesAtTheEnd: assumes that copying, writing and renaming an existing file succeed (Inject.Process.Prepare does not), that the started command leaves the files alone and that nobody but the parent kills the child.
- Crashes of inject's parent process itself are not modelled.
- SecretStore.AlwaysConsistent: excludes the torn last write of an import, for which SecretStore.StepKeepsConsistent shows that it fails.
- The serial number check is a warning in the code and has no effect here; deleting the store directory between commands is not modelled.
- Audit logs, prompt texts, log redaction, the HTTP server and client, clap parsing, list output, sockets, signals other than the one to the child, and the shell and PAM scripts.
- The proc_pidinfo and /proc readers: the process table is an arbitrary map.
