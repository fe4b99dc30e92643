# Matrix Agent Manager: the agent-credential lifecycle

A Dafny model of how the manager creates, rotates, revokes and removes the Matrix credentials of
agents, and proofs about it. `dafny verify dfyconfig.toml` checks everything.

The system keeps a credential in two stores that fail independently: MAS holds users and personal
sessions, and Kubernetes Secrets hold the agent records. There are four layers.

* **Lifecycle.** `Stores` is the contract of MAS and of the record store: `Legal` says which replies a
  call can get, `Effect` what it changes. Every remote call may fail cleanly, and a session reply may
  lack its token. `Sections` is the discipline of an operation that holds the lock of its agent: which
  calls it may make given what it has learnt (`Permits`), and what it still owes. `Clients` offers the
  calls under that discipline, and `Service` holds the operations themselves, statement by statement.
  Each operation starts from a fresh section and must owe nothing when it returns, which is what `Lock`
  and `Unlock` demand in `Locks`, where many threads interleave call by call. `Locality` shows that a call
  touches its own agent only, so that every operation promises to leave all others alone. `Serial` shows
  that each agent's part of any interleaving is a serial run of its operations. `ServiceRuns` calls any
  sequence of operations on any agents and keeps the invariants of all of them; `History` counts over
  such runs, and `Interleaved` carries that over to interleavings.
* **Secret backend.** `Codec` writes records into Secrets and reads them back, `Backend` is the two-step
  update with other writers in between any two requests, `Listing` the label query.
* **Operator.** `Claims` decides who owns a name, `Operator` is one reconcile pass over `Cluster`,
  `OperatorRuns` are many passes with anything else in between, and `TokenAge` is about the age of tokens in
  such runs. `Cluster` sees the agent service only through `Cluster.Answers`; `ServiceAnswers` derives that
  from what every operation of `Service` promises, and says which operations are refused.
  `Operator.Reconciled` is the whole contract of a pass, whichever resource it is about. A run is defined by
  the part about a resource that stays (`Operator.Passed`). Statements about all runs hold of the
  operator because its passes keep that contract; where a run is claimed to exist, a method makes it by
  calling `Operator.Reconcile` on a cluster whose requests do not fail.
* **Helpers.** `Paging` is the bounded page walk, `StateStore`, `Base64`, `SealedToken` and `Auth` the
  single-use sealed login state. `TokenAge` also holds the lifetime asked for a token.

Six findings about the code came out of the proofs:

* The overflow guard of `durationPointer` compares with the complement of the largest uint32, so it
  never fires; a lifetime of 2^32 seconds or more wraps around. It is exact for every lifetime the
  configuration can express (`DurationIsExact`, `ConfiguredExpiryIsKept`, `DurationWrapsAround`).
* `SetAvatar` moves `UpdatedAt`, by which the operator judges the age of a token. With it no expiry is long
  enough, even if every pass is Ready and passes are one tick apart (`AvatarsBreakTheBound`). Tokens
  outlive the passes if and only if rotation age, gap between passes and drift of `UpdatedAt` together stay
  below the expiry (`DriftDecides`). Without `SetAvatar` the drift is the latency of recording a token
  (`DriftIsLatency`), so rotation age, gap and latency below the expiry keep every token alive
  (`TokensOutlivePasses`).
* If a pass with no generation recorded as restarted fails between writing the Secret and restarting the
  consumers, they are never restarted for that generation: not by any later pass, although later passes
  report Ready (`LostRestartStaysLost`). No fault is needed: a restart target without a usable selector,
  listed before the others, makes the first pass fail there, and once it is mended the next pass is Ready
  (`FirstRestartCanBeLost`). `Operator.Deliver` restarts exactly when `MustRestart` holds. Once a generation
  has been recorded, restarts happen at least once (`ConsumersRestarted`). This concerns resources that
  adopted their agent; where the failed pass created the agent, the next finding applies first.
* If the pass that creates an agent fails before it reports Ready, no later pass succeeds as long as the
  agent exists and `adoptExisting` is not set, because the MAS user ID is recorded only with Ready
  (`UnreportedAgentIsStuck`). `Operator.Reconcile` states exactly when a pass without faults succeeds.
* A spec that does not decode makes a pass store a status built from nothing, because `decode` returns
  before it reads the old one. The recorded MAS user ID is lost, so a resource whose spec is mended
  afterwards runs into the adoption conflict (`UndecodableLosesStatus`).
* An Active record whose session is dead, which a Deactivate that failed halfway leaves behind, cannot be
  rotated at all: regeneration is refused, and a second session is withdrawn because the first cannot be
  revoked again. `Rotate` fails whenever `RotateRefuses` holds; a Revoke first makes it rotatable.

Some bodies use `hide` so that the solver does not unfold a definition a proof does not need; it never
adds facts.

## Model

| member | source | states |
|---|---|---|
| Sections.StepKeepsStructure | internal/agents/service.go:235-306 | any call an operation may make keeps the stores fitting together: names unique, each record on its own user, its session that user's |
| Sections.StepKeepsOwnership | internal/agents/service.go:391-456 | what an operation learnt stays true; in particular the record it loaded is still the stored one |
| Sections.StepKeepsContainment | internal/agents/service.go:205-217 | after any call every live created session is stored, had a failed revoke, or is owed by the running operation |
| Clients.Clients.Ask | internal/agents/service.go:41-77 | every remote call, with whatever legal reply, keeps the three invariants |
| Service.Service.Create | internal/agents/service.go:219-306 | all or nothing: first-generation record with working token on the orphaned or a new user, whose profile shows the display name; on error no record, and if compensation worked no session and a user absent, deactivated or untouched, and one of the two if one compensation call failed; it succeeds if and only if the name is free, the request acceptable and no call failed |
| Service.Service.CreateLocked | internal/agents/service.go:235-305 | the same for the part under the lock |
| Service.CreateIsRetryable | internal/agents/service.go:235-306 | a failed Create whose compensation worked leaves the name as free as before |
| Service.Service.ProvisionUser | internal/agents/service.go:241-261 | a user that exists is taken only if deactivated and unlocked, and keeps its ID |
| Service.Service.OpenSession | internal/agents/service.go:262-296 | either one new session with a token, or all new sessions revoked and the user deactivated if compensation worked; each compensation call is made whatever came of the other |
| Service.Service.StoreNew | internal/agents/service.go:297-304 | the record stored, or the session revoked and the user deactivated, one of them even if the other call failed |
| Service.Service.CleanupProvisionedUser | internal/agents/service.go:205-217 | success exactly when no revoke or deactivate call failed, and then session dead and user deactivated; if one call failed the other took effect |
| Service.Service.SetAvatar | internal/agents/service.go:310-353 | succeeds if and only if no call failed, the record is active, the user ID template is valid and the URL the upload answered is acceptable, and then that URL is stored and shown and nothing else changed but the update time; on error the record is as before, and with at most one fault the profile shows what it showed or what the record says |
| Service.Service.StoreAvatar | internal/agents/service.go:344-351 | the URL persisted, or after a single fault the recorded avatar shown again |
| Service.Service.SyncProfile | internal/agents/service.go:172-181 | success means the profile shows the display name, if profiles are configured |
| Service.Service.Rotate | internal/agents/service.go:385-457 | generation plus one with a token that works and the old session gone; it keeps the session of the record if and only if that is active with a session and the scope is not per device, and otherwise stores a session it created; on error the record is as before, revoked or absent; with at most one fault the old credential still works or nothing of it is left, with two faults no record of a token that died is left; it fails after any fault, for a retired record, an invalid scope where one is needed or a dead session, and otherwise only if MAS refuses a deactivated or locked user |
| Service.Service.IssueReplacement | internal/agents/service.go:400-426 | regeneration keeps the session, otherwise a second one; a reply without token is taken back |
| Service.Service.ReplaceSession | internal/agents/service.go:400-435 | exactly the new session replaces the old one among the live sessions |
| Service.Service.StoreReplacement | internal/agents/service.go:436-455 | the new credential persisted, or with one fault revoked and the record cleared, with two the record cleared or gone |
| Service.Service.Recover | internal/agents/service.go:464-485 | everything Rotate promises, whatever the device check says afterwards; the device is reported exactly if the rotation succeeded and the check, where one is configured, could be made and did not fail |
| Service.Service.Revoke | internal/agents/service.go:496-527 | succeeds if and only if the record is there, not deactivated, and no call failed, and then the record is revoked and the user has no live session; with one fault and no failed revoke call, everything is as before or the record is revoked without its token and no session lives |
| Service.Service.Deactivate | internal/agents/service.go:529-563 | succeeds if and only if the record is there and no call failed, leaving a deactivated record, a deactivated user and no live session, or a record that was deactivated before as it was; with one fault and no failed revoke or deactivate call, everything is as before or the agent is retired and its record cleared |
| Service.Service.Remove | internal/agents/service.go:567-601 | the record goes only after the user is deactivated without live sessions, or if it was deactivated before; succeeds if and only if the record is there and no call failed; with one fault and no failed revoke or deactivate call, everything is as before or the agent is retired and its record cleared |
| Service.Service.RevokeActiveSessions | internal/agents/service.go:625-647 | nil means no live session remains and no call failed, other users' sessions untouched; error only after a fault, and with nothing changed unless a revoke call failed |
| Service.Service.ClearTokenMaterial | internal/agents/service.go:603-623 | under the lock: nil means absent or cleared with the status, error means unchanged |
| Service.ClearedKeepsMetadata | internal/agents/service.go:603-623 | dropping the token material takes session and token and keeps names, avatar, MAS user, generation and creation time |
| Locality.StepIsLocal | internal/agents/service.go:164-170 | a call touches the user, sessions, record and profile of its own agent only |
| Locks.RunsStaySound | internal/agents/service.go:164-170 | all invariants hold in every state of every interleaving |
| Locks.MutualExclusion | internal/agents/service.go:164-170 | at most one operation per agent is in its critical section |
| Locks.NoConflict | internal/agents/kubernetes.go:111-113 | an update is made with the stored version, so the conflict error never occurs |
| Locks.CredentialsAreContained | internal/agents/service.go:442-453 | in every interleaving, while the agent is unlocked each live session created for it is the stored one or had a failed revoke |
| Serial.OperationsTakeTurns | internal/agents/service.go:164-170 | operations of one agent never overlap |
| Serial.ReplayIsLegal | internal/agents/service.go:164-170 | each call of one agent gets a reply that is legal when the agent runs alone |
| Serial.ReplayAgrees | internal/agents/service.go:164-170 | that solo run ends with the same user, sessions and record |
| ServiceRuns.Perform | internal/agents/service.go:164-170 | any one operation, with entry and exit, keeps the invariants of all agents, is a dated step of the history, and leaves every other agent alone; Deactivate and Remove succeed from every reachable state without faults, leaving no live session and a deactivated user |
| ServiceRuns.Run | internal/agents/service.go:219-601 | the same over any sequence of operations on any agents with any faults |
| ServiceRuns.RunCountsRotations | internal/agents/service.go:436-442 | in every such run from an empty store generation is one plus the successful Rotates since the Create, and MAS user and creation time never change |
| ServiceRuns.RunFromNothing | cmd/agent-manager/main.go:98-115 | a new service over empty stores, run through any operations, ends orderly with generations counted |
| Interleaved.SpanAdvances | internal/agents/service.go:164-170 | in any interleaving of threads, an operation of one agent does to its record what it does alone, and keeps retired agents retired |
| Interleaved.InterleavedGenerations | internal/agents/service.go:164-170 | in any interleaving, after each operation of an agent its generation is one plus its successful Rotates |
| ServiceAnswers.AnswersOfPerformed | internal/operator/operator.go:238-273 | what every operation of the service does is an answer the operator's cluster allows |
| ServiceAnswers.CreateAnswers | internal/agents/service.go:219-306 | the service refuses a Create exactly when it does not accept it |
| ServiceAnswers.RotateAnswers | internal/agents/service.go:385-457 | the service refuses a Rotate exactly for a missing or retired record, an invalid scope or a dead session, and beyond that MAS decides about unusable users |
| ServiceAnswers.DeactivateAnswers | internal/agents/service.go:529-563 | the service never refuses a Deactivate: it succeeds if and only if there is a record and no call failed |
| History.GenerationCountsRotations | internal/agents/service.go:436-442 | in every reachable state generation is one plus the successful Rotates since the Create |
| History.IdentityIsKept | internal/agents/service.go:298 | while a record exists its MAS user and creation time never change |
| Codec.RecordRoundTrip | internal/agents/kubernetes.go:169-279 | every record the backend stores reads back as itself with the stored version |
| Codec.ReadIsWritable | internal/agents/kubernetes.go:219-279 | every record the backend reads is one it would store |
| Text.AtoiOfItoa | internal/agents/kubernetes.go:208-247 | generations keep their value through decimal text up to the 64-bit limit |
| Text.TrimSpaceDropsSpace | internal/agents/service.go:767 | trimming takes all white space at both ends and nothing else |
| Text.CanonicalNames | internal/agents/service.go:766-781 | the canonical names are exactly 1 to 63 lower-case letters, digits and hyphens without a hyphen at either end; any accepted name stands for one |
| Backend.VersionPinsContent | internal/agents/kubernetes.go:111-118 | a version found again later proves that nothing was written in between |
| Backend.Backend.UpdateAgent | internal/agents/kubernetes.go:99-124 | with other writers between the requests it is one compare-and-set at one moment; an error means it wrote nothing; it stores if and only if no request failed, the record is acceptable, the Secret read had its type and the expected version, and nobody wrote in between |
| Backend.Backend.ClearTokenMaterial | internal/agents/service.go:603-623 | with other writers: at most three tries, a conflict is reported only after the third; nil means absent, or its write replaced the record as found then by the same without token; without faults and other writers it fails only if the Secret of that name does not read as that agent |
| Backend.ReadStillThere | internal/agents/kubernetes.go:103-119 | if the version of a record that was read is current, its object is unchanged |
| Backend.Backend.CreateAgent | internal/agents/kubernetes.go:84-97 | creates if and only if no request failed, the record is acceptable and no Secret has the name, as the write the listing assumes; an error writes nothing |
| Backend.Backend.DeleteAgent | internal/agents/kubernetes.go:126-138 | removes the Secret of that name and no other, if and only if no request failed, the name is valid and the Secret is there |
| Listing.ListAgents | internal/agents/kubernetes.go:140-163 | the decoded wanted items in order; error exactly when one does not decode |
| Listing.RunKeepsTidy | internal/agents/kubernetes.go:84-138 | after any run of writes each agent Secret decodes to the agent it is named after |
| Listing.ListIsTheMap | internal/agents/kubernetes.go:140-163 | after any run of writes the list succeeds and is exactly what GetAgent sees, each name once, beside Secrets of other types |
| Paging.ListPages | internal/mas/client.go:309-345 | the concatenation of all pages of a same-origin chain that ends within 100 pages, an error exactly otherwise |
| Paging.CompleteIsLongest | internal/mas/client.go:250-271 | every chain of pages is the beginning of the one that ends |
| Paging.WalkIsTheListing | internal/mas/client.go:307-345 | a walk over the active sessions is the complete listing revocation relies on, or an error beyond 100 pages |
| Claims.ClaimOwners | internal/operator/operator.go:184-208 | each claimed name goes to its oldest live claimant, keys deciding ties; no other name is assigned |
| Claims.SortByAge | internal/operator/operator.go:186-193 | ordered by age and a permutation |
| Claims.OwnersIgnoreOrderAndYounger | internal/operator/operator.go:184-208 | the owners do not depend on the listing order, and younger claimants displace nobody |
| Claims.StringOrder | internal/operator/operator.go:192 | the byte order on keys is a strict total order |
| Claims.StringLessIsLexicographic | internal/operator/operator.go:192 | that order is decided by the first byte that differs, a prefix coming first |
| Claims.OwnerIsOldest | internal/operator/operator.go:184-208 | spelled out over creation times, keys and deletion: no live claimant is older than the owner, none as old has a smaller key |
| Claims.KeysTellApart | internal/operator/operator.go:210 | resources with one key have one namespace and name |
| Operator.Operator.EnsureAgent | internal/operator/operator.go:238-273 | Ready only with an active record and a young token; creates, rotates and counts a requested rotation exactly when needed; a conflict exactly for an unadopted or recreated agent whose record could be read; without faults it fails only for an unadopted, foreign or retired record or a refusal of the service |
| Operator.Operator.CheckOwnership | internal/operator/operator.go:247-257 | the adoption gate: a conflict exactly for an unadopted or recreated agent, a failure for a retired one |
| Operator.Operator.EnsureToken | internal/operator/operator.go:239-273 | one Create or Rotate exactly when needed, and it succeeds exactly without fault or refusal |
| Operator.Operator.WriteSecret | internal/operator/operator.go:302-376 | success means the owned Secret holds the credential; reports a change exactly when the token differed; never alters an unowned Secret without adoption; no write if it agrees |
| Operator.Operator.RestartAll | internal/operator/operator.go:287-293 | every existing target restarted after the Secret held the generation; stops at the first target without a usable selector and restarts none behind it |
| Operator.Operator.Deliver | internal/operator/operator.go:281-293 | consumers are restarted if and only if the Secret did not hold the token or another generation is recorded; nothing at all is written if all agrees; without faults the Secret is delivered unless it is foreign, and the rest succeeds if and only if no restart is needed or all targets are usable |
| Operator.Operator.Publish | internal/operator/operator.go:275-300 | success means record, Secret and status agree, and every existing target was restarted if the Secret did not hold the token or another generation was recorded; otherwise the status says Failed beside the recorded past |
| Operator.Operator.SetStatus | internal/operator/operator.go:423-446 | writes only a different status; success is Ready and no failed write |
| Operator.PassCombines | internal/operator/operator.go:212-300 | the parts of a pass give its contract for rotation requests, restarts and token age |
| Operator.Operator.Finalize | internal/operator/operator.go:399-421 | without the finalizer nothing happens; with policy Deactivate a known agent is deactivated or gone before the finalizer goes, and a failure to do so is reported; otherwise agent and Secret are untouched; without faults it succeeds, and then exactly this finalizer is gone |
| Operator.Operator.Reconcile | internal/operator/operator.go:212-300 | for a deleted resource what Finalize promises by the decoded policy; otherwise Ready means agreement of record, Secret and status, the finalizer comes before anything else, a failure or conflict is told in the status with the recorded past, and without faults and with usable targets it succeeds if and only if the resource owns the name, its spec is valid, agent and Secret are its own or adoptable, the agent is not retired, and the service does not refuse what the pass needs; an unowned Secret stays; a settled resource is left alone; an undecodable spec erases the status |
| Operator.RetainedIsLeftAlone | internal/operator/operator.go:399-421 | whatever pass over a deleted resource: unless the stored spec itself says Deactivate, no agent and no Secret is touched, and success means the finalizer is gone |
| Operator.InvalidIsRejected | internal/operator/operator.go:223-228 | a pass over a spec without display name or Secret name or with an unknown policy fails and changes no agent, Secret or pod |
| Operator.OnlyTheNamedAgent | internal/operator/operator.go:152-154 | a pass touches no agent but the one the spec names, or the one named like the resource |
| Operator.UndecodableLosesStatus | internal/operator/operator.go:141-147 | a spec that does not decode leaves a failed status without MAS user ID, rotation token and generations |
| Operator.SettledMeans | internal/operator/operator.go:294-311 | what is under each key of the token Secret and in each status field of a settled resource |
| Operator.SettledStays | internal/operator/operator.go:176-180 | a pass over one resource does not unsettle another with its own agent and Secret |
| Operator.SettledIsClaimed | internal/operator/operator.go:205-222 | settled resources own their names |
| Operator.Operator.ReconcileAll | internal/operator/operator.go:161-182 | every listed resource has its pass, whatever became of the others, under the owners of the whole listing, and the result is an error exactly if a pass or a listing failed; fixed point: a pass without error settles all resources, and a pass over settled ones with young tokens writes nothing |
| OperatorRuns.RequestHandledOnce | internal/operator/operator.go:255-273 | a changed rotation token causes no requested Rotate before it is recorded, and by then exactly one if the agent was active, with a token issued in any case; only the status write after that Rotate has to succeed |
| OperatorRuns.ReadyHandlesRequest | internal/operator/operator.go:299 | Ready means the request was recorded and handled so |
| OperatorRuns.NewTokenRestarts | internal/operator/operator.go:281-293 | a Ready pass that found another token in the Secret, or no Secret, restarted every listed target that exists, also on the first delivery, and that stays so in any run |
| OperatorRuns.UnreportedAgentIsStuck | internal/operator/operator.go:248-251 | without a recorded MAS user ID and without adoption no pass succeeds while the agent exists |
| OperatorRuns.ConsumersRestarted | internal/operator/operator.go:281-299 | the recorded generation was delivered to every lasting consumer, whatever passes failed in between |
| OperatorRuns.LostRestartStaysLost | internal/operator/operator.go:285-293 | after a first delivery that failed before restarting a consumer, no later pass restarts it for that generation |
| OperatorRuns.NoLateRestart | internal/operator/operator.go:285-293 | once the Secret holds the token and no other generation is recorded, passes restart nothing |
| OperatorRuns.FirstRestartCanBeLost | internal/operator/operator.go:281-300 | for every adopting resource that lists an unusable target first: the operator's first pass fails without a fault, its next is Ready, and the other target was never restarted for the token |
| OperatorRuns.Watch | internal/operator/operator.go:161-182 | any number of passes over a resource, with anything in between, is such a run |
| StateStore.MemoryStateStore.Put | internal/oidcauth/store.go:46-62 | accepts exactly the valid keys while fewer than the limit of other unexpired keys are pending |
| StateStore.MemoryStateStore.Consume | internal/oidcauth/store.go:64-73 | answers as an unbounded, never pruned store would |
| StateStore.MemoryStateStore.PruneExpired | internal/oidcauth/store.go:75-81 | leaves exactly the unexpired keys |
| Base64.Base64RoundTrip | internal/session/codec.go:73-81 | unpadded base64url of section 5 of RFC 4648 decodes to the bytes encoded |
| Base64.RfcVectors | internal/session/codec.go:73 | test vectors of section 10 of RFC 4648, and the two characters of the URL alphabet |
| Base64.TimestampRoundTrip | internal/session/codec.go:62-94 | every int64 survives the eight-byte big-endian frame |
| SealedToken.Codec.Seal | internal/session/codec.go:50-74 | a token that opens for exactly its purpose and lifetime, with its payload; no other token opens differently than before; an error exactly for a blank purpose or a past expiry |
| SealedToken.OpenOfSeal | internal/session/codec.go:50-102 | a sealed token opens to its payload exactly for its purpose and before its expiry in whole seconds, whatever else was sealed by then |
| SealedToken.OnlySealedOpens | internal/session/codec.go:76-102 | whatever opens was sealed for that purpose, which is not blank, byte for byte |
| SealedToken.NoncesSeparateTokens | internal/session/codec.go:64-73 | tokens sealed with different nonces differ |
| Auth.Authenticator.SealState | internal/oidcauth/auth.go:263-273 | a fresh token, entered in the store for five minutes, or refused exactly when the store is full |
| Auth.Authenticator.OpenState | internal/oidcauth/auth.go:275-287 | passes exactly pending complete states before their expiry, each at most once, with its own payload; a token that fails an earlier check is not used up |
| Auth.AFaithfulJsonExists | internal/oidcauth/auth.go:263-287 | the law asked of the JSON encoding of states can be met |
| TokenAge.ConfiguredExpiryIsKept | cmd/agent-manager/main.go:105 | every uint32 expiry reaches MAS unchanged, without overflow |
| TokenAge.DurationIsExact | internal/agents/service.go:783-793 | nothing is sent exactly below one second; above, the value sent is the whole seconds if and only if they fit a uint32, and their remainder modulo 2^32 in any case |
| TokenAge.DurationWrapsAround | internal/agents/service.go:783-793 | 2^32 seconds become zero |
| TokenAge.RecordStaysYoung | internal/operator/operator.go:263-271 | in every run of passes and service operations, the record was younger than the rotation age when the last successful pass read the clock |
| TokenAge.TokensNeverExpire | internal/operator/operator.go:263-271 | with passes close enough no token in use reaches its expiry |
| TokenAge.DriftDecides | internal/config/config.go:244-246 | tokens outlive all runs if and only if rotation age, gap and drift together stay below the expiry; otherwise a Ready pass of the operator is followed by an expiry |
| TokenAge.DriftIsLatency | internal/agents/service.go:436-442 | without SetAvatar UpdatedAt is never later after the issue of its token than tokens were when they were recorded |
| TokenAge.TokensOutlivePasses | internal/operator/operator.go:263-271 | without SetAvatar, rotation age, gap between successful passes and latency below the expiry keep every token alive |
| TokenAge.PassOverYoung | internal/operator/operator.go:263-300 | a fault-free pass over an agent with a young token is Ready and leaves record and token as they are |
| TokenAge.OperationTouches | internal/agents/service.go:219-601 | every operation of the service is a step such runs allow |
| TokenAge.AvatarsBreakTheBound | internal/agents/service.go:344-347 | with SetAvatar, for every gap between passes and every expiry, Ready passes of the operator without a fault let a fresh token expire |

## Left out

- HTTP handlers, dashboard, cookies, configuration loading and OIDC code exchange: no state of the credential lifecycle.
- Process crashes and calls that take effect although they report an error: the operations do not compensate for them. A session reply without its token is the one such case modelled, because `Create` and `Rotate` handle it.
- Empty session IDs, and regeneration that answers with another session ID: MAS promises neither happens (internal/mas/client.go:283-285).
- MAS and homeserver side effects beyond the stated contract, such as sessions ended by deactivating a user.
- Name validation before the lock is taken: lifecycle operations start from the canonical name. `Text.CanonicalName` trims ASCII white space only.
- Service.Service.Create: the scope and user ID templates are configuration predicates; their string replacement is not modelled.
- Service.Service.SetAvatar: the image checks before the lock is taken and the media itself are not modelled.
- The cached OAuth client-credential token of the MAS client (`accessTokenFor`): a request that cannot get one is a fault.
- `List` and `ListUnmanaged` of the service, `GetAvatar`: sorting and filtering of reads.
- Generations are unbounded in the lifecycle; the encoding proves its round trip up to the 64-bit limit.
- Listing.ListAgents: the label query of the API server is given, not computed.
- Codec.RecordRoundTrip: the RFC 3339 text of a time is assumed to read back, which Go guarantees for UTC in the years 0 to 9999.
- SealedToken.OpenOfSeal: AES-GCM is an ideal cipher, which opens exactly what it has sealed; nonces are fresh and JSON is a faithful encoding.
- Locks.RunsStaySound: threads make any calls the discipline permits, which covers the operations of `Service`; fairness and termination of waiting are not modelled.
- Interleaved.SpanAdvances: that the calls a thread makes while it holds the lock are those of one operation of `Service` is a condition, not derived from a program text of the thread.
- OperatorRuns.Watch: operations of others on the agent happen between passes, not in the middle of one.
- Claims.SortByAge: an insertion sort stands for the library sort.
- Operator.Operator.Reconcile: error texts in a failing status are constants, an object deleted by others in the middle of a pass is not modelled, and whether MAS refuses a new token to a deactivated or locked user is left to MAS.
- Operator.Operator.Finalize: removal of the object by the API server after its last finalizer is not modelled.
- TokenAge.TokensNeverExpire: clocks of MAS and of the manager are one.
