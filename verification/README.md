# A verified model of the R-CAO control plane

This Dafny project models the Micro Payment (MPP) pipeline of the Python control plane under `services/rcao/app`, and
the durable logs and stores beside it. Each part is written twice: as functions on values that say what one call does,
and, where the source updates objects in place, as a class whose methods are proved to leave exactly that state. The
theorems are about the functions: what holds after every run of calls, what a repeated call returns, how two forms of
one ledger relate, what can be read back from what was written. Each class whose objects serve calls carries
their history as a ghost field and stays in the state the run of that history leads to, so every theorem about runs is
one about the objects. What a successful call leaves behind is also said field by field, beside the functions and
without their names (the theorems called `...Exactly`): which fields of a request reach the wire, which seconds share a
day's limit, what an ALLOW rules out, which receipt makes a success, where an Owner's answer leads.

`dafny verify dfyconfig.toml` checks everything.

| files | part |
|---|---|
| Numerals, Base58, SolanaWire | key texts, compact integers and the transfer message |
| SignerTypes, SignerSpec, SignerSafety, SignerReplay, SignerEvidence, SignerService | the Signer behind its gateway |
| BudgetLedger, BudgetRepository, BudgetSql, BudgetPartings, BudgetDates, BudgetTransactions | the budget ledger in memory and as database rows |
| PaymentProfile, ProfileHistory, ProfileGate, ProfileRepository | payment profiles, their update gate and version history |
| MppPolicy, AllowedPayments, ServicePayments, ServicePaymentSafety, ProposedPayments, ServicePaymentRepository | the policy engine, recorded proposals, Owner answers, cancellations and Signer authorizations |
| MppClientSpec, MppClientSafety, PaidProofs, MppClient, SignerPipeline, PaidTransfers, DailyLimit | the paying client, alone and on top of the Signer |
| PaidService, PaidChallenges, PaidServiceAgent | the paid service |
| PaymentSessions, SessionFunding, PaymentSession | capped payment sessions |
| AuditValues, AuditLog, AuditHash, TaskTransitions, TaskEffects, TaskReplay, TaskListing, TaskRepository | audit events, versioned Tasks and replay |
| Migrations, MigrationChecks, MigrationRunner | the migration runner |
| OwnerStore, OwnerSafety, OwnerDecisions, OwnerRejection, OwnerDirectedStore | the Owner-directed store |
| Rewards, AgentRuns, AgentOutputs | reward apportionment and the bounded retry loop |
| Results, Networks, Texts, TextTables | shared data types and text functions |

## What the code does that its purpose does not suggest

Each of these is a theorem with the exact condition, and most have a concrete instance beside them.

- `_encode_base58(b"")` is `"1"`, which decodes to one zero byte: the round trip holds exactly for non-empty input.
- A devnet request whose blockhash the transport fetched is stored under the hash of the completed request, so executing
  it again raises instead of replaying (`SignerReplay.ReplayExactly`, `DevnetReplayRaises`).
- A profile's new limits overwrite the counters' limits on every in-memory reserve, so a lowered limit can be exceeded by
  what is already spent (`BudgetLedger.ReserveWithinLimits`); the database's row constraint prevents it.
- The in-memory and the database ledger decide differently on a repeated reserve above the payment limit, on a payment
  identifier reserved under another key, and on releasing what was cancelled or cancelling what was released
  (`BudgetSql.StepSimulates`; a run for each from any first reservation is in `BudgetPartings`).
- An update that empties the program allowlist, re-targets or re-activates a profile needs no approval although it can
  loosen decisions (`PaymentProfile.LoosensExactly`); for an approved payment even a narrower profile can, because the
  tightened list or limit is found before a refusal that no approval lifts (`MppPolicy.NarrowingLoosensExactly`).
- The update gate does not look at the risk level, which decides whether a payment needs the Owner: lowering it from HIGH
  or CRITICAL needs no approval and newly allows unapproved payments (`MppPolicy.LowerRiskLoosensExactly`, and for every
  ungated update `UpdateLoosensExactly`).
- An approval request answered HOLD can never be answered again, so its payment waits with its budget reserved until the
  Owner cancels it (`ServicePaymentSafety.HoldIsFinal`).
- Cancelling a payment gives its budget back but does not stop it: issuing a Signer authorization never looks at the
  status of an allowed payment, and a late APPROVE revives one that waited for the Owner. Behind an authorization the
  budget is held exactly while the Owner has not cancelled (`ServicePaymentSafety.AuthorizedIsHeldExactly`).
- The client passes no spend, neither to the policy engine nor in its Signer request, and its earlier payments change
  nothing for a new challenge (`MppClientSafety.HistoryDoesNotCount`): the per-Task and daily limits bind each payment of
  one client alone and never their sum, of which `DailyLimit.DailyLimitExceeded` gives a run of every length.
- Audit text of objects that JSON writes with `str` is hashed before it is redacted and checked after, so such rows fail
  their own hash check when the text holds a secret (`AuditLog.StoredRowPasses`).
- Audit rows are listed by the start of their transaction, so two transactions on one Task that commit in the other order
  make its replay fail for good (`TaskReplay.ReplayGivesTask`).
- A migration file with version 0 can never be applied, nor two files with one name (`Migrations.FaultlessRunCompletes`).
- A paid service's executor that raises runs again on the next submission; only its completion is at most once, and its
  start exactly when no submission gets past verification after one that raised (`PaidService.StartedOnceExactly`).
- A session that expires between the check and the balance of one settlement is charged although it ends EXPIRED.
- Rejecting a reward in the approval center has no guard on its status: a reward approved directly becomes CANCELLED and
  keeps its ledger entry. A completion approval decided once stays decided, so after rework the Owner must move the Task
  directly.
- A provider that reports only output tokens is compared with the total limit without its estimated input.

## Model

| member | source | states |
|---|---|---|
| `Base58.AlphabetInOrder` | services/rcao/app/signer.py:1543-1550 | The digit table and the reverse dictionary are inverse to each other on all 58 characters |
| `Base58.Encode` | services/rcao/app/signer.py:1543-1550 | The division loop computes base-256 to base-58 conversion with one `1` per leading zero byte |
| `Base58.Decode` | services/rcao/app/signer.py:1553-1564 | The multiplication loop computes the inverse conversion, or the error of the first check that fails |
| `Base58.DecodesExactlyTheAlphabet` | services/rcao/app/signer.py:1553-1564 | Decoding succeeds on exactly the non-empty strings over the alphabet |
| `Base58.DecodeAfterEncode` | services/rcao/app/signer.py:1543-1564 | Decoding an encoding gives the bytes back exactly when they are not empty; the empty string comes back as one zero byte |
| `Base58.EncodeAfterDecode` | services/rcao/app/signer.py:1543-1564 | Encoding a decoding gives back every non-empty string over the alphabet |
| `Base58.DecodeInjective` | services/rcao/app/signer.py:1553-1573 | No two texts decode to the same bytes |
| `Base58.KeyTextLength` | services/rcao/app/signer.py:1567-1573 | Every 32-byte key is written with 32 to 44 characters |
| `SolanaWire.CompactU16` | services/rcao/app/signer.py:1595-1607 | The bit loop computes unsigned LEB128 (section 7.6 of the DWARF 5 standard) and rejects exactly the values outside 0 .. 2^32-1 |
| `SolanaWire.ReadAfterLeb128` | services/rcao/app/signer.py:1595-1607 | A reference LEB128 reader recovers the value and the bytes that follow it |
| `SolanaWire.Leb128PrefixFree` | services/rcao/app/signer.py:1595-1607 | No encoding is a proper prefix of another |
| `SolanaWire.Leb128Length` | services/rcao/app/signer.py:1595-1607 | An encoding fits k bytes exactly when the value is below 128^k |
| `SolanaWire.CompactSize` | services/rcao/app/signer.py:1595-1607 | Accepted values take one to five bytes |
| `SolanaWire.MessageReadsBack` | services/rcao/app/signer.py:1622-1647 | A built message is 180 bytes and an independent reader of the layout recovers keys, blockhash and amount |
| `SolanaWire.MessageInjective` | services/rcao/app/signer.py:1622-1647 | Equal messages come from equal wallet, source, recipient, program, blockhash and amount |
| `SignerService.SignerAuthorizationRegistry.Register` | services/rcao/app/signer.py:677-682 | An identifier is bound once: the same authorization again is accepted, another one refused |
| `SignerService.SignerAuthorizationRegistry.Consume` | services/rcao/app/signer.py:720-725 | Marks the identifier consumed, unless it is revoked or was never registered |
| `SignerService.SignerBudgetLedger.Reserve` | services/rcao/app/signer.py:737-757 | Reserves under the request's key once, within the three limits, and tells repeats from conflicts |
| `SignerService.SignerBudgetLedger.Release` | services/rcao/app/signer.py:759-761 | Drops the reservation of the key and nothing else |
| `SignerService.Signer.ExecuteFromPolicy` | services/rcao/app/signer.py:1189-1301 | The five fields after one execution are those of the specified step, branch by branch |
| `SignerService.Signer.AdmitRequest` | services/rcao/app/signer.py:1212-1237 | The checks before signing, in order, and the reservation they end with |
| `SignerService.Signer.SignAndSubmit` | services/rcao/app/signer.py:1238-1301 | What signing, transport and settlement leave behind on success, refusal and failure |
| `SignerService.PolicyBoundSignerGateway.Execute` | services/rcao/app/signer.py:1494-1500 | Registers the authorization, then executes; a conflicting registration changes nothing |
| `SignerService.PolicyBoundSignerGateway.RevokeAuthorization` | services/rcao/app/signer.py:1502-1506 | Revokes a registered authorization and refuses an unknown one |
| `SignerSafety.EveryRunKeeps` | services/rcao/app/signer.py:677-767 | After any run of gateway calls: submissions have distinct keys and distinct (wallet, nonce) pairs, accepted ones distinct authorizations; reservations, consumed keys and accepted results are the same keys, and consumed authorizations exactly theirs |
| `SignerReplay.StepSubmits` | services/rcao/app/signer.py:1189-1301 | One call submits at most once, under an authorization registered, unrevoked, unconsumed and unexpired at that moment |
| `SignerReplay.EverySubmissionWasAuthorized` | services/rcao/app/signer.py:1189-1301 | Every submission of every run was made by one of its calls under such an authorization |
| `SignerEvidence.AdmitsExactly` | services/rcao/app/signer.py:1212-1237 | Under a fresh key exactly the requests are admitted that bring a usable authorization of their own, an active wallet equal in Agent, network, cluster, key and rotation, none of six stop controls in force and an amount within the three limits |
| `SignerEvidence.EverySubmissionIsJustified` | services/rcao/app/signer.py:1189-1301 | Every submission of every run was made under those conditions and carries its call's request: on LOCAL the request, on devnet 180 bytes that an independent reader finds to move its amount from its source to its recipient account under its wallet, program and blockhash |
| `SignerEvidence.EveryPayloadStored` | services/rcao/app/signer.py:1238-1301 | In every reachable state an accepted submission carries the request whose hash is stored with the result under its key |
| `SignerEvidence.AnswersExactly` | services/rcao/app/signer.py:1189-1301 | What a fresh request gets after any calls: SUBMITTED or CONFIRMED exactly when admitted, signed and accepted, FAILED when admitted and not, STOPPED when a stop control alone keeps it back, EXPIRED when its authorization fails by time, REJECTED otherwise, with the code, signature and hash of each case and every field of result and receipt |
| `SignerEvidence.BuildsExactly` | services/rcao/app/signer.py:1622-1647 | A devnet message is built exactly when five texts decode to 32 bytes each and the amount fits eight bytes |
| `SignerEvidence.EveryIdFresh` | services/rcao/app/signer.py:1270-1285 | After any run no two results or receipts share an identifier |
| `SignerEvidence.RevokesExactly` | services/rcao/app/signer.py:1502-1506 | A known authorization is revoked, an unknown one is refused, and nothing else changes |
| `SignerReplay.RunExtends` | services/rcao/app/signer.py:1467-1482 | Stored results, authorizations, submissions and audit entries never change or disappear over any further run |
| `SignerReplay.FreshReservesNew` | services/rcao/app/signer.py:737-745 | A request without a stored result never meets a reservation of its key, after any run |
| `SignerReplay.ReplayExactly` | services/rcao/app/signer.py:1199-1211 | Re-executing a request after any further calls changes nothing, and returns the first result exactly when the hash stored with it is the request's own; otherwise it raises |
| `SignerReplay.WithoutFetchedBlockhashReplays` | services/rcao/app/signer.py:1199-1251 | LOCAL requests, and devnet requests that bring a blockhash, always replay |
| `SignerReplay.DevnetReplayRaises` | services/rcao/app/signer.py:1251-1252 | Whatever program key, authorization hash and policy version it carries, a devnet request confirmed with a fetched blockhash raises on its second execution |
| `SignerReplay.ExecuteReturns` | services/rcao/app/signer.py:1189-1301 | A fresh request always ends in a stored result and receipt |
| `BudgetRepository.InMemoryMppBudgetRepository.Reserve` | services/rcao/app/mpp_policy.py:642-715 | Limits are overwritten, then the amount is held in both counters or refused, as specified |
| `BudgetRepository.InMemoryMppBudgetRepository.Consume` | services/rcao/app/mpp_policy.py:717-739 | Moves a held amount to consumed in both counters; a repeat is answered from the reservation |
| `BudgetRepository.InMemoryMppBudgetRepository.Release` | services/rcao/app/mpp_policy.py:741-774 | Gives a held amount back in both counters; a repeat is answered from the reservation |
| `BudgetRepository.InMemoryMppBudgetRepository.Find` | services/rcao/app/mpp_policy.py:776-780 | Finds the reservation with an identifier, or none has it |
| `BudgetLedger.EveryRunBalanced` | services/rcao/app/mpp_policy.py:642-774 | In every reachable state reserved_units and consumed_units of each counter are the sums over its reservations, and every reservation has both counters |
| `BudgetLedger.CountersNonNegative` | services/rcao/app/mpp_policy.py:642-774 | So no cached amount is ever negative |
| `BudgetLedger.RefusalSpendsNothing` | services/rcao/app/mpp_policy.py:642-774 | A refused or repeated call changes no spend and no reservation |
| `BudgetLedger.DecidedStays` | services/rcao/app/mpp_policy.py:717-774 | A reservation is decided once and never reopened |
| `BudgetLedger.ReserveWithinLimits` | services/rcao/app/mpp_policy.py:671-699 | A reserve keeps all counters within limits exactly when the profile's new limits cover what is already spent |
| `BudgetLedger.EveryRunWithinLimits` | services/rcao/app/mpp_policy.py:642-774 | While profile limits never drop, reserved plus consumed never exceeds any limit |
| `BudgetLedger.DroppedLimitIsExceeded` | services/rcao/app/mpp_policy.py:686-687 | A concrete run in which a lowered limit is exceeded |
| `BudgetDates.ReservesExactly` | services/rcao/app/mpp_policy.py:642-715 | After any calls a reserve under a fresh key is accepted exactly when its amount is positive, within the payment limit and, with the sum of what the same Task and the same Agent's UTC date (24 hours from midnight) already hold or paid, within theirs; other Tasks, Agents and dates do not count |
| `BudgetDates.EveryReservationDated` | services/rcao/app/mpp_policy.py:616-625 | After any run every reservation carries the fields of one of its calls and lies on the UTC date of that call |
| `BudgetDates.EveryRunWithinPools` | services/rcao/app/mpp_policy.py:642-774 | Over any run whose limits stay the same no Task ever holds and pays more than its limit, and no Agent on any UTC date |
| `BudgetDates.SqlReservesExactly` | services/rcao/app/mpp_policy.py:890-1046 | The database accepts the same reserves, except for a used payment identifier |
| `BudgetDates.RefusesExactly` | services/rcao/app/mpp_policy.py:655-699 | Why a fresh reserve is refused, in the order of the checks, on the sums of the Task and of the date |
| `BudgetDates.SqlRefusesExactly` | services/rcao/app/mpp_policy.py:905-1000 | The same in the database, which also refuses limits the spend already exceeds |
| `BudgetDates.RepeatsExactly` | services/rcao/app/mpp_policy.py:656-662 | A used key is answered from its reservation exactly when payment, Task, Agent, profile and amount are the same |
| `BudgetDates.SettlesExactly` | services/rcao/app/mpp_policy.py:717-774 | After any calls a reservation can be consumed unless it was given back, and given back unless it was consumed, with the status it then has |
| `BudgetSql.StepSimulates` | services/rcao/app/mpp_policy.py:890-1169 | The database ledger takes the same decision as the in-memory one, with the same reply, exactly when the call does not diverge, by its amount, its limits and what is spent and reserved; the two stay related exactly when the call is no affordable reservation of a used payment identifier under a fresh key |
| `BudgetSql.ReservesAffordable` | services/rcao/app/mpp_policy.py:671-699 | Under a fresh key the in-memory ledger accepts exactly the positive amounts that fit the payment limit and, with what is spent, the Task and day limits |
| `BudgetPartings.LoweredLimitParts` | services/rcao/app/mpp_policy.py:903-960 | After any first reservation, the same payment again under a payment limit below it is a repeat in memory and refused by the database |
| `BudgetPartings.ReusedPaymentParts` | db/migrations/0015_mpp_policy_engine.sql:86-103 | After any first reservation, its payment identifier under another key is reserved twice in memory and refused by the database whenever it fits the limits once more |
| `BudgetPartings.SettledOtherwiseParts` | services/rcao/app/mpp_policy.py:741-774 | After any first reservation, releasing what was cancelled or cancelling what was released is a repeat in memory and refused by the database |
| `BudgetSql.EveryRunSimulates` | services/rcao/app/mpp_policy.py:890-1169 | Over any run without such a reservation both ledgers keep the same reservations and totals, and their replies part exactly at the calls that diverge |
| `BudgetSql.RelatedThroughoutExactly` | services/rcao/app/mpp_policy.py:890-1169 | The two ledgers are related after every prefix of a run exactly when it contains no such reservation |
| `BudgetSql.SqlMoveAccepts` | services/rcao/app/mpp_policy.py:1077-1169 | The row constraints never refuse to settle a held reservation |
| `BudgetSql.SqlReserveConserves` | services/rcao/app/mpp_policy.py:890-1046 | A database reserve, accepted or refused, leaves every counter the sum of its reservations and within its row constraint |
| `BudgetSql.SqlMoveConserves` | services/rcao/app/mpp_policy.py:1077-1169 | Settling a held reservation always succeeds in the database, changes that reservation alone and keeps the counters their sums |
| `BudgetSql.SqlRunWithinLimits` | db/migrations/0015_mpp_policy_engine.sql:68-88 | With the row constraint reserved + consumed never exceeds any limit, whatever limits the calls bring |
| `BudgetTransactions.MppPolicyRepository.ReserveBudget` | services/rcao/app/mpp_policy.py:890-1046 | Statement by statement, with rollback: the committed rows are those of the specified reserve |
| `BudgetTransactions.MppPolicyRepository.MoveReservation` | services/rcao/app/mpp_policy.py:1077-1169 | Statement by statement, with rollback: the committed rows are those of the specified move |
| `BudgetTransactions.MppPolicyRepository.ConsumeReservation` | services/rcao/app/mpp_policy.py:1048-1058 | Consumes a registered reservation; the committed rows are those the run of calls so far leads to |
| `BudgetTransactions.MppPolicyRepository.ReleaseReservation` | services/rcao/app/mpp_policy.py:1060-1075 | Releases or cancels a registered reservation, likewise |
| `MppPolicy.ApprovalLiftsExactly` | services/rcao/app/mpp_policy.py:366-553 | An approval turns REQUIRE_OWNER_APPROVAL into ALLOW, except for an unregistered Service or the registry's own flag, and changes no other decision |
| `AllowedPayments.AllowedExactly` | services/rcao/app/mpp_policy.py:366-553 | Without an approval: ALLOW exactly when Task, Run, trace, recipient, purpose, network, phase and expiry are in order, all four parties active, Service and registry agree, none of the six stop controls is in force, the payment lies within the profile's lists, limits and times and its automatic limit, and nothing is asked that only the Owner may grant |
| `AllowedPayments.ApprovedExactly` | services/rcao/app/mpp_policy.py:366-553 | With one: ALLOW exactly when the same guards pass, the approval has an identifier and the profile leaves the payment to approval |
| `AllowedPayments.AskedExactly` | services/rcao/app/mpp_policy.py:366-553 | The Owner is asked exactly when that could help; every other payment is denied |
| `AllowedPayments.StopDenies` | services/rcao/app/mpp_policy.py:455-468 | A stop control in force denies every payment to a registered Service, approved or not |
| `TextTables.UpperExactly` | services/rcao/app/mpp_policy.py:440-447 | The 26 small letters, the dotless i and the long s become capitals, so a status is compared in any case |
| `TextTables.FoldedExactly` | services/rcao/app/mpp_policy.py:106-119 | The 26 capitals and the long s become small letters, so an internal prefix is found in any case |
| `MppPolicy.LowerRiskLoosensExactly` | services/rcao/app/mpp_policy.py:366-553 | A narrowed profile newly allows an unapproved payment exactly when the new profile lets it pass on amounts, lists and times, every guard passes, nothing else needs the Owner, and the risk level was HIGH or CRITICAL and no longer is |
| `MppPolicy.UpdateLoosensExactly` | services/rcao/app/payment_profile.py:1056-1086 | For every update the gate lets through without an approval: an unapproved payment is newly allowed exactly when the new profile lets it pass, every guard passes, nothing else needs the Owner, the new risk level is below HIGH, and either the old one was not or the update re-targets, re-activates, rotates or empties the program allowlist |
| `MppPolicy.LoweredRiskLoosens` | services/rcao/app/payment_profile.py:1056-1086 | One such update, accepted with no approval: only the risk level drops, and REQUIRE_OWNER_APPROVAL becomes ALLOW |
| `MppPolicy.NarrowingLoosensExactly` | services/rcao/app/mpp_policy.py:366-553 | For every narrowing of a valid profile: an approved payment is newly allowed exactly when every guard passes, the approval has an identifier, exceptions are open to it, the old profile refuses it for a reason no approval lifts and the new one by an allowlist, a limit or the allowed expiry, both written out on amounts, lists and times |
| `MppPolicy.TighterLimitOverridesRefusal` | services/rcao/app/mpp_policy.py:366-553 | One such profile and payment: a lowered limit turns DENY into ALLOW |
| `MppPolicy.AllowedIsReserved` | services/rcao/app/mpp_policy.py:366-715 | What the engine allows on the ledger's own figures, the ledger reserves under a fresh key |
| `MppPolicy.AllowedIsReservedInDatabase` | services/rcao/app/mpp_policy.py:857-1046 | So does the database ledger, unless the payment identifier was used before |
| `PaymentProfile.LoosensExactly` | services/rcao/app/payment_profile.py:1056-1086 | A replacement that is no expansion decides some request more permissively exactly when it re-targets, re-activates, rotates or empties the program allowlist of the profile and is active, current, has a token and does not deny everything |
| `PaymentProfile.ChainNarrows` | services/rcao/app/payment_profile.py:1056-1086 | Over any chain of narrowing updates no request is decided more permissively than at the start |
| `PaymentProfile.EmptyingProgramsLoosens` | services/rcao/app/payment_profile.py:1056-1086 | A concrete update that empties the program allowlist: not an expansion, yet a denied request becomes allowed |
| `ProfileGate.ExpandsExactly` | services/rcao/app/payment_profile.py:1056-1086 | The gate calls an update an expansion exactly when one of five lists, five limits, the expiry, the network or the mode leaves the stored envelope |
| `ProfileGate.NarrowerIsWithin` | services/rcao/app/payment_profile.py:1056-1086 | A payment within a narrower profile was within the one before |
| `ProfileGate.NarrowerIsInScope` | services/rcao/app/mpp_client.py:940-975 | A challenge in the client's scope under a narrower profile, its mint included, was in scope before |
| `ProfileGate.UpdatesExactly` | services/rcao/app/payment_profile.py:724-777 | An update takes effect exactly when the Owner sends it, it is well formed, one version on, for the same Agent, and inside the envelope or under an approval on record; it stores the profile and one version row |
| `ProfileGate.StatusExactly` | services/rcao/app/payment_profile.py:779-824 | A status change takes effect exactly with a reason, on the expected version and, into ACTIVE, before the expiry; it changes status and version alone |
| `ProfileHistory.EveryRunConsistent` | services/rcao/app/payment_profile.py:685-865 | After any run each profile's version rows are numbered 1, 2, 3 ... without gap, end in the stored row, and grow the envelope only with an approval |
| `ProfileHistory.NoApprovalNoExpansion` | services/rcao/app/payment_profile.py:685-865 | Between two versions with no approval in between, through updates, status changes and rotations, the envelope has not grown |
| `ProfileHistory.VersionCountsCommands` | services/rcao/app/payment_profile.py:685-865 | In every reachable state a profile's version is the number of creations, updates, status changes and rotations that took effect on it |
| `ProfileHistory.OneEffectPerVersion` | services/rcao/app/payment_profile.py:724-865 | Of all commands prepared for one version, whatever their kind and whatever lies between, at most one ever takes effect |
| `ProfileRepository.AgentPaymentProfileRepository.CreateProfile` | services/rcao/app/payment_profile.py:685-722 | Creates version 1 of a new profile with its first version row, or refuses |
| `ProfileRepository.AgentPaymentProfileRepository.UpdateProfile` | services/rcao/app/payment_profile.py:724-777 | The guards of an update in order, the stored row and its version row |
| `ProfileRepository.AgentPaymentProfileRepository.ChangeStatus` | services/rcao/app/payment_profile.py:779-824 | Changes only status and version, with a version row |
| `ProfileRepository.AgentPaymentProfileRepository.RotateProfile` | services/rcao/app/payment_profile.py:826-865 | A rotation is an update that changes the rotation state |
| `ServicePaymentSafety.EveryRunBacked` | services/rcao/app/mpp_policy.py:1255-1645 | Over any run of proposals, Owner answers, cancellations and Signer authorizations: an allowed payment reserved its own amount, any other asked the Owner; what a payment reserved is still RESERVED exactly until the Owner cancels or refuses it; keys, challenges, nonces and payments pair off |
| `ServicePaymentSafety.AuthorizedIsHeldExactly` | services/rcao/app/mpp_policy.py:1396-1645 | Behind every issued Signer authorization the reserved budget is still held exactly when the Owner has not cancelled the payment; one without a reservation was approved by the Owner |
| `ServicePaymentSafety.CancelledIsAuthorized` | services/rcao/app/mpp_policy.py:1396-1645 | In any reachable state, a payment that is allowed or still waits for the Owner, once cancelled, can be authorized all the same, the latter after a late APPROVE, with its budget given back |
| `ServicePaymentSafety.CancelledReachesSigner` | services/rcao/app/mpp_policy.py:1396-1645 | A run of three calls that does so |
| `ServicePaymentSafety.HoldIsFinal` | services/rcao/app/mpp_policy.py:1302-1303 | After a HOLD answer, whatever is called later: no further answer is accepted, the payment is never authorized, and it waits with its budget RESERVED until the Owner cancels it, which succeeds exactly once |
| `ServicePaymentSafety.AllowedProposalIsRecorded` | services/rcao/app/payment_boundary.py:562-643 | A fresh request the policy allows is recorded with a reservation: the ledger never refuses it |
| `ServicePaymentSafety.RepeatOrConflict` | services/rcao/app/payment_boundary.py:542-549 | A repeated request returns the stored payment and changes nothing; another one for a used key, challenge or nonce conflicts |
| `ProposedPayments.ProposesExactly` | services/rcao/app/payment_boundary.py:508-786 | After any calls a new request is recorded as allowed exactly when the caller is admitted, the request passes every check on its own fields, what its Task and its Agent's UTC date have drawn leaves room, and its payment has no other decision; every recorded request has a reservation of its amount on that date exactly when there is room |
| `ProposedPayments.CancelsExactly` | services/rcao/app/mpp_policy.py:1571-1645 | The Owner cancels a known payment once and with a reason: status and reservation change, nothing else |
| `ProposedPayments.AnswersExactly` | services/rcao/app/mpp_policy.py:1274-1394 | The Owner answers an open request once: what each of the four answers does to payment and reservation |
| `ProposedPayments.AuthorizesExactly` | services/rcao/app/mpp_policy.py:1396-1569 | A payment is authorized once, exactly when it is allowed or approved |
| `ServicePaymentRepository.ServicePaymentRepository.Propose` | services/rcao/app/payment_boundary.py:508-786 | Step by step in one transaction, the rows afterwards are those of the specified proposal |
| `ServicePaymentRepository.ServicePaymentRepository.FindByChallengeOrNonce` | services/rcao/app/payment_boundary.py:462-476 | Finds a payment that shares challenge or nonce, or there is none |
| `ServicePaymentRepository.ServicePaymentRepository.Cancel` | services/rcao/app/mpp_policy.py:1571-1645 | Releases the reservation and marks the payment, or rolls back; the rows afterwards are those the run of calls so far leads to |
| `ServicePaymentRepository.ServicePaymentRepository.DecideOwnerApproval` | services/rcao/app/mpp_policy.py:1274-1394 | The guards of an answer in order, and the payment, request and budget rows it leaves |
| `ServicePaymentRepository.ServicePaymentRepository.IssueSignerAuthorization` | services/rcao/app/mpp_policy.py:1396-1569 | The guards that read the payment in order, and the status and authorization rows it leaves |
| `MppClientSafety.EveryRunSendsOneProofPerKey` | services/rcao/app/mpp_client.py:606-916 | Over any interleaving of pay_challenge and resume the provider gets at most one proof per key, only after ALLOW and an accepted Signer result, and SUCCEEDED means one was sent |
| `MppClientSafety.RunKeeps` | services/rcao/app/mpp_client.py:606-1016 | Results other than PENDING_APPROVAL, nonce bindings and sent proofs never change over any further run |
| `MppClientSafety.ProofNeedsAllow` | services/rcao/app/mpp_client.py:777-850 | A step that sends a proof had an ALLOW evaluation on that challenge |
| `MppClientSafety.FinalReplays` | services/rcao/app/mpp_client.py:612-618 | A final result is returned again, marked replayed, for the same challenge or approval, with no state change |
| `MppClientSafety.NonceStaysBound` | services/rcao/app/mpp_client.py:619-623 | A (challenge, nonce) pair stays bound to its first key: a payment of it under any other key fails for ever and changes nothing |
| `MppClientSafety.HistoryDoesNotCount` | services/rcao/app/mpp_client.py:606-700 | The answer to a new challenge is the same after any earlier payments of the client: its Task and day limits bind each payment alone |
| `PaidProofs.ExecutesExactly` | services/rcao/app/mpp_client.py:777-916 | After ALLOW a proof is sent exactly when the Signer's result and receipt agree with the challenge and each other in every field; SUCCEEDED exactly when the provider answers 200 to 299 with a receipt equal to the proof in payment, challenge, Signer request, Signer result and external signature |
| `PaidProofs.PaysExactly` | services/rcao/app/mpp_client.py:606-706 | A challenge that opens a session is refused outside the client's scope and inside gets what the engine decides |
| `PaidProofs.EveryProofIsPayable` | services/rcao/app/mpp_client.py:606-850 | Every proof of every run was sent on a Signer answer about that very payment, when the challenge was in scope, unexpired and not stopped, and within all limits unless the Owner had approved it |
| `PaidProofs.EverySuccessIsConfirmed` | services/rcao/app/mpp_client.py:851-916 | Every SUCCEEDED payment of every run was confirmed in one of its calls by such a receipt |
| `PaidProofs.OtherwiseExactly` | services/rcao/app/mpp_client.py:606-640 | Any other challenge gets its stored answer again or the refusal it deserves, and changes no session |
| `SignerPipeline.EveryProofWasSubmitted` | services/rcao/app/mpp_client.py:777-850 | Client and Signer together, with anyone else calling the Signer in between: every proof the provider got is a Signer result stored under its key, with an accepted submission of its own |
| `SignerPipeline.ProofsUseDistinctAuthorizations` | services/rcao/app/mpp_client.py:777-850 | No two proofs of a run rest on the same Signer authorization |
| `PaidTransfers.EveryProofPaysItsChallenge` | services/rcao/app/mpp_client.py:777-850 | From the challenge to the wire: behind each proof the provider got is an accepted submission whose payload pays exactly the challenge's amount, on devnet from its source account to its recipient account |
| `DailyLimit.FreshPaymentSucceeds` | services/rcao/app/mpp_client.py:606-916 | In any state of client and Signer, a payment within the limits of its own under fresh identifiers is allowed, signed and confirmed, and leaves all others as they were |
| `DailyLimit.DailyLimitExceeded` | services/rcao/app/mpp_client.py:606-916 | For every number of distinct keys and every amount up to the limits, a run on one Task and one day in which all payments succeed: their sum is unbounded, the daily and Task limits are 10 |
| `MppClient.MppClient.PayChallenge` | services/rcao/app/mpp_client.py:606-706 | The session, nonce and submission fields after one payment call are those of the specified step |
| `MppClient.MppClient.Resume` | services/rcao/app/mpp_client.py:724-775 | The same for an approval call |
| `MppClient.MppClient.ExecuteAndRetry` | services/rcao/app/mpp_client.py:777-916 | One Signer execution and at most one proof, with the result for each way it can end |
| `AuditValues.SanitizeIdempotent` | services/rcao/app/audit.py:67-83 | Redacting arbitrarily nested values twice changes nothing more |
| `AuditValues.JsonKeepsRedaction` | services/rcao/app/audit.py:67-93 | What a JSON column gives back of a redacted value is still redacted exactly when no object that JSON writes as text showed a secret |
| `AuditLog.WithIntegrityIdempotent` | services/rcao/app/audit.py:142-179 | Hashing an event twice changes nothing |
| `AuditLog.StoredRowPasses` | services/rcao/app/audit.py:320-360 | A row the writer stored passes the replay hash check exactly when neither state holds an object whose text the redactor would still change |
| `AuditLog.ShownSecretDoesNotReplay` | services/rcao/app/audit.py:67-93 | Whatever the rest of the event, an object whose text shows a secret under a harmless name makes its own stored row fail the replay |
| `AuditHash.HashesExactly` | services/rcao/app/audit.py:113-179 | Two events carry the same hash exactly when version, both states, reason and every header field agree once redacted |
| `AuditHash.TamperingShows` | services/rcao/app/audit.py:411-437 | Any later change of such a field makes a row that passed the check fail it |
| `AuditHash.CleanExactly` | services/rcao/app/audit.py:67-83 | Redaction changes a value exactly when some text, timestamp or sensitive field is left to redact |
| `AuditHash.ReplaysExactly` | services/rcao/app/audit.py:411-443 | One event is replayed exactly when its action is none of seven external ones, its hash passes and its before-state fits; the target then has the redacted after-state |
| `AuditLog.ReplayAppend` | services/rcao/app/audit.py:411-443 | Replaying a ++ b is replaying b from the state of a |
| `AuditLog.ReplaysIfChained` | services/rcao/app/audit.py:424-437 | The log of one target replays exactly when each event starts from the state the one before it left; it ends in the last state |
| `AuditLog.ReplayAuditEvents` | services/rcao/app/audit.py:411-443 | The loop computes the fold, or the error of the first event that fails |
| `TaskTransitions.EveryRunLinked` | services/rcao/app/repository.py:414-462 | After any run each Task's audit rows link its first snapshot to its current one and its version counts them |
| `TaskTransitions.EveryRunMatches` | services/rcao/app/repository.py:414-462 | Claims, audit rows and outbox rows match one to one; no key or audit identifier occurs twice |
| `TaskTransitions.OneEffectPerVersion` | services/rcao/app/repository.py:261-291 | At most one command takes effect per expected version |
| `TaskTransitions.RepeatsChangeNothing` | services/rcao/app/repository.py:192-250 | A key that took effect changes nothing again: the same command gets the recorded snapshot, any other an error |
| `TaskEffects.EffectiveExactly` | services/rcao/app/repository.py:414-462 | A command takes effect exactly when its actor may act, its three identifiers are unused and the Task has the expected version; otherwise no table changes |
| `TaskEffects.EffectExactly` | services/rcao/app/repository.py:261-345 | What it leaves in each table: the Task has the command's status and progress, one version on, at the time of the transaction, every other Task is unchanged, and audit row, outbox row, claim and reply tell the same change |
| `TaskEffects.LastCommandCarries` | services/rcao/app/repository.py:414-462 | After any run a Task has status and progress of the last command in its history, or its first ones |
| `TaskReplay.ReplayGivesTask` | services/rcao/app/repository.py:346-397 | Replaying a Task succeeds exactly when its transactions committed in the order of created_at and id, and then gives the current snapshot after one event per version |
| `TaskReplay.OnlyCommitOrderChains` | services/rcao/app/audit.py:429-436 | Of all arrangements of a Task's rows only the commit order replays |
| `TaskReplay.SerialRunsReplay` | services/rcao/app/repository.py:382-397 | With a clock that advances between transactions every Task of every run replays |
| `TaskReplay.ListedSorts` | services/rcao/app/repository.py:368-380 | The listing is the rows, sorted by created_at and id |
| `TaskListing.OrderedExactly` | services/rcao/app/repository.py:368-380 | Rows are listed by created_at and, among equals, by id in lexicographic order |
| `TaskListing.EventTells` | services/rcao/app/repository.py:293-330 | The event names actor, reason, correlation and task of its command, and its states are the five columns before and after |
| `TaskReplay.InvertedCommitsDoNotReplay` | services/rcao/app/repository.py:368-397 | Two concrete transactions on a planned Task, the later to commit having begun first: both succeed and the Task no longer replays |
| `TaskRepository.TaskRepository.ClaimIdempotency` | services/rcao/app/repository.py:192-250 | Inserts a pending claim, or answers from the row that has the key |
| `TaskRepository.TaskRepository.UpdateTask` | services/rcao/app/repository.py:261-291 | Updates exactly the row with the expected version |
| `TaskRepository.TaskRepository.TransitionTask` | services/rcao/app/repository.py:414-490 | One unit of work with commit or rollback: the committed rows are those of the specified transition |
| `TaskRepository.TaskRepository.ReadAll` | services/rcao/app/repository.py:382-396 | Paging returns the whole listing for every page size from 1 to 1000 |
| `TaskRepository.TaskRepository.ReplayTask` | services/rcao/app/repository.py:382-397 | The paged replay is the replay of the whole log, whatever the page size |
| `Migrations.EveryRunInOrder` | services/rcao/app/migrations.py:206-317 | Over any runs and baselines, from any directories, failing anywhere: each version is executed at most once, in strictly increasing order, and no history row changes |
| `Migrations.Resumable` | services/rcao/app/migrations.py:260-317 | Any runs over one directory, each stopping anywhere, execute the stretch after what was recorded; after a success nothing is missing |
| `Migrations.SameAsUninterrupted` | services/rcao/app/migrations.py:260-317 | Interrupted runs and a final success leave what one uninterrupted run leaves |
| `Migrations.FaultlessRunCompletes` | services/rcao/app/migrations.py:276-288 | After any interrupted runs a run without faults succeeds exactly when the directory is applicable |
| `Migrations.ApplicableExactly` | services/rcao/app/migrations.py:52-58 | Applicable means: no file has version 0 and no two files share a name |
| `Migrations.BaselineThenMigrate` | services/rcao/app/migrations.py:206-257 | After a baseline at v, runs that end in success execute exactly the versions above v |
| `Migrations.EveryRunRecordsAPrefix` | services/rcao/app/migrations.py:206-317 | Baselines and runs in any order always leave a prefix of the directory recorded |
| `MigrationChecks.ChecksExactly` | services/rcao/app/migrations.py:188-203 | The history passes exactly when every applied version is on file under its name and SQL; otherwise the lowest one that is not is reported, as unknown or as changed |
| `MigrationChecks.BaselinesExactly` | services/rcao/app/migrations.py:206-257 | A baseline commits exactly when the directory begins with versions 1 to it, every applied version is on file, none lies above and no new name is taken; it leaves a row for each of those files and runs no SQL |
| `MigrationRunner.ValidateApplied` | services/rcao/app/migrations.py:188-203 | Reports the lowest applied version that is unknown or differs from its file, if there is one |
| `MigrationRunner.MigrationRunner.Migrate` | services/rcao/app/migrations.py:260-317 | The loop with commit and rollback leaves the specified history and executed SQL |
| `MigrationRunner.MigrationRunner.StampBaseline` | services/rcao/app/migrations.py:206-257 | The baseline inserts its history rows in one commit or not at all |
| `PaidService.EveryRunBijective` | services/rcao/app/mpp_service.py:200-326 | In every reachable state keys and challenges are in bijection, receipts, signatures and results are in bijection through their challenge, and no challenge is completed twice |
| `PaidService.IssueRepeats` | services/rcao/app/mpp_service.py:200-212 | A key keeps its challenge for ever; another request under it is refused |
| `PaidService.RetryExactly` | services/rcao/app/mpp_service.py:269-288 | A submission for a served challenge changes nothing and is accepted exactly when it matches, is in time, names the original receipt and no signature of another challenge; it then gets the stored result |
| `PaidService.RaisingExecutorRunsAgain` | services/rcao/app/mpp_service.py:290-295 | An executor that raises leaves no result and is started again by the same submission at any later time before the challenge expires |
| `PaidService.StartsAccounted` | services/rcao/app/mpp_service.py:290-326 | After any run the starts of an executor for a challenge are its completions plus the executions that raised |
| `PaidService.StartedOnceExactly` | services/rcao/app/mpp_service.py:290-326 | Over any run an executor is started at most once for a challenge exactly when no submission for it gets past verification after one that raised |
| `PaidChallenges.IssuesExactly` | services/rcao/app/mpp_service.py:200-240 | An allowed Task's request under a new key gets a challenge for the Service's price and for itself, with fresh identifiers; under a used key only the same request gets its challenge again |
| `PaidChallenges.EveryChallengeAsks` | services/rcao/app/mpp_service.py:200-240 | Every challenge of every run asks for the Service's price on behalf of a request of the run |
| `PaidChallenges.ServesExactly` | services/rcao/app/mpp_service.py:242-326 | A first submission is served exactly when it answers its challenge in every field and in time, with unused receipt and signature, the verifier accepts and the executor returns; what is then recorded |
| `PaidServiceAgent.MppPaidServiceAgent.IssueChallenge` | services/rcao/app/mpp_service.py:200-240 | The maps after issuing are those of the specified step |
| `PaidServiceAgent.MppPaidServiceAgent.Execute` | services/rcao/app/mpp_service.py:242-326 | The maps after an execution are those of the specified step, whichever check fails |
| `PaymentSessions.EveryRunWithinCeiling` | services/rcao/app/mpp_session.py:116-191 | After any run spent is the sum over the settled vouchers, each counted once, and 0 <= spent <= funded <= ceiling |
| `PaymentSessions.StepKeeps` | services/rcao/app/mpp_session.py:71-73 | Every answer's remaining_units is exactly funded minus spent |
| `PaymentSessions.LeftOpenStays` | services/rcao/app/mpp_session.py:116-191 | Once a session has left OPEN no run changes anything in it |
| `PaymentSessions.VoucherChargesOnce` | services/rcao/app/mpp_session.py:153-167 | A voucher identifier charges once; sent again it is accepted exactly when the session is still open and the voucher the same |
| `PaymentSessions.ChargesExactly` | services/rcao/app/mpp_session.py:153-167 | A new voucher is charged exactly when the session is open and unexpired at the check, the scope fits and the balance covers it |
| `PaymentSessions.ChargedWhileExpiring` | services/rcao/app/mpp_session.py:153-167 | A clock that passes the expiry inside one call leaves an expired session charged |
| `SessionFunding.TopsUpExactly` | services/rcao/app/mpp_session.py:143-151 | A top-up adds exactly its amount, and succeeds exactly when that is positive, the session live and the ceiling kept |
| `SessionFunding.SettlesExactly` | services/rcao/app/mpp_session.py:153-167 | A settlement is accepted exactly for a live session, its scope and a covered or repeated amount, and takes the amount once |
| `SessionFunding.EndsExactly` | services/rcao/app/mpp_session.py:169-183 | Closing ends a live session, revoking an open one however late it is; neither moves money |
| `SessionFunding.EveryRunFunded` | services/rcao/app/mpp_session.py:143-151 | After any run the session holds exactly the sum of the accepted top-ups |
| `PaymentSession.MppPaymentSession.Settle` | services/rcao/app/mpp_session.py:153-167 | The fields after a settlement are those of the specified step |
| `PaymentSession.MppPaymentSession.TopUp` | services/rcao/app/mpp_session.py:143-151 | The fields after a top-up are those of the specified step |
| `PaymentSession.MppPaymentSession.Close` | services/rcao/app/mpp_session.py:169-173 | Closes an open session |
| `PaymentSession.MppPaymentSession.Revoke` | services/rcao/app/mpp_session.py:175-183 | Revokes an open session, even one past its expiry that nothing has refreshed |
| `Rewards.CalculateVirtualReward` | services/rcao/app/reward.py:7-41 | Allocations plus retained equal the pool, none is negative, every share but the last is the floor of its exact share, the last is at least its exact share and less than that plus n-1; the three errors and nothing else are refused |
| `Rewards.Apportion` | services/rcao/app/reward.py:22-36 | The loop gives all but the last their floor and the last the rest |
| `Rewards.LastShare` | services/rcao/app/reward.py:27-31 | What the last contributor gets lies between its exact share and that plus the number of the others |
| `OwnerSafety.EveryRunAccounts` | services/rcao/app/mvp.py:1796-1892 | A completed Task and an approved reward were evaluated; proposals stay within budget; an approved amount above it has a non-blank comment; the ledger holds exactly the approved amounts |
| `OwnerSafety.EveryRunIndependent` | services/rcao/app/mvp.py:1518-1793 | No Task comes before the Owner, is completed or rejected without a move to AUDIT by a Reviewer and a later one to OWNER_REVIEW by an Auditor, neither its Executive then |
| `OwnerSafety.RunKept` | services/rcao/app/mvp.py:1518-1964 | Terminal Tasks keep their status, decided approvals their decision and ledger entries their amount, over any run |
| `OwnerSafety.LedgerBackedExactly` | services/rcao/app/mvp.py:1931-1933 | A ledger entry outlives its reward's approval exactly when the approval center rejects a reward that was approved directly |
| `OwnerRejection.ApprovedThenRejected` | services/rcao/app/mvp.py:1838-1964 | For every budget, amount within it and quality, a run from the empty store that ends in such an entry |
| `OwnerSafety.DecidedIsFinal` | services/rcao/app/mvp.py:1760-1769 | A completion approval that was once decided is never opened again, not even after rework and a second audit |
| `OwnerDecisions.TransitionsExactly` | services/rcao/app/mvp.py:1518-1659 | A move succeeds exactly from a status the target is entered from, with the authority of the target and, into COMPLETED, after an evaluation; it changes that one status |
| `OwnerDecisions.TargetsOfSources` | services/rcao/app/mvp.py:1518-1659 | The transition table and the table of sources are inverse to each other on all 144 pairs |
| `OwnerDecisions.DecidesTaskExactly` | services/rcao/app/mvp.py:1909-1918 | An open completion is decided exactly when the Task may enter the status of the answer: APPROVE leaves it COMPLETED, REJECT REJECTED, REQUEST_CHANGES in REWORK, HOLD as it is |
| `OwnerDecisions.DecidesRewardExactly` | services/rcao/app/mvp.py:1919-1947 | An open reward approval: APPROVE grants the proposed amount under the conditions of a direct approval, REJECT cancels the reward, the other two leave it |
| `OwnerDecisions.ApprovesExactly` | services/rcao/app/mvp.py:1838-1890 | Exactly when a direct approval succeeds, and the amount, comment and ledger entry it leaves |
| `OwnerDecisions.AuditsExactly` | services/rcao/app/mvp.py:1717-1794 | An audit succeeds exactly by another Auditor under AUDIT; a passed one moves the Task and opens exactly the approvals that were missing |
| `OwnerDecisions.EvaluatesExactly` | services/rcao/app/mvp.py:1796-1836 | Pending rewards of the Task get the floor of budget times quality percent, and no other reward changes |
| `OwnerDirectedStore.OwnerDirectedStore.TransitionTask` | services/rcao/app/mvp.py:1518-1659 | The transition table and the authority each target needs |
| `OwnerDirectedStore.OwnerDirectedStore.SubmitReview` | services/rcao/app/mvp.py:1661-1715 | A review moves the Task to AUDIT or REWORK |
| `OwnerDirectedStore.OwnerDirectedStore.RecordAudit` | services/rcao/app/mvp.py:1717-1794 | A passed audit moves the Task on and opens the missing approvals of the Task and all its rewards |
| `OwnerDirectedStore.OwnerDirectedStore.EvaluateTask` | services/rcao/app/mvp.py:1796-1836 | An evaluation proposes the floor of budget times quality for every pending reward of the Task |
| `OwnerDirectedStore.OwnerDirectedStore.ApproveReward` | services/rcao/app/mvp.py:1838-1890 | The guards of an approval in order, and the reward and ledger entry it writes |
| `OwnerDirectedStore.OwnerDirectedStore.DecideApproval` | services/rcao/app/mvp.py:1892-1964 | A decision is enacted and recorded, or neither |
| `AgentRuns.RunProvider` | services/rcao/app/agent_runtime.py:1155-1268 | The retry loop ends and gives the specified result |
| `AgentRuns.RunExactly` | services/rcao/app/agent_runtime.py:1177-1203 | The provider is called again only after a timeout or transient error, at most max_retries times; SUCCEEDED exactly when the last attempt returned an output that passed every check, REJECTED exactly when it returned one that did not or the provider turn raised a policy error |
| `AgentRuns.TotalCoversExactly` | services/rcao/app/agent_runtime.py:404-414 | Without a reported total, the total compared with the limit covers input and output exactly when both or neither were reported or the missing one is estimated at nothing |
| `AgentOutputs.ValidExactly` | services/rcao/app/agent_runtime.py:1334-1370 | An output passes exactly when it holds no secret and keeps to the tools, the four usage limits, mere proposals and named evidence |
| `AgentOutputs.UsageExactly` | services/rcao/app/agent_runtime.py:380-414 | What is compared with the limits: the reported figure, or a quarter of the text's length rounded up where none was reported, and the total reported, summed or estimated |
| `AgentOutputs.EndsExactly` | services/rcao/app/agent_runtime.py:1177-1240 | When a run is TIMED_OUT, CANCELLED, STOPPED or FAILED, from its last attempt |

## Left out

- Thread interleaving inside a call: every public call is one step, as the locks of the client, the service, the session
  and the in-memory budget repository make it; the Signer is reached only through the client's lock. Two database
  transactions on one Task interleave only in their start times.
- Cryptography: SHA-256 is a digest that is equal only for equal payloads; Ed25519, AES-GCM and the key store are outcomes
  of the environment. `uuid4` is a supply of fresh numbers.
- The outside world: signing, transport, provider, executor, verifier, stop controls, wallet look-up and clocks are
  parameters of each call, failures included. Times are whole seconds, except that a session call reads its clock up to
  three times.
- Field validation by pydantic, JSON parsing, SQL text and regular expressions: records are parsed, the redactor is a
  function with an idempotence assumption (`AuditValues.Stable`), and constructors that refuse a value are preconditions.
- Human-readable failure messages; error codes and statuses are kept. Timestamps of reservations and the persistence hooks
  of Signer and client are absent. Client branches for a session without a payment cannot be reached.
- `consume_reservation` of the database repository is proved as an operation on the budget rows, but nothing in the
  repository calls it, so a run of recorded payments never consumes; the workflow's own approval center, which enacts an
  answer to a payment in the same way, is not modelled a second time.
- The fields of a Signer request that come from the wallet and the profile's wallet fields are arbitrary in
  `SignerPipeline`.
- Foreign keys and the rows of other tables that the modelled code only reads; the unique and check constraints the
  proofs need are modelled.
- Client sessions are values in the client's map rather than shared objects, so aliasing of a session is not modelled.
- Text functions: `Texts.Upper` covers ASCII letters, the dotless i and the long s, `Texts.Folded` the letters of the
  internal prefixes; sharp s and ligatures are not modelled. Texts sort by code points.
- JSON numbers are integers, so the rewriting of floats by a JSON column is not modelled, nor are keys that only differ
  before `str`.
- The audit columns run, message, payment, ledger entry, evidence hash and previous hash, which replay ignores; they are
  hashed like the modelled ones.
- Audit rows about one Task that other components write: replay is proved for runs of `transition_task`.
- The timestamp in a repeated transition's answer is the recorded time, not its text form.
- The profile's wallet and key fields, so a rotation changes only the rotation state and version.
- The audit log of the Owner-directed store, its sub-tasks, proposals, external actions, agents, seed data and dashboards.
- Provider adapters and asyncio scheduling of the agent runtime: one attempt has one of ten endings.
- The Agent registry, A2A gateway, console, search, incidents, FastAPI routes and all TypeScript: guard chains, look-ups
  and presentation that would only add easy members.
