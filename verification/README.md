# Containment protocol: model and proofs

A Dafny model of how an alert becomes a block on a router, and proofs about it: intake drafts a
block, people approve it, one approval at a time claims it, the agent asks the broker, the broker
pushes to the tenant's routers, the outcome is recorded, and claims, checkpoints and queue files are
compacted. Around that core stand the smaller algorithms of the repository that have a promise of
their own: the suppression window, the replay cache, the sliding-window baseline, the exclusion
list, the vanished-claims metric and the playbook parser.

`dafny verify dfyconfig.toml` checks everything.

## How it is built

- `DocumentStore` is the checkpoint index as a store of versioned documents: every write takes the
  next number of one increasing sequence, and conditional writes compare it (the store's pair of
  sequence number and primary term).
- `CheckpointStore` has the store calls in place, as methods of a class: each may fail without
  effect, or take effect and still report an error, and other actors may write between any two of
  them.
- `Containment` is the whole protocol as one state machine over the same store functions: any
  number of intakes, racing approval attempts, operator decisions, compactor scans and deletions,
  the network, the broker with its replay cache, and one task per router. Every event is one atomic
  effect; a crash is an actor that never moves again; the broker may restart with an empty cache.
  What clocks, network and restarts may do is one parameter of the machine, `Timing`: how stale a
  clock reading a cache check may use, how soon after signing a request can be accepted, how late a
  message can still arrive, and how soon a restarted broker serves.
- `ContainmentClaims` is the invariant about claims, versions and verdicts, kept by every event in any
  timing. `ContainmentHistory`, `ContainmentRecord`, `ContainmentDraft`, `CompactorSimulation`,
  `AgentQueue` and `VanishedClaims` build on it and hold in any timing as well. `ContainmentGate` is
  the at-most-once theorem, which needs a tight timing, and `ContainmentReplay` the converse.
- `ContainmentOutcome` is what happens for certain: that a waiting alert can be claimed and sent, and that
  every outcome is recorded.
- `BrokerRpc`, `RouterDispatch`, `ReplayCache`, `SignedFraming` and `DedupKey` are the parts the
  protocol's safety rests on, each with its own theorem.
- `ApprovalQueue`, `BrokerQueue`, `QueueFiles`, `QueueRecovery` and `QueueProgress` are the queues: rows
  and views, then path -> inode -> lines with crash points, and what an uninterrupted append or compaction
  comes to.
- `Selection` says by positions which elements of a sequence another one consists of.
- `Suppression`, `SlidingWindow`, `ThresholdBaseline`, `Addresses`, `ExclusionGuard` and `Playbook` are
  the algorithmic cores.

## What is assumed of the environment

- HMAC is symbolic and injective (section 2 of RFC 2104); SHA-256 and uuid4 values do not collide.
- The network may lose, delay, duplicate and replay whole messages and reflect requests. A response
  is one unit of status, headers and body. Two services' clocks need not agree.
- A router command whose session was lost has taken effect, or never will, by the time of the
  follow-up check; exit status 1 from that check means the element is absent; nobody removes an
  element while the dispatch runs.
- No clock goes backwards; a cache check may use an older reading, because the broker reads the clock
  before it awaits the body. A store call has taken effect by the time it returns, if it ever does.
- A broker that restarts answers nothing it had accepted before; router commands already sent may
  still land.
- The operator tool is used on a claim whose last winner has stopped, and "released" only when
  nothing of that attempt is on a router or can still get there.
- The service clocks give whole seconds.
- The system starts empty; nothing but the modelled actors writes the checkpoint indices.
- One line of a queue file is one write. A crash may cut it short anywhere.

## What turned out false of the code, and exactly when it holds

- **At most one attempt blocks.** The replay cache forgets a signature `window` seconds after
  accepting it, and the timestamp stays valid until `window` seconds after signing. A request first
  accepted in the very second it was signed can therefore be accepted again, after its first handling
  failed and the claim was released and won by another attempt: two attempts leave a block. The same
  happens when a cache check uses a clock reading older than the request was at its first acceptance,
  because it awaited the body, and when the broker restarts, because the cache lives in the process.
  `ContainmentReplay.GateHoldsIffTight` gives the exact condition on the timing: the guarantee holds
  over all runs if and only if nothing can be accepted at all, or both the expiry of a cache entry and
  a restart come too late for a second acceptance, either because the timestamp has left the window or
  because no message arrives that late. `ContainmentReplay.WhatTightMeans` spells it out: where messages
  may arrive at any age, the lag has to exceed the slack of the clock readings and restarts have to
  leave the window behind; where no message arrives a window, or a restart, after the lag, nothing
  else is needed.
- **What the cache alone promises.** The broker reads the clock, then awaits the body, then checks the
  cache, so a check may use a reading up to some slack behind another one's. A request is accepted once
  if and only if its age at first acceptance exceeds the slack (`ReplayCache.AcceptedOnceIff`); never
  four times, if and only if three times the slack stays below the window
  (`ReplayCache.AtMostThreeIff`); its acceptances are a full window apart if and only if there is no
  slack (`ReplayCache.AWindowApartIff`), and a window less the slack always
  (`ReplayCache.AcceptancesAreApart`); and every entry expires within the next window of a check if and
  only if there is no slack (`ReplayCache.ExpireWithinAWindowIff`). Each failing run is in its proof.
- **A recorded failure is final.** That nothing of an attempt recorded as failed or released is on a
  router or can still get there holds in every run if and only if the timing is tight
  (`ContainmentReplay.VoidsAreBarrenIffTight`).
- **Alerts per span.** The bound counts the alerts whose store calls succeeded; a call that fails always
  alerts (`Suppression.AlertsPerSpan`).
- **An id stays in /pending until its block is confirmed**, except that a crash can leave the row that
  shows it without its line end: readers still see it, and the next write takes it away
  (`QueueRecovery.LeavesPendingIff`, `AgentQueue.LeavesPendingOnlyWhenIsolatedOrSpoiled`).
- **A deduplication key names one target.** A scoped IPv6 address may contain `|`, and then two
  addresses can share a key (`DedupKey.BarInAddressCollides`). Two alerts can get one id if and only
  if they agree on the tenant and the target part (address, bar, MAC, bar) of one is a prefix of the
  other's (`DedupKey.IdsCoincideIff`); for bar-free addresses that means the same target.
- **What is executed was drafted.** It holds in every run if and only if no alert that comes in can
  take over the id of another with a different target (`ContainmentDraft.ExecutedIsDraftedIff`).
- **No append is lost.** A crash in the middle of a line leaves a file that does not end in a line
  end, and the next line written continues it. Only the rows so spoiled can be missing
  (`QueueFiles.OnlySpoiledRowsAreLost`). An append loses nothing if and only if the live file ends at
  a line end or a spare copy of the row is there already; the replace of a compaction, if and only if
  the archive ended at a line end when the compaction began, or there is a spare copy of the first
  row it archived, which is so when an earlier compaction had archived that row before it crashed
  (`QueueFiles.AppendLosesNothingIff`, `QueueFiles.ReplaceLosesNothingIff`).
- **The broker's listing survives compaction** if and only if no aged-out `executed` id still has an
  open draft (`BrokerQueue.BrokerCompactionIsInvisibleIff`); no run of the endpoints reaches such a
  state.
- **The metric reports zero** for a snapshot of young claims. Where an attempt is about to release
  an older claim, release and compaction alone make the metric report it
  (`VanishedClaims.OldClaimCanVanish`).
- **A list that cannot be decoded** raises instead of failing closed; nothing is dispatched, but
  `/approve` files the draft as denied for an invalid address (`ExclusionGuard.Broker.ApproveDraft`).
- **The signed bytes** are unambiguous only because the timestamp must parse as an integer
  (`SignedFraming.UnparsedTimestampIsAmbiguous`).

## Model

| member | source | states |
|---|---|---|
| ContainmentReplay.GateHoldsIffTight | scripts/hive-mind-broker/app.py:307-338 | over every interleaving of approvals, intakes, crashes, broker restarts, store errors, lost or replayed messages, compactions and truthful operator moves, at most one attempt per alert ever leaves a block on a router, if and only if the timing is tight |
| ContainmentGate.AtMostOneAttemptBlocks | scripts/setup/ai_agent/agent.py:1508-1649 | the guarantee itself, for every run of a tight timing |
| ContainmentReplay.LooseTimingBreaksTheGate | scripts/hive-mind-broker/app.py:324-338 | in every other timing there is a run with one draft, two approvals and one duplicated request in which both approvals leave a block |
| ContainmentClaims.StepOk | scripts/setup/ai_agent/agent.py:1432-1649 | the claim invariant (exclusive holder, winners are attempts on the claim, verdicts true, stale versions harmless) is kept by every single event, in any timing |
| ContainmentGate.StepKeepsGate | scripts/hive-mind-broker/app.py:307-338 | every event of a tight timing keeps: handled requests can never be accepted again, and every winner but a standing holder is barren |
| ContainmentClaims.VerdictIsTrue | scripts/setup/ai_agent/agent.py:1584-1592 | a confirmed failure means this attempt's request was handled and left nothing; a confirmed success means a block is on a router |
| ContainmentClaims.CompactorDeletesOnlyTerminal | scripts/setup/ai_agent/compact_agent_checkpoints.py:128-145 | whatever a deletion removes is, at that very moment, no CLAIMED or RESOLVED claim and no PERCEIVING or PENDING_APPROVAL checkpoint |
| ContainmentHistory.AtMostOneHolder | scripts/setup/ai_agent/checkpoints.py:229-256 | in every reachable state at most one live attempt holds a given claim, and that claim is CLAIMED |
| ContainmentHistory.WinsNeverExceedReleasesPlusOne | scripts/setup/ai_agent/checkpoints.py:229-256 | in every run, the wins of a claim are its releases or one more |
| ContainmentHistory.WinsAreConserved | scripts/setup/ai_agent/checkpoints.py:198-341 | wins equal releases, plus one exactly while the claim stands, after every run |
| ContainmentHistory.ShutClaimsAreNeverRewon | scripts/setup/ai_agent/checkpoints.py:241-244 | a RESOLVED claim is never won again; a CLAIMED one whose holder has stopped only after an operator release |
| CompactorSimulation.CompactorChangesNothing | scripts/setup/ai_agent/compact_agent_checkpoints.py:310-391 | for every run with the compactor there is one without it that leaves the same attempts, network, broker, routers, record and history |
| CompactorSimulation.CreateIsReclaim | scripts/setup/ai_agent/checkpoints.py:236-256 | winning a deleted claim by creating it is matched by re-winning the released document by compare-and-set |
| ContainmentRecord.AttemptsAreSerialised | scripts/setup/ai_agent/agent.py:1595-1640 | in every run the record of two attempts on one alert never interleaves, each attempt writes in order with the claim's move last, its phase, queue row and claim agree, a recorded success means a block on a router, and a recorded failure or release that the request was never sent or its handling left nothing; that outcomes do get recorded is the next rows |
| ContainmentOutcome.SuccessIsRecorded | scripts/setup/ai_agent/agent.py:1575-1640 | handed the answer to its own complete handling in which a router succeeded, an attempt whose calls succeed leaves the checkpoint EXECUTED with its context, exactly a phase write, a success row and a RESOLVED claim, and every other document as it was |
| ContainmentOutcome.FailureIsRecorded | scripts/setup/ai_agent/agent.py:1584-1640 | where every router task failed or the broker refused: PENDING_APPROVAL, a failure row, and the claim RELEASED |
| ContainmentOutcome.AnyOtherReplyKeepsTheClaim | scripts/setup/ai_agent/agent.py:1595-1640 | any other reply the network may deliver, or none, leaves PENDING_APPROVAL, an unknown row, and the claim CLAIMED |
| ContainmentOutcome.RefusalIsRecorded | scripts/setup/ai_agent/agent.py:1177-1203 | an isolation refused by the agent itself, or without a usable address, sends nothing and is recorded like a failure |
| ContainmentOutcome.SuccessIsRecordedInEveryRun | scripts/setup/ai_agent/agent.py:1575-1640 | the same for a success while everyone else moves in between: once the attempt has stopped unhindered, phase write, row and settlement are in the record and the claim stays RESOLVED for good |
| ContainmentOutcome.FailureIsRecordedInEveryRun | scripts/setup/ai_agent/agent.py:1584-1640 | the same for a failure |
| ContainmentOutcome.ApprovalIsSent | scripts/setup/ai_agent/agent.py:1508-1575 | an approval of a waiting alert whose claim is absent or RELEASED, if nobody hinders it, wins the claim and sends a request for exactly the tenant, address and MAC on file |
| ContainmentOutcome.OnlyPendingAlertsAreClaimed | scripts/setup/ai_agent/agent.py:1508-1532 | in every run a claim is won only for an alert that waited for approval at some time |
| ContainmentOutcome.RequestsStayInTheirTenant | scripts/setup/ai_agent/agent.py:1549-1573 | in every run from any store, a foreign context under an id included, a request names the tenant of its alert |
| ContainmentOutcome.DraftIsFiled | scripts/setup/ai_agent/agent.py:1432-1506 | an alert that is to wait is filed as PENDING_APPROVAL with its context, with exactly one draft row, and nothing else changes |
| ContainmentOutcome.RulingTakesEffect | scripts/setup/ai_agent/manage_stuck_claims.py:140-202 | a truthful ruling on a claim nobody touches in between takes effect, and changes nothing else |
| ContainmentReplay.VoidsAreBarrenIffTight | scripts/setup/ai_agent/agent.py:1595-1640 | that a recorded failure or release means nothing of that attempt is on a router or can still get there holds in every run if and only if the timing is tight |
| ContainmentRecord.VoidIsBarren | scripts/setup/ai_agent/agent.py:1595-1640 | the guarantee itself, for every run of a tight timing |
| ContainmentDraft.ExecutedIsDraftedIff | scripts/setup/ai_agent/agent.py:1533-1573 | in every run each request a human-approved attempt sent names the tenant, address and MAC of a draft row recorded earlier under the same id, if and only if no alert that may come in can take over the id of another with a different target |
| ContainmentDraft.ClashingAlertIsExecuted | scripts/setup/ai_agent/agent.py:1533-1573 | of any two alerts that clash, a run drafts one and executes the other |
| ContainmentDraft.MoveKeepsDrafts | scripts/setup/ai_agent/agent.py:1602-1604 | each move of an approval, full-document checkpoint writes included, keeps the context filed under its own id |
| DedupKey.IdsCoincideIff | scripts/setup/ai_agent/agent.py:1651-1673 | two payloads can get one id if and only if they agree on the tenant and the target part of one is a prefix of the other's |
| DedupKey.TargetsShareAKeyIff | scripts/setup/ai_agent/checkpoints.py:51-55 | the same for the joined fields, whatever they contain |
| DedupKey.JoinIsInjective | scripts/setup/ai_agent/checkpoints.py:51-55 | with the fields before the severity and the bucket free of the bar, equal keys are equal in all five parts, and conversely |
| DedupKey.BarInAddressCollides | scripts/setup/ai_agent/checkpoints.py:51-55 | two different scoped addresses of one tenant share a key |
| DedupKey.SameIdSameTarget | scripts/setup/ai_agent/agent.py:1651-1673 | the case of bar-free addresses: two payloads filed under one id agree on tenant, address and MAC |
| DedupKey.PerceivedFieldsAreBarFree | scripts/setup/ai_agent/agent.py:1653-1658 | what the intake perceives as tenant and MAC holds no bar, and as address only if a parsed address itself does |
| DedupKey.WellFormedFieldsAreKept | scripts/setup/ai_agent/agent.py:1651-1658 | a tenant matching the slug grammar, a MAC of six separated pairs and an address that parses are kept as they are; anything else becomes "unassigned", empty and "unknown" |
| CheckpointStore.Store.ClaimApproval | scripts/setup/ai_agent/checkpoints.py:198-256 | under interference the claim is taken by at most one write, made when it was absent or RELEASED; an absent claim is always won when the first call succeeds; without faults a present one is won if and only if it was read as RELEASED and still has that version at the write; False means nothing was written and the claim was held, shut or had changed; an exception means a call failed |
| CheckpointStore.Store.TransitionClaim | scripts/setup/ai_agent/checkpoints.py:259-341 | the exact new store and document of a plain or conditional transition; False exactly when the version of a present claim differs, an exception exactly when the call failed, and True otherwise, an absent claim included |
| CheckpointStore.Store.CmdResolve | scripts/setup/ai_agent/manage_stuck_claims.py:140-202 | the operator tool changes only, and only with confirmation, the very claim version it read as CLAIMED, with a readable version and a readable age that is high enough or was forced; with all guards open it exits with 0 and the outcome written if that version still stands, and else with 1; every refusal exits with 1 and changes nothing |
| CheckpointStore.Store.Compact | scripts/setup/ai_agent/compact_agent_checkpoints.py:326-391 | with others writing in between, what was deleted was neither an open alert nor a claim that is CLAIMED or RESOLVED, old and untouched since the snapshot, and nothing due is left unless rewritten since; undisturbed, exactly the due documents go; the count is exact, and a dry run counts what is due and changes nothing |
| DocumentStore.CondemnedIffDue | scripts/setup/ai_agent/compact_agent_checkpoints.py:128-145 | a scan condemns exactly the documents older than the cutoff whose phase is none of the four that must stay, in their current versions |
| CheckpointStore.Store.CreateDoc | scripts/setup/ai_agent/checkpoints.py:236-241 | creation only when absent, and the answer under each fault |
| CheckpointStore.Store.PutDocIf | scripts/setup/ai_agent/checkpoints.py:248-256 | a conditional write takes effect only on the version it names |
| CheckpointStore.Store.UpdateDoc | scripts/setup/ai_agent/checkpoints.py:331-341 | a partial update changes the phase, keeps the rest, and never creates |
| BrokerRpc.RpcAgreement | scripts/setup/ai_agent/agent.py:516-783 | whatever the network did, True means the broker handled this very request and a router confirmed it; False that it handled it and no router may hold the block |
| BrokerRpc.ReplyReading | scripts/hive-mind-broker/app.py:529-618 | a genuine answer reads as success if and only if a router succeeded, as failure if and only if none may hold the block, and as unknown to any other request |
| BrokerRpc.DoubtIsUnknown | scripts/setup/ai_agent/agent.py:516-783 | a definite verdict needs a sealed reply that is no 500 or 504, names this request in its body or else in its header, and at status 200 is an object with numeric counts |
| BrokerRpc.NoneMayHoldMeansNotApplied | scripts/hive-mind-broker/dispatcher.py:429-442 | a soundly reported handling in which every task failed left nothing on any router |
| BrokerRpc.SomeSucceededMeansApplied | scripts/hive-mind-broker/dispatcher.py:429-442 | a soundly reported success is a block on a router |
| RouterDispatch.AggregationIsSound | scripts/hive-mind-broker/dispatcher.py:409-442 | over every interleaving of router tasks, raising ones included: each outcome is sound, no success and no unknown means nothing landed, a success means something did |
| RouterDispatch.OutcomesAreReported | scripts/hive-mind-broker/dispatcher.py:340-442 | over every interleaving, a task is reported a success exactly when its command exited with 0, a failure exactly when it never got there, was refused, or an answered check found the element absent, and unknown otherwise; the counts are the numbers of such tasks |
| RouterDispatch.Router.BlockIp | scripts/hive-mind-broker/dispatcher.py:340-406 | what one router holds after each outcome, and exactly when each outcome is reported |
| RouterDispatch.Router.ReconcileUnknown | scripts/hive-mind-broker/dispatcher.py:300-337 | reconciliation turns unknown into failed exactly when the check answered and the element is absent, never into success |
| RouterDispatch.StepKeepsInv | scripts/hive-mind-broker/dispatcher.py:340-406 | every step of every task keeps outcomes sound while other calls add elements |
| ReplayCache.Cache.NonceIsFresh | scripts/setup/ai_agent/agent.py:293-302 | the pruning loop and the insertion amount to: fresh exactly when no unexpired entry exists, then recorded for one window |
| ReplayCache.Cache.Verify | scripts/hive-mind-broker/app.py:307-338 | only a parsed, in-window, matching signature touches the cache, and it is accepted exactly when unseen |
| ReplayCache.AWindowApartIff | scripts/setup/ai_agent/agent.py:293-302 | in every run the acceptances of one request are a full window apart, if and only if no check uses a late reading (or the window is empty) |
| ReplayCache.AcceptancesAreApart | scripts/setup/ai_agent/agent.py:293-302 | whatever the slack, two acceptances of one signature are a window less the slack apart |
| ReplayCache.AcceptedOnceIff | scripts/hive-mind-broker/app.py:312-335 | a request is accepted once in every run if and only if its age at first acceptance exceeds the slack, or the window, so that it is never accepted |
| ReplayCache.AcceptancesFitItsLife | scripts/setup/ai_agent/agent.py:341-366 | n acceptances of one signature leave n - 1 gaps of a window less the slack within its life of two windows |
| ReplayCache.AtMostThreeIff | scripts/setup/ai_agent/agent.py:341-366 | no run accepts a request four times, if and only if three times the slack stays below the window |
| ReplayCache.ThreeAcceptancesHappen | scripts/setup/ai_agent/agent.py:341-366 | three acceptances do happen: the bound is tight |
| ReplayCache.ReplayableIffNotLaterThanSigned | scripts/hive-mind-broker/app.py:316-338 | with readings in order, an accepted request can be accepted again if and only if it was accepted no later than it was signed |
| ReplayCache.ExpireWithinAWindowIff | scripts/setup/ai_agent/agent.py:293-302 | in every run every entry expires within (now, now + window] right after a check, if and only if no check uses a late reading and the window is not empty |
| ReplayCache.EntriesExpireWithinAWindow | scripts/setup/ai_agent/agent.py:293-302 | whatever the slack, every entry expires within the next window plus the slack |
| SignedFraming.FramingIsUnambiguous | scripts/setup/ai_agent/agent.py:270-290 | among timestamps that parse, whatever characters count as digits and blanks besides the ASCII ones, equal signed bytes are equal timestamp and body, in either direction |
| SignedFraming.RequestIsNeverAResponse | scripts/hive-mind-broker/app.py:407-422 | no request payload equals any response payload |
| SignedFraming.UnparsedTimestampIsAmbiguous | scripts/setup/ai_agent/agent.py:335-341 | without the timestamp check two different messages share their signed bytes |
| ApprovalQueue.ListPending | scripts/setup/ai_agent/agent_app.py:69-72 | the loop computes the latest row of each id, in order of first appearance, without resolved ones |
| ApprovalQueue.PendingByPosition | scripts/setup/ai_agent/agent_app.py:69-72 | by position: /pending holds exactly the last row of each id, unless that is approved or denied, each id once, in the order in which the ids first appear |
| ApprovalQueue.IndexHoldsTheLatest | scripts/setup/ai_agent/agent_app.py:69-71 | the index holds exactly the latest row of each id, once |
| ApprovalQueue.QueueFile.Compact | scripts/setup/ai_agent/compact_agent_approval_queue.py:40-113 | the new live and archive files and the returned count, for both scripts, in dry runs and when nothing is due as well; by position, exactly the ids whose last row is terminal and older than the retention leave, all their rows in order, and all other rows stay in order |
| ApprovalQueue.ArchivableIffAged | scripts/setup/ai_agent/compact_agent_approval_queue.py:66-70 | an id is archived if and only if at its last position the status is terminal and the time, 0 if missing, plus the retention is before now |
| ApprovalQueue.SplitByPosition | scripts/setup/ai_agent/compact_agent_approval_queue.py:77-78 | the archived and the kept rows are those at the positions of the archived ids and at all others, in file order |
| ApprovalQueue.QueueFile.Append | scripts/setup/ai_agent/agent.py:1114-1135 | the appended row becomes its id's latest for every reader, and no other id's latest changes |
| ApprovalQueue.CompactionConserves | scripts/setup/ai_agent/compact_agent_approval_queue.py:77-78 | each row goes to exactly one of the two files |
| ApprovalQueue.AgentCompactionIsInvisible | scripts/setup/ai_agent/compact_agent_approval_queue.py:59-78 | the agent's /pending is identical, in content and order, before and after a compaction |
| BrokerQueue.BrokerCompactionIsInvisibleIff | scripts/hive-mind-broker/compact_broker_approval_queue.py:57-76 | the broker's /pending is identical before and after if and only if no aged-out executed id has an open draft |
| BrokerQueue.BrokerPendingByPosition | scripts/hive-mind-broker/app.py:621-628 | by position: the broker lists exactly the pending rows whose id is nowhere approved or denied, in file order, and fails exactly when a row of one of these statuses has no id |
| BrokerQueue.CompactionIsInvisibleInEveryRun | scripts/hive-mind-broker/app.py:621-628 | in every state the endpoints and compactions reach, a compaction leaves /pending as it was |
| BrokerQueue.ListedUntilResolved | scripts/hive-mind-broker/app.py:472-703 | in every run of the endpoints, with any compactions in between, the broker's /pending shows an id exactly from its draft to its approval or denial |
| AgentQueue.ShownAcrossCompactions | scripts/setup/ai_agent/agent_app.py:58-72 | with any compactions in between, an id is shown if and only if its latest row ever appended is not a resolution |
| AgentQueue.ShownUntilIsolated | scripts/setup/ai_agent/agent.py:1607-1616 | with any compactions in between, an id that was queued is shown exactly until its confirmed success is its latest row |
| AgentQueue.LeavesPendingOnlyWhenIsolated | scripts/setup/ai_agent/agent.py:1607-1616 | in every protocol run, with compactions but no crashed appends, an id ever queued is still shown unless an attempt on it left a block and recorded the success |
| AgentQueue.LeavesPendingOnlyWhenIsolatedOrSpoiled | scripts/setup/ai_agent/agent.py:1114-1135 | over the files, with crashes anywhere, an id once shown is still shown, or its block was confirmed and is on a router, or the row that showed it had lost its line end in a crash and was continued by the next write |
| QueueRecovery.LeavesPendingIff | scripts/setup/ai_agent/agent.py:1153-1172 | in every reachable state, a step or crash takes an id out of /pending if and only if it appends the id's resolution or continues the unended row that showed it |
| QueueFiles.OnlySpoiledRowsAreLost | scripts/setup/ai_agent/agent.py:1114-1135 | under every interleaving of appenders and compactions, with crashes anywhere, each completed append is a complete line of the live file or the archive, as often as it was appended, except for the rows written onto a line a crash had cut short |
| QueueFiles.AppendLosesNothingIff | scripts/setup/ai_agent/agent.py:1114-1135 | in every reachable state that has lost nothing, an append loses nothing if and only if the live file ends at a line end or holds a spare copy of the row |
| QueueFiles.ReplaceLosesNothingIff | scripts/setup/ai_agent/compact_agent_approval_queue.py:87-111 | the replace of a compaction loses nothing if and only if the archive ended at a line end as it began, it archived nothing, or there is a spare copy of the first row it archived |
| QueueFiles.StepKeepsInv | scripts/setup/ai_agent/compact_agent_approval_queue.py:40-113 | every step and crash, onto torn files as well, keeps: one lock holder, distinct inodes, nothing lost but what was spoiled, and a running compaction relying only on what it started from |
| QueueFiles.AppendSurvivesIff | scripts/hive-mind-broker/app.py:254-274 | a written line is readable as itself if and only if the file did not end in the middle of a line |
| QueueRecovery.RerunGivesTheSameFile | scripts/setup/ai_agent/compact_agent_approval_queue.py:87-111 | however many compactions crashed wherever they were, one that finishes leaves the live file an uninterrupted one would have left |
| QueueProgress.CompactionCompletes | scripts/setup/ai_agent/compact_agent_approval_queue.py:40-113 | from any consistent files with the lock free, a compaction left alone finishes: the live file is its compacted self, the archive is extended by exactly the archived rows, the lock is free |
| QueueProgress.AppendCompletes | scripts/setup/ai_agent/agent.py:1114-1135 | and an append left alone finishes with its row written at the end of the live file |
| QueueRecovery.CompactingTwice | scripts/setup/ai_agent/compact_agent_approval_queue.py:66-78 | compacting twice is compacting once with the later cutoff |
| QueueRecovery.LiveChangesAtomically | scripts/setup/ai_agent/compact_agent_approval_queue.py:98-111 | apart from appends the live file only ever changes by becoming its compacted self, in one step |
| QueueRecovery.ReadersNeverNotice | scripts/setup/ai_agent/agent.py:1153-1172 | a reader without the lock sees the same /pending before and after every compaction step and crash |
| QueueRecovery.CompactionIsLosslessIff | scripts/setup/ai_agent/compact_agent_approval_queue.py:87-111 | a compaction conserves the rows of both files if and only if it has nothing to archive or the archive ends at a line end |
| QueueRecovery.TornArchiveSpoilsTheFirst | scripts/setup/ai_agent/compact_agent_approval_queue.py:91-96 | archiving onto a torn archive loses exactly the first row it writes |
| Suppression.SuppressionStore.ShouldSuppress | scripts/setup/ai_agent/checkpoints.py:57-144 | the decision and the document written back, store errors on the read and the write included, and that a missing host or technique is never suppressed and writes nothing |
| Suppression.SilenceHasAnAlert | scripts/setup/ai_agent/checkpoints.py:57-144 | so a suppressed call has an alert less than the maximum before it, a critical one if it is critical itself, and a call less than the window before it |
| Suppression.DocumentTellsTheStory | scripts/setup/ai_agent/checkpoints.py:117-140 | after every sequence of calls, store errors included, the document names the time and severity of the call that opened the window, the last call whose write took effect, and how many writes took effect since the opening |
| Suppression.SuppressionIsBounded | scripts/setup/ai_agent/checkpoints.py:121-125 | in every run, store errors included, a call is suppressed if and only if its store calls succeed, the last write is within the window, the last opening within the maximum, and a critical call has a critical opening before it |
| Suppression.AlertsPerSpan | scripts/setup/ai_agent/checkpoints.py:106-145 | in every run, store errors included, the alerts in a span L number at most 2(L / min(window, maximum) + 1) plus the failed calls among them |
| SlidingWindow.WindowMax | scripts/setup/suricata_threshold_baseline.py:128-136 | for every sorted list the two-pointer loop returns the maximum, over every real start, of the events in [t, t + seconds) |
| ThresholdBaseline.AnalyzeEvents | scripts/setup/suricata_threshold_baseline.py:151-180 | each result states event and key counts, the true maximum over all keys and windows, the first key to reach it in order of appearance, the keys reaching the shipped count, the suggestion and the note; first and last bound the relevant events |
| ThresholdBaseline.Collect | scripts/setup/suricata_threshold_baseline.py:153-162 | the dictionary holds every key's series in order of arrival, the keys in order of appearance, and no empty ones |
| ThresholdBaseline.SeriesByPosition | scripts/setup/suricata_threshold_baseline.py:153-162 | a key's series is the times of exactly the rule's events whose source, or destination, is the key, in order of arrival |
| ThresholdBaseline.TracksByPosition | scripts/setup/suricata_threshold_baseline.py:151-153 | what a rule tracks by is what its last candidate says |
| ThresholdBaseline.FirstSeenInOrder | scripts/setup/suricata_threshold_baseline.py:156-162 | keys are listed in the order of their first events |
| ThresholdBaseline.NoKeyReachesTheSuggestion | scripts/setup/suricata_threshold_baseline.py:170-177 | with a margin of at least 1 no baseline key reaches the suggested count in any window once there was traffic, and the suggestion never drops below the shipped count |
| ThresholdBaseline.NotesAreTrue | scripts/setup/suricata_threshold_baseline.py:172-177 | with a margin of at least 1 a rule noted as clearing its baseline has no key that reaches the shipped count, and one noted as untested has no event in any window |
| ThresholdBaseline.ResultIsOrderBlind | scripts/setup/suricata_threshold_baseline.py:151-180 | permuting the events changes nothing but which of several equal top keys is named |
| Addresses.ContainsIffSharesPrefix | scripts/hive-mind-broker/dispatcher.py:118-121 | an address is in a network if and only if they share the prefix, that is, if it lies in the block at the masked base (section 3.1 of RFC 4632) |
| ExclusionGuard.LoadExcludedIps | scripts/hive-mind-broker/dispatcher.py:67-89 | the set holds exactly the networks on the list, or the read failed as a whole |
| ExclusionGuard.IsExcludedIp | scripts/hive-mind-broker/dispatcher.py:103-124 | clear if and only if the list is readable and the address outside every entry |
| ExclusionGuard.RoutersForIsTheTenants | scripts/hive-mind-broker/inventory.py:40-49 | exactly the inventory's routers of that tenant |
| ExclusionGuard.FindDraftIsTheLast | scripts/hive-mind-broker/app.py:664-670 | the draft found for an id is the last one filed under that very id |
| ExclusionGuard.EveryPushIsGuarded | scripts/hive-mind-broker/dispatcher.py:419-428 | over every run of all four paths, a router got a block only from a call that admits it: the address outside every entry of every list read on the way, the last at that dispatch, the MAC not listed, auto-block on for an alert, the draft filed under the approved id, and the router of the call's tenant |
| ExclusionGuard.PushedIffGuardOpen | scripts/hive-mind-broker/app.py:578-595 | one call pushes to a router if and only if every check on its path is open and the router is its tenant's |
| ExclusionGuard.PushedIffAdmitted | scripts/hive-mind-broker/app.py:472-703 | one call pushes exactly what its path admits, in literal terms: for an approval the address and tenant of the last draft under that id, not yet resolved; for the agent a MAC and a text off the list; for an alert auto-block on |
| ExclusionGuard.PushesInOrder | scripts/hive-mind-broker/dispatcher.py:409-428 | to each router of the tenant once, in inventory order, with one address |
| ExclusionGuard.Broker.Serve | scripts/hive-mind-broker/app.py:472-703 | any sequence of calls through the broker's own methods is a run of the four paths, and every push it made was guarded |
| ExclusionGuard.Broker.DispatchBlockToAll | scripts/hive-mind-broker/dispatcher.py:409-428 | the list is read again right before the commands go out, and decides alone |
| ExclusionGuard.Broker.WebhookDispatch | scripts/hive-mind-broker/app.py:529-618 | which pushes the endpoint makes, and when it reports execution |
| ExclusionGuard.Broker.WebhookAlert | scripts/hive-mind-broker/app.py:472-525 | drafts for approval, or pushes at once under the auto-block flag |
| ExclusionGuard.Broker.ApproveDraft | scripts/hive-mind-broker/app.py:632-703 | which pushes an approval makes and how the draft found under that id is resolved on every path; an unknown, empty or resolved id changes nothing |
| ExclusionGuard.Broker.ExecuteIsolation | scripts/setup/ai_agent/agent.py:1177-1203 | sent if and only if the address is outside every entry of a readable list, its text not on it, and the MAC absent or not on it; the pushes are those of the broker |
| VanishedClaims.NoFalseAlarm | scripts/setup/ai_agent/slo_metrics.py:1150-1198 | if only the protocol and the compactor act and every claim snapshotted as CLAIMED is younger than retention less the baseline window, the metric answers zero or unavailable |
| VanishedClaims.ReportsExactlyTheGone | scripts/setup/ai_agent/slo_metrics.py:1183-1198 | whatever happened to the store, an answer lists a snapshotted claim, under its own index and id, if and only if it is gone |
| VanishedClaims.AnswersIff | scripts/setup/ai_agent/slo_metrics.py:1150-1198 | the metric answers exactly when there is nothing to look up or every lookup was answered |
| VanishedClaims.OldClaimCanVanish | scripts/setup/ai_agent/compact_agent_checkpoints.py:310-323 | wherever an attempt is about to release an older claim, release, scan and deletion alone make it vanish |
| Playbook.Parse | playbooks/migration/split_ir_sigma_playbook.py:112-236 | the nested loops terminate and compute the recursive specification, failures included |
| Playbook.ParsedRecordsMatch | playbooks/migration/split_ir_sigma_playbook.py:201-208 | in every record parsed from any input, the tactics, techniques and evidence are exactly those its own first and fifth sections show |
| Playbook.ExtractMitre | playbooks/migration/split_ir_sigma_playbook.py:99-109 | the tactics and the technique cell of the last row that has them |
| Playbook.ParseUndoesPrint | playbooks/migration/split_ir_sigma_playbook.py:125-236 | for every printable sequence of families, rules with or without metadata, chapters and stray headings, the parser gives the expected records and warnings |
| Playbook.RecordsByPosition | playbooks/migration/split_ir_sigma_playbook.py:149-232 | these are: one record per rule, in order, with its id, title, metadata or the defaults, the family of the last heading before it, each section its body without the empty lines around it, and the tactics, technique and evidence of its own sections |
| Playbook.WarningsByPosition | playbooks/migration/split_ir_sigma_playbook.py:125-192 | and a warning exactly for every unmapped family, stray heading, rule without metadata and empty section |
| Playbook.UnderByPosition | playbooks/migration/split_ir_sigma_playbook.py:173-186 | a subsection collects exactly the lines whose last subsection heading has its number, in order |
| Playbook.OverflowsByPosition | playbooks/migration/split_ir_sigma_playbook.py:173-186 | a rule fails exactly when some line stands under a number outside 1 to 5 |
| Playbook.TacticsByPosition | playbooks/migration/split_ir_sigma_playbook.py:99-109 | the tactics are those of the last tactics row |
| Playbook.EvidenceByPosition | playbooks/migration/split_ir_sigma_playbook.py:201-208 | the evidence is the texts of all evidence lines, in order |
| Playbook.TrimDropsOnlyEmptyLines | playbooks/migration/split_ir_sigma_playbook.py:190-191 | a section's text is its body without the empty lines around it |
| Playbook.CollectSubsections | playbooks/migration/split_ir_sigma_playbook.py:173-186 | each subsection collects the lines under its number up to the next family, anchor or end; a line under another number fails |

## Left out

- HTTP, Flask and FastAPI, SSH, Elasticsearch, Kibana, the language model, notifications and PDF code: foreign calls, present only as outcomes.
- `execute_approved` and `run` as single methods: they are modelled as interleaved steps, because what they promise is about interleavings.
- At most one block for the broker's own `/approve` and for the autonomous path: neither takes a claim, and the code does not promise it.
- The retries and polling of the checkpoint compactor (`_wait_for_task`): whatever it reports, the deletions are those of the modelled scan.
- The list and show commands of the operator tool, and `search_stuck_claims`: read-only.
- The agent's replay cache for responses, inside the protocol: a stale or repeated response reads as unverified, which is one of the deliveries the model already allows.
- Header, key and secret checks, and everything else about attackers: this is a correctness model.
- Time-outs as durations: a call that times out is a call whose answer was lost.
- NoFalseAlarm: the cap of each search is 200; a claim beyond it is not tracked at all.
- ShouldSuppress: two intakes that race on one key are not modelled; a host and a technique are a pair, which their joined text determines because a technique holds no bar.
- AnalyzeEvents: times and the margin are real numbers, without float rounding; reading rules and events from text is not modelled.
- ListPending: rows are parsed objects; lines that do not parse are skipped before it.
- QueueFile.Compact: a line that parses to something other than an object is not modelled.
- CompactionIsInvisibleInEveryRun: rows parse; a line that does not makes the broker's listing fail until a compaction drops it.
- Parse: the line patterns themselves are not modelled; a line is given as what the patterns see in it.
- EveryPushIsGuarded: address and list-line parsing is not modelled; an IPv4-mapped IPv6 address is, as in the code, inside no IPv4 entry.
- The other service-level metrics, the threat-intelligence compactor, generators, hunts, the environment loader and the web pages: plumbing, or easy members.
