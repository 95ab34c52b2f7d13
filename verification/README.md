# A Dafny model of vq

vq is a cross-machine job queue. This project models the parts of it that have to stay right
when processes die, networks lose or repeat messages and several writers meet: the fleet broker,
the journaled virtualenv replacement, the campaign engine and its controller, the layout
migrator, the benchmark runner, unattended updates and the test sharder. Each part keeps the
form it has in the program. Objects whose methods update their fields are classes, loops are
loops with invariants, and frozen values with their transitions are datatypes and functions.
The main results are about every run, every crash point, every interleaving or every input.

- **Broker** (`BrokerRecord`, `BrokerTransitions`, `BrokerJson`, `BrokerReading`, `BrokerProtocol`,
  `BrokerCharges`, `BrokerDecision`, `BrokerPass`, `BrokerRound`, `BrokerService`,
  `BrokerCounterexamples`). A record changes by compare-and-swap. The fleet is a state machine
  over the store, the targets' claims and fences per state root, the requests that ever left,
  the broker's armed send, the clock and the figures targets published. Delivery may happen at
  any time, any number of times or never, and the broker may stop between any two writes. The
  passes are imperative code: every effect they have is a step of that machine, recorded in a
  ghost trace, and other clients act between any two of their steps. So what is proved of every
  run holds of every pass.
- **Virtualenv replacement** (`VenvTransaction`). Renames, writes and removals over a handful of
  names, each of which may be where the process dies, and a recovery that may die too.
  `Outcome()` is what a recovery would leave; one rename changes it.
- **Campaigns** (`CampaignGraph`, `CampaignStatus`, `CampaignJournal`, `CampaignController`,
  `CampaignRun`, `CampaignCleanup`, `CampaignLaws`). The graph checks, the standing of every
  node, the journal that accepts or refuses attempts, the actions of a pass against a queue that
  answers late or not at all, and the passes, retries, restarts and cleanups over all of it.
- **Smaller cores**: `LayoutMigrate` (apply and undo on a symbolic file system),
  `BenchmarkRunner` (one unfinished run per class, results saved before the journal), `SemVer`
  and `AutoUpdate` (precedence, and updates that never go back), `Sharder` (the greedy load
  bounds). `StringOrder`, `JsonModel` and `Common` hold what they share.

## What holds only under a condition

Four properties fail on inputs the code can receive. Each has its failing case, built from the
empty broker or from any campaign, and a result for when it does hold.

- A direct target does not compare the request's recorded state root with its own when the
  submission lands. At most one root ever accepts a job as long as deliveries land at the root
  they were sent to (`AtMostOneAcceptedRoot`). For every job that can be sent at all, a run with
  one stray delivery ends with two roots holding it (`StrayRunBreaks`, `TwoRootsReachable`).
- An answer without published figures has no age, so it passes the freshness test and can settle
  a charge that no figures have taken over (`FigurelessRunUncounts`, `UncountedReachable`). A run
  keeps every accepted job counted at every moment exactly when each of its settlements uses an
  answer with figures or comes after newer ones were published (`CountedIffCovered`).
- `authorize_retry` takes the attempt listed last as the latest, while the journal's check sorts
  first. An accepted journal accepts the retry exactly when the attempt listed last is the latest
  (`RetryAcceptedIffListedLast`); in any campaign an accepted journal in another order refuses its
  retry (`OutOfOrderRetryRefused`). A journal the controller wrote itself always is in that order.
- Cleanup looks for leftovers inside payloads and artifacts by name. It spares everything a
  resend, a stage or a retry needs exactly when nothing needed holds a dot-name that ends
  `.staging` or `.copy` (`CleanupSafeIffTidy`); in any campaign one such file in a published
  output is taken (`LookalikeLost`, `Lookalike`).

Two more are conditions that the code meets.

- A record reads back as it was written exactly when its held blockers are in ascending order of
  distinct hosts (`RoundTripIffSorted`, with `UnsortedBlockersReordered` for the other case). The
  passes save them so, and then every record of a run reads back exactly (`RunReadsBack`).
- An undo leaves an archive where it is once the plan itself has put something else at the
  archive's old name (`ReusedNameKeepsArchive`). The planner does not: archives leave `~/bin`, and
  the names it makes are under `~/vq`.

## Model

| member | source | states |
|---|---|---|
| `VenvTransaction.VenvReplacement.Begin` | scripts/_venv_transaction.py:401-442 | refuses exactly when a receipt is there, and then changes nothing; wherever it dies, what a recovery would leave is unchanged and no candidate is displaced; when it succeeds the receipt is armed with the staged candidate's inode and the target is untouched |
| `VenvTransaction.VenvReplacement.Start` | scripts/_venv_transaction.py:444-507 | succeeds exactly when an armed transaction is there to start; then the target is an empty directory with the transaction's marker and the backup is the original; wherever it dies the outcome is unchanged, the candidate is not displaced and the receipt is not torn, so recovery does not refuse |
| `VenvTransaction.VenvReplacement.Swap` | scripts/_venv_transaction.py:483-507 | the renames after the durable phase: a crash between any two leaves the same outcome to recover and no displaced candidate |
| `VenvTransaction.VenvReplacement.ReplaceReceipt` | scripts/_venv_transaction.py:208-252 | the receipt changes in one step; a crash leaves the old receipt and at most a scratch file |
| `VenvTransaction.VenvReplacement.Reconcile` | scripts/_venv_transaction.py:510-636 | refuses exactly without a readable receipt or with a displaced candidate; a success leaves the target as decided and backup, stage, marker and receipt gone; it reports an installation exactly when the committed phase was durable; a crash keeps the outcome, so recovery can be repeated |
| `VenvTransaction.VenvReplacement.Commit` | scripts/_venv_transaction.py:651-676 | succeeds exactly when the built candidate can be committed; the outcome stays as it was or becomes exactly the candidate without its marker, never anything else; wherever it dies it displaces no candidate and tears no receipt |
| `VenvTransaction.VenvReplacement.RunThenRecover` | scripts/_venv_transaction.py:639-676 | after any script of commands and recoveries, each of which may die or refuse anywhere, a recovery leaves the target the script decided on and no trace of the transaction; a commit alone changes what is decided, to the target it found, and one that succeeded did; unless an installer put another directory in the candidate's place it refuses only where all is settled already or the first receipt was never completed, and only a begin can leave that |
| `BrokerRecord.NextKeepsGrounded` | src/vq/broker_store.py:552-604 | no accepted transition produces a record that publication refuses; the revision rises by exactly one; the job's identity and its settled attempts are untouched |
| `BrokerRecord.NextMoves` | src/vq/broker_store.py:1235-1479 | which transition may move an attempt from which phase to which; target, key, snapshot and charge of an attempt never change; only a reservation of an uncancelled held job adds one; a cancellation stays |
| `BrokerRecord.OnlyFenceReturns` | src/vq/broker_store.py:1328-1351 | an attempt whose transfer began is returned by no transition but a fence, and its reason says so |
| `BrokerRecord.AnyInterleaving` | src/vq/broker_store.py:1052-1069 | for any writers with any views in any order the record stays publishable, its revision counts the writes, and returned attempts stay as they were |
| `BrokerRecord.NewRecordGrounded` | src/vq/broker_store.py:1071-1187 | an accepted job starts as a record that publication accepts |
| `BrokerRecord.SingleCharge` | src/vq/broker_store.py:962-985 | only the newest attempt of a record can hold a charge |
| `BrokerRecord.FingerprintBinds` | src/vq/broker_store.py:673-690 | equal fingerprints mean equal host, root, key, intent and payload |
| `BrokerRecord.NextKeepsFingerprinted` | src/vq/broker_store.py:1481-1528 | every recorded fingerprint stays that of the attempt that carries it, so a replay sends what was begun |
| `BrokerRecord.ParseReason` | src/vq/broker_store.py:1531-1534 | a reason is a non-empty prefix of the text, within the maximum length, or refused |
| `BrokerTransitions.LegalIff` | src/vq/broker_store.py:1235-1479 | each transition is accepted exactly when a table over state, cancellation, newest attempt and arguments says so |
| `BrokerTransitions.WritesExactly` | src/vq/broker_store.py:1235-1479 | what each accepted transition writes, field by field: the next revision, the time, the new state, the cancellation, and in the newest attempt only what the transition is about |
| `BrokerTransitions.SwapWrites` | src/vq/broker_store.py:1052-1069 | a write is made exactly when its view is current and the table allows the transition, and otherwise nothing changes |
| `BrokerTransitions.OpensExactly` | src/vq/broker_store.py:1250-1307 | a reservation opens the attempt numbered next, on the decision's host and root, charged with what the job asks for and not begun; of several reasons for one host the last is kept |
| `BrokerTransitions.PublishableIff` | src/vq/broker_store.py:552-604 | a record may be published exactly when each attempt shows what its phase and the record what its state calls for, all but the newest attempt are returned and released, and only a cancelled record's cancellation is complete |
| `BrokerTransitions.IntentMeans` | src/vq/broker_store.py:209-253 | an intent is refused exactly for one of the listed faults |
| `BrokerTransitions.JobIdMeans` | src/vq/broker_store.py:136-139 | a job id is `b-` and twelve hexadecimal digits |
| `BrokerTransitions.TargetIdMeans` | src/vq/broker_store.py:506-512 | a target's job id is one path component of letters, digits, dots, underscores and hyphens |
| `BrokerTransitions.ReasonMeans` | src/vq/broker_store.py:1531-1534 | a reason is refused exactly when it is nothing but white space, and otherwise kept up to its maximum length |
| `BrokerTransitions.StartsHeld` | src/vq/broker_store.py:1071-1187 | an accepted job starts held at its first revision, with nothing tried and nothing cancelled |
| `BrokerTransitions.SnapshotMeans` | src/vq/broker_store.py:1262-1285 | a reservation records the snapshot figure by figure, with its authority and runtime pins where it has them |
| `BrokerTransitions.FingerprintMeans` | src/vq/broker_store.py:673-690 | a fingerprint is of the document that names host, root, key, intent and payload, with the snapshot's authority and pins where it has them, and nothing else |
| `BrokerJson.RecordRoundTrip` | src/vq/broker_store.py:607-666 | a record as it may be read is read back as itself with its held blockers in canonical order |
| `BrokerJson.RoundTripIffSorted` | src/vq/broker_store.py:434-450 | it reads back exactly if and only if its blockers were in ascending order of distinct hosts |
| `BrokerJson.TransferReadsBack` | src/vq/broker_store.py:1370-1393 | the record a transfer begins with reads back exactly, so what is sent is what was recorded |
| `BrokerJson.SortedPairsReadBack` | src/vq/broker_placement.py:264-273 | blockers about distinct hosts, sorted, are in the order they read back in |
| `BrokerReading.ReadsOnly` | src/vq/broker_store.py:491-666 | a stored document is taken as a record only if it says what that record would be written as, up to how numbers are spelled; the record may be published, passes every field check and has its blockers in order; every other document is refused |
| `BrokerReading.ReadStable` | src/vq/broker_store.py:607-666 | what was read once, written and read again is the same |
| `BrokerReading.ReadIntent` | src/vq/broker_store.py:607-666 | an intent is taken only from the very document it would be written as |
| `BrokerCounterexamples.UnsortedBlockersReordered` | src/vq/broker_store.py:1235-1248 | a held job takes blockers in any order, and two out of order are read back in another |
| `BrokerProtocol.StepKeeps` | src/vq/broker_placement.py:292-365 | every step of the fleet keeps the invariant: requests and claims belong to begun attempts, placed attempts are witnessed by a claim, target job ids are unique |
| `BrokerProtocol.RequestMeans` | src/vq/broker_store.py:1481-1528 | a request is built exactly for a transferring record whose newest attempt carries its own fingerprint; it goes to that attempt's root under its key with the record's intent and payload |
| `BrokerProtocol.AtMostOneAcceptedRoot` | src/vq/broker_placement.py:292-365 | in every run from the empty broker, any two accepted claims of one key, however far apart in time, are at the same state root |
| `BrokerProtocol.StrayDeliveryBreaks` | src/vq/broker_placement.py:679-709 | from any state in which a sent request can land at another root that has not seen its key, two roots end up with the job |
| `BrokerCounterexamples.StrayRunBreaks` | src/vq/broker_placement.py:679-709 | for every job that can be sent at all, the run from the empty broker that accepts, reserves, transfers and sends it and delivers one copy astray ends with two roots holding it |
| `BrokerCounterexamples.TwoRootsReachable` | src/vq/broker_placement.py:679-709 | such a run exists |
| `BrokerProtocol.PlacedNamesTheJob` | src/vq/broker_store.py:1410-1440 | a placed record names the job its target accepted, with the content recorded, and no other root holds one |
| `BrokerProtocol.AcceptedIsNewest` | src/vq/broker_store.py:1328-1351 | an accepted job belongs to the newest attempt, which is in transfer or placed: an accepted attempt is never given back |
| `BrokerProtocol.OneRoot` | src/vq/broker_service.py:148-204 | in every reachable state two accepted claims of one key are at one root |
| `BrokerProtocol.ClaimsStandForEver` | src/vq/submit.py:4413-4474 | an acceptance or a fence at a root is there in every later state, unchanged |
| `BrokerProtocol.CancellationWins` | src/vq/broker_placement.py:300-346 | once a cancellation is durable, in any run that follows it stays, nothing is reserved, no transfer begins, and at most the send already past its last check goes out |
| `BrokerProtocol.NotArmedAgain` | src/vq/broker_store.py:1370-1385 | no step arms a send for a cancelled job, and the one that was armed is used once |
| `BrokerProtocol.SettlingFigures` | src/vq/broker_capacity.py:388-396 | an answer that settles a charge comes from the attempt's own root, and figures it carries were published after the acceptance |
| `BrokerProtocol.SettleCountsIff` | src/vq/broker_placement.py:533-575 | after a settlement all that is accepted is counted if its answer carried figures or the target had published since the acceptance, and not otherwise |
| `BrokerProtocol.CountedIffCovered` | src/vq/broker_placement.py:533-575 | exactly the runs all of whose settlements are so covered keep every accepted job counted at every moment |
| `BrokerProtocol.AcceptedIsCounted` | src/vq/broker_placement.py:533-575 | in every run whose settlements are covered by figures, an accepted job is counted by its charge or by figures its target published after accepting it |
| `BrokerProtocol.FigurelessSettlementUncounts` | src/vq/broker_capacity.py:218-220 | from any state with a placed job whose target never published, an answer without figures settles it |
| `BrokerCounterexamples.FigurelessRunUncounts` | src/vq/broker_capacity.py:218-220 | for every job that can be sent at all, a run from the empty broker with no stray delivery places it, settles it on an answer without figures and leaves it counted by nothing |
| `BrokerCounterexamples.UncountedReachable` | src/vq/broker_capacity.py:218-220 | such a run exists |
| `BrokerCharges.OutstandingCharges` | src/vq/broker_store.py:962-985 | the totals are, per host, the sum over all records of their single unreleased charge, and over all hosts the sum of all |
| `BrokerCharges.DebitSnapshots` | src/vq/broker_placement.py:107-151 | a scheduler lane's known free slots fall by exactly the slots charged anywhere, a direct host's three known figures by exactly what is charged to it; unknown figures stay unknown and nothing else changes |
| `BrokerCharges.AdmittedIff` | src/vq/overview.py:1645-1716 | a job is admitted on the debited snapshot exactly when nothing but headroom could keep it out and the undebited one has room for its charge on top of everything outstanding |
| `BrokerCharges.BlockerIsFirst` | src/vq/overview.py:1645-1716 | whenever a reason against the host is true, the one given comes no later in the list of reasons |
| `BrokerCharges.BlockerHolds` | src/vq/overview.py:1645-1716 | the reason given is true |
| `BrokerCharges.EligibleIff` | src/vq/overview.py:1645-1716 | a host is eligible exactly when none of the reasons is true of it |
| `BrokerCharges.TextNames` | src/vq/overview.py:1655-1715 | the text given for a host tells which reason it stands for; only `capacity-invalid` stands for three |
| `BrokerDecision.RankPrefers` | src/vq/overview.py:1556-1573 | among eligible hosts the sort key orders direct hosts before scheduler lanes, then by more free memory, more free CPUs, fewer CPUs pending, longer idle and name |
| `BrokerDecision.PlaceBrokerJob` | src/vq/overview.py:1719-1755 | exactly the eligible hosts are ranked, each before every host it is preferred to; each of the others has its reason, in order of hosts |
| `BrokerPass.Walk` | src/vq/broker_placement.py:236-263 | the first usable host of the ranking, and for every host before it the reason that applies first |
| `BrokerPass.RankHosts` | src/vq/broker_placement.py:218-225 | every host that may take the job is ranked unless a re-ranking dropped it, every ranked host may take it, and each of the others has its reason |
| `BrokerPass.Choose` | src/vq/broker_placement.py:213-275 | the reservation is on the debited snapshot of a usable host that admits the job, at the root the policy knows; without a re-ranking it is preferred to every other host that could take the job; none means every host offered is ruled out by a true reason, the walk or the re-ranking, and each is listed; the blockers are in ascending order of distinct hosts |
| `BrokerPass.Broker.HoldBack` | src/vq/broker_placement.py:226-233 | the blockers are saved as they are, in ascending order of hosts, unless the job is no longer held or was cancelled |
| `BrokerPass.Broker.Update` | src/vq/broker_store.py:1052-1069 | writes exactly when the revision is the expected one and the transition is accepted; otherwise nothing changes |
| `BrokerPass.Broker.RetryOnConflict` | src/vq/broker_placement.py:367-390 | an answer or a diagnostic is always written, whoever cancels meanwhile: the second try never conflicts |
| `BrokerPass.Broker.Transfer` | src/vq/broker_placement.py:292-365 | a request leaves exactly when the job ends placed or in doubt and its host still answers for the recorded root; it is the record's own request, it leaves once, and nothing else does; nothing leaves when the job was cancelled or the record or its payload is not as it was read; a reported placement is the recorded one; no charge moves |
| `BrokerPass.Broker.SendOnce` | src/vq/broker_placement.py:340-365 | past the last check the job ends placed as answered, in doubt, or pending a cancellation that is in the store; its request leaves once and alone, or in the last case not at all |
| `BrokerPass.Broker.PlaceLocked` | src/vq/broker_placement.py:201-288 | at most one reservation; it fits the undebited snapshot with all that is outstanding, moves no other host's charges and is on a host the policy allows; a job is kept back only if at some moment of the call every host offered was ruled out for it, and then nothing is reserved and a reason for each host is saved; it fails only if the job was then not held, cancelled, without its whole payload or out of attempts |
| `BrokerPass.Broker.PlaceQueue` | src/vq/broker_placement.py:593-638 | the queue is walked in order, each job tried only after every earlier one has left, and the room is kept throughout; the job left at the head is one no host could take, or that was not there to be placed |
| `BrokerRound.StrictFifo` | src/vq/broker_placement.py:593-638 | if a pass reserves for a queued job, every queued job that was accepted before it, or at the same moment with the smaller id, had left the queue at some moment between the start of the walk and that reservation; nothing behind the head is reserved for |
| `BrokerRound.RecoverRetrying` | src/vq/broker_placement.py:444-453 | one more reading is always enough: the job is held or cancelled afterwards |
| `BrokerRound.RecoverOne` | src/vq/broker_placement.py:640-658 | an unstarted reservation is released and its job requeued or its cancellation finished; only a cancellation in between can stop it |
| `BrokerRound.RecoverAll` | src/vq/broker_placement.py:513-526 | recovery leaves none of the records it read half-way |
| `BrokerRound.SettleAll` | src/vq/broker_placement.py:533-575 | exactly the placed records with an unreleased charge whose job their target lists, observed after the acceptance, not ahead of the clock and within the maximum age, are settled; the others are left as they were or cancelled by others |
| `BrokerRound.ReplayAll` | src/vq/broker_placement.py:577-591 | exactly the transfers unchanged for the retry interval are tried again, in turn, each as the store holds it: its own request leaves, once and alone, or nothing leaves because it was cancelled, its host does not answer for the recorded root, or the record or payload changed; nothing is reserved |
| `BrokerRound.QueueOf` | src/vq/broker_placement.py:593-596 | the queue is exactly the held records, by creation time and then by the first character in which their ids differ |
| `BrokerRound.RunOnce` | src/vq/broker_placement.py:500-638 | a whole pass: every record is read from the store at a moment of the pass, none of them half-way; the settleable are settled and the due transfers tried again; nothing is reserved before the queue is walked; the queue is exactly the records read as held, in order; the walk is strict first in first out; every reservation keeps within its snapshot's room; the head is a job no host could take or that was not there to be placed; refused inputs change nothing |
| `BrokerService.Cancel` | src/vq/broker_service.py:77-104 | a returned record is durably cancelled, and in any run that follows no attempt is added, no transfer begins and at most the armed send goes out; giving up means no such job, a blank reason or three writers that came first |
| `BrokerService.Reconcile` | src/vq/broker_service.py:148-204 | sends nothing; the job is placed with the id its own root accepted, or that root refuses the key for ever and the job is held or cancelled; it gives up only where no transfer is in doubt, where the answer is not the recorded root's or names a malformed job and the record stays as it was, or where a cancellation came after it was read |
| `BrokerService.SharedAuthorities` | src/vq/broker_service.py:237-245 | exactly the targets whose state root, with a lane's own name, is also another target's |
| `BrokerService.RunPass` | src/vq/broker_service.py:207-291 | the pass is offered every target's answer, once per listing and in the targets' order; it refuses exactly when an answering target is listed twice or a record is unusable, and then nothing changes; a head that stays was, at some moment of the walk, ruled out on every target that answered, or was not there to be placed; one authority's capacity is never promised under two names; with every guarantee of the pass |
| `BrokerService.Offer` | src/vq/broker_service.py:273-274 | the snapshots of the answering targets, each once per listing and in the targets' order |
| `BrokerService.OfferUnique` | src/vq/broker_placement.py:486-498 | the offer names a host twice exactly when an answering target is listed twice |
| `BrokerService.PassUses` | src/vq/broker_service.py:247-262 | a host may be used exactly when it is a target, shares its authority with none, is not refused as configured and answered for an absolute root |
| `BrokerService.EvidenceMeans` | src/vq/broker_service.py:276-276 | every answer is evidence for its own host, and there is no other |
| `BrokerService.ChosenApart` | src/vq/broker_service.py:247-258 | two reservations the pass's policy allows on different hosts are with different authorities |
| `BrokerService.RunReadsBack` | src/vq/broker_store.py:607-666 | in every run whose blockers are saved as a pass saves them, every record in the store reads back exactly |
| `CampaignGraph.FindCycle` | src/vq/campaign.py:252-275 | none exactly for an acyclic graph, otherwise a genuine cycle |
| `CampaignGraph.CycleFinder.Visit` | src/vq/campaign.py:256-271 | the depth-first search finds a cycle or finishes the node and everything it depends on |
| `CampaignGraph.HasSource` | src/vq/campaign.py:238-249 | every part of an acyclic graph has a node with no dependency inside it, so ordering never stalls |
| `CampaignGraph.EdgesMean` | src/vq/campaign.py:187-192 | a predecessor must succeed if it produces an input or the first declared edge on it says so, must only end if it produces none and that edge asks no more, and otherwise is none |
| `CampaignGraph.Order` | src/vq/campaign.py:238-249 | ends for every acyclic graph, with each node once and after everything it depends on; each node is in the first layer it can be in, and each layer is in order of ids |
| `CampaignGraph.SequencedAcyclic` | src/vq/campaign.py:199-233 | only acyclic graphs have such an order |
| `CampaignGraph.ValidatedUpstream` | src/vq/campaign.py:278-289 | holds exactly when a validate node is reachable along edges whose predecessor must succeed |
| `CampaignStatus.ComputeStatus` | src/vq/campaign.py:738-895 | a started node stands where its last attempt is; one not started is blocked exactly when an output it needs is missing from its producer's success, a predecessor that must succeed failed or is blocked, or one that must end is blocked; ready exactly when nothing is missing and each predecessor has done what it must; and otherwise waits |
| `CampaignStatus.QuiescentStuck` | src/vq/campaign.py:738-895 | when nothing can act, every node that has not fully succeeded is failed, held by a problem, or depends on such a node at some distance |
| `CampaignStatus.QuiescentSucceeded` | src/vq/campaign.py:738-895 | with no failure and no problem a campaign with nothing to do has succeeded |
| `CampaignJournal.AttemptsByNode` | src/vq/campaign.py:690-731 | accepts exactly the journals whose digest, nodes, numbering, keys and bindings are consistent, and groups them by node |
| `CampaignLaws.AcceptsIff` | src/vq/campaign.py:690-806 | the groups are accepted exactly when every attempt is numbered, keyed and led up to as it must be, has a job where one is implied and speaks only of what its node declares, and every started node had all it needed and is bound to the verified outputs of its producers' successes |
| `CampaignLaws.ListedMeans` | src/vq/campaign.py:700-706 | a node's listed attempts are exactly its own, each once and in the journal's order |
| `CampaignLaws.SortMeans` | src/vq/campaign.py:707-709 | sorting lists the same attempts in order of their numbers |
| `CampaignLaws.ActionMeans` | src/vq/campaign.py:806-850 | a ready node is submitted, one in doubt reconciled, an active one waited for, one that is done published while an output is not verified; nothing else acts |
| `CampaignJournal.AppendAccepted` | src/vq/campaign_controller.py:667-681 | a new attempt recorded by the controller is always accepted |
| `CampaignJournal.ReplaceAccepted` | src/vq/campaign_controller.py:563-569 | moving a node's latest attempt on is always accepted |
| `CampaignJournal.RetryAcceptedIffListedLast` | src/vq/campaign_controller.py:890-912 | an accepted journal, in whatever order it lists its attempts, accepts the retry that authorize_retry builds and stages if and only if the node's attempt listed last is its latest |
| `CampaignJournal.UnfailedIsLatest` | src/vq/campaign.py:690-731 | an attempt that did not fail is its node's latest wherever it is listed, so a producer's success listed last is the one the check goes by |
| `CampaignJournal.OutOfOrderRetryRefused` | src/vq/campaign_controller.py:890-912 | in any campaign, for any node that depends on nothing, an accepted journal that lists attempt 2 before attempt 1 is refused once the retry it leads to is added |
| `CampaignController.OneUnfinishedJob` | src/vq/campaign_controller.py:683-694 | two unfinished jobs of one node are the same job |
| `CampaignController.OfferIsStored` | src/vq/campaign_controller.py:615-663 | whatever a producer offers to an unfinished node is in the store, with the manifest it is bound to |
| `CampaignController.Controller.Stage` | src/vq/campaign_controller.py:615-663 | a success binds every input to what its producer offers and puts exactly those bytes in the attempt's payload, with nothing else changed and no leftover; a crash leaves the payload gone and the one being built |
| `CampaignController.Controller.SubmitNew` | src/vq/campaign_controller.py:667-681 | the attempt is recorded before anything is sent; a success means the queue has that attempt's job; anything else leaves the journal as it was or with that one attempt |
| `CampaignController.Controller.Send` | src/vq/campaign_controller.py:683-694 | the request goes out under the recorded key with the payload exactly as staged; a success means the queue has the key's job and only the newest attempt changed; anything else leaves the journal alone |
| `CampaignController.Controller.Observe` | src/vq/campaign_controller.py:696-729 | the attempt moves exactly when the job has ended, or runs while the journal has it as accepted, and then to where the queue is; otherwise nothing changes |
| `CampaignController.Controller.Publish` | src/vq/campaign_controller.py:731-773 | a success records every output, each only once its bytes and manifest are filed, and keeps what was verified; anything else leaves the journal alone and the fetched copies to be found; a crash leaves the journal and the store in agreement |
| `CampaignController.Controller.FileOutput` | src/vq/campaign_controller.py:741-769 | one output is moved in only verified, what is already filed is untouched, and no copy is left; a crash leaves the copy or the moved output |
| `CampaignRun.Step` | src/vq/campaign_controller.py:775-812 | a pass ends, and one that changed nothing has tried every node that could act; only what it tried is set aside for it |
| `CampaignRun.Run` | src/vq/campaign_controller.py:814-834 | a run that returns by itself did not crash and explains every node; with no failure and no problem the campaign succeeded; it is cut off only while a node is not done and something may still move |
| `CampaignRun.AuthorizeRetry` | src/vq/campaign_controller.py:890-912 | exactly one attempt is added, after a failed or cancelled one, unsent, bound to what its producers offer and staged so; or nothing changes |
| `CampaignRun.AnyHistory` | src/vq/campaign_controller.py:775-912 | over any passes, retries, restarts and cleanups, each of which may die anywhere, cleanups only while nothing needed looks like a leftover, the journal stays acceptable, an attempt has at most one job and a node at most one unfinished job |
| `CampaignRun.StatusUnique` | src/vq/campaign.py:738-895 | the attempts and the order determine every standing |
| `CampaignRun.BegunStatus` | src/vq/campaign_controller.py:667-681 | a submission left in doubt changes no other node's standing |
| `CampaignCleanup.CleanupPlan` | src/vq/campaign_controller.py:836-888 | the plan lists exactly the spent payloads, what an interrupted stage or publish left beside and inside payloads and artifacts, the fetched copies and, on request, the released artifacts |
| `CampaignCleanup.ApplyCleanup` | src/vq/campaign_controller.py:491-499 | done in full, what is left is the store without what the plan listed and no leftover, and the controller's state stands if and only if nothing needed looked like one; if nothing did, it stands wherever a cleanup dies |
| `CampaignCleanup.CleanupSafeIffTidy` | src/vq/campaign_controller.py:836-888 | the store still agrees with the journal after a cleanup if and only if nothing needed holds a leftover's name |
| `CampaignCleanup.LookalikeLost` | src/vq/campaign_controller.py:867-872 | in any campaign, for any node that depends on nothing and any output of it that holds a lookalike, journal and store agree once it is filed, and a cleanup leaves them at odds |
| `CampaignCleanup.Lookalike` | src/vq/campaign_controller.py:870-872 | a file named `.x.copy` is a lookalike |
| `CampaignCleanup.EveryDebrisListed` | src/vq/campaign_controller.py:863-872 | whatever an interrupted stage or publish leaves is recognised by the cleanup |
| `CampaignCleanup.SubmittingNotSpent` | src/vq/campaign_controller.py:858-862 | a payload that may still be sent is never listed as spent |
| `CampaignLaws.ReleasedMeans` | src/vq/campaign_controller.py:873-887 | an artifact may go exactly when it is a declared output of its node's last attempt, a success, some node reads it, and every node that reads any output of that node has succeeded |
| `CampaignLaws.NeededMeans` | src/vq/campaign_controller.py:836-846 | an output must stay while no node reads it, or one that does has not succeeded |
| `CampaignLaws.SpentMeans` | src/vq/campaign_controller.py:858-862 | a payload is spent exactly when an attempt it was staged for is past its submission |
| `CampaignLaws.LeftoverMeans` | src/vq/campaign_controller.py:867-872 | a leftover's name starts with a dot and ends in `.staging` or `.copy` |
| `LayoutMigrate.Host.DoOp` | contrib/fleet_layout_migrate.py:859-934 | an operation is done in full or refused with nothing changed, and every relocated payload's old path leads to it at each step on the way |
| `LayoutMigrate.Host.UndoOp` | contrib/fleet_layout_migrate.py:937-1004 | an operation is reversed exactly when its names are as it left them, with transitional names deferred; old paths resolve throughout |
| `LayoutMigrate.ReadyIff` | contrib/fleet_layout_migrate.py:845-934 | an operation is refused exactly when its new name is taken or not inside a directory, its link's target is missing, its directory is not empty, or its source is not what the plan saw |
| `LayoutMigrate.DidMeans` | contrib/fleet_layout_migrate.py:859-934 | every name but the operation's own is left alone, and its own are as it is meant to leave them |
| `LayoutMigrate.ReversibleIff` | contrib/fleet_layout_migrate.py:937-1004 | an undo leaves an operation alone exactly when one of its names is not as it was left |
| `LayoutMigrate.UndoOthers` | contrib/fleet_layout_migrate.py:1224-1248 | the first batch leaves, but for the deferred names, the tree that the containers alone would have made |
| `LayoutMigrate.UndoContainers` | contrib/fleet_layout_migrate.py:1224-1248 | the second batch then restores the original tree |
| `LayoutMigrate.Undo` | contrib/fleet_layout_migrate.py:1203-1249 | undoing completed operations in two batches puts back every name and inode, old paths resolving at every step |
| `LayoutMigrate.Apply` | contrib/fleet_layout_migrate.py:1164-1181 | a plan is applied exactly up to its first refused operation |
| `LayoutMigrate.ApplyThenUndo` | contrib/fleet_layout_migrate.py:1164-1249 | for every plan made from the tree, applying it as far as it goes and undoing what was completed restores the tree |
| `LayoutMigrate.PlannedCompletes` | contrib/fleet_layout_migrate.py:661-777 | however far a plan got, no archive's old name was used again |
| `LayoutMigrate.ReusedNameKeepsArchive` | contrib/fleet_layout_migrate.py:999-1004 | once a directory takes an archive's old name the archive is no longer put back |
| `BenchmarkRunner.Runner.Save` | src/vq/benchmark_runner.py:259-269 | results are written before the journal; a failure or a crash in between leaves files that agree |
| `BenchmarkRunner.Runner.Reopen` | src/vq/benchmark_runner.py:215-252 | never refuses what an interrupted save left |
| `BenchmarkRunner.Runner.Submit` | src/vq/benchmark_runner.py:323-332 | a run is recorded on disk before it is sent, and sent whenever it ends accepted or to be asked about again; a success means the queue accepted it; the other runs' entries are untouched |
| `BenchmarkRunner.Runner.Finish` | src/vq/benchmark_runner.py:349-399 | an ended run gets its one row or is left missing; the other runs' entries are untouched |
| `BenchmarkRunner.Runner.Step` | src/vq/benchmark_runner.py:403-434 | a pass keeps the invariant and a crash anywhere in it leaves files that reopen; it reports progress only if the journal differs; only what it could not get an answer about is set aside for it; after a pass that changed nothing every run is finished or behind one of its class that is in flight or set aside |
| `BenchmarkRunner.Runner.Run` | src/vq/benchmark_runner.py:436-456 | when it returns by itself every run is finished, or a run of its class that comes no later is stopped at a problem; when it is cut off some run is neither finished nor stopped |
| `BenchmarkRunner.Runner.AnyHistory` | src/vq/benchmark_runner.py:215-434 | over any passes, crashes and reopenings a class has at most one unfinished run, its finished runs are a prefix of its order, and every recorded run has exactly one row |
| `BenchmarkRunner.ClassExclusive` | src/vq/benchmark_runner.py:403-434 | two unfinished runs of one class are the same run |
| `BenchmarkRunner.FinishedPrefix` | src/vq/benchmark_runner.py:403-434 | no run of a class is finished before an earlier one of it |
| `BenchmarkRunner.ReplacedRow` | src/vq/benchmark_runner.py:393-396 | filing a row again leaves one row for that run and the others as they were |
| `SemVer.KeyIsPrecedence` | src/vq/auto_update.py:163-186 | the key orders versions exactly as section 11 of Semantic Versioning 2.0.0 and tells any two versions apart |
| `SemVer.ParseIff` | src/vq/auto_update.py:66-76 | a tag reads as a version exactly when it is `v`, the three numbers in decimal joined by dots, a hyphen and the identifiers joined by dots if there are any, and possibly a plus and build identifiers; every other tag is refused |
| `SemVer.RoundTrip` | src/vq/auto_update.py:138-160 | printing any three numbers, with valid identifiers or without, and reading the tag gives them back |
| `SemVer.StandardExamples` | src/vq/auto_update.py:163-186 | the examples of sections 11.2 and 11.4 of Semantic Versioning 2.0.0 |
| `SemVer.BelowTotal` | src/vq/auto_update.py:163-186 | of two versions exactly one is below the other unless they are the same |
| `SemVer.BelowTransitive` | src/vq/auto_update.py:163-186 | the order is transitive |
| `SemVer.BuildIgnored` | src/vq/auto_update.py:138-160 | build metadata never changes what a tag means |
| `SemVer.GrowParts` | src/vq/auto_update.py:163-186 | the loop that grows the key's identifier list gives the specified list |
| `AutoUpdate.Newest` | src/vq/auto_update.py:189-203 | the version tag that sorts after all others, and none exactly when no tag is a version |
| `AutoUpdate.NewestAlone` | src/vq/auto_update.py:206-216 | the newest tag is unambiguous exactly when every other version tag is strictly below it |
| `AutoUpdate.CheckTagDrift` | src/vq/auto_update.py:677-842 | an update is decided exactly when it is due: one unambiguous newest remote tag, strictly above the one unambiguous tag at the head, which the remote has not moved; skipped exactly when the head's tag is that one or above it; otherwise an error |
| `AutoUpdate.UpdatesIncrease` | src/vq/auto_update.py:677-842 | any sequence of applied tag updates is strictly increasing |
| `AutoUpdate.RemoteTagRefs` | src/vq/auto_update.py:219-278 | one malformed or contradictory row refuses the inventory; a row is about a tag when its ref is `refs/tags/` and the tag, with `^{}` after it if it is peeled; a tag's identity is its peeled row's, else its direct row's |
| `AutoUpdate.BranchDrift` | src/vq/auto_update.py:378-514 | the checkout moves exactly onto a fetched tip that the current commit is a strict ancestor of, and stays exactly where it is there already or known to be ahead |
| `AutoUpdate.MovesDescend` | src/vq/auto_update.py:378-514 | in any history of branch decisions that moved, each commit is a strict descendant of every earlier one, so none is come back to |
| `Sharder.GreedyBound` | scripts/run_ci_tests.py:33-42 | m times any load is at most the total plus m - 1 times the largest file |
| `Sharder.NoOvershoot` | scripts/run_ci_tests.py:33-42 | while all files are larger than a third of what some assignment fits into, the greedy choice fits into it too |
| `Sharder.GreedyWithinFourThirds` | scripts/run_ci_tests.py:33-42 | 3m times any load is at most 4m - 1 times the heaviest load of any assignment |
| `Sharder.Distribute` | scripts/run_ci_tests.py:35-40 | each file in turn goes to the lightest shard, the first of equals |
| `Sharder.SortFiles` | scripts/run_ci_tests.py:33-34 | every file once, largest first and of the same size by path |
| `Sharder.FullSuiteShards` | scripts/run_ci_tests.py:27-42 | every file is in exactly one shard, each shard is sorted by name, the files are taken in order onto the first lightest shard, and both load bounds hold of the result |
| `StringOrder.LessMeans` | scripts/run_ci_tests.py:33-42 | names are compared by the first character in which they differ, and a proper prefix comes first |

## Left out

- BrokerProtocol.AtMostOneAcceptedRoot: assumes every delivery lands at the root it was sent to, because a direct target does not check that; `BrokerCounterexamples.StrayRunBreaks` is the failing case.
- BrokerProtocol.AcceptedIsCounted: assumes settlements covered by figures, because the code accepts answers without any; `BrokerProtocol.CountedIffCovered` says the condition is exact. Also a monotone broker clock and equal clock rates.
- BenchmarkRunner.Runner.Run: bounded by a number of passes, as is the campaign's.
- CampaignRun.Run: bounded by a number of passes, where the program goes on until it is interrupted; what it states is of every return.
- BrokerPass.Choose: an opt-in re-ranking is any function that orders hosts that were ranked, adds none, keeps the reasons there were and gives each host it drops a reason; the planner behind it is not modelled. The recorded ranking holds the hosts without their sort keys.
- BrokerDecision.PlaceBrokerJob: a snapshot whose host name is blank, which the program refuses, is not offered, because targets are the names of configured hosts.
- LayoutMigrate.ApplyThenUndo: a plan is any list of operations made from the tree that makes no name an archive leaves; the code that builds plans, the layout record's text, manifests' digests and the receipt file are not modelled, and nothing else touches the tree meanwhile.
- JSON text, digests and fingerprints as bytes: JSON is a datatype and a digest is its preimage. The job specification's own check of an intent is a parameter of the parser.
- Whitespace in reasons is ASCII whitespace only.
- File modes, owners, no-follow checks and lock files: a lock is mutual exclusion, a rename or a link one atomic durable step.
- The torn initial receipt of a virtualenv replacement, beyond that recovery refuses it and the target is untouched.
- Two accepts at one target under one key at the same moment: they share a staging name and are taken as one after the other. Target job ids are unique across the fleet.
- Time: a write carries the clock of the moment it is made; sleeping and retry intervals only decide whether something is tried.
- Wordings of refusals and reports, the list of programs a pass asks its targets about, and the completion-time model behind re-ranking.
- Campaign sources, runtime records, workspace paths inside payloads and the file-by-file comparison of `verify_artifact`: a stored tree and its manifest are compared as values.
- A queue job's terminal state is taken as final.
- The benchmark runner's payload staging and the contents of its reports and statistics.
- Git, SSH and subprocess calls: success, failure and unknown are inputs. Slot-rooted environments, whose ancestry is proved elsewhere, and the row syntax of `ls-remote` beyond its fields.
- Command lines, web pages, authentication, audit, packaging and the remaining modules are not modelled.
