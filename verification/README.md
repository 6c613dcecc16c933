# Verified model of the analysis control plane

UMAT analyses samples on executors that it does not trust to be alive. This project models, in Dafny, the
parts of it whose correctness rests on several functions at once, and proves what they keep:

* **The stage, lease and attempt protocol.** Executors claim queued stages, heartbeat, complete, fail or
  acknowledge a cancellation; a scheduler expires leases; users submit, confirm and cancel; two workers move
  the adaptation, aggregation and report stages. `Handlers` says what each handler does to the tables, as a
  function; `ControlPlane` has the handlers as they run, row update by row update, each proved to do what its
  function says; `Protocol` interleaves them in any order. A handler is one atomic step, since it is one
  database transaction, and reads the clock once; the clock never goes back. Which stage types executors may
  claim is a parameter: `DeployedSplit` is about executors that hold the two analysis stages only, all other
  results hold for any scope. No handler reads the state of a stage before it writes it: all safety rests on the
  invariant of `LeaseSafety`.
  What a request needs and what its answer says is read off the rows in `Requests`; `Cancelling` follows a
  cancellation to its end, and `Succession` says what a run that has not ended still has ahead of it.
* **The egress broker** (`Egress`): leases, the kernel's policy sets, the gateway captures, the byte ceiling.
* **Two hash chains** (`HashChain`, `AuditLog`, `C2Bundle`): the audit log and the evidence chain of a signed C2
  bundle, each with its writer and its verifier. Digests are only asked to be free of collisions on the strings
  that the two chains at hand hash, never injective as such.
* **Android data-access claims** (`AndroidCorrelation`): from telemetry through normalisation to the two gates.
* **Coalescing and the verdict** (`Coalescing`, `Conservation`, `Verdicts`): merging of duplicate observations in
  place, what it conserves, and the input a malicious verdict rests on.
* **Restore and rollback** (`Restore`) under a fault at every step, and **the CAPE machine pool** (`CapePool`).

`dafny verify dfyconfig.toml` checks the whole project.

## What turned out to be false

Each with the condition under which it fails, stated on what is known before the call, and an input on which it does.

* **An ended run stays ended.** With executors that may claim more than the analysis stages, a step takes a run
  out of its end exactly when it is a claim of a due, claimable stage of that run
  (`Histories.ReopenedExactly`); `Histories.EndedRunIsReopened` is a history from empty tables that does it.
* **A cancelled run comes to its end.** It does, whatever its executors do, as long as they acknowledge or lose their
  leases (`Cancelling.CancellationCompletes`). But an executor may complete its stage all the same, and then nothing ends
  the run. A cancelling run is stalled, after every history of the deployed split, exactly when it has no stage to
  work on and none that failed (`Succession.StalledExactly`); no step of any actor but another cancellation then changes
  it (`Succession.StalledStays`, `Succession.StalledEndsByCancelling`). `Succession.CancellationStalls` is such a history.
* **No capture is stopped while its guest is authorised.** An acquire stops one exactly when the wait for the new
  capture's writer runs out while the guest is in a source set under a lease other than the one the acquire
  revokes (`Egress.StopsAuthorised`, proved by `Egress.EgressManager.Acquire`); then another run holds a lease for
  the guest, whose own capture goes on (`Egress.HeldElsewhere`). No other operation ever does. `Egress.SharedGuest`
  does it. Over any sequence of requests one is stopped if and only if the sequence holds such an acquire
  (`Egress.Serve`), and where no run asks for a guest that another holds it holds none (`Egress.EveryByteNoted`).
* **A failed restore leaves database and artifacts as they were.** When undoing does not fail, it does not exactly
  when the writing of the restore id is the first step to fail and the backup's tree differs from the old one
  (`Restore.OnlyIdentifier`, proved by `Restore.Site.RestoreBackup`); then the new artifacts stay beside the old
  database and the old ones are gone (`Restore.IdentifierNotWritten`).
* **Coalescing discards no evidence.** A group of rows keeps all its addresses exactly when none of its rows names
  one, or its first row names one and every address that a row lists as observed is named by the first row or is
  some row's own (`Conservation.NamesSurvive`, `Conservation.AddressesKeptExactly`). `Conservation.AddressLost` and
  `Conservation.ListedAddressLost` lose one in either way.
* **The validator and the adapter agree.** Of what the adapter accepts, the validator refuses exactly the documents
  with an event that names another run, sample or platform, or claims data access with empty strings only and
  lacks the evidence (`AndroidCorrelation.GatesPart`); `AndroidCorrelation.EmptyClaimParts` is such a document.
* **A stage has at most `max_attempts` attempts.** The settings check the overrides of the limit but not its default,
  and a claim is granted without a comparison. After any history an attempted stage is within its limit, and a
  queued one below it, exactly when the limit is at least one; otherwise it has one attempt at most
  (`Retries.WithinLimit`, `Retries.AllWithinLimits`, `Retries.FirstClaimPassesLimit`). All other bounds use
  `max(1, max_attempts)`.
* **A recorded CAPE machine keeps its disk.** A creation takes the disk of a recorded machine exactly when it passes
  the guards, finds a free address and has the label of that machine (`CapePool.Manager.Create`); `CapePool.TakenLabel`
  does it. A creation that fails to write its record leaves its entry in CAPE's configuration.
* **The report counts observations.** Normalisation writes no count, so the report counts events
  (`EvidencePath.ReportCountsEvents`): one for each key among the neutral rows of the first pass, and one for each other
  row that it takes for a neutral one (`EvidencePath.ReportedExactly`). It counts all of them if and only if every neutral
  row stands for one observation and no two share a key, and the number of observations of the first pass comes out
  if and only if as many other rows count as observations were merged away (`EvidencePath.CountsSurviveExactly`).
  `EvidencePath.CountLost` loses one; in `EvidencePath.CountMadeUp` a DNS event of no known process makes up for it.

## Model

| member | source | states |
|---|---|---|
| LeaseSafety.ExactlyOneLease | src/umat/api/executor_routes.py:587-632 | in any state of the invariant, a stage is leased or running exactly when it has an unreleased lease; that lease is unique and belongs to its newest attempt, which is open; its other attempts have ended |
| LeaseSafety.EndLeaseSafe | src/umat/api/executor_routes.py:430-475 | releasing a live lease, closing its attempt and moving its stage in one go keeps the whole lease invariant, given when a requeued stage may run |
| LeaseSafety.GrantSafe | src/umat/api/executor_routes.py:605-632 | granting a queued, due stage to a fresh attempt and lease keeps it: the number is new, the wait is over, no other lease exists |
| LeaseSafety.TouchSafe | src/umat/api/executor_routes.py:968-971 | extending a live lease and marking its stage and attempt as running keeps it |
| Workflow.AddStageSound | src/umat/api/executor_routes.py:1433-1453 | inserting a stage of a kind the run does not have, once its predecessors are done, keeps leases and workflow order |
| Workflow.EndRunSound | src/umat/api/executor_routes.py:446-462 | cancelling the pending stages of a run without active stages and ending it as cancelled leaves every stage of it final |
| Protocol.ExpireAttemptSound | src/umat/api/executor_routes.py:405-486 | expiring a live lease keeps every invariant on all three branches: cancelling run, retry, last attempt |
| Protocol.SweepSound | src/umat/api/executor_routes.py:489-523 | so does a sweep over any list of leases in any order |
| Protocol.ClaimSound | src/umat/api/executor_routes.py:527-636 | so does a claim, which sweeps first and never looks at the run's status |
| Protocol.AdvanceSound | src/umat/api/executor_routes.py:1456-1488 | the successor stages the executor endpoints create appear only when their predecessors are done |
| Protocol.CompleteSound | src/umat/api/executor_routes.py:1513-1555 | completing, partially completing or declaring unsupported keeps every invariant |
| Protocol.FailSound | src/umat/api/executor_routes.py:1598-1646 | so does failing, with or without a retry |
| Protocol.AcknowledgeSound | src/umat/api/executor_routes.py:1690-1740 | so does acknowledging a cancellation |
| Protocol.MutateReaches | src/umat/api/executor_routes.py:729-761 | a signed request changes nothing or reaches its endpoint; a stage endpoint is only reached with a live lease, although a repeat skips the check of release and expiry |
| Protocol.CancelSound | src/umat/api/case_routes.py:551-589 | cancelling a run keeps every invariant whether stages are active or not |
| Protocol.AdaptSound | src/umat/adapters/worker.py:33-99 | so does the adaptation worker on success, on a rejected bundle and on a failure |
| Protocol.EnsureAllSound | src/umat/reporting/worker.py:33-76 | the second producer of the aggregation stage keeps them too, over any list of runs |
| Protocol.ReportSound | src/umat/reporting/worker.py:79-171 | so does the report worker, including a raise that rolls the inserted stages back before it marks the stage as failed |
| Protocol.StepSound | src/umat/api/executor_routes.py:405-1756 | one step of any actor keeps the invariant, and forgets no run, stage, attempt or lease |
| Protocol.RunSound | src/umat/api/executor_routes.py:405-1756 | so does every interleaving of steps, by induction over the run |
| Histories.LeaseExclusivity | src/umat/api/executor_routes.py:405-523 | after every history from empty tables: exactly one unreleased lease for each leased or running stage, none for any other; the open attempt is that of the lease and has the highest number |
| Histories.EndedStagesStay | src/umat/api/executor_routes.py:942-971 | a completed, partial, failed, cancelled or unsupported stage is the same row after any continuation |
| Histories.WorkflowOrder | src/umat/api/executor_routes.py:1433-1488 | one stage of each kind per run, each only after its predecessors; aggregation of a run with C2 analysis only after both adaptations completed, whichever producer and whichever adaptation is first |
| Histories.ReopenedExactly | src/umat/api/executor_routes.py:587-636 | a step takes a run out of its end if and only if it is a claim and the stage it names is due, claimable and of that run |
| Histories.EndedRunIsReopened | src/umat/api/executor_routes.py:633-636 | a history from empty tables that ends a run as inconclusive, both analyses completed through their leases, and one more claim that makes it run again |
| Histories.StepEnded | src/umat/api/executor_routes.py:1456-1488 | every step but a claim keeps an ended run ended |
| Locality.StepOver | src/umat/api/case_routes.py:557-574 | no step of any actor changes a run that ended as cancelled, or any stage of it |
| Locality.StepSettled | src/umat/reporting/worker.py:33-44 | nor any step but a cancellation a run that is cancelling with all its stages final, none a failed adaptation |
| Locality.CancellationFinal | src/umat/api/executor_routes.py:1715-1740 | any scope, any continuation: a run that is terminal with result cancelled has only final stages and no unreleased lease, and its row and its stages never change |
| DeployedSplit.StepKeeps | src/umat/api/executor_routes.py:1543-1553 | with executors scoped to the analysis stages, every step keeps terminal runs as they are and every result explained |
| DeployedSplit.TerminalAbsorbs | src/umat/api/executor_routes.py:1635-1646 | so does every run of the protocol: terminal is absorbing and the result never changes |
| DeployedSplit.SplitHistory | src/umat/reporting/worker.py:143-150 | from empty tables: a terminal run has a result with its reason, a run with a partial stage never ends completed, and a run that goes on has a result only if it has a partial stage |
| DeployedSplit.UpstreamDone | src/umat/api/executor_routes.py:1456-1488 | when a stage exists, every stage of an earlier rank in its run has completed, is partial or is unsupported |
| Retries.NumberedExactly | src/umat/api/executor_routes.py:605-616 | the attempts of a stage are numbered exactly 1..n, n is within the allowance, and strictly below it while the stage is queued |
| Retries.WaitsClosed | src/umat/api/executor_routes.py:1630-1634 | the waits min(300, 2^k) before the first n attempts add up to 2^n - 2 for n up to 9 and to 510 + 300(n - 9) from there |
| Retries.RetrySpan | src/umat/api/executor_routes.py:466-475 | after every history, the n-th attempt of a stage starts at least that long after its first |
| Retries.WithinLimit | src/umat/api/executor_routes.py:605-616 | after every history, an attempted stage is within max_attempts if and only if max_attempts is at least one, a queued stage is below it if and only if it is, and otherwise a stage has at most one attempt |
| Retries.AllWithinLimits | src/umat/config/settings.py:95-107 | all attempted stages are within their limits if and only if all their limits are at least one |
| Retries.FirstClaimPassesLimit | src/umat/config/settings.py:42-44 | with the default at zero, a history whose one claim is granted |
| ExactlyOnce.RepeatChangesNothing | src/umat/api/executor_routes.py:91-165 | a repeat of a committed mutation leaves every table as it is and returns the stored answer, unless its signature or its lease is refused |
| ExactlyOnce.AnsweredIsCommitted | src/umat/api/executor_routes.py:942-979 | a request of the four stage endpoints that was answered is committed, with that answer on record |
| ExactlyOnce.RepeatsAreInvisible | src/umat/api/executor_routes.py:729-761 | repeats of answered requests, in any number and inserted anywhere later in a run, leave the final tables identical, and each gets the answer its original got or an error |
| Progress.MeasureStep | src/umat/api/executor_routes.py:466-476 | over uncreated stages, unused attempts, stage states and the end of the run, a measure of each run never rises, and falls with every step that creates a stage of the run, claims one, ends one or ends the run |
| Progress.GrantSpendsClaim | src/umat/api/executor_routes.py:605-629 | a granted claim spends one of the claims the run has left |
| Progress.MovesArePaid | src/umat/api/executor_routes.py:1607-1636 | over any continuation the moves of a run and its measure at the end are at most its measure at the start, and its claims and those it has left are at most those it had left |
| Progress.BoundedRuns | src/umat/api/executor_routes.py:1433-1453 | over any history one run is claimed at most the sum of the allowances of the stages it comes to have, and moves or ends at most four times that often, four times for each of these stages, and once; a run without C2 analysis never has the two C2 stages |
| Sweeping.SweepComplete | src/umat/api/executor_routes.py:489-523 | after a sweep that saw every unreleased lease, none is past its expiry or its attempt's deadline, and every lease that was in time is untouched together with its attempt and its stage |
| Sweeping.SweepFinishesCancellation | src/umat/api/executor_routes.py:433-462 | a cancelling run all of whose leases were overdue (at least one) is terminal, cancelled and without an open stage after the sweep |
| Requests.NothingUnentitled | src/umat/api/executor_routes.py:91-165 | whatever the endpoint, an answer or an effect needs the signature, a stage, an attempt and a lease that belong together and to the executor, and the lease's own token; for a new key also an unreleased, unexpired lease and an unused nonce |
| Requests.AnsweredExactly | src/umat/api/executor_routes.py:729-761 | a stage request is answered if and only if it is entitled in that way and repeats an answered one, or is new and fits its endpoint; an error changes nothing |
| Requests.ForeignToken | src/umat/api/executor_routes.py:159-164 | all else in order, another token is a conflict |
| Requests.HeartbeatMeans | src/umat/api/executor_routes.py:940-979 | stop for cancellation if and only if the run is cancelling, for timeout if and only if the attempt has had its time, and then it is retried or has failed; otherwise the lease holds until the answered time and the stage runs |
| Requests.FailureMeans | src/umat/api/executor_routes.py:1598-1646 | the stage is queued again after its wait if and only if the failure is retryable and attempts are left, and otherwise has failed and ended the run with the result of its kind; no other row changes, and the answer says so |
| Requests.ExpiryMeans | src/umat/api/executor_routes.py:405-523 | the same for a swept lease of a run that is not cancelling, if and only if it is past its expiry or its attempt's deadline |
| Requests.AcknowledgementMeans | src/umat/api/executor_routes.py:1690-1756 | the stage is cancelled and its lease released; the run has ended with its pending stages if and only if no other stage of it is active; the answer says so |
| Requests.CompletionMeans | src/umat/api/executor_routes.py:1513-1571 | stage, attempt, lease, run and answer after a completion, for each outcome and kind |
| Requests.CompletionIsFollowed | src/umat/api/executor_routes.py:1456-1488 | after an answered completion, of any kind of stage, the next stages of the run exist or the run has ended |
| Requests.ClaimMeans | src/umat/api/executor_routes.py:587-636 | after its sweep a claim is granted if and only if the stage is queued, due and claimable; the attempt, lease, stage and run it leaves |
| Requests.AdaptationMeans | src/umat/adapters/worker.py:33-99 | the three ends of a queued adaptation, and nothing for any other stage |
| Requests.ConfirmationMeans | src/umat/api/case_routes.py:522-547 | a new run has its platform analysis queued when it is submitted, or else when it is confirmed, once |
| Requests.ReportMeans | src/umat/reporting/worker.py:79-171 | the result of a reported run in terms of its verdict and its earlier result; a finished aggregation leaves a report stage |
| Cancelling.CancellationTakesEffect | src/umat/api/case_routes.py:551-589 | a run that has not ended is cancelling with a lease outstanding if a stage of it is active, and over otherwise; an ended one stays as it is |
| Cancelling.CancelledHeartbeatStops | src/umat/api/executor_routes.py:940-966 | directly after a cancellation every answered heartbeat for the run says to stop |
| Cancelling.StepWinds | src/umat/api/executor_routes.py:1690-1756 | a sweep, heartbeat, acknowledgement, cancellation or new run leaves a cancelled run cancelling with a lease outstanding, or over |
| Cancelling.CancellationCompletes | src/umat/api/executor_routes.py:433-462 | after a cancellation and any such steps, the run is over if and only if no lease of it is left |
| Cancelling.CancelThenSweep | src/umat/api/executor_routes.py:489-523 | a cancellation and a sweep at a time when all leases of the run are overdue leave it over |
| Succession.StepGoes | src/umat/api/executor_routes.py:1456-1488 | with executors scoped to the analysis stages, every step of any actor keeps all stages of runs that have not ended on their way: to be worked on, followed by their successors, or failed by a worker |
| Succession.NothingStalls | src/umat/reporting/worker.py:33-76 | after every history a run that has neither ended nor waits for its confirmation has a stage to work on, a failed report, a failed adaptation by which one step of the worker ends it, or all adaptations done, and then one step of the report worker creates its aggregation unless it is cancelling |
| Succession.StalledExactly | src/umat/reporting/worker.py:33-44 | after every history a cancelling run is stalled if and only if it has no stage to work on and no stage that a worker failed |
| Succession.StalledStays | src/umat/reporting/worker.py:33-76 | over any continuation without another cancellation of it, and any scope, a stalled run and its stages never change |
| Succession.StalledEndsByCancelling | src/umat/api/case_routes.py:566-574 | another cancellation leaves it over |
| Succession.CancellationStalls | src/umat/api/executor_routes.py:1513-1555 | a history from empty tables in which a cancelled run is completed and adapted, and stalls |
| ControlPlane.Server.Expire | src/umat/api/executor_routes.py:405-486 | the expiry as it runs writes exactly what `Handlers.ExpireAttempt` says |
| ControlPlane.Server.CancelPendingStages | src/umat/api/executor_routes.py:446-459 | the loop over pending stages cancels exactly the waiting and queued stages of the run |
| ControlPlane.Server.ExpireLeases | src/umat/api/executor_routes.py:489-523 | the scheduler's loop does what `Handlers.Sweep` says and returns the number of leases it expired |
| ControlPlane.Server.ClaimStage | src/umat/api/executor_routes.py:527-636 | the claim sweeps, grants exactly when the stage is due and claimable after the sweep, and numbers the attempt by counting |
| ControlPlane.Server.AdvanceWorkflow | src/umat/api/executor_routes.py:1456-1488 | the successor stages as they are created; `Requests.CompletionIsFollowed` says which must exist |
| ControlPlane.Server.HeartbeatStage | src/umat/api/executor_routes.py:940-979 | stop requested while cancelling, expiry past the deadline, otherwise an extended lease and a running stage |
| ControlPlane.Server.CompleteStage | src/umat/api/executor_routes.py:1513-1571 | the completion as it runs, with its answer |
| ControlPlane.Server.FailStage | src/umat/api/executor_routes.py:1598-1663 | the failure as it runs, with its answer |
| ControlPlane.Server.AcknowledgeCancellation | src/umat/api/executor_routes.py:1690-1756 | the acknowledgement as it runs, with its answer |
| ControlPlane.Server.MutateStage | src/umat/api/executor_routes.py:91-170 | the signed request: signature, idempotency record, nonce, lease check, stored answer, endpoint; an error leaves every table alone; `Requests.AnsweredExactly` says on the rows when it is answered |
| ControlPlane.Server.ConfirmRun | src/umat/api/case_routes.py:522-547 | only an awaiting run is queued and gets its platform stage |
| ControlPlane.Server.CancelRun | src/umat/api/case_routes.py:551-589 | the user's cancellation as it runs; `Cancelling.CancellationTakesEffect` says what it comes to |
| ControlPlane.Server.AdaptOnce | src/umat/adapters/worker.py:66-99 | the adaptation worker on the stage it picked |
| ControlPlane.Server.AdoptOnce | src/umat/adapters/worker.py:44-65 | the same worker ending a run whose adaptation had failed |
| ControlPlane.Server.EnsureReadyAggregationStages | src/umat/reporting/worker.py:33-76 | the loop inserts an aggregation stage for exactly the running runs whose adaptations completed and that have none |
| ControlPlane.Server.ReportOnce | src/umat/reporting/worker.py:79-171 | the report worker, with the rollback of a raise |
| ControlPlane.Server.Handle | src/umat/api/executor_routes.py:405-1756 | each step of the protocol, by the handler it names; unless the clock goes back it keeps the server valid and forgets no row |
| ControlPlane.Serve | src/umat/api/executor_routes.py:405-1756 | a server that handles any sequence of events in the order of their times has the tables of the protocol, so every result about histories is one about it, and is valid after each of them |
| Egress.EgressManager.Acquire | src/umat/egress/manager.py:86-145 | the outcome is the first thing that goes wrong, and leases, sets, captures and their order are what `Egress.AcquireOn` says; every command along the way fails closed; a capture is stopped while its guest is authorised if and only if the writer's wait runs out while the guest is authorised under a lease that this acquire does not revoke |
| Egress.AcquireFails | src/umat/egress/manager.py:97-138 | what each failure leaves behind: the run's previous lease is gone with its authorisation, the new capture has ended, and a guest whose authorisation failed is in no set |
| Egress.AcquireGrants | src/umat/egress/manager.py:129-145 | a successful acquire has the run's lease recorded, its capture running and the guest in its source set with its tuples, for the whole timeout if no other run holds it |
| Egress.AcquireFrame | src/umat/egress/manager.py:86-145 | an acquire changes neither the source element of any other guest nor the lease and the sent bytes of any other run |
| Egress.EgressManager.Heartbeat | src/umat/egress/manager.py:147-175 | not active, unreadable, over the ceiling, refresh failed or refreshed, in that order; the lease is dropped in the third and fourth case, and otherwise notes all bytes it knows of and starts a new timeout; no capture is stopped while its guest is authorised |
| Egress.EgressManager.RevokeUnlocked | src/umat/egress/manager.py:187-194 | the guest is denied, its tuples are gone and the capture is stopped even when the capture cannot be finalised, and never before the guest is denied |
| Egress.EgressManager.Close | src/umat/egress/manager.py:196-199 | the leases go in the dictionary's order up to a capture that cannot be finalised; then the leases after it remain untouched, and raising means exactly that |
| Egress.EgressManager.Authorize | src/umat/egress/manager.py:231-254 | scoped tuples before the source entry, under any failing add: at no command is a guest in a source set without its tuples |
| Egress.EgressManager.Deauthorize | src/umat/egress/manager.py:256-278 | the source entry goes first, then exactly the guest's tuples |
| Egress.EgressManager.Stop | src/umat/egress/manager.py:202-209 | a signal only to a capture that still runs; it is a stop of an authorised guest's capture exactly when the guest is in its source set |
| Egress.EgressManager.Pass | src/umat/egress/manager.py:309-320 | while time passes, an element is gone once its timeout is over, and the others count what their guests send |
| Egress.Serve | src/umat/egress/manager.py:38-199 | any sequence of requests, failures, expiries and captures that die: every answer and the final state are those of the specification; at every nft command and every signal each guest in a source set has a recorded or pending lease whose capture was not stopped, is inside its network and has its tuples; a capture was stopped while its guest was authorised if and only if one of the requests is an acquire that does so |
| Egress.CarriedIsSent | src/umat/egress/manager.py:147-175 | over any sequence of requests, what is carried for a lease is what its guest has sent since the run's last acquire |
| Egress.EveryByteNoted | src/umat/egress/manager.py:147-168 | where no run asks for a guest that another run holds: at any index, a heartbeat that is heard hits the ceiling if and only if the guest has sent more than that since the run's acquire, a refreshed one has noted exactly all of it, and no acquire stops a capture whose guest is authorised |
| Egress.AuthorisedExactly | src/umat/egress/manager.py:147-175 | where no run asks for a guest that another run holds, the guest of a lease is in its source set exactly as long as the timeout lasts that the run last asked for with success, over any sequence of requests |
| Egress.AcquiredExactly | src/umat/egress/manager.py:86-145 | an acquire succeeds if and only if the gateway is ready, the guest is in its network, the earlier capture is finalised, the new one starts and writes, and every add succeeds |
| Egress.RefreshedExactly | src/umat/egress/manager.py:147-175 | a heartbeat refreshes if and only if the capture runs, the guest is authorised, the counter is readable, the bytes are within the ceiling and every add succeeds |
| Egress.RefreshMeans | src/umat/egress/manager.py:158-175 | then the guest and its tuples are in their sets for the timeout asked for, from now on, with a new counter |
| Egress.RevokeMeans | src/umat/egress/manager.py:187-194 | a revoked guest is in no set, its capture has ended, and nothing of another guest or run changed |
| Egress.HeldElsewhere | src/umat/egress/manager.py:97-138 | when an acquire stops a capture of an authorised guest, another run holds a lease for that guest whose capture was not stopped |
| Egress.SharedGuest | src/umat/egress/manager.py:97-138 | two runs ask for one guest and the wait for the second writer runs out: a capture is stopped while its guest is authorised |
| Egress.StopClosed | src/umat/egress/manager.py:187-194 | stopping a capture leaves every other authorised guest watched |
| Egress.RecordClosed | src/umat/egress/manager.py:138-138 | recording the lease last hands the guest over from the pending authorisation to the lease |
| Egress.RefreshConserved | src/umat/egress/manager.py:147-168 | noting the counter before it is reset keeps the sum of what was noted and what is counted |
| HashChain.SameTipSameChain | src/umat/audit/chain.py:16-17 | one root, one tip, no collision among the strings hashed and no string that hashes to the root: one chain, of whatever length |
| HashChain.SameLengthSameChain | src/umat/c2/bundle.py:220-225 | the same for chains of one length, for any root |
| HashChain.SameInput | src/umat/audit/chain.py:16-17 | the 64 characters in front make the hashed concatenation unambiguous |
| HashChain.TipsDiffer | src/umat/audit/chain.py:60-78 | no hash of a chain comes back later in it |
| AuditLog.Log.Append | src/umat/audit/chain.py:20-57 | the new row holds the entry, an absent payload as an empty one, and continues the log, which still verifies |
| AuditLog.Log.Verify | src/umat/audit/chain.py:60-78 | true exactly when every row is in order; otherwise the number of the first row that is not |
| AuditLog.Write | src/umat/audit/chain.py:20-57 | whatever is appended, the log verifies, holds exactly the entries in their order, and its hashes are the chain of them |
| AuditLog.SameFinalHash | src/umat/audit/chain.py:60-78 | two verifying logs with the same final hash hold the same rows |
| AuditLog.ChangedRow | src/umat/audit/chain.py:74-78 | a changed row is reported itself, or the row after it if its hash was made to fit; it goes unseen exactly when it is the last row and its hash fits |
| AuditLog.DeletedRows | src/umat/audit/chain.py:74-78 | cutting out any rows but the last is reported at the next surviving row |
| AuditLog.VerifiedPrefix | src/umat/audit/chain.py:60-78 | cutting rows off the end goes unseen |
| AuditLog.ForgedHistory | src/umat/audit/chain.py:60-78 | any other history that ends in the same hash is reported somewhere |
| C2Bundle.NormalizeEvents | src/umat/c2/bundle.py:154-225 | the rows are the normalised events in order, chained from the platform manifest's hash to the tip |
| C2Bundle.Build | src/umat/c2/bundle.py:62-141 | what is returned is accepted by verification with the same manifest, describes this analysis and holds the result files of its events; it fails only on an occupied destination or a manifest that the contract refuses |
| C2Bundle.VerifyResultBundle | src/umat/c2/bundle.py:280-353 | accepts exactly the bundles whose files, signature, hashes, descriptors, identities and chain are in order, and returns their manifest |
| C2Bundle.ManifestFixesFiles | src/umat/c2/bundle.py:309-343 | given one accepted bundle and no digest collision, files with the same manifest are accepted if and only if they are the same files, the hash list in any order |
| C2Bundle.ReplacedFileRefused | src/umat/c2/bundle.py:333-343 | a bundle one of whose result files is replaced is refused, whatever its hash list says |
| C2Bundle.OnlySignedIsAccepted | src/umat/c2/bundle.py:307-343 | if the key signed the manifests of some bundles only, every accepted bundle holds the manifest and the eight result files of one of them |
| C2Bundle.NormalMeans | src/umat/c2/bundle.py:154-225 | a normalised event takes over the identity of its analysis, keeps what the analyzer knows, fills what is missing, and withholds claims with a caveat where telemetry cannot support them |
| C2Bundle.KindMeans | src/umat/c2/bundle.py:228-240 | the kind of an unnamed event, decided by claim, port, technique and reputation in that order |
| C2Bundle.ResultFilesMean | src/umat/c2/bundle.py:62-96 | which part of the result each of the eight files holds |
| C2Bundle.CheckChain | src/umat/c2/bundle.py:344-353 | the loop accepts exactly the chains from the root to the tip |
| C2Bundle.ValidateIdentity | src/umat/contracts/validator.py:60-90 | the validator's gate, as a loop against its meaning |
| C2Bundle.CheckIdentity | src/umat/c2/adapter.py:149-181 | the adapter's gate, which collects the claims before it looks at any |
| C2Bundle.GatesAgree | src/umat/c2/adapter.py:160-181 | whatever the validator accepts, the adapter that expects it accepts |
| AndroidCorrelation.GatesPart | src/umat/contracts/validator.py:60-90 | an expected document that the validator accepts, the adapter accepts; of what the adapter accepts, the validator refuses exactly the documents with a misnamed event or with an unevidenced claim of empty strings |
| AndroidCorrelation.BothGates | src/umat/c2/adapter.py:149-181 | the same of the two loops |
| AndroidCorrelation.EmptyClaimParts | src/umat/contracts/validator.py:70-90 | a document whose one event claims the empty data type, which the validator refuses and the adapter accepts |
| AndroidCorrelation.SameChainSameEvents | src/umat/c2/bundle.py:344-353 | two accepted event lists with equal root, length and tip are equal |
| AndroidCorrelation.BuiltIdentity | src/umat/c2/bundle.py:154-225 | a build for Android with usable telemetry passes the identity gate if and only if each native claim is a temporal correlation with its host reference; every other build passes |
| AndroidCorrelation.Nearest | src/umat/c2/runtime.py:728-742 | the chosen observation is within the tolerance, none within it is nearer, and every earlier one within it is farther; none exactly when none is within it |
| AndroidCorrelation.ReachExactly | src/umat/c2/runtime.py:728-733 | within reach is what is at most thirty seconds away and at most five, or five more than the access's uncertainty |
| AndroidCorrelation.AssociatedMeans | src/umat/c2/runtime.py:743-790 | an associated event keeps the observation's time, destination and references, carries the access's claim, is scored at most 0.55, and names the access and how far apart they are |
| AndroidCorrelation.CorrelateAndroidAccess | src/umat/c2/runtime.py:686-790 | an event for each usable access that reaches an observation, in order, with the nearest observation; every other access reaches nothing |
| AndroidCorrelation.AssociatedSurvives | src/umat/c2/bundle.py:163-217 | an associated event keeps claim, kind, caveat, tier and host reference through normalisation and passes the gate |
| AndroidCorrelation.CorrelatedBundlePasses | src/umat/c2/adapter.py:160-181 | a bundle of unclaimed observations and associated events passes both gates |
| Coalescing.Coalesce | src/umat/c2/runtime.py:571-627 | the pass that changes rows in place and keeps a dictionary of them computes `Coalesced` of the rows it was given |
| Coalescing.Take | src/umat/reporting/aggregator.py:650-718 | one row is appended or merged into the row of its key, and the dictionary still points to the retained rows |
| Conservation.TotalKept | src/umat/c2/runtime.py:594-602 | for positive counts the total number of observations is preserved |
| Conservation.OthersKept | src/umat/c2/runtime.py:582-585 | all other rows keep their content and their order |
| Conservation.OneRowForEachKey | src/umat/c2/runtime.py:586-599 | one neutral row for each key, in the order the keys were first seen |
| Conservation.OneRowForEachThing | src/umat/reporting/aggregator.py:650-669 | each thing observed, by time, host, port, protocol, caveats and words, has exactly one row in the end, and no row is of anything else |
| Conservation.GroupsHeld | src/umat/reporting/aggregator.py:691-711 | each retained row holds exactly the dictionary references of its group and, for positive counts, the number of its observations; in a report also exactly its finding ids and its artifacts |
| Conservation.EachIdOnce | src/umat/reporting/aggregator.py:670-698 | for fresh distinct ids, a retained row holds the id of a neutral finding if and only if it is the row of its key |
| Conservation.EachIdHeld | src/umat/reporting/aggregator.py:670-698 | and there is such a row |
| Conservation.AddressesKeptExactly | src/umat/c2/runtime.py:603-613 | for any rows, all addresses of a group survive if and only if none of its rows names one, or its first row names one and what its rows list as observed is named by the first row or is some row's own |
| Conservation.AddressLost | src/umat/c2/runtime.py:603-613 | two observations of one host on which an address is lost |
| Conservation.ListedAddressLost | src/umat/reporting/aggregator.py:679-690 | two observations of one host, both with an address, on which an address that only the second lists is lost |
| Conservation.SecondPassIdle | src/umat/reporting/aggregator.py:646-718 | for positive counts a second pass changes nothing |
| EvidencePath.ReportCountsEvents | src/umat/c2/bundle.py:173-217 | the total of the report is the number of native events that count, whatever an event stood for |
| EvidencePath.ReportedExactly | src/umat/reporting/aggregator.py:646-718 | from the analyzer's rows through both passes: the report counts one for each key among the neutral rows and one for each other row that counts |
| EvidencePath.CountsSurviveExactly | src/umat/c2/runtime.py:599-602 | it counts all neutral observations and other counting rows if and only if each neutral row stands for one and no two share a key; their number comes out if and only if as many other rows count as observations were merged away |
| EvidencePath.CountLost | src/umat/c2/bundle.py:173-217 | two observations of one packet, of which the report counts one |
| EvidencePath.CountMadeUp | src/umat/reporting/aggregator.py:106-120 | the same and a DNS event of no known process: the report counts two, one of them not an observation of the first pass |
| EvidencePath.NeutralExactly | src/umat/c2/adapter.py:215-230 | a persisted event is neutral for the report if and only if it is a network observation, or is flagged and no static indicator |
| EvidencePath.NeutralStays | src/umat/c2/bundle.py:173-217 | an observation that the first pass treats as neutral is neutral for the report |
| Verdicts.Findings | src/umat/reporting/aggregator.py:487-640 | the three loops and the coalescing produce the coalesced projection of the inputs |
| Verdicts.DecideVerdict | src/umat/reporting/aggregator.py:997-1042 | each verdict is given exactly under its condition |
| Verdicts.CoalescedTells | src/umat/reporting/aggregator.py:646-718 | a coalesced report has a finding that is malicious, or suspicious, exactly when such a row is not neutral or is the first neutral row of its key |
| Verdicts.TellsWhatIsTold | src/umat/reporting/aggregator.py:487-640 | the projected rows do so if and only if an input does: a platform finding, or a C2 finding that is credible, not flagged and not a repetition of earlier traffic |
| Verdicts.MaliciousHasWitness | src/umat/reporting/aggregator.py:1010-1018 | however rows are coalesced, a malicious report has a confirmed input that is a platform finding, a static indicator or an unflagged C2 finding |
| Verdicts.FlaggedRowsDoNotConvict | src/umat/reporting/aggregator.py:106-120 | if a report is malicious with its flagged C2 findings, it is malicious without them |
| Verdicts.Judge | src/umat/reporting/aggregator.py:143-300 | each verdict if and only if, on the inputs: failed, when the platform failed; else malicious, when an input is confirmed and of a malicious kind or malicious by its details; else suspicious, when one is at least weak; else no malicious activity, when nothing blocks that and all stages finished; malicious only with a witness, and never on flagged C2 findings alone |
| Verdicts.SortingIsIrrelevant | src/umat/reporting/aggregator.py:641-643 | the order of the findings does not matter to the verdict |
| Restore.Site.RestoreBackup | src/umat/operations/backup.py:181-257 | the outcome is determined by the first step that fails and by the faults of undoing it; success replaces both and records how to go back; when undoing does not fail, a failure leaves the database as it was, and the artifacts if and only if it was not the writing of the restore id alone (or the trees are equal); when undoing fails, the recovery set still holds what is missing |
| Restore.IdentifierNotWritten | src/umat/operations/backup.py:230-257 | nothing fails but the writing of the restore id: the restore raises it, the new artifacts stay beside the old database, and the old artifacts are gone |
| Restore.Site.Undo | src/umat/operations/backup.py:233-257 | artifacts move back only if no tree is in place, then the database, then the recovery set goes |
| Restore.Site.RollbackRestore | src/umat/operations/backup.py:260-304 | all or nothing at every fault, given that the moves back succeed; it completes exactly when none of its steps fails |
| Restore.RestoreThenRollback | src/umat/operations/backup.py:260-304 | a restore, anything in between, and a rollback give back database and artifacts if and only if there was an artifact tree |
| CapePool.Manager.AllocateIp | src/umat/cape_gateway/manager.py:408-418 | the lowest unused address of the range; none exactly when all are used |
| CapePool.Manager.Create | src/umat/cape_gateway/manager.py:107-235 | the outcome is that of the first guard that settles it or of the first command that fails; otherwise a machine with an unused address is recorded; a recorded machine loses its disk if and only if the request passes the guards, finds a free address and has its label |
| CapePool.CreatedExactly | src/umat/cape_gateway/manager.py:107-235 | a machine is created if and only if its profile is approved and new, its label well-formed and free, its disk large enough, an address free and no command fails |
| CapePool.Manager.Attempt | src/umat/cape_gateway/manager.py:144-235 | the first failing command decides, a taken label failing the definition of the domain; in records, reservations and domains the machine exists wholly or not at all; the cleanup of a failure removes the disk of the label, whoever has it; only a record that cannot be written leaves a configuration entry |
| CapePool.TakenLabel | src/umat/cape_gateway/manager.py:121-235 | two profiles with one label: the second is not made, and the first machine is recorded without its disk |
| CapePool.Manager.Delete | src/umat/cape_gateway/manager.py:237-286 | the machine of that label goes with its reservation, domain, disk and configuration entry, and nothing else |
| CapePool.PoolBound | src/umat/cape_gateway/manager.py:408-418 | machines with distinct addresses in the range never outnumber it |
| CapePool.Serve | src/umat/cape_gateway/manager.py:107-286 | after any creations and deletions, every answer and the final state are those of the specification: distinct addresses in the range, no more machines than addresses, reservations one to one with records |

## Left out

- Row locks and races inside a handler: a handler is one atomic step. `cancel_run` takes no lock, and the workers re-read after a rollback; the step relation does not interleave inside them.
- The order in which a claim picks a stage, and the matching of platforms and capabilities: any due, claimable stage may be picked, which only allows more runs.
- The 1000 leases a sweep reads and leases skipped because they are locked: `Sweeping.SweepComplete` asks that every unreleased lease was read.
- Session rows, failure codes, audit rows written by handlers, metrics and the contents of answers beyond state and times.
- Branches for a run or a submission that does not exist: excluded by the foreign keys of the tables.
- Artifact upload, downloads and native-task endpoints: they share the table of idempotency records and may leave a record without an answer; that is all the model has of them.
- The adapter commands that re-adapt a stage outside the worker: not part of the step relation.
- Request hashes: the record keeps the whole message, so two different messages never look alike. Lease tokens are compared directly.
- That a cancelling run stays cancelling: it does not, a claim makes it running; the model keeps this.
- The kernel's sets before the broker starts, nft deletes that fail, and traffic between the reading of a counter and the deletion of its element: sets start empty, deletes succeed, a heartbeat is atomic.
- Scoped tuples that time out before their source entry: they count as installed; one that has timed out lets nothing through.
- Readiness probes, capture contents and the time a capture takes to stop: parameters of the operations.
- SHA-256, Ed25519, base64, canonical JSON and JSON Schema: functions, with a signature that its own key accepts and a canonical form that tells contents apart. A file of a bundle holds the value that was written to it; the text formats of JSON, of the hash list and of the CSV are not modelled, nor is the ZIP archive.
- `round` and the format of seconds in the texts of associated events, and timestamps as text: times are real numbers that are there when they parse.
- The corroboration and enrichment passes on Windows events, the projection of indicators and destinations, and the restoring of access objects into host references of correlation findings.
- Counts, references and ids that are not of their JSON type, and events that occur twice in one list as one object: rows are distinct objects with typed members.
- The final sort of findings: the verdict is proved not to depend on it.
- Backups themselves, leftovers of deletions that ignore errors, and a process killed between two steps: a step has happened or has not.
- CAPE's own database, guest customisation and disk contents; cleanup commands are taken to succeed, and `virsh define` to refuse a label that is taken.
- Role filters, request validation, templates, HTTP and the command line: each is settled by reading one branch.
