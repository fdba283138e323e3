# Message gateway: verified model

A gateway answers chat messages with a language model. A bridge reads an upstream message log
and posts each message to the gateway; the gateway stores it with an outbox row; workers claim
outbox rows under leases, build a reply, and send it behind a dispatch fence. The hard promise is
reliable delivery when any process may die between any two commits. This project models that
pipeline and the stores and algorithms around it, and proves what they keep in every run.

| module | subject |
|---|---|
| `Outbox`, `Leases`, `Backoff` | one outbox row: its operations in place, any interleaving of workers, callbacks and operators, and the retry schedule |
| `OutboxRaces` | the operations that read a row and write it back, with their read and their commit apart |
| `Worker` | the claim, run and report loop of one worker, beside a rival after the same row |
| `Pipeline`, `PipelineSafety`, `PipelineRuns` | message processing as a state machine over commits, sends and crashes; its invariant; what holds of whole runs |
| `PipelineCalm`, `PipelineReopen` | when a finished reply can go out again, and when it cannot |
| `PipelineAnswered` | when a message is marked sent although no reply to it was completed |
| `PipelineSteps` | single steps and short stretches of that machine, from which the failing runs are built |
| `Gateway` | `process_message` and its merge helpers as code over the message table, each commit matched with one event of the machine |
| `Ingress` | the upstream log, the bridge cursor, racing posts, and the gateway's tables |
| `BridgeRuntime`, `BridgeContext`, `BridgeInstances` | reply context tokens in memory and in the session file, across crashes, stops and restores |
| `ToolLoop` | model routing, fallback, the bounded tool loop, transcripts and usage records |
| `Text`, `SplitReply`, `ChunkText` | stripping, cutting a reply into pieces, cutting a document into overlapping chunks |
| `IdentityMerge` | merging one user's rows into another's, and bind codes |
| `Mfa`, `MfaLife`, `MfaStore` | TOTP, recovery codes, login challenges |
| `PngCard`, `Soak`, `Settings` | the PNG chunk scan, the stability monitor, runtime settings |

A state machine is an `Event` datatype, an `Enabled` predicate and an `Apply` function; `Legal` and
`Run` extend them to event sequences. A class holds the tables the source updates in place; its
methods are proved to make exactly the state its machine or specification function prescribes.
Transactions are single events, except in `OutboxRaces`. Providers, tools, sends, file writes and
clocks are parameters.

## Where the code falls short of its promise

Each of these is a lemma with the failing case, beside the exact condition under which the promise
holds. The model follows the code throughout.

- A reply can go out twice. `fail_task` sets a message `dead` without looking at its status, a replay
  makes it `failed`, and the fence then reads "sent", which stops nothing. A finished message can be
  dispatched again if and only if `fail_task` accepts a last failure for it
  (`PipelineReopen.SealBreaksOnlyByKill`). Three things lead there, each with a run from the first event:
  a takeover that misses the Redis lock (`PipelineReopen.ReplyCanRepeat`), an exception out of the release of
  merged messages (`PipelineReopen.ReplyCanRepeatAfterRelease`), and a worker that starts after its lease was
  taken over (`PipelineReopen.ReplyCanRepeatAfterLateStart`). Without them every message is dispatched at most
  once (`PipelineCalm.CalmRunsReplyOnce`).
- A message can be marked sent although nobody was ever answered. `_release_merged_messages` is documented
  as marking merged siblings, but takes in every other message of the conversation that is `processing`, for
  instance one whose worker has just died (`PipelineAnswered.CrashedSiblingIsSwept`); and a merged sibling that
  was queued again is marked sent by its own worker although the message it was merged into may die unanswered
  (`PipelineAnswered.MergedSiblingIsSkipped`). Both runs are calm, and the message's outbox row ends done, so
  nothing will retry it. These are the only two ways, step by step (`PipelineAnswered.SilentExactly`,
  `PipelineAnswered.UnansweredExactly`); in a run without them "sent" means a whole reply went out
  (`PipelineAnswered.SentMeansAnswered`).
- A sync callback can be lost, and the late result of an old worker can end a newer lease. The outbox
  operations read a row and write it back by id without locking it. A callback between a completion's read
  and its commit, or around one, leaves the row done with a rerun requested
  (`OutboxRaces.CallbackInsideCompletion`, `OutboxRaces.CompletionInsideCallback`); a completion read before a takeover
  and committed after it ends the other worker's task (`OutboxRaces.LateResultEndsNewerLease`). The commits that do
  so are characterised exactly (`OutboxRaces.LosesExactly`, `OutboxRaces.LateResultOverwrites`); when each commit
  finds its row as it was read, runs are those of `Leases` (`OutboxRaces.UndisturbedRefines`).
- A redelivered message can be answered with its older context token (`BridgeContext.TornRedelivery`): exactly
  when the process drops its memory while the session file lacks the newer one (`BridgeContext.LostOnlyBehind`,
  `BridgeContext.ReplyFindsContext`).
- The policy merge compares a missing channel and an empty one as different, the unique index as equal
  (`IdentityMerge.ChannelsCanClash`). The whole merge is rolled back if and only if two policies clash so
  (`IdentityMerge.MergeIsSound`, `IdentityMerge.Database.MergeInto`).
- Normalising a document twice is not the same as once (`ChunkText.LimitCanCutAfterSpace`): exactly when the
  cleaned text is longer than the limit and has whitespace just before it (`ChunkText.NormalizedTwice`).
- The documented priority puts the environment before the built-in default, but a stored value that no
  longer validates falls back to the built-in default (`Settings.InvalidRowHidesEnvironment`): exactly with such a
  row and an environment value that differs from the default (`Settings.DocumentedOrder`).

## Assumptions that callers meet

The surrounding code refuses or never produces the inputs on which these would fail.

- A message has an external id: the gateway refuses one without (src/wecom_ai_gateway/services.py:191-192), so it
  is never accepted and the bridge's cursor never passes it (`Ingress.RefusedBlocks`).
- A login names an account: the iLink client raises otherwise (bridge/src/clawbot_bridge/ilink.py:327-333). A
  running session has a file if and only if its login did (`BridgeContext.WrittenExactlyIfNamed`); without a name
  it would forget every context at a restart (`BridgeContext.UnnamedForgets`, `BridgeContext.UnnamedAccepts`).
- `_split_reply` gets a stripped text: its one caller strips first (src/wecom_ai_gateway/services.py:604). A leading
  space would make it repeat a character (`SplitReply.UnstrippedTextRepeats`).

## Model

| member | source | states |
|---|---|---|
| Outbox.OutboxTask.constructor | src/wecom_ai_gateway/tasks.py:29-36 | a new row is pending, unlocked, with no attempts |
| Outbox.OutboxTask.ReceiveCallback | src/wecom_ai_gateway/tasks.py:39-57 | a callback refreshes the token; a processing row is flagged for a rerun, a finished one starts afresh |
| Outbox.OutboxTask.TryClaim | src/wecom_ai_gateway/tasks.py:102-123 | the claim succeeds exactly on a due pending row or a stale processing one, and then installs token and lock time |
| Outbox.OutboxTask.RenewLease | src/wecom_ai_gateway/tasks.py:128-144 | the holder of the lease, and nobody else, moves the lock time to now and nothing else |
| Outbox.OutboxTask.Complete | src/wecom_ai_gateway/tasks.py:147-171 | accepted exactly under the current lease; a flagged sync row goes back to pending |
| Outbox.OutboxTask.Fail | src/wecom_ai_gateway/tasks.py:174-234 | accepted exactly under the current lease; dead at the attempt limit, else delayed by the capped doubling delay |
| Outbox.OutboxTask.Replay | src/wecom_ai_gateway/tasks.py:239-256 | only a dead row is replayed, with its attempts cleared |
| Leases.LeaseStep | src/wecom_ai_gateway/tasks.py:82-256 | every operation keeps: processing if and only if token and lock time are set, and no token with two outcomes |
| Leases.OneOutcomePerLease | src/wecom_ai_gateway/tasks.py:82-234 | the same over every interleaving of selects, updates, renewals, outcomes, replays and callbacks |
| Leases.InitialLeases | src/wecom_ai_gateway/tasks.py:29-36 | a fresh row satisfies the lease invariant |
| Leases.SupersededTokenIsInert | src/wecom_ai_gateway/tasks.py:128-158 | everything done under a superseded token can be erased from a run without changing its end |
| Leases.LiveLockIsNotTakenOver | src/wecom_ai_gateway/tasks.py:84-125 | a row locked within the timeout is not reclaimed, even by an update whose select is older |
| Leases.RenewalKeepsLease | src/wecom_ai_gateway/tasks.py:84-144 | after a renewal no other worker takes the row over until the timeout has passed, whenever its select ran |
| Leases.SyncStep | src/wecom_ai_gateway/tasks.py:39-57 | each step keeps the coalescing invariant of sync rows |
| Leases.SyncInvariant | src/wecom_ai_gateway/tasks.py:39-167 | the coalescing invariant over every run |
| Leases.NoCallbackLost | src/wecom_ai_gateway/tasks.py:39-167 | with each operation in one step, a sync row is done only if some claim after the latest callback carried that callback's token; otherwise a further claim is still due |
| OutboxRaces.UndisturbedRefines | src/wecom_ai_gateway/tasks.py:39-256 | with read and commit apart: when each commit finds its row as it was read, but for renewals, a run ends as the run of whole operations does |
| OutboxRaces.UndisturbedLosesNothing | src/wecom_ai_gateway/tasks.py:39-167 | so such runs lose no callback |
| OutboxRaces.LosesExactly | src/wecom_ai_gateway/tasks.py:39-167 | a callback gets lost exactly when a completion that read no rerun commits after a callback no claim has carried, or a callback that read an unfinished row commits to a done one |
| OutboxRaces.NothingLost | src/wecom_ai_gateway/tasks.py:39-167 | a run without such a commit loses none |
| OutboxRaces.CallbackInsideCompletion | src/wecom_ai_gateway/tasks.py:154-167 | a run that loses a callback between a completion's read and commit |
| OutboxRaces.CompletionInsideCallback | src/wecom_ai_gateway/tasks.py:42-46 | a run that loses one around a completion |
| OutboxRaces.LateResultOverwrites | src/wecom_ai_gateway/tasks.py:174-193 | a result committed under a superseded token changes the row exactly when the token still held it at the read |
| OutboxRaces.LateResultEndsNewerLease | src/wecom_ai_gateway/tasks.py:147-167 | a run in which it ends the task of the worker that took over |
| Backoff.FailingRun | src/wecom_ai_gateway/tasks.py:192-232 | under any interleaving without success, attempts equal accepted failures and the waits follow the schedule |
| Backoff.PowGrows | src/wecom_ai_gateway/tasks.py:227-230 | the doubling factor grows |
| Backoff.DelaysGrow | src/wecom_ai_gateway/tasks.py:227-230 | delays are positive, nondecreasing and capped |
| Backoff.DoublingsComeFirst | src/wecom_ai_gateway/tasks.py:227-230 | the uncapped delays are exactly the first ones |
| Backoff.ScheduleTotal | src/wecom_ai_gateway/tasks.py:227-232 | the sum of the waits in closed form |
| Backoff.DiesAtLastAttempt | src/wecom_ai_gateway/tasks.py:192-232 | dead exactly at the max-th accepted failure; total wait base·(2^s − 1) + (max − 1 − s)·cap |
| Worker.Drain.SelectTask | src/wecom_ai_gateway/tasks.py:87-101 | the free row that became available first, and none exactly when nothing is free |
| Worker.Drain.ClaimTask | src/wecom_ai_gateway/tasks.py:82-125 | that row is claimed if it still can be; none is claimed exactly when nothing was free or a rival was quicker |
| Worker.Drain.ReportTask | src/wecom_ai_gateway/worker.py:102-119 | a run without an error is completed, one with an error counts as a failure and keeps it |
| Worker.Drain.Round | src/wecom_ai_gateway/worker.py:87-120 | the earliest free row is claimed, run and reported, unless a rival has it; nothing else changes |
| Worker.Drain.DrainAvailableTasks | src/wecom_ai_gateway/worker.py:87-121 | every claim reported once and in order, no lease of its own left behind, and nothing free at the end unless a rival ended the loop |
| Pipeline.LocalStep | src/wecom_ai_gateway/services.py:406-733 | a worker's own step stays on its own message |
| Pipeline.RunCat | src/wecom_ai_gateway/services.py:406-733 | runs compose |
| PipelineSafety.LocalKeeps | src/wecom_ai_gateway/services.py:406-458 | a step on the worker's own message keeps the message and phase invariants |
| PipelineSafety.SendKeeps | src/wecom_ai_gateway/services.py:622-683 | a send extends the prefix of chunks that went out, whether or not it raises |
| PipelineSafety.FenceKeeps | src/wecom_ai_gateway/services.py:613-618 | the fence admits a dispatch only when none has started, or a finished one was killed since |
| PipelineSafety.MergedIsUntouched | src/wecom_ai_gateway/services.py:416-424 | a merged or queued message has dispatched nothing |
| PipelineSafety.MergedOk | src/wecom_ai_gateway/services.py:1281-1309 | merging keeps the invariants and does not touch the main message |
| PipelineSafety.ReleasedOk | src/wecom_ai_gateway/services.py:1312-1337 | releasing every processing row of the conversation keeps the invariants |
| PipelineSafety.RestoredOk | src/wecom_ai_gateway/services.py:1340-1359 | re-queueing without clearing the merge mark keeps the invariants |
| PipelineSafety.FailStep | src/wecom_ai_gateway/tasks.py:189-233 | a failure, with its kill of the message, keeps the invariants |
| PipelineSafety.ReplayStep | src/wecom_ai_gateway/tasks.py:239-256 | a replay keeps the invariants |
| PipelineSafety.ClaimStep | src/wecom_ai_gateway/tasks.py:82-125 | a claim or takeover keeps the invariants |
| PipelineSafety.InvStep | src/wecom_ai_gateway/services.py:406-733 | every event keeps the whole invariant |
| PipelineSafety.InvRun | src/wecom_ai_gateway/services.py:406-733 | so does every run |
| PipelineRuns.RunGrows | src/wecom_ai_gateway/services.py:416-424 | history only grows: merge marks and kills are never undone, and each dispatch stays, with its chunks and at least what it had sent |
| PipelineRuns.RunLogs | src/wecom_ai_gateway/services.py:604-621 | every dispatch on record was made from one answer's chunk list |
| PipelineRuns.RepliesAtMostOnce | src/wecom_ai_gateway/services.py:409-458 | in every run, dispatches are at most one more than kills of a sent message, sends are a prefix of one chunk list, and a fence of "sent" means all chunks went out |
| PipelineRuns.CompleteReplyIsWholeAnswer | src/wecom_ai_gateway/services.py:604-663 | a finished main-path dispatch sent the whole answer, within the limit |
| PipelineRuns.MergingIsDepthOne | src/wecom_ai_gateway/services.py:416-424 | a merge target is never merged, a merged message never dispatches even after being re-queued, a message that dispatched is never merged |
| PipelineCalm.CalmStep | src/wecom_ai_gateway/tasks.py:208-212 | without the three causes no event prepares or makes a kill of a sent message |
| PipelineCalm.CalmInvRun | src/wecom_ai_gateway/services.py:406-733 | the same over runs |
| PipelineCalm.CalmRunsReplyOnce | src/wecom_ai_gateway/services.py:409-458 | in a calm run every message is dispatched at most once on all three reply paths, through crashes, takeovers, retries and replays |
| PipelineReopen.SealBreaksOnlyByKill | src/wecom_ai_gateway/tasks.py:208-212 | a dispatched message becomes dispatchable again if and only if fail_task accepts a last failure for a finished one |
| PipelineReopen.SealedRefusesDispatch | src/wecom_ai_gateway/services.py:613-615 | until then an attempted dispatch sends nothing |
| PipelineReopen.KilledRepliesAgain | src/wecom_ai_gateway/services.py:613-618 | a killed finished message, once replayed, is dispatched again |
| PipelineReopen.LockMissKills | src/wecom_ai_gateway/worker.py:48-53 | a takeover that misses the lock leads to the kill |
| PipelineReopen.ReleaseFailureKills | src/wecom_ai_gateway/services.py:710-731 | an exception out of the release, after the commit of "sent", leads to the kill |
| PipelineReopen.LateStartKills | src/wecom_ai_gateway/worker.py:87-119 | a worker that starts under a superseded lease leads to the kill |
| PipelineReopen.ReplyCanRepeat | src/wecom_ai_gateway/services.py:613-618 | a run from the first event with two dispatches of one message, after a missed lock |
| PipelineReopen.ReplyCanRepeatAfterRelease | src/wecom_ai_gateway/services.py:710-731 | another, after a failed release |
| PipelineReopen.ReplyCanRepeatAfterLateStart | src/wecom_ai_gateway/worker.py:87-119 | another, after a late start |
| PipelineAnswered.UnansweredExactly | src/wecom_ai_gateway/services.py:1312-1337 | a message becomes sent, neither dispatched nor merged, exactly by a release after another reply |
| PipelineAnswered.SentMeansTakenUp | src/wecom_ai_gateway/services.py:1312-1337 | in a run without such a release, sent means dispatched or merged |
| PipelineAnswered.CrashedSiblingIsSwept | src/wecom_ai_gateway/services.py:1312-1337 | a calm run in which a message whose worker died is marked sent and its outbox row completed |
| PipelineAnswered.SilentExactly | src/wecom_ai_gateway/services.py:409-424 | a message becomes sent without a whole reply to it or to the one it was merged into, exactly by a release or by the early exit for its merge mark |
| PipelineAnswered.SentMeansAnswered | src/wecom_ai_gateway/services.py:409-424 | in a run without those two, sent means a whole reply went out |
| PipelineAnswered.MergedSiblingIsSkipped | src/wecom_ai_gateway/services.py:416-424 | a calm run in which a merged sibling is marked sent and its main message dies unanswered |
| Gateway.MessageTable.OldestCandidates | src/wecom_ai_gateway/services.py:1277-1293 | the at most ten oldest queued siblings |
| Gateway.MessageTable.MergePendingMessages | src/wecom_ai_gateway/services.py:1268-1309 | exactly the picked siblings are seized and marked with their target |
| Gateway.MessageTable.ReleaseMergedMessages | src/wecom_ai_gateway/services.py:1312-1337 | exactly the processing rows of the conversation become sent |
| Gateway.MessageTable.RestoreMergedMessages | src/wecom_ai_gateway/services.py:1340-1359 | exactly the rows marked with this target are queued again |
| Gateway.MessageTable.RaiseFence | src/wecom_ai_gateway/services.py:604-621 | the fence and the record of the text and its pieces are persisted before anything is sent, or an exception leaves the row as it was |
| Gateway.Heard | src/wecom_ai_gateway/services.py:622-683 | how many of the chunks reach the user: all before the first that is not delivered cleanly, and that one if it raised only afterwards |
| Gateway.MessageTable.SendChunks | src/wecom_ai_gateway/services.py:622-683 | each send is one event of the machine; the record shows exactly the chunks that reached the user |
| Gateway.MessageTable.SendOne | src/wecom_ai_gateway/services.py:624-625 | one send, delivered or not, raising or not; only the last dispatch of the row grows |
| Gateway.SendsMean | src/wecom_ai_gateway/services.py:622-683 | a chunk is attempted exactly when every chunk before it was delivered cleanly, in its turn and never twice |
| Gateway.AllDeliveredMeans | src/wecom_ai_gateway/services.py:622-683 | the send loop ends without an exception exactly when every send is clean |
| Gateway.MessageTable.SendText | src/wecom_ai_gateway/services.py:622-714 | the text, then the media and the commit of "sent"; it succeeds exactly when every send is clean and no media send raises |
| Gateway.MessageTable.SendAll | src/wecom_ai_gateway/services.py:620-714 | it succeeds exactly when nothing raises behind the fence, and what is on record is what reached the user |
| Gateway.MessageTable.FinishSends | src/wecom_ai_gateway/services.py:675-714 | media sends on the main path, then the commit of "sent" |
| Gateway.MessageTable.MarkSent | src/wecom_ai_gateway/services.py:710-714 | the commit of "sent" is the machine's finish event |
| Gateway.MessageTable.DispatchReply | src/wecom_ai_gateway/services.py:1362-1424 | a raised fence and an empty reply send nothing; otherwise the given text goes on record in its pieces, with those that reached the user, and the row is sent exactly when nothing raised |
| Gateway.MessageTable.MarkFailed | src/wecom_ai_gateway/services.py:720-724 | the message is failed unless it was sent |
| Gateway.MessageTable.Recover | src/wecom_ai_gateway/services.py:717-731 | the exception branch marks the message failed unless sent, re-queues exactly the siblings marked with it, and reports failure |
| Gateway.MessageTable.MainPath | src/wecom_ai_gateway/services.py:587-714 | no answer or a failed lookup raises before the fence; otherwise the stripped answer itself is dispatched |
| Gateway.MessageTable.MergeSiblings | src/wecom_ai_gateway/services.py:577-584 | exactly the oldest waiting siblings are seized and marked, and no other row changes |
| Gateway.MessageTable.MergeAndAsk | src/wecom_ai_gateway/services.py:577-585 | waiting siblings are merged before the model is asked |
| Gateway.MessageTable.Answer | src/wecom_ai_gateway/services.py:425-560 | what each branch of the try block makes of every row: which text it says, what it merges, and when it raises; only a question for the model merges siblings |
| Gateway.MessageTable.TakeUp | src/wecom_ai_gateway/services.py:406-424 | a message that can be taken up becomes processing, a merged one is marked sent, any other stays |
| Gateway.MessageTable.Finally | src/wecom_ai_gateway/services.py:715-731 | after the try block: recovery after an exception, or the release after a reply |
| Gateway.MessageTable.RunTaken | src/wecom_ai_gateway/services.py:425-731 | the run of a message that was taken up, and what becomes of every row |
| Gateway.MessageTable.RunClaimed | src/wecom_ai_gateway/services.py:406-731 | the same from the early exits on |
| Gateway.ResultSays | src/wecom_ai_gateway/services.py:604-710 | a successful run adds one dispatch, of the plan's own text cut to the limit and sent whole |
| Gateway.ResultMerges | src/wecom_ai_gateway/services.py:577-584 | a run marks exactly the picked siblings and adds to no other message's dispatches |
| Gateway.MessageTable.ProcessMessage | src/wecom_ai_gateway/services.py:406-733 | what goes out is what the plan says, stripped on the main path and in its pieces; exactly a question for the model merges, and exactly the oldest waiting siblings; every other row ends released, re-queued or as it was; the machine's invariant is kept and the events are exactly the scripted ones |
| Gateway.RanKeeps | src/wecom_ai_gateway/services.py:406-733 | the events of the code keep the machine's invariant |
| Gateway.MessageTable.ReleaseAfterReply | src/wecom_ai_gateway/services.py:715-731 | the release after the reply, or its exception and what follows |
| Ingress.InsertKeeps | src/wecom_ai_gateway/services.py:220-243 | inserting an absent message keeps keys unique and each queued row with its one outbox row |
| Ingress.RepairShrinks | src/wecom_ai_gateway/tasks.py:263-287 | a reconciliation serves min(500, missing) queued or failed messages without a task and nothing else, and none when the tables agree |
| Ingress.ProgressKeeps | src/wecom_ai_gateway/services.py:406-733 | a message moving to any other status keeps the tables in agreement |
| Ingress.Step | bridge/src/clawbot_bridge/ilink_service.py:46-80 | every event of poll, post, insert, answer, cursor write, crash keeps the invariant |
| Ingress.InvRun | bridge/src/clawbot_bridge/ilink_service.py:46-80 | so does every run |
| Ingress.NothingLostNothingDoubled | bridge/src/clawbot_bridge/ilink_service.py:56-80 | everything before the persisted cursor is in the gateway, one row per key, one outbox row exactly for each message to be replied to, among them every queued or failed one |
| Ingress.Store.AddMessageTask | src/wecom_ai_gateway/tasks.py:29-36 | an existing dedupe key is reused |
| Ingress.Store.IngestChannelMessage | src/wecom_ai_gateway/services.py:185-243 | no external id raises, a known key changes nothing, a new one adds its row and outbox row |
| Ingress.Store.SelectMissing | src/wecom_ai_gateway/tasks.py:267-277 | up to 500 queued or failed messages without an outbox row, and all of them when fewer |
| Ingress.Store.ReconcileMessageTasks | src/wecom_ai_gateway/tasks.py:263-287 | only queued or failed messages without an outbox row get one, and all of them when there are fewer than 500 |
| Ingress.CursorFollows | bridge/src/clawbot_bridge/ilink_service.py:56-80 | after a poll the cursor is at the end of its batch exactly when all of it could be forwarded, and else where it was |
| Ingress.TrackPasses | bridge/src/clawbot_bridge/ilink_service.py:56-80 | the last cursor is past the end of every batch that was wholly forwarded |
| Ingress.CanCatchUp | bridge/src/clawbot_bridge/ilink_service.py:46-80 | from every reachable state some continuation brings the cursor to the end of the log, if the messages there have external ids |
| Ingress.FirstFailure | bridge/src/clawbot_bridge/ilink_service.py:76-77 | the first message of a batch whose forward raises |
| Ingress.RefusedBlocks | bridge/src/clawbot_bridge/ilink_service.py:76-80 | the cursor never passes a message the gateway refuses |
| Ingress.ILinkService.OnMessage | bridge/src/clawbot_bridge/runtime.py:265-277 | a post that does not raise adds the message exactly once; one that raises may have added it or not |
| Ingress.ILinkService.ForwardBatch | bridge/src/clawbot_bridge/ilink_service.py:76-77 | a batch succeeds exactly when no post raises; the messages before the first raise are then in the gateway, that one exactly if its answer was lost, and none after it; each new row is as its message brings it |
| Ingress.ILinkService.HandlePoll | bridge/src/clawbot_bridge/ilink_service.py:57-80 | one turn: a lost connection takes the next delay; a wholly forwarded batch moves the cursor to its end, any other leaves it |
| Ingress.ILinkService.Monitor | bridge/src/clawbot_bridge/ilink_service.py:46-80 | the cursor follows the polls step by step, to the end of each wholly forwarded batch; the monitor ends exactly when stopped or when a forward raises |
| Ingress.WaitsSnoc | bridge/src/clawbot_bridge/ilink_service.py:61-74 | the delay index counts the failures since the last good poll |
| BridgeContext.StepKeeps | bridge/src/clawbot_bridge/runtime.py:120-350 | every event keeps disk, memory and delivery history in agreement |
| BridgeContext.InvRun | bridge/src/clawbot_bridge/runtime.py:120-350 | so does every history |
| BridgeContext.LastMatches | bridge/src/clawbot_bridge/runtime.py:265-277 | the recorded token is the one of the last delivery since the session was cleared |
| BridgeContext.CalmStep | bridge/src/clawbot_bridge/runtime.py:265-277 | without a torn write, memory is ahead of disk only inside on_message |
| BridgeContext.CalmRun | bridge/src/clawbot_bridge/runtime.py:265-277 | the same over histories |
| BridgeContext.ReplyFindsContext | bridge/src/clawbot_bridge/runtime.py:352-365 | a reply to an accepted message always finds a token; it is the last delivered one if and only if that was not lost |
| BridgeContext.WriteAhead | bridge/src/clawbot_bridge/runtime.py:265-277 | without a torn write it is always the last delivered token |
| BridgeContext.LostOnlyBehind | bridge/src/clawbot_bridge/runtime.py:120-138 | a token is lost exactly when memory is dropped while the file lacks it |
| BridgeContext.TornRedelivery | bridge/src/clawbot_bridge/runtime.py:265-268 | a crash between memory and file after a redelivery brings back the older token |
| BridgeContext.WrittenExactlyIfNamed | bridge/src/clawbot_bridge/runtime.py:310-321 | a running session has a file if and only if its login named an account |
| BridgeContext.UnnamedForgets | bridge/src/clawbot_bridge/runtime.py:310-312 | a session whose login named no account forgets every context at a restart |
| BridgeContext.UnnamedAccepts | bridge/src/clawbot_bridge/runtime.py:310-312 | such a session can still have accepted messages |
| BridgeInstances.Runtime.SaveState | bridge/src/clawbot_bridge/runtime.py:310-321 | the whole session is written, or nothing without credentials or account |
| BridgeInstances.Runtime.StartInstance | bridge/src/clawbot_bridge/runtime.py:120-143 | an instance that is up stays; a stored session comes back whole, online and desired; only without one a login begins |
| BridgeInstances.Runtime.RestoreAll | bridge/src/clawbot_bridge/runtime.py:106-118 | exactly the stored sessions that should run come online; the others are untouched |
| BridgeInstances.Runtime.KeepToken | bridge/src/clawbot_bridge/runtime.py:266 | the token reaches memory first |
| BridgeInstances.Runtime.KeepOnDisk | bridge/src/clawbot_bridge/runtime.py:267 | then the file; a raise ends the monitor before anything is forwarded |
| BridgeInstances.Runtime.Forward | bridge/src/clawbot_bridge/runtime.py:268-277 | only then is the message forwarded |
| BridgeInstances.Runtime.OnMessage | bridge/src/clawbot_bridge/runtime.py:265-277 | a delivery is exactly these events, in this order; afterwards memory holds the token, and the file too when the write went through |
| BridgeInstances.Runtime.MarkStopped | bridge/src/clawbot_bridge/runtime.py:323-350 | the wish to stop goes into the file, and the instance is offline unless the write raised |
| BridgeInstances.Runtime.StopInstance | bridge/src/clawbot_bridge/runtime.py:323-350 | the same as one event of the instance, also in the middle of a forward |
| BridgeInstances.Runtime.ExpireSession | bridge/src/clawbot_bridge/runtime.py:198-205 | an expired session is cleared in the file and in memory |
| BridgeInstances.Runtime.CompleteLogin | bridge/src/clawbot_bridge/runtime.py:145-163 | the session is saved before its messages are polled |
| BridgeInstances.Runtime.Die | bridge/src/clawbot_bridge/runtime.py:93-94 | a crash empties memory and leaves the files |
| BridgeInstances.Runtime.SendReply | bridge/src/clawbot_bridge/runtime.py:352-384 | refused exactly when not online or without a token in memory; a reply to an accepted message goes out with the last delivered token, over every history without a torn write |
| ToolLoop.WellFormedAppend | src/wecom_ai_gateway/services.py:1180-1265 | well-formed transcripts concatenate |
| ToolLoop.PlainWellFormed | src/wecom_ai_gateway/services.py:781-927 | a history of system, user and assistant texts is well formed |
| ToolLoop.RoundAppend | src/wecom_ai_gateway/services.py:1197-1265 | a tool_calls message followed by its results in order keeps a transcript well formed |
| ToolLoop.EveryRequestWellFormed | src/wecom_ai_gateway/services.py:975-1034 | the recorded requests are well formed one by one |
| ToolLoop.Runnable | src/wecom_ai_gateway/services.py:1215-1226 | only short, parsing, allow-listed calls are run |
| ToolLoop.RoutesAreWalked | src/wecom_ai_gateway/model_routing.py:81-119 | routing stops at the first route, in priority order, whose outcome is no failover |
| ToolLoop.TriesBilled | src/wecom_ai_gateway/services.py:1012-1034 | a walk over the routes is billed once, to the route that answered |
| ToolLoop.FailuresAreFree | src/wecom_ai_gateway/services.py:975-1034 | requests that raised add no usage |
| ToolLoop.PlayConcludes | src/wecom_ai_gateway/services.py:1035-1179 | an answer is the last completion's own text and not blank, or the apology after a blank closing request made without tools |
| ToolLoop.PlayEnds | src/wecom_ai_gateway/services.py:1035-1179 | the result follows from the last exchange alone: failure, its text, or the apology after a blank closing request |
| ToolLoop.PlayLines | src/wecom_ai_gateway/services.py:943-1011 | without a group, all exchanges up to the first that makes the conversation leave are on the vision or primary line, all later ones on the fallback line |
| ToolLoop.PlayGroup | src/wecom_ai_gateway/model_routing.py:64-119 | with a group, every round walks its routes from the first on, one step after each temporary failure |
| ToolLoop.PlayChains | src/wecom_ai_gateway/services.py:960-1265 | every request follows from the exchange before it: the same after a temporary failure, with the round's results when it was within the limit, else the retry or the closing request |
| ToolLoop.PlayTools | src/wecom_ai_gateway/services.py:1211-1226 | the tools run are exactly those the record calls for, in order |
| ToolLoop.UsageLists | src/wecom_ai_gateway/services.py:1012-1034 | one usage record for each completion that returned, in order, with the line asked and the tokens reported |
| ToolLoop.Conversation.constructor | src/wecom_ai_gateway/services.py:781-927 | a conversation starts well formed, with nothing billed or run |
| ToolLoop.Conversation.Ask | src/wecom_ai_gateway/services.py:976-981 | a request carries the transcript as it stands |
| ToolLoop.Conversation.AskRoutes | src/wecom_ai_gateway/model_routing.py:64-119 | routes are tried in order until the first that does not fail over; the answer names that route |
| ToolLoop.Conversation.AskRoute | src/wecom_ai_gateway/model_routing.py:82-108 | one route, asked with the transcript as it stands |
| ToolLoop.Conversation.RunTool | src/wecom_ai_gateway/services.py:1211-1265 | each call counts once and gets one result; it runs exactly when its arguments are at most 4000 characters and parse, and its name is allowed |
| ToolLoop.Conversation.RunRound | src/wecom_ai_gateway/services.py:1197-1265 | a round adds its message and one result per call in order, and runs exactly the runnable calls |
| ToolLoop.Conversation.AskAndBill | src/wecom_ai_gateway/services.py:1012-1034 | a completion that returns is billed and committed before anything else |
| ToolLoop.Conversation.AskGroup | src/wecom_ai_gateway/services.py:961-974 | a group request is billed to the route that answered |
| ToolLoop.Conversation.BillRoute | src/wecom_ai_gateway/services.py:1012-1034 | the route that answered is billed and committed |
| ToolLoop.Conversation.AskLine | src/wecom_ai_gateway/services.py:975-1011 | the fallback line is asked exactly after a temporary failure of the active one |
| ToolLoop.Conversation.AskPrimary | src/wecom_ai_gateway/services.py:960-1034 | the request of a round leaves usage and transcript settled |
| ToolLoop.Conversation.CloseOut | src/wecom_ai_gateway/services.py:1145-1179 | the forced ending asks once more without tools |
| ToolLoop.Conversation.Overrun | src/wecom_ai_gateway/services.py:1043-1118 | an overrun round gets one try on the fallback line, unless that is the line in use |
| ToolLoop.Conversation.Turn | src/wecom_ai_gateway/services.py:960-1265 | one turn of the loop ends it as specified, or goes round again with fewer calls left: after one exchange on the line it was on, after two on the fallback line, where the second was made |
| ToolLoop.Conversation.Decide | src/wecom_ai_gateway/services.py:1035-1265 | what a completion comes to |
| ToolLoop.Conversation.RunCalls | src/wecom_ai_gateway/services.py:1197-1265 | a round of calls as a step of the chat |
| ToolLoop.Conversation.CompleteAi | src/wecom_ai_gateway/services.py:928-1265 | it ends, and its record shows: exchanges on the right lines, each following from the one before; a result that follows from the last; usage records that are the returned completions; exactly the tools called for, at most max_tool_calls and all allow-listed; at most max_tool_calls + 3 completions |
| SplitReply.LastOf | src/wecom_ai_gateway/services.py:1704-1708 | the last break character below the limit |
| SplitReply.CutLength | src/wecom_ai_gateway/services.py:1704-1711 | a cut is at least half the limit and at most the limit |
| SplitReply.TakePiece | src/wecom_ai_gateway/services.py:1711-1715 | one turn takes a piece and leaves a strictly shorter rest |
| SplitReply.SplitText | src/wecom_ai_gateway/services.py:1691-1720 | the loop computes the specified pieces |
| SplitReply.PiecesRejoin | src/wecom_ai_gateway/services.py:1703-1719 | the text is piece, whitespace, piece, … with nothing lost or repeated |
| SplitReply.PiecesCount | src/wecom_ai_gateway/services.py:1703-1711 | few cuts |
| SplitReply.PiecesFit | src/wecom_ai_gateway/services.py:1711-1714 | pieces are non-empty and within the limit |
| SplitReply.SplitIsFaithful | src/wecom_ai_gateway/services.py:1691-1720 | all of that for every stripped reply, with (pieces − 1)·limit < 2·length |
| SplitReply.SplitCutsWell | src/wecom_ai_gateway/services.py:1703-1719 | every cut is behind the last newline of the window's second half, else behind its last sentence mark, else at the limit, and the next cut is made in what follows the piece |
| SplitReply.UnstrippedTextRepeats | src/wecom_ai_gateway/services.py:1715 | a leading space makes a character repeat |
| Text.StripWindow | src/wecom_ai_gateway/services.py:1712 | stripping cuts out a window with only whitespace around it |
| Text.StripTrimmed | src/wecom_ai_gateway/services.py:604 | a stripped text is stripped to itself |
| ChunkText.Normalized | src/wecom_ai_gateway/knowledge.py:74-78 | within the document limit |
| ChunkText.NormalizingKeepsInk | src/wecom_ai_gateway/knowledge.py:74-78 | normalising changes whitespace only, up to the limit |
| ChunkText.NormalizedIsTidy | src/wecom_ai_gateway/knowledge.py:75-78 | no NUL, tab, carriage return, double space or triple newline is left |
| ChunkText.TidyIsFixed | src/wecom_ai_gateway/knowledge.py:75-77 | a tidy text is left as it is |
| ChunkText.NormalizedTwice | src/wecom_ai_gateway/knowledge.py:74-78 | normalising is idempotent if and only if the cleaned text fits the limit or has no whitespace just before it |
| ChunkText.LimitCanCutAfterSpace | src/wecom_ai_gateway/knowledge.py:78 | a text on which it is not |
| ChunkText.WindowCount | src/wecom_ai_gateway/knowledge.py:88-95 | ⌈(n − c)/step⌉ + 1 windows |
| ChunkText.LastExactly | src/wecom_ai_gateway/knowledge.py:90-95 | a window reaches the end exactly when it is the last |
| ChunkText.WindowsOverlap | src/wecom_ai_gateway/knowledge.py:88-95 | consecutive windows share exactly c − step characters |
| ChunkText.Chunk | src/wecom_ai_gateway/knowledge.py:81-96 | the specified chunks of the normalised text |
| ChunkText.Cut | src/wecom_ai_gateway/knowledge.py:83-96 | short texts whole, long ones by windows |
| ChunkText.StripWindows | src/wecom_ai_gateway/knowledge.py:87-95 | the loop visits every window once and ends |
| ChunkText.WithoutEmpty | src/wecom_ai_gateway/knowledge.py:96 | blank chunks are dropped, the rest kept in order |
| ChunkText.ChunksAreStretches | src/wecom_ai_gateway/knowledge.py:81-96 | the chunks are the stripped stretches starting at 0, step, 2·step, …, blank ones left out, up to the first stretch that reaches the end |
| ChunkText.NothingIsLost | src/wecom_ai_gateway/knowledge.py:81-96 | every character that is not whitespace is in a returned chunk |
| ChunkText.ChunksFit | src/wecom_ai_gateway/knowledge.py:91-96 | every chunk is a non-empty stretch of the text, at most c long |
| IdentityMerge.HandleRow | src/wecom_ai_gateway/binding.py:230-241 | one source row is dropped or moved, and counted when moved |
| IdentityMerge.MergeOwned | src/wecom_ai_gateway/binding.py:230-241 | the loop makes the merged table and counts the moved rows |
| IdentityMerge.MergeIsUnion | src/wecom_ai_gateway/binding.py:219-241 | the target has its old rows plus the source rows whose key it lacked; the source has none; others are untouched |
| IdentityMerge.MergeKeepsUnique | src/wecom_ai_gateway/binding.py:257-271 | keys stay unique if and only if no source row clashes with a target row under the index |
| IdentityMerge.MovedIsPreviewed | src/wecom_ai_gateway/binding.py:63-104 | rows moved are previewed keys minus previewed conflicts |
| IdentityMerge.MergedMoves | src/wecom_ai_gateway/binding.py:219-271 | each source row becomes the target's or, when the target has its key, is gone; every other row is untouched |
| IdentityMerge.MergeKnowledge | src/wecom_ai_gateway/binding.py:288-300 | items and their chunks are merged together |
| IdentityMerge.ChunksStillFollow | src/wecom_ai_gateway/binding.py:294-300 | chunks move with their item and go with it, never otherwise |
| IdentityMerge.MergeIsSound | src/wecom_ai_gateway/binding.py:200-300 | all constraints hold after the merge if and only if no policies clash |
| IdentityMerge.ChannelsCanClash | src/wecom_ai_gateway/models.py:493-503 | a missing and an empty channel do clash |
| IdentityMerge.DropIsHarmless | src/wecom_ai_gateway/binding.py:320-322 | deleting the source user takes none of the merged rows along |
| IdentityMerge.TakeOver | src/wecom_ai_gateway/binding.py:204-208 | every identity of the source becomes the target's, no other changes, and the count is of those that changed |
| IdentityMerge.MergedTablesAre | src/wecom_ai_gateway/binding.py:200-323 | what a merge makes of the whole database, table by table |
| IdentityMerge.MergeRows | src/wecom_ai_gateway/binding.py:200-300 | all tables merged, with the counts of rows taken over |
| IdentityMerge.Database.MergeInto | src/wecom_ai_gateway/binding.py:200-323 | on success every identity, message and row of the source is the target's or was in conflict, with counts of what changed; nothing changes exactly when the policies clash |
| IdentityMerge.Database.CreateBindCode | src/wecom_ai_gateway/binding.py:131-147 | the new code is the user's only one |
| IdentityMerge.Database.MergeByCode | src/wecom_ai_gateway/binding.py:47-128 | a code serves once, never after expiry, never for its own user; success merges everything, and counts and preview are of what was there |
| Mfa.VerifyTotp | src/wecom_ai_gateway/totp.py:34-43 | the loop finds the earliest matching period after the last accepted one |
| Mfa.GenerateRecoveryCodes | src/wecom_ai_gateway/totp.py:51-58 | ten different codes |
| MfaLife.VerifyWindow | src/wecom_ai_gateway/totp.py:34-43 | accepted if and only if one of three periods after the last counter shows the code |
| MfaLife.PresentSpends | src/wecom_ai_gateway/mfa.py:119-136 | an accepted code is a later period's or an unused recovery code, and is used up |
| MfaLife.NormalizedRestores | src/wecom_ai_gateway/totp.py:46-58 | a generated recovery code is recognised from its characters |
| MfaLife.GeneratedDigestsDiffer | src/wecom_ai_gateway/totp.py:46-58 | different generated codes have different digests |
| MfaLife.CredentialStep | src/wecom_ai_gateway/mfa.py:109-215 | every operation keeps the credential invariant |
| MfaLife.ChallengeStep | src/wecom_ai_gateway/mfa.py:63-154 | every operation keeps the challenge invariant |
| MfaLife.LifeRun | src/wecom_ai_gateway/mfa.py:63-233 | so does every history |
| MfaLife.FactorsOverALife | src/wecom_ai_gateway/mfa.py:109-215 | counters strictly increase; unused plus accepted recovery codes are ten; no recovery code twice |
| MfaLife.ChallengesAreSingleUse | src/wecom_ai_gateway/mfa.py:63-154 | one live challenge per subject, at most five tries, at most one success and nothing after it |
| MfaLife.ConsumeGrants | src/wecom_ai_gateway/mfa.py:109-154 | a login is granted exactly with a live challenge and a fitting unused factor |
| MfaLife.VerifyExactly | src/wecom_ai_gateway/totp.py:34-43 | a TOTP code is accepted, and its comparison raises, exactly when; and it is entered under the earliest period that shows it |
| MfaLife.ConsumesExactly | src/wecom_ai_gateway/mfa.py:109-154 | a login is granted exactly with a live challenge, an enabled credential and a fitting code of 6 to 32 characters, which is used up; what every other try leaves behind |
| MfaLife.VerifiesExactly | src/wecom_ai_gateway/mfa.py:193-215 | the same without a challenge |
| MfaLife.RecoveryCodeGranted | src/wecom_ai_gateway/mfa.py:119-136 | an unused generated recovery code presented to a live challenge is granted, once |
| MfaLife.CurrentCodeGranted | src/wecom_ai_gateway/mfa.py:119-127 | so is the current TOTP code |
| MfaLife.EnablesExactly | src/wecom_ai_gateway/mfa.py:172-190 | a credential is enabled exactly when pending and confirmed, with the digests of its codes |
| MfaStore.Store.SavePendingSecret | src/wecom_ai_gateway/mfa.py:157-169 | refused exactly when enabled |
| MfaStore.Store.EnableCredential | src/wecom_ai_gateway/mfa.py:172-190 | it succeeds exactly on a pending credential whose secret shows the code, and stores ten different digests and the confirming counter |
| MfaStore.Store.CreateChallenge | src/wecom_ai_gateway/mfa.py:63-86 | the subject's older challenge and all expired ones go |
| MfaStore.Store.FindChallenge | src/wecom_ai_gateway/mfa.py:89-106 | found exactly when live; stale ones are deleted |
| MfaStore.Store.UseFactor | src/wecom_ai_gateway/mfa.py:119-136 | TOTP first, then recovery, and used up when it fits |
| MfaStore.Store.ConsumeChallenge | src/wecom_ai_gateway/mfa.py:109-154 | the whole new state and result of a login try |
| MfaStore.Store.VerifySecondFactor | src/wecom_ai_gateway/mfa.py:193-215 | the whole new state and result without a challenge |
| MfaStore.Store.RemoveCredential | src/wecom_ai_gateway/mfa.py:218-233 | credential and challenges go |
| PngCard.ExtractCard | src/wecom_ai_gateway/cards.py:49-90 | on arbitrary bytes, the structural search over the chunks that can be read, without reading past the end |
| PngCard.ScanChunks | src/wecom_ai_gateway/cards.py:59-90 | the scan loop ends and agrees with the search |
| PngCard.InspectAt | src/wecom_ai_gateway/cards.py:60-65 | one turn; a chunk past the end settles the search |
| PngCard.SettlesExactly | src/wecom_ai_gateway/cards.py:66-72 | a chunk settles the search exactly when it is a text chunk whose data starts with one of the keywords and a zero |
| PngCard.InternationalExactly | src/wecom_ai_gateway/cards.py:74-88 | an iTXt text gives a card exactly when it is flag, method, tag, translation and body in that layout, with that card in the body, inflated when flagged |
| PngCard.InternationalSettles | src/wecom_ai_gateway/cards.py:73-88 | an iTXt chunk under a keyword gives its body |
| PngCard.FirstDecides | src/wecom_ai_gateway/cards.py:59-90 | the first chunk that settles the search decides, whatever stands around it |
| PngCard.NoKeywordNoCard | src/wecom_ai_gateway/cards.py:59-90 | chunks under no keyword give no card |
| PngCard.FirstTextDecides | src/wecom_ai_gateway/cards.py:66-73 | the first text under a keyword decides, whatever stands before or after it |
| PngCard.EmbeddedCardIsFound | src/wecom_ai_gateway/cards.py:57-73 | a card written into a PNG file is read back from its bytes |
| PngCard.WrittenComesFirst | src/wecom_ai_gateway/cards.py:59-65 | chunks written first are read first, whatever bytes follow |
| PngCard.CardSurvivesDamage | src/wecom_ai_gateway/cards.py:59-90 | a card is extracted from a file that is damaged or cut off anywhere behind it |
| PngCard.ReadWritten | src/wecom_ai_gateway/cards.py:60-64 | reading back any written chunk list |
| PngCard.ScanIsSearch | src/wecom_ai_gateway/cards.py:57-90 | on every serialised chunk list the scan is the structural search |
| PngCard.TruncationIsSafe | src/wecom_ai_gateway/cards.py:59-65 | a truncated file never yields another card |
| Soak.UpdateUnhealthySince | src/wecom_ai_gateway/soak.py:27-37 | the loop computes the specified bookkeeping |
| Soak.RunMonitor | src/wecom_ai_gateway/soak.py:92-136 | violations accumulated over the samples, and the exit code |
| Soak.SinceIsStretch | src/wecom_ai_gateway/soak.py:27-37 | the bookkeeping holds the start of each current unhealthy stretch |
| Soak.ViolationsAreBlocks | src/wecom_ai_gateway/soak.py:40-50 | reported if and only if some unbroken block of samples is unhealthy for the grace time |
| Settings.CoercedTwice | src/wecom_ai_gateway/runtime_settings.py:237-271 | a coerced value coerces to itself |
| Settings.CoercedFits | src/wecom_ai_gateway/runtime_settings.py:237-271 | coercion gives only values that fit the specification, and leaves those alone |
| Settings.TruncatedTowardZero | src/wecom_ai_gateway/runtime_settings.py:242-244 | an integer setting cuts a number's fraction off towards zero |
| Settings.ErrorsAre | src/wecom_ai_gateway/runtime_settings.py:409-434 | which submitted values are errors, exactly |
| Settings.BatchStores | src/wecom_ai_gateway/runtime_settings.py:433-444 | what the row of each setting holds after a batch: the coerced value, encrypted when write-only, or as before |
| Settings.BatchReadsBack | src/wecom_ai_gateway/runtime_settings.py:407-446 | saved keys that are not write-only read back as coerced, all others as before |
| Settings.BlankLeavesSecret | src/wecom_ai_gateway/runtime_settings.py:422-423 | a missing or blank write-only value is no error and changes nothing |
| Settings.DocumentedOrder | src/wecom_ai_gateway/runtime_settings.py:281-304 | a reading follows the documented order row, environment, default if and only if there is no invalid row above an environment value that differs from the default |
| Settings.InvalidRowHidesEnvironment | src/wecom_ai_gateway/runtime_settings.py:290-299 | an instance where the two differ |
| Settings.Session.GetRuntimeValue | src/wecom_ai_gateway/runtime_settings.py:281-304 | a cached reading equals a fresh one |
| Settings.Session.Validate | src/wecom_ai_gateway/runtime_settings.py:409-434 | exactly the invalid keys are errors |
| Settings.Session.UpdateSettings | src/wecom_ai_gateway/runtime_settings.py:407-446 | exactly the errors; without any, every value is stored as coerced, write-only ones encrypted, else nothing; and the cache stays coherent |

## Left out

- PipelineCalm.CalmRunsReplyOnce: one way only and for runs without the three named causes; the general bound is PipelineRuns.RepliesAtMostOnce and the step-wise equivalence is PipelineReopen.SealBreaksOnlyByKill.
- BridgeContext.WriteAhead: assumes no torn write and a named account; ReplyFindsContext says what holds without the first.
- Leases.NoCallbackLost: takes each operation as one step; OutboxRaces says exactly what is lost when read and commit come apart.
- Worker.Drain.DrainAvailableTasks: takes a number of rounds after which the worker is stopped, because nothing bounds how often failing rows with no delay come back; the heartbeat appears only in Leases, and another worker acts only between a select and its update.
- Ingress.ILinkService.Monitor: takes a finite list of polls and the log as it is in the end; the source polls until it is stopped.
- Soak.RunMonitor: takes the list of samples; how long to sleep between them, and when to end, is not modelled.
- IdentityMerge.Database.CreateBindCode: takes the token that ends the redraw loop, which ends with probability one only.
- MfaStore.Store.EnableCredential: takes random draws of which ten differ, for the same reason.
- Serial processing: at most one worker is inside process_message at a time, as the message lock intends within its lifetime. Claims, takeovers and late reports are concurrent.
- Transactions are atomic. In particular the claim's update and the read of the row it wrote are one step, and two operations on one second-factor credential do not overlap.
- create_sync_task's IntegrityError branch, the ordering of model routes, and the choice of model group are taken as given.
- notify_model_error: its sends have no dispatch fence, so nothing is claimed about them.
- Outbound message rows, media sends after the text (one point that may raise), error texts, alerts and audit rows.
- /clear, data retention and user deletion inside the pipeline: they remove rows and add only cases.
- sync_wecom_messages and ingest: the pull variant of the same de-duplication.
- Bridge login and QR rotation: the status a finished login flow leaves behind may overwrite its successor's, so a session is assumed to have one monitor and a status that says whether it is alive. Media sends use the same context token as text.
- Instance ids that map to one session directory after sanitising.
- The merge statements for conversations, memories, providers, channel instances and usage records, which are single reassignments like those of identities and messages; deletion of the source's accounts and sessions.
- The reported memory count of a merge, which the source never sets, and resolve_bind, the same merge reached from a channel message.
- Prompt assembly (persona, memory, knowledge, attachments), retrieval, embeddings and document parsing; a conversation starts from system, user and assistant texts.
- Cryptography: Fernet, HMAC, SHA-256 and zlib are parameters; SHA-256 is assumed not to collide where a digest is a key.
- HTTP, Redis, SMTP, database and file drivers, routes, web UI, migrations, other channels' adapters, and small lookups and formatting.
