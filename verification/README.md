# Verified models of the training machinery

This project models, in Dafny, the parts of the repository where several actors, buffers or layouts have to
agree, and proves what they promise each other.

* **Fully asynchronous training** (`MessageQueue`, `AsyncProtocol`, `InFlight`, `Conservation`, `Staleness`,
  `Freshness`, `AsyncWitness`, `AsyncLimits`, `Starvation`, `StarvationLimits`, `AsyncHistory`, `AsyncProgress`,
  `AsyncActors`, `OldLogProb`). The rollouter's feeder, processor, generation tasks and monitor, the drop-oldest
  queue, the trainer and the pause / synchronise / update / resume handshake are one transition system; a step is a
  stretch of a coroutine between two points where it can be interrupted. `Run` ranges over every interleaving. The
  classes of `AsyncActors` hold the fields of the original objects; `Drive` runs them through any schedule and is
  proved to end where the transition system does. `AsyncHistory` says what the state after any run is in terms of
  its events alone, `AsyncProgress` who can go on when. `AsyncLimits` and `StarvationLimits` say of the
  configuration alone for which values a property holds in every run.
* **Distillation** (`WeightBroadcast`, `Schedulers`, `TeacherKnowledge`, `TopkDivergence`, `VocabKL`). The bucketed
  weight broadcast between two parties, the pipeline schedulers as resumable objects that leave a trace of events,
  each due at its time, the teacher's answers in shared padded buffers, and the loss over a split vocabulary.
* **Batches and checkpoints** (`DataProto`, `QkvLayout`, `LayerRenumber`, `LayerMerge`). Padding, chunking and
  concatenation; the layout of fused attention weights; the global numbers of pipeline chunks.
* **The JSON reader** (`JsonParser`, `JsonReader`, `JsonTexts`, `JsonRoundTrip`, `JsonGrammar`, `JsonMeaning`) and
  **dynamic sampling** (`Dapo`).
* `Options`, `Arith` and `Seqs` hold an option type, facts about products and quotients, and flattening.

Loops of the source are loops here, with invariants, and are specified by functions; theorems are lemmas about
those functions or about all runs. `dafny verify dfyconfig.toml` checks everything.

## What the proofs found

* `update_param_version` does not count the sample that the processor holds. The number in flight can therefore
  exceed `max_required_samples` by one, and the queue can then drop a sample. With enough
  data some run does so exactly if `max_required_samples` is more than one window, which it is for thresholds
  from 1 / window on (`InFlightLimitExact`, `LimitOfThreshold`); the excess is never more than one
  (`InFlightBound`).
* The promised version lag (threshold + 1 for a whole threshold) holds if the monitor's late write cannot happen,
  *or* if no reset misses the sample in hand, *or* with partial rollout (`PartialRolloutBound`). Otherwise both
  faults together break it, by one version, and for which configurations they can is exact: those whose limit is
  two or more whole windows, hence every whole threshold from 1 on (`LagLimitExact`).
* The back-pressure can stop everything for ever, and for which configurations is exact. It never does for a limit
  of one window. With partial rollout, if a version is announced only after the next window is used up, most of the
  limit can be running at the next pause; it is cancelled, counted by the reset, and then forbidden to resume,
  while the trainer waits. This needs `max_concurrent_samples > max_required_samples - window` (`OrderlyExact`; one
  task less if the window is one sample and a reset misses an item, `TimelyPartialExact`), and with a late monitor
  only `max_required_samples <= window + 2 * max_concurrent_samples` (`PartialExact`). Without partial rollout a
  timely monitor excludes it, and any monitor does from two windows minus one on
  (`TimelyWithoutCancelNeverStuck`, `WithoutCancelExact`). While no announcement is pending,
  nothing else stops the trainer (`StuckIsExact`).
* The one-step scheduler differs from its own comments: its first iteration runs on into the `else` branch, so
  batch 0 is generated and trained on twice, rollout 2 uses weights that can be two updates old, and, under `fit`,
  the last batch is never trained on (`FitOneStep`, `RepetitionMissesLast`). The documented form is modelled
  beside it.
* A last bucket that holds only empty tensors is never broadcast; `EachWeightOnce` says exactly when every
  weight arrives.
* An empty pipeline chunk uses up a layer number; `MergedLayersWithoutGap` says exactly when that leaves a gap.
* Which texts the JSON reader accepts, and as what, is exact (`ExtractJsonExact`). It reads every object that RFC
  8259 allows, but returns what it means only under a condition that `ExtractJsonUndoesRender` states exactly:
  numeric-looking strings, repeated names and the escapes `\b`, `\f` and `\uXXXX` are what it rewrites.

## Assumptions

Remote calls, broadcasts and collectives are single steps that deliver; in particular a put takes effect when
it is called, which is right after the sample is stamped, since nothing suspends the task in between. Generation
ends as finished or cancelled. Without `partial_rollout` nothing is cancelled; with it tasks are cancelled from
the beginning of `pause` to the end of `resume`, and a task that starts after the end of `pause` does not finish
before the end of `resume`, because the servers return at once until then. Statements that do not mention partial
rollout hold for any mixture of both.

An `await` counts as a point of interruption also where asyncio would go on at once, with one exception: when the
monitor finds the lock free, its write follows its test directly. When it finds the lock held, its write may come
at any later moment at which the lock is free; in the runs that are exhibited it comes in the order of asking.

`float`, `convert_value`, `exp`, `log`, the teacher and the workers' computation are parameters; `float` is assumed
to accept every number of RFC 8259, and `convert_value` to return its text unchanged or something that is no
string. Identifiers made by `uuid4` are distinct. The teacher answers each sequence with as many cells as it has
tokens. The laws of the loss in `TopkDivergence` assume of `exp` that it is positive and turns sums into products, of
`log` that it is its inverse and that `log y <= y - 1`. A standard deviation is positive exactly when the values are not all equal. `TensorDict.chunk` cuts pieces
of n / chunks rows, rounded up.

## Model

| member | source | states |
|---|---|---|
| MessageQueues.RefinesBoundedFifo | recipe/fully_async_policy/message_queue.py:67-116 | In every run of puts and gets the items leave in production order, the queue is the most recent part of the production, its length stays within the capacity, and produced = consumed + dropped + queued |
| MessageQueues.NoOverflowDeliversAll | recipe/fully_async_policy/message_queue.py:67-116 | If nothing was dropped, the sequence consumed is the sequence that left the queue, item for item |
| MessageQueues.MessageQueue.PutSample | recipe/fully_async_policy/message_queue.py:67-96 | Drops the oldest item only when full, appends the new one, keeps the statistics equal to the history, and tells whether an item was dropped |
| MessageQueues.MessageQueue.GetSample | recipe/fully_async_policy/message_queue.py:98-116 | Once the wait is over: the oldest item and the number remaining, with the statistics kept; None exactly when the queue is empty, which then has been shut down |
| InFlight.InFlightBound | recipe/fully_async_policy/fully_async_rollouter.py:420-494 | In every reachable state the items in flight exceed neither the staleness counter nor max_required_samples by more than one, with no assumption on the monitor |
| InFlight.ExactResetsNeverDrop | recipe/fully_async_policy/fully_async_rollouter.py:209-217 | In runs where no reset completes while the processor holds an item, the in-flight limit holds exactly and the queue never drops anything, the end marker included |
| Conservation.ExactlyOnePlace | recipe/fully_async_policy/fully_async_rollouter.py:381-526 | In every reachable state each sample fed is in exactly one of seven places, exactly once, and nothing that was not fed is anywhere |
| Conservation.EndAccountsForAll | recipe/fully_async_policy/fully_async_rollouter.py:455-467 | The end marker follows every sample and is never dropped; once the trainer has seen it, each sample was consumed, was dropped, or was cancelled after it and is left in the cancel queue |
| AsyncHistory.HandedOverInOrder | recipe/fully_async_policy/fully_async_rollouter.py:381-455 | In every run the feeder hands out first, first + 1, ..., at most up to total_rollout_steps and exactly so far if the data lasts; what was taken from the pending queue so far, followed by what it still holds, is exactly that, then the end marker; and the same of the samples cancelled and the cancel queue |
| AsyncHistory.QueueAsTold | recipe/fully_async_policy/fully_async_rollouter.py:496-526 | In every run the message queue holds and has dropped what a queue does that receives the calls told by the events, each finished sample stamped with the start version plus the announcements before it; and the trainer consumed exactly what those calls deliver, in order, at the start version plus the synchronisations before |
| AsyncHistory.StateAsTold | recipe/fully_async_policy/fully_async_rollouter.py:609-693 | In every run the versions of trainer, rollouter and weights are counts of synchronisations and announcements; the steps of a synchronisation happen in order, once each, and the next one waits for the last announcement; the lock, the pause, the monitor, the tasks not yet collected and the staleness counter are what the last events that concern them left |
| AsyncHistory.Discipline | recipe/fully_async_policy/fully_async_rollouter.py:420-693 | Whatever happens next after any run: the lock is respected, nothing is submitted while paused, a pending sample is taken only after a check that found no pause, room in the queue and below the counter's limit, and no cancelled sample; a pause and the end marker wait for every task; at most max_concurrent_samples tasks are active |
| AsyncHistory.SynchronisedWhileIdle | recipe/fully_async_policy/fully_async_rollouter.py:645-660 | With a timely monitor every task that was submitted has ended when weights are replaced |
| AsyncProgress.StuckIsExact | recipe/fully_async_policy/fully_async_rollouter.py:616-693 | Whichever runs are considered (partial rollout or not, any or a timely monitor, exact resets or not), at every state they reach with no announcement pending: the trainer can never move again, unless it has stopped, if and only if the state is stuck; in every other state some continuation of the same kind moves it |
| AsyncProgress.LockIsGivenBack | recipe/fully_async_policy/fully_async_rollouter.py:420-494 | Whenever the lock is held, its holder can give it back or a task that it waits for can end |
| AsyncProgress.ProcessorGoesOn | recipe/fully_async_policy/fully_async_rollouter.py:420-494 | When the lock is free the processor can go on unless it waits for a sample or a resumption or has exited |
| AsyncProgress.TrainerGoesOn | recipe/fully_async_policy/fully_async_trainer.py:125-162 | When the lock is free or the trainer's own, the trainer can go on unless it waits for a sample, for the last announcement or for the tasks that a pause awaits, or has stopped |
| AsyncProgress.AnnouncementGoesOn | recipe/fully_async_policy/fully_async_rollouter.py:209-217 | A pending announcement can go on as soon as the lock is free or its own |
| Staleness.TimelyMonitorBound | recipe/fully_async_policy/fully_async_rollouter.py:616-693 | If the monitor never un-pauses after the end of a pause, every consumed sample is at most ceil(max_required / (required * trigger)) versions old, weights are replaced only while nothing generates, and a task's stamp is the version of its weights |
| Staleness.ExactResetsBound | recipe/fully_async_policy/fully_async_rollouter.py:209-217 | The same lag bound with an arbitrary monitor, if no reset misses the item in the processor's hand |
| Staleness.PartialRolloutBound | recipe/fully_async_policy/fully_async_rollouter.py:496-526 | With partial rollout the same lag bound with any monitor and any resets, because nothing that starts after the end of pause finishes before the end of resume |
| Staleness.UnconditionalBound | recipe/fully_async_policy/fully_async_rollouter.py:496-526 | With no assumption at all the lag is at most floor(max_required / (required * trigger)) + 1 |
| Staleness.WorstLag | recipe/fully_async_policy/fully_async_rollouter.py:174-188 | This larger bound covers one item more than max_required and differs from the smaller one, by one, exactly when the window divides max_required |
| Staleness.MaxLagCovers | recipe/fully_async_policy/fully_async_rollouter.py:174-188 | The smaller bound is the least number of windows that covers max_required, and at least 1 |
| AsyncWitness.LossyResetDrops | recipe/fully_async_policy/fully_async_rollouter.py:209-217 | For every configuration whose limit is larger than a window there is a run in which max_required + 1 items are in flight, and one in which the queue drops a sample |
| AsyncWitness.LateMonitorAndLossyResetExceedMaxLag | recipe/fully_async_policy/fully_async_rollouter.py:616-643 | Without partial rollout, for every configuration whose limit is a larger multiple of the window there is a run in which a late monitor write and resets that miss the item in hand make a sample older than the smaller bound, reaching the larger one |
| AsyncLimits.InFlightLimitExact | recipe/fully_async_policy/fully_async_rollouter.py:209-217 | For every configuration, with or without partial rollout, with a timely or any monitor: all runs keep the in-flight limit, and no run drops anything, if and only if max_required is one window |
| AsyncLimits.LagLimitExact | recipe/fully_async_policy/fully_async_rollouter.py:616-643 | For every configuration, without partial rollout and with any monitor: all runs keep the smaller lag bound if and only if max_required is one window or no multiple of a window |
| Starvation.StuckForEver | recipe/fully_async_policy/fully_async_rollouter.py:645-667 | Once the trainer waits, nothing is on its way, no update is pending and the counter has reached the limit, no later event ever changes the trainer |
| Starvation.TimelyNeverStarves | recipe/fully_async_policy/fully_async_rollouter.py:616-667 | With a timely monitor the counter is below the limit whenever the trainer waits and nothing is in flight, in spite of resets that miss an item and of dropped samples |
| StarvationLimits.TimelyWithoutCancelNeverStuck | recipe/fully_async_policy/fully_async_rollouter.py:616-693 | Without partial rollout and with a timely monitor no run gets stuck |
| StarvationLimits.WithoutCancelExact | recipe/fully_async_policy/fully_async_rollouter.py:209-217 | Without partial rollout and with any monitor: no run gets stuck if and only if max_required is one window, or at least two windows minus one, or max_concurrent is at most max_required minus a window |
| StarvationLimits.OrderlyExact | recipe/fully_async_policy/fully_async_rollouter.py:645-682 | With partial rollout, a timely monitor and exact resets: no run gets stuck if and only if max_required is one window or max_concurrent is at most max_required minus a window; the stuck runs have parked cancelled samples that the counter forbids to resume |
| StarvationLimits.TimelyPartialExact | recipe/fully_async_policy/fully_async_rollouter.py:669-693 | With partial rollout and a timely monitor, and resets as they come: no run gets stuck if and only if max_required is one window or at least max_concurrent plus a window, plus one for a window of one sample |
| StarvationLimits.PartialExact | recipe/fully_async_policy/fully_async_rollouter.py:616-693 | With partial rollout, any monitor and any resets: no run gets stuck if and only if max_required is one window or exceeds a window plus twice max_concurrent |
| Freshness.LagOfThreshold | recipe/fully_async_policy/fully_async_rollouter.py:174-188 | A staleness threshold t allows at most ceil(t) + 1 versions of lag, and exactly t + 1 if t is whole, through the truncating computation of max_required_samples |
| Freshness.LimitOfThreshold | recipe/fully_async_policy/fully_async_rollouter.py:174-188 | max_required_samples covers a window for every threshold, and is one window exactly for thresholds below 1 / window |
| Freshness.ConsumedPerVersion | recipe/fully_async_policy/fully_async_trainer.py:462-487 | In every run, until the end marker, the samples consumed are exactly one window for each version made plus the current window's |
| Freshness.RolloutQuota | recipe/fully_async_policy/fully_async_rollouter.py:420-455 | With a timely monitor and exact resets, the rollouter takes at most max_required minus the items in flight at the reset between two resets |
| Freshness.ThresholdZeroIsOnPolicy | recipe/fully_async_policy/fully_async_trainer.py:253-296 | With threshold 0 every sample is consumed at the version that generated it, whatever the monitor does, and nothing is in flight when the version changes |
| AsyncActors.PutSample | recipe/fully_async_policy/message_queue.py:67-96 | The shared queue and its losses evolve as the queue of the transition system |
| AsyncActors.TakeSample | recipe/fully_async_policy/message_queue.py:98-116 | The oldest message is taken, and the queue evolves as that of the transition system |
| AsyncActors.Rollouter.SendFinishSignal | recipe/fully_async_policy/fully_async_rollouter.py:571-575 | The final None goes into the message queue as any other item, and may evict one |
| AsyncActors.Rollouter.FinishSample | recipe/fully_async_policy/fully_async_rollouter.py:496-526 | A finished sample is stamped with the current version and queued; a cancelled one goes to the cancel queue |
| AsyncActors.FullyAsyncTrainer.CollectOne | recipe/fully_async_policy/fully_async_trainer.py:151-162 | One sample is taken from the queue, or the end marker ends the collection |
| AsyncActors.Drive | recipe/fully_async_policy/fully_async_rollouter.py:381-693 | The objects, run through any schedule of all 28 kinds of step, end in the state that the schedule leads to; the queue object received exactly the calls that the events tell and the trainer what those deliver; samples are taken in the order in which they were fed or cancelled; lock, pause, counters and versions are what the events tell; nothing is dropped if the resets are exact, no sample is given twice and none older than the bounds |
| OldLogProb.ActorWorker.SaveModelToCpu | recipe/fully_async_policy/fsdp_workers.py:135-139 | Snapshot n becomes a copy of the live parameters |
| OldLogProb.ActorWorker.RestoreModelFromCpu | recipe/fully_async_policy/fsdp_workers.py:141-145 | The live parameters become snapshot n if there is one |
| OldLogProb.ActorWorker.ClearCpuModel | recipe/fully_async_policy/fsdp_workers.py:147-150 | Snapshot n is gone and nothing else changed |
| OldLogProb.ActorWorker.ProcessBatch | recipe/fully_async_policy/ray_trainer.py:374-394 | The live parameters come out as they went in, the log-probs are computed under snapshot 1 or the live parameters as the step requires, and only snapshot 1 can remain changed |
| OldLogProb.TrainOneStep | recipe/fully_async_policy/ray_trainer.py:374-394 | One step keeps: snapshot 1 is what the rollouter was last sent |
| OldLogProb.TrainRun | recipe/fully_async_policy/ray_trainer.py:374-394 | Over any number of steps and synchronisations every old_log_prob is computed under the parameters last sent to the rollouter, and only snapshot 1 remains |
| JsonParser.SkipSpaceMeaning | recipe/collabllm/utils.py:81-84 | The whole run of whitespace is skipped and nothing more |
| JsonParser.ParseNumber | recipe/collabllm/utils.py:67-79 | A number ends strictly after its start and within the text |
| JsonParser.StringBody | recipe/collabllm/utils.py:86-108 | The string loop terminates, reads only inside the text, and on success ends strictly further |
| JsonParser.TripleBody | recipe/collabllm/utils.py:167-185 | The loop terminates within the text; what it yields is, in order, the characters from where it started to three quotes in a row |
| JsonParser.ParseKey | recipe/collabllm/utils.py:110-116 | Called where a character follows, the unguarded index is in range, and a key ends strictly further |
| JsonParser.ParseValue | recipe/collabllm/utils.py:187-208 | Every parse of a value terminates; on success it ends strictly after its start and within the text |
| JsonParser.ObjectLoop | recipe/collabllm/utils.py:118-144 | The same for the members of an object |
| JsonParser.ArrayLoop | recipe/collabllm/utils.py:146-165 | The same for the elements of an array |
| JsonParser.Braced | recipe/collabllm/utils.py:210-214 | The text handed to the parser is empty or starts with { and ends with }, so the strip changes nothing |
| JsonRoundTrip.ValueTrip | recipe/collabllm/utils.py:187-208 | Wherever a well-formed text of a value stands (everything RFC 8259 allows, and also either quote, triple quotes, unknown escapes, keywords in any case, signs, commas after the last element), reading there succeeds, stops right after it, and yields what its members say |
| JsonRoundTrip.StringTrip | recipe/collabllm/utils.py:86-108 | A string between quotes of either kind yields what its characters and escapes say, and ends at its quote |
| JsonRoundTrip.TripleTrip | recipe/collabllm/utils.py:167-185 | Three quotes, a body in which the quote does not stand three times in a row or at the end, and three quotes: the value is convert_value of the body as it is, and the reader stops right after |
| JsonRoundTrip.TripleOpen | recipe/collabllm/utils.py:167-185 | Three quotes that nowhere stand again raise an error |
| JsonRoundTrip.KeywordTrip | recipe/collabllm/utils.py:197-202 | true, false and null are recognised with each letter small or capital |
| JsonRoundTrip.ElemsTrip | recipe/collabllm/utils.py:146-165 | The rest of an array is read element by element, with a comma before the bracket or without |
| JsonRoundTrip.MembersTrip | recipe/collabllm/utils.py:118-144 | The rest of an object is read member by member, with a comma before the brace or without |
| JsonGrammar.ValueAccepts | recipe/collabllm/utils.py:187-208 | Conversely, whatever is read as a value is insignificant whitespace and a well-formed text, and is read as that text says; so a missing comma, colon or quote is an error |
| JsonGrammar.ExtractJsonExact | recipe/collabllm/utils.py:53-219 | extract_json returns v if and only if what lies between the first { and the last } is a well-formed text of an object that is read as v; on every other input it raises |
| JsonRoundTrip.ExtractJsonReads | recipe/collabllm/utils.py:53-219 | The same for extract_json on the well-formed text of any object, if nothing before it contains { and nothing after it }; strings and names go through convert_value, and a repeated name replaces the earlier value |
| JsonMeaning.SetAllSize | recipe/collabllm/utils.py:134 | Assigning entries one after the other keeps all of them, in order, exactly when their keys are distinct and new |
| JsonMeaning.SetItemReplaces | recipe/collabllm/utils.py:134 | Assigning a key that is there replaces its value and leaves every other entry and the order alone |
| JsonMeaning.ReadIsStandard | recipe/collabllm/utils.py:187-208 | For a text of the RFC, what is read is what the text means if and only if convert_value leaves its strings and names alone, they use no \b, \f or \uXXXX, floats are read exactly, and the names of every object are distinct |
| JsonMeaning.ExtractJsonUndoesRender | recipe/collabllm/utils.py:53-219 | Reading undoes writing for the RFC text of any object, in any surroundings as above, if and only if the text satisfies that condition |
| JsonRoundTrip.PrintIntTrip | recipe/collabllm/utils.py:67-79 | Every integer has a text, and that text is read back as that integer |
| JsonMeaning.StringMeaning | recipe/collabllm/utils.py:86-108 | The string loop yields the meaning that section 7 of RFC 8259 gives to a string if and only if the string uses none of \b, \f and \uXXXX |
| JsonReader.SkipWhitespace | recipe/collabllm/utils.py:81-84 | The loop computes SkipSpace |
| JsonReader.ReadNumber | recipe/collabllm/utils.py:67-79 | The loop computes ParseNumber |
| JsonReader.ReadString | recipe/collabllm/utils.py:86-108 | The loop computes ParseString |
| JsonReader.ReadTripleQuoted | recipe/collabllm/utils.py:167-185 | The loop yields convert_value of every body that closes once, and an error if the three quotes never stand again |
| JsonReader.ReadKey | recipe/collabllm/utils.py:110-116 | Computes ParseKey |
| JsonReader.ReadObject | recipe/collabllm/utils.py:118-144 | The loop with its moving position and its dict computes what ObjectLoop specifies |
| JsonReader.ReadArray | recipe/collabllm/utils.py:146-165 | The loop computes what ArrayLoop specifies |
| JsonReader.ReadValue | recipe/collabllm/utils.py:187-208 | The dispatch computes ParseValue |
| JsonReader.ReadJson | recipe/collabllm/utils.py:210-219 | The whole reader yields what a well-formed object text between the first { and the last } says, and whatever it yields is such a text's value |
| WeightBroadcast.TensorBuffer.Append | recipe/gkd/megatron_workers.py:78-82 | The weight is written right after what the buffer holds, which is unchanged, and never past its capacity |
| WeightBroadcast.TensorBuffer.Clear | recipe/gkd/megatron_workers.py:74-76 | The buffer holds nothing; its memory is untouched |
| WeightBroadcast.TensorBuffer.ToTensors | recipe/gkd/megatron_workers.py:84-90 | The parts are cut at the offsets that the shapes give |
| WeightBroadcast.PlanAccountsForAll | recipe/gkd/megatron_workers.py:593-616 | After any number of weights, each was broadcast or is in the buffer, exactly once |
| WeightBroadcast.PlanSizes | recipe/gkd/megatron_workers.py:593-616 | The buffer never overflows; it is empty in size exactly when no weight so far was neither empty nor oversize |
| WeightBroadcast.PlanIsGreedy | recipe/gkd/megatron_workers.py:596-616 | The broadcasts: oversize weights alone, the others in order in buckets that fit and could not have taken the first weight of the next bucket, each broadcast in its turn; only weights that are all empty are not sent |
| WeightBroadcast.EachWeightOnce | recipe/gkd/megatron_workers.py:593-616 | Each weight is carried by exactly one broadcast if and only if no weight is empty or some weight is neither empty nor oversize |
| WeightBroadcast.EmptyWeightIsLost | recipe/gkd/megatron_workers.py:614-616 | A concrete list whose empty weight is never broadcast |
| WeightBroadcast.SendWeights | recipe/gkd/megatron_workers.py:585-616 | The actor's broadcasts follow the plan that the sizes and the capacity determine, each carrying the weights it stands for |
| WeightBroadcast.ReceiveWeights | recipe/gkd/megatron_workers.py:812-834 | The rollout's side makes the same number of broadcasts of the same lengths, consumes all, and cuts each into its weights |
| WeightBroadcast.LoadsWhatIsCarried | recipe/gkd/megatron_workers.py:84-90 | What the sender put into a broadcast is what the receiver gets out: every key with the sender's value |
| WeightBroadcast.SyncRolloutWeights | recipe/gkd/megatron_workers.py:771-834 | Both parties together: every weight is loaded exactly once with its own key and value, under the exact condition of EachWeightOnce |
| Schedulers.OnPolicyDistillTrainer.AsyncGenNextBatch | recipe/gkd/ray_trainer.py:340-366 | A rollout is launched, after a synchronisation if asked for, and only while no other is running |
| Schedulers.OnPolicyDistillTrainer.AsyncGetTeacherKnowledge | recipe/gkd/ray_trainer.py:368-390 | The rollout is awaited and then submitted to the teacher |
| Schedulers.OnPolicyDistillTrainer.Get | recipe/gkd/ray_trainer.py:80-107 | The teacher's answer is resolved, once, and fills the shared buffers unless it failed |
| Schedulers.TwoStepOffScheduler.Next | recipe/gkd/ray_trainer.py:461-531 | Each next hands out the next result until every batch was handed out, with every event on the timetable: the weights synchronised before batch 0 and before batches 3, 4, ... directly, each rollout launched two results before its own |
| Schedulers.OneStepOffScheduler.Next | recipe/gkd/ray_trainer.py:392-459 | The same for the one-step scheduler, as shipped (one result more than batches, no synchronisation before rollout 2) and as documented (none before rollout 1), each rollout launched one result before its own |
| Schedulers.FitTwoStep | recipe/gkd/ray_trainer.py:461-604 | For two batches or more: the first event is a synchronisation, and every rollout but numbers 1 and 2 directly follows one; rollout g is batch g and its weights contain exactly the updates of the results before g - 2; never an exhausted scheduler; the updates are those of the survivors in order, at most 2 updates old; no synchronisation during a rollout, buffers intact at each update |
| Schedulers.FitOneStep | recipe/gkd/ray_trainer.py:392-459 | The first event is a synchronisation, and every rollout but number 1 (as shipped, 2) directly follows one; its weights contain exactly the updates of the results before it but one; as documented at most 1 update old, each batch once; as shipped batch 0 twice, at most 2 updates old, and at most 1 if and only if there are at most two results or the teacher failed for one of the first three |
| Schedulers.StartsWithSync | recipe/gkd/ray_trainer.py:356-361 | In a trace that keeps the rules the first event is a synchronisation, since the rollout workers start with dummy weights |
| Schedulers.DirectMeansSynced | recipe/gkd/ray_trainer.py:356-363 | In such a trace a rollout counts as directly synchronised exactly if the event before its launch is a synchronisation |
| Schedulers.LaunchedWith | recipe/gkd/ray_trainer.py:356-363 | In such a trace the version of a rollout is the number of updates made before the last synchronisation before its launch |
| Schedulers.ResolvedOnce | recipe/gkd/ray_trainer.py:80-107 | In a trace that keeps the rules no teacher future is resolved twice; both schedulers' traces do |
| Schedulers.NoSyncDuringRollout | recipe/gkd/ray_trainer.py:340-366 | In such a trace every rollout launched before a synchronisation was waited for before it |
| Schedulers.UpdateSeesItsRows | recipe/gkd/ray_trainer.py:493-531 | In such a trace the last answer resolved before an update, hence what the shared buffers hold, is the updated batch's own |
| Schedulers.SurvivorsOnceInOrder | recipe/gkd/ray_trainer.py:590-604 | The batches trained on are those for which the teacher did not fail, once each, in increasing order |
| Schedulers.RepetitionMissesLast | recipe/gkd/ray_trainer.py:415-459 | As shipped, n steps over n batches train batch 0 twice and never the last one |
| TeacherKnowledge.GatherAt | recipe/gkd/teacher_utils.py:54-55 | Masking keeps the selected cells, in order |
| TeacherKnowledge.GatherScattered | recipe/gkd/teacher_utils.py:118-121 | Reading back with the mask what was spread by the mask yields the teacher's rows |
| TeacherKnowledge.PaddedRow | recipe/gkd/teacher_utils.py:118-121 | Reading a row of a filled buffer back with its mask yields the teacher's row, and everything else in it is zero |
| TeacherKnowledge.GetTeacherKnowledge | recipe/gkd/teacher_utils.py:29-75 | Fails exactly when the batch is empty or does not divide; otherwise one request for each worker, whose answers together are the answers to the rows in order |
| TeacherKnowledge.TeacherRequest.Collect | recipe/gkd/teacher_utils.py:76-85 | All answers are appended in order, or a failed request is reported |
| TeacherKnowledge.PaddedBuffer.Prepare | recipe/gkd/teacher_utils.py:99-116 | The buffer of the last call is zeroed and reused if its type and shape fit, and replaced otherwise |
| TeacherKnowledge.PaddedBuffer.ScatterRow | recipe/gkd/teacher_utils.py:118-121 | One row is filled at its tokens; all other rows stay as they are |
| TeacherKnowledge.Scatter | recipe/gkd/teacher_utils.py:118-121 | All rows are filled in both buffers: the teacher's cells at the tokens, zeros elsewhere |
| TeacherKnowledge.TeacherRequest.Get | recipe/gkd/teacher_utils.py:76-138 | The output shows every row's own answer, padded, and of every row the number of its tokens; it is the shared buffer itself, so a later call of the same shape overwrites it; a failure leaves the buffers alone; only the first call yields as many lengths as rows |
| VocabKL.TensorParallelRank.LogitsMax | recipe/gkd/megatron_kl_loss.py:45-46 | Each row's own maximum |
| VocabKL.AllReduceMax | recipe/gkd/megatron_kl_loss.py:48-50 | The maximum over the whole vocabulary |
| VocabKL.TensorParallelRank.Exponentiate | recipe/gkd/megatron_kl_loss.py:52-54 | Shifted and exponentiated in place |
| VocabKL.TensorParallelRank.RowSums | recipe/gkd/megatron_kl_loss.py:55 | The sum of each row |
| VocabKL.AllReduceExpSums | recipe/gkd/megatron_kl_loss.py:52-61 | The normaliser over the whole vocabulary, and the exponentials in place on every rank |
| VocabKL.TensorParallelRank.Divide | recipe/gkd/megatron_kl_loss.py:94-95 | Divided in place by the normaliser |
| VocabKL.TensorParallelRank.TokenLoss | recipe/gkd/megatron_kl_loss.py:77-113 | A rank counts exactly the top-k entries in its own range, and zero for the others |
| VocabKL.TensorParallelRank.PerTokenLoss | recipe/gkd/megatron_kl_loss.py:77-113 | The same for every token |
| VocabKL.RankAddsItsTerms | recipe/gkd/megatron_kl_loss.py:77-119 | Adding a rank's part adds exactly the terms whose token lies in its range |
| VocabKL.AllReduceLoss | recipe/gkd/megatron_kl_loss.py:110-119 | After the last reduction every entry is counted once |
| VocabKL.Forward | recipe/gkd/megatron_kl_loss.py:40-125 | For any number of equal partitions the result is the top-k divergence over the whole vocabulary; it is at least the teacher's mass minus one, next to nothing if the student agrees with the teacher, and for one entry it falls as the logit of its token grows and rises as any other grows |
| TopkDivergence.ShiftInvariant | recipe/gkd/megatron_kl_loss.py:52-55 | Subtracting the maximum does not change the student's probabilities, if exp turns sums into products |
| TopkDivergence.MaxMeaning | recipe/gkd/megatron_kl_loss.py:45-52 | The maximum is an entry and no smaller than any, so no exponent is positive |
| TopkDivergence.ProbabilitiesSumToOne | recipe/gkd/megatron_kl_loss.py:52-95 | The student's probabilities are positive and sum to one |
| TopkDivergence.LossAtLeast | recipe/gkd/megatron_kl_loss.py:80-113 | For different tokens of the vocabulary the loss is at least the sum of the teacher's probabilities minus one, up to 1e-20 for each entry: so not negative for a whole distribution |
| TopkDivergence.LossOfAgreement | recipe/gkd/megatron_kl_loss.py:80-113 | If the student gives every entry the teacher's probability, the loss is just what the 1e-20 makes of it, between minus 1e-20 for each entry and zero |
| TopkDivergence.LossFollowsLogits | recipe/gkd/megatron_kl_loss.py:80-113 | For one entry the loss strictly falls as the logit of its token grows, and strictly rises as that of any other token grows |
| TopkDivergence.OneMoreEntry | recipe/gkd/megatron_kl_loss.py:69-113 | Each entry adds its own loss, and nothing if its token lies outside the vocabulary |
| DataProtos.AppendSlices | verl/protocol.py:686-728 | Two neighbouring slices concatenated are one slice, on all columns |
| DataProtos.GluePieces | verl/protocol.py:928-972 | Concatenating consecutive slices gives the slice that spans them |
| DataProtos.CutAndGlue | verl/protocol.py:875-972 | Concatenating the chunks or splits of a batch gives the batch |
| DataProtos.PadDataprotoToDivisor | verl/protocol.py:73-98 | Terminates; fewer than size_divisor rows are added, the size is divisible, the data is the start of the result, and row r is row r modulo the size of the data |
| DataProtos.Chunk | verl/protocol.py:875-914 | Fails exactly if the sizes would differ and padding is not enabled, or the tensors make fewer pieces than asked for; otherwise consecutive slices; of tensors all of the least width that suffices until the rows are used up, of arrays the first n mod chunks one row longer than the others; equal if the size is divisible |
| DataProtos.Split | verl/protocol.py:916-925 | Consecutive slices of split_size rows, the last one possibly shorter and none empty |
| DataProtos.Dispatch | verl/protocol.py:73-106 | Padding, chunking over k workers, applying a row-wise computation, concatenating and unpadding equals applying it directly |
| DataProtos.MapRowsIsRowWise | verl/protocol.py:73-106 | Mapping every entry is such a computation |
| QkvLayout.SplitSizes | scripts/legacy_model_merger.py:536-549 | The sizes computed from the number of rows of a shard are those of the three parts of a group |
| QkvLayout.SplitShard | scripts/legacy_model_merger.py:544-553 | The inner loop takes one shard apart, group by group |
| QkvLayout.MergeAcrossTp | scripts/legacy_model_merger.py:530-558 | If the shards hold the groups in order, the result is all queries, all keys, all values, in order |
| QkvLayout.PartsOfGroups | scripts/converter_hf_to_mcore.py:155-160 | Viewing by key/value head and taking apart again gives the three matrices |
| QkvLayout.FusedRow | scripts/converter_hf_to_mcore.py:155-161 | Where every row of the fused matrix comes from: the block of a key/value head holds its queries, then its keys, then its values |
| QkvLayout.ShardRow | scripts/converter_hf_to_mcore.py:155-161 | Row i of the shard of rank t is row share * t + i of the fused matrix |
| QkvLayout.ConvertShardMerge | scripts/converter_hf_to_mcore.py:155-161 | Interleaving, sharding over any tensor-parallel size that divides the key/value heads, and merging gives back Q, K and V row for row |
| LayerMerge.MergeChunk | scripts/legacy_model_merger.py:618-657 | The loop over one chunk's keys writes every output of every parameter that is not skipped and finds the largest local layer number |
| LayerMerge.MergeStateDicts | scripts/legacy_model_merger.py:609-659 | If no two parameters of a chunk clash, the dict holds every parameter that is not skipped under its own name, q, k and v, or gate and up, under the names with qkv or gate_up replaced, and its layer's global number, which is the local one plus the numbers that all earlier virtual ranks and the pipeline ranks before it use up; and it holds nothing else |
| LayerMerge.ParameterPlaced | scripts/legacy_model_merger.py:609-659 | The same of one parameter of models[p][v]; outside the layers if no later model replaces it |
| LayerMerge.KeyHasSource | scripts/legacy_model_merger.py:609-659 | Every key of the dict comes from a parameter that is not skipped, with its value |
| LayerMerge.CumIsStart | scripts/legacy_model_merger.py:614-657 | When the loops reach models[p][v], layers_cum is the sum of the largest layer numbers plus one over all models of earlier virtual ranks and the pipeline ranks before p |
| LayerMerge.ReplaceOnce | scripts/legacy_model_merger.py:645-651 | Replacing a part that occurs once in a name replaces just that part |
| LayerMerge.ReplaceNext | scripts/legacy_model_merger.py:645-651 | Replacing goes from the first occurrence of the part to the rest of the name, so every occurrence is replaced |
| LayerRenumber.OrderPreserved | scripts/legacy_model_merger.py:617-657 | Layers of an earlier chunk get smaller numbers than those of a later one, whatever the chunks hold |
| LayerRenumber.NoLayerOverwritten | scripts/legacy_model_merger.py:617-657 | If the outputs of each chunk have distinct names, every layer output of every chunk is in the merged dict under its global number with its own value |
| LayerRenumber.NumbersWithoutGap | scripts/legacy_model_merger.py:617-657 | The numbers used are 0 to the total minus one if and only if no empty chunk precedes a chunk with layers |
| LayerRenumber.MergedLayersWithoutGap | scripts/legacy_model_merger.py:609-659 | The same for the keys of the merged dict |
| LayerRenumber.EmptyChunkLeavesGap | scripts/legacy_model_merger.py:657 | A concrete case with a gap |
| Dapo.CollectMetrics | recipe/dapo/dapo_ray_trainer.py:245-249 | The dict holds each prompt's metric values in order |
| Dapo.FilterGroups | recipe/dapo/dapo_ray_trainer.py:245-267 | The prompts kept are exactly those of which two rows differ in the metric or that have a single row, and exactly their rows stay |
| Dapo.SelectRows | recipe/dapo/dapo_ray_trainer.py:262-267 | The rows of the chosen prompts, in order |
| Dapo.SelectedMeaning | recipe/dapo/dapo_ray_trainer.py:262-267 | The rows selected are exactly those with a chosen identifier, in increasing order of position |
| Dapo.KeptMeaning | recipe/dapo/dapo_ray_trainer.py:251-268 | The prompts kept of a round are exactly those whose metrics differ or that have one trajectory, in the order of the round |
| Dapo.FilterRound | recipe/dapo/dapo_ray_trainer.py:251-268 | On the rows of a round the filter keeps whole prompts, and the count is their number |
| Dapo.Fit | recipe/dapo/dapo_ray_trainer.py:130-288 | Every batch trained on is the first train_batch_size prompts worth keeping of its rounds, after as few rounds as possible and at most max_num_gen_batches; it fails exactly when that many rounds do not fill a batch; after every round n rows are held for each prompt counted |
| Dapo.BatchMeaning | recipe/dapo/dapo_ray_trainer.py:270-288 | Such a batch is exactly train_batch_size complete prompts of n trajectories, distinct, generated in those rounds, each with metrics that differ or a single trajectory |

## Left out

- Locks, conditions, the event loop, Ray, NCCL and the inference engines: only the points where a coroutine can be interrupted are kept.
- Validation, logging, metrics, timers, profiling, configuration and checkpoint files; `meta_info` of a batch, with its reshaping of metrics.
- `clear_queue` and the memory usage of the message queue; exceptions inside the rollouter's coroutines, such as the unbound `done_tasks` when `pause` has emptied the active tasks before the processor first gets the lock.
- The version stamp written at the start of a generation; the proofs follow the one that travels with the sample.
- AsyncActors.Drive: waiting is not modelled as code; a schedule is a list of steps, each possible when its turn comes.
- Conservation.ExactlyOnePlace: a sample counts as consumed when the trainer takes it; the trainer discards an incomplete last batch when the end marker arrives.
- Schedulers.FitTwoStep: with fewer than two batches the scheduler raises on an unbound variable; that case is excluded, as is an empty iterator for the one-step scheduler.
- WeightBroadcast.SyncRolloutWeights: a tensor is given flattened, so its shape is only its number of elements; dtypes are not modelled.
- TeacherKnowledge.TeacherRequest.Get: all answers of a batch have the dtype of the first; conversion between dtypes is not modelled.
- The backward pass of the loss: its indexed subtraction does not accumulate duplicate indices, and masked entries all point to the first column.
- VocabKL.Forward: numbers are reals, so rounding and overflow are not captured.
- The rows of `DataProto` that are reached by index lists, `repeat`, `union`, `pop` and `reorder`.
- JsonParser.ParseValue: the recursion limit of Python, and its limit on the digits that `int` converts, are not modelled; a dict's keys are compared as values of this model, where 1 and True differ.
- JsonTexts.Meaning: each `\uXXXX` stands for one character by itself, so a pair of surrogates does not stand for the one character that the standard means by it.
- JsonMeaning.ReadIsStandard: a number with a fraction or an exponent is represented by its text, not by its value.
- LayerMerge.MergeStateDicts: names are given as they are after the conversion by `params_mapping`, and the errors for names that do not convert are not modelled; of two parameters of one chunk that clash the last one wins, which is not stated.
- QkvLayout.MergeAcrossTp: the branches for gate/up, row-parallel and replicated tensors are plain concatenations or copies.
- The copy of the JSON reader in `recipe/collabllm/collabllm_interation.py`, datasets, reward functions, losses other than the one named, the viewer and worker construction.
