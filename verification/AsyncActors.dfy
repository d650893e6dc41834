/** The rollouter, the trainer and the synchroniser as objects with the fields they update, around the
    shared message queue: one method for each stretch of a coroutine. An object agrees with a state of
    the transition system when its fields are that state's components. `Drive` runs the objects through
    any schedule; they end in the state that the schedule leads to, so every result about runs holds of
    the objects. */
module AsyncActors {
  import opened Options
  import opened MessageQueues
  import opened AsyncProtocol
  import opened AsyncHistory
  import opened InFlight
  import opened Staleness
  import Conservation

  /** The message queue shared by the two agrees with `q`; the log also accounts for what it dropped. */
  ghost predicate QueueAgrees(c: Config, messages: MessageQueue<Message>, q: Mq)
    reads messages
  {
    && messages.Valid() && messages.maxQueueSize == c.maxRequired
    && messages.queue == q.queue
    && DroppedOf(messages.log.departed) == q.dropped
  }

  method PutSample(c: Config, messages: MessageQueue<Message>, m: Message, ghost q: Mq)
    requires c.Valid() && QueueAgrees(c, messages, q)
    modifies messages
    ensures QueueAgrees(c, messages, PutMessage(c, q, m))
    ensures Some(messages.log) == Apply(c.maxRequired, old(messages.log), Put(m))
  {
    ghost var ds := messages.log.departed;
    if |messages.queue| >= c.maxRequired {
      ItemsSnoc(ds, Dropped(q.queue[0]));
    } else {
      assert ds + [] == ds;
      assert q.dropped + [] == q.dropped;
    }
    var _ := messages.PutSample(m);
  }

  method TakeSample(c: Config, messages: MessageQueue<Message>, ghost q: Mq) returns (m: Message)
    requires c.Valid() && QueueAgrees(c, messages, q) && q.queue != []
    modifies messages
    ensures m == q.queue[0] && QueueAgrees(c, messages, q.(queue := q.queue[1..]))
    ensures Some(messages.log) == Apply(c.maxRequired, old(messages.log), Get)
  {
    hide BoundedFifo;
    ItemsSnoc(messages.log.departed, Consumed(q.queue[0]));
    assert q.dropped + [] == q.dropped;
    var r := messages.GetSample();
    m := r.value.0;
  }

  class Rollouter {
    const config: Config
    const messages: MessageQueue<Message>

    var feeder: Feeder
    var globalSteps: nat
    var pendingQueue: seq<Item>
    var processor: Processor
    var hand: Option<Item>
    var running: multiset<nat>      // active tasks that have not finished
    var uncollected: nat            // active tasks that have finished
    var cancelQueue: seq<nat>
    var stalenessSamples: nat
    var currentParamVersion: int
    var paused: bool
    var monitorLoopTrigger: bool
    var monitorArmed: bool          // the monitor waits for the lock after its test
    var lock: Owner

    ghost var fed: seq<nat>
    ghost var resetTo: nat
    ghost var usedAtReset: nat
    ghost var generated: nat

    ghost predicate FeedAgrees(f: Feed)
      reads `feeder, `globalSteps, `fed, `pendingQueue
    {
      f == Feed(feeder, globalSteps, fed, pendingQueue)
    }

    ghost predicate TasksAgree(t: Tasks)
      reads `processor, `hand, `running, `uncollected, `cancelQueue
    {
      t == Tasks(processor, hand, running, uncollected, cancelQueue)
    }

    ghost predicate ControlAgrees(k: Control)
      reads `stalenessSamples, `resetTo, `usedAtReset, `generated, `currentParamVersion
      reads `paused, `monitorLoopTrigger, `monitorArmed, `lock
    {
      k == Control(stalenessSamples, resetTo, usedAtReset, generated, currentParamVersion,
                   paused, monitorLoopTrigger, monitorArmed, lock)
    }

    ghost predicate Agrees(s: State)
      reads this
    {
      config.Valid() && FeedAgrees(s.feed) && TasksAgree(s.tasks) && ControlAgrees(s.ctl)
    }

    constructor (c: Config, queue: MessageQueue<Message>, version: int, firstStep: nat)
      requires c.Valid()
      ensures config == c && messages == queue && Agrees(Init(version, firstStep))
    {
      config, messages := c, queue;
      feeder, globalSteps, pendingQueue := Feeding, firstStep, [];
      processor, hand, running, uncollected, cancelQueue := Top, None, multiset{}, 0, [];
      stalenessSamples, currentParamVersion := 0, version;
      paused, monitorLoopTrigger, monitorArmed, lock := false, true, false, Free;
      fed, resetTo, usedAtReset, generated := [], 0, 0, 0;
    }

    // -------------------------------------------- _feed_samples

    method FeedOne(ghost s: State)
      requires Agrees(s) && ProcEnabled(config, s, FeedSample)
      modifies this
      ensures Agrees(ProcNext(config, s, FeedSample))
    {
      pendingQueue := pendingQueue + [Sample(globalSteps)];
      fed := fed + [globalSteps];
      if globalSteps >= config.totalRolloutSteps {
        feeder := Closing;
      } else {
        globalSteps := globalSteps + 1;
      }
    }

    method FeedEndSignal(ghost s: State)
      requires Agrees(s) && ProcEnabled(config, s, FeedDone)
      modifies this
      ensures Agrees(ProcNext(config, s, FeedDone))
    {
      pendingQueue, feeder := pendingQueue + [Done], Fed;
    }

    // -------------------------------------------- _processor_worker

    method ShouldPauseGeneration(ghost s: State) returns (pause: bool)
      requires Agrees(s) && QueueAgrees(config, messages, s.mq)
      ensures pause <==> ShouldPause(config, s)
    {
      pause := |messages.queue| >= config.maxRequired || stalenessSamples >= config.maxRequired;
    }

    method CheckAndChoose(ghost s: State)
      requires Agrees(s) && QueueAgrees(config, messages, s.mq) && ProcEnabled(config, s, ProcCheck)
      modifies this
      ensures Agrees(ProcNext(config, s, ProcCheck))
    {
      hide FeedAgrees;
      var pause := paused;
      if !pause {
        pause := ShouldPauseGeneration(s);
      }
      if pause {
        processor := SetPaused;
      } else if cancelQueue != [] {
        hand, cancelQueue, processor := Some(Sample(cancelQueue[0])), cancelQueue[1..], Holding;
      } else {
        processor := WaitPending;
      }
    }

    method TakePending(ghost s: State)
      requires Agrees(s) && ProcEnabled(config, s, PopPending)
      modifies this
      ensures Agrees(ProcNext(config, s, PopPending))
    {
      hide FeedAgrees, TasksAgree, ControlAgrees;
      var item := PopItem(s.feed);
      TakeInHand(item, s.tasks);
      CountItem(s.ctl);
    }

    method PopItem(ghost f: Feed) returns (item: Item)
      requires FeedAgrees(f) && f.pending != []
      modifies `pendingQueue
      ensures item == f.pending[0] && FeedAgrees(f.(pending := f.pending[1..]))
    {
      item := pendingQueue[0];
      pendingQueue := pendingQueue[1..];
    }

    method TakeInHand(item: Item, ghost t: Tasks)
      requires TasksAgree(t)
      modifies `hand, `processor
      ensures TasksAgree(t.(hand := Some(item), proc := if item.Done? then FinalDrain else Holding))
    {
      hand, processor := Some(item), if item.Done? then FinalDrain else Holding;
    }

    method CountItem(ghost k: Control)
      requires ControlAgrees(k)
      modifies `stalenessSamples, `generated
      ensures ControlAgrees(k.(staleness := k.staleness + 1, generated := k.generated + 1))
    {
      stalenessSamples, generated := stalenessSamples + 1, generated + 1;
    }

    method SubmitTask(ghost s: State)
      requires Agrees(s) && ProcEnabled(config, s, Submit)
      modifies this
      ensures Agrees(ProcNext(config, s, Submit))
    {
      running, hand, processor := running + multiset{hand.value.id}, None, Top;
    }

    method WaitOrPause(e: ProcEvent, ghost s: State)
      requires Agrees(s) && ProcEnabled(config, s, e)
      requires e == ProcSetPaused || e == ProcWaitBegin || e == ProcWaitEnd || e == ProcDrained || e == ProcResumed
      modifies this
      ensures Agrees(ProcNext(config, s, e)) && ProcNext(config, s, e).mq == s.mq
    {
      hide FeedAgrees;
      match e {
        case ProcSetPaused => paused, processor := true, Draining;
        case ProcWaitBegin => lock := ByProcessor;
        case ProcWaitEnd => lock, uncollected := Free, 0;
        case ProcDrained => processor := WaitResume;
        case ProcResumed => processor := Top;
      }
    }

    method SendFinishSignal(ghost s: State)
      requires Agrees(s) && QueueAgrees(config, messages, s.mq) && ProcEnabled(config, s, FinalPut)
      modifies this, messages
      ensures Agrees(ProcNext(config, s, FinalPut))
      ensures QueueAgrees(config, messages, ProcNext(config, s, FinalPut).mq)
      ensures messages.log == Logged(config.maxRequired, old(messages.log), CallOf(s, Proc(FinalPut)))
    {
      hide QueueAgrees, PutMessage;
      PutSample(config, messages, Final, s.mq);
      hand, processor := None, Exited;
    }

    /** The feeder and the processor carry out one event. */
    method Process(e: ProcEvent, ghost s: State)
      requires Agrees(s) && QueueAgrees(config, messages, s.mq) && ProcEnabled(config, s, e)
      modifies this, messages
      ensures Agrees(ProcNext(config, s, e))
      ensures QueueAgrees(config, messages, ProcNext(config, s, e).mq)
      ensures messages.log == Logged(config.maxRequired, old(messages.log), CallOf(s, Proc(e)))
    {
      hide QueueAgrees, PutMessage;
      match e {
        case FeedSample => FeedOne(s);
        case FeedExhausted => feeder := Closing;
        case FeedDone => FeedEndSignal(s);
        case ProcCheck => CheckAndChoose(s);
        case PopPending => TakePending(s);
        case Submit => SubmitTask(s);
        case FinalPut => SendFinishSignal(s);
        case _ => WaitOrPause(e, s);
      }
    }

    // -------------------------------------------- generation tasks and monitor

    method FinishSample(id: nat, isCancel: bool, ghost s: State)
      requires Agrees(s) && QueueAgrees(config, messages, s.mq) && id in running
      modifies this, messages
      ensures var e := if isCancel then TaskCancel(id) else TaskFinish(id);
              Agrees(TaskNext(config, s, e)) && QueueAgrees(config, messages, TaskNext(config, s, e).mq)
      ensures messages.log == Logged(config.maxRequired, old(messages.log),
                                     CallOf(s, Task(if isCancel then TaskCancel(id) else TaskFinish(id))))
    {
      hide QueueAgrees, PutMessage, FeedAgrees;
      assert currentParamVersion == s.ctl.version;
      hide ControlAgrees;
      if isCancel {
        cancelQueue := cancelQueue + [id];
      } else {
        PutSample(config, messages, Rollout(id, currentParamVersion), s.mq);
      }
      running, uncollected := running - multiset{id}, uncollected + 1;
    }

    /** A task or the monitor carries out one event. */
    method Work(e: TaskEvent, ghost s: State)
      requires Agrees(s) && QueueAgrees(config, messages, s.mq) && TaskEnabled(config, s, e)
      modifies this, messages
      ensures Agrees(TaskNext(config, s, e))
      ensures QueueAgrees(config, messages, TaskNext(config, s, e).mq)
      ensures messages.log == Logged(config.maxRequired, old(messages.log), CallOf(s, Task(e)))
    {
      match e {
        case TaskFinish(id) => FinishSample(id, false, s);
        case TaskCancel(id) => FinishSample(id, true, s);
        case MonitorTest =>
          var pause := ShouldPauseGeneration(s);
          if !pause {
            if lock == Free {
              paused := false;
            } else {
              monitorArmed := true;
            }
          }
        case MonitorWrite => paused, monitorArmed := false, false;
      }
    }

    // -------------------------------------------- called by the synchroniser

    method PauseBegins(ghost s: State)
      requires Agrees(s) && TrainEnabled(config, s, PauseBegin)
      modifies this
      ensures Agrees(TrainNext(config, s, PauseBegin))
    {
      lock, paused := ByPause, true;
    }

    method PauseEnds(ghost s: State)
      requires Agrees(s) && TrainEnabled(config, s, PauseEnd)
      modifies this
      ensures Agrees(TrainNext(config, s, PauseEnd))
    {
      hide FeedAgrees;
      uncollected, monitorLoopTrigger, lock := 0, false, Free;
    }

    /** `update_param_version` up to the awaited size of the message queue. */
    method UpdateBegins(version: int, ghost s: State) returns (count: nat)
      requires Agrees(s) && s.update == Queued(version) && lock == Free
      modifies this
      ensures Agrees(TrainNext(config, s, UpdateBegin))
      ensures TrainNext(config, s, UpdateBegin).update == ReadTasks(version, count)
    {
      lock, currentParamVersion := ByUpdate, version;
      count := |running| + uncollected + |cancelQueue|;
    }

    /** The rest of it: `count` now includes the size of the message queue. */
    method UpdateWrites(version: int, count: nat, ghost s: State)
      requires Agrees(s) && s.update == ReadQueue(version, count)
      modifies this
      ensures Agrees(TrainNext(config, s, UpdateWrite))
    {
      hide FeedAgrees, TasksAgree;
      stalenessSamples, lock := count, Free;
      resetTo, usedAtReset, generated := count, |s.trainer.consumed|, 0;
    }

    method Resume(ghost s: State)
      requires Agrees(s) && TrainEnabled(config, s, ResumeGeneration)
      modifies this
      ensures Agrees(TrainNext(config, s, ResumeGeneration))
    {
      paused, monitorLoopTrigger := false, true;
    }
  }

  class FullyAsyncTrainer {
    const config: Config
    const messages: MessageQueue<Message>

    var phase: Phase
    var currentParamVersion: int
    var localTriggerStep: nat
    var queueSamples: nat           // samples collected for the batch being assembled
    var sawFinal: bool
    var consumed: seq<Use>

    ghost predicate Agrees(s: State)
      reads this
    {
      && config.Valid()
      && s.trainer == Trainer(phase, currentParamVersion, localTriggerStep, queueSamples, consumed, sawFinal)
    }

    constructor (c: Config, queue: MessageQueue<Message>, version: int, firstStep: nat)
      requires c.Valid()
      ensures config == c && messages == queue && Agrees(Init(version, firstStep))
    {
      config, messages := c, queue;
      phase, currentParamVersion, localTriggerStep := Collecting, version, 1;
      queueSamples, sawFinal, consumed := 0, false, [];
    }

    /** One iteration of the loop of `_get_samples_from_queue`. */
    method CollectOne(ghost s: State)
      requires Agrees(s) && QueueAgrees(config, messages, s.mq) && TrainEnabled(config, s, GetSample)
      modifies this, messages
      ensures Agrees(TrainNext(config, s, GetSample))
      ensures QueueAgrees(config, messages, TrainNext(config, s, GetSample).mq)
      ensures messages.log == Logged(config.maxRequired, old(messages.log), CallOf(s, Event.Train(GetSample)))
    {
      hide QueueAgrees;
      var sample := TakeSample(config, messages, s.mq);
      match sample {
        case Final =>
          sawFinal, phase := true, Ending;
        case Rollout(id, stamp) =>
          consumed := consumed + [Use(id, stamp, currentParamVersion)];
          queueSamples := queueSamples + 1;
          if queueSamples >= config.requiredSamples {
            phase := Training;
          }
      }
    }

    /** A new version, up to the point where the trainer waits for the last announcement. */
    method RaiseVersion()
      modifies this
      ensures phase == WaitLast && currentParamVersion == old(currentParamVersion) + 1
      ensures localTriggerStep == 1 && queueSamples == 0
      ensures sawFinal == old(sawFinal) && consumed == old(consumed)
    {
      currentParamVersion, localTriggerStep, queueSamples, phase := currentParamVersion + 1, 1, 0, WaitLast;
    }

    method TriggerParameterSyncAfterStep(ghost s: State)
      requires Agrees(s) && TrainEnabled(config, s, TrainStep)
      modifies this
      ensures Agrees(TrainNext(config, s, TrainStep))
    {
      if localTriggerStep < config.triggerStep {
        queueSamples, localTriggerStep, phase := 0, localTriggerStep + 1, Collecting;
      } else {
        RaiseVersion();
      }
    }
  }

  class ParameterSynchronizer {
    const config: Config
    var pending: Update             // the calls of update_param_version and resume not yet finished
    var rolloutWeights: int

    ghost predicate Agrees(s: State)
      reads this
    {
      config.Valid() && s.update == pending && s.rolloutWeights == rolloutWeights
    }

    constructor (c: Config, version: int, firstStep: nat)
      requires c.Valid()
      ensures config == c && Agrees(Init(version, firstStep))
    {
      config, pending, rolloutWeights := c, NoUpdate, version;
    }
  }

  ghost predicate Agree(c: Config, r: Rollouter, t: FullyAsyncTrainer, p: ParameterSynchronizer,
                        messages: MessageQueue<Message>, s: State)
    reads r, t, p, messages
  {
    && r.config == t.config == p.config == c && r.messages == t.messages == messages
    && r.Agrees(s) && t.Agrees(s) && p.Agrees(s) && QueueAgrees(c, messages, s.mq)
  }

  /** The calls that the synchroniser makes on the rollouter after a synchronisation. */
  method Announce(c: Config, r: Rollouter, t: FullyAsyncTrainer, p: ParameterSynchronizer, messages: MessageQueue<Message>,
                  e: TrainEvent, ghost s: State)
    requires Agree(c, r, t, p, messages, s) && TrainEnabled(c, s, e)
    requires e == UpdateBegin || e == UpdateReadQueue || e == UpdateWrite || e == ResumeGeneration
    modifies r, p
    ensures Agree(c, r, t, p, messages, TrainNext(c, s, e))
  {
    hide QueueAgrees;
    match e {
      case UpdateBegin =>
        var count := r.UpdateBegins(p.pending.to, s);
        p.pending := ReadTasks(p.pending.to, count);
      case UpdateReadQueue =>
        ReadsQueueSize(c, messages, s.mq);
        p.pending := ReadQueue(p.pending.to, p.pending.count + |messages.queue|);
      case UpdateWrite =>
        r.UpdateWrites(p.pending.to, p.pending.count, s);
        p.pending := Resuming;
      case ResumeGeneration =>
        r.Resume(s);
        p.pending := NoUpdate;
    }
  }

  /** The trainer, the synchroniser or one of the calls it makes carries out one event. */
  method Train(c: Config, r: Rollouter, t: FullyAsyncTrainer, p: ParameterSynchronizer, messages: MessageQueue<Message>,
               e: TrainEvent, ghost s: State)
    requires Agree(c, r, t, p, messages, s) && TrainEnabled(c, s, e)
    modifies r, t, p, messages
    ensures Agree(c, r, t, p, messages, TrainNext(c, s, e))
    ensures messages.log == Logged(c.maxRequired, old(messages.log), CallOf(s, Event.Train(e)))
  {
    hide QueueAgrees;
    match e {
      case GetSample => t.CollectOne(s);
      case TrainStep => t.TriggerParameterSyncAfterStep(s);
      case FinalSync => t.RaiseVersion();
      case FinalStop => t.phase := Stopped;
      case WaitedLast => t.phase := CallPause;
      case PauseBegin =>
        r.PauseBegins(s);
        t.phase := Pausing;
      case PauseEnd =>
        r.PauseEnds(s);
        t.phase := Syncing;
      case SyncWeights =>
        p.rolloutWeights, p.pending := t.currentParamVersion, Queued(t.currentParamVersion);
        t.phase := if t.sawFinal then Stopped else Collecting;
      case _ => Announce(c, r, t, p, messages, e, s);
    }
  }

  lemma ReadsQueueSize(c: Config, messages: MessageQueue<Message>, q: Mq)
    requires QueueAgrees(c, messages, q)
    ensures messages.queue == q.queue
  {
  }

  lemma OthersKeep(c: Config, s: State, e: Event)
    requires c.Valid() && Enabled(c, s, e) && !e.Train?
    ensures var n := Next(c, s, e); n.trainer == s.trainer && n.update == s.update && n.rolloutWeights == s.rolloutWeights
  {
  }

  method Dispatch(c: Config, r: Rollouter, t: FullyAsyncTrainer, p: ParameterSynchronizer, messages: MessageQueue<Message>,
                  e: Event, ghost s: State)
    requires Agree(c, r, t, p, messages, s) && Enabled(c, s, e)
    modifies r, t, p, messages
    ensures Agree(c, r, t, p, messages, Next(c, s, e))
    ensures messages.log == Logged(c.maxRequired, old(messages.log), CallOf(s, e))
  {
    hide QueueAgrees, ProcNext, TaskNext, TrainNext, Rollouter.FeedAgrees, Rollouter.TasksAgree, Rollouter.ControlAgrees;
    match e {
      case Proc(x) =>
        OthersKeep(c, s, e);
        r.Process(x, s);
      case Task(x) =>
        OthersKeep(c, s, e);
        r.Work(x, s);
      case Train(x) =>
        Train(c, r, t, p, messages, x, s);
    }
  }

  lemma {:induction false} RunPrefix(c: Config, s: State, es: seq<Event>, i: nat)
    requires c.Valid() && i < |es| && Run(c, s, es).Some?
    ensures Run(c, s, es[..i]).Some? && Enabled(c, Run(c, s, es[..i]).value, es[i])
    ensures Run(c, s, es[..i + 1]) == Some(Next(c, Run(c, s, es[..i]).value, es[i]))
    decreases |es|
  {
    var before := es[..|es| - 1];
    if i < |es| - 1 {
      RunPrefix(c, s, before, i);
      assert before[..i] == es[..i] && before[..i + 1] == es[..i + 1];
    } else {
      assert es[..i + 1] == es;
    }
  }

  /** The objects run through any schedule that the protocol admits. They end as the transition
      system does; so what is proved about runs holds of the queue's statistics and of the samples
      that the trainer was given. */
  method Drive(c: Config, version: int, first: nat, es: seq<Event>)
    returns (r: Rollouter, t: FullyAsyncTrainer, p: ParameterSynchronizer, messages: MessageQueue<Message>)
    requires c.Valid() && Run(c, Init(version, first), es).Some?
    ensures Agree(c, r, t, p, messages, Run(c, Init(version, first), es).value)
    ensures messages.totalProduced == messages.totalConsumed + messages.droppedSamples + |messages.queue|
    ensures Always(c, Init(version, first), es, ResetsSeeEverything) ==> messages.droppedSamples == 0
    ensures Always(c, Init(version, first), es, TimelyMonitor) || Always(c, Init(version, first), es, ResetsSeeEverything) ==>
              forall u :: u in t.consumed ==> 0 <= u.version - u.stamp <= c.MaxLag()
    ensures forall u :: u in t.consumed ==> 0 <= u.version - u.stamp <= WorstLag(c)
    ensures forall i, j :: 0 <= i < j < |t.consumed| ==> t.consumed[i].id != t.consumed[j].id
    // the order in which samples were handed over, told from the events
    ensures Taken(c, Init(version, first), es) + r.pendingQueue == PutByFeeder(first, es)
    ensures Retaken(c, Init(version, first), es) + Parked(r.cancelQueue) == Cancelled(es)
    ensures Some(messages.log) == Replay(c.maxRequired, QueueCalls(version, es))
    ensures Given(ConsumedOf(messages.log.departed), TakenAt(version, es), t.consumed, t.sawFinal)
    // the lock, the pause, the counters and the versions, told from the events
    ensures r.lock == Holder(es) && r.paused == Paused(es) && r.uncollected == Uncollected(es)
    ensures r.stalenessSamples == Counted(c, Init(version, first), es)
    ensures r.currentParamVersion == version + Times(es, Event.Train(UpdateBegin))
    ensures p.rolloutWeights == version + Times(es, Event.Train(SyncWeights))
  {
    ghost var start := Init(version, first);
    messages := new MessageQueue<Message>(c.maxRequired);
    r := new Rollouter(c, messages, version, first);
    t := new FullyAsyncTrainer(c, messages, version, first);
    p := new ParameterSynchronizer(c, version, first);
    for i := 0 to |es|
      invariant Run(c, start, es[..i]).Some? && Agree(c, r, t, p, messages, Run(c, start, es[..i]).value)
      invariant Some(messages.log) == Replay(c.maxRequired, QueueCalls(version, es[..i]))
      invariant fresh(r) && fresh(t) && fresh(p) && fresh(messages)
    {
      hide Agree, Logged, CallOf, QueueCalls;
      RunPrefix(c, start, es, i);
      Dispatch(c, r, t, p, messages, es[i], Run(c, start, es[..i]).value);
      assert es[..i + 1][..i] == es[..i];
      LoggedStep(c, version, first, es[..i + 1]);
    }
    assert es[..|es|] == es;
    Results(c, version, first, es);
    ObjectsAsTold(c, version, first, es, r, t, p, messages);
  }

  lemma ObjectsAsTold(c: Config, version: int, first: nat, es: seq<Event>,
                      r: Rollouter, t: FullyAsyncTrainer, p: ParameterSynchronizer, messages: MessageQueue<Message>)
    requires c.Valid() && Run(c, Init(version, first), es).Some?
    requires Agree(c, r, t, p, messages, Run(c, Init(version, first), es).value)
    requires Some(messages.log) == Replay(c.maxRequired, QueueCalls(version, es))
    ensures Taken(c, Init(version, first), es) + r.pendingQueue == PutByFeeder(first, es)
    ensures Retaken(c, Init(version, first), es) + Parked(r.cancelQueue) == Cancelled(es)
    ensures Given(ConsumedOf(messages.log.departed), TakenAt(version, es), t.consumed, t.sawFinal)
    ensures r.lock == Holder(es) && r.paused == Paused(es) && r.uncollected == Uncollected(es)
    ensures r.stalenessSamples == Counted(c, Init(version, first), es)
    ensures r.currentParamVersion == version + Times(es, Event.Train(UpdateBegin))
    ensures p.rolloutWeights == version + Times(es, Event.Train(SyncWeights))
  {
    HandedOverInOrder(c, version, first, es);
    StateAsTold(c, version, first, es);
    QueueAsTold(c, version, first, es);
    hide Run, Taken, Retaken, PutByFeeder, Cancelled, Parked, QueueCalls, TakenAt, Replay, ConsumedOf, Given, Holder, Paused, Uncollected,
      Counted, Read, Times, FoundRoom, FoundNoneCancelled, FedInOrder, Handshake, Progress, Checked, Ended, MonitorWaits;
  }

  lemma {:induction false} TwoCopies(uses: seq<Use>, i: nat, j: nat)
    requires i < j < |uses| && uses[i].id == uses[j].id
    ensures Conservation.Copies(uses, Conservation.UseId, uses[i].id) >= 2
  {
    if i == 0 {
      OneCopy(uses[1..], j - 1);
    } else {
      TwoCopies(uses[1..], i - 1, j - 1);
    }
  }

  lemma {:induction false} OneCopy(uses: seq<Use>, j: nat)
    requires j < |uses|
    ensures Conservation.Copies(uses, Conservation.UseId, uses[j].id) >= 1
  {
    if j > 0 { OneCopy(uses[1..], j - 1); }
  }

  lemma OnceEach(c: Config, version: int, first: nat, es: seq<Event>)
    requires c.Valid() && Run(c, Init(version, first), es).Some?
    ensures var uses := Run(c, Init(version, first), es).value.trainer.consumed;
            forall i, j :: 0 <= i < j < |uses| ==> uses[i].id != uses[j].id
  {
    var uses := Run(c, Init(version, first), es).value.trainer.consumed;
    forall i, j | 0 <= i < j < |uses|
      ensures uses[i].id != uses[j].id
    {
      if uses[i].id == uses[j].id {
        Conservation.ExactlyOnePlace(c, version, first, es, uses[i].id);
        TwoCopies(uses, i, j);
      }
    }
  }

  lemma Results(c: Config, version: int, first: nat, es: seq<Event>)
    requires c.Valid() && Run(c, Init(version, first), es).Some?
    ensures var s := Run(c, Init(version, first), es).value;
            && (Always(c, Init(version, first), es, ResetsSeeEverything) ==> s.mq.dropped == [])
            && (Always(c, Init(version, first), es, TimelyMonitor) || Always(c, Init(version, first), es, ResetsSeeEverything) ==>
                  forall u :: u in s.trainer.consumed ==> 0 <= u.version - u.stamp <= c.MaxLag())
            && (forall u :: u in s.trainer.consumed ==> 0 <= u.version - u.stamp <= WorstLag(c))
            && (forall i, j :: 0 <= i < j < |s.trainer.consumed| ==> s.trainer.consumed[i].id != s.trainer.consumed[j].id)
  {
    UnconditionalBound(c, version, first, es);
    OnceEach(c, version, first, es);
    if Always(c, Init(version, first), es, TimelyMonitor) {
      TimelyMonitorBound(c, version, first, es);
    }
    if Always(c, Init(version, first), es, ResetsSeeEverything) {
      ExactResetsNeverDrop(c, version, first, es);
      ExactResetsBound(c, version, first, es);
    }
  }
}
