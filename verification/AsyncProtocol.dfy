/** The fully asynchronous rollouter, message queue, synchroniser and trainer as one transition
    system. A step is a stretch of a coroutine between two points where it can be interrupted;
    a remote call is one step. Sources: recipe/fully_async_policy. */
module AsyncProtocol {
  import opened Options
  import opened MessageQueues

  datatype Config = Config(
    requiredSamples: nat,      // ppo_mini_batch_size * require_batches
    triggerStep: nat,          // trigger_parameter_sync_step
    maxRequired: nat,          // max_required_samples, which is also the capacity of the queue
    maxConcurrent: nat,        // max_concurrent_samples
    totalRolloutSteps: nat)
  {
    ghost predicate Valid() {
      requiredSamples >= 1 && triggerStep >= 1 && maxRequired >= 1 && maxConcurrent >= 1
    }

    /** Samples the trainer consumes between two parameter synchronisations. */
    function Window(): nat { requiredSamples * triggerStep }

    /** The version lag that the back-pressure allows: maxRequired / Window, rounded up. */
    function MaxLag(): nat
      requires Valid()
    {
      Positive();
      (maxRequired + Window() - 1) / Window()
    }

    lemma Positive()
      requires Valid()
      ensures Window() >= requiredSamples && Window() >= triggerStep
    {
      MulAtLeast(requiredSamples, triggerStep);
    }
  }

  lemma MulAtLeast(a: nat, b: nat)
    requires a >= 1 && b >= 1
    ensures a * b >= a && a * b >= b
  {
    assert a * b == a * (b - 1) + a;
    assert a * b == (a - 1) * b + b;
  }

  const PENDING_CAPACITY := 128

  datatype Item = Sample(id: nat) | Done
  datatype Message = Rollout(id: nat, stamp: int) | Final
  datatype Use = Use(id: nat, stamp: int, version: int)   // a consumed sample and the trainer's version

  datatype Feeder = Feeding | Closing | Fed
  datatype Processor = Top | SetPaused | Draining | WaitResume | WaitPending | Holding | FinalDrain | Exited
  datatype Owner = Free | ByProcessor | ByPause | ByUpdate
  datatype Phase = Collecting | Training | WaitLast | CallPause | Pausing | Syncing | Ending | Stopped
  datatype Update = NoUpdate | Queued(to: int) | ReadTasks(to: int, count: nat) | ReadQueue(to: int, count: nat) | Resuming

  // `_feed_samples`; `fed` records every sample handed out.
  datatype Feed = Feed(feeder: Feeder, globalSteps: nat, fed: seq<nat>, pending: seq<Item>)

  // The processor and the generation tasks. Tasks finish before they leave `active_tasks`: only the
  // processor or `pause` collects them.
  datatype Tasks = Tasks(proc: Processor, hand: Option<Item>, running: multiset<nat>, uncollected: nat, cancelQueue: seq<nat>)
  {
    function Active(): nat { |running| + uncollected }

    function HandCount(): nat { if hand.Some? then 1 else 0 }

    function Count(): nat { |running| + |cancelQueue| + HandCount() }

    /** The processor has taken an item and not passed it on. */
    predicate Holds() { proc == Holding || proc == FinalDrain }
  }

  // The rollouter's control state. `resetTo`, `usedAtReset` and `generated` only record the last
  // reset of the counter: its value, how much had been consumed, and the items taken since.
  datatype Control = Control(staleness: nat, resetTo: nat, usedAtReset: nat, generated: nat, version: int,
                             paused: bool, monitorTrigger: bool, monitorArmed: bool, lock: Owner)

  datatype Mq = Mq(queue: seq<Message>, dropped: seq<Message>)

  datatype Trainer = Trainer(phase: Phase, version: int, localStep: nat, collected: nat, consumed: seq<Use>, sawFinal: bool)
  {
    /** Samples consumed since the version last changed. */
    function InWindow(c: Config): int { (localStep - 1) * c.requiredSamples + collected }

    /** The version has been raised and the weights have not been sent yet. */
    predicate Syncs() { phase == WaitLast || phase == CallPause || phase == Pausing || phase == Syncing }
  }

  datatype State = State(feed: Feed, tasks: Tasks, ctl: Control, mq: Mq, update: Update, rolloutWeights: int, trainer: Trainer)
  {
    /** Everything between the pending queue and the trainer. The end marker counts as an item. */
    function InFlight(): nat { tasks.Count() + |mq.queue| }

    /** What is in flight or was consumed since the counter was last reset. */
    function SinceReset(): int { InFlight() + |trainer.consumed| - ctl.usedAtReset }
  }

  /** The feeder and the processor of the rollouter. */
  datatype ProcEvent =
    | FeedSample | FeedExhausted | FeedDone
    | ProcCheck | ProcSetPaused | ProcWaitBegin | ProcWaitEnd | ProcDrained | ProcResumed
    | PopPending | Submit | FinalPut

  /** The generation tasks and the monitor of the rollouter. */
  datatype TaskEvent =
    | TaskFinish(id: nat) | TaskCancel(id: nat)
    | MonitorTest | MonitorWrite

  /** The trainer, the synchroniser, and the calls that the synchroniser makes on the rollouter. */
  datatype TrainEvent =
    | GetSample | TrainStep | FinalSync | FinalStop
    | WaitedLast | PauseBegin | PauseEnd | SyncWeights
    | UpdateBegin | UpdateReadQueue | UpdateWrite | ResumeGeneration

  datatype Event = Proc(p: ProcEvent) | Task(g: TaskEvent) | Train(t: TrainEvent)

  /** The state in which both `fit` methods start: the first synchronisation is over. */
  function Init(version: int, globalSteps: nat): State {
    State(Feed(Feeding, globalSteps, [], []),
          Tasks(Top, None, multiset{}, 0, []),
          Control(0, 0, 0, 0, version, false, true, false, Free),
          Mq([], []),
          NoUpdate, version,
          Trainer(Collecting, version, 1, 0, [], false))
  }

  predicate ShouldPause(c: Config, s: State) {
    |s.mq.queue| >= c.maxRequired || s.ctl.staleness >= c.maxRequired
  }

  function PutMessage(c: Config, q: Mq, m: Message): Mq
    requires c.Valid()
  {
    Mq(Enqueue(c.maxRequired, q.queue, m), q.dropped + Evicted(c.maxRequired, q.queue))
  }

  /** The processor waits for tasks in three places: while draining for a pause, when the number of
      concurrent tasks is at its limit, and after the end marker. */
  predicate WaitsForTasks(c: Config, t: Tasks) {
    && t.Active() > 0
    && (t.proc == Draining || t.proc == FinalDrain || (t.proc == Holding && t.Active() >= c.maxConcurrent))
  }

  /** When an event can happen. Waiting for a lock, a condition, a queue or a remote result is what
      the guards say. */
  predicate ProcEnabled(c: Config, s: State, e: ProcEvent) {
    match e
    // _feed_samples
    case FeedSample => s.feed.feeder == Feeding && |s.feed.pending| < PENDING_CAPACITY
    case FeedExhausted => s.feed.feeder == Feeding
    case FeedDone => s.feed.feeder == Closing && |s.feed.pending| < PENDING_CAPACITY
    // _processor_worker and the end of _streaming_generation_main
    case ProcCheck => s.tasks.proc == Top
    case ProcSetPaused => s.tasks.proc == SetPaused && s.ctl.lock == Free
    case ProcWaitBegin => WaitsForTasks(c, s.tasks) && s.ctl.lock == Free
    case ProcWaitEnd => s.ctl.lock == ByProcessor && s.tasks.uncollected > 0
    case ProcDrained => s.tasks.proc == Draining && s.tasks.Active() == 0 && s.ctl.lock != ByProcessor
    case ProcResumed => s.tasks.proc == WaitResume && s.ctl.lock == Free && !s.ctl.paused
    case PopPending => s.tasks.proc == WaitPending && s.feed.pending != []
    case Submit =>
      && s.tasks.proc == Holding && s.tasks.hand.Some? && s.tasks.hand.value.Sample?
      && s.tasks.Active() < c.maxConcurrent && s.ctl.lock == Free && !s.ctl.paused
    case FinalPut => s.tasks.proc == FinalDrain && s.tasks.Active() == 0 && s.ctl.lock != ByProcessor
  }

  predicate TaskEnabled(c: Config, s: State, e: TaskEvent) {
    match e
    // _process_single_sample_streaming, when the generation call returns
    case TaskFinish(id) => id in s.tasks.running
    case TaskCancel(id) => id in s.tasks.running
    // _async_monitor_loop: the test is made without the lock, the write with it
    case MonitorTest => s.ctl.monitorTrigger && !s.ctl.monitorArmed && !ShouldPause(c, s)
    case MonitorWrite => s.ctl.monitorArmed && s.ctl.lock == Free
  }

  predicate TrainEnabled(c: Config, s: State, e: TrainEvent) {
    match e
    // _get_samples_from_queue, fit and _trigger_parameter_sync_after_step
    case GetSample => s.trainer.phase == Collecting && s.mq.queue != []
    case TrainStep => s.trainer.phase == Training
    case FinalSync => s.trainer.phase == Ending && s.update == NoUpdate
    case FinalStop => s.trainer.phase == Ending && s.update == NoUpdate
    // wait_last_valid, then sync_weights with the pause it calls
    case WaitedLast => s.trainer.phase == WaitLast && s.update == NoUpdate
    case PauseBegin => s.trainer.phase == CallPause && s.ctl.lock == Free
    case PauseEnd => s.trainer.phase == Pausing && s.ctl.lock == ByPause && |s.tasks.running| == 0
    case SyncWeights => s.trainer.phase == Syncing
    // update_param_version and resume, run by the rollouter after sync_weights has returned
    case UpdateBegin => s.update.Queued? && s.ctl.lock == Free
    case UpdateReadQueue => s.update.ReadTasks?
    case UpdateWrite => s.update.ReadQueue?
    case ResumeGeneration => s.update.Resuming? && s.ctl.lock == Free
  }

  function ProcNext(c: Config, s: State, e: ProcEvent): State
    requires c.Valid() && ProcEnabled(c, s, e)
  {
    match e
    case FeedSample =>
      var g := s.feed.globalSteps;
      var last := g >= c.totalRolloutSteps;
      s.(feed := Feed(if last then Closing else Feeding, if last then g else g + 1,
                      s.feed.fed + [g], s.feed.pending + [Sample(g)]))
    case FeedExhausted => s.(feed := s.feed.(feeder := Closing))
    case FeedDone => s.(feed := s.feed.(pending := s.feed.pending + [Done], feeder := Fed))

    case ProcCheck =>
      if s.ctl.paused || ShouldPause(c, s) then s.(tasks := s.tasks.(proc := SetPaused))
      else if s.tasks.cancelQueue != [] then
        s.(tasks := s.tasks.(hand := Some(Sample(s.tasks.cancelQueue[0])), cancelQueue := s.tasks.cancelQueue[1..], proc := Holding))
      else s.(tasks := s.tasks.(proc := WaitPending))
    case ProcSetPaused => s.(ctl := s.ctl.(paused := true), tasks := s.tasks.(proc := Draining))
    case ProcWaitBegin => s.(ctl := s.ctl.(lock := ByProcessor))
    case ProcWaitEnd => s.(ctl := s.ctl.(lock := Free), tasks := s.tasks.(uncollected := 0))
    case ProcDrained => s.(tasks := s.tasks.(proc := WaitResume))
    case ProcResumed => s.(tasks := s.tasks.(proc := Top))
    case PopPending =>
      var item := s.feed.pending[0];
      s.(feed := s.feed.(pending := s.feed.pending[1..]),
         ctl := s.ctl.(staleness := s.ctl.staleness + 1, generated := s.ctl.generated + 1),
         tasks := s.tasks.(hand := Some(item), proc := if item.Done? then FinalDrain else Holding))
    case Submit =>
      s.(tasks := s.tasks.(running := s.tasks.running + multiset{s.tasks.hand.value.id}, hand := None, proc := Top))
    case FinalPut => s.(mq := PutMessage(c, s.mq, Final), tasks := s.tasks.(hand := None, proc := Exited))
  }

  function TaskNext(c: Config, s: State, e: TaskEvent): State
    requires c.Valid() && TaskEnabled(c, s, e)
  {
    match e
    case TaskFinish(id) =>
      s.(mq := PutMessage(c, s.mq, Rollout(id, s.ctl.version)),
         tasks := s.tasks.(running := s.tasks.running - multiset{id}, uncollected := s.tasks.uncollected + 1))
    case TaskCancel(id) =>
      s.(tasks := s.tasks.(cancelQueue := s.tasks.cancelQueue + [id],
                           running := s.tasks.running - multiset{id}, uncollected := s.tasks.uncollected + 1))

    // a lock that is free is taken at once: nothing comes between this test and its write
    case MonitorTest => s.(ctl := if s.ctl.lock == Free then s.ctl.(paused := false) else s.ctl.(monitorArmed := true))
    case MonitorWrite => s.(ctl := s.ctl.(paused := false, monitorArmed := false))
  }

  function TrainNext(c: Config, s: State, e: TrainEvent): State
    requires c.Valid() && TrainEnabled(c, s, e)
  {
    match e
    case GetSample => s.(mq := s.mq.(queue := s.mq.queue[1..]), trainer := Receive(c, s.trainer, s.mq.queue[0]))
    case TrainStep =>
      if s.trainer.localStep < c.triggerStep then
        s.(trainer := s.trainer.(localStep := s.trainer.localStep + 1, collected := 0, phase := Collecting))
      else
        s.(trainer := NewVersion(s.trainer))
    case FinalSync => s.(trainer := NewVersion(s.trainer))
    case FinalStop => s.(trainer := s.trainer.(phase := Stopped))

    case WaitedLast => s.(trainer := s.trainer.(phase := CallPause))
    case PauseBegin => s.(ctl := s.ctl.(lock := ByPause, paused := true), trainer := s.trainer.(phase := Pausing))
    case PauseEnd =>
      s.(tasks := s.tasks.(uncollected := 0), ctl := s.ctl.(monitorTrigger := false, lock := Free),
         trainer := s.trainer.(phase := Syncing))
    case SyncWeights =>
      s.(rolloutWeights := s.trainer.version, update := Queued(s.trainer.version),
         trainer := s.trainer.(phase := if s.trainer.sawFinal then Stopped else Collecting))

    // the size of the message queue is awaited, so the reset of the counter takes three steps
    case UpdateBegin =>
      s.(ctl := s.ctl.(lock := ByUpdate, version := s.update.to),
         update := ReadTasks(s.update.to, s.tasks.Active() + |s.tasks.cancelQueue|))
    case UpdateReadQueue => s.(update := ReadQueue(s.update.to, s.update.count + |s.mq.queue|))
    case UpdateWrite =>
      s.(ctl := s.ctl.(staleness := s.update.count, resetTo := s.update.count, usedAtReset := |s.trainer.consumed|,
                       generated := 0, lock := Free),
         update := Resuming)
    case ResumeGeneration => s.(ctl := s.ctl.(paused := false, monitorTrigger := true), update := NoUpdate)
  }

  function Receive(c: Config, t: Trainer, m: Message): Trainer {
    match m
    case Final => t.(sawFinal := true, phase := Ending)
    case Rollout(id, stamp) =>
      t.(consumed := t.consumed + [Use(id, stamp, t.version)], collected := t.collected + 1,
         phase := if t.collected + 1 >= c.requiredSamples then Training else Collecting)
  }

  function NewVersion(t: Trainer): Trainer {
    t.(version := t.version + 1, localStep := 1, collected := 0, phase := WaitLast)
  }

  predicate MovesItem(e: ProcEvent) { e == ProcCheck || e == PopPending || e == Submit || e == FinalPut }

  /** The other events of the feeder and the processor leave everything that is counted where it is. */
  lemma OthersMoveNothing(c: Config, s: State, e: ProcEvent)
    requires c.Valid() && ProcEnabled(c, s, e) && !MovesItem(e)
    ensures var t := ProcNext(c, s, e);
            && t.mq == s.mq && t.update == s.update && t.rolloutWeights == s.rolloutWeights && t.trainer == s.trainer
            && t.tasks.hand == s.tasks.hand && t.tasks.running == s.tasks.running && t.tasks.cancelQueue == s.tasks.cancelQueue
            && (e == ProcWaitEnd || t.tasks.uncollected == s.tasks.uncollected) && t.tasks.uncollected <= s.tasks.uncollected
            && (t.tasks.proc == s.tasks.proc
                || (!s.tasks.Holds() && (t.tasks.proc == Draining || t.tasks.proc == WaitResume || t.tasks.proc == Top)))
            && (s.tasks.proc == Exited ==> t.tasks.proc == Exited) && (s.tasks.proc == WaitPending ==> t.tasks.proc == WaitPending)
            && t.ctl == s.ctl.(paused := t.ctl.paused, lock := t.ctl.lock) && (s.ctl.paused ==> t.ctl.paused)
            && (t.ctl.lock == s.ctl.lock
                || (s.ctl.lock == Free && t.ctl.lock == ByProcessor) || (s.ctl.lock == ByProcessor && t.ctl.lock == Free))
  {
  }

  predicate Enabled(c: Config, s: State, e: Event) {
    match e
    case Proc(p) => ProcEnabled(c, s, p)
    case Task(g) => TaskEnabled(c, s, g)
    case Train(t) => TrainEnabled(c, s, t)
  }

  function Next(c: Config, s: State, e: Event): State
    requires c.Valid() && Enabled(c, s, e)
  {
    match e
    case Proc(p) => ProcNext(c, s, p)
    case Task(g) => TaskNext(c, s, g)
    case Train(t) => TrainNext(c, s, t)
  }

  function Step(c: Config, s: State, e: Event): Option<State>
    requires c.Valid()
  {
    if Enabled(c, s, e) then Some(Next(c, s, e)) else None
  }

  // ------------------------------------------------ partial_rollout

  predicate IsCancel(e: Event) { e.Task? && e.g.TaskCancel? }

  /** Tasks are cancelled from the beginning of a pause to the end of the resumption. */
  predicate Cancelling(s: State) {
    s.trainer.phase == Pausing || Refusing(s)
  }

  /** The servers are cancelled and nothing is left of what ran before: every task that starts now
      comes back cancelled. */
  predicate Refusing(s: State) { s.trainer.phase == Syncing || s.update != NoUpdate }

  /** What `partial_rollout` permits. */
  predicate PartialEvent(s: State, e: Event) {
    && (IsCancel(e) ==> Cancelling(s))
    && (e.Task? && e.g.TaskFinish? ==> !Refusing(s))
  }

  // ---------------------------------------------------------------- runs

  /** The states a sequence of events passes through, or None when one of them is not enabled. */
  function Run(c: Config, s: State, es: seq<Event>): Option<State>
    requires c.Valid()
  {
    if es == [] then Some(s)
    else
      match Run(c, s, es[..|es| - 1])
      case None => None
      case Some(t) => Step(c, t, es[|es| - 1])
  }

  /** A condition on every step of a run: `ok(state before the step, event)`. */
  ghost predicate Always(c: Config, s: State, es: seq<Event>, ok: (State, Event) -> bool)
    requires c.Valid()
  {
    forall i :: 0 <= i < |es| && Run(c, s, es[..i]).Some? ==> ok(Run(c, s, es[..i]).value, es[i])
  }

  lemma AlwaysPrefix(c: Config, s: State, es: seq<Event>, ok: (State, Event) -> bool)
    requires c.Valid() && es != [] && Always(c, s, es, ok)
    requires Run(c, s, es[..|es| - 1]).Some?
    ensures Always(c, s, es[..|es| - 1], ok)
    ensures ok(Run(c, s, es[..|es| - 1]).value, es[|es| - 1])
  {
    var before := es[..|es| - 1];
    forall i | 0 <= i < |before| && Run(c, s, before[..i]).Some?
      ensures ok(Run(c, s, before[..i]).value, before[i])
    {
      assert before[..i] == es[..i];
    }
  }

  lemma AlwaysWeaker(c: Config, s: State, es: seq<Event>, ok: (State, Event) -> bool, weaker: (State, Event) -> bool)
    requires c.Valid() && Always(c, s, es, ok)
    requires forall t, e :: ok(t, e) ==> weaker(t, e)
    ensures Always(c, s, es, weaker)
  {
  }

  lemma AlwaysSnoc(c: Config, s: State, es: seq<Event>, e: Event, ok: (State, Event) -> bool)
    requires c.Valid() && Always(c, s, es, ok) && Run(c, s, es).Some? && ok(Run(c, s, es).value, e)
    ensures Always(c, s, es + [e], ok)
  {
    var all := es + [e];
    forall i | 0 <= i < |all| && Run(c, s, all[..i]).Some?
      ensures ok(Run(c, s, all[..i]).value, all[i])
    {
      assert all[..i] == es[..i];
      if i == |es| { assert all[..i] == es; }
    }
  }
}
