/** What a run has done, told from its events alone. The state that a run reaches is compared here
    with its history: in which order samples were handed over, which calls the message queue
    received, who held the lock, what the counter counted, and how a synchronisation proceeded. */
module AsyncHistory {
  import opened Options
  import opened MessageQueues
  import opened AsyncProtocol
  import opened Staleness
  import Conservation
  import InFlight

  /** How often an event occurred. */
  function Times(es: seq<Event>, e: Event): nat {
    if es == [] then 0
    else Times(es[..|es| - 1], e) + (if es[|es| - 1] == e then 1 else 0)
  }

  // ------------------------------------------------ samples are handed over in order

  /** The samples first, first + 1, ..., n of them, as the feeder hands them out. */
  function Samples(first: nat, n: nat): seq<Item> {
    seq(n, i requires 0 <= i < n => Sample(first + i))
  }

  /** How many samples the feeder hands out when the data lasts: it always hands out one. */
  function FeedLimit(c: Config, first: nat): nat {
    (if c.totalRolloutSteps > first then c.totalRolloutSteps - first else 0) + 1
  }

  function InHand(t: Tasks): seq<Item> { if t.hand.Some? then [t.hand.value] else [] }

  /** What the processor held after each time it took an item from the pending queue. */
  function Taken(c: Config, s: State, es: seq<Event>): seq<Item>
    requires c.Valid() && Run(c, s, es).Some?
  {
    if es == [] then []
    else Taken(c, s, es[..|es| - 1]) + (if es[|es| - 1] == Proc(PopPending) then InHand(Run(c, s, es).value.tasks) else [])
  }

  /** What the processor held after each check: a check takes from the cancel queue or takes nothing. */
  function Retaken(c: Config, s: State, es: seq<Event>): seq<Item>
    requires c.Valid() && Run(c, s, es).Some?
  {
    if es == [] then []
    else Retaken(c, s, es[..|es| - 1]) + (if es[|es| - 1] == Proc(ProcCheck) then InHand(Run(c, s, es).value.tasks) else [])
  }

  /** The samples whose generation was cancelled, in order. */
  function Cancelled(es: seq<Event>): seq<Item> {
    if es == [] then []
    else
      Cancelled(es[..|es| - 1])
      + match es[|es| - 1]
        case Task(TaskCancel(id)) => [Sample(id)]
        case _ => []
  }

  function Parked(ids: seq<nat>): seq<Item> {
    seq(|ids|, i requires 0 <= i < |ids| => Sample(ids[i]))
  }

  ghost predicate FedInOrder(c: Config, first: nat, es: seq<Event>, f: Feed) {
    && |f.fed| == Times(es, Proc(FeedSample)) <= FeedLimit(c, first)
    && (forall i :: 0 <= i < |f.fed| ==> f.fed[i] == first + i)
    && (f.feeder == Feeding ==> f.globalSteps == first + |f.fed| && |f.fed| < FeedLimit(c, first))
    && (f.feeder != Feeding && Times(es, Proc(FeedExhausted)) == 0 ==> |f.fed| == FeedLimit(c, first))
    && (if f.feeder == Fed then Times(es, Proc(FeedDone)) == 1 else Times(es, Proc(FeedDone)) == 0)
    && |f.pending| <= PENDING_CAPACITY
  }

  lemma FedInOrderStep(c: Config, first: nat, es: seq<Event>, s: State, e: Event)
    requires c.Valid() && Enabled(c, s, e) && es != [] && es[|es| - 1] == e
    requires FedInOrder(c, first, es[..|es| - 1], s.feed)
    ensures FedInOrder(c, first, es, Next(c, s, e).feed)
  {
    match e
    case Proc(p) =>
    case _ =>
  }

  /** What the feeder put into the pending queue. */
  function PutByFeeder(first: nat, es: seq<Event>): seq<Item> {
    Samples(first, Times(es, Proc(FeedSample))) + (if Times(es, Proc(FeedDone)) > 0 then [Done] else [])
  }

  /** What an event takes from the front of a queue and what it adds at the end. */
  lemma {:induction false} Shift<T>(gone: seq<T>, front: seq<T>, queue: seq<T>, after: seq<T>, back: seq<T>)
    requires front + after == queue + back
    ensures gone + front + after == gone + queue + back
  {
    assert gone + front + after == gone + (front + after);
    assert gone + queue + back == gone + (queue + back);
  }

  lemma PendingChange(c: Config, s: State, e: Event)
    requires c.Valid() && Enabled(c, s, e)
    ensures var t := Next(c, s, e);
            (if e == Proc(PopPending) then InHand(t.tasks) else []) + t.feed.pending ==
            s.feed.pending
            + if e == Proc(FeedSample) then [Sample(s.feed.globalSteps)] else if e == Proc(FeedDone) then [Done] else []
  {
    assert s.feed.pending + [] == s.feed.pending;
  }

  lemma CancelChange(c: Config, s: State, e: Event)
    requires c.Valid() && Enabled(c, s, e) && Conservation.HandInv(s.tasks)
    ensures var t := Next(c, s, e);
            (if e == Proc(ProcCheck) then InHand(t.tasks) else []) + Parked(t.tasks.cancelQueue) ==
            Parked(s.tasks.cancelQueue) + if e.Task? && e.g.TaskCancel? then [Sample(e.g.id)] else []
  {
    var q := s.tasks.cancelQueue;
    assert Parked(q) + [] == Parked(q);
    if e == Proc(ProcCheck) && q != [] { assert Parked(q) == [Sample(q[0])] + Parked(q[1..]); }
  }

  lemma PutByFeederSnoc(first: nat, es: seq<Event>)
    requires es != [] && (es[|es| - 1] == Proc(FeedSample) || es[|es| - 1] == Proc(FeedDone) ==> Times(es[..|es| - 1], Proc(FeedDone)) == 0)
    ensures var before, e := es[..|es| - 1], es[|es| - 1];
            PutByFeeder(first, es) ==
            PutByFeeder(first, before)
            + if e == Proc(FeedSample) then [Sample(first + Times(before, e))] else if e == Proc(FeedDone) then [Done] else []
  {
  }

  lemma FeederAt(c: Config, first: nat, es: seq<Event>, s: State, e: Event)
    requires c.Valid() && Enabled(c, s, e) && FedInOrder(c, first, es, s.feed)
    ensures e == Proc(FeedSample) ==> s.feed.globalSteps == first + Times(es, e)
    ensures e == Proc(FeedSample) || e == Proc(FeedDone) ==> Times(es, Proc(FeedDone)) == 0
  {
  }

  lemma PendingStep(c: Config, first: nat, es: seq<Event>, s: State, e: Event, taken: seq<Item>)
    requires c.Valid() && Enabled(c, s, e) && es != [] && es[|es| - 1] == e && FedInOrder(c, first, es[..|es| - 1], s.feed)
    requires taken + s.feed.pending == PutByFeeder(first, es[..|es| - 1])
    ensures var t := Next(c, s, e);
            taken + (if e == Proc(PopPending) then InHand(t.tasks) else []) + t.feed.pending == PutByFeeder(first, es)
  {
    PendingChange(c, s, e);
    FeederAt(c, first, es[..|es| - 1], s, e);
    PutByFeederSnoc(first, es);
    hide Enabled, Next, PutByFeeder, FedInOrder, Times;
    Shift(taken, if e == Proc(PopPending) then InHand(Next(c, s, e).tasks) else [], s.feed.pending, Next(c, s, e).feed.pending,
          if e == Proc(FeedSample) then [Sample(s.feed.globalSteps)] else if e == Proc(FeedDone) then [Done] else []);
  }

  lemma ParkedStep(c: Config, es: seq<Event>, s: State, e: Event, retaken: seq<Item>)
    requires c.Valid() && Enabled(c, s, e) && es != [] && es[|es| - 1] == e && Conservation.HandInv(s.tasks)
    requires retaken + Parked(s.tasks.cancelQueue) == Cancelled(es[..|es| - 1])
    ensures var t := Next(c, s, e);
            retaken + (if e == Proc(ProcCheck) then InHand(t.tasks) else []) + Parked(t.tasks.cancelQueue) == Cancelled(es)
  {
    CancelChange(c, s, e);
    hide Enabled, Next, Parked;
    Shift(retaken, if e == Proc(ProcCheck) then InHand(Next(c, s, e).tasks) else [], Parked(s.tasks.cancelQueue),
          Parked(Next(c, s, e).tasks.cancelQueue), if e.Task? && e.g.TaskCancel? then [Sample(e.g.id)] else []);
  }

  /** The feeder hands out first, first + 1, ... up to its limit, and every sample once. The processor
      takes them from the pending queue in that order, followed by the end marker; and it takes up
      cancelled samples in the order in which they were cancelled. */
  lemma {:induction false} HandedOverInOrder(c: Config, version: int, first: nat, es: seq<Event>)
    requires c.Valid() && Run(c, Init(version, first), es).Some?
    ensures var s := Run(c, Init(version, first), es).value;
            && FedInOrder(c, first, es, s.feed)
            && Taken(c, Init(version, first), es) + s.feed.pending == PutByFeeder(first, es)
            && Retaken(c, Init(version, first), es) + Parked(s.tasks.cancelQueue) == Cancelled(es)
  {
    if es != [] {
      var before, e := es[..|es| - 1], es[|es| - 1];
      var s := Run(c, Init(version, first), before).value;
      HandedOverInOrder(c, version, first, before);
      Conservation.ExactlyOnePlace(c, version, first, before, 0);
      hide ProcNext, TaskNext, TrainNext, FedInOrder, PutByFeeder, Cancelled, Parked, Conservation.Inv;
      FedInOrderStep(c, first, es, s, e);
      PendingStep(c, first, es, s, e, Taken(c, Init(version, first), before));
      ParkedStep(c, es, s, e, Retaken(c, Init(version, first), before));
    }
  }

  // ------------------------------------------------ versions and the handshake of a synchronisation

  /** The versions of the rollouter, of its weights and of the trainer, by counting. */
  ghost predicate VersionsCounted(version: int, es: seq<Event>, s: State) {
    && s.ctl.version == version + Times(es, Train(UpdateBegin))
    && s.rolloutWeights == version + Times(es, Train(SyncWeights))
    && s.trainer.version == version + Times(es, Train(SyncWeights)) + (if s.trainer.Syncs() then 1 else 0)
  }

  lemma {:induction false} VersionsStep(c: Config, version: int, es: seq<Event>, s: State, e: Event)
    requires c.Valid() && Enabled(c, s, e) && es != [] && es[|es| - 1] == e && VersionInv(s)
    requires VersionsCounted(version, es[..|es| - 1], s)
    ensures VersionsCounted(version, es, Next(c, s, e))
  {
  }

  /** How far the two sides are with the synchronisation of the version being made. */
  ghost predicate Handshake(version: int, es: seq<Event>, s: State) {
    var raised := s.trainer.version - version;
    var synced, resumed := Times(es, Train(SyncWeights)), Times(es, Train(ResumeGeneration));
    && raised >= Times(es, Train(WaitedLast)) >= Times(es, Train(PauseBegin)) >= Times(es, Train(PauseEnd)) >= synced >= raised - 1
    && synced >= Times(es, Train(UpdateBegin)) >= Times(es, Train(UpdateReadQueue)) >= Times(es, Train(UpdateWrite)) >= resumed
    && resumed >= Times(es, Train(WaitedLast)) - 1
  }

  /** How far the pause is, by the phase of the trainer. */
  ghost predicate PauseProgress(es: seq<Event>, s: State) {
    var synced, p := Times(es, Train(SyncWeights)), s.trainer.phase;
    && Times(es, Train(PauseEnd)) == synced + (if p == Syncing then 1 else 0)
    && Times(es, Train(PauseBegin)) == synced + (if p == Syncing || p == Pausing then 1 else 0)
    && Times(es, Train(WaitedLast)) == synced + (if p == Syncing || p == Pausing || p == CallPause then 1 else 0)
  }

  /** How far the announcement is, by the calls that are pending. */
  ghost predicate UpdateProgress(es: seq<Event>, u: Update) {
    var synced := Times(es, Train(SyncWeights));
    && Times(es, Train(UpdateBegin)) == synced - (if u.Queued? then 1 else 0)
    && Times(es, Train(UpdateReadQueue)) == synced - (if u.Queued? || u.ReadTasks? then 1 else 0)
    && Times(es, Train(UpdateWrite)) == synced - (if u.Queued? || u.ReadTasks? || u.ReadQueue? then 1 else 0)
    && Times(es, Train(ResumeGeneration)) == synced - (if u != NoUpdate then 1 else 0)
  }

  ghost predicate Progress(es: seq<Event>, s: State) {
    && PauseProgress(es, s) && UpdateProgress(es, s.update)
    && (s.trainer.phase == Syncing || s.trainer.phase == Pausing || s.trainer.phase == CallPause ==> s.update == NoUpdate)
  }

  lemma PauseProgressStep(c: Config, es: seq<Event>, s: State, e: Event)
    requires c.Valid() && Enabled(c, s, e) && es != [] && es[|es| - 1] == e && PauseProgress(es[..|es| - 1], s)
    ensures PauseProgress(es, Next(c, s, e))
  {
  }

  lemma UpdateProgressStep(c: Config, es: seq<Event>, s: State, e: Event)
    requires c.Valid() && Enabled(c, s, e) && es != [] && es[|es| - 1] == e && Progress(es[..|es| - 1], s)
    ensures UpdateProgress(es, Next(c, s, e).update)
  {
    hide PauseProgress;
  }

  lemma ProgressStep(c: Config, es: seq<Event>, s: State, e: Event)
    requires c.Valid() && Enabled(c, s, e) && es != [] && es[|es| - 1] == e && Progress(es[..|es| - 1], s)
    ensures Progress(es, Next(c, s, e))
  {
    PauseProgressStep(c, es, s, e);
    UpdateProgressStep(c, es, s, e);
    hide PauseProgress, UpdateProgress, Times;
  }

  // ------------------------------------------------ the lock, the pause and the counter

  /** Who holds the lock: whoever took it last, unless it was given back since. */
  function Holder(es: seq<Event>): Owner {
    if es == [] then Free
    else
      match es[|es| - 1]
      case Proc(ProcWaitBegin) => ByProcessor
      case Train(PauseBegin) => ByPause
      case Train(UpdateBegin) => ByUpdate
      case Proc(ProcWaitEnd) => Free
      case Train(PauseEnd) => Free
      case Train(UpdateWrite) => Free
      case _ => Holder(es[..|es| - 1])
  }

  /** Whether the rollouter is paused: by what last set or cleared the flag. */
  function Paused(es: seq<Event>): bool {
    if es == [] then false
    else
      var before := es[..|es| - 1];
      match es[|es| - 1]
      case Proc(ProcSetPaused) => true
      case Train(PauseBegin) => true
      case Train(ResumeGeneration) => false
      case Task(MonitorWrite) => false
      case Task(MonitorTest) => Paused(before) && Holder(before) != Free
      case _ => Paused(before)
  }

  /** Whether the monitor has found room and waits for the lock. */
  function MonitorWaits(es: seq<Event>): bool {
    if es == [] then false
    else
      var before := es[..|es| - 1];
      match es[|es| - 1]
      case Task(MonitorTest) => Holder(before) != Free || MonitorWaits(before)
      case Task(MonitorWrite) => false
      case _ => MonitorWaits(before)
  }

  predicate Ends(e: Event) { e.Task? && (e.g.TaskFinish? || e.g.TaskCancel?) }

  /** How many tasks have ended. */
  function Ended(es: seq<Event>): nat {
    if es == [] then 0 else Ended(es[..|es| - 1]) + (if Ends(es[|es| - 1]) then 1 else 0)
  }

  /** How many of them have ended since the processor or a pause last collected tasks. */
  function Uncollected(es: seq<Event>): nat {
    if es == [] then 0
    else if es[|es| - 1] == Proc(ProcWaitEnd) || es[|es| - 1] == Train(PauseEnd) then 0
    else Uncollected(es[..|es| - 1]) + (if Ends(es[|es| - 1]) then 1 else 0)
  }

  /** What the last reset of the counter has read so far: tasks first, the queue later. */
  function Read(c: Config, s: State, es: seq<Event>): nat
    requires c.Valid() && Run(c, s, es).Some?
  {
    if es == [] then 0
    else
      var before := es[..|es| - 1];
      var t := Run(c, s, before).value;
      match es[|es| - 1]
      case Train(UpdateBegin) => |t.tasks.running| + Uncollected(before) + |t.tasks.cancelQueue|
      case Train(UpdateReadQueue) => Read(c, s, before) + |t.mq.queue|
      case _ => Read(c, s, before)
  }

  /** What was read by the last reset, and the items taken from the pending queue since. */
  function Counted(c: Config, s: State, es: seq<Event>): nat
    requires c.Valid() && Run(c, s, es).Some?
  {
    if es == [] then 0
    else
      var before := es[..|es| - 1];
      match es[|es| - 1]
      case Train(UpdateWrite) => Read(c, s, before)
      case Proc(PopPending) => Counted(c, s, before) + 1
      case _ => Counted(c, s, before)
  }

  ghost predicate ControlTold(es: seq<Event>, s: State, counted: nat, read: nat) {
    && s.ctl.lock == Holder(es) && s.ctl.paused == Paused(es) && s.ctl.monitorArmed == MonitorWaits(es)
    && s.ctl.monitorTrigger == (Times(es, Train(PauseEnd)) == Times(es, Train(ResumeGeneration)))
    && s.tasks.uncollected == Uncollected(es)
    && |s.tasks.running| + Ended(es) == Times(es, Proc(Submit))
    && s.ctl.staleness == counted
    && (s.update.ReadTasks? || s.update.ReadQueue? ==> s.update.count == read)
  }

  lemma ProcToldStep(c: Config, es: seq<Event>, s: State, e: ProcEvent, counted: nat, read: nat)
    requires c.Valid() && ProcEnabled(c, s, e) && es != [] && es[|es| - 1] == Proc(e)
    requires ControlTold(es[..|es| - 1], s, counted, read)
    ensures ControlTold(es, ProcNext(c, s, e), if e == PopPending then counted + 1 else counted, read)
  {
  }

  lemma TaskToldStep(c: Config, es: seq<Event>, s: State, e: TaskEvent, counted: nat, read: nat)
    requires c.Valid() && TaskEnabled(c, s, e) && es != [] && es[|es| - 1] == Task(e)
    requires ControlTold(es[..|es| - 1], s, counted, read)
    ensures ControlTold(es, TaskNext(c, s, e), counted, read)
  {
  }

  lemma TrainToldStep(c: Config, es: seq<Event>, s: State, e: TrainEvent, counted: nat, read: nat)
    requires c.Valid() && TrainEnabled(c, s, e) && es != [] && es[|es| - 1] == Train(e)
    requires ControlTold(es[..|es| - 1], s, counted, read) && Progress(es[..|es| - 1], s)
    ensures ControlTold(es, TrainNext(c, s, e),
                        if e == UpdateWrite then read else counted,
                        if e == UpdateBegin then |s.tasks.running| + Uncollected(es[..|es| - 1]) + |s.tasks.cancelQueue|
                        else if e == UpdateReadQueue then read + |s.mq.queue|
                        else read)
  {
  }

  /** The last check of the processor found no pause, a queue that is not full and a counter below
      the limit. */
  ghost predicate FoundRoom(c: Config, s: State, es: seq<Event>)
    requires c.Valid() && Run(c, s, es).Some?
  {
    es != [] &&
    var before := es[..|es| - 1];
    if es[|es| - 1] == Proc(ProcCheck) then
      !Paused(before) && |Run(c, s, before).value.mq.queue| < c.maxRequired && Counted(c, s, before) < c.maxRequired
    else
      FoundRoom(c, s, before)
  }

  /** The last check of the processor found no cancelled sample. */
  ghost predicate FoundNoneCancelled(c: Config, s: State, es: seq<Event>)
    requires c.Valid() && Run(c, s, es).Some?
  {
    es != [] &&
    var before := es[..|es| - 1];
    if es[|es| - 1] == Proc(ProcCheck) then Run(c, s, before).value.tasks.cancelQueue == []
    else FoundNoneCancelled(c, s, before)
  }

  ghost predicate Checked(c: Config, t: Tasks, room: bool, noneCancelled: bool) {
    && (t.proc == WaitPending || t.Holds() ==> room)
    && (t.proc == SetPaused || t.proc == Draining || t.proc == WaitResume ==> !room)
    && (t.proc == WaitPending ==> noneCancelled)
    && t.Active() <= c.maxConcurrent
  }

  lemma ProcCheckedStep(c: Config, s: State, e: ProcEvent, room: bool, noneCancelled: bool)
    requires c.Valid() && ProcEnabled(c, s, e) && Checked(c, s.tasks, room, noneCancelled)
    ensures Checked(c, ProcNext(c, s, e).tasks,
                    if e == ProcCheck then !s.ctl.paused && |s.mq.queue| < c.maxRequired && s.ctl.staleness < c.maxRequired else room,
                    if e == ProcCheck then s.tasks.cancelQueue == [] else noneCancelled)
  {
  }

  lemma OtherCheckedStep(c: Config, s: State, e: Event, room: bool, noneCancelled: bool)
    requires c.Valid() && Enabled(c, s, e) && Checked(c, s.tasks, room, noneCancelled) && !e.Proc?
    ensures Checked(c, Next(c, s, e).tasks, room, noneCancelled)
  {
  }

  lemma CheckedStep(c: Config, version: int, first: nat, es: seq<Event>)
    requires c.Valid() && es != [] && Run(c, Init(version, first), es).Some?
    requires var start, before := Init(version, first), es[..|es| - 1];
             var s := Run(c, start, before).value;
             && ControlTold(before, s, Counted(c, start, before), Read(c, start, before))
             && Checked(c, s.tasks, FoundRoom(c, start, before), FoundNoneCancelled(c, start, before))
    ensures var start := Init(version, first);
            Checked(c, Run(c, start, es).value.tasks, FoundRoom(c, start, es), FoundNoneCancelled(c, start, es))
  {
    hide ProcEnabled, TaskEnabled, TrainEnabled, ProcNext, TaskNext, TrainNext, Checked;
    var start, before, e := Init(version, first), es[..|es| - 1], es[|es| - 1];
    var s := Run(c, start, before).value;
    if e.Proc? {
      ProcCheckedStep(c, s, e.p, FoundRoom(c, start, before), FoundNoneCancelled(c, start, before));
    } else {
      OtherCheckedStep(c, s, e, FoundRoom(c, start, before), FoundNoneCancelled(c, start, before));
    }
  }

  /** Every check of the processor is followed by one submission or by one round of pausing, waiting for
      the tasks and waiting to be resumed, before the next check; the last may lead to the end. */
  ghost predicate Rounds(es: seq<Event>, p: Processor) {
    var resumed := Times(es, Proc(ProcResumed));
    && Times(es, Proc(ProcCheck)) == resumed + Times(es, Proc(Submit)) + (if p == Top then 0 else 1)
    && Times(es, Proc(ProcDrained)) == resumed + (if p == WaitResume then 1 else 0)
    && Times(es, Proc(ProcSetPaused)) == resumed + (if p == WaitResume || p == Draining then 1 else 0)
    && Times(es, Proc(FinalPut)) == if p == Exited then 1 else 0
  }

  lemma RoundsStep(c: Config, es: seq<Event>, s: State, e: Event)
    requires c.Valid() && Enabled(c, s, e) && es != [] && es[|es| - 1] == e && Rounds(es[..|es| - 1], s.tasks.proc)
    ensures Rounds(es, Next(c, s, e).tasks.proc)
  {
  }

  /** The state that a run reaches is what its events tell. */
  ghost predicate AsTold(c: Config, version: int, first: nat, es: seq<Event>)
    requires c.Valid() && Run(c, Init(version, first), es).Some?
  {
    var start := Init(version, first);
    var s := Run(c, start, es).value;
    && VersionsCounted(version, es, s) && Progress(es, s) && Rounds(es, s.tasks.proc)
    && WindowsCounted(c, version, es, s.trainer)
    && ControlTold(es, s, Counted(c, start, es), Read(c, start, es))
    && Checked(c, s.tasks, FoundRoom(c, start, es), FoundNoneCancelled(c, start, es))
  }

  /** How many steps the trainer has made since it last raised its version. */
  function LocalSteps(c: Config, es: seq<Event>): nat {
    if es == [] then 0
    else
      var before := LocalSteps(c, es[..|es| - 1]);
      match es[|es| - 1]
      case Train(TrainStep) => if before + 1 >= c.triggerStep then 0 else before + 1
      case Train(FinalSync) => 0
      case _ => before
  }

  /** How often it has raised its version: after every triggerStep steps, and for the final synchronisation. */
  function Raised(c: Config, es: seq<Event>): nat {
    if es == [] then 0
    else
      var before := es[..|es| - 1];
      match es[|es| - 1]
      case Train(TrainStep) => Raised(c, before) + (if LocalSteps(c, before) + 1 >= c.triggerStep then 1 else 0)
      case Train(FinalSync) => Raised(c, before) + 1
      case _ => Raised(c, before)
  }

  lemma OthersLeaveSides(c: Config, s: State, e: Event)
    requires c.Valid() && Enabled(c, s, e) && !e.Train?
    ensures Next(c, s, e).trainer == s.trainer
  {
  }

  ghost predicate WindowsCounted(c: Config, version: int, es: seq<Event>, t: Trainer) {
    t.localStep == 1 + LocalSteps(c, es) && t.version == version + Raised(c, es)
  }

  lemma WindowsStep(c: Config, version: int, es: seq<Event>, s: State, e: Event)
    requires c.Valid() && Enabled(c, s, e) && es != [] && es[|es| - 1] == e && WindowsCounted(c, version, es[..|es| - 1], s.trainer)
    ensures WindowsCounted(c, version, es, Next(c, s, e).trainer)
  {
    match e
    case Train(t) =>
    case _ => OthersLeaveSides(c, s, e);
  }

  lemma KnownInvariants(c: Config, version: int, first: nat, es: seq<Event>)
    requires c.Valid() && Run(c, Init(version, first), es).Some?
    ensures var s := Run(c, Init(version, first), es).value;
            VersionInv(s) && TrainerInv(c, s.trainer) && InFlight.Inv(c, s)
  {
    UnconditionalBound(c, version, first, es);
    InFlight.InFlightBound(c, version, first, es);
  }

  lemma ToldStep(c: Config, version: int, first: nat, es: seq<Event>)
    requires c.Valid() && es != [] && Run(c, Init(version, first), es).Some?
    requires var start, before := Init(version, first), es[..|es| - 1];
             var s := Run(c, start, before).value;
             Progress(before, s) && ControlTold(before, s, Counted(c, start, before), Read(c, start, before))
    ensures var start := Init(version, first);
            ControlTold(es, Run(c, start, es).value, Counted(c, start, es), Read(c, start, es))
  {
    hide ProcNext, TaskNext, TrainNext, Progress;
    var start, before := Init(version, first), es[..|es| - 1];
    var s := Run(c, start, before).value;
    match es[|es| - 1] {
      case Proc(p) => ProcToldStep(c, es, s, p, Counted(c, start, before), Read(c, start, before));
      case Task(g) => TaskToldStep(c, es, s, g, Counted(c, start, before), Read(c, start, before));
      case Train(t) => TrainToldStep(c, es, s, t, Counted(c, start, before), Read(c, start, before));
    }
  }

  lemma HandshakeOf(version: int, es: seq<Event>, s: State)
    requires VersionsCounted(version, es, s) && Progress(es, s)
    ensures Handshake(version, es, s)
  {
    hide Times;
  }

  lemma NothingTold(c: Config, version: int, first: nat)
    requires c.Valid()
    ensures AsTold(c, version, first, [])
  {
  }

  /** Every run reaches the state that its events tell; in particular a synchronisation always goes
      through its steps in order, each of them once. */
  lemma {:induction false} StateAsTold(c: Config, version: int, first: nat, es: seq<Event>)
    requires c.Valid() && Run(c, Init(version, first), es).Some?
    ensures AsTold(c, version, first, es)
    ensures Handshake(version, es, Run(c, Init(version, first), es).value)
  {
    hide ProcNext, TaskNext, TrainNext, Handshake, VersionsCounted, Progress, Rounds, WindowsCounted;
    hide ControlTold, Checked, VersionInv, TrainerInv;
    hide FoundRoom, FoundNoneCancelled, Counted, Read;
    if es == [] {
      NothingTold(c, version, first);
    } else {
      var before, e := es[..|es| - 1], es[|es| - 1];
      var s := Run(c, Init(version, first), before).value;
      StateAsTold(c, version, first, before);
      KnownInvariants(c, version, first, before);
      ToldStep(c, version, first, es);
      VersionsStep(c, version, es, s, e);
      ProgressStep(c, es, s, e);
      RoundsStep(c, es, s, e);
      WindowsStep(c, version, es, s, e);
      CheckedStep(c, version, first, es);
    }
    HandshakeOf(version, es, Run(c, Init(version, first), es).value);
  }

  // ------------------------------------------------ what an event may rely on

  predicate NeedsLock(e: Event) {
    || e == Proc(ProcSetPaused) || e == Proc(ProcWaitBegin) || e == Proc(ProcResumed) || e == Proc(Submit)
    || e == Task(MonitorWrite)
    || e == Train(PauseBegin) || e == Train(UpdateBegin) || e == Train(ResumeGeneration)
  }

  /** Whatever happens after any run, the lock is respected; nothing starts while the rollouter is
      paused; the processor pauses only after a check that found no room; a check comes after every
      earlier pause was waited out and every sample taken was submitted; a pending sample is taken
      only after a check that found room and no cancelled sample; and a pause, like the end marker,
      waits for every task. */
  lemma Discipline(c: Config, version: int, first: nat, es: seq<Event>, e: Event)
    requires c.Valid() && Run(c, Init(version, first), es).Some?
    requires Enabled(c, Run(c, Init(version, first), es).value, e)
    ensures NeedsLock(e) ==> Holder(es) == Free
    ensures e == Proc(ProcWaitEnd) ==> Holder(es) == ByProcessor
    ensures e == Train(PauseEnd) ==> Holder(es) == ByPause
    ensures e == Train(UpdateReadQueue) || e == Train(UpdateWrite) ==> Holder(es) == ByUpdate
    ensures e == Proc(Submit) || e == Proc(ProcResumed) ==> !Paused(es)
    ensures e == Proc(Submit) || e == Proc(PopPending) ==> FoundRoom(c, Init(version, first), es)
    ensures e == Proc(ProcSetPaused) || e == Proc(ProcDrained) || e == Proc(ProcResumed) ==> !FoundRoom(c, Init(version, first), es)
    ensures e == Proc(PopPending) ==> FoundNoneCancelled(c, Init(version, first), es)
    ensures e == Task(MonitorTest) ==>
              Times(es, Train(PauseEnd)) == Times(es, Train(ResumeGeneration))
              && |Run(c, Init(version, first), es).value.mq.queue| < c.maxRequired && Counted(c, Init(version, first), es) < c.maxRequired
    ensures e == Proc(ProcCheck) ==>
              Times(es, Proc(ProcSetPaused)) == Times(es, Proc(ProcDrained)) == Times(es, Proc(ProcResumed))
              && Times(es, e) == Times(es, Proc(ProcResumed)) + Times(es, Proc(Submit))
    ensures e == Train(PauseEnd) || e == Proc(FinalPut) || e == Proc(ProcDrained) ==> Ended(es) == Times(es, Proc(Submit))
    ensures e == Proc(ProcWaitEnd) ==> Uncollected(es) > 0
    ensures Times(es, Proc(Submit)) - Ended(es) + Uncollected(es) <= c.maxConcurrent
  {
    hide Run, Times, Holder, Paused, Ended, Uncollected, Counted, Read, FoundRoom, FoundNoneCancelled, MonitorWaits;
    hide Handshake, PauseProgress, UpdateProgress, VersionsCounted, TrainerInv;
    StateAsTold(c, version, first, es);
    KnownInvariants(c, version, first, es);
  }

  /** With a timely monitor no weights are replaced under a running task. */
  lemma SynchronisedWhileIdle(c: Config, version: int, first: nat, es: seq<Event>)
    requires c.Valid() && Run(c, Init(version, first), es).Some? && Always(c, Init(version, first), es, TimelyMonitor)
    requires Enabled(c, Run(c, Init(version, first), es).value, Train(SyncWeights))
    ensures Ended(es) == Times(es, Proc(Submit))
  {
    StateAsTold(c, version, first, es);
    TimelyMonitorBound(c, version, first, es);
  }

  // ------------------------------------------------ the calls on the message queue

  /** The calls that the message queue received. A finished sample carries the version that was last
      announced to the rollouter. */
  function QueueCalls(version: int, es: seq<Event>): seq<Call<Message>> {
    if es == [] then []
    else
      var before := es[..|es| - 1];
      QueueCalls(version, before)
      + match es[|es| - 1]
        case Task(TaskFinish(id)) => [Put(Rollout(id, version + Times(before, Train(UpdateBegin))))]
        case Proc(FinalPut) => [Put(Final)]
        case Train(GetSample) => [Get]
        case _ => []
  }

  /** The version of the trainer each time it took something from the queue. */
  function TakenAt(version: int, es: seq<Event>): seq<int> {
    if es == [] then []
    else
      var before := es[..|es| - 1];
      TakenAt(version, before) + (if es[|es| - 1] == Train(GetSample) then [version + Times(before, Train(SyncWeights))] else [])
  }

  /** The trainer consumed `taken`, one message at each of the versions `at`. */
  ghost predicate Given(taken: seq<Message>, at: seq<int>, consumed: seq<Use>, sawFinal: bool) {
    && |taken| == |at| == |consumed| + (if sawFinal then 1 else 0)
    && (forall i :: 0 <= i < |consumed| ==>
          taken[i] == Rollout(consumed[i].id, consumed[i].stamp) && at[i] == consumed[i].version)
    && (sawFinal ==> taken[|consumed|] == Final)
  }

  /** What the queue's history says of the state. */
  ghost predicate LogTells(log: Log<Message>, at: seq<int>, s: State) {
    && log.queue == s.mq.queue
    && DroppedOf(log.departed) == s.mq.dropped
    && Given(ConsumedOf(log.departed), at, s.trainer.consumed, s.trainer.sawFinal)
  }

  /** The call that an event makes. */
  function CallOf(s: State, e: Event): Option<Call<Message>> {
    match e
    case Task(TaskFinish(id)) => Some(Put(Rollout(id, s.ctl.version)))
    case Proc(FinalPut) => Some(Put(Final))
    case Train(GetSample) => Some(Get)
    case _ => None
  }

  /** The history of the queue after such a call, if there is one. */
  function Logged(capacity: nat, log: Log<Message>, call: Option<Call<Message>>): Log<Message>
    requires capacity >= 1
  {
    if call.None? then log
    else
      match Apply(capacity, log, call.value)
      case None => log
      case Some(after) => after
  }

  lemma PutTells(c: Config, log: Log<Message>, q: Mq, m: Message)
    requires c.Valid() && log.queue == q.queue && DroppedOf(log.departed) == q.dropped
    ensures var r := Apply(c.maxRequired, log, Put(m)).value;
            && r.queue == PutMessage(c, q, m).queue && DroppedOf(r.departed) == PutMessage(c, q, m).dropped
            && ConsumedOf(r.departed) == ConsumedOf(log.departed)
  {
    if |log.queue| >= c.maxRequired {
      ItemsSnoc(log.departed, Dropped(log.queue[0]));
    } else {
      assert log.departed + [] == log.departed;
    }
  }

  lemma QuietTells(c: Config, s: State, e: Event)
    requires c.Valid() && Enabled(c, s, e) && CallOf(s, e).None?
    ensures var t := Next(c, s, e);
            t.mq == s.mq && t.trainer.consumed == s.trainer.consumed && t.trainer.sawFinal == s.trainer.sawFinal
  {
  }

  lemma GetTells(c: Config, log: Log<Message>, at: seq<int>, s: State)
    requires c.Valid() && TrainEnabled(c, s, GetSample) && LogTells(log, at, s) && TrainerInv(c, s.trainer)
    ensures Apply(c.maxRequired, log, Get).Some?
    ensures LogTells(Apply(c.maxRequired, log, Get).value, at + [s.trainer.version], TrainNext(c, s, GetSample))
  {
    ItemsSnoc(log.departed, Consumed(s.mq.queue[0]));
  }

  lemma LogStep(c: Config, log: Log<Message>, at: seq<int>, s: State, e: Event)
    requires c.Valid() && Enabled(c, s, e) && LogTells(log, at, s) && TrainerInv(c, s.trainer)
    ensures var call := CallOf(s, e);
            && (call.Some? ==> Apply(c.maxRequired, log, call.value).Some?)
            && LogTells(Logged(c.maxRequired, log, call),
                        at + (if e == Train(GetSample) then [s.trainer.version] else []), Next(c, s, e))
  {
    assert at + [] == at;
    match e
    case Task(TaskFinish(id)) => PutTells(c, log, s.mq, Rollout(id, s.ctl.version));
    case Proc(FinalPut) => PutTells(c, log, s.mq, Final);
    case Train(GetSample) => GetTells(c, log, at, s);
    case _ => QuietTells(c, s, e);
  }

  lemma ReplaySnoc(capacity: nat, calls: seq<Call<Message>>, call: Call<Message>)
    requires capacity >= 1 && Replay(capacity, calls).Some?
    ensures Replay(capacity, calls + [call]) == Apply(capacity, Replay(capacity, calls).value, call)
  {
    assert (calls + [call])[..|calls|] == calls;
  }

  lemma CallsSnoc(version: int, es: seq<Event>, s: State)
    requires es != [] && VersionsCounted(version, es[..|es| - 1], s)
    ensures var before, call := es[..|es| - 1], CallOf(s, es[|es| - 1]);
            QueueCalls(version, es) == QueueCalls(version, before) + (if call.Some? then [call.value] else [])
  {
    hide Times;
  }

  lemma TakenAtSnoc(version: int, es: seq<Event>, s: State)
    requires es != [] && VersionsCounted(version, es[..|es| - 1], s) && (es[|es| - 1] == Train(GetSample) ==> !s.trainer.Syncs())
    ensures TakenAt(version, es) ==
            TakenAt(version, es[..|es| - 1]) + (if es[|es| - 1] == Train(GetSample) then [s.trainer.version] else [])
  {
    hide Times;
  }

  lemma QueueStep(c: Config, version: int, es: seq<Event>, s: State)
    requires c.Valid() && es != [] && Enabled(c, s, es[|es| - 1])
    requires VersionsCounted(version, es[..|es| - 1], s) && TrainerInv(c, s.trainer)
    requires Replay(c.maxRequired, QueueCalls(version, es[..|es| - 1])).Some?
    requires LogTells(Replay(c.maxRequired, QueueCalls(version, es[..|es| - 1])).value, TakenAt(version, es[..|es| - 1]), s)
    ensures Replay(c.maxRequired, QueueCalls(version, es)).Some?
    ensures LogTells(Replay(c.maxRequired, QueueCalls(version, es)).value, TakenAt(version, es), Next(c, s, es[|es| - 1]))
  {
    hide Next, LogTells, QueueCalls, TakenAt, CallOf, Apply, VersionsCounted, TrainerInv;
    var before, e := es[..|es| - 1], es[|es| - 1];
    CallsSnoc(version, es, s);
    TakenAtSnoc(version, es, s);
    LogStep(c, Replay(c.maxRequired, QueueCalls(version, before)).value, TakenAt(version, before), s, e);
    if CallOf(s, e).Some? {
      ReplaySnoc(c.maxRequired, QueueCalls(version, before), CallOf(s, e).value);
    } else {
      assert QueueCalls(version, es) == QueueCalls(version, before);
    }
  }

  /** The message queue holds and has dropped what the calls leave, and the trainer was given what
      they delivered, in order, each sample with the version that was announced when it was finished
      and used at the version that counting the synchronisations gives. */
  lemma {:induction false} QueueAsTold(c: Config, version: int, first: nat, es: seq<Event>)
    requires c.Valid() && Run(c, Init(version, first), es).Some?
    ensures Replay(c.maxRequired, QueueCalls(version, es)).Some?
    ensures LogTells(Replay(c.maxRequired, QueueCalls(version, es)).value, TakenAt(version, es), Run(c, Init(version, first), es).value)
  {
    hide Replay, LogTells, QueueCalls, TakenAt, VersionInv, VersionsCounted, TrainerInv, ControlTold, Progress, Checked;
    if es == [] {
      NoCalls(c, version, first);
    } else {
      var before := es[..|es| - 1];
      QueueAsTold(c, version, first, before);
      StateAsTold(c, version, first, before);
      KnownInvariants(c, version, first, before);
      QueueStep(c, version, es, Run(c, Init(version, first), before).value);
    }
  }

  lemma NoCalls(c: Config, version: int, first: nat)
    requires c.Valid()
    ensures Replay(c.maxRequired, QueueCalls(version, [])).Some?
    ensures LogTells(Replay(c.maxRequired, QueueCalls(version, [])).value, TakenAt(version, []), Init(version, first))
  {
  }

  /** One more event is one more call, or none. */
  lemma LoggedStep(c: Config, version: int, first: nat, es: seq<Event>)
    requires c.Valid() && es != [] && Run(c, Init(version, first), es).Some?
    ensures var before := es[..|es| - 1];
            && Replay(c.maxRequired, QueueCalls(version, before)).Some?
            && Replay(c.maxRequired, QueueCalls(version, es)) ==
               Some(Logged(c.maxRequired, Replay(c.maxRequired, QueueCalls(version, before)).value,
                           CallOf(Run(c, Init(version, first), before).value, es[|es| - 1])))
  {
    hide QueueCalls, CallOf, LogTells, TakenAt, Next, VersionsCounted, ControlTold, Progress, Checked;
    var before := es[..|es| - 1];
    var s := Run(c, Init(version, first), before).value;
    QueueAsTold(c, version, first, before);
    QueueAsTold(c, version, first, es);
    StateAsTold(c, version, first, before);
    CallsSnoc(version, es, s);
    if CallOf(s, es[|es| - 1]).Some? {
      ReplaySnoc(c.maxRequired, QueueCalls(version, before), CallOf(s, es[|es| - 1]).value);
    } else {
      assert QueueCalls(version, es) == QueueCalls(version, before);
    }
  }
}
