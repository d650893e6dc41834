/** Whether the back-pressure can stop the rollouter for ever while the trainer waits for samples. */
module Starvation {
  import opened Options
  import opened AsyncProtocol
  import opened InFlight
  import opened Staleness
  import Freshness

  /** The trainer waits for a sample, none is on its way, no update is pending that could lower the
      counter, and the counter forbids starting one. Cancelled samples may be parked. */
  ghost predicate Stuck(c: Config, s: State) {
    && !s.trainer.sawFinal && s.trainer.phase == Collecting && s.update == NoUpdate
    && |s.tasks.running| == 0 && s.tasks.hand == None && s.mq.queue == []
    && s.ctl.staleness >= c.maxRequired
    && s.tasks.proc != WaitPending && s.tasks.proc != Exited && !s.tasks.Holds()
  }

  lemma StuckStep(c: Config, s: State, e: Event)
    requires c.Valid() && Stuck(c, s) && Enabled(c, s, e)
    ensures Stuck(c, Next(c, s, e)) && Next(c, s, e).trainer == s.trainer
  {
    match e
    case Proc(p) =>
    case Task(g) =>
    case Train(t) =>
  }

  /** Such a state is final: whatever happens, the trainer never gets another sample. */
  lemma {:induction false} StuckForEver(c: Config, s: State, es: seq<Event>)
    requires c.Valid() && Stuck(c, s) && Run(c, s, es).Some?
    ensures Stuck(c, Run(c, s, es).value) && Run(c, s, es).value.trainer == s.trainer
  {
    if es != [] {
      var before := es[..|es| - 1];
      StuckForEver(c, s, before);
      StuckStep(c, Run(c, s, before).value, es[|es| - 1]);
    }
  }

  // ------------------------------------------------ with a timely monitor

  /** What is in flight, and what the current window has consumed. */
  function Supply(c: Config, s: State): int { s.InFlight() + s.trainer.InWindow(c) }

  /** The counter exceeds the supply by at most one. */
  ghost predicate NearCount(c: Config, s: State) {
    !s.trainer.sawFinal && !s.trainer.Syncs() ==>
      match s.update
      case Queued(_) => true
      case ReadTasks(_, _) => true
      case ReadQueue(_, n) => n <= Supply(c, s) + 1
      case _ => s.ctl.staleness <= Supply(c, s) + 1
  }

  ghost predicate NearLimit(c: Config, s: State) {
    && s.ctl.staleness <= c.maxRequired + 1
    && (s.tasks.proc == WaitPending ==> s.ctl.staleness <= c.maxRequired)
    && match s.update
       case ReadTasks(_, n) => n == |s.tasks.cancelQueue|
       case ReadQueue(_, n) => n <= c.maxRequired + 1 && (s.tasks.proc == WaitPending ==> n <= c.maxRequired)
       case _ => true
  }

  ghost predicate Base(c: Config, s: State) {
    TrainerInv(c, s.trainer) && VersionInv(s) && InFlight.Inv(c, s)
  }

  lemma BaseStep(c: Config, s: State, e: Event)
    requires c.Valid() && Base(c, s) && Enabled(c, s, e)
    ensures Base(c, Next(c, s, e))
  {
    TrainerAndVersionStep(c, s, e);
    InvStep(c, s, e);
  }

  /** What the trainer's events do to the number of samples consumed in the current window. */
  lemma WindowKept(c: Config, s: State, e: TrainEvent)
    requires c.Valid() && TrainerInv(c, s.trainer) && TrainEnabled(c, s, e)
    ensures var t := TrainNext(c, s, e).trainer;
            && (t.sawFinal || t.Syncs() || t.InWindow(c) == s.trainer.InWindow(c) + (if e == GetSample then 1 else 0))
            && (t.phase == WaitLast ==> t.InWindow(c) == 0)
            && (e == TrainStep && t.phase == WaitLast ==> s.trainer.InWindow(c) == c.Window())
  {
    assert s.trainer.localStep * c.requiredSamples == (s.trainer.localStep - 1) * c.requiredSamples + c.requiredSamples;
    if e == TrainStep { InWindowRange(c, s.trainer); }
  }

  /** What the processor does to the supply: only taking a new item adds to it, and only a put that
      drops takes from it, which leaves a full queue. */
  lemma ProcSupply(c: Config, s: State, e: ProcEvent)
    requires c.Valid() && Base(c, s) && ProcEnabled(c, s, e)
    ensures var t := ProcNext(c, s, e);
            && (Supply(c, t) == Supply(c, s) + (if e == PopPending then 1 else 0)
                || (e == FinalPut && Supply(c, t) >= c.maxRequired))
            && |t.mq.queue| >= |s.mq.queue| && t.trainer == s.trainer && t.update == s.update
  {
    InWindowRange(c, s.trainer);
    hide Trainer.InWindow, TrainerInv, VersionInv;
    if MovesItem(e) {
      ItemSupply(c, s, e);
    } else {
      OthersMoveNothing(c, s, e);
      hide ProcNext;
    }
  }

  lemma ItemSupply(c: Config, s: State, e: ProcEvent)
    requires c.Valid() && InFlight.Inv(c, s) && ProcEnabled(c, s, e) && MovesItem(e)
    ensures var t := ProcNext(c, s, e);
            && (t.InFlight() == s.InFlight() + (if e == PopPending then 1 else 0)
                || (e == FinalPut && t.InFlight() >= c.maxRequired))
            && t.InFlight() <= s.InFlight() + (if e == PopPending then 1 else 0)
            && |t.mq.queue| >= |s.mq.queue| && t.trainer == s.trainer && t.update == s.update
  {
    if e == FinalPut {
      var t := ProcNext(c, s, e);
      assert t.InFlight() >= |t.mq.queue|;
    }
  }

  lemma ProcNearStep(c: Config, s: State, e: ProcEvent)
    requires c.Valid() && Base(c, s) && QuietInv(s) && NearLimit(c, s) && NearCount(c, s) && ProcEnabled(c, s, e)
    ensures NearLimit(c, ProcNext(c, s, e)) && NearCount(c, ProcNext(c, s, e))
  {
    ProcSupply(c, s, e);
    hide Supply, TrainerInv, InFlight.Inv;
  }

  lemma TaskNearStep(c: Config, s: State, e: TaskEvent)
    requires c.Valid() && Base(c, s) && QuietInv(s) && NearLimit(c, s) && NearCount(c, s) && TaskEnabled(c, s, e)
    ensures NearLimit(c, TaskNext(c, s, e)) && NearCount(c, TaskNext(c, s, e))
  {
    InWindowRange(c, s.trainer);
  }

  lemma TrainNearStep(c: Config, s: State, e: TrainEvent)
    requires c.Valid() && Base(c, s) && QuietInv(s) && NearLimit(c, s) && NearCount(c, s) && TrainEnabled(c, s, e)
    ensures NearLimit(c, TrainNext(c, s, e)) && NearCount(c, TrainNext(c, s, e))
  {
    InWindowRange(c, s.trainer);
    WindowKept(c, s, e);
    hide Trainer.InWindow, TrainerInv;
  }

  lemma NearStep(c: Config, s: State, e: Event)
    requires c.Valid() && Base(c, s) && QuietInv(s) && NearLimit(c, s) && NearCount(c, s) && Enabled(c, s, e)
    ensures NearLimit(c, Next(c, s, e)) && NearCount(c, Next(c, s, e))
  {
    match e
    case Proc(p) => ProcNearStep(c, s, p);
    case Task(g) => TaskNearStep(c, s, g);
    case Train(t) => TrainNearStep(c, s, t);
  }

  lemma {:induction false} TimelyCounts(c: Config, version: int, first: nat, es: seq<Event>)
    requires c.Valid() && Run(c, Init(version, first), es).Some?
    requires Always(c, Init(version, first), es, TimelyMonitor)
    ensures var s := Run(c, Init(version, first), es).value;
            Base(c, s) && QuietInv(s) && NearLimit(c, s) && NearCount(c, s)
  {
    if es != [] {
      var before := es[..|es| - 1];
      AlwaysPrefix(c, Init(version, first), es, TimelyMonitor);
      TimelyCounts(c, version, first, before);
      var s, e := Run(c, Init(version, first), before).value, es[|es| - 1];
      BaseStep(c, s, e);
      QuietInvStep(c, s, e);
      NearStep(c, s, e);
    }
  }

  /** With a timely monitor and a limit that covers a window, the back-pressure never holds when the
      trainer has used up everything in flight: resets that miss the sample in hand and samples that
      were dropped do not change this. */
  lemma TimelyNeverStarves(c: Config, version: int, first: nat, es: seq<Event>)
    requires c.Valid() && c.Window() <= c.maxRequired && Run(c, Init(version, first), es).Some?
    requires Always(c, Init(version, first), es, TimelyMonitor)
    ensures var s := Run(c, Init(version, first), es).value;
            !s.trainer.sawFinal && s.trainer.phase == Collecting && s.update == NoUpdate && s.InFlight() == 0 ==>
              s.ctl.staleness < c.maxRequired
  {
    var s := Run(c, Init(version, first), es).value;
    TimelyCounts(c, version, first, es);
    if s.trainer.phase == Collecting { NotYetFull(c, s.trainer); }
    if c.maxRequired == c.Window() { Freshness.ThresholdZeroIsOnPolicy(c, version, first, es); }
  }

  // ------------------------------------------------ without cancellation, with any monitor

  lemma ActiveStep(c: Config, s: State, e: Event)
    requires c.Valid() && s.tasks.Active() <= c.maxConcurrent && Enabled(c, s, e)
    ensures Next(c, s, e).tasks.Active() <= c.maxConcurrent
  {
    match e
    case Proc(p) => ActiveProcStep(c, s, p);
    case Task(g) =>
    case Train(t) =>
  }

  lemma ActiveProcStep(c: Config, s: State, e: ProcEvent)
    requires c.Valid() && s.tasks.Active() <= c.maxConcurrent && ProcEnabled(c, s, e)
    ensures ProcNext(c, s, e).tasks.Active() <= c.maxConcurrent
  {
    if e == Submit {
      var t := ProcNext(c, s, e).tasks;
      assert |t.running| == |s.tasks.running| + 1;
    }
  }

  lemma NoneCancelled(c: Config, s: State, e: Event)
    requires c.Valid() && s.tasks.cancelQueue == [] && Enabled(c, s, e) && !IsCancel(e)
    ensures Next(c, s, e).tasks.cancelQueue == []
  {
  }

  /** What the counter may be: a finished task that is not collected yet is counted twice while its
      sample is in the queue or in the current window. */
  ghost predicate Covered(c: Config, s: State, n: nat) {
    n <= 2 * Supply(c, s) && n <= Supply(c, s) + c.maxConcurrent
  }

  ghost predicate DebtOf(c: Config, s: State) {
    match s.update
    case Queued(_) => s.tasks.uncollected <= |s.mq.queue| + s.trainer.InWindow(c)
    case ReadTasks(_, n) => n <= Supply(c, s) && n <= c.maxConcurrent
    case ReadQueue(_, n) => Covered(c, s, n)
    case _ =>
      if s.trainer.phase == Syncing then s.tasks.uncollected <= |s.mq.queue| + s.trainer.InWindow(c)
      else Covered(c, s, s.ctl.staleness)
  }

  ghost predicate DebtInv(c: Config, s: State) {
    && s.tasks.cancelQueue == []
    && s.tasks.Active() <= c.maxConcurrent
    && (!s.trainer.sawFinal && (s.trainer.phase == Syncing || !s.trainer.Syncs()) ==>
          c.maxRequired <= Supply(c, s) || DebtOf(c, s))
  }

  lemma ProcDebtStep(c: Config, s: State, e: ProcEvent)
    requires c.Valid() && Base(c, s) && DebtInv(c, s) && ProcEnabled(c, s, e)
    ensures DebtInv(c, ProcNext(c, s, e))
  {
    ProcSupply(c, s, e);
    ActiveStep(c, s, Proc(e));
    hide Supply, TrainerInv, VersionInv, Trainer.InWindow;
    if !MovesItem(e) {
      OthersMoveNothing(c, s, e);
      hide ProcNext;
    }
  }

  /** A put that drops leaves a full queue; any other adds to the queue what it adds to the debt. */
  lemma TaskDebtStep(c: Config, s: State, e: TaskEvent)
    requires c.Valid() && Base(c, s) && DebtInv(c, s) && TaskEnabled(c, s, e) && !e.TaskCancel?
    ensures DebtInv(c, TaskNext(c, s, e))
  {
    InWindowRange(c, s.trainer);
    hide Trainer.InWindow, TrainerInv;
    if e.TaskFinish? {
      var t := TaskNext(c, s, e);
      if |s.mq.queue| >= c.maxRequired {
        assert Supply(c, t) >= |t.mq.queue| == c.maxRequired;
      } else {
        assert Supply(c, t) == Supply(c, s);
      }
    }
  }

  lemma TrainDebtStep(c: Config, s: State, e: TrainEvent)
    requires c.Valid() && Base(c, s) && DebtInv(c, s) && TrainEnabled(c, s, e)
    ensures DebtInv(c, TrainNext(c, s, e))
  {
    InWindowRange(c, s.trainer);
    WindowKept(c, s, e);
    hide Trainer.InWindow, TrainerInv;
  }

  lemma {:induction false} DebtBound(c: Config, version: int, first: nat, es: seq<Event>)
    requires c.Valid() && Run(c, Init(version, first), es).Some?
    requires Always(c, Init(version, first), es, (s, e) => !IsCancel(e))
    ensures Base(c, Run(c, Init(version, first), es).value) && DebtInv(c, Run(c, Init(version, first), es).value)
  {
    if es != [] {
      var before := es[..|es| - 1];
      AlwaysPrefix(c, Init(version, first), es, (s, e) => !IsCancel(e));
      DebtBound(c, version, first, before);
      var s, e := Run(c, Init(version, first), before).value, es[|es| - 1];
      BaseStep(c, s, e);
      match e
      case Proc(p) => ProcDebtStep(c, s, p);
      case Task(g) => TaskDebtStep(c, s, g);
      case Train(t) => TrainDebtStep(c, s, t);
    }
  }

  // ------------------------------------------------ with cancellation, whatever the monitor and the resets do

  /** Unfinished samples that the processor does not hold. */
  function Unfinished(s: State): nat { |s.tasks.running| + |s.tasks.cancelQueue| }

  /** How many samples can be unfinished at a time. */
  ghost predicate FewUnfinished(c: Config, s: State) {
    && s.tasks.Active() <= c.maxConcurrent
    && Unfinished(s) + (if s.tasks.proc == Holding then 1 else 0) <= c.maxConcurrent + 1
    && (s.tasks.proc == WaitPending ==> Unfinished(s) <= c.maxConcurrent)
  }

  /** The counter exceeds the supply by no more than the tasks that a reset counts again. */
  ghost predicate LooseCount(c: Config, s: State) {
    !s.trainer.sawFinal && !s.trainer.Syncs() && Supply(c, s) < c.maxRequired ==>
      match s.update
      case Queued(_) => true
      case ReadTasks(_, n) => n <= c.maxConcurrent + |s.tasks.cancelQueue| + (if s.tasks.proc == Holding then 1 else 0)
      case ReadQueue(_, n) => n <= Supply(c, s) + c.maxConcurrent
      case _ => s.ctl.staleness <= Supply(c, s) + c.maxConcurrent
  }

  lemma ProcUnfinishedStep(c: Config, s: State, e: ProcEvent)
    requires c.Valid() && InFlight.Inv(c, s) && FewUnfinished(c, s) && ProcEnabled(c, s, e)
    ensures FewUnfinished(c, ProcNext(c, s, e))
  {
    ActiveStep(c, s, Proc(e));
    if !MovesItem(e) {
      OthersMoveNothing(c, s, e);
      hide ProcNext;
    }
  }

  lemma UnfinishedStep(c: Config, s: State, e: Event)
    requires c.Valid() && InFlight.Inv(c, s) && FewUnfinished(c, s) && Enabled(c, s, e)
    ensures FewUnfinished(c, Next(c, s, e))
  {
    ActiveStep(c, s, e);
    match e
    case Proc(p) => ProcUnfinishedStep(c, s, p);
    case Task(g) =>
    case Train(t) =>
  }

  lemma ProcLooseStep(c: Config, s: State, e: ProcEvent)
    requires c.Valid() && Base(c, s) && LooseCount(c, s) && ProcEnabled(c, s, e)
    ensures LooseCount(c, ProcNext(c, s, e))
  {
    ProcSupply(c, s, e);
    hide Supply, TrainerInv, VersionInv;
  }

  lemma TaskLooseStep(c: Config, s: State, e: TaskEvent)
    requires c.Valid() && Base(c, s) && LooseCount(c, s) && TaskEnabled(c, s, e)
    ensures LooseCount(c, TaskNext(c, s, e))
  {
    InWindowRange(c, s.trainer);
    hide Trainer.InWindow, TrainerInv;
  }

  lemma TrainLooseStep(c: Config, s: State, e: TrainEvent)
    requires c.Valid() && Base(c, s) && FewUnfinished(c, s) && LooseCount(c, s) && TrainEnabled(c, s, e)
    ensures LooseCount(c, TrainNext(c, s, e))
  {
    InWindowRange(c, s.trainer);
    WindowKept(c, s, e);
    hide Trainer.InWindow, TrainerInv;
  }

  lemma {:induction false} LooseBound(c: Config, version: int, first: nat, es: seq<Event>)
    requires c.Valid() && Run(c, Init(version, first), es).Some?
    ensures var s := Run(c, Init(version, first), es).value; Base(c, s) && FewUnfinished(c, s) && LooseCount(c, s)
  {
    if es != [] {
      var before := es[..|es| - 1];
      LooseBound(c, version, first, before);
      var s, e := Run(c, Init(version, first), before).value, es[|es| - 1];
      BaseStep(c, s, e);
      UnfinishedStep(c, s, e);
      match e
      case Proc(p) => ProcLooseStep(c, s, p);
      case Task(g) => TaskLooseStep(c, s, g);
      case Train(t) => TrainLooseStep(c, s, t);
    }
  }

  // ------------------------------------------------ with cancellation and a timely monitor

  ghost predicate TimelyPartialEvent(s: State, e: Event) {
    PartialEvent(s, e) && TimelyMonitor(s, e)
  }

  /** The resets are exact as well. */
  ghost predicate OrderlyEvent(s: State, e: Event) {
    TimelyPartialEvent(s, e) && ResetsSeeEverything(s, e)
  }

  /** What the window that is being used, or that was just used up, has consumed. */
  function Spent(c: Config, t: Trainer): int {
    if t.phase == WaitLast || t.phase == CallPause then c.Window() else t.InWindow(c)
  }

  /** A version waits to be announced. */
  predicate Announcing(s: State) { s.update.Queued? || s.update.ReadTasks? || s.update.ReadQueue? }

  predicate Halted(s: State) { s.trainer.phase == Pausing || s.trainer.phase == Syncing || Announcing(s) }

  /** The end marker has not reached the processor. */
  predicate Working(s: State) { s.tasks.proc != FinalDrain && s.tasks.proc != Exited }

  /** `limit` is maxRequired if the resets are exact, and one more in general. */
  ghost predicate TimelyBase(c: Config, s: State, limit: nat) {
    && Base(c, s) && QuietInv(s) && NearLimit(c, s) && FewUnfinished(c, s)
    && s.SinceReset() <= limit
    && (s.tasks.proc == WaitPending ==> s.SinceReset() < limit)
  }

  /** While a version waits to be announced, and afterwards as long as a cancelled sample is parked,
      what is in flight and what the window has consumed are together within the limit. */
  ghost predicate WithinLimit(c: Config, s: State, limit: nat) {
    Announcing(s) || (!Halted(s) && s.tasks.cancelQueue != []) ==>
      && s.InFlight() + Spent(c, s.trainer) <= limit
      && (s.tasks.proc == WaitPending ==> s.InFlight() + Spent(c, s.trainer) < limit)
  }

  /** At most maxConcurrent samples are parked, or so few are in flight that a window is missing. */
  ghost predicate FewParked(c: Config, s: State, limit: nat) {
    Working(s) ==>
      if Halted(s) then
        || Unfinished(s) <= c.maxConcurrent
        || (if s.update.ReadQueue? then s.update.count else s.InFlight()) + c.Window() <= limit
      else
        s.tasks.cancelQueue != [] ==> |s.tasks.cancelQueue| <= c.maxConcurrent || s.ctl.staleness + c.Window() <= limit
  }

  /** The counter is within the supply, unless a sample was dropped; then the queue was full. */
  ghost predicate CountWithin(c: Config, s: State) {
    !s.trainer.Syncs() && |s.mq.queue| + s.trainer.InWindow(c) < c.maxRequired ==>
      match s.update
      case Queued(_) => true
      case ReadTasks(_, _) => true
      case ReadQueue(_, n) => n <= Supply(c, s)
      case _ => s.ctl.staleness <= Supply(c, s)
  }

  ghost predicate ParkInv(c: Config, s: State, limit: nat) {
    !s.trainer.sawFinal ==> WithinLimit(c, s, limit) && FewParked(c, s, limit) && CountWithin(c, s)
  }

  lemma ProcWithinLimit(c: Config, s: State, e: ProcEvent, limit: nat)
    requires c.Valid() && TimelyBase(c, s, limit) && WithinLimit(c, s, limit) && ProcEnabled(c, s, e)
    ensures WithinLimit(c, ProcNext(c, s, e), limit)
  {
    hide Spent, TrainerInv;
    if MovesItem(e) {
      ItemWithinLimit(c, s, e, limit);
    } else {
      OthersMoveNothing(c, s, e);
      hide ProcNext;
    }
  }

  lemma ItemWithinLimit(c: Config, s: State, e: ProcEvent, limit: nat)
    requires c.Valid() && InFlight.Inv(c, s) && WithinLimit(c, s, limit) && ProcEnabled(c, s, e) && MovesItem(e)
    requires Announcing(s) ==> s.ctl.paused
    ensures WithinLimit(c, ProcNext(c, s, e), limit)
  {
    ItemSupply(c, s, e);
    hide Spent, InFlight.Inv;
  }

  lemma ProcCountWithin(c: Config, s: State, e: ProcEvent)
    requires c.Valid() && Base(c, s) && CountWithin(c, s) && ProcEnabled(c, s, e)
    ensures CountWithin(c, ProcNext(c, s, e))
  {
    ProcSupply(c, s, e);
    InWindowRange(c, s.trainer);
    hide Supply, TrainerInv, Trainer.InWindow;
    if e == FinalPut && |s.mq.queue| >= c.maxRequired {
      assert |ProcNext(c, s, e).mq.queue| >= c.maxRequired;
    }
  }

  lemma ProcFewParked(c: Config, s: State, e: ProcEvent, limit: nat)
    requires c.Valid() && TimelyBase(c, s, limit) && FewParked(c, s, limit) && ProcEnabled(c, s, e)
    ensures FewParked(c, ProcNext(c, s, e), limit)
  {
    hide Trainer.InWindow, TrainerInv, NearLimit;
    if !MovesItem(e) {
      OthersMoveNothing(c, s, e);
      hide ProcNext;
    }
  }

  lemma TaskWithinLimit(c: Config, s: State, e: TaskEvent, limit: nat)
    requires c.Valid() && TimelyBase(c, s, limit) && ParkInv(c, s, limit) && TaskEnabled(c, s, e)
    requires TimelyPartialEvent(s, Task(e)) && !s.trainer.sawFinal
    ensures WithinLimit(c, TaskNext(c, s, e), limit) && CountWithin(c, TaskNext(c, s, e))
  {
    InWindowRange(c, s.trainer);
    hide Trainer.InWindow, TrainerInv, FewParked;
  }

  lemma TaskFewParked(c: Config, s: State, e: TaskEvent, limit: nat)
    requires c.Valid() && TimelyBase(c, s, limit) && ParkInv(c, s, limit) && TaskEnabled(c, s, e)
    requires TimelyPartialEvent(s, Task(e)) && !s.trainer.sawFinal
    ensures FewParked(c, TaskNext(c, s, e), limit)
  {
    hide Trainer.InWindow, TrainerInv, CountWithin;
  }

  lemma TrainWithinLimit(c: Config, s: State, e: TrainEvent, limit: nat)
    requires c.Valid() && TimelyBase(c, s, limit) && ParkInv(c, s, limit) && TrainEnabled(c, s, e)
    requires !s.trainer.sawFinal && !TrainNext(c, s, e).trainer.sawFinal
    ensures WithinLimit(c, TrainNext(c, s, e), limit) && CountWithin(c, TrainNext(c, s, e))
  {
    InWindowRange(c, s.trainer);
    WindowKept(c, s, e);
    hide Trainer.InWindow, TrainerInv, FewParked;
  }

  lemma TrainFewParked(c: Config, s: State, e: TrainEvent, limit: nat)
    requires c.Valid() && TimelyBase(c, s, limit) && ParkInv(c, s, limit) && TrainEnabled(c, s, e)
    requires !s.trainer.sawFinal
    ensures FewParked(c, TrainNext(c, s, e), limit)
  {
    hide Trainer.InWindow, TrainerInv, CountWithin;
  }

  lemma ParkStep(c: Config, s: State, e: Event, limit: nat)
    requires c.Valid() && TimelyBase(c, s, limit) && ParkInv(c, s, limit) && Enabled(c, s, e) && TimelyPartialEvent(s, e)
    ensures ParkInv(c, Next(c, s, e), limit)
  {
    hide WithinLimit, FewParked, CountWithin;
    if !Next(c, s, e).trainer.sawFinal {
      FinalIsForEver(c, s, e);
      match e {
        case Proc(p) =>
          ProcWithinLimit(c, s, p, limit);
          ProcCountWithin(c, s, p);
          ProcFewParked(c, s, p, limit);
        case Task(g) =>
          TaskWithinLimit(c, s, g, limit);
          TaskFewParked(c, s, g, limit);
        case Train(t) =>
          TrainWithinLimit(c, s, t, limit);
          TrainFewParked(c, s, t, limit);
      }
    }
  }

  lemma FinalIsForEver(c: Config, s: State, e: Event)
    requires c.Valid() && Enabled(c, s, e)
    ensures s.trainer.sawFinal ==> Next(c, s, e).trainer.sawFinal
  {
  }

  lemma {:induction false} TimelyParkBound(c: Config, version: int, first: nat, es: seq<Event>)
    requires c.Valid() && Run(c, Init(version, first), es).Some?
    requires Always(c, Init(version, first), es, TimelyPartialEvent)
    ensures var s := Run(c, Init(version, first), es).value;
            TimelyBase(c, s, c.maxRequired + 1) && ParkInv(c, s, c.maxRequired + 1)
  {
    AlwaysWeaker(c, Init(version, first), es, TimelyPartialEvent, TimelyMonitor);
    TimelyCounts(c, version, first, es);
    LooseBound(c, version, first, es);
    if es != [] {
      var before := es[..|es| - 1];
      AlwaysPrefix(c, Init(version, first), es, TimelyPartialEvent);
      TimelyParkBound(c, version, first, before);
      ParkStep(c, Run(c, Init(version, first), before).value, es[|es| - 1], c.maxRequired + 1);
    }
  }

  lemma {:induction false} OrderlyParkBound(c: Config, version: int, first: nat, es: seq<Event>)
    requires c.Valid() && Run(c, Init(version, first), es).Some?
    requires Always(c, Init(version, first), es, OrderlyEvent)
    ensures var s := Run(c, Init(version, first), es).value;
            TimelyBase(c, s, c.maxRequired) && ParkInv(c, s, c.maxRequired)
  {
    AlwaysWeaker(c, Init(version, first), es, OrderlyEvent, TimelyMonitor);
    AlwaysWeaker(c, Init(version, first), es, OrderlyEvent, ResetsSeeEverything);
    TimelyCounts(c, version, first, es);
    ExactResetsNeverDrop(c, version, first, es);
    LooseBound(c, version, first, es);
    if es != [] {
      var before := es[..|es| - 1];
      AlwaysPrefix(c, Init(version, first), es, OrderlyEvent);
      OrderlyParkBound(c, version, first, before);
      ParkStep(c, Run(c, Init(version, first), before).value, es[|es| - 1], c.maxRequired);
    }
  }

  // ------------------------------------------------ with cancellation and threshold 0

  ghost predicate ZeroBase(c: Config, s: State) {
    Base(c, s) && FewUnfinished(c, s) && (!s.trainer.sawFinal ==> Freshness.CountsMatch(c, s))
  }

  /** Between a reset and the end of the resumption nothing is finished or consumed; so the counter
      counts unfinished samples, and as long as one is parked it is no more than these can be. */
  ghost predicate ParkedCount(c: Config, s: State) {
    !s.trainer.sawFinal && Working(s) ==>
      && (s.update == Resuming ==> s.mq.queue == [] && s.trainer.InWindow(c) == 0 && s.trainer.phase == Collecting)
      && (s.tasks.cancelQueue != [] ==>
            && s.ctl.staleness <= c.maxConcurrent + 1
            && (s.tasks.proc == WaitPending ==> s.ctl.staleness <= c.maxConcurrent))
  }

  lemma ProcParkedStep(c: Config, s: State, e: ProcEvent)
    requires c.Valid() && ZeroBase(c, s) && ParkedCount(c, s) && ProcEnabled(c, s, e)
    ensures ParkedCount(c, ProcNext(c, s, e))
  {
    hide Trainer.InWindow, TrainerInv, VersionInv;
    if !MovesItem(e) {
      OthersMoveNothing(c, s, e);
      hide ProcNext;
    }
  }

  lemma TaskParkedStep(c: Config, s: State, e: TaskEvent)
    requires c.Valid() && ZeroBase(c, s) && ParkedCount(c, s) && TaskEnabled(c, s, e) && PartialEvent(s, Task(e))
    ensures ParkedCount(c, TaskNext(c, s, e))
  {
    hide Trainer.InWindow, TrainerInv;
  }

  lemma TrainParkedStep(c: Config, s: State, e: TrainEvent)
    requires c.Valid() && ZeroBase(c, s) && ParkedCount(c, s) && TrainEnabled(c, s, e)
    ensures ParkedCount(c, TrainNext(c, s, e))
  {
    InWindowRange(c, s.trainer);
    WindowKept(c, s, e);
    hide Trainer.InWindow, TrainerInv;
  }

  /** If one task less than the limit can run, the lock is held below the limit only when nothing is
      active. So the monitor never waits for the lock, and nothing runs until the resumption ends. */
  ghost predicate LockedAtLimit(c: Config, s: State) {
    && s.tasks.cancelQueue == [] && !s.ctl.monitorArmed
    && (s.ctl.lock == ByUpdate ==> s.update.ReadTasks? || s.update.ReadQueue?)
    && (s.ctl.lock == ByProcessor ==> s.ctl.staleness >= c.maxRequired)
    && (!Freshness.BetweenWindows(s) ==> s.tasks.uncollected <= |s.mq.queue| + s.trainer.InWindow(c))
    && (s.ctl.paused || s.tasks.proc == SetPaused || s.tasks.proc == Draining ==>
          s.ctl.staleness >= c.maxRequired || s.tasks.Active() == 0)
  }

  ghost predicate ZeroQuiet(c: Config, s: State) {
    !s.trainer.sawFinal && Working(s) ==> QuietInv(s) && LockedAtLimit(c, s)
  }

  lemma ProcLockedStep(c: Config, s: State, e: ProcEvent)
    requires c.Valid() && c.maxRequired <= c.maxConcurrent + 1 && ZeroBase(c, s) && ProcEnabled(c, s, e)
    requires LockedAtLimit(c, s) && QuietInv(s) && !s.trainer.sawFinal && Working(ProcNext(c, s, e))
    ensures LockedAtLimit(c, ProcNext(c, s, e))
  {
    InWindowRange(c, s.trainer);
    hide Trainer.InWindow, TrainerInv;
  }

  lemma TaskLockedStep(c: Config, s: State, e: TaskEvent)
    requires c.Valid() && ZeroBase(c, s) && TaskEnabled(c, s, e) && PartialEvent(s, Task(e))
    requires LockedAtLimit(c, s) && QuietInv(s) && !s.trainer.sawFinal
    ensures LockedAtLimit(c, TaskNext(c, s, e))
  {
    InWindowRange(c, s.trainer);
    hide Trainer.InWindow, TrainerInv;
  }

  lemma TrainLockedStep(c: Config, s: State, e: TrainEvent)
    requires c.Valid() && ZeroBase(c, s) && TrainEnabled(c, s, e)
    requires LockedAtLimit(c, s) && QuietInv(s) && !s.trainer.sawFinal && !TrainNext(c, s, e).trainer.sawFinal
    ensures LockedAtLimit(c, TrainNext(c, s, e))
  {
    InWindowRange(c, s.trainer);
    WindowKept(c, s, e);
    hide Trainer.InWindow, TrainerInv;
  }

  lemma ZeroQuietStep(c: Config, s: State, e: Event)
    requires c.Valid() && c.maxRequired <= c.maxConcurrent + 1 && ZeroBase(c, s) && ZeroQuiet(c, s)
    requires Enabled(c, s, e) && PartialEvent(s, e)
    ensures ZeroQuiet(c, Next(c, s, e))
  {
    var t := Next(c, s, e);
    if !t.trainer.sawFinal && Working(t) {
      FinalIsForEver(c, s, e);
      EndIsForEver(c, s, e);
      QuietInvStep(c, s, e);
      hide LockedAtLimit, ZeroBase;
      match e
      case Proc(p) => ProcLockedStep(c, s, p);
      case Task(g) => TaskLockedStep(c, s, g);
      case Train(x) => TrainLockedStep(c, s, x);
    }
  }

  lemma EndIsForEver(c: Config, s: State, e: Event)
    requires c.Valid() && Enabled(c, s, e)
    ensures Working(Next(c, s, e)) ==> Working(s)
  {
    match e
    case Proc(p) =>
    case Task(g) =>
    case Train(t) =>
  }

  lemma {:induction false} ZeroParkBound(c: Config, version: int, first: nat, es: seq<Event>)
    requires c.Valid() && c.maxRequired == c.Window() && Run(c, Init(version, first), es).Some?
    requires Always(c, Init(version, first), es, PartialEvent)
    ensures var s := Run(c, Init(version, first), es).value;
            ZeroBase(c, s) && ParkedCount(c, s) && (c.maxRequired <= c.maxConcurrent + 1 ==> ZeroQuiet(c, s))
  {
    LooseBound(c, version, first, es);
    Freshness.ThresholdZeroIsOnPolicy(c, version, first, es);
    if es != [] {
      var before := es[..|es| - 1];
      AlwaysPrefix(c, Init(version, first), es, PartialEvent);
      ZeroParkBound(c, version, first, before);
      var s, e := Run(c, Init(version, first), before).value, es[|es| - 1];
      if c.maxRequired <= c.maxConcurrent + 1 { ZeroQuietStep(c, s, e); }
      match e
      case Proc(p) => ProcParkedStep(c, s, p);
      case Task(g) => TaskParkedStep(c, s, g);
      case Train(t) => TrainParkedStep(c, s, t);
    }
  }
}
