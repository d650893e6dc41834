/** No actor is ever blocked for good by the protocol itself: whoever holds the lock can give it back,
    and when the lock is free every actor can go on unless it waits for what another has to deliver.
    While no announcement is pending, the trainer can always move again except in the states that
    Starvation calls stuck. */
module AsyncProgress {
  import opened Options
  import opened AsyncProtocol
  import opened Staleness
  import AsyncHistory
  import opened AsyncWitness
  import opened Starvation
  import Conservation
  import InFlight

  /** Who holds the lock has something to wait for or to do. */
  ghost predicate LockInv(c: Config, s: State) {
    && (s.ctl.lock == ByProcessor ==> WaitsForTasks(c, s.tasks))
    && (s.ctl.lock == ByUpdate <==> s.update.ReadTasks? || s.update.ReadQueue?)
  }

  lemma ProcLockStep(c: Config, s: State, e: ProcEvent)
    requires c.Valid() && LockInv(c, s) && Conservation.HandInv(s.tasks) && ProcEnabled(c, s, e)
    ensures LockInv(c, ProcNext(c, s, e))
  {
  }

  lemma TaskLockStep(c: Config, s: State, e: TaskEvent)
    requires c.Valid() && LockInv(c, s) && TaskEnabled(c, s, e)
    ensures LockInv(c, TaskNext(c, s, e))
  {
  }

  lemma TrainLockStep(c: Config, s: State, e: TrainEvent)
    requires c.Valid() && LockInv(c, s) && VersionInv(s) && TrainEnabled(c, s, e)
    ensures LockInv(c, TrainNext(c, s, e))
  {
  }

  lemma {:induction false} LockHeld(c: Config, version: int, first: nat, es: seq<Event>)
    requires c.Valid() && Run(c, Init(version, first), es).Some?
    ensures LockInv(c, Run(c, Init(version, first), es).value)
  {
    hide LockInv;
    if es == [] {
      LockAtStart(c, version, first);
    } else {
      var before := es[..|es| - 1];
      LockHeld(c, version, first, before);
      Conservation.ExactlyOnePlace(c, version, first, before, 0);
      AsyncHistory.KnownInvariants(c, version, first, before);
      match es[|es| - 1] {
        case Proc(p) => ProcLockStep(c, Run(c, Init(version, first), before).value, p);
        case Task(g) => TaskLockStep(c, Run(c, Init(version, first), before).value, g);
        case Train(t) => TrainLockStep(c, Run(c, Init(version, first), before).value, t);
      }
    }
  }

  lemma LockAtStart(c: Config, version: int, first: nat)
    ensures LockInv(c, Init(version, first))
  {
  }

  /** The next event of whoever holds the lock: a task it waits for ends, or it gives the lock back. */
  lemma LockIsGivenBack(c: Config, version: int, first: nat, es: seq<Event>) returns (e: Event)
    requires c.Valid() && Run(c, Init(version, first), es).Some?
    requires Run(c, Init(version, first), es).value.ctl.lock != Free
    ensures Enabled(c, Run(c, Init(version, first), es).value, e)
    ensures AsyncHistory.Ends(e) || e == Proc(ProcWaitEnd) || e == Train(PauseEnd) || e == Train(UpdateReadQueue) || e == Train(UpdateWrite)
  {
    var s := Run(c, Init(version, first), es).value;
    LockHeld(c, version, first, es);
    AsyncHistory.KnownInvariants(c, version, first, es);
    hide Run, TrainerInv, InFlight.Inv;
    match s.ctl.lock {
      case ByProcessor =>
        if s.tasks.uncollected > 0 {
          e := Proc(ProcWaitEnd);
        } else {
          var id :| id in s.tasks.running;
          e := Task(TaskFinish(id));
        }
      case ByPause =>
        if |s.tasks.running| == 0 {
          e := Train(PauseEnd);
        } else {
          var id :| id in s.tasks.running;
          e := Task(TaskFinish(id));
        }
      case ByUpdate =>
        e := if s.update.ReadTasks? then Train(UpdateReadQueue) else Train(UpdateWrite);
    }
  }

  /** The processor waits for a pending sample, or for a resumption. */
  predicate ProcessorWaits(c: Config, s: State) {
    || (s.tasks.proc == WaitPending && s.feed.pending == [])
    || (s.tasks.proc == WaitResume && s.ctl.paused)
    || (s.tasks.proc == Holding && s.tasks.Active() < c.maxConcurrent && s.ctl.paused)
  }

  predicate IsFeed(e: ProcEvent) { e == FeedSample || e == FeedExhausted || e == FeedDone }

  /** When the lock is free the processor can go on, unless it waits for a sample or a resumption or
      has exited. */
  lemma ProcessorGoesOn(c: Config, version: int, first: nat, es: seq<Event>) returns (e: ProcEvent)
    requires c.Valid() && Run(c, Init(version, first), es).Some?
    requires var s := Run(c, Init(version, first), es).value; s.ctl.lock == Free && s.tasks.proc != Exited && !ProcessorWaits(c, s)
    ensures ProcEnabled(c, Run(c, Init(version, first), es).value, e) && !IsFeed(e)
  {
    var s := Run(c, Init(version, first), es).value;
    Conservation.ExactlyOnePlace(c, version, first, es, 0);
    hide Run;
    e := match s.tasks.proc
         case Top => ProcCheck
         case SetPaused => ProcSetPaused
         case Draining => if s.tasks.Active() > 0 then ProcWaitBegin else ProcDrained
         case WaitResume => ProcResumed
         case WaitPending => PopPending
         case Holding => if s.tasks.Active() >= c.maxConcurrent then ProcWaitBegin else Submit
         case FinalDrain => if s.tasks.Active() > 0 then ProcWaitBegin else FinalPut
         case Exited => FinalPut;
  }

  /** The feeder can go on as long as the pending queue has room. */
  lemma FeederGoesOn(c: Config, s: State) returns (e: ProcEvent)
    requires s.feed.feeder != Fed && |s.feed.pending| < PENDING_CAPACITY
    ensures ProcEnabled(c, s, e) && IsFeed(e)
  {
    e := if s.feed.feeder == Feeding then FeedSample else FeedDone;
  }

  /** The trainer waits for a sample, for the last announcement, or for the tasks that a pause awaits. */
  predicate TrainerWaits(s: State) {
    || (s.trainer.phase == Collecting && s.mq.queue == [])
    || ((s.trainer.phase == WaitLast || s.trainer.phase == Ending) && s.update != NoUpdate)
    || (s.trainer.phase == Pausing && |s.tasks.running| > 0)
  }

  predicate IsUpdate(e: TrainEvent) { e == UpdateBegin || e == UpdateReadQueue || e == UpdateWrite || e == ResumeGeneration }

  /** When the lock is free or its own, the trainer can go on, unless it waits or has stopped; and so can
      an announcement that is pending. */
  lemma TrainerGoesOn(c: Config, version: int, first: nat, es: seq<Event>) returns (e: TrainEvent)
    requires c.Valid() && Run(c, Init(version, first), es).Some?
    requires var s := Run(c, Init(version, first), es).value;
             (s.ctl.lock == Free || s.ctl.lock == ByPause) && s.trainer.phase != Stopped && !TrainerWaits(s)
    ensures TrainEnabled(c, Run(c, Init(version, first), es).value, e) && !IsUpdate(e)
  {
    var s := Run(c, Init(version, first), es).value;
    AsyncHistory.KnownInvariants(c, version, first, es);
    hide Run, TrainerInv, InFlight.Inv;
    e := match s.trainer.phase
         case Collecting => GetSample
         case Training => TrainStep
         case WaitLast => WaitedLast
         case CallPause => PauseBegin
         case Pausing => PauseEnd
         case Syncing => SyncWeights
         case Ending => FinalSync
         case Stopped => FinalStop;
  }

  lemma AnnouncementGoesOn(c: Config, version: int, first: nat, es: seq<Event>) returns (e: TrainEvent)
    requires c.Valid() && Run(c, Init(version, first), es).Some?
    requires var s := Run(c, Init(version, first), es).value; (s.ctl.lock == Free || s.ctl.lock == ByUpdate) && s.update != NoUpdate
    ensures TrainEnabled(c, Run(c, Init(version, first), es).value, e) && IsUpdate(e)
  {
    var s := Run(c, Init(version, first), es).value;
    LockHeld(c, version, first, es);
    hide Run;
    e := match s.update
         case Queued(_) => UpdateBegin
         case ReadTasks(_, _) => UpdateReadQueue
         case ReadQueue(_, _) => UpdateWrite
         case _ => ResumeGeneration;
  }

  // ------------------------------------------------ Stuck is exact

  /** Between synchronisations the monitor is at work, and a pause is one that the processor asked for. */
  ghost predicate PauseInv(s: State) {
    && (s.ctl.monitorTrigger <==> s.update == NoUpdate && s.trainer.phase != Syncing)
    && (s.ctl.paused ==> s.trainer.phase == Pausing || Refusing(s) || s.tasks.proc == Draining || s.tasks.proc == WaitResume)
  }

  lemma ProcPauseStep(c: Config, s: State, e: ProcEvent)
    requires c.Valid() && PauseInv(s) && ProcEnabled(c, s, e)
    ensures PauseInv(ProcNext(c, s, e))
  {
  }

  lemma TaskPauseStep(c: Config, s: State, e: TaskEvent)
    requires c.Valid() && PauseInv(s) && TaskEnabled(c, s, e)
    ensures PauseInv(TaskNext(c, s, e))
  {
  }

  lemma TrainPauseStep(c: Config, s: State, e: TrainEvent)
    requires c.Valid() && PauseInv(s) && VersionInv(s) && TrainEnabled(c, s, e)
    ensures PauseInv(TrainNext(c, s, e))
  {
  }

  lemma {:induction false} PauseHolds(c: Config, version: int, first: nat, es: seq<Event>)
    requires c.Valid() && Run(c, Init(version, first), es).Some?
    ensures PauseInv(Run(c, Init(version, first), es).value)
  {
    hide PauseInv, VersionInv;
    if es == [] {
      PauseAtStart(version, first);
    } else {
      var before := es[..|es| - 1];
      PauseHolds(c, version, first, before);
      AsyncHistory.KnownInvariants(c, version, first, before);
      match es[|es| - 1] {
        case Proc(p) => ProcPauseStep(c, Run(c, Init(version, first), before).value, p);
        case Task(g) => TaskPauseStep(c, Run(c, Init(version, first), before).value, g);
        case Train(t) => TrainPauseStep(c, Run(c, Init(version, first), before).value, t);
      }
    }
  }

  lemma PauseAtStart(version: int, first: nat)
    ensures PauseInv(Init(version, first))
  {
  }

  ghost predicate Known(c: Config, s: State) {
    && LockInv(c, s) && PauseInv(s) && VersionInv(s) && TrainerInv(c, s.trainer)
    && Conservation.HandInv(s.tasks) && Conservation.MarkerInPending(s) && Conservation.MarkerInQueue(s)
  }

  lemma ReachedIsKnown(k: Setup, s: State)
    requires k.c.Valid() && k.Reached(s)
    ensures Known(k.c, s)
  {
    hide LockInv, PauseInv, VersionInv, TrainerInv, Conservation.HandInv, Conservation.MarkerInPending, Conservation.MarkerInQueue;
    var es :| k.RunTo(es, s);
    LockHeld(k.c, k.version, k.first, es);
    PauseHolds(k.c, k.version, k.first, es);
    AsyncHistory.KnownInvariants(k.c, k.version, k.first, es);
    Conservation.EndAccountsForAll(k.c, k.version, k.first, es, 0);
  }

  /** No weights are being replaced and no version is being announced. */
  predicate Quiet(s: State) { s.update == NoUpdate && s.trainer.phase != Stopped }

  // How far the rollouter is from giving the trainer a sample: whether nothing is generated yet, how
  // much is running, and where the processor is.
  function Far(s: State): nat {
    if s.trainer.phase == Collecting && s.mq.queue == [] && |s.tasks.running| == 0 then 1 else 0
  }

  function Stage(s: State): nat {
    4 * (match s.tasks.proc
         case SetPaused => 6
         case Draining => 5
         case WaitResume => 4
         case Top => 3
         case WaitPending => 2
         case Exited => 0
         case _ => 1)
    + (if s.ctl.lock == ByProcessor then 1
       else if s.tasks.proc == WaitResume then if s.ctl.paused then 1 else 0
       else if s.tasks.proc == WaitPending then if s.feed.pending == [] then 1 else 0
       else if s.tasks.uncollected > 0 then 2 else 0)
  }

  predicate Nearer(t: State, s: State) {
    || Far(t) < Far(s)
    || (Far(t) == Far(s) && |t.tasks.running| < |s.tasks.running|)
    || (Far(t) == Far(s) && |t.tasks.running| == |s.tasks.running| && Stage(t) < Stage(s))
  }

  /** The trainer has moved, or is nearer to it. */
  ghost predicate Helps(k: Setup, s: State, e: Event)
    requires k.c.Valid()
  {
    && Enabled(k.c, s, e) && Permits(k.mode, s, e)
    && var t := Next(k.c, s, e);
       t.trainer != s.trainer || (Quiet(t) && !Stuck(k.c, t) && Nearer(t, s))
  }

  /** The processor collects the tasks that have ended. */
  lemma Unlock(k: Setup, s: State) returns (e: Event)
    requires k.c.Valid() && Known(k.c, s) && Quiet(s) && s.ctl.lock == ByProcessor && |s.tasks.running| == 0
    requires !Stuck(k.c, s)
    ensures Helps(k, s, e)
  {
    e := Proc(ProcWaitEnd);
  }

  /** A task that runs ends. */
  lemma Finish(k: Setup, s: State) returns (e: Event)
    requires k.c.Valid() && Known(k.c, s) && Quiet(s) && s.trainer.phase != Syncing && |s.tasks.running| > 0
    requires s.trainer.phase != Collecting || s.mq.queue == []
    ensures Helps(k, s, e)
  {
    var id :| id in s.tasks.running;
    e := Task(TaskFinish(id));
  }

  /** The queue is empty and nothing is generated: the processor brings the next sample on its way. */
  lemma Bring(k: Setup, s: State) returns (e: Event)
    requires k.c.Valid() && Known(k.c, s) && Quiet(s) && !Stuck(k.c, s) && s.ctl.lock == Free
    requires s.trainer.phase == Collecting && s.mq.queue == [] && |s.tasks.running| == 0
    ensures Helps(k, s, e)
  {
    e := match s.tasks.proc
         case Top => Proc(ProcCheck)
         case SetPaused => Proc(ProcSetPaused)
         case Draining => Proc(if s.tasks.Active() > 0 then ProcWaitBegin else ProcDrained)
         case WaitResume =>
           if !s.ctl.paused then Proc(ProcResumed)
           else Task(if s.ctl.monitorArmed then MonitorWrite else MonitorTest)
         case WaitPending =>
           Proc(if s.feed.pending != [] then PopPending else if s.feed.feeder == Feeding then FeedSample else FeedDone)
         case Holding => Proc(if s.tasks.Active() >= k.c.maxConcurrent then ProcWaitBegin else Submit)
         case _ => Proc(if s.tasks.Active() > 0 then ProcWaitBegin else FinalPut);
  }

  lemma HelpfulEvent(k: Setup, s: State) returns (e: Event)
    requires k.c.Valid() && Known(k.c, s) && Quiet(s) && !Stuck(k.c, s)
    ensures Helps(k, s, e)
  {
    match s.trainer.phase {
      case Training => e := Train(TrainStep);
      case WaitLast => e := Train(WaitedLast);
      case Syncing => e := Train(SyncWeights);
      case Ending => e := Train(FinalStop);
      case CallPause =>
        if s.ctl.lock == Free {
          e := Train(PauseBegin);
        } else if |s.tasks.running| > 0 {
          e := Finish(k, s);
        } else {
          e := Unlock(k, s);
        }
      case Pausing =>
        if |s.tasks.running| > 0 {
          e := Finish(k, s);
        } else {
          e := Train(PauseEnd);
        }
      case _ =>
        if s.mq.queue != [] {
          e := Train(GetSample);
        } else if |s.tasks.running| > 0 {
          e := Finish(k, s);
        } else if s.ctl.lock == Free {
          e := Bring(k, s);
        } else {
          e := Unlock(k, s);
        }
    }
  }

  /** A continuation, among the runs considered, in which the trainer moves. */
  ghost predicate Moves(k: Setup, s: State, es: seq<Event>)
    requires k.c.Valid()
  {
    && Run(k.c, s, es).Some? && Always(k.c, s, es, k.Ok())
    && Run(k.c, s, es).value.trainer != s.trainer
  }

  lemma {:induction false} RunCons(c: Config, s: State, e: Event, es: seq<Event>)
    requires c.Valid() && Enabled(c, s, e)
    ensures Run(c, s, [e] + es) == Run(c, Next(c, s, e), es)
  {
    var all := [e] + es;
    if es == [] {
      assert all[..0] == [] && all == [e];
    } else {
      var before := es[..|es| - 1];
      RunCons(c, s, e, before);
      assert all[..|all| - 1] == [e] + before;
    }
  }

  lemma AlwaysCons(c: Config, s: State, e: Event, es: seq<Event>, ok: (State, Event) -> bool)
    requires c.Valid() && Enabled(c, s, e) && ok(s, e) && Always(c, Next(c, s, e), es, ok)
    ensures Always(c, s, [e] + es, ok)
  {
    var all := [e] + es;
    forall i | 0 <= i < |all| && Run(c, s, all[..i]).Some?
      ensures ok(Run(c, s, all[..i]).value, all[i])
    {
      if i > 0 {
        assert all[..i] == [e] + es[..i - 1];
        RunCons(c, s, e, es[..i - 1]);
      }
    }
  }

  lemma {:induction false} GetsOn(k: Setup, s: State) returns (es: seq<Event>)
    requires k.c.Valid() && k.Reached(s) && Quiet(s) && !Stuck(k.c, s)
    ensures Moves(k, s, es)
    decreases Far(s), |s.tasks.running|, Stage(s)
  {
    hide Stuck, Quiet, Enabled, Next, Known, Far, Stage;
    ReachedIsKnown(k, s);
    var e := HelpfulEvent(k, s);
    var t := Go(k, s, e);
    if t.trainer != s.trainer {
      es := [e];
      RunCons(k.c, s, e, []);
      AlwaysCons(k.c, s, e, [], k.Ok());
      assert [e] + [] == [e];
    } else {
      var rest := GetsOn(k, t);
      es := [e] + rest;
      RunCons(k.c, s, e, rest);
      AlwaysCons(k.c, s, e, rest, k.Ok());
    }
  }

  /** In every mode, while no announcement is pending, the states from which the trainer can never
      move again are exactly the stuck ones. */
  lemma StuckIsExact(k: Setup, s: State)
    requires k.c.Valid() && k.Reached(s) && s.update == NoUpdate && s.trainer.phase != Stopped
    ensures Stuck(k.c, s) <==> !exists es :: Moves(k, s, es)
  {
    if Stuck(k.c, s) {
      forall es
        ensures !Moves(k, s, es)
      {
        if Moves(k, s, es) { StuckForEver(k.c, s, es); }
      }
    } else {
      var es := GetsOn(k, s);
    }
  }
}
