/** How many samples can be between the pending queue and the trainer, although the reset of
    `staleness_samples` does not see the sample that the processor holds. */
module InFlight {
  import opened Options
  import opened AsyncProtocol

  /** The reset reads tasks first and the queue later; what it reads can only be too much, except
      for an item in the processor's hand and the end marker put in between. */
  ghost predicate ResetCovers(s: State) {
    match s.update
    case ReadTasks(_, n) => s.ctl.lock == ByUpdate && |s.tasks.running| + |s.tasks.cancelQueue| <= n
    case ReadQueue(_, n) =>
      && s.ctl.lock == ByUpdate
      && |s.tasks.running| + |s.tasks.cancelQueue| + |s.mq.queue| <= n + (if s.tasks.proc == Exited then 1 else 0)
    case _ => true
  }

  ghost predicate Inv(c: Config, s: State) {
    && (s.tasks.hand.Some? <==> s.tasks.Holds())
    && ResetCovers(s)
    && |s.mq.queue| <= c.maxRequired
    && s.ctl.usedAtReset <= |s.trainer.consumed|
    && s.SinceReset() <= s.ctl.staleness + 1
    && s.SinceReset() <= c.maxRequired + 1
    && (s.tasks.proc == WaitPending ==> s.SinceReset() <= c.maxRequired)
  }

  lemma FeedInvStep(c: Config, s: State, e: ProcEvent)
    requires c.Valid() && Inv(c, s) && ProcEnabled(c, s, e) && (e == FeedSample || e == FeedExhausted || e == FeedDone)
    ensures Inv(c, ProcNext(c, s, e))
  {
  }

  lemma WaitInvStep(c: Config, s: State, e: ProcEvent)
    requires c.Valid() && Inv(c, s) && ProcEnabled(c, s, e)
    requires e == ProcSetPaused || e == ProcWaitBegin || e == ProcWaitEnd || e == ProcDrained || e == ProcResumed
    ensures Inv(c, ProcNext(c, s, e))
  {
  }

  lemma ItemInvStep(c: Config, s: State, e: ProcEvent)
    requires c.Valid() && Inv(c, s) && ProcEnabled(c, s, e) && (e == ProcCheck || e == PopPending || e == Submit)
    ensures Inv(c, ProcNext(c, s, e))
  {
  }

  lemma FinalInvStep(c: Config, s: State)
    requires c.Valid() && Inv(c, s) && ProcEnabled(c, s, FinalPut)
    ensures Inv(c, ProcNext(c, s, FinalPut))
  {
  }

  lemma ProcInvStep(c: Config, s: State, e: ProcEvent)
    requires c.Valid() && Inv(c, s) && ProcEnabled(c, s, e)
    ensures Inv(c, ProcNext(c, s, e))
  {
    hide Inv, ProcEnabled, ProcNext;
    match e {
      case FeedSample => FeedInvStep(c, s, e);
      case FeedExhausted => FeedInvStep(c, s, e);
      case FeedDone => FeedInvStep(c, s, e);
      case ProcCheck => ItemInvStep(c, s, e);
      case PopPending => ItemInvStep(c, s, e);
      case Submit => ItemInvStep(c, s, e);
      case FinalPut => FinalInvStep(c, s);
      case _ => WaitInvStep(c, s, e);
    }
  }

  lemma TaskInvStep(c: Config, s: State, e: TaskEvent)
    requires c.Valid() && Inv(c, s) && TaskEnabled(c, s, e)
    ensures Inv(c, TaskNext(c, s, e))
  {
  }

  lemma TrainInvStep(c: Config, s: State, e: TrainEvent)
    requires c.Valid() && Inv(c, s) && TrainEnabled(c, s, e)
    ensures Inv(c, TrainNext(c, s, e))
  {
  }

  lemma InvStep(c: Config, s: State, e: Event)
    requires c.Valid() && Inv(c, s) && Enabled(c, s, e)
    ensures Inv(c, Next(c, s, e))
  {
    match e
    case Proc(p) => ProcInvStep(c, s, p);
    case Task(g) => TaskInvStep(c, s, g);
    case Train(t) => TrainInvStep(c, s, t);
  }

  /** In every reachable state the items in flight exceed neither the counter nor the limit by more
      than one. Nothing is assumed about the monitor. */
  lemma {:induction false} InFlightBound(c: Config, version: int, first: nat, es: seq<Event>)
    requires c.Valid() && Run(c, Init(version, first), es).Some?
    ensures var s := Run(c, Init(version, first), es).value;
            && Inv(c, s)
            && s.InFlight() <= s.ctl.staleness + 1
            && s.InFlight() <= c.maxRequired + 1
  {
    if es != [] {
      var before := es[..|es| - 1];
      InFlightBound(c, version, first, before);
      InvStep(c, Run(c, Init(version, first), before).value, es[|es| - 1]);
    }
  }

  // ------------------------------------------------ runs whose resets are exact

  /** No reset of the counter is completed while the processor holds an item. */
  ghost predicate ResetsSeeEverything(s: State, e: Event) {
    e == Train(UpdateWrite) ==> s.tasks.hand == None
  }

  ghost predicate ExactInv(c: Config, s: State) {
    Inv(c, s) && ExactCount(c, s)
  }

  ghost predicate ExactCount(c: Config, s: State) {
    && (s.tasks.proc != Exited ==> s.SinceReset() <= s.ctl.staleness)
    && s.SinceReset() <= c.maxRequired
    && (s.tasks.proc == WaitPending ==> s.SinceReset() < c.maxRequired)
    && s.mq.dropped == []
  }

  lemma ItemExactStep(c: Config, s: State, e: ProcEvent)
    requires c.Valid() && ExactInv(c, s) && ProcEnabled(c, s, e) && MovesItem(e)
    ensures ExactCount(c, ProcNext(c, s, e))
  {
  }

  lemma ProcExactStep(c: Config, s: State, e: ProcEvent)
    requires c.Valid() && ExactInv(c, s) && ProcEnabled(c, s, e)
    ensures ExactCount(c, ProcNext(c, s, e))
  {
    if MovesItem(e) {
      ItemExactStep(c, s, e);
    } else {
      OthersMoveNothing(c, s, e);
      hide ProcNext;
    }
  }

  lemma TaskExactStep(c: Config, s: State, e: TaskEvent)
    requires c.Valid() && ExactInv(c, s) && TaskEnabled(c, s, e)
    ensures ExactCount(c, TaskNext(c, s, e))
  {
  }

  lemma TrainExactStep(c: Config, s: State, e: TrainEvent)
    requires c.Valid() && ExactInv(c, s) && TrainEnabled(c, s, e) && ResetsSeeEverything(s, Train(e))
    ensures ExactCount(c, TrainNext(c, s, e))
  {
  }

  lemma ExactStep(c: Config, s: State, e: Event)
    requires c.Valid() && ExactInv(c, s) && Enabled(c, s, e) && ResetsSeeEverything(s, e)
    ensures ExactInv(c, Next(c, s, e))
  {
    InvStep(c, s, e);
    match e
    case Proc(p) => ProcExactStep(c, s, p);
    case Task(g) => TaskExactStep(c, s, g);
    case Train(t) => TrainExactStep(c, s, t);
  }

  /** In such runs the limit is respected exactly and the queue never drops anything: no sample and
      not the end marker either. */
  lemma {:induction false} ExactResetsNeverDrop(c: Config, version: int, first: nat, es: seq<Event>)
    requires c.Valid() && Run(c, Init(version, first), es).Some?
    requires Always(c, Init(version, first), es, ResetsSeeEverything)
    ensures var s := Run(c, Init(version, first), es).value;
            && ExactInv(c, s)
            && (s.tasks.proc != Exited ==> s.InFlight() <= s.ctl.staleness)
            && s.InFlight() <= c.maxRequired
            && s.mq.dropped == []
  {
    if es != [] {
      var before := es[..|es| - 1];
      AlwaysPrefix(c, Init(version, first), es, ResetsSeeEverything);
      ExactResetsNeverDrop(c, version, first, before);
      ExactStep(c, Run(c, Init(version, first), before).value, es[|es| - 1]);
    }
  }
}
