/** What the configuration promises: the version lag a staleness threshold stands for, how much is
    generated and consumed between two synchronisations, and that threshold 0 is on-policy. */
module Freshness {
  import opened Arith
  import opened AsyncProtocol
  import opened InFlight
  import opened Staleness

  // ------------------------------------------------ staleness_threshold

  /** `set_max_required_samples`; `int` truncates, which is rounding down here. */
  function MaxRequiredSamples(required: nat, threshold: real, trigger: nat): int
    requires threshold >= 0.0
  {
    (required as real * (threshold + 1.0) * trigger as real).Floor
  }

  lemma ScaleReal(w: nat, a: real, b: real)
    requires a <= b
    ensures w as real * a <= w as real * b
  {
  }

  lemma MaxRequiredOfThreshold(c: Config, threshold: real, ceiling: nat)
    requires c.Valid() && 0.0 <= threshold <= ceiling as real
    ensures MaxRequiredSamples(c.requiredSamples, threshold, c.triggerStep) <= c.Window() * (ceiling + 1)
    ensures threshold == ceiling as real ==>
              MaxRequiredSamples(c.requiredSamples, threshold, c.triggerStep) == c.Window() * (ceiling + 1)
  {
    var w := c.Window();
    assert w as real == c.requiredSamples as real * c.triggerStep as real;
    assert c.requiredSamples as real * (threshold + 1.0) * c.triggerStep as real == w as real * (threshold + 1.0);
    ScaleReal(w, threshold + 1.0, (ceiling + 1) as real);
    assert w as real * (ceiling + 1) as real == (w * (ceiling + 1)) as real;
  }

  lemma FloorIs(x: real, n: int)
    requires n as real <= x
    ensures n <= x.Floor
    ensures x.Floor == n <==> x - n as real < 1.0
  {
  }

  lemma LimitAsProduct(c: Config, threshold: real)
    requires 0.0 <= threshold
    ensures var w := c.Window() as real;
            MaxRequiredSamples(c.requiredSamples, threshold, c.triggerStep) == (w + w * threshold).Floor
  {
    var r, t := c.requiredSamples as real, c.triggerStep as real;
    assert c.Window() as real == r * t;
    assert r * (threshold + 1.0) * t == r * t * threshold + r * t;
  }

  /** The limit covers a window, and is just a window exactly for thresholds below 1 / Window. */
  lemma LimitOfThreshold(c: Config, threshold: real)
    requires 0.0 <= threshold
    ensures c.Window() <= MaxRequiredSamples(c.requiredSamples, threshold, c.triggerStep)
    ensures MaxRequiredSamples(c.requiredSamples, threshold, c.triggerStep) == c.Window() <==> c.Window() as real * threshold < 1.0
  {
    hide MaxRequiredSamples;
    var w := c.Window();
    LimitAsProduct(c, threshold);
    ScaleReal(w, 0.0, threshold);
    FloorIs(w as real + w as real * threshold, w);
  }

  /** A threshold t allows at most ceil(t) + 1 versions of lag, and exactly t + 1 when t is whole. */
  lemma LagOfThreshold(c: Config, threshold: real, ceiling: nat)
    requires c.Valid() && 0.0 <= threshold <= ceiling as real
    requires c.maxRequired == MaxRequiredSamples(c.requiredSamples, threshold, c.triggerStep)
    ensures c.MaxLag() <= ceiling + 1
    ensures threshold == ceiling as real ==> c.MaxLag() == ceiling + 1
  {
    MaxLagCovers(c);
    MaxRequiredOfThreshold(c, threshold, ceiling);
    var w := c.Window();
    CancelFactor(w, c.MaxLag() - 1, ceiling + 1);
    if threshold == ceiling as real {
      c.Positive();
      assert w * (ceiling + 1) == w * ceiling + w;
      CancelFactor(w, ceiling, c.MaxLag());
    }
  }

  // ------------------------------------------------ consumption

  /** Until the end marker is seen, the trainer has consumed one whole window for every version made
      since the start, and the samples of the current window. */
  ghost predicate CountInv(c: Config, t: Trainer, version: int) {
    !t.sawFinal ==> |t.consumed| == (t.version - version) * c.Window() + t.InWindow(c)
  }

  lemma CountInvStep(c: Config, s: State, e: TrainEvent, version: int)
    requires c.Valid() && TrainerInv(c, s.trainer) && CountInv(c, s.trainer, version) && TrainEnabled(c, s, e)
    ensures CountInv(c, TrainNext(c, s, e).trainer, version)
  {
    if e == TrainStep {
      InWindowRange(c, s.trainer);
      var v := s.trainer.version - version;
      assert (v + 1) * c.Window() == v * c.Window() + c.Window();
      assert s.trainer.localStep * c.requiredSamples == (s.trainer.localStep - 1) * c.requiredSamples + c.requiredSamples;
    }
  }

  lemma OthersLeaveTrainer(c: Config, s: State, e: Event)
    requires c.Valid() && Enabled(c, s, e) && !e.Train?
    ensures Next(c, s, e).trainer == s.trainer
  {
  }

  lemma CountStep(c: Config, s: State, e: Event, version: int)
    requires c.Valid() && TrainerInv(c, s.trainer) && CountInv(c, s.trainer, version) && Enabled(c, s, e)
    ensures TrainerInv(c, Next(c, s, e).trainer) && CountInv(c, Next(c, s, e).trainer, version)
  {
    if e.Train? {
      TrainerInvStep(c, s, e.t);
      CountInvStep(c, s, e.t, version);
    } else {
      OthersLeaveTrainer(c, s, e);
    }
  }

  /** Every version consumes exactly one window, in every run. */
  lemma {:induction false} ConsumedPerVersion(c: Config, version: int, first: nat, es: seq<Event>)
    requires c.Valid() && Run(c, Init(version, first), es).Some?
    ensures TrainerInv(c, Run(c, Init(version, first), es).value.trainer)
    ensures CountInv(c, Run(c, Init(version, first), es).value.trainer, version)
  {
    if es == [] {
      CountsFromZero(c, version);
    } else {
      var before := es[..|es| - 1];
      ConsumedPerVersion(c, version, first, before);
      CountStep(c, Run(c, Init(version, first), before).value, es[|es| - 1], version);
    }
  }

  lemma CountsFromZero(c: Config, version: int)
    requires c.Valid()
    ensures CountInv(c, Init(version, 0).trainer, version)
  {
    assert (version - version) * c.Window() == 0;
  }

  // ------------------------------------------------ generation between two updates

  ghost predicate TimelyAndExact(s: State, e: Event) {
    TimelyMonitor(s, e) && ResetsSeeEverything(s, e)
  }

  ghost predicate QuotaInv(c: Config, s: State) {
    && s.ctl.staleness == s.ctl.resetTo + s.ctl.generated
    && s.ctl.staleness <= c.maxRequired
    && (s.tasks.proc == WaitPending ==> s.ctl.staleness < c.maxRequired)
    && match s.update
       case ReadTasks(_, n) => n == |s.tasks.cancelQueue|
       case ReadQueue(_, n) => n <= c.maxRequired && (s.tasks.proc == WaitPending ==> n < c.maxRequired)
       case _ => true
  }

  lemma ProcQuotaStep(c: Config, s: State, e: ProcEvent)
    requires c.Valid() && VersionInv(s) && QuietInv(s) && ExactInv(c, s) && QuotaInv(c, s) && ProcEnabled(c, s, e)
    ensures QuotaInv(c, ProcNext(c, s, e))
  {
  }

  lemma TaskQuotaStep(c: Config, s: State, e: TaskEvent)
    requires c.Valid() && VersionInv(s) && QuietInv(s) && ExactInv(c, s) && QuotaInv(c, s) && TaskEnabled(c, s, e)
    ensures QuotaInv(c, TaskNext(c, s, e))
  {
  }

  lemma TrainQuotaStep(c: Config, s: State, e: TrainEvent)
    requires c.Valid() && VersionInv(s) && QuietInv(s) && ExactInv(c, s) && QuotaInv(c, s) && TrainEnabled(c, s, e)
    ensures QuotaInv(c, TrainNext(c, s, e))
  {
  }

  lemma QuotaStep(c: Config, s: State, e: Event)
    requires c.Valid() && VersionInv(s) && QuietInv(s) && ExactInv(c, s) && QuotaInv(c, s) && Enabled(c, s, e)
    ensures QuotaInv(c, Next(c, s, e))
  {
    match e
    case Proc(p) => ProcQuotaStep(c, s, p);
    case Task(g) => TaskQuotaStep(c, s, g);
    case Train(t) => TrainQuotaStep(c, s, t);
  }

  /** Between two resets of the counter the rollouter takes at most
      maxRequired - (samples already in flight at the reset) items from its input. */
  lemma {:induction false} RolloutQuota(c: Config, version: int, first: nat, es: seq<Event>)
    requires c.Valid() && Run(c, Init(version, first), es).Some?
    requires Always(c, Init(version, first), es, TimelyAndExact)
    ensures var s := Run(c, Init(version, first), es).value;
            && TrainerInv(c, s.trainer) && VersionInv(s) && QuietInv(s) && ExactInv(c, s)
            && QuotaInv(c, s)
            && s.ctl.generated <= c.maxRequired - s.ctl.resetTo
  {
    if es != [] {
      var before := es[..|es| - 1];
      AlwaysPrefix(c, Init(version, first), es, TimelyAndExact);
      RolloutQuota(c, version, first, before);
      var s, e := Run(c, Init(version, first), before).value, es[|es| - 1];
      QuotaStep(c, s, e);
      TrainerAndVersionStep(c, s, e);
      QuietInvStep(c, s, e);
      ExactStep(c, s, e);
    }
  }

  // ------------------------------------------------ threshold 0

  /** The old window is used up and the counter has not been reset yet. */
  predicate BetweenWindows(s: State) {
    s.trainer.Syncs() || s.update.Queued? || s.update.ReadTasks? || s.update.ReadQueue?
  }

  ghost predicate CountsMatch(c: Config, s: State) {
    if BetweenWindows(s) then
      && s.InFlight() == 0 && s.trainer.InWindow(c) == 0
      && s.ctl.staleness >= c.maxRequired && s.tasks.proc != WaitPending
      && (s.update.ReadTasks? || s.update.ReadQueue? ==> s.update.count == 0)
      && (s.update == NoUpdate || s.update.Resuming? || s.trainer.phase == Collecting)
      && (s.trainer.phase == Syncing || s.update.Queued? ==> s.tasks.uncollected == 0)
    else
      && s.ctl.staleness == s.InFlight() + s.trainer.InWindow(c) <= c.maxRequired
      && (s.tasks.proc == WaitPending ==> s.ctl.staleness < c.maxRequired)
  }

  ghost predicate OnPolicyQueue(queue: seq<Message>, version: int) {
    forall i :: 0 <= i < |queue| && queue[i].Rollout? ==> queue[i].stamp == version
  }

  ghost predicate OnPolicyInv(c: Config, s: State) {
    && InFlight.Inv(c, s)
    && (!s.trainer.sawFinal ==> CountsMatch(c, s) && OnPolicyQueue(s.mq.queue, s.trainer.version))
    && FreshUses(s.trainer.consumed, 0)
  }

  lemma TrainStepCounts(c: Config, s: State)
    requires c.Valid() && c.maxRequired == c.Window()
    requires TrainerInv(c, s.trainer) && VersionInv(s) && OnPolicyInv(c, s) && TrainEnabled(c, s, TrainStep)
    ensures CountsMatch(c, TrainNext(c, s, TrainStep))
  {
    InWindowRange(c, s.trainer);
    assert s.trainer.localStep * c.requiredSamples == (s.trainer.localStep - 1) * c.requiredSamples + c.requiredSamples;
  }

  lemma ProcCountsMatch(c: Config, s: State, e: ProcEvent)
    requires c.Valid() && TrainerInv(c, s.trainer) && OnPolicyInv(c, s) && ProcEnabled(c, s, e) && !s.trainer.sawFinal
    ensures CountsMatch(c, ProcNext(c, s, e))
  {
    InWindowRange(c, s.trainer);
    hide Trainer.InWindow, TrainerInv, FreshUses, OnPolicyQueue;
    if !MovesItem(e) {
      OthersMoveNothing(c, s, e);
      hide ProcNext;
    }
  }

  lemma TaskCountsMatch(c: Config, s: State, e: TaskEvent)
    requires c.Valid() && TrainerInv(c, s.trainer) && OnPolicyInv(c, s) && TaskEnabled(c, s, e) && !s.trainer.sawFinal
    ensures CountsMatch(c, TaskNext(c, s, e))
  {
    InWindowRange(c, s.trainer);
  }

  lemma TrainCountsMatch(c: Config, s: State, e: TrainEvent)
    requires c.Valid() && c.maxRequired == c.Window()
    requires TrainerInv(c, s.trainer) && VersionInv(s) && OnPolicyInv(c, s) && TrainEnabled(c, s, e)
    ensures !TrainNext(c, s, e).trainer.sawFinal ==> CountsMatch(c, TrainNext(c, s, e))
  {
    InWindowRange(c, s.trainer);
    if e == TrainStep { TrainStepCounts(c, s); }
  }

  lemma TaskStampsMatch(c: Config, s: State, e: TaskEvent)
    requires c.Valid() && VersionInv(s) && OnPolicyInv(c, s) && TaskEnabled(c, s, e) && !s.trainer.sawFinal
    ensures OnPolicyQueue(TaskNext(c, s, e).mq.queue, s.trainer.version)
  {
    if e.TaskFinish? { assert |s.tasks.running| >= 1; }
  }

  lemma TrainStampsMatch(c: Config, s: State, e: TrainEvent)
    requires c.Valid() && c.maxRequired == c.Window()
    requires TrainerInv(c, s.trainer) && VersionInv(s) && OnPolicyInv(c, s) && TrainEnabled(c, s, e)
    ensures var t := TrainNext(c, s, e);
            && (!t.trainer.sawFinal ==> OnPolicyQueue(t.mq.queue, t.trainer.version))
            && FreshUses(t.trainer.consumed, 0)
  {
    InWindowRange(c, s.trainer);
  }

  lemma OnPolicyStep(c: Config, s: State, e: Event)
    requires c.Valid() && c.maxRequired == c.Window()
    requires TrainerInv(c, s.trainer) && VersionInv(s) && OnPolicyInv(c, s) && Enabled(c, s, e)
    ensures OnPolicyInv(c, Next(c, s, e))
  {
    InvStep(c, s, e);
    if e.Train? {
      TrainCountsMatch(c, s, e.t);
      TrainStampsMatch(c, s, e.t);
    } else if !s.trainer.sawFinal {
      if e.Proc? {
        ProcCountsMatch(c, s, e.p);
      } else {
        TaskCountsMatch(c, s, e.g);
        TaskStampsMatch(c, s, e.g);
      }
    }
  }

  /** With staleness_threshold 0 training is synchronous, whatever the monitor does: every sample is
      consumed at the version that generated it, and nothing is in flight when the version changes. */
  lemma {:induction false} ThresholdZeroIsOnPolicy(c: Config, version: int, first: nat, es: seq<Event>)
    requires c.Valid() && c.maxRequired == c.Window()
    requires Run(c, Init(version, first), es).Some?
    ensures var s := Run(c, Init(version, first), es).value;
            && TrainerInv(c, s.trainer) && VersionInv(s) && OnPolicyInv(c, s)
            && (forall u :: u in s.trainer.consumed ==> u.stamp == u.version)
            && (!s.trainer.sawFinal && s.trainer.phase == WaitLast ==> s.InFlight() == 0)
  {
    if es == [] {
      c.Positive();
    } else {
      var before := es[..|es| - 1];
      ThresholdZeroIsOnPolicy(c, version, first, before);
      var s, e := Run(c, Init(version, first), before).value, es[|es| - 1];
      TrainerAndVersionStep(c, s, e);
      OnPolicyStep(c, s, e);
    }
  }
}
