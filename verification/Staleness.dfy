/** How many versions old a sample can be when the trainer consumes it. */
module Staleness {
  import opened Arith
  import opened AsyncProtocol
  import opened InFlight

  // ------------------------------------------------ where the versions are

  /** The version that the rollouter has, or is about to have once the pending update runs. */
  function Target(t: Trainer): int {
    if t.Syncs() then t.version - 1 else t.version
  }

  ghost predicate TrainerInv(c: Config, t: Trainer) {
    && 1 <= t.localStep <= c.triggerStep
    && t.collected <= c.requiredSamples
    && (t.phase == Collecting ==> t.collected < c.requiredSamples)
    && (t.phase == Training ==> t.collected == c.requiredSamples)
    && (t.Syncs() ==> t.localStep == 1 && t.collected == 0)
    && (if t.sawFinal then t.phase != Collecting && t.phase != Training else t.phase != Ending && t.phase != Stopped)
  }

  ghost predicate VersionInv(s: State) {
    && (s.trainer.Syncs() && s.trainer.phase != WaitLast ==> s.update == NoUpdate)
    && (s.ctl.lock == ByPause <==> s.trainer.phase == Pausing)
    && match s.update
       case Queued(to) => to == Target(s.trainer) == s.ctl.version + 1 == s.rolloutWeights
       case ReadTasks(to, _) => to == Target(s.trainer) == s.ctl.version == s.rolloutWeights
       case ReadQueue(to, _) => to == Target(s.trainer) == s.ctl.version == s.rolloutWeights
       case _ => Target(s.trainer) == s.ctl.version && (s.trainer.phase != Syncing ==> s.rolloutWeights == s.ctl.version)
  }

  lemma TrainerInvStep(c: Config, s: State, e: TrainEvent)
    requires c.Valid() && TrainerInv(c, s.trainer) && TrainEnabled(c, s, e)
    ensures TrainerInv(c, TrainNext(c, s, e).trainer)
  {
  }

  lemma TrainVersionStep(c: Config, s: State, e: TrainEvent)
    requires c.Valid() && TrainerInv(c, s.trainer) && VersionInv(s) && TrainEnabled(c, s, e)
    ensures VersionInv(TrainNext(c, s, e))
  {
  }

  lemma TrainerAndVersionStep(c: Config, s: State, e: Event)
    requires c.Valid() && TrainerInv(c, s.trainer) && VersionInv(s) && Enabled(c, s, e)
    ensures TrainerInv(c, Next(c, s, e).trainer) && VersionInv(Next(c, s, e))
  {
    match e
    case Train(t) =>
      TrainerInvStep(c, s, t);
      TrainVersionStep(c, s, t);
    case _ =>
  }

  // ------------------------------------------------ the pause during a synchronisation

  /** The monitor un-pauses only while its trigger is still set, that is, its test and its write
      are not separated by the end of a `pause`. */
  ghost predicate TimelyMonitor(s: State, e: Event) {
    e == Task(MonitorWrite) ==> s.ctl.monitorTrigger
  }

  /** From the end of `pause` to `resume` nothing runs and nothing can start. */
  ghost predicate QuietInv(s: State) {
    && (s.trainer.phase == Pausing ==> s.ctl.paused)
    && if s.trainer.phase == Syncing || s.update != NoUpdate then
         s.ctl.paused && |s.tasks.running| == 0 && s.tasks.uncollected == 0 && !s.ctl.monitorTrigger
       else
         s.ctl.monitorTrigger
  }

  lemma QuietInvStep(c: Config, s: State, e: Event)
    requires c.Valid() && VersionInv(s) && QuietInv(s) && Enabled(c, s, e) && TimelyMonitor(s, e)
    ensures QuietInv(Next(c, s, e))
  {
  }

  // ------------------------------------------------ how old the queued samples will be

  /** The sample at position i of the queue is consumed as number InWindow + i of the current
      version's window. This says that it will then be at most `bound` versions old, without
      dividing by the length of a window. */
  ghost predicate FreshAt(c: Config, t: Trainer, i: int, stamp: int, bound: int) {
    t.InWindow(c) + i < c.Window() * (stamp + bound - t.version + 1)
  }

  ghost predicate FreshQueue(c: Config, t: Trainer, queue: seq<Message>, bound: int) {
    forall i :: 0 <= i < |queue| && queue[i].Rollout? ==> FreshAt(c, t, i, queue[i].stamp, bound)
  }

  ghost predicate StampsUpTo(queue: seq<Message>, version: int) {
    forall i :: 0 <= i < |queue| && queue[i].Rollout? ==> queue[i].stamp <= version
  }

  ghost predicate FreshUses(uses: seq<Use>, bound: int) {
    forall i :: 0 <= i < |uses| ==> uses[i].stamp <= uses[i].version <= uses[i].stamp + bound
  }

  ghost predicate FreshInv(c: Config, s: State, bound: int) {
    && |s.mq.queue| <= c.maxRequired
    && StampsUpTo(s.mq.queue, s.ctl.version)
    && (!s.trainer.sawFinal ==> FreshQueue(c, s.trainer, s.mq.queue, bound))
    && FreshUses(s.trainer.consumed, bound)
  }

  /** While an update is pending, everything consumed in the current window was consumed since the
      last reset of the counter. */
  ghost predicate PendingInv(c: Config, s: State) {
    s.update.Queued? && !s.trainer.sawFinal ==>
      |s.trainer.consumed| - s.ctl.usedAtReset
      >= if s.trainer.phase == WaitLast then c.Window() else s.trainer.InWindow(c)
  }

  lemma TrainPendingStep(c: Config, s: State, e: TrainEvent)
    requires c.Valid() && TrainerInv(c, s.trainer) && VersionInv(s) && InFlight.Inv(c, s) && PendingInv(c, s) && TrainEnabled(c, s, e)
    ensures PendingInv(c, TrainNext(c, s, e))
  {
    InWindowRange(c, s.trainer);
    assert s.trainer.localStep * c.requiredSamples == (s.trainer.localStep - 1) * c.requiredSamples + c.requiredSamples;
  }

  lemma PendingInvStep(c: Config, s: State, e: Event)
    requires c.Valid() && TrainerInv(c, s.trainer) && VersionInv(s) && InFlight.Inv(c, s) && PendingInv(c, s) && Enabled(c, s, e)
    ensures PendingInv(c, Next(c, s, e))
  {
    if e.Train? { TrainPendingStep(c, s, e.t); }
  }

  lemma MaxLagCovers(c: Config)
    requires c.Valid()
    ensures c.MaxLag() >= 1
    ensures c.maxRequired <= c.Window() * c.MaxLag()
    ensures c.Window() * (c.MaxLag() - 1) < c.maxRequired
  {
    c.Positive();
    var w, n := c.Window(), c.maxRequired + c.Window() - 1;
    assert n == w * (n / w) + n % w;
    assert c.MaxLag() == n / w;
    assert w * (c.MaxLag() - 1) == w * c.MaxLag() - w;
  }

  lemma InWindowRange(c: Config, t: Trainer)
    requires c.Valid() && TrainerInv(c, t)
    ensures t.collected <= t.InWindow(c) <= c.Window()
    ensures t.phase == Training && t.localStep == c.triggerStep ==> t.InWindow(c) == c.Window()
  {
    var r, l := c.requiredSamples, t.localStep;
    assert (l - 1) * r + r == l * r;
    assert (c.triggerStep - l) * r == c.triggerStep * r - l * r;
    NonPositive(r, l - c.triggerStep);
    NonPositive(r, 1 - l);
  }

  lemma NotYetFull(c: Config, t: Trainer)
    requires c.Valid() && TrainerInv(c, t) && t.phase == Collecting
    ensures t.InWindow(c) < c.Window()
  {
    var r, l := c.requiredSamples, t.localStep;
    assert (l - 1) * r + r == l * r;
    Scale(r, l, c.triggerStep);
  }

  /** When a task may finish: its stamp is the target version, or its sample is among at most
      `limit` that count since the last reset. */
  ghost predicate MayFinish(c: Config, s: State, bound: int, limit: nat) {
    s.update.Queued? ==>
      PendingInv(c, s) && s.SinceReset() <= limit <= c.Window() * bound
  }

  lemma PutIsFresh(c: Config, s: State, id: nat, bound: int, limit: nat)
    requires c.Valid() && TrainerInv(c, s.trainer) && VersionInv(s) && FreshInv(c, s, bound)
    requires c.MaxLag() <= bound && MayFinish(c, s, bound, limit) && id in s.tasks.running
    ensures FreshInv(c, s.(mq := PutMessage(c, s.mq, Rollout(id, s.ctl.version))), bound)
  {
    var stamp := s.ctl.version;
    var q := PutMessage(c, s.mq, Rollout(id, stamp)).queue;
    var dropped := if |s.mq.queue| >= c.maxRequired then 1 else 0;
    forall i | 0 <= i < |q| && q[i].Rollout? && !s.trainer.sawFinal
      ensures FreshAt(c, s.trainer, i, q[i].stamp, bound)
    {
      if i < |q| - 1 {
        assert q[i] == s.mq.queue[i + dropped];
        assert FreshAt(c, s.trainer, i + dropped, q[i].stamp, bound);
      } else {
        assert |s.tasks.running| >= 1;
        LastIsFresh(c, s, i, bound, limit);
      }
    }
    forall i | 0 <= i < |q| && q[i].Rollout?
      ensures q[i].stamp <= stamp
    {
      if i < |q| - 1 { assert q[i] == s.mq.queue[i + dropped]; }
    }
  }

  lemma LastIsFresh(c: Config, s: State, i: int, bound: int, limit: nat)
    requires c.Valid() && TrainerInv(c, s.trainer) && VersionInv(s) && !s.trainer.sawFinal
    requires i < c.maxRequired && i <= |s.mq.queue| && |s.tasks.running| >= 1
    requires c.MaxLag() <= bound && MayFinish(c, s, bound, limit)
    ensures FreshAt(c, s.trainer, i, s.ctl.version, bound)
  {
    MaxLagCovers(c);
    InWindowRange(c, s.trainer);
    var w := c.Window();
    Scale(w, c.MaxLag(), bound);
    assert w * (bound - 1) == w * bound - w;
    assert w * (bound + 1) == w * bound + w;
  }

  lemma FinalPutIsFresh(c: Config, s: State, bound: int)
    requires c.Valid() && FreshInv(c, s, bound)
    ensures FreshInv(c, s.(mq := PutMessage(c, s.mq, Final)), bound)
  {
    var q := PutMessage(c, s.mq, Final).queue;
    var dropped := if |s.mq.queue| >= c.maxRequired then 1 else 0;
    assert forall i :: 0 <= i < |q| - 1 ==> q[i] == s.mq.queue[i + dropped];
    forall i | 0 <= i < |q| && q[i].Rollout? && !s.trainer.sawFinal
      ensures FreshAt(c, s.trainer, i, q[i].stamp, bound)
    {
      assert FreshAt(c, s.trainer, i + dropped, q[i].stamp, bound);
    }
  }

  lemma GetIsFresh(c: Config, s: State, bound: int)
    requires c.Valid() && TrainerInv(c, s.trainer) && VersionInv(s) && FreshInv(c, s, bound)
    requires TrainEnabled(c, s, GetSample)
    ensures FreshInv(c, TrainNext(c, s, GetSample), bound)
  {
    var t := TrainNext(c, s, GetSample);
    var q := s.mq.queue;
    if q[0].Rollout? {
      InWindowRange(c, s.trainer);
      assert FreshAt(c, s.trainer, 0, q[0].stamp, bound);
      var x := q[0].stamp + bound - s.trainer.version + 1;
      if x <= 0 { NonPositive(c.Window(), x); }
      forall i | 0 <= i < |t.mq.queue| && t.mq.queue[i].Rollout?
        ensures FreshAt(c, t.trainer, i, t.mq.queue[i].stamp, bound)
      {
        assert FreshAt(c, s.trainer, i + 1, q[i + 1].stamp, bound);
      }
    }
  }

  /** Finishing a training step counts the same samples in the new window as in the old. */
  lemma TrainIsFresh(c: Config, s: State, bound: int)
    requires c.Valid() && TrainerInv(c, s.trainer) && FreshInv(c, s, bound)
    requires TrainEnabled(c, s, TrainStep)
    ensures FreshInv(c, TrainNext(c, s, TrainStep), bound)
  {
    var t := TrainNext(c, s, TrainStep);
    InWindowRange(c, s.trainer);
    forall i | 0 <= i < |s.mq.queue| && s.mq.queue[i].Rollout?
      ensures FreshAt(c, t.trainer, i, s.mq.queue[i].stamp, bound)
    {
      var stamp := s.mq.queue[i].stamp;
      assert FreshAt(c, s.trainer, i, stamp, bound);
      if s.trainer.localStep < c.triggerStep {
        assert s.trainer.localStep * c.requiredSamples == (s.trainer.localStep - 1) * c.requiredSamples + c.requiredSamples;
      } else {
        var x := stamp + bound - s.trainer.version;
        assert c.Window() * (x + 1) == c.Window() * x + c.Window();
      }
    }
  }

  lemma SyncKeepsFresh(c: Config, s: State, e: TrainEvent, bound: int)
    requires c.Valid() && TrainerInv(c, s.trainer) && VersionInv(s) && FreshInv(c, s, bound) && TrainEnabled(c, s, e)
    requires e != GetSample && e != TrainStep
    ensures FreshInv(c, TrainNext(c, s, e), bound)
  {
    var t := TrainNext(c, s, e);
    if !t.trainer.sawFinal {
      assert t.trainer.InWindow(c) == s.trainer.InWindow(c) && t.trainer.version == s.trainer.version;
      forall i | 0 <= i < |t.mq.queue| && t.mq.queue[i].Rollout?
        ensures FreshAt(c, t.trainer, i, t.mq.queue[i].stamp, bound)
      {
        assert FreshAt(c, s.trainer, i, t.mq.queue[i].stamp, bound);
      }
    }
  }

  lemma TrainFreshStep(c: Config, s: State, e: TrainEvent, bound: int)
    requires c.Valid() && TrainerInv(c, s.trainer) && VersionInv(s) && FreshInv(c, s, bound) && TrainEnabled(c, s, e)
    ensures FreshInv(c, TrainNext(c, s, e), bound)
  {
    match e
    case GetSample => GetIsFresh(c, s, bound);
    case TrainStep => TrainIsFresh(c, s, bound);
    case _ => SyncKeepsFresh(c, s, e, bound);
  }

  lemma TaskFreshStep(c: Config, s: State, e: TaskEvent, bound: int, limit: nat)
    requires c.Valid() && TrainerInv(c, s.trainer) && VersionInv(s) && FreshInv(c, s, bound) && TaskEnabled(c, s, e)
    requires c.MaxLag() <= bound && (e.TaskFinish? ==> MayFinish(c, s, bound, limit))
    ensures FreshInv(c, TaskNext(c, s, e), bound)
  {
    if e.TaskFinish? { PutIsFresh(c, s, e.id, bound, limit); }
  }

  lemma FreshInvStep(c: Config, s: State, e: Event, bound: int, limit: nat)
    requires c.Valid() && TrainerInv(c, s.trainer) && VersionInv(s) && FreshInv(c, s, bound) && Enabled(c, s, e)
    requires c.MaxLag() <= bound && (e.Task? && e.g.TaskFinish? ==> MayFinish(c, s, bound, limit))
    ensures FreshInv(c, Next(c, s, e), bound)
  {
    match e
    case Proc(p) => if p == FinalPut { FinalPutIsFresh(c, s, bound); }
    case Task(g) => TaskFreshStep(c, s, g, bound, limit);
    case Train(t) => TrainFreshStep(c, s, t, bound);
  }

  // ------------------------------------------------ the bounds

  ghost predicate TimelyInv(c: Config, s: State)
    requires c.Valid()
  {
    TrainerInv(c, s.trainer) && VersionInv(s) && QuietInv(s) && FreshInv(c, s, c.MaxLag())
  }

  /** With a timely monitor, in every run every consumed sample is at most
      ceil(maxRequired / (requiredSamples * triggerStep)) versions old; weights are replaced only
      while nothing is generating, and a running task's stamp is the version of its weights. */
  lemma {:induction false} TimelyMonitorBound(c: Config, version: int, first: nat, es: seq<Event>)
    requires c.Valid() && Run(c, Init(version, first), es).Some?
    requires Always(c, Init(version, first), es, TimelyMonitor)
    ensures var s := Run(c, Init(version, first), es).value;
            && TimelyInv(c, s)
            && (forall u :: u in s.trainer.consumed ==> 0 <= u.version - u.stamp <= c.MaxLag())
            && (s.trainer.phase == Syncing ==> |s.tasks.running| == 0)
            && (|s.tasks.running| > 0 ==> s.rolloutWeights == s.ctl.version)
  {
    if es != [] {
      var before := es[..|es| - 1];
      AlwaysPrefix(c, Init(version, first), es, TimelyMonitor);
      TimelyMonitorBound(c, version, first, before);
      var s, e := Run(c, Init(version, first), before).value, es[|es| - 1];
      TrainerAndVersionStep(c, s, e);
      QuietInvStep(c, s, e);
      FreshInvStep(c, s, e, c.MaxLag(), 0);
    }
  }

  /** With `partial_rollout` the bound holds whatever the monitor and the resets do: what starts after
      the end of a pause is cancelled, and gets its stamp when it is resumed. */
  lemma {:induction false} PartialRolloutBound(c: Config, version: int, first: nat, es: seq<Event>)
    requires c.Valid() && Run(c, Init(version, first), es).Some?
    requires Always(c, Init(version, first), es, PartialEvent)
    ensures var s := Run(c, Init(version, first), es).value;
            && TrainerInv(c, s.trainer) && VersionInv(s) && FreshInv(c, s, c.MaxLag())
            && (forall u :: u in s.trainer.consumed ==> 0 <= u.version - u.stamp <= c.MaxLag())
  {
    if es != [] {
      var before := es[..|es| - 1];
      AlwaysPrefix(c, Init(version, first), es, PartialEvent);
      PartialRolloutBound(c, version, first, before);
      var s, e := Run(c, Init(version, first), before).value, es[|es| - 1];
      TrainerAndVersionStep(c, s, e);
      FreshInvStep(c, s, e, c.MaxLag(), 0);
    }
  }

  ghost predicate AnyMonitorInv(c: Config, s: State, bound: int) {
    TrainerInv(c, s.trainer) && VersionInv(s) && InFlight.Inv(c, s) && PendingInv(c, s) && FreshInv(c, s, bound)
  }

  lemma AnyMonitorStep(c: Config, s: State, e: Event, bound: int, limit: nat)
    requires c.Valid() && AnyMonitorInv(c, s, bound) && Enabled(c, s, e)
    requires s.SinceReset() <= limit <= c.Window() * bound && c.MaxLag() <= bound
    ensures AnyMonitorInv(c, Next(c, s, e), bound)
  {
    TrainerAndVersionStep(c, s, e);
    InvStep(c, s, e);
    PendingInvStep(c, s, e);
    FreshInvStep(c, s, e, bound, limit);
  }

  /** The same bound holds, whatever the monitor does, when every reset of the counter is exact. */
  lemma {:induction false} ExactResetsBound(c: Config, version: int, first: nat, es: seq<Event>)
    requires c.Valid() && Run(c, Init(version, first), es).Some?
    requires Always(c, Init(version, first), es, ResetsSeeEverything)
    ensures var s := Run(c, Init(version, first), es).value;
            && AnyMonitorInv(c, s, c.MaxLag()) && ExactInv(c, s)
            && (forall u :: u in s.trainer.consumed ==> 0 <= u.version - u.stamp <= c.MaxLag())
  {
    if es != [] {
      var before := es[..|es| - 1];
      AlwaysPrefix(c, Init(version, first), es, ResetsSeeEverything);
      ExactResetsBound(c, version, first, before);
      var s, e := Run(c, Init(version, first), before).value, es[|es| - 1];
      MaxLagCovers(c);
      AnyMonitorStep(c, s, e, c.MaxLag(), c.maxRequired);
      ExactStep(c, s, e);
    }
  }

  /** The bound of all runs: maxRequired / Window + 1, rounded down. It exceeds MaxLag exactly when
      the window divides maxRequired. */
  function WorstLag(c: Config): (lag: int)
    requires c.Valid()
    ensures c.maxRequired + 1 <= c.Window() * lag
    ensures c.MaxLag() <= lag <= c.MaxLag() + 1
    ensures lag == c.MaxLag() + 1 <==> c.maxRequired % c.Window() == 0
  {
    c.Positive();
    var w, m := c.Window(), c.maxRequired;
    assert m == w * (m / w) + m % w;
    assert w * (m / w + 1) == w * (m / w) + w;
    assert (m + w - 1) / w == (if m % w == 0 then m / w else m / w + 1) by { RoundUp(m, w); }
    m / w + 1
  }

  lemma RoundUp(m: nat, w: nat)
    requires w >= 1
    ensures (m + w - 1) / w == (if m % w == 0 then m / w else m / w + 1)
  {
    var k, r := m / w, m % w;
    assert m == w * k + r;
    if r == 0 {
      DivUnique(w * k + (w - 1), w, k);
    } else {
      assert w * (k + 1) == w * k + w;
      DivUnique(m + w - 1, w, k + 1);
    }
  }

  /** With no assumption on the monitor or the resets. AsyncLimits.LagLimitExact says for which
      configurations MaxLag is a bound as well. */
  lemma {:induction false} UnconditionalBound(c: Config, version: int, first: nat, es: seq<Event>)
    requires c.Valid() && Run(c, Init(version, first), es).Some?
    ensures var s := Run(c, Init(version, first), es).value;
            && AnyMonitorInv(c, s, WorstLag(c))
            && (forall u :: u in s.trainer.consumed ==> 0 <= u.version - u.stamp <= WorstLag(c))
  {
    if es != [] {
      var before := es[..|es| - 1];
      UnconditionalBound(c, version, first, before);
      AnyMonitorStep(c, Run(c, Init(version, first), before).value, es[|es| - 1], WorstLag(c), c.maxRequired + 1);
    }
  }
}
