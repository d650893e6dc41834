/** Runs of any configuration that reach the limits proved in InFlight, Staleness and Starvation. */
module AsyncWitness {
  import opened Arith
  import opened Options
  import opened AsyncProtocol
  import opened Staleness
  import opened Starvation
  import Conservation

  /** Which runs are considered: `partial_rollout` off, or on, each with any monitor or a timely one;
      the orderly runs also miss no item at a reset. */
  datatype Mode = Anything | WithoutCancel | TimelyWithoutCancel | Partial | TimelyPartial | Orderly {
    predicate Cancels() { Partial? || TimelyPartial? || Orderly? }

    /** The monitor may write after the end of a pause. */
    predicate Late() { Anything? || WithoutCancel? || Partial? }
  }

  ghost predicate Permits(m: Mode, s: State, e: Event) {
    match m
    case Anything => true
    case WithoutCancel => !IsCancel(e)
    case TimelyWithoutCancel => !IsCancel(e) && TimelyMonitor(s, e)
    case Partial => PartialEvent(s, e)
    case TimelyPartial => TimelyPartialEvent(s, e)
    case Orderly => OrderlyEvent(s, e)
  }

  /** A configuration, where its runs start, and which of them are considered. */
  datatype Setup = Setup(c: Config, version: int, first: nat, mode: Mode) {
    /** The limit covers a window, as `set_max_required_samples` makes it. */
    ghost predicate Valid() { c.Valid() && c.Window() <= c.maxRequired }

    /** There are samples enough for a run that takes n of them. */
    predicate Feeds(n: nat) { first + n <= c.totalRolloutSteps }

    ghost function Ok(): (State, Event) -> bool { (s, e) => Permits(mode, s, e) }

    ghost predicate RunTo(es: seq<Event>, s: State)
      requires c.Valid()
    {
      Run(c, Init(version, first), es) == Some(s) && Always(c, Init(version, first), es, Ok())
    }

    ghost predicate Reached(s: State)
      requires c.Valid()
    {
      exists es :: RunTo(es, s)
    }
  }

  lemma Go(k: Setup, s: State, e: Event) returns (t: State)
    requires k.c.Valid() && k.Reached(s) && Enabled(k.c, s, e) && Permits(k.mode, s, e)
    ensures t == Next(k.c, s, e) && k.Reached(t)
  {
    var es :| k.RunTo(es, s);
    assert (es + [e])[..|es|] == es;
    AlwaysSnoc(k.c, Init(k.version, k.first), es, e, k.Ok());
    t := Next(k.c, s, e);
    assert k.RunTo(es + [e], t);
  }

  /** What the rest of a run depends on. The processor holds the sample `hand` or is at the top of
      its loop; `used` samples of the current window are consumed, and `parked` are the cancelled ones. */
  datatype View = View(next: nat, hand: Option<nat>, running: multiset<nat>, uncollected: nat, parked: seq<nat>,
                       staleness: nat, version: int, paused: bool, queue: seq<Message>, update: Update,
                       phase: Phase, trained: int, used: int)

  function TasksOf(v: View): Tasks {
    if v.hand.Some? then Tasks(Holding, Some(Sample(v.hand.value)), v.running, v.uncollected, v.parked)
    else Tasks(Top, None, v.running, v.uncollected, v.parked)
  }

  ghost predicate TrainerShows(c: Config, t: Trainer, v: View) {
    TrainerInv(c, t) && !t.sawFinal && t.phase == v.phase && t.version == v.trained && t.InWindow(c) == v.used
  }

  ghost predicate Shows(k: Setup, s: State, v: View)
    requires k.c.Valid()
  {
    && k.Reached(s)
    && s.feed.feeder == Feeding && s.feed.globalSteps == v.next && s.feed.pending == []
    && s.tasks == TasksOf(v)
    && s.ctl.staleness == v.staleness && s.ctl.version == v.version && s.ctl.lock == Free
    && s.ctl.paused == v.paused && (s.ctl.monitorTrigger <==> v.update == NoUpdate) && !s.ctl.monitorArmed
    && s.mq == Mq(v.queue, []) && Conservation.NoFinal(v.queue) && s.update == v.update
    && TrainerShows(k.c, s.trainer, v)
  }

  function Start(k: Setup): View {
    View(k.first, None, multiset{}, 0, [], 0, k.version, false, [], NoUpdate, Collecting, k.version, 0)
  }

  lemma Begin(k: Setup) returns (t: State)
    requires k.c.Valid()
    ensures Shows(k, t, Start(k))
  {
    t := Init(k.version, k.first);
    assert k.RunTo([], t);
  }

  // ------------------------------------------------ what the coroutines do in a few steps

  /** One sample is fed and taken by the processor. */
  lemma Take(k: Setup, s: State, v: View) returns (t: State)
    requires k.c.Valid() && Shows(k, s, v) && v.hand == None && v.parked == [] && !v.paused
    requires |v.queue| < k.c.maxRequired && v.staleness < k.c.maxRequired && v.next < k.c.totalRolloutSteps
    ensures Shows(k, t, v.(next := v.next + 1, hand := Some(v.next), staleness := v.staleness + 1))
  {
    hide Setup.Reached;
    t := Go(k, s, Proc(FeedSample));
    t := Go(k, t, Proc(ProcCheck));
    t := Go(k, t, Proc(PopPending));
  }

  /** The sample in hand starts; when too many finished tasks are uncollected, they are collected. */
  lemma Launch(k: Setup, s: State, v: View) returns (t: State)
    requires k.c.Valid() && Shows(k, s, v) && v.hand.Some? && |v.running| < k.c.maxConcurrent && !v.paused
    ensures Shows(k, t, v.(hand := None, running := v.running + multiset{v.hand.value}, uncollected := t.tasks.uncollected))
    ensures |v.running| + v.uncollected < k.c.maxConcurrent ==> t.tasks.uncollected == v.uncollected
  {
    hide Setup.Reached;
    t := s;
    if |v.running| + v.uncollected >= k.c.maxConcurrent {
      t := Go(k, t, Proc(ProcWaitBegin));
      t := Go(k, t, Proc(ProcWaitEnd));
    }
    t := Go(k, t, Proc(Submit));
  }

  /** With `partial_rollout` nothing finishes while the servers are cancelled. */
  predicate CanFinish(k: Setup, v: View) { k.mode.Cancels() ==> v.update == NoUpdate && v.phase != Syncing }

  lemma Finish(k: Setup, s: State, v: View, id: nat) returns (t: State)
    requires k.c.Valid() && Shows(k, s, v) && CanFinish(k, v) && v.running == multiset{id} && |v.queue| < k.c.maxRequired
    ensures Shows(k, t, v.(running := multiset{}, uncollected := v.uncollected + 1, queue := v.queue + [Rollout(id, v.version)]))
  {
    hide Setup.Reached;
    t := Go(k, s, Task(TaskFinish(id)));
    assert s.mq.dropped + [] == s.mq.dropped;
  }

  /** What sending the weights changes, when nothing is running. */
  function Synced(v: View): View {
    v.(uncollected := 0, paused := true, update := Queued(v.trained), phase := Collecting)
  }

  lemma Sync(k: Setup, s: State, v: View) returns (t: State)
    requires k.c.Valid() && Shows(k, s, v) && v.phase == WaitLast && v.update == NoUpdate && v.running == multiset{}
    ensures Shows(k, t, Synced(v))
  {
    hide Setup.Reached;
    t := Go(k, s, Train(WaitedLast));
    t := Go(k, t, Train(PauseBegin));
    t := Go(k, t, Train(PauseEnd));
    t := Go(k, t, Train(SyncWeights));
  }

  /** The monitor tests during the pause and is next to get the lock: it un-pauses after the pause. */
  lemma SyncLate(k: Setup, s: State, v: View) returns (t: State)
    requires k.c.Valid() && Shows(k, s, v) && v.phase == WaitLast && v.update == NoUpdate && v.running == multiset{}
    requires |v.queue| < k.c.maxRequired && v.staleness < k.c.maxRequired && k.mode.Late()
    ensures Shows(k, t, Synced(v).(paused := false))
  {
    hide Setup.Reached;
    t := PauseTested(k, s);
    t := Go(k, t, Train(PauseEnd));
    t := Go(k, t, Task(MonitorWrite));
    t := Go(k, t, Train(SyncWeights));
  }

  lemma PauseTested(k: Setup, s: State) returns (t: State)
    requires k.c.Valid() && k.Reached(s) && s.trainer.phase == WaitLast && s.update == NoUpdate && s.ctl.lock == Free
    requires s.ctl.monitorTrigger && !s.ctl.monitorArmed && !ShouldPause(k.c, s)
    ensures k.Reached(t)
    ensures t == s.(trainer := s.trainer.(phase := Pausing), ctl := s.ctl.(lock := ByPause, paused := true, monitorArmed := true))
  {
    hide Setup.Reached;
    t := Go(k, s, Train(WaitedLast));
    t := Go(k, t, Train(PauseBegin));
    t := Go(k, t, Task(MonitorTest));
  }

  /** What the reset of the counter changes. */
  function ResetOf(v: View): View
    requires v.update.Queued?
  {
    v.(staleness := v.uncollected + |v.parked| + |v.queue|, version := v.update.to, update := Resuming)
  }

  /** The counter is reset; the rollouter is not resumed yet. */
  lemma Reset(k: Setup, s: State, v: View) returns (t: State)
    requires k.c.Valid() && Shows(k, s, v) && v.update.Queued? && v.running == multiset{}
    requires k.mode.Orderly? ==> v.hand == None
    ensures Shows(k, t, ResetOf(v))
  {
    hide Setup.Reached;
    t := CountInFlight(k, s);
    t := Go(k, t, Train(UpdateWrite));
  }

  lemma CountInFlight(k: Setup, s: State) returns (t: State)
    requires k.c.Valid() && k.Reached(s) && s.update.Queued? && s.ctl.lock == Free
    ensures k.Reached(t)
    ensures t == s.(ctl := s.ctl.(lock := ByUpdate, version := s.update.to),
                    update := ReadQueue(s.update.to, s.tasks.Active() + |s.tasks.cancelQueue| + |s.mq.queue|))
  {
    hide Setup.Reached;
    t := Go(k, s, Train(UpdateBegin));
    t := Go(k, t, Train(UpdateReadQueue));
  }

  lemma Resume(k: Setup, s: State, v: View) returns (t: State)
    requires k.c.Valid() && Shows(k, s, v) && v.update == Resuming
    ensures Shows(k, t, v.(paused := false, update := NoUpdate))
  {
    hide Setup.Reached;
    t := Go(k, s, Train(ResumeGeneration));
  }

  lemma Announce(k: Setup, s: State, v: View) returns (t: State)
    requires k.c.Valid() && Shows(k, s, v) && v.update.Queued? && v.running == multiset{}
    requires k.mode.Orderly? ==> v.hand == None
    ensures Shows(k, t, Announced(v))
  {
    hide Shows, Setup.Reached;
    t := Reset(k, s, v);
    t := Resume(k, t, ResetOf(v));
  }

  /** What the announcement of a version changes. */
  function Announced(v: View): View
    requires v.update.Queued?
  {
    ResetOf(v).(paused := false, update := NoUpdate)
  }

  // ------------------------------------------------ any number of samples

  /** The sample in hand starts, the next one is taken, the first one finishes. */
  lemma Turn(k: Setup, s: State, v: View) returns (t: State)
    requires k.c.Valid() && Shows(k, s, v) && CanFinish(k, v) && v.hand.Some?
    requires v.running == multiset{} && v.parked == [] && !v.paused
    requires v.staleness < k.c.maxRequired && |v.queue| < k.c.maxRequired && v.next < k.c.totalRolloutSteps
    ensures Shows(k, t, v.(next := v.next + 1, hand := Some(v.next), staleness := v.staleness + 1,
                           uncollected := t.tasks.uncollected, queue := v.queue + [Rollout(v.hand.value, v.version)]))
  {
    var id := v.hand.value;
    t := Launch(k, s, v);
    var w := v.(hand := None, running := multiset{id}, uncollected := t.tasks.uncollected);
    t := Take(k, t, w);
    w := w.(next := v.next + 1, hand := Some(v.next), staleness := v.staleness + 1);
    t := Finish(k, t, w, id);
  }

  lemma {:induction false} Fill(k: Setup, s: State, v: View, n: nat) returns (t: State, more: seq<Message>)
    requires k.c.Valid() && Shows(k, s, v) && CanFinish(k, v) && v.hand.Some?
    requires v.running == multiset{} && v.parked == [] && !v.paused
    requires v.staleness + n <= k.c.maxRequired && |v.queue| + n <= k.c.maxRequired && v.next + n <= k.c.totalRolloutSteps
    ensures |more| == n
    ensures Shows(k, t, Filled(v, n, t.tasks.uncollected, more))
    decreases n
  {
    hide Shows;
    t, more := s, [];
    if n == 0 {
      assert v.queue + more == v.queue;
      assert Filled(v, 0, s.tasks.uncollected, more) == v by { UncollectedShown(k, s, v); }
    } else {
      t, more := Fill(k, s, v, n - 1);
      var w := Filled(v, n - 1, t.tasks.uncollected, more);
      t := Turn(k, t, w);
      assert v.queue + (more + [Rollout(w.hand.value, v.version)]) == w.queue + [Rollout(w.hand.value, v.version)];
      more := more + [Rollout(w.hand.value, v.version)];
    }
  }

  lemma UncollectedShown(k: Setup, s: State, v: View)
    requires k.c.Valid() && Shows(k, s, v)
    ensures s.tasks.uncollected == v.uncollected
  {
  }

  /** What n turns change, with an item in hand throughout. */
  function Filled(v: View, n: nat, uncollected: nat, more: seq<Message>): View {
    v.(next := v.next + n, hand := if n == 0 then v.hand else Some(v.next + n - 1), staleness := v.staleness + n,
       uncollected := uncollected, queue := v.queue + more)
  }

  /** A sample is taken, starts and finishes. */
  lemma Job(k: Setup, s: State, v: View) returns (t: State)
    requires k.c.Valid() && Shows(k, s, v) && CanFinish(k, v) && v.hand == None
    requires v.running == multiset{} && v.parked == [] && !v.paused
    requires v.staleness < k.c.maxRequired && |v.queue| < k.c.maxRequired && v.next < k.c.totalRolloutSteps
    ensures v.uncollected < k.c.maxConcurrent ==> t.tasks.uncollected == v.uncollected + 1
    ensures Shows(k, t, Worked(v, 1, t.tasks.uncollected, [Rollout(v.next, v.version)]))
  {
    t := Take(k, s, v);
    var w := v.(next := v.next + 1, hand := Some(v.next), staleness := v.staleness + 1);
    t := Launch(k, t, w);
    w := w.(hand := None, running := multiset{v.next}, uncollected := t.tasks.uncollected);
    t := Finish(k, t, w, v.next);
  }

  /** What n jobs change. */
  function Worked(v: View, n: nat, uncollected: nat, more: seq<Message>): View {
    v.(next := v.next + n, staleness := v.staleness + n, uncollected := uncollected, queue := v.queue + more)
  }

  lemma {:induction false} Work(k: Setup, s: State, v: View, n: nat) returns (t: State, more: seq<Message>)
    requires k.c.Valid() && Shows(k, s, v) && CanFinish(k, v) && v.hand == None
    requires v.running == multiset{} && v.parked == [] && !v.paused
    requires v.staleness + n <= k.c.maxRequired && |v.queue| + n <= k.c.maxRequired && v.next + n <= k.c.totalRolloutSteps
    ensures |more| == n
    ensures v.uncollected + n <= k.c.maxConcurrent ==> t.tasks.uncollected == v.uncollected + n
    ensures Shows(k, t, Worked(v, n, t.tasks.uncollected, more))
    decreases n
  {
    hide Shows;
    t, more := s, [];
    if n == 0 {
      assert v.queue + more == v.queue;
      assert Worked(v, 0, s.tasks.uncollected, more) == v by { UncollectedShown(k, s, v); }
    } else {
      t, more := Work(k, s, v, n - 1);
      var w := Worked(v, n - 1, t.tasks.uncollected, more);
      t := Job(k, t, w);
      assert v.queue + (more + [Rollout(w.next, v.version)]) == w.queue + [Rollout(w.next, v.version)];
      more := more + [Rollout(w.next, v.version)];
    }
  }

  /** The trainer takes one sample, and trains when its batch is complete. */
  lemma ConsumeOne(k: Setup, s: State, v: View) returns (t: State)
    requires k.c.Valid() && Shows(k, s, v) && v.phase == Collecting && v.queue != [] && v.used + 1 <= k.c.Window()
    ensures Shows(k, t, AfterConsuming(k.c, v, 1))
  {
    hide Shows;
    t := GetOne(k, s, v);
    if t.trainer.phase == Training {
      t := TrainBatch(k, t, v.(queue := v.queue[1..], used := v.used + 1, phase := Training));
    }
  }

  lemma GetOne(k: Setup, s: State, v: View) returns (t: State)
    requires k.c.Valid() && Shows(k, s, v) && v.phase == Collecting && v.queue != []
    ensures t.trainer.phase == Training || t.trainer.phase == Collecting
    ensures t.trainer.phase == Collecting ==> v.used + 1 < k.c.Window()
    ensures Shows(k, t, v.(queue := v.queue[1..], used := v.used + 1, phase := t.trainer.phase))
  {
    hide Setup.Reached;
    assert s.trainer.phase == Collecting;
    TrainerGets(k.c, s.trainer, v);
    hide TrainerShows;
    t := Go(k, s, Train(GetSample));
  }

  lemma TrainerGets(c: Config, t: Trainer, v: View)
    requires c.Valid() && TrainerShows(c, t, v) && t.phase == Collecting && v.queue != [] && v.queue[0].Rollout?
    ensures var u := Receive(c, t, v.queue[0]);
            && (u.phase == Training || (u.phase == Collecting && v.used + 1 < c.Window()))
            && TrainerShows(c, u, v.(queue := v.queue[1..], used := v.used + 1, phase := u.phase))
  {
    var u := Receive(c, t, v.queue[0]);
    if u.phase == Collecting { NotYetFull(c, u); }
  }

  lemma TrainBatch(k: Setup, s: State, v: View) returns (t: State)
    requires k.c.Valid() && Shows(k, s, v) && v.phase == Training
    ensures Shows(k, t, Trained(k.c, v))
  {
    hide Setup.Reached;
    assert s.trainer.phase == Training;
    TrainerTrains(k.c, s, v);
    hide TrainerShows;
    t := Go(k, s, Train(TrainStep));
  }

  function Trained(c: Config, v: View): View {
    if v.used < c.Window() then v.(phase := Collecting) else v.(used := 0, phase := WaitLast, trained := v.trained + 1)
  }

  lemma TrainerTrains(c: Config, s: State, v: View)
    requires c.Valid() && TrainerShows(c, s.trainer, v) && s.trainer.phase == Training
    ensures TrainerShows(c, TrainNext(c, s, TrainStep).trainer, Trained(c, v))
  {
    WindowEnds(c, s.trainer);
    InWindowRange(c, s.trainer);
    var l := s.trainer.localStep;
    assert (l + 1 - 1) * c.requiredSamples == l * c.requiredSamples;
  }

  /** What consuming n samples changes. */
  function AfterConsuming(c: Config, v: View, n: nat): View
    requires n <= |v.queue|
  {
    if v.used + n < c.Window() then v.(queue := v.queue[n..], used := v.used + n)
    else v.(queue := v.queue[n..], used := 0, phase := WaitLast, trained := v.trained + 1)
  }

  lemma WindowEnds(c: Config, t: Trainer)
    requires c.Valid() && TrainerInv(c, t) && t.phase == Training
    ensures t.localStep == c.triggerStep ==> t.InWindow(c) == c.Window()
    ensures t.localStep < c.triggerStep ==> t.localStep * c.requiredSamples == t.InWindow(c) < c.Window()
  {
    var r, l := c.requiredSamples, t.localStep;
    assert (l - 1) * r + r == l * r;
    if l < c.triggerStep {
      Scale(r, l + 1, c.triggerStep);
      assert r * (l + 1) == l * r + r;
    }
  }

  lemma {:induction false} Consume(k: Setup, s: State, v: View, n: nat) returns (t: State)
    requires k.c.Valid() && Shows(k, s, v) && v.phase == Collecting && 1 <= n <= |v.queue| && v.used + n <= k.c.Window()
    ensures Shows(k, t, AfterConsuming(k.c, v, n))
    decreases n
  {
    hide Shows;
    if n == 1 {
      t := ConsumeOne(k, s, v);
    } else {
      t := Consume(k, s, v, n - 1);
      var w := AfterConsuming(k.c, v, n - 1);
      t := ConsumeOne(k, t, w);
      assert v.queue[n - 1..][1..] == v.queue[n..];
    }
  }

  // ------------------------------------------------ a reset that misses the sample in hand

  /** One window is produced and consumed, and the counter is reset to 0 although a sample is in hand. */
  lemma FirstReset(k: Setup) returns (t: State, v: View)
    requires k.Valid() && !k.mode.Orderly? && k.Feeds(3 * k.c.maxRequired) && k.c.Window() < k.c.maxRequired
    ensures Shows(k, t, v)
    ensures var w := k.c.Window();
            v == View(k.first + 1 + w, Some(k.first + w), multiset{}, 0, [], 0, k.version + 1, false, [], NoUpdate,
                      Collecting, k.version + 1, 0)
  {
    hide Shows;
    k.c.Positive();
    t := Begin(k);
    v := Start(k);
    t := Take(k, t, v);
    v := v.(next := v.next + 1, hand := Some(v.next), staleness := 1);
    t, v := WindowAndSync(k, t, v);
    t := Announce(k, t, v);
    v := Announced(v);
  }

  /** With a sample in hand, one window is produced and consumed; the weights are sent. */
  lemma WindowAndSync(k: Setup, s: State, v: View) returns (t: State, w: View)
    requires k.c.Valid() && k.c.Window() >= 1 && Shows(k, s, v)
    requires v.hand.Some? && v.running == multiset{} && v.parked == [] && !v.paused
    requires v.phase == Collecting && v.used == 0 && v.queue == [] && v.update == NoUpdate
    requires v.staleness + k.c.Window() <= k.c.maxRequired && v.next + k.c.Window() <= k.c.totalRolloutSteps
    ensures Shows(k, t, w)
    ensures w == v.(next := v.next + k.c.Window(), hand := Some(v.next + k.c.Window() - 1),
                    staleness := v.staleness + k.c.Window(), uncollected := 0, paused := true,
                    update := Queued(v.trained + 1), trained := v.trained + 1)
  {
    hide Shows;
    k.c.Positive();
    var n := k.c.Window();
    var more;
    t, more := Fill(k, s, v, n);
    w := Filled(v, n, t.tasks.uncollected, more);
    t := Consume(k, t, w, n);
    w := AfterConsuming(k.c, w, n);
    assert w.queue == [];
    t := Sync(k, t, w);
    w := Synced(w);
  }

  /** As many samples are produced as the limit allows, beside the one in hand. */
  lemma Overfull(k: Setup) returns (t: State, v: View)
    requires k.Valid() && !k.mode.Orderly? && k.Feeds(3 * k.c.maxRequired) && k.c.Window() < k.c.maxRequired
    ensures Shows(k, t, v) && |v.queue| == k.c.maxRequired
    ensures v.hand.Some? && v.running == multiset{} && v.parked == [] && !v.paused && CanFinish(k, v)
  {
    hide Shows;
    var more;
    t, v := FirstReset(k);
    t, more := Fill(k, t, v, k.c.maxRequired);
    v := Filled(v, k.c.maxRequired, t.tasks.uncollected, more);
  }

  /** Whenever the limit is larger than a window, the bound maxRequired + 1 on the items in flight is
      reached, and the queue overflows. */
  lemma LossyResetDrops(k: Setup)
    requires k.Valid() && !k.mode.Orderly? && k.Feeds(3 * k.c.maxRequired) && k.c.Window() < k.c.maxRequired
    ensures exists s: State :: k.Reached(s) && s.InFlight() == k.c.maxRequired + 1
    ensures exists s: State :: k.Reached(s) && s.mq.dropped != []
  {
    hide Setup.Reached;
    var t, v := Overfull(k);
    assert k.Reached(t) && t.InFlight() == k.c.maxRequired + 1;
    t := Launch(k, t, v);
    t := Go(k, t, Task(TaskFinish(v.hand.value)));
    assert t.mq.dropped != [];
  }

  // ------------------------------------------------ a late monitor besides

  /** A reset that misses the sample in hand and is made only after the next window is used up. */
  lemma LateReset(k: Setup) returns (t: State, v: View)
    requires k.Valid() && !k.mode.Orderly? && k.Feeds(3 * k.c.maxRequired) && 2 * k.c.Window() <= k.c.maxRequired
    ensures Shows(k, t, v)
    ensures var w := k.c.Window();
            v == View(k.first + 1 + 3 * w, Some(k.first + 3 * w), multiset{}, 0, [], 0, k.version + 2, false, [], NoUpdate,
                      WaitLast, k.version + 3, 0)
  {
    hide Shows;
    k.c.Positive();
    var w, more := k.c.Window(), [];
    t, v := FirstReset(k);
    t, more := Fill(k, t, v, 2 * w);
    v := Filled(v, 2 * w, t.tasks.uncollected, more);
    t := Consume(k, t, v, w);
    v := AfterConsuming(k.c, v, w);
    t := Sync(k, t, v);
    v := Synced(v);
    t := Consume(k, t, v, w);
    v := AfterConsuming(k.c, v, w);
    assert v.queue == [];
    t := Announce(k, t, v);
    v := Announced(v);
  }

  /** The monitor tests during the pause, while the processor waits for an item and the counter is one
      below the limit. Then the last task finishes, the item comes, and the pause ends: the monitor
      un-pauses with one item too many in flight. */
  lemma SyncOverfull(k: Setup, s: State, v: View, id: nat) returns (t: State)
    requires k.c.Valid() && k.mode.Late() && !k.mode.Cancels() && Shows(k, s, v) && v.phase == WaitLast && v.update == NoUpdate
    requires v.hand == None && v.running == multiset{id} && v.parked == [] && !v.paused
    requires |v.queue| < k.c.maxRequired && v.staleness < k.c.maxRequired && v.next < k.c.totalRolloutSteps
    ensures Shows(k, t, Synced(v).(next := v.next + 1, hand := Some(v.next), running := multiset{}, staleness := v.staleness + 1,
                                   queue := v.queue + [Rollout(id, v.version)], paused := false))
  {
    hide Setup.Reached;
    t := Go(k, s, Proc(FeedSample));
    t := Go(k, t, Proc(ProcCheck));
    t := PauseTested(k, t);
    t := OneMore(k, t, id);
    t := Go(k, t, Train(PauseEnd));
    t := Go(k, t, Task(MonitorWrite));
    t := Go(k, t, Train(SyncWeights));
  }

  lemma OneMore(k: Setup, s: State, id: nat) returns (t: State)
    requires k.c.Valid() && k.mode.Late() && !k.mode.Cancels() && k.Reached(s) && id in s.tasks.running && |s.mq.queue| < k.c.maxRequired
    requires s.tasks.proc == WaitPending && s.feed.pending != [] && s.feed.pending[0].Sample?
    ensures k.Reached(t)
    ensures t == s.(tasks := s.tasks.(running := s.tasks.running - multiset{id}, uncollected := s.tasks.uncollected + 1,
                                      hand := Some(s.feed.pending[0]), proc := Holding),
                    mq := Mq(s.mq.queue + [Rollout(id, s.ctl.version)], s.mq.dropped),
                    feed := s.feed.(pending := s.feed.pending[1..]),
                    ctl := s.ctl.(staleness := s.ctl.staleness + 1, generated := s.ctl.generated + 1))
  {
    hide Setup.Reached;
    t := Go(k, s, Task(TaskFinish(id)));
    assert s.mq.dropped + [] == s.mq.dropped;
    t := Go(k, t, Proc(PopPending));
  }

  /** The late monitor un-pauses while a version waits to be announced; the sample in hand runs and
      finishes behind all others, with the stamp of the version before. */
  lemma LateFinish(k: Setup) returns (t: State, v: View, id: nat)
    requires k.Valid() && k.mode.Late() && !k.mode.Cancels() && k.Feeds(3 * k.c.maxRequired) && 2 * k.c.Window() <= k.c.maxRequired
    ensures Shows(k, t, v) && v.running == multiset{} && v.hand == None
    ensures v.phase == WaitLast && v.update.Queued? && v.used == 0 && v.trained == k.version + 4
    ensures |v.queue| == k.c.maxRequired - k.c.Window() + 1 && v.queue[|v.queue| - 1] == Rollout(id, k.version + 2)
  {
    hide Shows;
    k.c.Positive();
    var w, more := k.c.Window(), [];
    t, v := LateReset(k);
    t, more := Fill(k, t, v, k.c.maxRequired - 1);
    v := Filled(v, k.c.maxRequired - 1, t.tasks.uncollected, more);
    id := v.hand.value;
    t := Launch(k, t, v);
    assert v.running + multiset{id} == multiset{id};
    v := v.(hand := None, running := multiset{id}, uncollected := t.tasks.uncollected);
    t := SyncOverfull(k, t, v, id);
    v := Synced(v).(next := v.next + 1, hand := Some(v.next), running := multiset{}, staleness := v.staleness + 1,
                    queue := v.queue + [Rollout(id, v.version)], paused := false);
    id := v.hand.value;
    t := Launch(k, t, v);
    assert v.running + multiset{id} == multiset{id};
    v := v.(hand := None, running := multiset{id}, uncollected := t.tasks.uncollected);
    t := Consume(k, t, v, w);
    v := AfterConsuming(k.c, v, w);
    t := Finish(k, t, v, id);
    v := v.(running := multiset{}, uncollected := v.uncollected + 1, queue := v.queue + [Rollout(id, v.version)]);
  }

  /** The trainer works off n windows and then takes the next sample. */
  lemma {:induction false} Drain(k: Setup, s: State, v: View, w: nat, n: nat) returns (t: State)
    requires k.c.Valid() && Shows(k, s, v) && v.running == multiset{} && !k.mode.Orderly?
    requires v.phase == WaitLast && v.update.Queued? && v.used == 0
    requires w == k.c.Window() && |v.queue| >= 1 && |v.queue| == w * n + 1
    ensures k.Reached(t)
    ensures var m := v.queue[|v.queue| - 1]; m.Rollout? && Use(m.id, m.stamp, v.trained + n) in t.trainer.consumed
    decreases n
  {
    hide Shows, Setup.Reached;
    t := Announce(k, s, v);
    var u := Announced(v);
    t := Sync(k, t, u);
    u := Synced(u);
    if n == 0 {
      t := Last(k, t, u);
    } else {
      OneLess(w, n);
      k.c.Positive();
      t := Consume(k, t, u, w);
      t := Drain(k, t, AfterConsuming(k.c, u, w), w, n - 1);
    }
  }

  lemma OneLess(w: nat, n: nat)
    requires n >= 1
    ensures w * n == w * (n - 1) + w && w * (n - 1) >= 0
  {
    Scale(w, 0, n - 1);
  }

  lemma Last(k: Setup, s: State, v: View) returns (t: State)
    requires k.c.Valid() && Shows(k, s, v) && v.phase == Collecting && |v.queue| == 1
    ensures k.Reached(t)
    ensures var m := v.queue[0]; m.Rollout? && Use(m.id, m.stamp, v.trained) in t.trainer.consumed
  {
    hide Setup.Reached;
    t := Go(k, s, Train(GetSample));
    assert t.trainer.consumed[|s.trainer.consumed|] == Use(v.queue[0].id, v.queue[0].stamp, v.trained);
  }

  lemma AtLeastTwo(w: nat, n: nat)
    requires 1 <= w < w * n
    ensures n >= 2 && 2 * w <= w * n && w * n - w == w * (n - 1)
  {
    CancelFactor(w, 1, n);
    Scale(w, 2, n);
  }

  lemma LagByLateMonitor(k: Setup, n: nat) returns (t: State, id: nat)
    requires k.Valid() && k.mode.Late() && !k.mode.Cancels() && k.Feeds(3 * k.c.maxRequired)
    requires k.c.Window() < k.c.maxRequired == k.c.Window() * n
    ensures k.Reached(t) && Use(id, k.version + 2, k.version + n + 3) in t.trainer.consumed
  {
    hide Shows;
    k.c.Positive();
    AtLeastTwo(k.c.Window(), n);
    var v;
    t, v, id := LateFinish(k);
    t := Drain(k, t, v, k.c.Window(), n - 1);
  }

  /** Whenever the window divides the limit and is smaller, a late monitor and resets that miss the
      sample in hand together make a sample older than MaxLag: the bound WorstLag is reached. */
  lemma LateMonitorAndLossyResetExceedMaxLag(k: Setup)
    requires k.Valid() && k.mode.Late() && !k.mode.Cancels() && k.Feeds(3 * k.c.maxRequired)
    requires 1 <= k.c.Window() < k.c.maxRequired && k.c.maxRequired % k.c.Window() == 0
    ensures WorstLag(k.c) == k.c.MaxLag() + 1
    ensures exists s: State, u: Use :: k.Reached(s) && u in s.trainer.consumed && u.version - u.stamp == WorstLag(k.c)
  {
    var n := k.c.maxRequired / k.c.Window();
    assert k.c.maxRequired == k.c.Window() * n;
    assert WorstLag(k.c) == n + 1;
    var t, id := LagByLateMonitor(k, n);
    assert k.Reached(t) && Use(id, k.version + 2, k.version + n + 3) in t.trainer.consumed;
  }
}
