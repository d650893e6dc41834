/** For which configurations the back-pressure can stop everything: conditions on the configuration
    alone, in both directions. */
module StarvationLimits {
  import opened Arith
  import opened Options
  import opened AsyncProtocol
  import opened Staleness
  import opened AsyncWitness
  import opened Starvation

  ghost predicate NeverStuck(k: Setup)
    requires k.c.Valid()
  {
    forall s: State :: k.Reached(s) ==> !Stuck(k.c, s)
  }

  // ------------------------------------------------ without cancellation

  /** A late monitor lets samples run while a version waits to be announced; when they finish before
      the counter is reset, they are counted twice. */
  lemma CountedTwice(k: Setup, twice: nat) returns (t: State, v: View)
    requires k.Valid() && k.mode == WithoutCancel && k.Feeds(3 * k.c.maxRequired)
    requires k.c.Window() < k.c.maxRequired && twice == k.c.maxRequired - k.c.Window() + 1 <= k.c.maxConcurrent
    ensures Shows(k, t, v) && v.hand == None && v.running == multiset{} && v.parked == [] && !v.paused
    ensures v.phase == Collecting && v.used == 0 && v.update == NoUpdate
    ensures |v.queue| == twice && v.staleness == 2 * twice
    ensures v.next == k.first + k.c.Window() + k.c.maxRequired + 1
  {
    hide Shows, Setup.Reached;
    k.c.Positive();
    var w, more := k.c.Window(), [];
    t, v := FirstReset(k);
    var id := v.hand.value;
    t := Launch(k, t, v);
    assert v.running + multiset{id} == multiset{id};
    v := v.(hand := None, running := multiset{id}, uncollected := t.tasks.uncollected);
    t := Finish(k, t, v, id);
    v := v.(running := multiset{}, uncollected := v.uncollected + 1, queue := v.queue + [Rollout(id, v.version)]);
    t, more := Work(k, t, v, w - 1);
    v := Worked(v, w - 1, t.tasks.uncollected, more);
    t := Consume(k, t, v, w);
    v := AfterConsuming(k.c, v, w);
    assert v.queue == [];
    t := SyncLate(k, t, v);
    v := Synced(v).(paused := false);
    t, more := Work(k, t, v, twice);
    v := Worked(v, twice, t.tasks.uncollected, more);
    t := Announce(k, t, v);
    v := Announced(v);
  }

  /** The doubled count forbids what the window still needs. */
  lemma StuckByMonitor(k: Setup) returns (t: State)
    requires k.Valid() && k.mode == WithoutCancel && k.Feeds(3 * k.c.maxRequired)
    requires k.c.Window() < k.c.maxRequired <= 2 * k.c.Window() - 2
    requires k.c.maxRequired - k.c.Window() < k.c.maxConcurrent
    ensures k.Reached(t) && Stuck(k.c, t)
  {
    hide Shows, Setup.Reached, Stuck;
    var v;
    var twice := k.c.maxRequired - k.c.Window() + 1;
    t, v := CountedTwice(k, twice);
    if 2 * twice < k.c.maxRequired {
      var more;
      t, more := Work(k, t, v, k.c.maxRequired - 2 * twice);
      v := Worked(v, k.c.maxRequired - 2 * twice, t.tasks.uncollected, more);
    }
    t := UseUp(k, t, v);
  }

  /** The trainer takes all that is left, which does not complete its window. */
  lemma UseUp(k: Setup, s: State, v: View) returns (t: State)
    requires k.c.Valid() && Shows(k, s, v) && v.hand == None && v.running == multiset{} && v.staleness >= k.c.maxRequired
    requires v.phase == Collecting && v.used == 0 && v.update == NoUpdate && |v.queue| < k.c.Window()
    ensures k.Reached(t) && Stuck(k.c, t)
  {
    t := s;
    if v.queue != [] {
      t := Consume(k, s, v, |v.queue|);
      assert v.queue[|v.queue|..] == [];
    }
  }

  /** Without cancellation, and whatever the monitor does: no run gets stuck exactly when the limit
      is one window, or almost two, or the number of tasks is small. */
  lemma WithoutCancelExact(k: Setup)
    requires k.Valid() && k.mode == WithoutCancel && k.Feeds(3 * k.c.maxRequired)
    ensures var c, w := k.c, k.c.Window();
            NeverStuck(k) <==> c.maxRequired == w || c.maxRequired >= 2 * w - 1 || c.maxConcurrent <= c.maxRequired - w
  {
    var c, w := k.c, k.c.Window();
    if c.maxRequired != w && c.maxRequired < 2 * w - 1 && c.maxConcurrent > c.maxRequired - w {
      var t := StuckByMonitor(k);
      assert k.Reached(t) && Stuck(c, t);
    } else {
      forall s: State | k.Reached(s)
        ensures !Stuck(c, s)
      {
        var es :| k.RunTo(es, s);
        AlwaysWeaker(c, Init(k.version, k.first), es, k.Ok(), (s, e) => !IsCancel(e));
        DebtBound(c, k.version, k.first, es);
        if c.maxRequired == w { Freshness.ThresholdZeroIsOnPolicy(c, k.version, k.first, es); }
        NotStuckByDebt(c, s);
      }
    }
  }

  lemma NotStuckByDebt(c: Config, s: State)
    requires c.Valid() && Base(c, s) && DebtInv(c, s) && c.Window() <= c.maxRequired
    requires c.maxRequired >= 2 * c.Window() - 1 || c.maxConcurrent <= c.maxRequired - c.Window()
             || (!s.trainer.sawFinal ==> Freshness.CountsMatch(c, s))
    ensures !Stuck(c, s)
  {
    if s.trainer.phase == Collecting { NotYetFull(c, s.trainer); }
  }

  /** Without cancellation and with a timely monitor no run gets stuck. */
  lemma TimelyWithoutCancelNeverStuck(k: Setup)
    requires k.Valid() && k.mode == TimelyWithoutCancel
    ensures NeverStuck(k)
  {
    forall s: State | k.Reached(s)
      ensures !Stuck(k.c, s)
    {
      var es :| k.RunTo(es, s);
      AlwaysWeaker(k.c, Init(k.version, k.first), es, k.Ok(), (s, e) => !IsCancel(e));
      AlwaysWeaker(k.c, Init(k.version, k.first), es, k.Ok(), TimelyMonitor);
      DebtBound(k.c, k.version, k.first, es);
      TimelyNeverStarves(k.c, k.version, k.first, es);
    }
  }

  // ------------------------------------------------ with cancellation and a timely monitor

  /** The weights are sent; the next version waits to be announced; q samples are queued. */
  ghost predicate Round(k: Setup, s: State, v: View, q: nat)
    requires k.c.Valid()
  {
    && Shows(k, s, v) && v.hand == None && v.running == multiset{} && v.parked == [] && v.uncollected == 0
    && v.phase == Collecting && v.used == 0 && v.update.Queued? && |v.queue| == q
  }

  /** n samples are produced and a window is completed that lacked `rest`; the weights are sent. */
  lemma Complete(k: Setup, s: State, v: View, n: nat, rest: nat) returns (t: State, w: View)
    requires k.c.Valid() && Shows(k, s, v) && v.hand == None && v.running == multiset{} && v.parked == [] && !v.paused
    requires v.phase == Collecting && v.update == NoUpdate && v.queue == [] && v.staleness == 0
    requires 1 <= rest <= n <= k.c.maxRequired && v.used + rest == k.c.Window() && v.next + n <= k.c.totalRolloutSteps
    ensures Round(k, t, w, n - rest) && w.next == v.next + n
  {
    hide Shows, Setup.Reached;
    var more;
    t, more := Work(k, s, v, n);
    w := Worked(v, n, t.tasks.uncollected, more);
    t := Consume(k, t, w, rest);
    w := AfterConsuming(k.c, w, rest);
    t := Sync(k, t, w);
    w := Synced(w);
  }

  /** One round leaves more in the queue than the round before, up to a window: what is consumed
      before the counter is reset does not count against the limit. */
  lemma OneRound(k: Setup, s: State, v: View, q: nat) returns (t: State, w: View, next: nat)
    requires k.Valid() && k.c.Window() < k.c.maxRequired && Round(k, s, v, q) && q < k.c.Window()
    requires v.next + k.c.maxRequired <= k.c.totalRolloutSteps
    ensures Round(k, t, w, next) && q < next <= k.c.Window() && w.next <= v.next + k.c.maxRequired
  {
    hide Shows, Setup.Reached;
    var u := v;
    t := s;
    if q > 0 {
      t := Consume(k, t, u, q);
      u := AfterConsuming(k.c, u, q);
    }
    assert u.queue == [];
    t := Announce(k, t, u);
    u := Announced(u);
    var n := if q + k.c.maxRequired - k.c.Window() <= k.c.Window() then k.c.maxRequired else 2 * k.c.Window() - q;
    next := n - (k.c.Window() - q);
    t, w := Complete(k, t, u, n, k.c.Window() - q);
  }

  lemma {:induction false} Rounds(k: Setup, s: State, v: View, q: nat) returns (t: State, w: View)
    requires k.Valid() && k.c.Window() < k.c.maxRequired && Round(k, s, v, q) && q <= k.c.Window()
    requires v.next + (k.c.Window() - q) * k.c.maxRequired <= k.c.totalRolloutSteps
    ensures Round(k, t, w, k.c.Window()) && w.next <= v.next + (k.c.Window() - q) * k.c.maxRequired
    decreases k.c.Window() - q
  {
    hide Round;
    if q == k.c.Window() {
      t, w := s, v;
    } else {
      var m, next := k.c.maxRequired, q;
      OneRoundFewer(k.c.Window() - q, 1, m);
      t, w, next := OneRound(k, s, v, q);
      OneRoundFewer(k.c.Window() - q, next - q, m);
      t, w := Rounds(k, t, w, next);
    }
  }

  lemma OneRoundFewer(d: nat, x: nat, m: nat)
    requires 1 <= x <= d
    ensures (d - x) * m + m <= d * m
  {
    Scale(m, d - x + 1, d);
    assert m * (d - x + 1) == (d - x) * m + m;
  }

  /** A sample is taken and starts; n times. */
  lemma {:induction false} Spread(k: Setup, s: State, v: View, n: nat) returns (t: State)
    requires k.c.Valid() && Shows(k, s, v) && v.hand == None && v.parked == [] && !v.paused && |v.queue| < k.c.maxRequired
    requires v.staleness + n <= k.c.maxRequired && |v.running| + n <= k.c.maxConcurrent && v.next + n <= k.c.totalRolloutSteps
    ensures |t.tasks.running| == |v.running| + n
    ensures Shows(k, t, v.(next := v.next + n, staleness := v.staleness + n, running := t.tasks.running,
                           uncollected := t.tasks.uncollected))
    decreases n
  {
    hide Shows, Setup.Reached;
    if n == 0 {
      t := s;
      TasksShown(k, s, v);
    } else {
      t := Spread(k, s, v, n - 1);
      var w := v.(next := v.next + n - 1, staleness := v.staleness + n - 1, running := t.tasks.running, uncollected := t.tasks.uncollected);
      t := Take(k, t, w);
      w := w.(next := w.next + 1, hand := Some(w.next), staleness := w.staleness + 1);
      t := Launch(k, t, w);
      TasksShown(k, t, w.(hand := None, running := w.running + multiset{w.hand.value}, uncollected := t.tasks.uncollected));
    }
  }

  lemma TasksShown(k: Setup, s: State, v: View)
    requires k.c.Valid() && Shows(k, s, v)
    ensures s.tasks == TasksOf(v)
  {
  }

  /** All running tasks are cancelled. */
  lemma {:induction false} CancelAll(k: Setup, s: State) returns (t: State)
    requires k.c.Valid() && k.Reached(s) && k.mode.Cancels() && Cancelling(s)
    ensures k.Reached(t) && |t.tasks.cancelQueue| == |s.tasks.cancelQueue| + |s.tasks.running|
    ensures t.tasks.uncollected == s.tasks.uncollected + |s.tasks.running|
    ensures t == s.(tasks := s.tasks.(running := multiset{}, uncollected := t.tasks.uncollected, cancelQueue := t.tasks.cancelQueue))
    decreases |s.tasks.running|
  {
    hide Setup.Reached;
    if |s.tasks.running| == 0 {
      t := s;
    } else {
      var id :| id in s.tasks.running;
      t := Go(k, s, Task(TaskCancel(id)));
      t := CancelAll(k, t);
    }
  }

  lemma SyncCancelling(k: Setup, s: State, v: View) returns (t: State)
    requires k.c.Valid() && Shows(k, s, v) && v.phase == WaitLast && v.update == NoUpdate && k.mode.Cancels()
    ensures |t.tasks.cancelQueue| == |v.parked| + |v.running|
    ensures Shows(k, t, Synced(v).(running := multiset{}, parked := t.tasks.cancelQueue))
  {
    hide Setup.Reached;
    t := PauseCancelling(k, s);
    t := Go(k, t, Train(PauseEnd));
    t := Go(k, t, Train(SyncWeights));
  }

  lemma PauseCancelling(k: Setup, s: State) returns (t: State)
    requires k.c.Valid() && k.Reached(s) && k.mode.Cancels() && s.trainer.phase == WaitLast && s.update == NoUpdate
    requires s.ctl.lock == Free
    ensures k.Reached(t) && |t.tasks.cancelQueue| == |s.tasks.cancelQueue| + |s.tasks.running|
    ensures t == s.(trainer := s.trainer.(phase := Pausing), ctl := s.ctl.(lock := ByPause, paused := true),
                    tasks := s.tasks.(running := multiset{}, uncollected := t.tasks.uncollected, cancelQueue := t.tasks.cancelQueue))
  {
    hide Setup.Reached;
    t := Go(k, s, Train(WaitedLast));
    t := Go(k, t, Train(PauseBegin));
    t := CancelAll(k, t);
  }

  /** A whole window is consumed before the counter is reset; another one is produced but for one
      sample, while the trainer waits to send the weights. */
  lemma AlmostWindow(k: Setup, s: State, v: View) returns (t: State, u: View)
    requires k.Valid() && k.c.Window() >= 1 && Round(k, s, v, k.c.Window())
    requires v.next + k.c.Window() <= k.c.totalRolloutSteps
    ensures Shows(k, t, u) && u.next == v.next + k.c.Window() - 1 && u.hand == None && u.running == multiset{} && u.parked == []
    ensures !u.paused && u.staleness == |u.queue| == k.c.Window() - 1
    ensures u.phase == WaitLast && u.update == NoUpdate && u.used == 0
  {
    hide Shows, Setup.Reached;
    var w, more := k.c.Window(), [];
    t := Consume(k, s, v, w);
    u := AfterConsuming(k.c, v, w);
    assert u.queue == [];
    t := Announce(k, t, u);
    u := Announced(u);
    t, more := Work(k, t, u, w - 1);
    u := Worked(u, w - 1, t.tasks.uncollected, more);
  }

  /** The rest of the limit is used for samples that are still running at the next pause, which
      cancels them. */
  lemma Park(k: Setup, s: State, v: View) returns (t: State)
    requires k.Valid() && k.mode.Cancels() && k.c.Window() >= 1 && Round(k, s, v, k.c.Window())
    requires k.c.maxRequired - k.c.Window() < k.c.maxConcurrent && v.next + k.c.maxRequired <= k.c.totalRolloutSteps
    ensures k.Reached(t) && Stuck(k.c, t)
  {
    hide Shows, Setup.Reached, Stuck;
    var u;
    t, u := AlmostWindow(k, s, v);
    var n := k.c.maxRequired - k.c.Window() + 1;
    t := Spread(k, t, u, n);
    u := u.(next := u.next + n, staleness := u.staleness + n, running := t.tasks.running, uncollected := t.tasks.uncollected);
    t := SyncCancelling(k, t, u);
    u := Synced(u).(running := multiset{}, parked := t.tasks.cancelQueue);
    t := Announce(k, t, u);
    t := UseUp(k, t, Announced(u));
  }

  /** A window is queued while a version waits to be announced. */
  lemma WindowAhead(k: Setup) returns (t: State, v: View)
    requires k.Valid() && 1 <= k.c.Window() < k.c.maxRequired && k.Feeds((k.c.Window() + 2) * k.c.maxRequired)
    ensures Round(k, t, v, k.c.Window()) && v.next + k.c.maxRequired <= k.c.totalRolloutSteps
  {
    hide Shows, Setup.Reached, Round;
    var w, m := k.c.Window(), k.c.maxRequired;
    assert (w + 2) * m == w * m + 2 * m;
    t := Begin(k);
    var n := if m <= 2 * w then m else 2 * w;
    t, v := Complete(k, t, Start(k), n, w);
    FewerRounds(w, n - w, m);
    t, v := Rounds(k, t, v, n - w);
  }

  lemma FewerRounds(d: nat, x: nat, m: nat)
    requires x <= d
    ensures (d - x) * m <= d * m
  {
    Scale(m, d - x, d);
  }

  lemma StuckByCancellation(k: Setup) returns (t: State)
    requires k.Valid() && k.mode.Cancels() && 1 <= k.c.Window() < k.c.maxRequired
    requires k.c.maxRequired - k.c.Window() < k.c.maxConcurrent && k.Feeds((k.c.Window() + 2) * k.c.maxRequired)
    ensures k.Reached(t) && Stuck(k.c, t)
  {
    hide Round, Setup.Reached, Stuck;
    var v;
    t, v := WindowAhead(k);
    t := Park(k, t, v);
  }

  /** With cancellation, a timely monitor and exact resets: no run gets stuck exactly when the limit
      is one window or so few tasks run at a time that a window is always left. */
  lemma OrderlyExact(k: Setup)
    requires k.Valid() && k.mode == Orderly && k.Feeds((k.c.Window() + 2) * k.c.maxRequired)
    ensures NeverStuck(k) <==> k.c.maxRequired == k.c.Window() || k.c.maxConcurrent <= k.c.maxRequired - k.c.Window()
  {
    var c, w := k.c, k.c.Window();
    c.Positive();
    if c.maxRequired != w && c.maxConcurrent > c.maxRequired - w {
      var t := StuckByCancellation(k);
      assert k.Reached(t) && Stuck(c, t);
    } else {
      forall s: State | k.Reached(s)
        ensures !Stuck(c, s)
      {
        var es :| k.RunTo(es, s);
        if c.maxRequired == w {
          AlwaysWeaker(c, Init(k.version, k.first), es, k.Ok(), PartialEvent);
          NotStuckAtThresholdZero(c, k.version, k.first, es);
        } else {
          AlwaysWeaker(c, Init(k.version, k.first), es, k.Ok(), OrderlyEvent);
          OrderlyParkBound(c, k.version, k.first, es);
          NotStuckByParking(c, s, c.maxRequired);
        }
      }
    }
  }

  lemma NotStuckByParking(c: Config, s: State, limit: nat)
    requires c.Valid() && TimelyBase(c, s, limit) && ParkInv(c, s, limit) && c.Window() <= c.maxRequired
    requires c.maxConcurrent <= c.maxRequired - c.Window()
    requires limit < c.maxRequired + c.Window() || c.maxConcurrent + c.Window() < c.maxRequired
    ensures !Stuck(c, s)
  {
    c.Positive();
    if s.trainer.phase == Collecting { NotYetFull(c, s.trainer); }
  }

  // ------------------------------------------------ with resets that miss the item in hand

  /** For a window of one sample: the sample in hand at a pause starts after the reset and joins the
      parked ones at the next pause, which follows at once. */
  lemma StuckByOneMore(k: Setup) returns (t: State)
    requires k.Valid() && k.mode.Cancels() && !k.mode.Orderly? && k.Feeds(3 * k.c.maxRequired)
    requires k.c.Window() == 1 && k.c.maxRequired == k.c.maxConcurrent + 1
    ensures k.Reached(t) && Stuck(k.c, t)
  {
    hide Shows, Setup.Reached, Stuck;
    var v;
    t, v := LateReset(k);
    var id := v.hand.value;
    t := Launch(k, t, v);
    assert v.running + multiset{id} == multiset{id};
    v := v.(hand := None, running := multiset{id}, uncollected := t.tasks.uncollected);
    t := Finish(k, t, v, id);
    v := v.(running := multiset{}, uncollected := v.uncollected + 1, queue := v.queue + [Rollout(id, v.version)]);
    var n := k.c.maxConcurrent;
    t := Spread(k, t, v, n);
    v := v.(next := v.next + n, staleness := v.staleness + n, running := t.tasks.running, uncollected := t.tasks.uncollected);
    t := Take(k, t, v);
    v := v.(next := v.next + 1, hand := Some(v.next), staleness := v.staleness + 1);
    t := SyncCancelling(k, t, v);
    v := Synced(v).(running := multiset{}, parked := t.tasks.cancelQueue);
    t := Consume(k, t, v, 1);
    v := AfterConsuming(k.c, v, 1);
    assert v.queue == [];
    t := Announce(k, t, v);
    v := Announced(v);
    id := v.hand.value;
    t := Launch(k, t, v);
    v := v.(hand := None, running := v.running + multiset{id}, uncollected := t.tasks.uncollected);
    t := SyncCancelling(k, t, v);
    v := Synced(v).(running := multiset{}, parked := t.tasks.cancelQueue);
    t := Announce(k, t, v);
    t := UseUp(k, t, Announced(v));
  }

  /** With cancellation and a timely monitor, and resets as they come: the same, except that a window
      of one sample needs one task less. */
  lemma TimelyPartialExact(k: Setup)
    requires k.Valid() && k.mode == TimelyPartial && k.Feeds((k.c.Window() + 2) * k.c.maxRequired)
    ensures NeverStuck(k) <==>
              || k.c.maxRequired == k.c.Window()
              || k.c.maxConcurrent + k.c.Window() + (if k.c.Window() == 1 then 1 else 0) <= k.c.maxRequired
  {
    var c, w := k.c, k.c.Window();
    c.Positive();
    if c.maxRequired == w || c.maxConcurrent + w + (if w == 1 then 1 else 0) <= c.maxRequired {
      forall s: State | k.Reached(s)
        ensures !Stuck(c, s)
      {
        var es :| k.RunTo(es, s);
        if c.maxRequired == w {
          AlwaysWeaker(c, Init(k.version, k.first), es, k.Ok(), PartialEvent);
          NotStuckAtThresholdZero(c, k.version, k.first, es);
        } else {
          AlwaysWeaker(c, Init(k.version, k.first), es, k.Ok(), TimelyPartialEvent);
          TimelyParkBound(c, k.version, k.first, es);
          NotStuckByParking(c, s, c.maxRequired + 1);
        }
      }
    } else if c.maxConcurrent > c.maxRequired - w {
      var t := StuckByCancellation(k);
      assert k.Reached(t) && Stuck(c, t);
    } else {
      assert (w + 2) * c.maxRequired == 3 * c.maxRequired;
      var t := StuckByOneMore(k);
      assert k.Reached(t) && Stuck(c, t);
    }
  }

  // ------------------------------------------------ with any monitor

  lemma Cancel(k: Setup, s: State, v: View) returns (t: State)
    requires k.c.Valid() && Shows(k, s, v) && k.mode.Cancels() && v.update != NoUpdate
    ensures |t.tasks.cancelQueue| == |v.parked| + |v.running| && t.tasks.uncollected == v.uncollected + |v.running|
    ensures Shows(k, t, v.(running := multiset{}, uncollected := t.tasks.uncollected, parked := t.tasks.cancelQueue))
  {
    hide Setup.Reached;
    t := CancelAll(k, s);
  }

  /** The processor takes a cancelled sample and starts it again. */
  lemma Resubmit(k: Setup, s: State, v: View) returns (t: State)
    requires k.c.Valid() && Shows(k, s, v) && v.hand == None && |v.parked| == 1 && v.running == multiset{} && !v.paused
    requires |v.queue| < k.c.maxRequired && v.staleness < k.c.maxRequired
    ensures |t.tasks.running| == 1
    ensures v.uncollected < k.c.maxConcurrent ==> t.tasks.uncollected == v.uncollected
    ensures Shows(k, t, v.(running := t.tasks.running, uncollected := t.tasks.uncollected, parked := []))
  {
    hide Setup.Reached;
    t := Go(k, s, Proc(ProcCheck));
    var w := v.(hand := Some(v.parked[0]), parked := []);
    t := Launch(k, t, w);
    TasksShown(k, t, w.(hand := None, running := w.running + multiset{w.hand.value}, uncollected := t.tasks.uncollected));
  }

  /** One sample is cancelled and starts again n times; each time leaves a finished task to collect. */
  lemma {:induction false} Recycle(k: Setup, s: State, v: View, n: nat) returns (t: State)
    requires k.c.Valid() && Shows(k, s, v) && k.mode.Cancels() && v.update != NoUpdate && !v.paused
    requires v.hand == None && v.parked == [] && |v.running| == 1 && v.uncollected + n < k.c.maxConcurrent
    requires |v.queue| < k.c.maxRequired && v.staleness < k.c.maxRequired
    ensures |t.tasks.running| == 1
    ensures Shows(k, t, v.(running := t.tasks.running, uncollected := v.uncollected + n))
    decreases n
  {
    hide Shows, Setup.Reached;
    TasksShown(k, s, v);
    if n == 0 {
      t := s;
    } else {
      t := Cancel(k, s, v);
      var w := v.(running := multiset{}, uncollected := v.uncollected + 1, parked := t.tasks.cancelQueue);
      t := Resubmit(k, t, w);
      t := Recycle(k, t, w.(running := t.tasks.running, parked := []), n - 1);
    }
  }

  /** A sample starts while the version waits to be announced, and is cancelled n times before the
      counter is reset: it is then counted n + 1 times. */
  lemma CountedAgain(k: Setup, s: State, v: View, n: nat) returns (t: State, u: View)
    requires k.Valid() && k.mode.Cancels() && Shows(k, s, v) && v.hand == None && v.running == multiset{} && v.parked == []
    requires v.uncollected == 0 && !v.paused && v.update.Queued? && 1 <= n <= k.c.maxConcurrent && !k.mode.Orderly?
    requires |v.queue| + 1 < k.c.maxRequired && v.staleness + 1 < k.c.maxRequired && v.next < k.c.totalRolloutSteps
    requires n + 1 + |v.queue| < k.c.maxRequired
    ensures Shows(k, t, u) && u.hand == None && |u.running| == 1 && u.parked == [] && !u.paused && u.update == Resuming
    ensures u.next == v.next + 1 && u.queue == v.queue && u.staleness == n + 1 + |v.queue|
    ensures u.phase == v.phase && u.used == v.used
  {
    hide Shows, Setup.Reached;
    t := Take(k, s, v);
    u := v.(next := v.next + 1, hand := Some(v.next), staleness := v.staleness + 1);
    t := Launch(k, t, u);
    u := u.(hand := None, running := u.running + multiset{v.next});
    t := Recycle(k, t, u, n - 1);
    u := u.(running := t.tasks.running, uncollected := n - 1);
    t := Cancel(k, t, u);
    u := u.(running := multiset{}, uncollected := n, parked := t.tasks.cancelQueue);
    t := Reset(k, t, u);
    u := ResetOf(u);
    t := Resubmit(k, t, u);
    u := u.(running := t.tasks.running, uncollected := t.tasks.uncollected, parked := []);
  }

  /** The rest of the limit is taken by samples that are cancelled before the resumption ends. */
  lemma ParkRest(k: Setup, s: State, v: View, n: nat) returns (t: State)
    requires k.Valid() && k.mode.Cancels() && Shows(k, s, v) && v.hand == None && v.parked == [] && !v.paused
    requires v.update == Resuming && v.phase == Collecting && v.used == 0 && |v.queue| < k.c.Window()
    requires 1 <= n && v.staleness + n == k.c.maxRequired && |v.running| + n <= k.c.maxConcurrent + 1
    requires v.next + n <= k.c.totalRolloutSteps
    ensures k.Reached(t) && Stuck(k.c, t)
  {
    hide Shows, Setup.Reached, Stuck;
    var most := if |v.running| + n <= k.c.maxConcurrent then n else n - 1;
    t := Spread(k, s, v, most);
    var u := v.(next := v.next + most, staleness := v.staleness + most, running := t.tasks.running, uncollected := t.tasks.uncollected);
    if most < n {
      t := Take(k, t, u);
      u := u.(next := u.next + 1, hand := Some(u.next), staleness := u.staleness + 1);
      t := Cancel(k, t, u);
      u := u.(running := multiset{}, uncollected := t.tasks.uncollected, parked := t.tasks.cancelQueue);
      t := Launch(k, t, u);
      u := u.(hand := None, running := u.running + multiset{u.hand.value}, uncollected := t.tasks.uncollected);
    }
    t := Cancel(k, t, u);
    u := u.(running := multiset{}, uncollected := t.tasks.uncollected, parked := t.tasks.cancelQueue);
    t := Resume(k, t, u);
    t := UseUp(k, t, u.(paused := false, update := NoUpdate));
  }

  /** The late monitor un-pauses after a pause that leaves a window but for one sample in the queue;
      what the limit exceeds the rest by is counted again, and the rest is parked. */
  lemma StuckByLateMonitor(k: Setup) returns (t: State)
    requires k.Valid() && k.mode == Partial && 1 <= k.c.Window() < k.c.maxRequired <= k.c.Window() + 2 * k.c.maxConcurrent
    requires k.Feeds((k.c.Window() + 2) * k.c.maxRequired)
    ensures k.Reached(t) && Stuck(k.c, t)
  {
    hide Shows, Round, Setup.Reached, Stuck;
    var w, m, v := k.c.Window(), k.c.maxRequired, Start(k);
    t, v := WindowAhead(k);
    t, v := AlmostWindow(k, t, v);
    t := SyncLate(k, t, v);
    v := Synced(v).(paused := false);
    if m <= w + k.c.maxConcurrent {
      t := Reset(k, t, v);
      t := ParkRest(k, t, ResetOf(v), m - w + 1);
    } else {
      t, v := CountedAgain(k, t, v, m - w - k.c.maxConcurrent);
      t := ParkRest(k, t, v, k.c.maxConcurrent);
    }
  }

  /** With cancellation, and whatever the monitor and the resets do: no run gets stuck exactly when
      the limit is one window, or exceeds what a window lacks, all tasks parked and all tasks counted
      again make up. */
  lemma PartialExact(k: Setup)
    requires k.Valid() && k.mode == Partial && k.Feeds((k.c.Window() + 2) * k.c.maxRequired)
    ensures NeverStuck(k) <==> k.c.maxRequired == k.c.Window() || k.c.Window() + 2 * k.c.maxConcurrent < k.c.maxRequired
  {
    k.c.Positive();
    if k.c.maxRequired != k.c.Window() && k.c.maxRequired <= k.c.Window() + 2 * k.c.maxConcurrent {
      var t := StuckByLateMonitor(k);
      assert k.Reached(t) && Stuck(k.c, t);
    } else {
      forall s: State | k.Reached(s)
        ensures !Stuck(k.c, s)
      {
        var es :| k.RunTo(es, s);
        if k.c.maxRequired == k.c.Window() {
          AlwaysWeaker(k.c, Init(k.version, k.first), es, k.Ok(), PartialEvent);
          NotStuckAtThresholdZero(k.c, k.version, k.first, es);
        } else {
          NotStuckWithRoom(k.c, k.version, k.first, es);
        }
      }
    }
  }

  lemma NotStuckAtThresholdZero(c: Config, version: int, first: nat, es: seq<Event>)
    requires c.Valid() && c.maxRequired == c.Window() && Run(c, Init(version, first), es).Some?
    requires Always(c, Init(version, first), es, PartialEvent)
    ensures !Stuck(c, Run(c, Init(version, first), es).value)
  {
    var s := Run(c, Init(version, first), es).value;
    ZeroParkBound(c, version, first, es);
    if s.trainer.phase == Collecting { NotYetFull(c, s.trainer); }
  }

  /** With such a limit no run at all gets stuck. */
  lemma NotStuckWithRoom(c: Config, version: int, first: nat, es: seq<Event>)
    requires c.Valid() && c.Window() + 2 * c.maxConcurrent < c.maxRequired && Run(c, Init(version, first), es).Some?
    ensures !Stuck(c, Run(c, Init(version, first), es).value)
  {
    var s := Run(c, Init(version, first), es).value;
    LooseBound(c, version, first, es);
    if s.trainer.phase == Collecting { NotYetFull(c, s.trainer); }
  }
}
