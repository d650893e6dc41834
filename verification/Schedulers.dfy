/** The pipeline schedulers of on-policy distillation (recipe/gkd/ray_trainer.py). The schedulers are
    generators: an object with the generator's variables, whose method `Next` runs from one yield to
    the next. Everything observable is an event in the trainer's trace. */
module Schedulers {
  import opened Options

  // ------------------------------------------------ events and their meaning

  /** Rollouts are numbered in the order in which they are launched; Launch names the batch. */
  datatype Event =
    | SyncRolloutWeights
    | Launch(batch: nat)
    | WaitRollout(fut: nat)
    | SubmitTeacher(fut: nat)
    | Resolve(fut: nat, ok: bool)
    | Yield(fut: nat)
    | UpdateActor(fut: nat)

  /** A launched rollout: its batch, how many updates the weights that generate it contain, and whether
      the weights were synchronised directly before it. */
  datatype Rollout = Rollout(batch: nat, version: nat, direct: bool)

  /** An update of the actor, made on a batch generated `lag` updates ago. */
  datatype Update = Update(batch: nat, lag: int)

  datatype World = World(
    synced: Option<nat>,         // updates contained in the rollout workers' weights; None: dummy weights
    justSynced: bool,            // the last event was a synchronisation
    rollouts: seq<Rollout>,
    waited: nat,                 // the rollouts before this one have finished
    submitted: nat,
    resolved: nat,
    buffer: Option<nat>,         // whose teacher rows the shared padded buffers hold
    yielded: nat,
    updates: seq<Update>)

  function Apply(w: World, e: Event): World {
    match e
    case SyncRolloutWeights => w.(synced := Some(|w.updates|), justSynced := true)
    case Launch(batch) =>
      var version := if w.synced.Some? then w.synced.value else 0;
      w.(rollouts := w.rollouts + [Rollout(batch, version, w.justSynced)], justSynced := false)
    case WaitRollout(_) => w.(waited := w.waited + 1, justSynced := false)
    case SubmitTeacher(_) => w.(submitted := w.submitted + 1, justSynced := false)
    case Resolve(fut, ok) => w.(resolved := w.resolved + 1, buffer := if ok then Some(fut) else w.buffer, justSynced := false)
    case Yield(_) => w.(yielded := w.yielded + 1, justSynced := false)
    case UpdateActor(fut) =>
      if fut < |w.rollouts| then
        w.(updates := w.updates + [Update(w.rollouts[fut].batch, |w.updates| - w.rollouts[fut].version)], justSynced := false)
      else w
  }

  /** What must hold when an event happens: the weights are never replaced, and no second rollout is
      started, while one is running; no rollout starts before the workers have the actor's weights; a
      teacher request is made for a finished rollout and resolved once; results are handed out in
      order, right after they were resolved; and the update is made while the shared buffers still
      hold the rows of its own batch. */
  predicate Legal(w: World, e: Event) {
    match e
    case SyncRolloutWeights => w.waited == |w.rollouts|
    case Launch(_) => w.waited == |w.rollouts| && w.synced.Some?
    case WaitRollout(fut) => fut == w.waited < |w.rollouts|
    case SubmitTeacher(fut) => fut == w.submitted < w.waited
    case Resolve(fut, _) => fut == w.resolved < w.submitted
    case Yield(fut) => fut == w.yielded == w.resolved - 1
    case UpdateActor(fut) => fut < |w.rollouts| && fut == w.yielded - 1 && w.buffer == Some(fut) && |w.updates| <= fut
  }

  /** The rollout workers start with dummy weights (recipe/gkd/config/on_policy_distill_trainer.yaml:218). */
  function Start(): World { World(None, false, [], 0, 0, 0, None, 0, []) }

  function State(trace: seq<Event>): World {
    if trace == [] then Start() else Apply(State(trace[..|trace| - 1]), trace[|trace| - 1])
  }

  ghost predicate Lawful(trace: seq<Event>) {
    forall k :: 0 <= k < |trace| ==> Legal(State(trace[..k]), trace[k])
  }

  lemma LawfulSnoc(trace: seq<Event>, e: Event)
    requires Lawful(trace) && Legal(State(trace), e)
    ensures Lawful(trace + [e]) && State(trace + [e]) == Apply(State(trace), e)
  {
    var t := trace + [e];
    assert t[..|trace|] == trace;
    forall k | 0 <= k < |t|
      ensures Legal(State(t[..k]), t[k])
    {
      if k < |trace| { assert t[..k] == trace[..k]; }
    }
  }

  // ------------------------------------------------ the timetable

  /** The two schedulers; the one-step scheduler as shipped or as its comments describe it. */
  datatype Schedule = TwoStep(batches: nat) | OneStep(shipped: bool, batches: nat)
  {
    /** How many results lie between the launch of a rollout and its own result. */
    function Depth(): nat { if TwoStep? then 2 else 1 }

    function RepeatsFirst(): bool { OneStep? && shipped }

    /** How many rollouts are launched in all. */
    function Rollouts(): nat { if RepeatsFirst() then batches + 1 else batches }

    /** Whether the weights are synchronised directly before rollout g. */
    predicate SyncsBefore(g: nat) {
      if TwoStep? then g != 1 && g != 2 else g != if shipped then 2 else 1
    }

    /** How many results `fit` has dealt with when rollout g is launched. */
    function SettledAtLaunch(g: nat): nat { if g < Depth() then 0 else g - Depth() }

    /** What rollout g is: its weights contain the updates of the results dealt with before it was
        launched, or no update if it is not preceded by a synchronisation. */
    function Planned(fails: nat -> bool, g: nat): Rollout {
      Rollout(BatchOf(RepeatsFirst(), g), if SyncsBefore(g) then Trained(fails, SettledAtLaunch(g)) else 0, SyncsBefore(g))
    }
  }

  /** The batch of each rollout: its own number, except that the one-step scheduler as it is generates
      batch 0 twice, and every other batch one rollout later. */
  function BatchOf(repeatsFirst: bool, g: nat): nat { if repeatsFirst && g > 0 then g - 1 else g }

  /** How many of the first n results were trained on. */
  function Trained(fails: nat -> bool, n: nat): nat {
    if n == 0 then 0 else Trained(fails, n - 1) + (if fails(n - 1) then 0 else 1)
  }

  function Min(a: nat, b: nat): nat { if a <= b then a else b }

  /** Everything before rollout g is with the teacher or done when it is launched. */
  predicate LaunchDue(schedule: Schedule, fails: nat -> bool, w: World, batch: nat) {
    var g := |w.rollouts|;
    && g < schedule.Rollouts() && batch == BatchOf(schedule.RepeatsFirst(), g)
    && w.waited == w.submitted == g
    && w.resolved == (if g < 1 then 0 else g - 1) && w.yielded == schedule.SettledAtLaunch(g)
    && |w.updates| == Trained(fails, w.yielded)
  }

  /** When each event is due: how far everything else is at that moment. */
  predicate OnTime(schedule: Schedule, fails: nat -> bool, w: World, e: Event) {
    match e
    case SyncRolloutWeights =>
      schedule.SyncsBefore(|w.rollouts|) && LaunchDue(schedule, fails, w, BatchOf(schedule.RepeatsFirst(), |w.rollouts|))
    case Launch(batch) => LaunchDue(schedule, fails, w, batch) && (w.justSynced <==> schedule.SyncsBefore(|w.rollouts|))
    case WaitRollout(fut) => |w.rollouts| == fut + 1 && w.resolved == fut
    case SubmitTeacher(fut) => w.waited == fut + 1 && w.resolved == fut
    case Resolve(fut, ok) => |w.rollouts| == Min(fut + 2, schedule.Rollouts()) && w.submitted == fut + 1 && ok == !fails(fut)
    case Yield(fut) =>
      && |w.rollouts| == Min(fut + 1 + schedule.Depth(), schedule.Rollouts())
      && w.submitted == Min(fut + schedule.Depth(), schedule.Rollouts())
    case UpdateActor(fut) => !fails(fut) && w.resolved == fut + 1
  }

  ghost predicate Punctual(schedule: Schedule, fails: nat -> bool, trace: seq<Event>) {
    forall k :: 0 <= k < |trace| ==> OnTime(schedule, fails, State(trace[..k]), trace[k])
  }

  lemma PunctualSnoc(schedule: Schedule, fails: nat -> bool, trace: seq<Event>, e: Event)
    requires Punctual(schedule, fails, trace) && OnTime(schedule, fails, State(trace), e)
    ensures Punctual(schedule, fails, trace + [e])
  {
    var t := trace + [e];
    assert t[..|trace|] == trace;
    forall k | 0 <= k < |t|
      ensures OnTime(schedule, fails, State(t[..k]), t[k])
    {
      if k < |trace| { assert t[..k] == trace[..k]; }
    }
  }

  // ------------------------------------------------ what the rules say about the trace

  lemma StateSnoc(trace: seq<Event>, k: nat)
    requires k < |trace|
    ensures State(trace[..k + 1]) == Apply(State(trace[..k]), trace[k])
  {
    assert trace[..k + 1][..k] == trace[..k];
  }

  lemma StateAtStart(trace: seq<Event>)
    ensures State(trace[..0]) == Start()
  {
  }

  lemma {:induction false} ResolvedGrows(trace: seq<Event>, i: nat, k: nat)
    requires i <= k <= |trace|
    ensures State(trace[..i]).resolved <= State(trace[..k]).resolved
    decreases k
  {
    hide State;
    if i < k {
      ResolvedGrows(trace, i, k - 1);
      StateSnoc(trace, k - 1);
    }
  }

  /** No teacher future is resolved twice. */
  lemma ResolvedOnce(trace: seq<Event>, i: nat, k: nat)
    requires Lawful(trace) && i < k < |trace| && trace[i].Resolve? && trace[k].Resolve?
    ensures trace[i].fut < trace[k].fut
  {
    hide Apply;
    assert Legal(State(trace[..i]), trace[i]) && Legal(State(trace[..k]), trace[k]);
    ResolveCounts(trace, i);
    ResolvedGrows(trace, i + 1, k);
  }

  lemma ResolveCounts(trace: seq<Event>, i: nat)
    requires i < |trace| && trace[i].Resolve?
    ensures State(trace[..i + 1]).resolved == State(trace[..i]).resolved + 1
  {
    StateSnoc(trace, i);
  }

  lemma {:induction false} WaitedFor(trace: seq<Event>, k: nat, fut: nat) returns (w: nat)
    requires Lawful(trace) && k <= |trace| && fut < State(trace[..k]).waited
    ensures w < k && trace[w] == WaitRollout(fut)
    decreases k
  {
    hide State;
    StateAtStart(trace);
    StateSnoc(trace, k - 1);
    if fut < State(trace[..k - 1]).waited {
      w := WaitedFor(trace, k - 1, fut);
    } else {
      w := k - 1;
      assert Legal(State(trace[..w]), trace[w]);
    }
  }

  /** When weights are synchronised, every rollout launched before has been waited for. */
  lemma NoSyncDuringRollout(trace: seq<Event>, k: nat, fut: nat) returns (w: nat)
    requires Lawful(trace) && k < |trace| && trace[k].SyncRolloutWeights? && fut < |State(trace[..k]).rollouts|
    ensures w < k && trace[w] == WaitRollout(fut)
  {
    hide State, Apply;
    assert Legal(State(trace[..k]), trace[k]);
    w := WaitedFor(trace, k, fut);
  }

  /** The rows in the shared buffers are those of the last answer that was resolved. */
  lemma {:induction false} LastResolved(trace: seq<Event>, k: nat, fut: nat) returns (r: nat)
    requires k <= |trace| && State(trace[..k]).buffer == Some(fut)
    ensures r < k && trace[r] == Resolve(fut, true)
    ensures forall j :: r < j < k ==> !(trace[j].Resolve? && trace[j].ok)
    decreases k
  {
    hide State;
    StateAtStart(trace);
    StateSnoc(trace, k - 1);
    if trace[k - 1].Resolve? && trace[k - 1].ok {
      r := k - 1;
    } else {
      r := LastResolved(trace, k - 1, fut);
    }
  }

  /** So at every update the buffers hold the rows of the batch that is trained on. */
  lemma UpdateSeesItsRows(trace: seq<Event>, k: nat) returns (r: nat)
    requires Lawful(trace) && k < |trace| && trace[k].UpdateActor?
    ensures r < k && trace[r] == Resolve(trace[k].fut, true)
    ensures forall j :: r < j < k ==> !(trace[j].Resolve? && trace[j].ok)
  {
    hide State, Apply;
    assert Legal(State(trace[..k]), trace[k]);
    r := LastResolved(trace, k, trace[k].fut);
  }

  /** Nothing is lawful before the weights have been synchronised. */
  lemma StartsWithSync(trace: seq<Event>)
    requires Lawful(trace) && (trace != [] || State(trace).yielded > 0)
    ensures trace != [] && trace[0] == SyncRolloutWeights
  {
    assert State(trace[..0]) == Start();
    assert Legal(State(trace[..0]), trace[0]);
  }

  /** A rollout counts as launched directly after a synchronisation exactly if it was. */
  lemma DirectMeansSynced(trace: seq<Event>, k: nat)
    requires Lawful(trace) && k < |trace| && trace[k].Launch?
    ensures k > 0
    ensures var rollouts := State(trace[..k + 1]).rollouts;
            rollouts != [] && (rollouts[|rollouts| - 1].direct <==> trace[k - 1] == SyncRolloutWeights)
  {
    StartsWithSync(trace);
    StateSnoc(trace, k);
    StateSnoc(trace, k - 1);
    assert Legal(State(trace[..k - 1]), trace[k - 1]);
  }

  function UpdatesMade(trace: seq<Event>): nat {
    if trace == [] then 0 else UpdatesMade(trace[..|trace| - 1]) + (if trace[|trace| - 1].UpdateActor? then 1 else 0)
  }

  /** How many updates had been made at the last synchronisation. */
  function UpdatesSynced(trace: seq<Event>): Option<nat> {
    if trace == [] then None
    else if trace[|trace| - 1] == SyncRolloutWeights then Some(UpdatesMade(trace[..|trace| - 1]))
    else UpdatesSynced(trace[..|trace| - 1])
  }

  lemma {:induction false} SyncedMeaning(trace: seq<Event>, k: nat)
    requires Lawful(trace) && k <= |trace|
    ensures var w := State(trace[..k]); |w.updates| == UpdatesMade(trace[..k]) && w.synced == UpdatesSynced(trace[..k])
  {
    if k > 0 {
      SyncedMeaning(trace, k - 1);
      StateSnoc(trace, k - 1);
      assert trace[..k][..k - 1] == trace[..k - 1];
      assert Legal(State(trace[..k - 1]), trace[k - 1]);
    }
  }

  /** A rollout is generated by weights that contain the updates made before the last synchronisation
      before it. */
  lemma LaunchedWith(trace: seq<Event>, k: nat)
    requires Lawful(trace) && k < |trace| && trace[k].Launch?
    ensures var rollouts := State(trace[..k + 1]).rollouts;
            rollouts != [] && UpdatesSynced(trace[..k]) == Some(rollouts[|rollouts| - 1].version)
  {
    SyncedMeaning(trace, k);
    StateSnoc(trace, k);
    assert Legal(State(trace[..k]), trace[k]);
  }

  function BatchesOf(updates: seq<Update>): (r: seq<nat>)
    ensures |r| == |updates|
  {
    seq(|updates|, u requires 0 <= u < |updates| => updates[u].batch)
  }

  /** The batches of the first n rollouts for which the teacher did not fail. */
  function Survivors(repeatsFirst: bool, fails: nat -> bool, n: nat): seq<nat> {
    if n == 0 then []
    else Survivors(repeatsFirst, fails, n - 1) + (if fails(n - 1) then [] else [BatchOf(repeatsFirst, n - 1)])
  }

  /** With one rollout for each batch, the survivors are the batches that did not fail: once each, in order. */
  lemma {:induction false} SurvivorsOnceInOrder(fails: nat -> bool, n: nat)
    ensures var r := Survivors(false, fails, n);
            && (forall g: nat :: g in r <==> g < n && !fails(g))
            && (forall i, j :: 0 <= i < j < |r| ==> r[i] < r[j])
  {
    if n > 0 {
      SurvivorsOnceInOrder(fails, n - 1);
      var before, r := Survivors(false, fails, n - 1), Survivors(false, fails, n);
      assert forall i :: 0 <= i < |before| ==> before[i] in before && r[i] == before[i];
    }
  }

  /** With the repetition, n steps over n batches train batch 0 twice and never reach batch n - 1. */
  lemma {:induction false} RepetitionMissesLast(fails: nat -> bool, n: nat)
    requires n >= 2
    ensures n - 1 !in Survivors(true, fails, n)
    ensures !fails(0) && !fails(1) ==> [0, 0] <= Survivors(true, fails, n)
  {
    if n > 2 {
      RepetitionMissesLast(fails, n - 1);
      SurvivorsBelow(fails, n - 1);
    } else {
      assert Survivors(true, fails, 0) == [];
      assert Survivors(true, fails, 1) == if fails(0) then [] else [0];
    }
  }

  lemma {:induction false} SurvivorsBelow(fails: nat -> bool, n: nat)
    ensures forall b :: b in Survivors(true, fails, n) ==> b == 0 || b < n - 1
  {
    if n > 0 { SurvivorsBelow(fails, n - 1); }
  }

  // ------------------------------------------------ the trainer

  class OnPolicyDistillTrainer {
    const teacherFails: nat -> bool      // for which rollouts the teacher's answer raises
    ghost const schedule: Schedule       // the scheduler it works with
    var trace: seq<Event>
    var launched: nat

    ghost predicate Valid()
      reads this
    {
      Lawful(trace) && Punctual(schedule, teacherFails, trace) && launched == |State(trace).rollouts|
    }

    ghost function Now(): World
      reads this
    {
      State(trace)
    }

    constructor (fails: nat -> bool, ghost schedule: Schedule)
      ensures Valid() && Now() == Start() && teacherFails == fails && this.schedule == schedule
    {
      teacherFails, trace, launched := fails, [], 0;
      this.schedule := schedule;
    }

    method Emit(e: Event)
      requires Lawful(trace) && Punctual(schedule, teacherFails, trace)
      requires Legal(Now(), e) && OnTime(schedule, teacherFails, Now(), e)
      modifies this`trace
      ensures Lawful(trace) && Punctual(schedule, teacherFails, trace) && Now() == Apply(old(Now()), e)
    {
      LawfulSnoc(trace, e);
      PunctualSnoc(schedule, teacherFails, trace, e);
      trace := trace + [e];
    }

    method AsyncGenNextBatch(batch: nat, syncBeforeGeneration: bool) returns (fut: nat)
      requires Valid() && LaunchDue(schedule, teacherFails, Now(), batch) && !Now().justSynced
      requires syncBeforeGeneration == schedule.SyncsBefore(|Now().rollouts|) && (syncBeforeGeneration || Now().synced.Some?)
      modifies this
      ensures Valid() && fut == |old(Now()).rollouts|
      ensures var w := old(Now());
              var synced := if syncBeforeGeneration then Some(|w.updates|) else w.synced;
              Now() == w.(synced := synced, rollouts := w.rollouts + [Rollout(batch, synced.value, syncBeforeGeneration)])
    {
      if syncBeforeGeneration {
        Emit(SyncRolloutWeights);
      }
      Emit(Launch(batch));
      fut, launched := launched, launched + 1;
    }

    method AsyncGetTeacherKnowledge(fut: nat)
      requires Valid() && fut == Now().waited == Now().submitted == Now().resolved == |Now().rollouts| - 1 && !Now().justSynced
      modifies this
      ensures Valid() && Now() == old(Now()).(waited := fut + 1, submitted := fut + 1)
    {
      Emit(WaitRollout(fut));
      Emit(SubmitTeacher(fut));
    }

    method Get(fut: nat)
      requires Valid() && fut == Now().resolved == Now().submitted - 1 && !Now().justSynced
      requires |Now().rollouts| == Min(fut + 2, schedule.Rollouts())
      modifies this
      ensures Valid()
      ensures Now() == old(Now()).(resolved := fut + 1, buffer := if teacherFails(fut) then old(Now()).buffer else Some(fut))
    {
      Emit(Resolve(fut, !teacherFails(fut)));
    }

    method HandOver(fut: nat)
      requires Valid() && fut == Now().yielded == Now().resolved - 1 && !Now().justSynced
      requires |Now().rollouts| == Min(fut + 1 + schedule.Depth(), schedule.Rollouts())
      requires Now().submitted == Min(fut + schedule.Depth(), schedule.Rollouts())
      modifies this
      ensures Valid() && Now() == old(Now()).(yielded := fut + 1)
    {
      Emit(Yield(fut));
    }

    /** The body of `fit` for one scheduled result: skipped if the teacher failed. */
    method Step(fut: nat)
      requires Valid() && fut < |Now().rollouts| && fut == Now().yielded - 1 == Now().resolved - 1 && |Now().updates| <= fut
      requires teacherFails(fut) || Now().buffer == Some(fut)
      modifies this
      ensures Valid()
      ensures Now() == if teacherFails(fut) then old(Now()) else Apply(old(Now()), UpdateActor(fut))
    {
      if !teacherFails(fut) {
        Emit(UpdateActor(fut));
      }
    }
  }

  // ------------------------------------------------ what was planned

  /** The updates made for the first n results. One made for result g is as many updates old as were
      made between those that its weights contain and itself. */
  function PlannedUpdates(schedule: Schedule, fails: nat -> bool, n: nat): (r: seq<Update>)
    ensures |r| == Trained(fails, n) <= n
  {
    if n == 0 then []
    else
      var planned := schedule.Planned(fails, n - 1);
      PlannedUpdates(schedule, fails, n - 1)
      + if fails(n - 1) then [] else [Update(planned.batch, Trained(fails, n - 1) - planned.version)]
  }

  ghost predicate AsPlanned(schedule: Schedule, fails: nat -> bool, rollouts: seq<Rollout>, updates: seq<Update>, settled: nat) {
    && updates == PlannedUpdates(schedule, fails, settled)
    && forall g :: 0 <= g < |rollouts| ==> rollouts[g] == schedule.Planned(fails, g)
  }

  lemma PlannedLaunch(schedule: Schedule, fails: nat -> bool, rollouts: seq<Rollout>, updates: seq<Update>, settled: nat, version: nat)
    requires AsPlanned(schedule, fails, rollouts, updates, settled)
    requires version == if schedule.SyncsBefore(|rollouts|) then Trained(fails, schedule.SettledAtLaunch(|rollouts|)) else 0
    ensures var g := |rollouts|;
            var launched := Rollout(BatchOf(schedule.RepeatsFirst(), g), version, schedule.SyncsBefore(g));
            AsPlanned(schedule, fails, rollouts + [launched], updates, settled)
  {
  }

  lemma PlannedSettle(schedule: Schedule, fails: nat -> bool, w: World, fut: nat)
    requires AsPlanned(schedule, fails, w.rollouts, w.updates, fut) && fut < |w.rollouts|
    ensures |w.updates| <= fut
    ensures var after := if fails(fut) then w else Apply(w, UpdateActor(fut));
            && AsPlanned(schedule, fails, w.rollouts, after.updates, fut + 1) && |after.updates| <= fut + 1
            && after == w.(updates := after.updates, justSynced := if fails(fut) then w.justSynced else false)
  {
  }

  lemma {:induction false} PlannedSurvivors(schedule: Schedule, fails: nat -> bool, n: nat)
    ensures BatchesOf(PlannedUpdates(schedule, fails, n)) == Survivors(schedule.RepeatsFirst(), fails, n)
  {
    if n > 0 {
      PlannedSurvivors(schedule, fails, n - 1);
      var before := PlannedUpdates(schedule, fails, n - 1);
      var after := PlannedUpdates(schedule, fails, n);
      if !fails(n - 1) {
        assert BatchesOf(after) == BatchesOf(before) + [after[|before|].batch];
      }
    }
  }

  lemma TrainedNext(fails: nat -> bool, n: nat)
    ensures Trained(fails, n + 1) == Trained(fails, n) + if fails(n) then 0 else 1
  {
  }

  /** The update for result g is at most two updates old; with the one-step scheduler at most one,
      except that of result 2 as shipped. */
  lemma PlannedLag(schedule: Schedule, fails: nat -> bool, g: nat)
    ensures var lag := Trained(fails, g) - schedule.Planned(fails, g).version;
            && 0 <= lag <= 2
            && (schedule.OneStep? && !(schedule.shipped && g == 2) ==> lag <= 1)
            && (schedule.OneStep? && schedule.shipped && g == 2 ==> (lag == 2 <==> !fails(0) && !fails(1)))
  {
    TrainedNext(fails, 0);
    TrainedNext(fails, 1);
    if g >= 1 { TrainedNext(fails, g - 1); }
    if g >= 2 { TrainedNext(fails, g - 2); }
  }

  /** As shipped, one update of the one-step scheduler can be two updates old: that of rollout 2, if
      the first three results are trained on. */
  predicate TwoOld(schedule: Schedule, fails: nat -> bool, settled: nat) {
    schedule.RepeatsFirst() && settled > 2 && !fails(0) && !fails(1) && !fails(2)
  }

  ghost predicate LagsUpTo(updates: seq<Update>, lag: int) { forall u :: 0 <= u < |updates| ==> 0 <= updates[u].lag <= lag }

  lemma {:induction false} PlannedLags(schedule: Schedule, fails: nat -> bool, n: nat)
    ensures var updates := PlannedUpdates(schedule, fails, n);
            && LagsUpTo(updates, 2)
            && (schedule.OneStep? && !TwoOld(schedule, fails, n) ==> LagsUpTo(updates, 1))
            && (TwoOld(schedule, fails, n) ==> |updates| > 2 && updates[2].lag == 2)
  {
    if n > 0 {
      PlannedLags(schedule, fails, n - 1);
      PlannedLag(schedule, fails, n - 1);
      var before, updates := PlannedUpdates(schedule, fails, n - 1), PlannedUpdates(schedule, fails, n);
      if fails(n - 1) {
        assert updates == before;
      } else {
        var made := Update(schedule.Planned(fails, n - 1).batch, Trained(fails, n - 1) - schedule.Planned(fails, n - 1).version);
        assert updates == before + [made];
        assert 0 <= made.lag <= 2;
        assert LagsUpTo(updates, 2);
        assert schedule.OneStep? && !TwoOld(schedule, fails, n) ==> made.lag <= 1;
      }
      TrainedNext(fails, 0);
      TrainedNext(fails, 1);
    }
  }

  /** All updates are at most one update old exactly if the exception does not occur. */
  lemma OneStepLag(schedule: Schedule, fails: nat -> bool, n: nat)
    requires schedule.OneStep?
    ensures var updates := PlannedUpdates(schedule, fails, n);
            (forall u :: 0 <= u < |updates| ==> updates[u].lag <= 1) <==> !TwoOld(schedule, fails, n)
  {
    PlannedLags(schedule, fails, n);
  }

  // ------------------------------------------------ two steps off

  datatype Phase = Looping | LastStep | Exhausted

  class TwoStepOffScheduler {
    const trainer: OnPolicyDistillTrainer
    const batches: nat
    var i: nat                   // the next index of `enumerate(continuous_iterator)`
    var rolloutFuture: nat
    var teacherFuture: nat
    var phase: Phase

    /** Where the pipeline stands when `fit` is in control. */
    ghost predicate Stands(w: World)
      reads this
    {
      && batches >= 2 && i <= batches && w.yielded == w.resolved && !w.justSynced
      && (phase == Looping && w.yielded == 0 ==> i == 0 && w == Start())
      && (phase == Looping && w.yielded > 0 ==>
            i == |w.rollouts| == w.yielded + 2 && w.waited == w.submitted == w.yielded + 1
            && rolloutFuture == w.yielded + 1 && teacherFuture == w.yielded && w.synced.Some?)
      && (phase == LastStep ==>
            |w.rollouts| == w.waited == w.submitted == batches == w.yielded + 1 && teacherFuture == w.yielded)
      && (phase == Exhausted ==> |w.rollouts| == w.waited == w.submitted == w.yielded == batches)
    }

    ghost predicate Valid()
      reads this, trainer
    {
      var w := trainer.Now();
      && trainer.Valid() && trainer.schedule == TwoStep(batches)
      && Stands(w) && AsPlanned(trainer.schedule, trainer.teacherFails, w.rollouts, w.updates, w.yielded)
    }

    constructor (trainer: OnPolicyDistillTrainer, batches: nat)
      requires trainer.Valid() && trainer.Now() == Start() && batches >= 2 && trainer.schedule == TwoStep(batches)
      ensures Valid() && this.trainer == trainer && this.batches == batches
    {
      this.trainer, this.batches := trainer, batches;
      i, rolloutFuture, teacherFuture, phase := 0, 0, 0, Looping;
    }

    /** The pipeline is full: of n batches the last is being generated, the one before it is with the teacher. */
    ghost predicate Full(w: World, n: nat)
      reads `rolloutFuture, `teacherFuture
    {
      && 2 <= n == |w.rollouts| && w.waited == w.submitted == n - 1 && w.resolved == w.yielded == n - 2
      && rolloutFuture == n - 1 && teacherFuture == n - 2
    }

    /** Waits for the teacher's oldest answer and for the rollout, which goes to the teacher. */
    method Advance(ghost n: nat) returns (done: nat)
      requires trainer.Valid() && trainer.schedule == TwoStep(batches) && n <= batches
      requires Full(trainer.Now(), n) && !trainer.Now().justSynced
      modifies this`teacherFuture, trainer
      ensures trainer.Valid() && done == n - 2 && teacherFuture == n - 1
      ensures var w := old(trainer.Now());
              trainer.Now() == w.(waited := n, submitted := n, resolved := n - 1,
                                  buffer := if trainer.teacherFails(done) then w.buffer else Some(done))
    {
      hide Apply, Legal, OnTime, State, Lawful, Punctual;
      trainer.Get(teacherFuture);
      done := teacherFuture;
      trainer.AsyncGetTeacherKnowledge(rolloutFuture);
      teacherFuture := rolloutFuture;
    }

    /** One `next(scheduler)`; None is StopIteration. */
    method Next() returns (result: Option<nat>)
      requires Valid()
      modifies this, trainer
      ensures trainer.Valid() && Stands(trainer.Now())
      ensures result.None? <==> old(trainer.Now().yielded) == batches
      ensures result.None? ==> trainer.Now() == old(trainer.Now())
      ensures result.Some? ==>
                var before, w, fut := old(trainer.Now()), trainer.Now(), result.value;
                && fut == before.yielded == w.yielded - 1 && fut < |w.rollouts| && w.updates == before.updates
                && (trainer.teacherFails(fut) || w.buffer == Some(fut))
                && AsPlanned(trainer.schedule, trainer.teacherFails, w.rollouts, w.updates, fut)
    {
      hide AsPlanned, Apply, Legal, OnTime, State, Lawful, Punctual, Trained, Schedule.Planned;
      ghost var before, schedule, fails := trainer.Now(), trainer.schedule, trainer.teacherFails;
      CountUpdates(schedule, fails, before, before.yielded);
      if phase == Looping {
        while i < batches
          invariant trainer.Valid() && i <= batches && phase == Looping
          invariant var w := trainer.Now();
                    && AsPlanned(schedule, fails, w.rollouts, w.updates, before.yielded) && w.updates == before.updates
                    && i == |w.rollouts| && w.yielded == before.yielded && !w.justSynced
                    && (i == 0 ==> w == Start())
                    && (i == 1 ==> w.waited == w.submitted == w.resolved == w.yielded == 0 && rolloutFuture == 0)
                    && (i >= 2 ==> Full(w, i))
                    && (i >= 1 ==> w.synced.Some?) && (1 <= i <= 2 ==> w.synced == Some(0))
        {
          var batch := i;
          i := i + 1;
          if batch == 0 {
            NothingTrained(fails);
            PlannedLaunch(schedule, fails, trainer.Now().rollouts, before.updates, before.yielded, 0);
            rolloutFuture := trainer.AsyncGenNextBatch(batch, true);
          } else if batch == 1 {
            trainer.AsyncGetTeacherKnowledge(rolloutFuture);
            teacherFuture := rolloutFuture;
            PlannedLaunch(schedule, fails, trainer.Now().rollouts, before.updates, before.yielded, 0);
            rolloutFuture := trainer.AsyncGenNextBatch(batch, false);
          } else {
            var done := Advance(batch);
            PlannedLaunch(schedule, fails, trainer.Now().rollouts, before.updates, before.yielded,
                          if batch == 2 then 0 else |before.updates|);
            rolloutFuture := trainer.AsyncGenNextBatch(batch, batch != 2);
            trainer.HandOver(done);
            return Some(done);
          }
        }
        // the second to last step
        var done := Advance(batches);
        phase := LastStep;
        trainer.HandOver(done);
        return Some(done);
      } else if phase == LastStep {
        trainer.Get(teacherFuture);
        phase := Exhausted;
        trainer.HandOver(teacherFuture);
        return Some(teacherFuture);
      } else {
        return None;
      }
    }
  }

  lemma NothingTrained(fails: nat -> bool)
    ensures Trained(fails, 0) == 0
  {
  }

  lemma CountUpdates(schedule: Schedule, fails: nat -> bool, w: World, settled: nat)
    requires AsPlanned(schedule, fails, w.rollouts, w.updates, settled)
    ensures |w.updates| == Trained(fails, settled) <= settled
  {
  }

  /** One iteration of the loop of `fit`. */
  method TwoStepIteration(scheduler: TwoStepOffScheduler, trainer: OnPolicyDistillTrainer)
    requires scheduler.Valid() && scheduler.trainer == trainer && trainer.Now().yielded < scheduler.batches
    modifies scheduler, trainer
    ensures scheduler.Valid() && trainer.Now().yielded == old(trainer.Now()).yielded + 1
  {
    hide Lawful, Punctual, State, AsPlanned, Apply, Legal, OnTime;
    var result := scheduler.Next();
    assert result.Some?;
    PlannedSettle(trainer.schedule, trainer.teacherFails, trainer.Now(), result.value);
    trainer.Step(result.value);
  }

  /** What a finished run has to show: every rollout and every update is as planned, the updates are
      those of the survivors in order, and no update is more than two updates old. */
  ghost predicate WentAsPlanned(schedule: Schedule, fails: nat -> bool, trace: seq<Event>, results: nat) {
    var w := State(trace);
    && w.yielded == results <= |w.rollouts|
    && (forall g :: 0 <= g < |w.rollouts| ==> w.rollouts[g] == schedule.Planned(fails, g))
    && w.updates == PlannedUpdates(schedule, fails, results)
    && BatchesOf(w.updates) == Survivors(schedule.RepeatsFirst(), fails, results)
    && forall u :: 0 <= u < |w.updates| ==> 0 <= w.updates[u].lag <= 2
  }

  lemma Finished(schedule: Schedule, fails: nat -> bool, trace: seq<Event>, results: nat)
    requires var w := State(trace); AsPlanned(schedule, fails, w.rollouts, w.updates, results) && w.yielded == results <= |w.rollouts|
    ensures WentAsPlanned(schedule, fails, trace, results)
  {
    PlannedSurvivors(schedule, fails, results);
    PlannedLags(schedule, fails, results);
  }

  /** `fit` from step 1 with the two-step scheduler over two batches or more. It never asks an
      exhausted scheduler; it is handed batches 0, 1, 2 and so on, once each and in order; all those for which
      the teacher answered are trained on, at most two updates after the weights that generated them;
      every event keeps the pipeline's rules and happens when the timetable says; and the weights are
      synchronised first of all, and directly before every rollout but numbers 1 and 2. */
  method FitTwoStep(batches: nat, totalTrainingSteps: int, fails: nat -> bool) returns (trace: seq<Event>)
    requires batches >= 2 && totalTrainingSteps <= batches
    ensures Lawful(trace) && Punctual(TwoStep(batches), fails, trace)
    ensures WentAsPlanned(TwoStep(batches), fails, trace, if totalTrainingSteps > 1 then totalTrainingSteps else 1)
    ensures trace != [] && trace[0] == SyncRolloutWeights
    ensures forall g :: 0 <= g < |State(trace).rollouts| ==>
              var r := State(trace).rollouts[g];
              && r.batch == g && (r.direct <==> g != 1 && g != 2)
              && r.version == if g >= 3 then Trained(fails, g - 2) else 0
  {
    hide Lawful, Punctual, State, AsPlanned, Apply, Legal, OnTime, Trained;
    var trainer := new OnPolicyDistillTrainer(fails, TwoStep(batches));
    var scheduler := new TwoStepOffScheduler(trainer, batches);
    var globalSteps := 1;
    while true
      invariant scheduler.Valid() && scheduler.batches == batches && scheduler.trainer == trainer && trainer.teacherFails == fails
      invariant fresh(scheduler) && fresh(trainer)
      invariant trainer.Now().yielded == globalSteps - 1 && (globalSteps == 1 || globalSteps <= totalTrainingSteps)
      decreases totalTrainingSteps - globalSteps
    {
      var isLastStep := globalSteps >= totalTrainingSteps;
      TwoStepIteration(scheduler, trainer);
      globalSteps := globalSteps + 1;
      if isLastStep { break; }
    }
    trace := trainer.trace;
    Finished(TwoStep(batches), fails, trace, globalSteps - 1);
    StartsWithSync(trace);
    NothingTrained(fails);
  }

  // ------------------------------------------------ one step off

  datatype OneStepPhase = AtStart | AfterYield | OneStepExhausted

  /** The scheduler as shipped, or as its comments describe it: with the second `if` an `elif`, so that
      index 0 does not run on into the `else` branch. */
  class OneStepOffScheduler {
    const trainer: OnPolicyDistillTrainer
    const shipped: bool
    const batches: nat
    var i: nat                   // the next index of `enumerate(continuous_iterator)`
    var fut: nat
    var prevFut: nat
    var phase: OneStepPhase

    /** How many results it yields in all. */
    function Total(): nat { if shipped then batches + 1 else batches }

    ghost predicate Stands(w: World)
      reads this
    {
      && batches >= 1 && i <= batches && |w.updates| <= w.yielded == w.resolved && !w.justSynced
      && (phase == AtStart ==> i == 0 && w == Start())
      && (phase == AfterYield ==>
            && w.yielded >= 1 && i == (if shipped then w.yielded else w.yielded + 1)
            && |w.rollouts| == w.yielded + 1 && w.waited == w.submitted == fut == w.yielded
            && (if i <= 1 then w.synced == Some(0) else w.synced.Some?))
      && (phase == OneStepExhausted ==> |w.rollouts| == w.waited == w.submitted == w.yielded == Total())
    }

    ghost predicate Valid()
      reads this, trainer
    {
      var w := trainer.Now();
      && trainer.Valid() && trainer.schedule == OneStep(shipped, batches)
      && Stands(w) && AsPlanned(trainer.schedule, trainer.teacherFails, w.rollouts, w.updates, w.yielded)
    }

    constructor (trainer: OnPolicyDistillTrainer, shipped: bool, batches: nat)
      requires trainer.Valid() && trainer.Now() == Start() && batches >= 1 && trainer.schedule == OneStep(shipped, batches)
      ensures Valid() && this.trainer == trainer && this.shipped == shipped && this.batches == batches
    {
      this.trainer, this.shipped, this.batches := trainer, shipped, batches;
      i, fut, prevFut, phase := 0, 0, 0, AtStart;
    }

    /** The last rollout launched is with the teacher, everything before it is done. */
    ghost predicate WithTeacher(w: World)
      reads this
    {
      && |w.rollouts| == w.waited == w.submitted == w.yielded + 1 && w.resolved == w.yielded == prevFut
      && !w.justSynced && w.synced.Some?
    }

    /** What the branch for index 0 does. */
    method LaunchFirst(batch: nat)
      requires trainer.Valid() && trainer.Now() == Start() && batch == 0
      requires trainer.schedule == OneStep(shipped, batches) && batches >= 1
      modifies this, trainer
      ensures trainer.Valid() && i == old(i) && phase == old(phase) && WithTeacher(trainer.Now())
      ensures var w := trainer.Now();
              w.rollouts == [] + [Rollout(batch, 0, true)] && w.updates == [] && w.yielded == 0 && w.synced == Some(0)
    {
      hide Apply, Legal, OnTime, State, Lawful, Punctual;
      fut := trainer.AsyncGenNextBatch(batch, true);
      trainer.AsyncGetTeacherKnowledge(fut);
      prevFut := fut;
    }

    /** What the branches for index 1 and for all later indices share. */
    method LaunchAndFinishPrevious(batch: nat, sync: bool)
      requires trainer.Valid() && WithTeacher(trainer.Now()) && LaunchDue(trainer.schedule, trainer.teacherFails, trainer.Now(), batch)
      requires trainer.schedule == OneStep(shipped, batches) && sync == trainer.schedule.SyncsBefore(|trainer.Now().rollouts|)
      modifies this, trainer
      ensures trainer.Valid() && i == old(i) && prevFut == old(prevFut) && phase == AfterYield
      ensures var w := old(trainer.Now());
              var synced := if sync then Some(|w.updates|) else w.synced;
              && fut == |w.rollouts|
              && trainer.Now() == w.(synced := synced, rollouts := w.rollouts + [Rollout(batch, synced.value, sync)],
                                     resolved := prevFut + 1,
                                     buffer := if trainer.teacherFails(prevFut) then w.buffer else Some(prevFut), yielded := prevFut + 1)
    {
      hide Apply, Legal, OnTime, State, Lawful, Punctual, Trained;
      fut := trainer.AsyncGenNextBatch(batch, sync);
      trainer.Get(prevFut);
      phase := AfterYield;
      trainer.HandOver(prevFut);
    }

    /** One `next(scheduler)`; None is StopIteration. */
    method Next() returns (result: Option<nat>)
      requires Valid()
      modifies this, trainer
      ensures trainer.Valid() && Stands(trainer.Now())
      ensures result.None? <==> old(trainer.Now().yielded) == Total()
      ensures result.None? ==> trainer.Now() == old(trainer.Now())
      ensures result.Some? ==>
                var before, w, fut := old(trainer.Now()), trainer.Now(), result.value;
                && fut == before.yielded == w.yielded - 1 && fut < |w.rollouts| && w.updates == before.updates
                && (trainer.teacherFails(fut) || w.buffer == Some(fut))
                && AsPlanned(trainer.schedule, trainer.teacherFails, w.rollouts, w.updates, fut)
    {
      hide AsPlanned, Apply, Legal, OnTime, State, Lawful, Punctual, Trained, Schedule.Planned;
      if phase == OneStepExhausted {
        return None;
      }
      ghost var before, schedule, fails := trainer.Now(), trainer.schedule, trainer.teacherFails;
      CountUpdates(schedule, fails, before, before.yielded);
      NothingTrained(fails);
      if phase == AfterYield {
        trainer.AsyncGetTeacherKnowledge(fut);
        prevFut := fut;
      }
      while i < batches
        invariant trainer.Valid() && i <= batches
        invariant var w := trainer.Now();
                  && AsPlanned(schedule, fails, w.rollouts, w.updates, before.yielded)
                  && w.updates == before.updates && w.yielded == before.yielded
                  && (i == 0 ==> w == Start() && before == Start())
                  && (i > 0 ==> WithTeacher(w) && i == (if shipped then w.yielded else w.yielded + 1))
                  && (i == 1 ==> w.synced == Some(0))
      {
        var batch := i;
        i := i + 1;
        if batch == 0 {
          PlannedLaunch(schedule, fails, trainer.Now().rollouts, before.updates, before.yielded, 0);
          LaunchFirst(batch);
        }
        if batch == 1 {
          PlannedLaunch(schedule, fails, trainer.Now().rollouts, before.updates, before.yielded, 0);
          LaunchAndFinishPrevious(batch, false);
          return Some(prevFut);
        } else if shipped || batch != 0 {
          PlannedLaunch(schedule, fails, trainer.Now().rollouts, before.updates, before.yielded, |before.updates|);
          LaunchAndFinishPrevious(batch, true);
          return Some(prevFut);
        }
      }
      trainer.Get(prevFut);
      phase := OneStepExhausted;
      trainer.HandOver(prevFut);
      return Some(prevFut);
    }
  }

  /** One iteration of the loop of `fit`. */
  method OneStepIteration(scheduler: OneStepOffScheduler, trainer: OnPolicyDistillTrainer)
    requires scheduler.Valid() && scheduler.trainer == trainer && trainer.Now().yielded < scheduler.Total()
    modifies scheduler, trainer
    ensures scheduler.Valid() && trainer.Now().yielded == old(trainer.Now()).yielded + 1
  {
    hide Lawful, Punctual, State, AsPlanned, Apply, Legal, OnTime;
    var result := scheduler.Next();
    assert result.Some?;
    PlannedSettle(trainer.schedule, trainer.teacherFails, trainer.Now(), result.value);
    trainer.Step(result.value);
  }

  lemma OneStepMeaning(shipped: bool, batches: nat, fails: nat -> bool, trace: seq<Event>, results: nat)
    requires WentAsPlanned(OneStep(shipped, batches), fails, trace, results)
    ensures var w := State(trace);
            (forall u :: 0 <= u < |w.updates| ==> w.updates[u].lag <= 1)
              <==> (!shipped || w.yielded <= 2 || fails(0) || fails(1) || fails(2))
  {
    hide State, PlannedUpdates, BatchesOf, Survivors;
    OneStepLag(OneStep(shipped, batches), fails, results);
    assert State(trace).updates == PlannedUpdates(OneStep(shipped, batches), fails, results);
  }

  /** `fit` from step 1 with the one-step scheduler over one batch or more. As documented: batches 0,
      1, 2 and so on, once each, at most one update old. As shipped: batch 0 twice, then 1, 2 and so
      on, at most two updates old; all at most one exactly if there are at most two results or the
      teacher failed for one of the first three. The weights are synchronised first of all, and
      directly before every rollout but number 1, as shipped but number 2. */
  method FitOneStep(shipped: bool, batches: nat, totalTrainingSteps: int, fails: nat -> bool) returns (trace: seq<Event>)
    requires batches >= 1 && totalTrainingSteps <= batches
    ensures Lawful(trace) && Punctual(OneStep(shipped, batches), fails, trace)
    ensures WentAsPlanned(OneStep(shipped, batches), fails, trace, if totalTrainingSteps > 1 then totalTrainingSteps else 1)
    ensures trace != [] && trace[0] == SyncRolloutWeights
    ensures forall g :: 0 <= g < |State(trace).rollouts| ==>
              var r := State(trace).rollouts[g];
              && r.batch == BatchOf(shipped, g) && (r.direct <==> g != if shipped then 2 else 1)
              && r.version == if r.direct && g >= 1 then Trained(fails, g - 1) else 0
    ensures var w := State(trace);
            (forall u :: 0 <= u < |w.updates| ==> w.updates[u].lag <= 1)
              <==> (!shipped || w.yielded <= 2 || fails(0) || fails(1) || fails(2))
  {
    hide Lawful, Punctual, State, AsPlanned, Apply, Legal, OnTime, Trained;
    var trainer := new OnPolicyDistillTrainer(fails, OneStep(shipped, batches));
    var scheduler := new OneStepOffScheduler(trainer, shipped, batches);
    var globalSteps := 1;
    while true
      invariant scheduler.Valid() && scheduler.batches == batches && scheduler.trainer == trainer && trainer.teacherFails == fails
      invariant scheduler.shipped == shipped
      invariant fresh(scheduler) && fresh(trainer)
      invariant trainer.Now().yielded == globalSteps - 1 && (globalSteps == 1 || globalSteps <= totalTrainingSteps)
      decreases totalTrainingSteps - globalSteps
    {
      var isLastStep := globalSteps >= totalTrainingSteps;
      OneStepIteration(scheduler, trainer);
      globalSteps := globalSteps + 1;
      if isLastStep { break; }
    }
    trace := trainer.trace;
    Finished(OneStep(shipped, batches), fails, trace, globalSteps - 1);
    OneStepMeaning(shipped, batches, fails, trace, globalSteps - 1);
    StartsWithSync(trace);
    NothingTrained(fails);
  }
}
