/** For which configurations the two limits hold in every run: conditions on the configuration alone,
    in both directions. */
module AsyncLimits {
  import opened AsyncProtocol
  import opened Staleness
  import opened AsyncWitness
  import Freshness

  // ------------------------------------------------ with threshold 0

  ghost predicate Tight(c: Config, s: State) {
    s.InFlight() <= c.maxRequired && s.mq.dropped == []
  }

  /** Nothing comes in after the end marker, and before it the counts match. */
  lemma TightCount(c: Config, s: State, e: Event)
    requires c.Valid() && Enabled(c, s, e) && Conservation.EndInv(s) && s.InFlight() <= c.maxRequired
    requires Freshness.OnPolicyInv(c, Next(c, s, e)) && TrainerInv(c, Next(c, s, e).trainer)
    ensures Next(c, s, e).InFlight() <= c.maxRequired
  {
    InWindowRange(c, Next(c, s, e).trainer);
    if Next(c, s, e).trainer.sawFinal {
      EndOnlyShrinks(c, s, e);
    }
  }

  lemma EndOnlyShrinks(c: Config, s: State, e: Event)
    requires c.Valid() && Enabled(c, s, e) && Conservation.EndInv(s) && Next(c, s, e).trainer.sawFinal
    ensures Next(c, s, e).InFlight() <= s.InFlight()
  {
    match e
    case Proc(p) =>
    case Task(g) =>
    case Train(t) =>
  }

  /** While a task runs or the end marker is in hand, the queue is not full. */
  lemma NoneEvicted(c: Config, s: State, e: Event)
    requires c.Valid() && Enabled(c, s, e) && Conservation.EndInv(s) && Tight(c, s)
    ensures Next(c, s, e).mq.dropped == []
  {
    match e
    case Proc(p) =>
    case Task(g) =>
    case Train(t) =>
  }

  lemma {:induction false} ThresholdZeroIsTight(c: Config, version: int, first: nat, es: seq<Event>)
    requires c.Valid() && c.maxRequired == c.Window() && Run(c, Init(version, first), es).Some?
    ensures Tight(c, Run(c, Init(version, first), es).value)
  {
    if es != [] {
      var before := es[..|es| - 1];
      ThresholdZeroIsTight(c, version, first, before);
      Conservation.EndAccountsForAll(c, version, first, before, 0);
      Freshness.ThresholdZeroIsOnPolicy(c, version, first, es);
      var s, e := Run(c, Init(version, first), before).value, es[|es| - 1];
      TightCount(c, s, e);
      NoneEvicted(c, s, e);
    }
  }

  // ------------------------------------------------ the exact conditions

  ghost predicate AlwaysInFlightWithin(k: Setup, limit: nat)
    requires k.c.Valid()
  {
    forall s: State :: k.Reached(s) ==> s.InFlight() <= limit
  }

  ghost predicate NeverDrops(k: Setup)
    requires k.c.Valid()
  {
    forall s: State :: k.Reached(s) ==> s.mq.dropped == []
  }

  ghost predicate AlwaysLagWithin(k: Setup, bound: int)
    requires k.c.Valid()
  {
    forall s: State, u: Use :: k.Reached(s) && u in s.trainer.consumed ==> u.version - u.stamp <= bound
  }

  /** The limit on the items in flight is kept in every run, and nothing is ever dropped, exactly
      for a limit of one window, which is threshold 0. */
  lemma InFlightLimitExact(k: Setup)
    requires k.Valid() && !k.mode.Orderly? && k.Feeds(3 * k.c.maxRequired)
    ensures AlwaysInFlightWithin(k, k.c.maxRequired) <==> k.c.maxRequired == k.c.Window()
    ensures NeverDrops(k) <==> k.c.maxRequired == k.c.Window()
  {
    if k.c.Window() < k.c.maxRequired {
      LossyResetDrops(k);
    } else {
      forall s: State | k.Reached(s)
        ensures Tight(k.c, s)
      {
        var es :| k.RunTo(es, s);
        ThresholdZeroIsTight(k.c, k.version, k.first, es);
      }
    }
  }

  /** The promised version lag is kept in every run, whatever the monitor does, exactly when the
      limit is one window or no multiple of a window. */
  lemma LagLimitExact(k: Setup)
    requires k.Valid() && k.mode.Late() && !k.mode.Cancels() && k.Feeds(3 * k.c.maxRequired) && k.c.Window() >= 1
    ensures AlwaysLagWithin(k, k.c.MaxLag()) <==> (k.c.maxRequired == k.c.Window() || k.c.maxRequired % k.c.Window() != 0)
  {
    if k.c.maxRequired != k.c.Window() && k.c.maxRequired % k.c.Window() == 0 {
      LateMonitorAndLossyResetExceedMaxLag(k);
    } else {
      MaxLagCovers(k.c);
      forall s: State, u: Use | k.Reached(s) && u in s.trainer.consumed
        ensures u.version - u.stamp <= k.c.MaxLag()
      {
        var es :| k.RunTo(es, s);
        if k.c.maxRequired == k.c.Window() {
          Freshness.ThresholdZeroIsOnPolicy(k.c, k.version, k.first, es);
        } else {
          UnconditionalBound(k.c, k.version, k.first, es);
          assert WorstLag(k.c) == k.c.MaxLag();
        }
      }
    }
  }
}
