/** No sample is duplicated or silently lost, whatever the interleaving of generation, pause,
    cancellation, resumption and the end of the data. */
module Conservation {
  import opened Options
  import opened AsyncProtocol

  /** How often a sample occurs in a sequence of entries. */
  function Copies<T>(xs: seq<T>, idOf: T -> Option<nat>, id: nat): nat {
    if xs == [] then 0 else (if idOf(xs[0]) == Some(id) then 1 else 0) + Copies(xs[1..], idOf, id)
  }

  lemma {:induction false} CopiesSnoc<T>(xs: seq<T>, x: T, idOf: T -> Option<nat>, id: nat)
    ensures Copies(xs + [x], idOf, id) == Copies(xs, idOf, id) + (if idOf(x) == Some(id) then 1 else 0)
  {
    if xs == [] {
      assert xs + [x] == [x];
    } else {
      assert (xs + [x])[1..] == xs[1..] + [x];
      CopiesSnoc(xs[1..], x, idOf, id);
    }
  }

  function ItemId(x: Item): Option<nat> { if x.Sample? then Some(x.id) else None }
  function MessageId(m: Message): Option<nat> { if m.Rollout? then Some(m.id) else None }
  function UseId(u: Use): Option<nat> { Some(u.id) }
  function NatId(n: nat): Option<nat> { Some(n) }

  function TaskCopies(t: Tasks, id: nat): nat {
    (if t.hand == Some(Sample(id)) then 1 else 0) + t.running[id] + Copies(t.cancelQueue, NatId, id)
  }

  function MqCopies(q: Mq, id: nat): nat {
    Copies(q.queue, MessageId, id) + Copies(q.dropped, MessageId, id)
  }

  /** How often a sample occurs in the seven places it can be in: the pending queue, the processor's
      hand, the running tasks, the cancel queue, the message queue, the dropped and the consumed. */
  function Everywhere(s: State, id: nat): nat {
    Copies(s.feed.pending, ItemId, id) + TaskCopies(s.tasks, id) + MqCopies(s.mq, id)
    + Copies(s.trainer.consumed, UseId, id)
  }

  ghost predicate Distinct(fed: seq<nat>, below: nat) {
    && (forall i, j :: 0 <= i < j < |fed| ==> fed[i] < fed[j])
    && (forall i :: 0 <= i < |fed| ==> fed[i] < below)
  }

  ghost predicate FedInv(f: Feed) {
    Distinct(f.fed, f.globalSteps + if f.feeder == Feeding then 0 else 1)
  }

  ghost predicate HandInv(t: Tasks) {
    && (t.proc == Holding ==> t.hand.Some? && t.hand.value.Sample?)
    && (t.proc == FinalDrain ==> t.hand == Some(Done))
    && (!t.Holds() ==> t.hand == None)
  }

  ghost predicate Inv(s: State, id: nat) {
    && HandInv(s.tasks)
    && FedInv(s.feed)
    && Everywhere(s, id) == (if id in s.feed.fed then 1 else 0)
  }

  lemma PutKeepsCopies(c: Config, q: Mq, m: Message, id: nat)
    requires c.Valid()
    ensures MqCopies(PutMessage(c, q, m), id) == MqCopies(q, id) + (if MessageId(m) == Some(id) then 1 else 0)
  {
    if |q.queue| >= c.maxRequired {
      CopiesSnoc(q.queue[1..], m, MessageId, id);
      CopiesSnoc(q.dropped, q.queue[0], MessageId, id);
    } else {
      CopiesSnoc(q.queue, m, MessageId, id);
      assert q.dropped + [] == q.dropped;
    }
  }

  /** What each event does to the number of copies. */
  lemma ProcKeepsCopies(c: Config, s: State, e: ProcEvent, id: nat)
    requires c.Valid() && HandInv(s.tasks) && ProcEnabled(c, s, e)
    ensures Everywhere(ProcNext(c, s, e), id) == Everywhere(s, id) + (if e == FeedSample && s.feed.globalSteps == id then 1 else 0)
  {
    match e
    case FeedSample => CopiesSnoc(s.feed.pending, Sample(s.feed.globalSteps), ItemId, id);
    case FeedDone => CopiesSnoc(s.feed.pending, Done, ItemId, id);
    case FinalPut => PutKeepsCopies(c, s.mq, Final, id);
    case _ =>
  }

  lemma TaskKeepsCopies(c: Config, s: State, e: TaskEvent, id: nat)
    requires c.Valid() && TaskEnabled(c, s, e)
    ensures Everywhere(TaskNext(c, s, e), id) == Everywhere(s, id)
  {
    match e
    case TaskFinish(x) => PutKeepsCopies(c, s.mq, Rollout(x, s.ctl.version), id);
    case TaskCancel(x) => CopiesSnoc(s.tasks.cancelQueue, x, NatId, id);
    case _ =>
  }

  lemma TrainKeepsCopies(c: Config, s: State, e: TrainEvent, id: nat)
    requires c.Valid() && TrainEnabled(c, s, e)
    ensures Everywhere(TrainNext(c, s, e), id) == Everywhere(s, id)
  {
    if e == GetSample && s.mq.queue[0].Rollout? {
      var m := s.mq.queue[0];
      CopiesSnoc(s.trainer.consumed, Use(m.id, m.stamp, s.trainer.version), UseId, id);
    }
  }

  lemma StepKeepsCopies(c: Config, s: State, e: Event, id: nat)
    requires c.Valid() && HandInv(s.tasks) && Enabled(c, s, e)
    ensures Everywhere(Next(c, s, e), id) == Everywhere(s, id) + (if e == Proc(FeedSample) && s.feed.globalSteps == id then 1 else 0)
  {
    match e
    case Proc(p) => ProcKeepsCopies(c, s, p, id);
    case Task(g) => TaskKeepsCopies(c, s, g, id);
    case Train(t) => TrainKeepsCopies(c, s, t, id);
  }

  lemma HandInvStep(c: Config, s: State, e: Event)
    requires c.Valid() && HandInv(s.tasks) && Enabled(c, s, e)
    ensures HandInv(Next(c, s, e).tasks)
  {
  }

  lemma FedStep(c: Config, s: State, e: Event)
    requires c.Valid() && FedInv(s.feed) && Enabled(c, s, e)
    ensures FedInv(Next(c, s, e).feed)
    ensures Next(c, s, e).feed.fed == s.feed.fed + (if e == Proc(FeedSample) then [s.feed.globalSteps] else [])
  {
  }

  lemma InvStep(c: Config, s: State, e: Event, id: nat)
    requires c.Valid() && Inv(s, id) && Enabled(c, s, e)
    ensures Inv(Next(c, s, e), id)
  {
    StepKeepsCopies(c, s, e, id);
    HandInvStep(c, s, e);
    FedStep(c, s, e);
  }

  /** In every reachable state each sample that was fed is in exactly one place, exactly once, and
      nothing else is anywhere. So nothing is trained on twice and nothing vanishes. */
  lemma {:induction false} ExactlyOnePlace(c: Config, version: int, first: nat, es: seq<Event>, id: nat)
    requires c.Valid() && Run(c, Init(version, first), es).Some?
    ensures var s := Run(c, Init(version, first), es).value;
            && Inv(s, id)
            && Everywhere(s, id) == (if id in s.feed.fed then 1 else 0)
  {
    if es != [] {
      var before := es[..|es| - 1];
      ExactlyOnePlace(c, version, first, before, id);
      InvStep(c, Run(c, Init(version, first), before).value, es[|es| - 1], id);
    }
  }

  // ------------------------------------------------ the end marker

  ghost predicate NoDone(xs: seq<Item>) { forall i :: 0 <= i < |xs| ==> xs[i].Sample? }

  ghost predicate NoFinal(ms: seq<Message>) { forall i :: 0 <= i < |ms| ==> ms[i].Rollout? }

  ghost predicate MarkerInPending(s: State) {
    if s.tasks.proc == FinalDrain || s.tasks.proc == Exited then s.feed.feeder == Fed && s.feed.pending == []
    else if s.feed.feeder == Fed then
      s.feed.pending != [] && s.feed.pending[|s.feed.pending| - 1] == Done && NoDone(s.feed.pending[..|s.feed.pending| - 1])
    else NoDone(s.feed.pending)
  }

  ghost predicate MarkerInQueue(s: State) {
    && NoFinal(s.mq.dropped)
    && (s.tasks.proc == Exited ==> |s.tasks.running| == 0)
    && if s.tasks.proc != Exited then NoFinal(s.mq.queue) && !s.trainer.sawFinal
       else if s.trainer.sawFinal then s.mq.queue == []
       else s.mq.queue != [] && s.mq.queue[|s.mq.queue| - 1] == Final && NoFinal(s.mq.queue[..|s.mq.queue| - 1])
  }

  /** The end marker follows every sample through the pending queue, the processor and the message
      queue, and is never dropped. */
  ghost predicate EndInv(s: State) {
    HandInv(s.tasks) && MarkerInPending(s) && MarkerInQueue(s)
  }

  lemma PutAtEnd(c: Config, q: Mq, m: Message)
    requires c.Valid() && NoFinal(q.queue) && NoFinal(q.dropped)
    ensures var r := PutMessage(c, q, m);
            NoFinal(r.dropped) && r.queue[|r.queue| - 1] == m && NoFinal(r.queue[..|r.queue| - 1])
  {
  }

  lemma FeedEndStep(c: Config, s: State, e: ProcEvent)
    requires c.Valid() && EndInv(s) && ProcEnabled(c, s, e) && (e == FeedSample || e == FeedExhausted || e == FeedDone)
    ensures EndInv(ProcNext(c, s, e))
  {
    var q := s.feed.pending;
    assert (q + [Done])[..|q|] == q;
  }

  lemma PopEndStep(c: Config, s: State)
    requires c.Valid() && EndInv(s) && ProcEnabled(c, s, PopPending)
    ensures EndInv(ProcNext(c, s, PopPending))
  {
    var q := s.feed.pending;
    if |q| > 1 {
      assert q[0] == q[..|q| - 1][0];
      assert q[1..][..|q| - 2] == q[..|q| - 1][1..];
    }
  }

  lemma FinalEndStep(c: Config, s: State)
    requires c.Valid() && EndInv(s) && ProcEnabled(c, s, FinalPut)
    ensures EndInv(ProcNext(c, s, FinalPut))
  {
    PutAtEnd(c, s.mq, Final);
  }

  /** The other events leave the marker where it is. */
  lemma OtherEndStep(c: Config, s: State, e: ProcEvent)
    requires c.Valid() && EndInv(s) && ProcEnabled(c, s, e) && e != PopPending && e != FinalPut
    requires e != FeedSample && e != FeedExhausted && e != FeedDone
    ensures EndInv(ProcNext(c, s, e))
  {
    hide NoDone, NoFinal;
    var t := ProcNext(c, s, e);
    assert t.feed == s.feed && t.mq == s.mq && t.trainer == s.trainer;
  }

  lemma ProcEndStep(c: Config, s: State, e: ProcEvent)
    requires c.Valid() && EndInv(s) && ProcEnabled(c, s, e)
    ensures EndInv(ProcNext(c, s, e))
  {
    hide EndInv, ProcEnabled, ProcNext;
    match e {
      case FeedSample => FeedEndStep(c, s, e);
      case FeedExhausted => FeedEndStep(c, s, e);
      case FeedDone => FeedEndStep(c, s, e);
      case PopPending => PopEndStep(c, s);
      case FinalPut => FinalEndStep(c, s);
      case _ => OtherEndStep(c, s, e);
    }
  }

  lemma TaskEndStep(c: Config, s: State, e: TaskEvent)
    requires c.Valid() && EndInv(s) && TaskEnabled(c, s, e)
    ensures EndInv(TaskNext(c, s, e))
  {
    if e.TaskFinish? {
      PutAtEnd(c, s.mq, Rollout(e.id, s.ctl.version));
      var q := PutMessage(c, s.mq, Rollout(e.id, s.ctl.version)).queue;
      assert q == q[..|q| - 1] + [q[|q| - 1]];
    }
  }

  lemma TrainEndStep(c: Config, s: State, e: TrainEvent)
    requires c.Valid() && EndInv(s) && TrainEnabled(c, s, e)
    ensures EndInv(TrainNext(c, s, e))
  {
    var q := s.mq.queue;
    if e == GetSample && s.tasks.proc == Exited && |q| > 1 {
      assert q[0] == q[..|q| - 1][0];
      assert q[1..][..|q| - 2] == q[..|q| - 1][1..];
    }
  }

  lemma EndInvStep(c: Config, s: State, e: Event)
    requires c.Valid() && EndInv(s) && Enabled(c, s, e)
    ensures EndInv(Next(c, s, e))
  {
    match e
    case Proc(p) => ProcEndStep(c, s, p);
    case Task(g) => TaskEndStep(c, s, g);
    case Train(t) => TrainEndStep(c, s, t);
  }

  /** When the trainer has seen the end marker, every sample ever fed was consumed, was dropped by
      the queue, or was cancelled after the marker and is left in the cancel queue. */
  lemma {:induction false} EndAccountsForAll(c: Config, version: int, first: nat, es: seq<Event>, id: nat)
    requires c.Valid() && Run(c, Init(version, first), es).Some?
    ensures var s := Run(c, Init(version, first), es).value;
            && EndInv(s)
            && (s.trainer.sawFinal ==>
                  Copies(s.trainer.consumed, UseId, id) + Copies(s.mq.dropped, MessageId, id)
                  + Copies(s.tasks.cancelQueue, NatId, id) == (if id in s.feed.fed then 1 else 0))
  {
    if es != [] {
      var before := es[..|es| - 1];
      EndAccountsForAll(c, version, first, before, id);
      EndInvStep(c, Run(c, Init(version, first), before).value, es[|es| - 1]);
    }
    ExactlyOnePlace(c, version, first, es, id);
  }
}
