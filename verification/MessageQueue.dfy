/** The bounded, drop-oldest queue between the rollouter and the trainer
    (recipe/fully_async_policy/message_queue.py). */
module MessageQueues {
  import opened Options

  /** What `put_sample` leaves in a queue of the given capacity. */
  function Enqueue<T>(capacity: nat, queue: seq<T>, item: T): seq<T>
    requires capacity >= 1
  {
    (if |queue| >= capacity then queue[1..] else queue) + [item]
  }

  /** What `put_sample` throws away. */
  function Evicted<T>(capacity: nat, queue: seq<T>): seq<T>
    requires capacity >= 1
  {
    if |queue| >= capacity then [queue[0]] else []
  }

  /** One call made by a client of the queue. `Get` on an empty queue blocks, so it is no event. */
  datatype Call<T> = Put(item: T) | Get

  /** How an item left the queue. */
  datatype Departure<T> = Consumed(item: T) | Dropped(item: T)

  /** The queue with its statistics, and the history that the statistics count. */
  datatype Log<T> = Log(queue: seq<T>, produced: seq<T>, departed: seq<Departure<T>>)

  function Apply<T>(capacity: nat, log: Log<T>, call: Call<T>): Option<Log<T>>
    requires capacity >= 1
  {
    match call
    case Put(x) =>
      var out := if |log.queue| >= capacity then [Dropped(log.queue[0])] else [];
      Some(Log(Enqueue(capacity, log.queue, x), log.produced + [x], log.departed + out))
    case Get =>
      if log.queue == [] then None
      else Some(Log(log.queue[1..], log.produced, log.departed + [Consumed(log.queue[0])]))
  }

  function Replay<T>(capacity: nat, calls: seq<Call<T>>): Option<Log<T>>
    requires capacity >= 1
  {
    if calls == [] then Some(Log([], [], []))
    else
      match Replay(capacity, calls[..|calls| - 1])
      case None => None
      case Some(log) => Apply(capacity, log, calls[|calls| - 1])
  }

  function Items<T>(ds: seq<Departure<T>>): (r: seq<T>)
    ensures |r| == |ds|
  {
    seq(|ds|, i requires 0 <= i < |ds| => ds[i].item)
  }

  function ConsumedOf<T>(ds: seq<Departure<T>>): seq<T> {
    if ds == [] then []
    else ConsumedOf(ds[..|ds| - 1]) + (match ds[|ds| - 1] case Consumed(x) => [x] case Dropped(_) => [])
  }

  function DroppedOf<T>(ds: seq<Departure<T>>): seq<T> {
    if ds == [] then []
    else DroppedOf(ds[..|ds| - 1]) + (match ds[|ds| - 1] case Consumed(_) => [] case Dropped(x) => [x])
  }

  /** Items leave in production order, what is queued is the rest of the production, and the
      capacity is respected. */
  ghost predicate BoundedFifo<T>(capacity: nat, log: Log<T>) {
    && log.produced == Items(log.departed) + log.queue
    && |log.queue| <= capacity
    && |log.produced| == |ConsumedOf(log.departed)| + |DroppedOf(log.departed)| + |log.queue|
  }

  lemma ItemsSnoc<T>(ds: seq<Departure<T>>, d: Departure<T>)
    ensures Items(ds + [d]) == Items(ds) + [d.item]
    ensures ConsumedOf(ds + [d]) == ConsumedOf(ds) + (if d.Consumed? then [d.item] else [])
    ensures DroppedOf(ds + [d]) == DroppedOf(ds) + (if d.Dropped? then [d.item] else [])
  {
    assert (ds + [d])[..|ds|] == ds;
  }

  lemma ApplyKeepsFifo<T>(capacity: nat, log: Log<T>, call: Call<T>)
    requires capacity >= 1 && BoundedFifo(capacity, log)
    requires Apply(capacity, log, call).Some?
    ensures BoundedFifo(capacity, Apply(capacity, log, call).value)
  {
    if call.Get? {
      ItemsSnoc(log.departed, Consumed(log.queue[0]));
    } else if |log.queue| >= capacity {
      ItemsSnoc(log.departed, Dropped(log.queue[0]));
    } else {
      assert log.departed + [] == log.departed;
    }
  }

  /** The queue refines a bounded FIFO in every run; in particular it always holds the most recent
      part of the production. */
  lemma {:induction false} RefinesBoundedFifo<T>(capacity: nat, calls: seq<Call<T>>)
    requires capacity >= 1
    requires Replay(capacity, calls).Some?
    ensures var log := Replay(capacity, calls).value;
            && BoundedFifo(capacity, log)
            && log.queue == log.produced[|log.produced| - |log.queue|..]
  {
    if calls != [] {
      var before := calls[..|calls| - 1];
      RefinesBoundedFifo(capacity, before);
      ApplyKeepsFifo(capacity, Replay(capacity, before).value, calls[|calls| - 1]);
    }
  }

  /** A queue that never overflows loses nothing and delivers the production verbatim. */
  lemma {:induction false} NoOverflowDeliversAll<T>(ds: seq<Departure<T>>)
    requires DroppedOf(ds) == []
    ensures ConsumedOf(ds) == Items(ds)
  {
    if ds != [] {
      var front := ds[..|ds| - 1];
      assert DroppedOf(front) == [];
      NoOverflowDeliversAll(front);
      assert Items(ds) == Items(front) + [ds[|ds| - 1].item];
    }
  }

  class MessageQueue<T> {
    const maxQueueSize: nat
    var queue: seq<T>
    var totalProduced: nat
    var totalConsumed: nat
    var droppedSamples: nat
    var running: bool
    ghost var log: Log<T>

    ghost predicate Valid()
      reads this
    {
      && maxQueueSize >= 1
      && queue == log.queue
      && BoundedFifo(maxQueueSize, log)
      && totalProduced == |log.produced|
      && totalConsumed == |ConsumedOf(log.departed)|
      && droppedSamples == |DroppedOf(log.departed)|
    }

    constructor (capacity: nat)
      requires capacity >= 1
      ensures Valid() && maxQueueSize == capacity && log == Log([], [], []) && running
    {
      maxQueueSize, running := capacity, true;
      queue, totalProduced, totalConsumed, droppedSamples := [], 0, 0, 0;
      log := Log([], [], []);
    }

    method PutSample(sample: T) returns (kept: bool)
      requires Valid()
      modifies this
      ensures Valid()
      ensures Some(log) == Apply(maxQueueSize, old(log), Put(sample))
      ensures queue == Enqueue(maxQueueSize, old(queue), sample)
      ensures kept <==> |old(queue)| < maxQueueSize
      ensures running == old(running)
    {
      var isDrop := false;
      ApplyKeepsFifo(maxQueueSize, log, Put(sample));
      log := Apply(maxQueueSize, log, Put(sample)).value;
      if |queue| >= maxQueueSize {
        ItemsSnoc(old(log).departed, Dropped(queue[0]));
        queue := queue[1..];
        droppedSamples := droppedSamples + 1;
        isDrop := true;
      } else {
        assert log.departed == old(log).departed;
      }
      queue := queue + [sample];
      totalProduced := totalProduced + 1;
      kept := !isDrop;
    }

    /** Called when the wait is over: a getter waits while the queue is empty and running. None: the
        queue was shut down and is empty. */
    method GetSample() returns (r: Option<(T, nat)>)
      requires Valid() && (queue != [] || !running)
      modifies this
      ensures Valid() && running == old(running)
      ensures r.None? <==> old(queue) == []
      ensures r.None? ==> log == old(log) && queue == []
      ensures r.Some? ==> Some(log) == Apply(maxQueueSize, old(log), Get)
      ensures r.Some? ==> old(queue) == [r.value.0] + queue && r.value.1 == |queue|
    {
      if !running && queue == [] { return None; }
      ApplyKeepsFifo(maxQueueSize, log, Get);
      ItemsSnoc(log.departed, Consumed(queue[0]));
      log := Apply(maxQueueSize, log, Get).value;
      var sample := queue[0];
      queue := queue[1..];
      totalConsumed := totalConsumed + 1;
      r := Some((sample, |queue|));
    }

    /** Lets the waiting getters go on; what is queued can still be taken. */
    method Shutdown()
      requires Valid()
      modifies this
      ensures Valid() && !running && log == old(log)
    {
      running := false;
    }
  }
}
