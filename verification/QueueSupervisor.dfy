/**
The queue supervisor: it publishes the set of queues to run workers for, keeps
one worker per queue, and each worker adapts its polling interval.
*/
module QueueSupervisor {
  import opened Base

  const INTERNAL := "_dbos_internal_queue"

  // Intervals are in nanoseconds; the default ceiling is 120 seconds.
  const DEFAULT_MAX: nat := 120_000_000_000

  datatype Queue = Queue(name: string, base: nat, backed: bool)

  datatype Worker = Worker(queue: Queue, interval: nat, running: bool)

  function Max(a: nat, b: nat): nat {
    if a < b then b else a
  }

  function Min(a: nat, b: nat): nat {
    if a < b then a else b
  }

  function Ceiling(q: Queue): (c: nat)
    ensures c >= q.base && c >= 120_000_000_000 && (c == q.base || c == 120_000_000_000)
  {
    Max(q.base, DEFAULT_MAX)
  }

  predicate InBounds(q: Queue, interval: nat) {
    q.base <= interval <= Ceiling(q)
  }

  // Double on contention, shrink by a tenth otherwise.
  function Adjust(q: Queue, interval: nat, contention: bool): (next: nat)
    requires InBounds(q, interval)
    ensures InBounds(q, next)
    ensures contention ==> next >= interval
    ensures contention ==> next == interval + interval || next == Ceiling(q) <= interval + interval
    ensures !contention ==> next <= interval
    ensures !contention ==>
              10 * next <= 9 * interval < 10 * next + 10 || (next == q.base && 9 * interval < 10 * q.base + 10)
  {
    if contention then Min(2 * interval, Ceiling(q)) else Max(interval * 9 / 10, q.base)
  }

  // n passes of the worker's loop, all with or all without contention.
  function Passes(q: Queue, interval: nat, contention: bool, n: nat): (next: nat)
    requires InBounds(q, interval)
    ensures InBounds(q, next)
  {
    if n == 0 then interval else Adjust(q, Passes(q, interval, contention, n - 1), contention)
  }

  // A queue without contention is polled at its base interval again after a while,
  lemma {:induction false} CalmReachesBase(q: Queue, interval: nat, n: nat)
    requires InBounds(q, interval)
    ensures Passes(q, interval, false, n) == q.base || Passes(q, interval, false, n) + n <= interval
    ensures n >= interval ==> Passes(q, interval, false, n) == q.base || Passes(q, interval, false, n) == 0
    decreases n
  {
    if n > 0 {
      CalmReachesBase(q, interval, n - 1);
    }
  }

  // and one with lasting contention at its ceiling.
  lemma {:induction false} ContentionReachesCeiling(q: Queue, interval: nat, n: nat)
    requires InBounds(q, interval) && interval > 0
    ensures Passes(q, interval, true, n) == Ceiling(q) || Passes(q, interval, true, n) >= interval + n
    ensures n >= Ceiling(q) ==> Passes(q, interval, true, n) == Ceiling(q)
    decreases n
  {
    if n > 0 {
      ContentionReachesCeiling(q, interval, n - 1);
    }
  }

  // A reloaded configuration pulls the interval back into its own bounds.
  function Reload(q: Queue, interval: nat): (next: nat)
    ensures InBounds(q, next)
    ensures InBounds(q, interval) ==> next == interval
    ensures interval < q.base ==> next == q.base
    ensures interval > Ceiling(q) ==> next == Ceiling(q)
  {
    Max(q.base, Min(interval, Ceiling(q)))
  }

  predicate Listened(listen: set<string>, name: string) {
    listen == {} || name in listen
  }

  // The set to publish: the listed queues, or, when listing fails, the
  // database-backed ones published before.
  ghost predicate Publishes(before: map<string, Queue>, listing: Option<seq<Queue>>, listen: set<string>,
                            after: map<string, Queue>) {
    && INTERNAL in after
    && forall name | name != INTERNAL ::
         name in after <==>
           && (listen == {} || name in listen)
           && if listing.Some? then exists q | q in listing.value :: q.name == name
              else name in before && before[name].backed
  }

  // Each with its listed configuration, or the one it had.
  ghost predicate PublishesAs(before: map<string, Queue>, listing: Option<seq<Queue>>, after: map<string, Queue>) {
    forall name | name in after && name != INTERNAL ::
      if listing.Some? then after[name] in listing.value && after[name].name == name
      else name in before && after[name] == before[name]
  }

  class QueueRunner {
    const internal: Queue
    var published: map<string, Queue>
    var workers: map<nat, Worker>
    var current: map<string, nat>      // the worker last started for each queue
    var next: nat

    // A running worker is the one last started for its queue, so there is at most
    // one per name, and its interval is within its queue's bounds.
    ghost predicate WorkerOk(w: nat)
      reads this
    {
      w in workers ==>
        && w < next
        && (workers[w].running ==>
              && workers[w].queue.name in current && current[workers[w].queue.name] == w
              && InBounds(workers[w].queue, workers[w].interval))
    }

    ghost predicate Valid()
      reads this
    {
      && (forall w :: WorkerOk(w))
      && (forall name | name in current :: current[name] in workers)
      && (forall name | name in published :: published[name].name == name)
      && internal.name == INTERNAL
    }

    constructor (base: nat)
      ensures Valid() && published == map[] && workers == map[] && internal == Queue(INTERNAL, base, false)
    {
      internal := Queue(INTERNAL, base, false);
      published, workers, current, next := map[], map[], map[], 0;
    }

    predicate HasLiveWorker(name: string)
      reads this
    {
      name in current && current[name] in workers && workers[current[name]].running
        && workers[current[name]].queue.name == name
    }

    method QueuesToListen(listing: Option<seq<Queue>>, listen: set<string>)
      requires Valid()
      modifies this`published
      ensures Valid() && Publishes(old(published), listing, listen, published)
      ensures PublishesAs(old(published), listing, published)
      ensures listing.None? && !(INTERNAL in old(published) && old(published)[INTERNAL].backed) ==>
                published[INTERNAL] == internal
    {
      var chosen: map<string, Queue> := map[INTERNAL := internal];
      if listing.Some? {
        for i := 0 to |listing.value|
          invariant forall name | name in chosen :: chosen[name].name == name
          invariant INTERNAL in chosen
          invariant forall name | name in chosen && name != INTERNAL :: chosen[name] in listing.value
          invariant forall name | name != INTERNAL ::
                      name in chosen <==> Listened(listen, name) && exists q | q in listing.value[..i] :: q.name == name
        {
          var q := listing.value[i];
          assert listing.value[..i + 1] == listing.value[..i] + [q];
          if Listened(listen, q.name) {
            chosen := chosen[q.name := q];
          }
        }
        assert listing.value[..|listing.value|] == listing.value;
      } else {
        var kept := map name | name in published && published[name].backed && Listened(listen, name) :: published[name];
        chosen := chosen + kept;
      }
      published := chosen;
      forall w ensures WorkerOk(w) {
        assert old(WorkerOk(w));
      }
    }

    // One reconcile tick: every published queue has a live worker, and workers
    // already live are left alone.
    method Tick(listing: Option<seq<Queue>>, listen: set<string>)
      requires Valid()
      modifies this
      ensures Valid() && Publishes(old(published), listing, listen, published)
      ensures PublishesAs(old(published), listing, published)
      ensures forall name | name in published :: HasLiveWorker(name)
      ensures forall w | w in old(workers) :: w in workers && workers[w] == old(workers)[w]
    {
      QueuesToListen(listing, listen);
      var todo := published.Keys;
      while todo != {}
        invariant Valid() && todo <= published.Keys
        invariant Publishes(old(published), listing, listen, published)
        invariant PublishesAs(old(published), listing, published)
        invariant forall name | name in published && name !in todo :: HasLiveWorker(name)
        invariant forall w | w in old(workers) :: w in workers && workers[w] == old(workers)[w]
        decreases todo
      {
        var name :| name in todo;
        if !HasLiveWorker(name) {
          Spawn(name);
        }
        todo := todo - {name};
      }
    }

    method Spawn(name: string)
      requires Valid() && name in published && !HasLiveWorker(name)
      modifies this`workers, this`current, this`next
      ensures Valid() && HasLiveWorker(name) && published == old(published)
      ensures current[name] !in old(workers)
      ensures workers[current[name]] == Worker(published[name], published[name].base, true)
      ensures forall other | other != name && old(HasLiveWorker(other)) :: HasLiveWorker(other)
      ensures forall w | w in old(workers) :: w in workers && workers[w] == old(workers)[w]
    {
      assert next !in workers by { assert WorkerOk(next); }
      workers := workers[next := Worker(published[name], published[name].base, true)];
      current := current[name := next];
      next := next + 1;
      forall w ensures WorkerOk(w) {
        assert old(WorkerOk(w));
      }
    }

    // One pass of a worker's loop: reload, or stop if its queue is gone; then
    // adjust the interval.
    method Iterate(w: nat, contention: bool)
      requires Valid() && w in workers && workers[w].running
      modifies this`workers
      ensures Valid()
      ensures forall v | v != w ::
                (v in workers <==> v in old(workers)) && (v in workers ==> workers[v] == old(workers)[v])
      ensures w in workers && workers[w].queue.name == old(workers)[w].queue.name
      ensures workers[w].running <==> !old(workers)[w].queue.backed || old(workers)[w].queue.name in published
      ensures workers[w].running ==>
                var x := old(workers)[w];
                var q := if x.queue.backed then published[x.queue.name] else x.queue;
                var reloaded := if x.queue.backed then Reload(q, x.interval) else x.interval;
                && workers[w].queue == q && InBounds(q, reloaded)
                && workers[w].interval == Adjust(q, reloaded, contention)
    {
      assert WorkerOk(w);
      var x := workers[w];
      var q, interval := x.queue, x.interval;
      if q.backed {
        if q.name !in published {
          workers := workers[w := x.(running := false)];
          forall v ensures WorkerOk(v) { assert old(WorkerOk(v)); }
          return;
        }
        q := published[q.name];
        interval := Reload(q, interval);
      }
      interval := Adjust(q, interval, contention);
      workers := workers[w := Worker(q, interval, true)];
      forall v ensures WorkerOk(v) { assert old(WorkerOk(v)); }
    }
  }

  // At most one live worker per queue name.
  lemma OneWorkerPerQueue(r: QueueRunner, v: nat, w: nat)
    requires r.Valid() && v in r.workers && w in r.workers && r.workers[v].running && r.workers[w].running
    requires r.workers[v].queue.name == r.workers[w].queue.name
    ensures v == w
  {
    assert r.WorkerOk(v) && r.WorkerOk(w);
  }
}
