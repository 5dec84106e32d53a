/**
 * `fetchQueue`: at most `maxConcurrentRequests` requests are handed to the transport at a
 * time; the others wait in a FIFO list. The transport is abstract: a request in flight is
 * settled by a call to `Settle`, in whatever order the caller chooses, which stands for the
 * `.then` or `.catch` continuation of `_fetch(request.url)`.
 */
module Fetching {
  import opened Manifest

  const MaxConcurrentRequests: nat := 30

  /** One call of `add(url)`; `id` counts the calls and stands for the identity of its promise. */
  datatype Request = Request(id: nat, url: string)

  /** How a request's promise settled: `resolve(response)` or `reject(err)`. */
  datatype Outcome = Resolved(body: Bytes) | Rejected(reason: string)

  class FetchQueue {
    var concurrentRequests: nat
    const maxConcurrentRequests: nat
    var queue: seq<Request>
    /** The requests handed to the transport whose call has not settled yet. */
    var inFlight: set<Request>
    /** The requests whose promise has been resolved or rejected, with how. */
    var settled: map<Request, Outcome>
    /** The number of `add` calls so far. */
    var issued: nat
    /** Every request, in the order `add` received it. */
    ghost var added: seq<Request>
    /** Every request handed to the transport, in the order it was handed over. */
    ghost var admitted: seq<Request>

    /** The bookkeeping that holds between any two steps, even inside `settle`. */
    ghost predicate Bookkeeping()
      reads this
    {
      && maxConcurrentRequests == MaxConcurrentRequests
      && concurrentRequests == |inFlight| <= maxConcurrentRequests
      && admitted + queue == added
      && issued == |added|
      && (forall i :: 0 <= i < |added| ==> added[i].id == i)
      && (forall r :: r in inFlight <==> r in admitted && r !in settled)
      && (forall r :: r in settled ==> r in admitted)
    }

    /** The queue invariant: requests wait only while the cap is reached. */
    ghost predicate Valid()
      reads this
    {
      Bookkeeping() && (queue != [] ==> concurrentRequests == maxConcurrentRequests)
    }

    constructor ()
      ensures Valid() && fresh(this)
      ensures maxConcurrentRequests == MaxConcurrentRequests
      ensures queue == [] && inFlight == {} && settled == map[] && added == []
    {
      concurrentRequests := 0;
      maxConcurrentRequests := MaxConcurrentRequests;
      queue := [];
      inFlight := {};
      settled := map[];
      issued := 0;
      added := [];
      admitted := [];
    }

    /** A request added earlier is neither waiting and admitted at once, nor listed twice. */
    lemma RequestsDistinct()
      requires Bookkeeping()
      ensures forall i, j :: 0 <= i < j < |added| ==> added[i] != added[j]
      ensures forall r :: r in queue ==> r !in admitted
      ensures forall i, j :: 0 <= i < j < |queue| ==> queue[i] != queue[j]
    {
      forall a | 0 <= a < |admitted|
        ensures admitted[a].id < |admitted|
      {
        assert admitted[a] == added[a];
      }
      forall r | r in queue
        ensures r !in admitted
      {
        var q :| 0 <= q < |queue| && queue[q] == r;
        assert added[|admitted| + q] == r;
      }
      forall i, j | 0 <= i < j < |queue|
        ensures queue[i] != queue[j]
      {
        assert queue[i] == added[|admitted| + i] && queue[j] == added[|admitted| + j];
      }
    }

    /** `add(url)`: queue the request, and hand it over at once when below the cap. */
    method Add(url: string) returns (req: Request)
      requires Valid()
      modifies this
      ensures Valid()
      ensures req == Request(old(issued), url) && added == old(added) + [req]
      ensures settled == old(settled)
      ensures old(concurrentRequests) < maxConcurrentRequests ==>
                && admitted == old(admitted) + [req] && queue == []
                && inFlight == old(inFlight) + {req}
                && concurrentRequests == old(concurrentRequests) + 1
      ensures old(concurrentRequests) == maxConcurrentRequests ==>
                && admitted == old(admitted) && queue == old(queue) + [req]
                && inFlight == old(inFlight) && concurrentRequests == old(concurrentRequests)
    {
      req := Request(issued, url);
      issued := issued + 1;
      queue := queue + [req];
      added := added + [req];
      if concurrentRequests < maxConcurrentRequests {
        ProcessNext();
      }
    }

    /** `processNext()`: hand the head of the queue to the transport, if there is one. */
    method ProcessNext()
      requires Bookkeeping() && concurrentRequests < maxConcurrentRequests
      modifies this
      ensures Bookkeeping()
      ensures added == old(added) && settled == old(settled) && issued == old(issued)
      ensures old(queue) == [] ==>
                queue == [] && admitted == old(admitted) && inFlight == old(inFlight)
                && concurrentRequests == old(concurrentRequests)
      ensures old(queue) != [] ==>
                && queue == old(queue)[1..] && admitted == old(admitted) + [old(queue)[0]]
                && inFlight == old(inFlight) + {old(queue)[0]}
                && concurrentRequests == old(concurrentRequests) + 1
    {
      if queue == [] {
        return;
      }
      RequestsDistinct();
      var request := queue[0];
      assert request !in inFlight;
      queue := queue[1..];
      admitted := admitted + [request];
      concurrentRequests := concurrentRequests + 1;
      inFlight := inFlight + {request};
    }

    /**
     * The transport settles `req`, successfully or not: the count drops, at most one waiting
     * request is admitted, and `req`'s promise is settled with `outcome`.
     */
    method Settle(req: Request, outcome: Outcome)
      requires Valid() && req in inFlight
      modifies this
      ensures Valid()
      ensures req !in old(settled) && settled == old(settled)[req := outcome]
      ensures added == old(added) && req !in inFlight
      ensures old(queue) != [] ==>
                && queue == old(queue)[1..] && admitted == old(admitted) + [old(queue)[0]]
                && inFlight == old(inFlight) - {req} + {old(queue)[0]}
                && concurrentRequests == old(concurrentRequests)
      ensures old(queue) == [] ==>
                && queue == [] && admitted == old(admitted)
                && inFlight == old(inFlight) - {req}
                && concurrentRequests == old(concurrentRequests) - 1
    {
      RequestsDistinct();
      assert old(queue) != [] ==> old(queue)[0] != req;
      concurrentRequests := concurrentRequests - 1;
      inFlight := inFlight - {req};
      settled := settled[req := outcome];
      ProcessNext();
    }

    /**
     * Whatever order the transport settles requests in, all of them end up settled, each
     * exactly once: a client that settles in-flight requests until none is left.
     */
    method Drain(outcomeOf: Request -> Outcome)
      requires Valid()
      modifies this
      ensures Valid() && queue == [] && inFlight == {}
      ensures added == old(added) && admitted == added
      ensures forall r :: r in settled <==> r in added
    {
      while inFlight != {}
        invariant Valid() && added == old(added)
        decreases |inFlight| + |queue|
      {
        var r :| r in inFlight;
        RequestsDistinct();
        ghost var q0 := queue;
        ghost var f0 := inFlight;
        Settle(r, outcomeOf(r));
        if q0 != [] {
          assert q0[0] !in f0 - {r};
          assert |inFlight| == |f0 - {r}| + 1;
        }
      }
    }
  }
}
