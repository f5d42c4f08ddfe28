/** The request counter `api_gateway_requests_total`, labelled by the
    matched route pattern and the HTTP method, and the middleware that adds
    one to it for every request. */
module Metrics {

  /** A label pair: (route pattern as matched, HTTP method). */
  type Key = (string, string)

  type Counts = map<Key, nat>

  /** The value of a counter; a label pair never observed reads as zero,
      since counters are created on first use. */
  function Count(m: Counts, k: Key): nat
  {
    if k in m then m[k] else 0
  }

  /** One observation: the observed counter goes up by one, the counter is
      created if it did not exist, and every other counter is unchanged. */
  function Increment(m: Counts, k: Key): (r: Counts)
    ensures Count(r, k) == Count(m, k) + 1
    ensures forall k' :: k' != k ==> Count(r, k') == Count(m, k')
    ensures r.Keys == m.Keys + {k}
  {
    m[k := Count(m, k) + 1]
  }

  /** The counters after observing the given label pairs in order. */
  function Replay(m: Counts, observed: seq<Key>): Counts
  {
    if observed == [] then m
    else Increment(Replay(m, observed[..|observed| - 1]), observed[|observed| - 1])
  }

  /** After a sequence of observations each counter has grown by exactly
      the number of times its label pair was observed, and the counters
      that exist are those that existed plus those observed. */
  lemma {:induction false} ReplayCounts(m: Counts, observed: seq<Key>, k: Key)
    ensures Count(Replay(m, observed), k) == Count(m, k) + multiset(observed)[k]
    ensures Replay(m, observed).Keys == m.Keys + set o | o in observed
  {
    if observed != [] {
      var n := |observed| - 1;
      ReplayCounts(m, observed[..n], k);
      assert observed == observed[..n] + [observed[n]];
      assert multiset(observed) == multiset(observed[..n]) + multiset{observed[n]};
      assert (set o | o in observed) == (set o | o in observed[..n]) + {observed[n]};
    }
  }

  /** Counting loses nothing and depends on no ordering: any two orders of
      the same observations leave the same counters. */
  lemma {:induction false} ReplayOrderIrrelevant(m: Counts, a: seq<Key>, b: seq<Key>)
    requires multiset(a) == multiset(b)
    ensures Replay(m, a) == Replay(m, b)
  {
    var ra, rb := Replay(m, a), Replay(m, b);
    forall k
      ensures (k in ra <==> k in rb) && (k in ra ==> ra[k] == rb[k])
    {
      ReplayCounts(m, a, k);
      ReplayCounts(m, b, k);
      assert k in a <==> k in multiset(a);
      assert k in b <==> k in multiset(b);
    }
  }

  /** Counters never go down. */
  lemma ReplayMonotone(m: Counts, observed: seq<Key>, k: Key)
    ensures Count(Replay(m, observed), k) >= Count(m, k)
  {
    ReplayCounts(m, observed, k);
  }

  /** The counter vector, updated in place by the metrics middleware. */
  class RequestCounter {
    var counts: Counts

    /** A freshly registered counter vector holds no counters. */
    constructor ()
      ensures counts == map[]
    {
      counts := map[];
    }

    /** The middleware's `totalRequests.WithLabelValues(c.FullPath(), c.Request.Method).Inc()`. */
    method Observe(path: string, verb: string)
      modifies this
      ensures counts == Increment(old(counts), (path, verb))
    {
      counts := Increment(counts, (path, verb));
    }
  }
}
