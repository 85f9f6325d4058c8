// In-memory per-IP rate limiter (utils/rateLimiter.js).
// The clock and the request's IP address are parameters.
module RateLimiter {
  import opened Wrappers

  /** Length of the fixed window, in milliseconds. */
  const WindowMs := 60 * 1000
  /** Requests allowed per window when the caller passes no limit. */
  const DefaultLimit := 20

  /** One requester's window: how many requests it made and when the window opened. */
  datatype Entry = Entry(count: int, lastRequest: int)

  /** `Next` lets the request through; `Rejected` is the 429 answer. */
  datatype Outcome = Next | Rejected(status: int, message: string)

  datatype Step = Step(outcome: Outcome, counts: map<string, Entry>)

  const TooManyMessage := "Too many requests, please try again later!"

  /** A missing limit argument takes the default. */
  function EffectiveLimit(reqsPerMinute: Option<int>): (limit: int)
    ensures reqsPerMinute.None? ==> limit == 20
    ensures reqsPerMinute.Some? ==> limit == reqsPerMinute.value
  {
    reqsPerMinute.GetOr(DefaultLimit)
  }

  predicate Expired(e: Entry, now: int)
  {
    now - e.lastRequest > WindowMs
  }

  /** Every stored count lies in 1..limit. */
  predicate Bounded(counts: map<string, Entry>, limit: int)
  {
    forall ip :: ip in counts ==> 1 <= counts[ip].count <= limit
  }

  /** The entries that survive pruning at time `now`. */
  function Pruned(counts: map<string, Entry>, now: int): (r: map<string, Entry>)
  {
    map ip | ip in counts && !Expired(counts[ip], now) :: counts[ip]
  }

  /** One call of the limiter on the current table. */
  function Handle(counts: map<string, Entry>, limit: int, ip: string, now: int): (r: Step)
    // a fresh or expired requester is let through and its window restarts now
    ensures ip !in counts || Expired(counts[ip], now) ==>
              r.outcome == Next && ip in r.counts && r.counts[ip] == Entry(1, now)
    // inside the window the request passes exactly while the count is under the limit
    ensures ip in counts && !Expired(counts[ip], now) ==>
              (r.outcome == Next <==> counts[ip].count < limit)
    // an allowed in-window request counts one more and keeps the window's start
    ensures ip in counts && !Expired(counts[ip], now) && r.outcome == Next ==>
              ip in r.counts && r.counts[ip] == Entry(counts[ip].count + 1, counts[ip].lastRequest)
    // an allowed request touches no other requester
    ensures r.outcome == Next ==>
              r.counts.Keys == counts.Keys + {ip} &&
              forall other :: other in counts && other != ip ==> r.counts[other] == counts[other]
    // a rejected request answers 429, keeps its own entry and drops exactly the expired ones
    ensures r.outcome.Rejected? ==>
              r.outcome.status == 429 && ip in r.counts && r.counts[ip] == counts[ip] &&
              forall other :: other in r.counts <==> other in counts && !Expired(counts[other], now)
    ensures forall other :: other in r.counts && other != ip ==> other in counts && r.counts[other] == counts[other]
  {
    if ip !in counts || Expired(counts[ip], now) then
      Step(Next, counts[ip := Entry(1, now)])
    else if counts[ip].count < limit then
      Step(Next, counts[ip := Entry(counts[ip].count + 1, counts[ip].lastRequest)])
    else
      Step(Rejected(429, TooManyMessage), Pruned(counts, now))
  }

  /** With a limit of at least one, every stored count stays within 1..limit. */
  lemma HandleKeepsBounded(counts: map<string, Entry>, limit: int, ip: string, now: int)
    requires limit >= 1 && Bounded(counts, limit)
    ensures Bounded(Handle(counts, limit, ip, now).counts, limit)
  {
  }

  /** The outcomes of a series of requests from one IP at the given times. */
  function Run(counts: map<string, Entry>, limit: int, ip: string, times: seq<int>): (r: seq<Outcome>)
    ensures |r| == |times|
    decreases |times|
  {
    if times == [] then []
    else
      var s := Handle(counts, limit, ip, times[0]);
      [s.outcome] + Run(s.counts, limit, ip, times[1..])
  }

  /** `n` allowed requests. */
  function Allowed(n: nat): (r: seq<Outcome>)
    ensures |r| == n && forall k :: 0 <= k < n ==> r[k] == Next
  {
    if n == 0 then [] else [Next] + Allowed(n - 1)
  }

  predicate InWindow(times: seq<int>, start: int)
  {
    forall k :: 0 <= k < |times| ==> 0 <= times[k] - start <= WindowMs
  }

  /** A requester holding `c` requests in a window opened at `start` gets exactly
      `limit - c` more through, and the next one inside the window is rejected. */
  lemma {:induction false} BurstFromEntry(counts: map<string, Entry>, limit: int, ip: string,
                                          start: int, c: int, times: seq<int>)
    requires ip in counts && counts[ip] == Entry(c, start) && 1 <= c <= limit
    requires |times| == limit - c + 1 && InWindow(times, start)
    ensures Run(counts, limit, ip, times) == Allowed(limit - c) + [Rejected(429, TooManyMessage)]
    decreases limit - c
  {
    var s := Handle(counts, limit, ip, times[0]);
    assert !Expired(counts[ip], times[0]);
    if c < limit {
      assert s.counts[ip] == Entry(c + 1, start);
      BurstFromEntry(s.counts, limit, ip, start, c + 1, times[1..]);
    } else {
      assert times[1..] == [];
    }
  }

  /** Starting from no entry, `limit` requests inside one window pass and the next is rejected:
      the window is anchored at the first request and does not slide. */
  lemma FirstBurst(counts: map<string, Entry>, limit: int, ip: string, times: seq<int>)
    requires ip !in counts && limit >= 1
    requires |times| == limit + 1 && InWindow(times, times[0])
    ensures Run(counts, limit, ip, times) == Allowed(limit) + [Rejected(429, TooManyMessage)]
  {
    var s := Handle(counts, limit, ip, times[0]);
    assert InWindow(times[1..], times[0]) by {
      forall k | 0 <= k < |times[1..]| ensures 0 <= times[1..][k] - times[0] <= WindowMs {
        assert times[1..][k] == times[k + 1];
      }
    }
    BurstFromEntry(s.counts, limit, ip, times[0], 1, times[1..]);
  }

  /** The module-level table of the source, updated in place by each request. */
  class Limiter {
    var requestCounts: map<string, Entry>

    constructor ()
      ensures requestCounts == map[]
    {
      requestCounts := map[];
    }

    /** Answers one request; the table changes as `Handle` says, pruned by a loop on the reject path. */
    method Request(reqsPerMinute: Option<int>, ip: string, now: int) returns (o: Outcome)
      modifies this
      ensures Handle(old(requestCounts), EffectiveLimit(reqsPerMinute), ip, now) == Step(o, requestCounts)
    {
      var limit := EffectiveLimit(reqsPerMinute);
      if ip !in requestCounts || now - requestCounts[ip].lastRequest > WindowMs {
        requestCounts := requestCounts[ip := Entry(1, now)];
        return Next;
      }
      if requestCounts[ip].count < limit {
        var e := requestCounts[ip];
        requestCounts := requestCounts[ip := e.(count := e.count + 1)];
        return Next;
      }
      var keys := requestCounts.Keys;
      ghost var before := requestCounts;
      while keys != {}
        invariant keys <= before.Keys
        invariant forall k :: k in requestCounts <==> k in before && (k in keys || !Expired(before[k], now))
        invariant forall k :: k in requestCounts ==> requestCounts[k] == before[k]
        decreases keys
      {
        var k :| k in keys;
        if now - requestCounts[k].lastRequest > WindowMs {
          requestCounts := requestCounts - {k};
        }
        keys := keys - {k};
      }
      return Rejected(429, TooManyMessage);
    }
  }
}
