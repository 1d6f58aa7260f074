// The `with_key_rotation` decorator that wraps every tool's `run`.
//
// The wrapper takes the credential pool from `kwargs["api_keys"]`, copies
// its retry budget (`max_retries()`, service name -> retries left) and calls
// `run`. A returned 4-tuple gets the pool appended. An exception carrying
// `status_code == 429` is a rate limit: the service it names (its class
// name, lower-cased) loses one retry, the pool rotates that service's key
// and `run` is called again with the same arguments; once the service has
// no retries left the exception propagates. Any other exception becomes the
// soft response `(str(e), "", None, None, api_keys)`.
//
// `Execute` states what the retry loop computes; `KeyPool` is the pool as
// the wrapper sees it, and `WithKeyRotation` is the loop itself, proved to
// compute `Execute`.

module KeyRotation {
  import opened Values
  import opened Text
  import opened Mech

  /**
   * The inner `run` for a given state of the pool. The keyword arguments
   * are the same on every attempt; what changes between attempts is the
   * credential the pool hands out, i.e. the services rotated so far.
   */
  type Call = seq<string> -> Outcome

  function Pos(x: int): nat
  {
    if x > 0 then x else 0
  }

  /** `retries_left.get(service, 0)`. */
  function Budget(retriesLeft: map<string, int>, service: string): int
  {
    if service in retriesLeft then retriesLeft[service] else 0
  }

  /** The service an exception charges: `e.__class__.__name__.lower()`. */
  function ServiceOf(e: Exception): string
  {
    Lower(e.className)
  }

  /** `hasattr(e, "status_code") and e.status_code == 429`. */
  predicate RateLimited(e: Exception)
  {
    e.statusCode == Some(429)
  }

  /** `(str(e), "", None, None)`: the soft response for an error that is not a rate limit. */
  function SoftReply(e: Exception): Reply
  {
    Reply(e.message, StrV(""), NoneV, NoneV)
  }

  // ---- termination measure: the retries still available ----

  /** One token per retry still available: (service, n) for each n below its budget. */
  ghost function Tokens(m: map<string, int>): set<(string, int)>
  {
    set k, n | k in m && 0 <= n < m[k] :: (k, n)
  }

  /** Spending one retry of a service that has one removes exactly one token. */
  lemma SpendOne(m: map<string, int>, service: string)
    requires Budget(m, service) > 0
    ensures Tokens(m[service := m[service] - 1]) == Tokens(m) - {(service, m[service] - 1)}
    ensures (service, m[service] - 1) in Tokens(m)
    ensures Tokens(m[service := m[service] - 1]) < Tokens(m)
  {
  }

  // ---- what the retry loop computes ----

  /** How the wrapped call ends for its caller: a 4-tuple, or an exception that propagates. */
  datatype Final = Replied(reply: Reply) | Reraised(error: Exception)

  /** The end of a wrapped call and the services rotated on the way, in order. */
  datatype Trace = Trace(final: Final, rotations: seq<string>)

  /**
   * `execute()` with budget `retriesLeft`, after the pool has rotated
   * `history`.
   */
  function Execute(retriesLeft: map<string, int>, call: Call, history: seq<string>): (t: Trace)
    ensures t.final.Reraised? ==> RateLimited(t.final.error)
    decreases Tokens(retriesLeft)
  {
    match call(history)
    case Returned(reply) => Trace(Replied(reply), [])
    case Raised(e) =>
      var service := ServiceOf(e);
      if !RateLimited(e) then Trace(Replied(SoftReply(e)), [])
      else if Budget(retriesLeft, service) <= 0 then Trace(Reraised(e), [])
      else
        SpendOne(retriesLeft, service);
        var rest := Execute(retriesLeft[service := retriesLeft[service] - 1], call, history + [service]);
        Trace(rest.final, [service] + rest.rotations)
  }

  /** A returned 4-tuple is passed on unchanged and nothing is rotated. */
  lemma ReturnedPassesThrough(m: map<string, int>, call: Call, h: seq<string>, reply: Reply)
    requires call(h) == Returned(reply)
    ensures Execute(m, call, h) == Trace(Replied(reply), [])
  {
  }

  /** An error without status 429 becomes `(str(e), "", None, None)`, with no rotation. */
  lemma OtherErrorIsSoft(m: map<string, int>, call: Call, h: seq<string>, e: Exception)
    requires call(h) == Raised(e) && !RateLimited(e)
    ensures Execute(m, call, h) == Trace(Replied(Reply(e.message, StrV(""), NoneV, NoneV)), [])
  {
  }

  /** A rate limit on a service with no retries left (or no entry) propagates, with no rotation. */
  lemma ExhaustedReraises(m: map<string, int>, call: Call, h: seq<string>, e: Exception)
    requires call(h) == Raised(e) && RateLimited(e)
    requires ServiceOf(e) !in m || m[ServiceOf(e)] <= 0
    ensures Execute(m, call, h) == Trace(Reraised(e), [])
  {
  }

  /**
   * A rate limit on a service with retries left spends exactly one retry of
   * that service, rotates it once and calls again.
   */
  lemma RateLimitRotatesOnce(m: map<string, int>, call: Call, h: seq<string>, e: Exception)
    requires call(h) == Raised(e) && RateLimited(e)
    requires ServiceOf(e) in m && m[ServiceOf(e)] > 0
    ensures var s := ServiceOf(e);
            var rest := Execute(m[s := m[s] - 1], call, h + [s]);
            Execute(m, call, h) == Trace(rest.final, [s] + rest.rotations)
  {
  }

  /**
   * Rotations never exceed the budget: each service is rotated at most as
   * many times as it had retries, so the retrying stops.
   */
  lemma {:induction false} RotationsWithinBudget(m: map<string, int>, call: Call, h: seq<string>, s: string)
    ensures multiset(Execute(m, call, h).rotations)[s] <= Pos(Budget(m, s))
    ensures |Execute(m, call, h).rotations| <= |Tokens(m)|
    decreases Tokens(m)
  {
    match call(h)
    case Returned(_) =>
    case Raised(e) =>
      var service := ServiceOf(e);
      if RateLimited(e) && Budget(m, service) > 0 {
        SpendOne(m, service);
        var m' := m[service := m[service] - 1];
        RotationsWithinBudget(m', call, h + [service], s);
        var rest := Execute(m', call, h + [service]);
        assert Execute(m, call, h).rotations == [service] + rest.rotations;
        assert multiset([service] + rest.rotations) == multiset{service} + multiset(rest.rotations);
      }
  }

  /**
   * Every rotation answers a rate limit: the attempt made after rotating
   * the first i services raised status 429 for the (i+1)-th.
   */
  lemma {:induction false} RotationsAnswerRateLimits(m: map<string, int>, call: Call, h: seq<string>, i: nat)
    requires i < |Execute(m, call, h).rotations|
    ensures var t := Execute(m, call, h);
            var o := call(h + t.rotations[..i]);
            o.Raised? && RateLimited(o.error) && ServiceOf(o.error) == t.rotations[i]
    decreases Tokens(m)
  {
    match call(h)
    case Returned(_) =>
    case Raised(e) =>
      var service := ServiceOf(e);
      if RateLimited(e) && Budget(m, service) > 0 {
        SpendOne(m, service);
        var m' := m[service := m[service] - 1];
        var rest := Execute(m', call, h + [service]);
        var t := Execute(m, call, h);
        assert t.rotations == [service] + rest.rotations;
        if i > 0 {
          RotationsAnswerRateLimits(m', call, h + [service], i - 1);
          assert h + t.rotations[..i] == h + [service] + rest.rotations[..i - 1];
        } else {
          assert h + t.rotations[..0] == h;
        }
      }
  }

  /**
   * The wrapped call ends with the attempt made after all its rotations:
   * that attempt returned the reply, raised a non-429 error now reported
   * softly, or raised the 429 that propagates because its service had no
   * retries left.
   */
  lemma {:induction false} EndsWithLastAttempt(m: map<string, int>, call: Call, h: seq<string>)
    ensures var t := Execute(m, call, h);
            match call(h + t.rotations)
            case Returned(reply) => t.final == Replied(reply)
            case Raised(e) =>
              if RateLimited(e) then t.final == Reraised(e)
              else t.final == Replied(SoftReply(e))
    decreases Tokens(m)
  {
    match call(h)
    case Returned(_) =>
      assert h + [] == h;
    case Raised(e) =>
      var service := ServiceOf(e);
      if RateLimited(e) && Budget(m, service) > 0 {
        SpendOne(m, service);
        var m' := m[service := m[service] - 1];
        EndsWithLastAttempt(m', call, h + [service]);
        var rest := Execute(m', call, h + [service]);
        assert h + ([service] + rest.rotations) == h + [service] + rest.rotations;
      } else {
        assert h + [] == h;
      }
  }

  /**
   * A rate limit propagates only after its service has been rotated as
   * many times as its budget allowed.
   */
  lemma {:induction false} ReraisedAfterBudgetSpent(m: map<string, int>, call: Call, h: seq<string>)
    ensures var t := Execute(m, call, h);
            t.final.Reraised? ==> Budget(m, ServiceOf(t.final.error)) <= multiset(t.rotations)[ServiceOf(t.final.error)]
    decreases Tokens(m)
  {
    match call(h)
    case Returned(_) =>
    case Raised(e) =>
      var service := ServiceOf(e);
      if RateLimited(e) && Budget(m, service) > 0 {
        SpendOne(m, service);
        var m' := m[service := m[service] - 1];
        ReraisedAfterBudgetSpent(m', call, h + [service]);
        var rest := Execute(m', call, h + [service]);
        assert Execute(m, call, h).rotations == [service] + rest.rotations;
        assert multiset([service] + rest.rotations) == multiset{service} + multiset(rest.rotations);
      }
  }

  /** The attempt raised a rate limit charged to service `s`. */
  predicate RateLimitedBy(o: Outcome, s: string)
  {
    o.Raised? && RateLimited(o.error) && ServiceOf(o.error) == s
  }

  /** `k` copies of `s`. */
  function Repeat(s: string, k: nat): (r: seq<string>)
    ensures |r| == k && forall i :: 0 <= i < k ==> r[i] == s
  {
    if k == 0 then [] else [s] + Repeat(s, k - 1)
  }

  /**
   * A call that is rate limited k times by the same service and then
   * returns, with k within that service's budget, returns that reply after k
   * rotations of the service.
   */
  lemma {:induction false} RecoversAfterRateLimits(m: map<string, int>, call: Call, h: seq<string>,
                                                   s: string, k: nat, reply: Reply)
    requires k <= Budget(m, s)
    requires forall i :: 0 <= i < k ==> RateLimitedBy(call(h + Repeat(s, i)), s)
    requires call(h + Repeat(s, k)) == Returned(reply)
    ensures Execute(m, call, h) == Trace(Replied(reply), Repeat(s, k))
    decreases k
  {
    if k == 0 {
      assert h + Repeat(s, 0) == h;
    } else {
      assert h + Repeat(s, 0) == h;
      var m' := m[s := m[s] - 1];
      forall i | 0 <= i < k - 1 ensures RateLimitedBy(call(h + [s] + Repeat(s, i)), s) {
        assert h + [s] + Repeat(s, i) == h + Repeat(s, i + 1);
      }
      assert h + [s] + Repeat(s, k - 1) == h + Repeat(s, k);
      RecoversAfterRateLimits(m', call, h + [s], s, k - 1, reply);
    }
  }

  /**
   * A call that is rate limited by the same service on every attempt
   * rotates it exactly its budget's worth of times, then the last rate
   * limit propagates.
   */
  lemma {:induction false} PersistentRateLimitReraises(m: map<string, int>, call: Call, h: seq<string>, s: string)
    requires forall i: nat :: i <= Pos(Budget(m, s)) ==> RateLimitedBy(call(h + Repeat(s, i)), s)
    ensures var n := Pos(Budget(m, s));
            var last := call(h + Repeat(s, n));
            last.Raised? && Execute(m, call, h) == Trace(Reraised(last.error), Repeat(s, n))
    decreases Pos(Budget(m, s))
  {
    assert h + Repeat(s, 0) == h;
    if Budget(m, s) > 0 {
      var m' := m[s := m[s] - 1];
      assert Pos(Budget(m', s)) == Pos(Budget(m, s)) - 1;
      forall i: nat | i <= Pos(Budget(m', s)) ensures RateLimitedBy(call(h + [s] + Repeat(s, i)), s) {
        assert h + [s] + Repeat(s, i) == h + Repeat(s, i + 1);
      }
      PersistentRateLimitReraises(m', call, h + [s], s);
      var n := Pos(Budget(m, s));
      assert h + [s] + Repeat(s, n - 1) == h + Repeat(s, n);
    }
  }

  // ---- the credential pool and the wrapper ----

  /**
   * The credential pool passed as `api_keys`. Only what the wrapper and the
   * tools use is modelled: the retry budget it reports, key rotation, and
   * the credential it currently hands out for a name.
   */
  class KeyPool {
    /** What `max_retries()` reports. */
    const limits: map<string, int>
    /** The credential `get(name)` hands out after the given rotations. */
    const credentials: (seq<string>, string) -> Option<string>
    /** The services rotated so far, in order. */
    var rotated: seq<string>

    constructor (limits: map<string, int>, credentials: (seq<string>, string) -> Option<string>)
      ensures this.limits == limits && this.credentials == credentials && rotated == []
    {
      this.limits := limits;
      this.credentials := credentials;
      rotated := [];
    }

    /** `max_retries()`: a fresh copy of the budget, which the caller may then spend. */
    method MaxRetries() returns (m: map<string, int>)
      ensures m == limits
    {
      m := limits;
    }

    /** `rotate(service)`: the next key of that service becomes current. */
    method Rotate(service: string)
      modifies this
      ensures rotated == old(rotated) + [service]
    {
      rotated := rotated + [service];
    }

    /** `get(name, None)`. */
    function Get(name: string): Option<string>
      reads this
    {
      credentials(rotated, name)
    }
  }

  /** What the caller of a wrapped `run` sees: the 5-tuple, or an exception. */
  datatype MechResult = Respond(reply: Reply, keys: KeyPool) | Raise(error: Exception)

  function Deliver(f: Final, pool: KeyPool): MechResult
  {
    match f
    case Replied(reply) => Respond(reply, pool)
    case Reraised(e) => Raise(e)
  }

  /** The `api_keys` keyword argument: absent, or present (`null` when it is None). */
  datatype KeysArg = Absent | Given(pool: KeyPool?)

  function Footprint(keys: KeysArg): set<object>
  {
    if keys.Given? && keys.pool != null then {keys.pool} else {}
  }

  /** `execute()`: call, and on a rate limit with budget left, rotate and call again. */
  method Retry(pool: KeyPool, call: Call) returns (r: MechResult)
    modifies pool
    ensures var t := Execute(pool.limits, call, old(pool.rotated));
            pool.rotated == old(pool.rotated) + t.rotations && r == Deliver(t.final, pool)
  {
    var retriesLeft := pool.MaxRetries();
    ghost var done: seq<string> := [];
    while true
      invariant pool.rotated == old(pool.rotated) + done
      invariant var t := Execute(retriesLeft, call, pool.rotated);
                Execute(pool.limits, call, old(pool.rotated)) == Trace(t.final, done + t.rotations)
      decreases Tokens(retriesLeft)
    {
      var h := pool.rotated;
      match call(h) {
        case Returned(reply) =>
          ReturnedPassesThrough(retriesLeft, call, h, reply);
          return Respond(reply, pool);
        case Raised(e) =>
          var service := ServiceOf(e);
          if !RateLimited(e) {
            OtherErrorIsSoft(retriesLeft, call, h, e);
            return Respond(SoftReply(e), pool);
          }
          if Budget(retriesLeft, service) <= 0 {
            ExhaustedReraises(retriesLeft, call, h, e);
            return Raise(e);
          }
          RateLimitRotatesOnce(retriesLeft, call, h, e);
          SpendOne(retriesLeft, service);
          ghost var rest := Execute(retriesLeft[service := retriesLeft[service] - 1], call, h + [service]);
          assert done + ([service] + rest.rotations) == (done + [service]) + rest.rotations;
          retriesLeft := retriesLeft[service := retriesLeft[service] - 1];
          pool.Rotate(service);
          done := done + [service];
      }
    }
  }

  /**
   * The wrapper: `kwargs["api_keys"]` (a KeyError when absent), then its
   * `max_retries()` (an AttributeError when it is None), then `execute()`.
   */
  method WithKeyRotation(keys: KeysArg, call: Call) returns (r: MechResult)
    modifies Footprint(keys)
    ensures keys.Absent? ==> r == Raise(KeyError("api_keys"))
    ensures keys == Given(null) ==> r == Raise(AttributeError(NoneV, "max_retries"))
    ensures keys.Given? && keys.pool != null ==>
              var t := Execute(keys.pool.limits, call, old(keys.pool.rotated));
              keys.pool.rotated == old(keys.pool.rotated) + t.rotations && r == Deliver(t.final, keys.pool)
  {
    match keys {
      case Absent =>
        r := Raise(KeyError("api_keys"));
      case Given(pool) =>
        if pool == null {
          r := Raise(AttributeError(NoneV, "max_retries"));
        } else {
          r := Retry(pool, call);
        }
    }
  }
}
