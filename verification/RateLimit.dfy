/** The upload rate limiter: counters per identity and fixed window, the previous window weighed by what is
    left of it, and entries that expire. */
module RateLimit {
  import opened Wrappers

  /******* State *******/

  datatype Identity = Ip(ip: string) | Account(accountId: string)

  datatype Budget = Budget(maxRequests: nat, maxBytes: nat)

  datatype Config = Config(windowSeconds: nat, ip: Budget, account: Budget)

  predicate ConfigOk(config: Config) {
    && config.windowSeconds > 0 && config.ip.maxRequests > 0 && config.ip.maxBytes > 0
    && config.account.maxRequests > 0 && config.account.maxBytes > 0
  }

  function BudgetOf(config: Config, id: Identity): Budget {
    if id.Ip? then config.ip else config.account
  }

  datatype BucketKey = BucketKey(id: Identity, bucket: int)

  datatype Bucket = Bucket(requests: nat, bytes: nat)

  datatype Stored = Stored(bucket: Bucket, expiresAt: nat)

  type Kv = map<BucketKey, Stored>

  /** What the store does to a check: its reads or its write may throw, and a write that throws stores nothing. */
  datatype Fault = NoFault | ReadFails | WriteFails

  /** A check of one identity at a time in whole seconds. */
  datatype Check = Check(id: Identity, bytes: nat, now: nat, fault: Fault)

  datatype BudgetCheck = BudgetCheck(allowed: bool, retryAfterSeconds: nat)

  datatype RateLimitResult =
    | Allowed
    | RateLimited(retryAfterSeconds: nat)
    | StorageUnavailable(retryAfterSeconds: nat)

  /******* Steps *******/

  function BucketOf(config: Config, now: nat): nat
    requires ConfigOk(config)
  {
    now / config.windowSeconds
  }

  function Elapsed(config: Config, now: nat): (e: nat)
    requires ConfigOk(config)
    ensures e < config.windowSeconds
  {
    now % config.windowSeconds
  }

  /** A missing or expired entry reads as zero. */
  function ReadBucket(kv: Kv, key: BucketKey, now: nat): Bucket {
    if key in kv && now < kv[key].expiresAt then kv[key].bucket else Bucket(0, 0)
  }

  function CurrentKey(config: Config, check: Check): BucketKey
    requires ConfigOk(config)
  {
    BucketKey(check.id, BucketOf(config, check.now))
  }

  function PreviousKey(config: Config, check: Check): BucketKey
    requires ConfigOk(config)
  {
    BucketKey(check.id, BucketOf(config, check.now) - 1)
  }

  /** The estimate with its weight `left / window` and the cost fit the budget, all multiplied by the window. */
  predicate Fits(previous: nat, left: nat, window: nat, current: nat, cost: nat, max: nat) {
    previous * left + (current + cost) * window <= max * window
  }

  predicate Affords(config: Config, kv: Kv, check: Check)
    requires ConfigOk(config)
  {
    var window := config.windowSeconds;
    var left := window - Elapsed(config, check.now);
    var current := ReadBucket(kv, CurrentKey(config, check), check.now);
    var previous := ReadBucket(kv, PreviousKey(config, check), check.now);
    && Fits(previous.requests, left, window, current.requests, 1, BudgetOf(config, check.id).maxRequests)
    && Fits(previous.bytes, left, window, current.bytes, check.bytes, BudgetOf(config, check.id).maxBytes)
  }

  predicate Accepts(config: Config, kv: Kv, check: Check)
    requires ConfigOk(config)
  {
    check.fault.NoFault? && Affords(config, kv, check)
  }

  function Step(config: Config, kv: Kv, check: Check): Kv
    requires ConfigOk(config)
  {
    if Accepts(config, kv, check) then
      var current := ReadBucket(kv, CurrentKey(config, check), check.now);
      kv[CurrentKey(config, check) :=
      Stored(Bucket(current.requests + 1, current.bytes + check.bytes), check.now + config.windowSeconds * 2)]
    else kv
  }

  /** The result, or none when the store throws. */
  function CheckResult(config: Config, kv: Kv, check: Check): Option<BudgetCheck>
    requires ConfigOk(config)
  {
    if check.fault.ReadFails? then None
    else if !Affords(config, kv, check) then Some(BudgetCheck(false, config.windowSeconds - Elapsed(config, check.now)))
    else if check.fault.WriteFails? then None
    else Some(BudgetCheck(true, 0))
  }

  function Larger(x: nat, y: nat): nat {
    if x < y then y else x
  }

  /** The store after the first `n` checks, from the empty one. */
  function StoreAt(config: Config, trace: seq<Check>, n: nat): Kv
    requires ConfigOk(config) && n <= |trace|
  {
    if n == 0 then map[] else Step(config, StoreAt(config, trace, n - 1), trace[n - 1])
  }

  predicate AcceptedAt(config: Config, trace: seq<Check>, n: nat)
    requires ConfigOk(config) && n < |trace|
  {
    Accepts(config, StoreAt(config, trace, n), trace[n])
  }

  /** A check touches no other identity's counters, so the order of the two checks does not matter. */
  lemma OtherIdentities(config: Config, kv: Kv, first: Check, second: Check)
    requires ConfigOk(config) && first.id != second.id
    ensures Accepts(config, Step(config, kv, first), second) == Accepts(config, kv, second)
    ensures CheckResult(config, Step(config, kv, first), second) == CheckResult(config, kv, second)
    ensures Step(config, Step(config, kv, first), second) == Step(config, Step(config, kv, second), first)
  {
    OneOtherIdentity(config, kv, first, second);
    OneOtherIdentity(config, kv, second, first);
  }

  lemma OneOtherIdentity(config: Config, kv: Kv, first: Check, second: Check)
    requires ConfigOk(config) && first.id != second.id
    ensures Accepts(config, Step(config, kv, first), second) == Accepts(config, kv, second)
    ensures ReadBucket(Step(config, kv, first), CurrentKey(config, second), second.now)
         == ReadBucket(kv, CurrentKey(config, second), second.now)
  {
  }

  /******* What was consumed *******/

  /** The two budgets. */
  datatype Measure = Requests | Bytes

  /** An accepted check, the bucket it was counted in, and how far into it. */
  datatype Use = Use(check: Check, bucket: nat, elapsed: nat)

  function UseOf(config: Config, check: Check): Use
    requires ConfigOk(config)
  {
    Use(check, BucketOf(config, check.now), Elapsed(config, check.now))
  }

  function Cost(check: Check, what: Measure): nat {
    if what.Requests? then 1 else check.bytes
  }

  function Count(b: Bucket, what: Measure): nat {
    if what.Requests? then b.requests else b.bytes
  }

  /** An address has its own two limits, an account its own two. */
  function Max(config: Config, id: Identity, what: Measure): nat {
    match id
    case Ip(_) => if what.Requests? then config.ip.maxRequests else config.ip.maxBytes
    case Account(_) => if what.Requests? then config.account.maxRequests else config.account.maxBytes
  }

  /** The checks accepted among the first `n`. */
  function Uses(config: Config, trace: seq<Check>, n: nat): seq<Use>
    requires ConfigOk(config) && n <= |trace|
  {
    if n == 0 then []
    else if AcceptedAt(config, trace, n - 1) then Uses(config, trace, n - 1) + [UseOf(config, trace[n - 1])]
    else Uses(config, trace, n - 1)
  }

  function InBucket(uses: seq<Use>, id: Identity, bucket: int, what: Measure): nat {
    if uses == [] then 0
    else
      var u := uses[|uses| - 1];
      InBucket(uses[..|uses| - 1], id, bucket, what) +
      if u.check.id == id && u.bucket == bucket then Cost(u.check, what) else 0
  }

  /** What `id` consumed at times in `(from, to]`. */
  function InSpan(uses: seq<Use>, id: Identity, from: int, to: int, what: Measure): nat {
    if uses == [] then 0
    else
      var u := uses[|uses| - 1];
      InSpan(uses[..|uses| - 1], id, from, to, what) +
      if u.check.id == id && from < u.check.now <= to then Cost(u.check, what) else 0
  }

  lemma LastUse(uses: seq<Use>, u: Use, id: Identity, bucket: int, from: int, to: int, what: Measure)
    ensures InBucket(uses + [u], id, bucket, what) ==
            InBucket(uses, id, bucket, what) + if u.check.id == id && u.bucket == bucket then Cost(u.check, what) else 0
    ensures InSpan(uses + [u], id, from, to, what) ==
            InSpan(uses, id, from, to, what) +
            if u.check.id == id && from < u.check.now <= to then Cost(u.check, what) else 0
  {
    assert (uses + [u])[..|uses|] == uses;
  }

  /******* Windows *******/

  lemma QuotientBounds(now: nat, w: nat)
    requires w > 0
    ensures now / w * w <= now < now / w * w + w
  {
  }

  lemma Apart(w: nat, b: int, c: int, gap: nat)
    requires b + gap <= c
    ensures b * w + gap * w <= c * w
  {
    assert (c - b - gap) * w >= 0;
  }

  /** An entry outlives the window after its own. */
  lemma NotYetExpired(w: nat, now: nat, key: int, expiresAt: nat)
    requires w > 0 && (key == now / w || key == now / w - 1)
    requires expiresAt >= key * w + w * 2
    ensures now < expiresAt
  {
    QuotientBounds(now, w);
    if key == now / w - 1 {
      assert key * w == now / w * w - w;
    }
  }

  lemma NearWindows(w: nat, earlier: nat, now: nat)
    requires w > 0 && now - w < earlier <= now
    ensures earlier / w == now / w || earlier / w == now / w - 1
  {
    var b, c := earlier / w, now / w;
    QuotientBounds(earlier, w);
    QuotientBounds(now, w);
    if b >= c + 1 {
      Apart(w, c, b, 1);
    } else if b <= c - 2 {
      Apart(w, b, c, 2);
    }
  }

  /******* The store is exact *******/

  /** An entry holds what its bucket consumed, and outlives the next bucket. */
  ghost predicate StoredAt(w: nat, kv: Kv, uses: seq<Use>, key: BucketKey) {
    && (forall what :: Count(if key in kv then kv[key].bucket else Bucket(0, 0), what)
                       == InBucket(uses, key.id, key.bucket, what))
    && (key in kv ==> kv[key].expiresAt >= key.bucket * w + w * 2)
  }

  lemma ReadIsExact(w: nat, kv: Kv, uses: seq<Use>, key: BucketKey, now: nat, what: Measure)
    requires w > 0 && StoredAt(w, kv, uses, key) && (key.bucket == now / w || key.bucket == now / w - 1)
    ensures Count(ReadBucket(kv, key, now), what) == InBucket(uses, key.id, key.bucket, what)
  {
    if key in kv {
      NotYetExpired(w, now, key.bucket, kv[key].expiresAt);
    }
  }

  /** The write of an accepted check. */
  lemma WriteIsExact(w: nat, kv: Kv, uses: seq<Use>, u: Use, current: Bucket, key: BucketKey)
    requires w > 0 && StoredAt(w, kv, uses, key) && u.bucket == u.check.now / w
    requires var mine := BucketKey(u.check.id, u.bucket);
             key == mine ==> current == Bucket(InBucket(uses, key.id, key.bucket, Requests),
                                               InBucket(uses, key.id, key.bucket, Bytes))
    ensures var next := Stored(Bucket(current.requests + 1, current.bytes + u.check.bytes), u.check.now + w * 2);
            StoredAt(w, kv[BucketKey(u.check.id, u.bucket) := next], uses + [u], key)
  {
    forall what
      ensures InBucket(uses + [u], key.id, key.bucket, what) ==
              InBucket(uses, key.id, key.bucket, what) +
              if u.check.id == key.id && u.bucket == key.bucket then Cost(u.check, what) else 0
    {
      LastUse(uses, u, key.id, key.bucket, 0, 0, what);
    }
    QuotientBounds(u.check.now, w);
  }

  /** Whatever the clock does, an entry that is still needed is there and is exact. */
  lemma {:induction false} StoreExact(config: Config, trace: seq<Check>, n: nat, key: BucketKey)
    requires ConfigOk(config) && n <= |trace|
    ensures StoredAt(config.windowSeconds, StoreAt(config, trace, n), Uses(config, trace, n), key)
  {
    if n > 0 {
      var w, kv, uses := config.windowSeconds, StoreAt(config, trace, n - 1), Uses(config, trace, n - 1);
      var check := trace[n - 1];
      StoreExact(config, trace, n - 1, key);
      if AcceptedAt(config, trace, n - 1) {
        var mine := CurrentKey(config, check);
        if key == mine {
          ReadIsExact(w, kv, uses, key, check.now, Requests);
          ReadIsExact(w, kv, uses, key, check.now, Bytes);
        }
        WriteIsExact(w, kv, uses, UseOf(config, check), ReadBucket(kv, mine, check.now), key);
      }
    }
  }

  /** Expiry never drops a bucket that a check still needs: the current and the previous one read as what was
      really consumed in them. */
  lemma ExpiryIsHarmless(config: Config, trace: seq<Check>, n: nat, id: Identity, now: nat, key: BucketKey,
                         what: Measure)
    requires ConfigOk(config) && n <= |trace| && key.id == id
    requires key.bucket == BucketOf(config, now) || key.bucket == BucketOf(config, now) - 1
    ensures Count(ReadBucket(StoreAt(config, trace, n), key, now), what)
         == InBucket(Uses(config, trace, n), id, key.bucket, what)
  {
    StoreExact(config, trace, n, key);
    ReadIsExact(config.windowSeconds, StoreAt(config, trace, n), Uses(config, trace, n), key, now, what);
  }

  /******* Admission *******/

  /** With the previous bucket weighed by what is left of the window, one more request of `bytes` fits. */
  predicate HasRoom(uses: seq<Use>, id: Identity, window: nat, now: nat, bytes: nat, maxRequests: nat, maxBytes: nat)
    requires window > 0
  {
    var bucket, left := now / window, window - now % window;
    && InBucket(uses, id, bucket - 1, Requests) * left + (InBucket(uses, id, bucket, Requests) + 1) * window
       <= maxRequests * window
    && InBucket(uses, id, bucket - 1, Bytes) * left + (InBucket(uses, id, bucket, Bytes) + bytes) * window
       <= maxBytes * window
  }

  /** The two buckets that a check reads hold what was really consumed. */
  lemma ReadsConsumed(config: Config, trace: seq<Check>, id: Identity, now: nat, bucket: int)
    requires ConfigOk(config) && (bucket == now / config.windowSeconds || bucket == now / config.windowSeconds - 1)
    ensures var uses, n := Uses(config, trace, |trace|), |trace|;
            ReadBucket(StoreAt(config, trace, n), BucketKey(id, bucket), now)
            == Bucket(InBucket(uses, id, bucket, Requests), InBucket(uses, id, bucket, Bytes))
  {
    ExpiryIsHarmless(config, trace, |trace|, id, now, BucketKey(id, bucket), Requests);
    ExpiryIsHarmless(config, trace, |trace|, id, now, BucketKey(id, bucket), Bytes);
  }

  lemma RoomIff(config: Config, kv: Kv, uses: seq<Use>, check: Check, budget: Budget)
    requires ConfigOk(config) && budget == BudgetOf(config, check.id)
    requires ReadBucket(kv, CurrentKey(config, check), check.now)
          == Bucket(InBucket(uses, check.id, check.now / config.windowSeconds, Requests),
                    InBucket(uses, check.id, check.now / config.windowSeconds, Bytes))
    requires ReadBucket(kv, PreviousKey(config, check), check.now)
          == Bucket(InBucket(uses, check.id, check.now / config.windowSeconds - 1, Requests),
                    InBucket(uses, check.id, check.now / config.windowSeconds - 1, Bytes))
    ensures Affords(config, kv, check) <==>
            HasRoom(uses, check.id, config.windowSeconds, check.now, check.bytes, budget.maxRequests, budget.maxBytes)
  {
  }

  /** A check passes exactly if what the identity really consumed leaves room within its own limits. */
  lemma AcceptedIff(config: Config, trace: seq<Check>, check: Check)
    requires ConfigOk(config)
    ensures var uses, now := Uses(config, trace, |trace|), check.now;
            Affords(config, StoreAt(config, trace, |trace|), check) <==>
            if check.id.Ip? then HasRoom(uses, check.id, config.windowSeconds, now, check.bytes,
                                         config.ip.maxRequests, config.ip.maxBytes)
            else HasRoom(uses, check.id, config.windowSeconds, now, check.bytes, config.account.maxRequests,
                         config.account.maxBytes)
  {
    var bucket := check.now / config.windowSeconds;
    ReadsConsumed(config, trace, check.id, check.now, bucket);
    ReadsConsumed(config, trace, check.id, check.now, bucket - 1);
    RoomIff(config, StoreAt(config, trace, |trace|), Uses(config, trace, |trace|), check,
            if check.id.Ip? then config.ip else config.account);
  }

  /** Room means that the current bucket, with the request, stays within the limits. */
  lemma RoomWithinLimits(uses: seq<Use>, id: Identity, window: nat, now: nat, bytes: nat, maxRequests: nat,
                         maxBytes: nat)
    requires window > 0 && HasRoom(uses, id, window, now, bytes, maxRequests, maxBytes)
    ensures InBucket(uses, id, now / window, Requests) + 1 <= maxRequests
    ensures InBucket(uses, id, now / window, Bytes) + bytes <= maxBytes
  {
    AtMost(InBucket(uses, id, now / window - 1, Requests), window - now % window,
           InBucket(uses, id, now / window, Requests) + 1, window, maxRequests);
    AtMost(InBucket(uses, id, now / window - 1, Bytes), window - now % window,
           InBucket(uses, id, now / window, Bytes) + bytes, window, maxBytes);
  }

  lemma AtMost(previous: nat, left: nat, used: nat, window: nat, max: nat)
    requires window > 0 && previous * left + used * window <= max * window
    ensures used <= max
  {
    assert previous * left >= 0;
    assert max * window - used * window == (max - used) * window;
    Signs(max - used, window);
  }

  lemma Signs(d: int, w: nat)
    requires d * w >= 0 && w > 0
    ensures d >= 0
  {
  }

  /** The wait that a refusal names ends exactly with the window. */
  lemma WaitEndsWindow(config: Config, now: nat)
    requires ConfigOk(config)
    ensures var wait := config.windowSeconds - Elapsed(config, now);
            0 < wait <= config.windowSeconds && (now + wait) % config.windowSeconds == 0
  {
    var w := config.windowSeconds;
    assert now + (w - now % w) == (now / w + 1) * w;
    NoRemainder(now / w + 1, w);
  }

  lemma NoRemainder(k: nat, w: nat)
    requires w > 0
    ensures k * w % w == 0
  {
    Between(k * w / w - k, k * w % w, w);
  }

  lemma Between(d: int, r: int, w: nat)
    requires 0 <= r < w && d * w == -r
    ensures r == 0
  {
    if d >= 0 {
      Signs(d, w);
    } else {
      Signs(-d - 1, w);
    }
  }

  lemma {:induction false} StoreOfPrefix(config: Config, trace: seq<Check>, more: seq<Check>, n: nat)
    requires ConfigOk(config) && n <= |trace|
    ensures StoreAt(config, trace + more, n) == StoreAt(config, trace, n)
    ensures Uses(config, trace + more, n) == Uses(config, trace, n)
  {
    if n > 0 {
      StoreOfPrefix(config, trace, more, n - 1);
      assert (trace + more)[n - 1] == trace[n - 1];
    }
  }

  lemma StoreAfter(config: Config, trace: seq<Check>, check: Check)
    requires ConfigOk(config)
    ensures StoreAt(config, trace + [check], |trace| + 1) == Step(config, StoreAt(config, trace, |trace|), check)
  {
    StoreOfPrefix(config, trace, [check], |trace|);
  }

  /******* The program *******/

  class Limiter {
    const config: Config
    var kv: Kv

    /** All checks so far. */
    ghost var history: seq<Check>

    ghost predicate Valid()
      reads this
    {
      ConfigOk(config) && kv == StoreAt(config, history, |history|)
    }

    constructor (config: Config)
      requires ConfigOk(config)
      ensures Valid() && this.config == config && kv == map[] && history == []
    {
      this.config := config;
      kv := map[];
      history := [];
    }

    /** `checkAndConsumeBudget`; none when it throws. */
    method CheckAndConsumeBudget(check: Check, budget: Budget) returns (r: Option<BudgetCheck>)
      requires Valid() && budget == BudgetOf(config, check.id)
      modifies this
      ensures Valid() && history == old(history) + [check]
      ensures kv == Step(config, old(kv), check)
      ensures r == CheckResult(config, old(kv), check)
    {
      var windowSeconds := config.windowSeconds;
      var currentBucketId := check.now / windowSeconds;
      var elapsedInWindow := check.now - currentBucketId * windowSeconds;
      assert elapsedInWindow == Elapsed(config, check.now);
      StoreAfter(config, history, check);
      history := history + [check];
      var left := windowSeconds - elapsedInWindow;
      var currentKey, previousKey := BucketKey(check.id, currentBucketId), BucketKey(check.id, currentBucketId - 1);
      if check.fault.ReadFails? {
        return None;
      }
      var current, previous := ReadBucket(kv, currentKey, check.now), ReadBucket(kv, previousKey, check.now);
      if !Fits(previous.requests, left, windowSeconds, current.requests, 1, budget.maxRequests)
         || !Fits(previous.bytes, left, windowSeconds, current.bytes, check.bytes, budget.maxBytes) {
        return Some(BudgetCheck(false, windowSeconds - elapsedInWindow));
      }
      if check.fault.WriteFails? {
        return None;
      }
      kv := kv[currentKey := Stored(Bucket(current.requests + 1, current.bytes + check.bytes),
                                    check.now + config.windowSeconds * 2)];
      return Some(BudgetCheck(true, 0));
    }

    /** What the identity consumed so far leaves room for one more request within these limits. */
    ghost predicate Leaves(id: Identity, now: nat, bytes: nat, maxRequests: nat, maxBytes: nat)
      requires Valid()
      reads this
    {
      HasRoom(Uses(config, history, |history|), id, config.windowSeconds, now, bytes, maxRequests, maxBytes)
    }

    /** `authorizeUpload`: both checks are made, whatever the first one says. */
    method AuthorizeUpload(ip: string, accountId: string, requestBytes: nat, now: nat, ipFault: Fault,
                           accountFault: Fault)
      returns (r: RateLimitResult)
      requires Valid()
      modifies this
      ensures var ipCheck := Check(Ip(ip), requestBytes, now, ipFault);
              var accountCheck := Check(Account(accountId), requestBytes, now, accountFault);
              && Valid() && history == old(history) + [ipCheck] + [accountCheck]
              && kv == Step(config, Step(config, old(kv), ipCheck), accountCheck)
      ensures var byIp := old(Leaves(Ip(ip), now, requestBytes, config.ip.maxRequests, config.ip.maxBytes));
              var byAccount := old(Leaves(Account(accountId), now, requestBytes, config.account.maxRequests,
                                          config.account.maxBytes));
              && (r.Allowed? <==> byIp && byAccount && ipFault.NoFault? && accountFault.NoFault?)
              && (r.StorageUnavailable? <==> ipFault.ReadFails? || accountFault.ReadFails?
                                             || (byIp && ipFault.WriteFails?)
                                             || (byAccount && accountFault.WriteFails?))
              && (r.StorageUnavailable? ==> r.retryAfterSeconds == 60)
              && (r.RateLimited? ==> 0 < r.retryAfterSeconds <= config.windowSeconds
                                     && (now + r.retryAfterSeconds) % config.windowSeconds == 0)
      ensures var bucket, uses := now / config.windowSeconds, Uses(config, old(history), |old(history)|);
              r.Allowed? ==>
                && InBucket(uses, Ip(ip), bucket, Requests) + 1 <= config.ip.maxRequests
                && InBucket(uses, Ip(ip), bucket, Bytes) + requestBytes <= config.ip.maxBytes
                && InBucket(uses, Account(accountId), bucket, Requests) + 1 <= config.account.maxRequests
                && InBucket(uses, Account(accountId), bucket, Bytes) + requestBytes <= config.account.maxBytes
    {
      var ipCheck := Check(Ip(ip), requestBytes, now, ipFault);
      var accountCheck := Check(Account(accountId), requestBytes, now, accountFault);
      OtherIdentities(config, kv, ipCheck, accountCheck);
      AcceptedIff(config, history, ipCheck);
      AcceptedIff(config, history, accountCheck);
      WaitEndsWindow(config, now);
      ghost var uses := Uses(config, history, |history|);
      var ipResult := CheckAndConsumeBudget(ipCheck, config.ip);
      var accountResult := CheckAndConsumeBudget(accountCheck, config.account);
      if ipResult.None? || accountResult.None? {
        return StorageUnavailable(60);
      }
      if !ipResult.value.allowed || !accountResult.value.allowed {
        return RateLimited(Larger(ipResult.value.retryAfterSeconds, accountResult.value.retryAfterSeconds));
      }
      RoomWithinLimits(uses, Ip(ip), config.windowSeconds, now, requestBytes, config.ip.maxRequests,
                       config.ip.maxBytes);
      RoomWithinLimits(uses, Account(accountId), config.windowSeconds, now, requestBytes, config.account.maxRequests,
                       config.account.maxBytes);
      return Allowed;
    }
  }

  /******* The sliding window *******/

  /** At most `max * (1 + elapsed / window)`, and less than twice the budget. */
  predicate WithinShare(used: nat, elapsed: nat, window: nat, max: nat) {
    used * window <= max * (window + elapsed) && used < max + max
  }

  lemma FitsBounds(previous: nat, elapsed: nat, window: nat, current: nat, cost: nat, max: nat)
    requires elapsed < window && max > 0 && Fits(previous, window - elapsed, window, current, cost, max)
    ensures current + cost <= max
    ensures previous <= max ==> WithinShare(previous + current + cost, elapsed, window, max)
  {
    var p, x := previous, current + cost;
    assert p * (window - elapsed) == p * window - p * elapsed >= 0;
    if p <= max {
      assert (p + x) * window == p * window + x * window;
      assert max * (window + elapsed) == max * window + max * elapsed;
      assert (max - p) * elapsed >= 0;
      assert max * elapsed < max * window;
    }
  }



  /** The uses are in order, each in its window, and each fitted the budget when it was made. */
  ghost predicate Budgeted(uses: seq<Use>, w: nat, id: Identity, what: Measure, max: nat) {
    && w > 0 && max > 0
    && (forall i, j :: 0 <= i < j < |uses| ==> uses[i].check.now <= uses[j].check.now)
    && (forall k :: 0 <= k < |uses| ==> UseOk(uses, k, w, id, what, max))
  }

  predicate UseOk(uses: seq<Use>, k: nat, w: nat, id: Identity, what: Measure, max: nat)
    requires k < |uses|
  {
    var u := uses[k];
    && w > 0 && u.bucket == u.check.now / w && u.elapsed < w
    && (u.check.id == id ==>
          Fits(InBucket(uses[..k], id, u.bucket - 1, what), w - u.elapsed, w, InBucket(uses[..k], id, u.bucket, what),
               Cost(u.check, what), max))
  }

  lemma EarlierBudgeted(uses: seq<Use>, n: nat, w: nat, id: Identity, what: Measure, max: nat)
    requires Budgeted(uses, w, id, what, max) && n <= |uses|
    ensures Budgeted(uses[..n], w, id, what, max)
  {
    forall k | 0 <= k < n ensures UseOk(uses[..n], k, w, id, what, max) {
      assert UseOk(uses, k, w, id, what, max);
      assert uses[..n][..k] == uses[..k];
    }
  }

  /** No bucket ever holds more than the budget. */
  lemma {:induction false} BucketWithinMax(uses: seq<Use>, w: nat, id: Identity, bucket: int, what: Measure, max: nat)
    requires Budgeted(uses, w, id, what, max)
    ensures InBucket(uses, id, bucket, what) <= max
  {
    if uses != [] {
      var last := |uses| - 1;
      EarlierBudgeted(uses, last, w, id, what, max);
      BucketWithinMax(uses[..last], w, id, bucket, what, max);
      assert UseOk(uses, last, w, id, what, max);
      var u := uses[last];
      if u.check.id == id && u.bucket == bucket {
        FitsBounds(InBucket(uses[..last], id, bucket - 1, what), u.elapsed, w, InBucket(uses[..last], id, bucket, what),
                   Cost(u.check, what), max);
      }
    }
  }

  /** A span of one window that ends at `now` meets two buckets only. */
  lemma {:induction false} SpanInBuckets(uses: seq<Use>, w: nat, id: Identity, now: nat, what: Measure)
    requires w > 0
    requires forall k :: 0 <= k < |uses| ==> uses[k].check.now <= now && uses[k].bucket == uses[k].check.now / w
    ensures InSpan(uses, id, now - w, now, what) <=
            InBucket(uses, id, now / w - 1, what) + InBucket(uses, id, now / w, what)
  {
    if uses != [] {
      var u := uses[|uses| - 1];
      SpanInBuckets(uses[..|uses| - 1], w, id, now, what);
      if now - w < u.check.now {
        NearWindows(w, u.check.now, now);
      }
    }
  }

  /** What was consumed in the window that ends with the last use. */
  lemma LastWindow(uses: seq<Use>, w: nat, id: Identity, what: Measure, max: nat)
    requires Budgeted(uses, w, id, what, max) && uses != [] && uses[|uses| - 1].check.id == id
    ensures var u := uses[|uses| - 1]; WithinShare(InSpan(uses, id, u.check.now - w, u.check.now, what), u.elapsed, w,
                                                   max)
  {
    var last := |uses| - 1;
    var u, before := uses[last], uses[..last];
    EarlierBudgeted(uses, last, w, id, what, max);
    assert UseOk(uses, last, w, id, what, max);
    forall k | 0 <= k < |before| ensures before[k].check.now <= u.check.now
                                         && before[k].bucket == before[k].check.now / w {
      assert UseOk(uses, k, w, id, what, max);
    }
    SpanInBuckets(before, w, id, u.check.now, what);
    BucketWithinMax(before, w, id, u.bucket - 1, what, max);
    var previous, current, cost := InBucket(before, id, u.bucket - 1, what), InBucket(before, id, u.bucket, what),
                                   Cost(u.check, what);
    FitsBounds(previous, u.elapsed, w, current, cost, max);
    LessWithinShare(InSpan(uses, id, u.check.now - w, u.check.now, what), previous + current + cost, u.elapsed, w, max);
  }

  lemma LessWithinShare(less: nat, used: nat, elapsed: nat, window: nat, max: nat)
    requires less <= used && WithinShare(used, elapsed, window, max)
    ensures WithinShare(less, elapsed, window, max)
  {
    assert (used - less) * window >= 0;
  }

  lemma {:induction false} SpanGrows(uses: seq<Use>, id: Identity, from: int, to: int, start: int, what: Measure)
    requires start <= from
    ensures InSpan(uses, id, from, to, what) <= InSpan(uses, id, start, to, what)
  {
    if uses != [] {
      SpanGrows(uses[..|uses| - 1], id, from, to, start, what);
    }
  }

  lemma {:induction false} SpanCut(uses: seq<Use>, id: Identity, from: int, to: int, now: nat, what: Measure)
    requires now <= to && forall k :: 0 <= k < |uses| ==> uses[k].check.now <= now
    ensures InSpan(uses, id, from, to, what) == InSpan(uses, id, from, now, what)
  {
    if uses != [] {
      SpanCut(uses[..|uses| - 1], id, from, to, now, what);
    }
  }

  predicate InSpanAt(u: Use, id: Identity, from: int, to: int) {
    u.check.id == id && from < u.check.now <= to
  }

  /** What was consumed in any span of one window, by the offset of the last use in it. */
  lemma {:induction false} SpanBound(uses: seq<Use>, w: nat, id: Identity, from: int, what: Measure, max: nat)
    returns (last: Option<nat>)
    requires Budgeted(uses, w, id, what, max)
    ensures last.None? ==>
              && InSpan(uses, id, from, from + w, what) == 0
              && forall k :: 0 <= k < |uses| ==> !InSpanAt(uses[k], id, from, from + w)
    ensures last.Some? ==>
              && last.value < |uses| && InSpanAt(uses[last.value], id, from, from + w)
              && (forall k :: last.value < k < |uses| ==> !InSpanAt(uses[k], id, from, from + w))
              && WithinShare(InSpan(uses, id, from, from + w, what), uses[last.value].elapsed, w, max)
  {
    last := None;
    if uses != [] {
      var n := |uses| - 1;
      var u := uses[n];
      var now := u.check.now;
      if InSpanAt(u, id, from, from + w) {
        last := Some(n);
        SpanCut(uses, id, from, from + w, now, what);
        SpanGrows(uses, id, from, now, now - w, what);
        LastWindow(uses, w, id, what, max);
        LessWithinShare(InSpan(uses, id, from, from + w, what), InSpan(uses, id, now - w, now, what), u.elapsed, w,
                        max);
      } else {
        EarlierBudgeted(uses, n, w, id, what, max);
        last := SpanBound(uses[..n], w, id, from, what, max);
      }
    }
  }

  /******* The bound, for every run *******/


  /** What an accepted check found: both budgets fit what was really consumed. */
  lemma AcceptedFits(config: Config, trace: seq<Check>, n: nat, id: Identity, what: Measure)
    requires ConfigOk(config) && n < |trace| && AcceptedAt(config, trace, n)
    ensures UseOk(Uses(config, trace, n) + [UseOf(config, trace[n])], |Uses(config, trace, n)|, config.windowSeconds,
                  id, what, Max(config, id, what))
  {
    var check, uses := trace[n], Uses(config, trace, n);
    ExpiryIsHarmless(config, trace, n, check.id, check.now, CurrentKey(config, check), what);
    ExpiryIsHarmless(config, trace, n, check.id, check.now, PreviousKey(config, check), what);
    assert (uses + [UseOf(config, check)])[..|uses|] == uses;
  }

  predicate Sequential(trace: seq<Check>) {
    forall i, j :: 0 <= i < j < |trace| ==> trace[i].now <= trace[j].now
  }

  lemma AddUse(uses: seq<Use>, u: Use, w: nat, id: Identity, what: Measure, max: nat)
    requires Budgeted(uses, w, id, what, max) && UseOk(uses + [u], |uses|, w, id, what, max)
    requires forall k :: 0 <= k < |uses| ==> uses[k].check.now <= u.check.now
    ensures Budgeted(uses + [u], w, id, what, max)
  {
    forall k | 0 <= k < |uses| ensures UseOk(uses + [u], k, w, id, what, max) {
      assert UseOk(uses, k, w, id, what, max);
      assert (uses + [u])[..k] == uses[..k];
    }
  }

  lemma {:induction false} UsesBudgeted(config: Config, trace: seq<Check>, n: nat, id: Identity, what: Measure)
    requires ConfigOk(config) && Sequential(trace) && n <= |trace|
    ensures Budgeted(Uses(config, trace, n), config.windowSeconds, id, what, Max(config, id, what))
    ensures forall k :: 0 <= k < |Uses(config, trace, n)| ==>
                          n > 0 && Uses(config, trace, n)[k].check.now <= trace[n - 1].now
  {
    if n > 0 {
      UsesBudgeted(config, trace, n - 1, id, what);
      if AcceptedAt(config, trace, n - 1) {
        AcceptedFits(config, trace, n - 1, id, what);
        AddUse(Uses(config, trace, n - 1), UseOf(config, trace[n - 1]), config.windowSeconds, id, what,
               Max(config, id, what));
      }
    }
  }

  /** In the window that ends with an accepted check, `e` seconds into its bucket, the identity consumed at most
      `max * (1 + e / W)`, which is less than twice the budget. */
  lemma {:induction false} WindowBound(config: Config, trace: seq<Check>, n: nat, what: Measure)
    requires ConfigOk(config) && Sequential(trace) && n < |trace| && AcceptedAt(config, trace, n)
    ensures var check := trace[n];
            var used := InSpan(Uses(config, trace, n + 1), check.id, check.now - config.windowSeconds, check.now, what);
            var max := if check.id.Ip? then (if what.Requests? then config.ip.maxRequests else config.ip.maxBytes)
                       else (if what.Requests? then config.account.maxRequests else config.account.maxBytes);
            WithinShare(used, Elapsed(config, check.now), config.windowSeconds, max)
  {
    UsesBudgeted(config, trace, n + 1, trace[n].id, what);
    LastWindow(Uses(config, trace, n + 1), config.windowSeconds, trace[n].id, what, Max(config, trace[n].id, what));
  }

  /** An accepted check of the identity at a time in the span. */
  predicate AcceptedIn(config: Config, trace: seq<Check>, k: nat, id: Identity, from: int, to: int)
    requires ConfigOk(config) && k < |trace|
  {
    AcceptedAt(config, trace, k) && trace[k].id == id && from < trace[k].now <= to
  }

  /** `last` is the last accepted check of the identity in the span among the first `n`, if there is one. */
  ghost predicate IsLastIn(config: Config, trace: seq<Check>, n: nat, id: Identity, from: int, last: Option<nat>)
    requires ConfigOk(config) && n <= |trace|
  {
    var to := from + config.windowSeconds;
    match last
    case None => forall k :: 0 <= k < n ==> !AcceptedIn(config, trace, k, id, from, to)
    case Some(i) => i < n && AcceptedIn(config, trace, i, id, from, to)
                    && forall k :: i < k < n ==> !AcceptedIn(config, trace, k, id, from, to)
  }

  lemma {:induction false} SpanByLast(config: Config, trace: seq<Check>, n: nat, id: Identity, from: int,
                                      what: Measure)
    returns (last: Option<nat>)
    requires ConfigOk(config) && Sequential(trace) && n <= |trace|
    ensures IsLastIn(config, trace, n, id, from, last)
    ensures var used := InSpan(Uses(config, trace, n), id, from, from + config.windowSeconds, what);
            if last.None? then used == 0
            else WithinShare(used, Elapsed(config, trace[last.value].now), config.windowSeconds, Max(config, id, what))
  {
    last := None;
    if n > 0 {
      if AcceptedIn(config, trace, n - 1, id, from, from + config.windowSeconds) {
        last := Some(n - 1);
        SpanOfLast(config, trace, n - 1, id, from, what);
      } else {
        last := SpanByLast(config, trace, n - 1, id, from, what);
        SpanUnchanged(config, trace, n - 1, id, from, from + config.windowSeconds, what);
      }
    }
  }

  /** In every span of one window the identity consumes nothing, or at most `max * (1 + e / W)` with `e` the offset
      of its last accepted check in the span and `max` its own limit; that is less than twice its budget. */
  lemma {:induction false} AnySpanBound(config: Config, trace: seq<Check>, n: nat, id: Identity, from: int,
                                        what: Measure)
    returns (last: Option<nat>)
    requires ConfigOk(config) && Sequential(trace) && n <= |trace|
    ensures IsLastIn(config, trace, n, id, from, last)
    ensures var used := InSpan(Uses(config, trace, n), id, from, from + config.windowSeconds, what);
            var max := if id.Ip? then (if what.Requests? then config.ip.maxRequests else config.ip.maxBytes)
                       else (if what.Requests? then config.account.maxRequests else config.account.maxBytes);
            if last.None? then used == 0
            else WithinShare(used, Elapsed(config, trace[last.value].now), config.windowSeconds, max)
  {
    last := SpanByLast(config, trace, n, id, from, what);
  }

  lemma SpanOfLast(config: Config, trace: seq<Check>, n: nat, id: Identity, from: int, what: Measure)
    requires ConfigOk(config) && Sequential(trace) && n < |trace|
    requires AcceptedIn(config, trace, n, id, from, from + config.windowSeconds)
    ensures var used := InSpan(Uses(config, trace, n + 1), id, from, from + config.windowSeconds, what);
            WithinShare(used, Elapsed(config, trace[n].now), config.windowSeconds, Max(config, id, what))
  {
    var before, u := Uses(config, trace, n), UseOf(config, trace[n]);
    assert Uses(config, trace, n + 1) == before + [u];
    UsesBudgeted(config, trace, n + 1, id, what);
    SpanOfLastUse(before, u, config.windowSeconds, id, from, what, Max(config, id, what));
  }

  lemma SpanOfLastUse(before: seq<Use>, u: Use, w: nat, id: Identity, from: int, what: Measure, max: nat)
    requires Budgeted(before + [u], w, id, what, max) && InSpanAt(u, id, from, from + w)
    ensures WithinShare(InSpan(before + [u], id, from, from + w, what), u.elapsed, w, max)
  {
    var last := SpanBound(before + [u], w, id, from, what, max);
    assert (before + [u])[|before|] == u;
  }

  lemma SpanUnchanged(config: Config, trace: seq<Check>, n: nat, id: Identity, from: int, to: int, what: Measure)
    requires ConfigOk(config) && n < |trace| && !AcceptedIn(config, trace, n, id, from, to)
    ensures InSpan(Uses(config, trace, n + 1), id, from, to, what) == InSpan(Uses(config, trace, n), id, from, to, what)
  {
    LastUse(Uses(config, trace, n), UseOf(config, trace[n]), id, 0, from, to, what);
  }

  lemma ThreeAccepted(id: Identity, config: Config)
    requires config == Config(10, Budget(2, 2), Budget(5, 5)) && id.Ip?
    ensures var a, b := Check(id, 0, 9, NoFault), Check(id, 0, 15, NoFault);
            var kv1 := Step(config, map[], a);
            var kv2 := Step(config, kv1, a);
            Accepts(config, map[], a) && Accepts(config, kv1, a) && Accepts(config, kv2, b)
  {
    var a, b, key := Check(id, 0, 9, NoFault), Check(id, 0, 15, NoFault), BucketKey(id, 0);
    assert CurrentKey(config, a) == key && PreviousKey(config, b) == key;
    assert Accepts(config, map[], a);
    var kv1 := Step(config, map[], a);
    assert kv1 == map[key := Stored(Bucket(1, 0), 29)];
    assert Accepts(config, kv1, a);
    var kv2 := Step(config, kv1, a);
    assert kv2 == kv1[key := Stored(Bucket(2, 0), 29)];
  }

  lemma Unrolled(config: Config, trace: seq<Check>)
    requires ConfigOk(config) && |trace| == 3
    ensures var kv1 := Step(config, map[], trace[0]);
            var kv2 := Step(config, kv1, trace[1]);
            Accepts(config, map[], trace[0]) && Accepts(config, kv1, trace[1]) && Accepts(config, kv2, trace[2]) ==>
              Uses(config, trace, 3) == [UseOf(config, trace[0]), UseOf(config, trace[1]), UseOf(config, trace[2])]
  {
    assert StoreAt(config, trace, 1) == Step(config, StoreAt(config, trace, 0), trace[0]);
    assert StoreAt(config, trace, 2) == Step(config, StoreAt(config, trace, 1), trace[1]);
    if AcceptedAt(config, trace, 0) && AcceptedAt(config, trace, 1) && AcceptedAt(config, trace, 2) {
      assert Uses(config, trace, 1) == Uses(config, trace, 0) + [UseOf(config, trace[0])];
      assert Uses(config, trace, 2) == Uses(config, trace, 1) + [UseOf(config, trace[1])];
      assert Uses(config, trace, 3) == Uses(config, trace, 2) + [UseOf(config, trace[2])];
    }
  }

  /** The bound is reached, and the budget alone is not one: two requests at the end of one window leave room
      for a third in the middle of the next. */
  lemma BoundIsReached(id: Identity)
    requires id.Ip?
    ensures var config := Config(10, Budget(2, 2), Budget(5, 5));
            var trace := [Check(id, 0, 9, NoFault), Check(id, 0, 9, NoFault), Check(id, 0, 15, NoFault)];
            InSpan(Uses(config, trace, 3), id, 5, 15, Requests) == 3 && 3 * 10 == 2 * (10 + Elapsed(config, 15))
  {
    var config := Config(10, Budget(2, 2), Budget(5, 5));
    var a, b := Check(id, 0, 9, NoFault), Check(id, 0, 15, NoFault);
    ThreeAccepted(id, config);
    Unrolled(config, [a, a, b]);
    var u, v := UseOf(config, a), UseOf(config, b);
    LastUse([], u, id, 0, 5, 15, Requests);
    LastUse([u], u, id, 0, 5, 15, Requests);
    LastUse([u, u], v, id, 0, 5, 15, Requests);
    assert [] + [u] == [u] && [u] + [u] == [u, u] && [u, u] + [v] == [u, u, v];
  }
}
