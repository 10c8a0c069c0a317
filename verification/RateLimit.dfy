/** The token bucket, the per-principal limiter in front of the broker, and what they admit. */
module RateLimit {
  import opened Wrappers

  /**
   * `credit(t)` is what the refill has earned up to time `t`; between two times a bucket gains
   * the difference. For a constant rate it is `Credit(rate)`.
   */
  datatype Bucket = Bucket(credit: real -> real, capacity: real, tokens: real, last: real)

  function Credit(rate: real): real -> real {
    t => rate * t
  }

  function New(rate: real, capacity: Option<real>, now: real): Bucket {
    var c := if capacity.Some? then capacity.value else rate;
    Bucket(Credit(rate), c, c, now)
  }

  function Refilled(b: Bucket, now: real): real {
    Min(b.capacity, b.tokens + b.credit(now) - b.credit(b.last))
  }

  predicate Admits(b: Bucket, now: real, cost: real) {
    Refilled(b, now) >= cost
  }

  function Consumed(b: Bucket, now: real, cost: real): Bucket {
    b.(tokens := Refilled(b, now) - (if Admits(b, now, cost) then cost else 0.0), last := now)
  }

  lemma CreditIsLinear(rate: real, t: real, u: real)
    ensures Credit(rate)(u) - Credit(rate)(t) == (u - t) * rate == rate * (u - t)
  {
  }

  class TokenBucket {
    const rate: real
    const capacity: real
    var tokens: real
    var lastRefill: real

    constructor (rate: real, capacity: Option<real>, now: real)
      ensures View() == New(rate, capacity, now)
      ensures tokens == this.capacity == (if capacity.Some? then capacity.value else rate) && lastRefill == now
    {
      this.rate := rate;
      this.capacity := if capacity.Some? then capacity.value else rate;
      this.tokens := if capacity.Some? then capacity.value else rate;
      this.lastRefill := now;
    }

    function View(): Bucket
      reads this
    {
      Bucket(Credit(rate), capacity, tokens, lastRefill)
    }

    method Consume(now: real, cost: real) returns (admitted: bool)
      modifies this
      ensures admitted == Admits(old(View()), now, cost)
      ensures View() == Consumed(old(View()), now, cost)
    {
      var elapsed := now - lastRefill;
      CreditIsLinear(rate, lastRefill, now);
      tokens := Min(capacity, tokens + elapsed * rate);
      lastRefill := now;
      if tokens >= cost {
        tokens := tokens - cost;
        return true;
      }
      return false;
    }
  }

  // ---- the sliding-window rule ------------------------------------------------

  /** One call of `consume` and its answer. */
  datatype Call = Call(at: real, cost: real, admitted: bool)

  function After(b: Bucket, log: seq<Call>): Bucket {
    if log == [] then b
    else
      var n := |log| - 1;
      Consumed(After(b, log[..n]), log[n].at, log[n].cost)
  }

  /** `log` is what happens when its calls are made, in order, to a bucket in state `b`. */
  ghost predicate History(b: Bucket, log: seq<Call>)
    decreases |log|
  {
    if log == [] then true
    else
      var n := |log| - 1;
      History(b, log[..n]) && (log[n].admitted <==> Admits(After(b, log[..n]), log[n].at, log[n].cost))
  }

  ghost predicate InOrder(start: real, log: seq<Call>) {
    && (forall i :: 0 <= i < |log| ==> start <= log[i].at)
    && (forall i, j :: 0 <= i <= j < |log| ==> log[i].at <= log[j].at)
  }

  function Charge(c: Call): real {
    if c.admitted then c.cost else 0.0
  }

  /** The cost admitted by calls `j`, ..., `n - 1`. */
  function Spent(log: seq<Call>, j: nat, n: nat): real
    requires j <= n <= |log|
    decreases n
  {
    if n == j then 0.0 else Spent(log, j, n - 1) + Charge(log[n - 1])
  }

  /** With `x` more, call `n` stays within capacity plus refill since the creation and since every call up to itself. */
  ghost predicate Fits(b: Bucket, log: seq<Call>, n: nat, x: real)
    requires n < |log|
  {
    && Spent(log, 0, n) + x <= b.capacity + b.credit(log[n].at) - b.credit(b.last)
    && forall j :: 0 <= j <= n ==> Spent(log, j, n) + x <= b.capacity + b.credit(log[n].at) - b.credit(log[j].at)
  }

  lemma {:induction false} SameParameters(b: Bucket, log: seq<Call>)
    ensures After(b, log).credit == b.credit && After(b, log).capacity == b.capacity
  {
    if log != [] { SameParameters(b, log[..|log| - 1]); }
  }

  lemma {:induction false} HistoryPrefix(b: Bucket, log: seq<Call>, n: nat)
    requires History(b, log) && n < |log|
    ensures History(b, log[..n])
    ensures log[n].admitted <==> Admits(After(b, log[..n]), log[n].at, log[n].cost)
    decreases |log|
  {
    if n < |log| - 1 {
      HistoryPrefix(b, log[..|log| - 1], n);
      assert log[..|log| - 1][..n] == log[..n];
    }
  }

  /** The tokens on hand at call `n` are the tightest of all window bounds. */
  lemma {:induction false} TokensAreTightest(b: Bucket, log: seq<Call>, n: nat, x: real)
    requires b.tokens == b.capacity && History(b, log) && n < |log|
    ensures x <= Refilled(After(b, log[..n]), log[n].at) <==> Fits(b, log, n, x)
    decreases n
  {
    assert Spent(log, n, n) == 0.0;
    if n > 0 {
      var p := n - 1;
      var y := x + Charge(log[p]) - (b.credit(log[n].at) - b.credit(log[p].at));
      TokensAreTightest(b, log, p, y);
      HistoryPrefix(b, log, p);
      SameParameters(b, log[..p]);
      assert log[..n][..p] == log[..p];
      forall j | 0 <= j <= p
        ensures Spent(log, j, n) + x <= b.capacity + b.credit(log[n].at) - b.credit(log[j].at)
           <==> Spent(log, j, p) + y <= b.capacity + b.credit(log[p].at) - b.credit(log[j].at)
      {
      }
    }
  }

  /** A bucket that starts full is exactly the sliding-window rule, whatever the times and costs. */
  lemma SlidingWindow(b: Bucket, log: seq<Call>, n: nat)
    requires b.tokens == b.capacity && History(b, log) && n < |log|
    ensures log[n].admitted <==> Fits(b, log, n, log[n].cost)
  {
    HistoryPrefix(b, log, n);
    TokensAreTightest(b, log, n, log[n].cost);
  }

  /** The last admitted call of a window carries all that is spent in it. */
  lemma {:induction false} LastAdmitted(log: seq<Call>, i: nat, k: nat) returns (m: nat)
    requires i <= k < |log|
    ensures i <= m <= k
    ensures log[m].admitted ==> Spent(log, i, k + 1) == Spent(log, i, m) + log[m].cost
    ensures !log[m].admitted ==> Spent(log, i, k + 1) == 0.0
    decreases k
  {
    m := k;
    if !log[k].admitted {
      if i < k {
        m := LastAdmitted(log, i, k - 1);
        assert Spent(log, i, k + 1) == Spent(log, i, k);
      } else {
        assert Spent(log, i, i) == 0.0;
      }
    }
  }

  /** Refill never takes away; for a constant rate of at least zero, see `CreditGrows`. */
  ghost predicate Growing(credit: real -> real) {
    forall t, u :: t <= u ==> credit(t) <= credit(u)
  }

  /** In any window, from call `i` to call `k`, at most the capacity plus the refill is admitted. */
  lemma WindowBound(b: Bucket, log: seq<Call>, i: nat, k: nat)
    requires b.tokens == b.capacity && b.capacity >= 0.0 && i <= k < |log| && Growing(b.credit)
    requires History(b, log) && InOrder(b.last, log)
    ensures Spent(log, i, k + 1) <= b.capacity + b.credit(log[k].at) - b.credit(log[i].at)
  {
    var m := LastAdmitted(log, i, k);
    SlidingWindow(b, log, m);
    assert b.credit(log[i].at) <= b.credit(log[k].at) && b.credit(log[m].at) <= b.credit(log[k].at);
  }

  lemma CreditGrows(rate: real)
    requires rate >= 0.0
    ensures Growing(Credit(rate))
  {
    forall t, u | t <= u ensures Credit(rate)(t) <= Credit(rate)(u) {
      CreditIsLinear(rate, t, u);
      NonNegative(rate, u - t);
    }
  }

  lemma NonNegative(x: real, y: real)
    requires x >= 0.0 && y >= 0.0
    ensures x * y >= 0.0
  {
  }

  // ---- one bucket per principal --------------------------------------------------

  type Buckets = map<string, Bucket>

  /** The bucket a check of `who` uses: its own, or a full one made on the spot. */
  function BucketFor(rate: real, bs: Buckets, who: string, now: real): Bucket {
    if who in bs then bs[who] else New(rate, None, now)
  }

  function Checked(rate: real, bs: Buckets, who: string, now: real): Buckets {
    bs[who := Consumed(BucketFor(rate, bs, who, now), now, 1.0)]
  }

  class RateLimiter {
    const rate: real
    var buckets: map<string, TokenBucket>

    constructor (rate: real)
      ensures Valid() && View() == map[] && this.rate == rate
    {
      this.rate := rate;
      buckets := map[];
    }

    ghost predicate Valid()
      reads this
    {
      forall p, q :: p in buckets && q in buckets && p != q ==> buckets[p] != buckets[q]
    }

    ghost function View(): Buckets
      reads this, buckets.Values
    {
      map p | p in buckets :: buckets[p].View()
    }

    /** The principal's bucket, made on first use. */
    method BucketOf(who: string, now: real) returns (bucket: TokenBucket)
      requires Valid()
      modifies this
      ensures Valid() && who in buckets && bucket == buckets[who]
      ensures forall p <- buckets :: (p in old(buckets) && buckets[p] == old(buckets)[p]) || (p == who && fresh(bucket))
      ensures View() == old(View())[who := BucketFor(rate, old(View()), who, now)]
    {
      if who !in buckets {
        bucket := new TokenBucket(rate, None, now);
        buckets := buckets[who := bucket];
      }
      bucket := buckets[who];
    }

    /** A rate of zero or less switches the limiter off. */
    method Check(who: string, now: real) returns (allowed: bool)
      requires Valid()
      modifies this, buckets.Values
      ensures Valid()
      ensures allowed == (rate <= 0.0 || Admits(BucketFor(rate, old(View()), who, now), now, 1.0))
      ensures View() == if rate <= 0.0 then old(View()) else Checked(rate, old(View()), who, now)
    {
      if rate <= 0.0 { return true; }
      var bucket := BucketOf(who, now);
      ghost var mid := View();
      allowed := bucket.Consume(now, 1.0);
      forall p <- buckets ensures View()[p] == if p == who then Consumed(mid[who], now, 1.0) else mid[p] {
      }
    }
  }

  datatype Hit = Hit(who: string, at: real)

  function Limited(rate: real, hits: seq<Hit>): Buckets {
    if hits == [] then map[]
    else
      var n := |hits| - 1;
      Checked(rate, Limited(rate, hits[..n]), hits[n].who, hits[n].at)
  }

  /** The calls that one principal's requests make to a bucket created at `start`. */
  function Own(rate: real, start: real, hits: seq<Hit>, who: string): seq<Call> {
    if hits == [] then []
    else
      var n := |hits| - 1;
      var mine := Own(rate, start, hits[..n], who);
      if hits[n].who != who then mine
      else mine + [Call(hits[n].at, 1.0, Admits(After(New(rate, None, start), mine), hits[n].at, 1.0))]
  }

  ghost predicate HitsInOrder(start: real, hits: seq<Hit>) {
    && (forall i :: 0 <= i < |hits| ==> start <= hits[i].at)
    && (forall i, j :: 0 <= i <= j < |hits| ==> hits[i].at <= hits[j].at)
  }

  /** A bucket made at its first check does what one made earlier would have done. */
  lemma FirstCheck(rate: real, start: real, now: real)
    requires rate > 0.0 && start <= now
    ensures Refilled(New(rate, None, start), now) == rate
    ensures Consumed(New(rate, None, start), now, 1.0) == Consumed(New(rate, None, now), now, 1.0)
  {
    CreditIsLinear(rate, start, now);
    NonNegative(rate, now - start);
  }

  lemma {:induction false} OwnBucket(rate: real, start: real, hits: seq<Hit>, who: string)
    requires rate > 0.0 && HitsInOrder(start, hits)
    ensures var mine := Own(rate, start, hits, who);
            if mine == [] then who !in Limited(rate, hits)
            else who in Limited(rate, hits) && Limited(rate, hits)[who] == After(New(rate, None, start), mine)
    decreases |hits|
  {
    if hits != [] {
      var n := |hits| - 1;
      OwnBucket(rate, start, hits[..n], who);
      var mine := Own(rate, start, hits[..n], who);
      if hits[n].who == who {
        var all := Own(rate, start, hits, who);
        assert all[..|mine|] == mine;
        FirstCheck(rate, start, hits[n].at);
        assert After(New(rate, None, start), all) == Consumed(After(New(rate, None, start), mine), hits[n].at, 1.0);
      }
    }
  }

  /**
   * Isolation: however the principals' requests interleave, a request of `who` is judged as by a
   * bucket of its own that was created at the start and saw only its own requests.
   */
  lemma LimiterIsolates(rate: real, start: real, hits: seq<Hit>, h: Hit)
    requires rate > 0.0 && HitsInOrder(start, hits) && start <= h.at
    ensures Admits(BucketFor(rate, Limited(rate, hits), h.who, h.at), h.at, 1.0)
       <==> Admits(After(New(rate, None, start), Own(rate, start, hits, h.who)), h.at, 1.0)
  {
    OwnBucket(rate, start, hits, h.who);
    FirstCheck(rate, start, h.at);
    FirstCheck(rate, h.at, h.at);
  }

  /** When `who` asked. */
  function AskedAt(hits: seq<Hit>, who: string): seq<real> {
    if hits == [] then []
    else
      var n := |hits| - 1;
      AskedAt(hits[..n], who) + if hits[n].who == who then [hits[n].at] else []
  }

  function TimesOf(log: seq<Call>): seq<real> {
    seq(|log|, i requires 0 <= i < |log| => log[i].at)
  }

  lemma OwnGrows(rate: real, start: real, hits: seq<Hit>, who: string)
    requires hits != []
    ensures var n := |hits| - 1; var mine, all := Own(rate, start, hits[..n], who), Own(rate, start, hits, who);
            if hits[n].who != who then all == mine
            else |all| == |mine| + 1 && all[..|mine|] == mine && all[|mine|].at == hits[n].at && all[|mine|].cost == 1.0
                 && all[|mine|].admitted == Admits(After(New(rate, None, start), mine), hits[n].at, 1.0)
  {
  }

  /** A principal's own calls are judged as a bucket judges them. */
  lemma {:induction false} OwnHistory(rate: real, start: real, hits: seq<Hit>, who: string)
    ensures History(New(rate, None, start), Own(rate, start, hits, who))
    decreases |hits|
  {
    if hits != [] {
      OwnHistory(rate, start, hits[..|hits| - 1], who);
      OwnGrows(rate, start, hits, who);
    }
  }

  /** They are one per request, at its time and for one token. */
  lemma {:induction false} OwnCalls(rate: real, start: real, hits: seq<Hit>, who: string)
    ensures var mine := Own(rate, start, hits, who);
            TimesOf(mine) == AskedAt(hits, who) && forall i :: 0 <= i < |mine| ==> mine[i].cost == 1.0
    decreases |hits|
  {
    if hits != [] {
      var n := |hits| - 1;
      var mine, all := Own(rate, start, hits[..n], who), Own(rate, start, hits, who);
      OwnCalls(rate, start, hits[..n], who);
      OwnGrows(rate, start, hits, who);
      forall i | 0 <= i < |mine| && hits[n].who == who ensures all[i] == mine[i] { assert all[i] == all[..|mine|][i]; }
    }
  }

  ghost predicate Ascending(times: seq<real>, start: real, end: real) {
    && (forall i :: 0 <= i < |times| ==> start <= times[i] <= end)
    && forall i, j :: 0 <= i <= j < |times| ==> times[i] <= times[j]
  }

  lemma {:induction false} AskedInOrder(start: real, end: real, hits: seq<Hit>, who: string)
    requires HitsInOrder(start, hits) && forall i :: 0 <= i < |hits| ==> hits[i].at <= end
    ensures Ascending(AskedAt(hits, who), start, end)
    decreases |hits|
  {
    if hits != [] {
      var n := |hits| - 1;
      AskedInOrder(start, hits[n].at, hits[..n], who);
      var before := AskedAt(hits[..n], who);
      assert Ascending(before, start, hits[n].at) && start <= hits[n].at <= end;
      assert Ascending(before + [hits[n].at], start, end);
      assert before + [] == before;
    }
  }

  lemma OwnInOrder(rate: real, start: real, hits: seq<Hit>, who: string)
    requires HitsInOrder(start, hits)
    ensures InOrder(start, Own(rate, start, hits, who))
  {
    var mine := Own(rate, start, hits, who);
    OwnCalls(rate, start, hits, who);
    if hits != [] { AskedInOrder(start, hits[|hits| - 1].at, hits, who); }
    forall i | 0 <= i < |mine| ensures mine[i].at == AskedAt(hits, who)[i] { assert TimesOf(mine)[i] == mine[i].at; }
  }

  /** A limiter admits, of one principal's requests in any window, at most the rate plus what the window refills. */
  lemma LimiterWindow(rate: real, start: real, hits: seq<Hit>, who: string, i: nat, k: nat)
    requires rate > 0.0 && HitsInOrder(start, hits) && i <= k < |Own(rate, start, hits, who)|
    ensures var mine := Own(rate, start, hits, who);
            Spent(mine, i, k + 1) <= rate + Credit(rate)(mine[k].at) - Credit(rate)(mine[i].at)
  {
    var b, mine := New(rate, None, start), Own(rate, start, hits, who);
    OwnHistory(rate, start, hits, who);
    OwnInOrder(rate, start, hits, who);
    CreditGrows(rate);
    WindowBound(b, mine, i, k);
  }

  // ---- the advertised retry --------------------------------------------------------

  lemma {:induction false} TokensInRange(b: Bucket, log: seq<Call>)
    requires 0.0 <= b.tokens <= b.capacity && Growing(b.credit) && InOrder(b.last, log)
    requires forall c <- log :: c.cost >= 0.0
    ensures var b' := After(b, log);
            0.0 <= b'.tokens <= b'.capacity && b'.last == if log == [] then b.last else log[|log| - 1].at
    decreases |log|
  {
    if log != [] {
      var n := |log| - 1;
      TokensInRange(b, log[..n]);
      SameParameters(b, log[..n]);
    }
  }

  /**
   * The advertised `Retry-After: 1` is right exactly when the rate is at least one: a caller that
   * waits a second after its last request is then admitted, and otherwise never is.
   */
  lemma RetryAfterOneSecond(rate: real, start: real, log: seq<Call>, now: real)
    requires rate > 0.0 && InOrder(start, log) && forall c <- log :: c.cost == 1.0
    requires now >= (if log == [] then start else log[|log| - 1].at + 1.0)
    ensures Admits(After(New(rate, None, start), log), now, 1.0) <==> rate >= 1.0
  {
    var b := After(New(rate, None, start), log);
    CreditGrows(rate);
    TokensInRange(New(rate, None, start), log);
    SameParameters(New(rate, None, start), log);
    if log != [] { OneSecondEarns(rate, b.last, now); }
    JudgedByRate(b, rate, now);
  }

  lemma OneSecondEarns(rate: real, t: real, u: real)
    requires rate >= 0.0 && u >= t + 1.0
    ensures Credit(rate)(u) - Credit(rate)(t) >= rate
  {
    CreditIsLinear(rate, t, u);
    CreditIsLinear(rate, t, t + 1.0);
    CreditGrows(rate);
  }

  lemma JudgedByRate(b: Bucket, rate: real, now: real)
    requires 0.0 <= b.tokens && b.capacity == rate
    requires b.tokens + b.credit(now) - b.credit(b.last) >= rate
    ensures Admits(b, now, 1.0) <==> rate >= 1.0
  {
  }

  /** A rate between zero and one refuses every request of every history. */
  lemma SlowRateBlocksAll(rate: real, start: real, log: seq<Call>, i: nat)
    requires 0.0 < rate < 1.0 && History(New(rate, None, start), log) && i < |log| && log[i].cost == 1.0
    ensures !log[i].admitted
  {
    HistoryPrefix(New(rate, None, start), log, i);
    SameParameters(New(rate, None, start), log[..i]);
  }
}
