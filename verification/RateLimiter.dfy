/**
 The purchase limiter: one script on two token buckets, the user's and the program's. Token counts
 are exact reals. A bucket's key is taken to be gone as soon as 60,000 ms have passed since its last
 use.
 */
module RateLimiter {
  import opened Runs

  const EXPIRY_MS := 60_000

  datatype Limit = Limit(rate: nat, burst: nat)

  datatype Bucket = Bucket(tokens: real, lastMs: int)

  /** What the rate adds in some milliseconds. */
  function Accrued(rate: nat, ms: int): real {
    (rate * ms) as real / 1000.0
  }

  /** The most that a bucket should admit at times from `lo` to `hi`. */
  function Allowance(l: Limit, lo: int, hi: int): real {
    l.burst as real + Accrued(l.rate, hi - lo)
  }

  function Min(a: real, b: real): real {
    if a <= b then a else b
  }

  /** A missing or expired bucket is full. */
  function Refill(l: Limit, b: Option<Bucket>, now: int): real {
    if b.None? || now >= b.value.lastMs + EXPIRY_MS then l.burst as real
    else Min(l.burst as real, b.value.tokens + Accrued(l.rate, if now > b.value.lastMs then now - b.value.lastMs else 0))
  }

  // ----- One bucket on its own: a call also depends on whether the other bucket agrees -----

  datatype Call = Call(now: int, other: bool)

  predicate Admits(l: Limit, b: Option<Bucket>, c: Call) {
    Refill(l, b, c.now) >= 1.0 && c.other
  }

  function Used(l: Limit, b: Option<Bucket>, c: Call): Bucket {
    Bucket(Refill(l, b, c.now) - (if Admits(l, b, c) then 1.0 else 0.0), c.now)
  }

  /** How many calls are admitted at times from `lo` to `hi`. */
  function AdmittedIn(l: Limit, b: Option<Bucket>, calls: seq<Call>, lo: int, hi: int): nat
    decreases calls
  {
    if calls == [] then 0
    else
      var c := calls[0];
      (if lo <= c.now <= hi && Admits(l, b, c) then 1 else 0) + AdmittedIn(l, Some(Used(l, b, c)), calls[1..], lo, hi)
  }

  predicate Monotone(start: int, calls: seq<Call>) {
    && (|calls| > 0 ==> start <= calls[0].now)
    && (forall i :: 0 <= i < |calls| - 1 ==> calls[i].now <= calls[i + 1].now)
  }

  predicate Sound(l: Limit, b: Option<Bucket>) {
    b.Some? ==> 0.0 <= b.value.tokens <= l.burst as real
  }

  function Since(b: Option<Bucket>, otherwise: int): int {
    if b.Some? then b.value.lastMs else otherwise
  }

  lemma AccruedAdds(rate: nat, a: int, b: int)
    ensures Accrued(rate, a) + Accrued(rate, b) == Accrued(rate, a + b)
    ensures a >= 0 ==> Accrued(rate, a) >= 0.0
  {
    assert rate * a + rate * b == rate * (a + b);
    assert a >= 0 ==> rate * a >= 0;
  }

  /** A minute refills the whole bucket. */
  predicate FillsInAMinute(l: Limit) {
    l.burst <= 60 * l.rate
  }

  lemma MinuteFills(l: Limit, ms: int)
    requires FillsInAMinute(l) && ms >= EXPIRY_MS
    ensures Accrued(l.rate, ms) >= l.burst as real
  {
    assert l.rate * ms >= l.rate * 60_000;
  }

  /** Expiry included, a bucket never holds more than what it had and what the rate added. */
  lemma RefillAtMost(l: Limit, b: Bucket, now: int)
    requires FillsInAMinute(l) && Sound(l, Some(b)) && b.lastMs <= now
    ensures 0.0 <= Refill(l, Some(b), now) <= l.burst as real
    ensures Refill(l, Some(b), now) == Min(l.burst as real, b.tokens + Accrued(l.rate, now - b.lastMs))
  {
    AccruedAdds(l.rate, now - b.lastMs, 0);
    if now >= b.lastMs + EXPIRY_MS {
      MinuteFills(l, now - b.lastMs);
    } else if now == b.lastMs {
      assert Accrued(l.rate, 0) == 0.0;
    }
  }

  lemma UsedIsSound(l: Limit, b: Option<Bucket>, c: Call)
    requires FillsInAMinute(l) && Sound(l, b) && Since(b, c.now) <= c.now
    ensures Sound(l, Some(Used(l, b, c))) && 0.0 <= Refill(l, b, c.now) <= l.burst as real
  {
    if b.Some? {
      RefillAtMost(l, b.value, c.now);
    }
  }

  /** From the first call inside the interval on: what is there plus what will be added. */
  lemma {:induction false} AdmittedAtMost(l: Limit, b: Option<Bucket>, calls: seq<Call>, lo: int, hi: int)
    requires FillsInAMinute(l) && Sound(l, b) && calls != [] && Monotone(Since(b, calls[0].now), calls)
    requires lo <= calls[0].now
    ensures AdmittedIn(l, b, calls, lo, hi) as real <=
            if calls[0].now <= hi then Refill(l, b, calls[0].now) + Accrued(l.rate, hi - calls[0].now) else 0.0
    decreases calls
  {
    var c, rest := calls[0], calls[1..];
    var b' := Used(l, b, c);
    UsedIsSound(l, b, c);
    AccruedAdds(l.rate, hi - c.now, 0);
    if rest != [] {
      assert c.now <= calls[1].now;
      assert forall i :: 0 <= i < |rest| ==> rest[i] == calls[i + 1];
      AdmittedAtMost(l, Some(b'), rest, lo, hi);
      if rest[0].now <= hi {
        RefillAtMost(l, b', rest[0].now);
        AccruedAdds(l.rate, rest[0].now - c.now, hi - rest[0].now);
      }
    }
  }

  /** In any interval a bucket admits at most its burst plus what the rate gives in that time. */
  lemma {:induction false} BucketBound(l: Limit, b: Option<Bucket>, calls: seq<Call>, lo: int, hi: int)
    requires FillsInAMinute(l) && Sound(l, b) && lo <= hi
    requires calls != [] ==> Monotone(Since(b, calls[0].now), calls)
    ensures AdmittedIn(l, b, calls, lo, hi) as real <= Allowance(l, lo, hi)
    decreases calls
  {
    AccruedAdds(l.rate, hi - lo, 0);
    if calls != [] {
      var c, rest := calls[0], calls[1..];
      UsedIsSound(l, b, c);
      if c.now < lo {
        assert rest != [] ==> c.now <= calls[1].now;
        assert forall i :: 0 <= i < |rest| ==> rest[i] == calls[i + 1];
        BucketBound(l, Some(Used(l, b, c)), rest, lo, hi);
      } else {
        AdmittedAtMost(l, b, calls, lo, hi);
        if c.now <= hi {
          AccruedAdds(l.rate, c.now - lo, hi - c.now);
        }
      }
    }
  }

  // ----- The condition on the minute is needed -----

  function Repeat(c: Call, n: nat): (r: seq<Call>)
    ensures |r| == n && forall i :: 0 <= i < n ==> r[i] == c
  {
    seq(n, i => c)
  }

  /** `n` calls at once on a bucket with at least `n` tokens are all admitted. */
  lemma {:induction false} BurstAdmitted(l: Limit, b: Option<Bucket>, n: nat, now: int, more: seq<Call>, lo: int,
                                         hi: int)
    requires lo <= now <= hi && Refill(l, b, now) >= n as real && Refill(l, b, now) <= l.burst as real
    ensures exists b' :: (n > 0 ==> b' == Some(Bucket(Refill(l, b, now) - n as real, now))) && (n == 0 ==> b' == b)
                         && AdmittedIn(l, b, Repeat(Call(now, true), n) + more, lo, hi) == n + AdmittedIn(l, b', more, lo, hi)
    decreases n
  {
    var calls := Repeat(Call(now, true), n) + more;
    if n == 0 {
      assert calls == more;
    } else {
      var c := Call(now, true);
      var b1 := Some(Used(l, b, c));
      assert calls[0] == c;
      assert calls[1..] == Repeat(c, n - 1) + more;
      assert Accrued(l.rate, 0) == 0.0;
      assert Refill(l, b1, now) == Refill(l, b, now) - 1.0;
      BurstAdmitted(l, b1, n - 1, now, more, lo, hi);
    }
  }

  /** A full burst, a minute of silence, and a full burst again. */
  function TwoBursts(l: Limit): seq<Call> {
    Repeat(Call(0, true), l.burst) + Repeat(Call(EXPIRY_MS, true), l.burst)
  }

  lemma ExpiryRefills(l: Limit)
    requires l.burst > 0
    ensures Monotone(0, TwoBursts(l)) && AdmittedIn(l, None, TwoBursts(l), 0, EXPIRY_MS) == 2 * l.burst
  {
    var second := Repeat(Call(EXPIRY_MS, true), l.burst);
    BurstAdmitted(l, None, l.burst, 0, second, 0, EXPIRY_MS);
    var b :| b == Some(Bucket(Refill(l, None, 0) - l.burst as real, 0))
             && AdmittedIn(l, None, TwoBursts(l), 0, EXPIRY_MS) == l.burst + AdmittedIn(l, b, second, 0, EXPIRY_MS);
    BurstAdmitted(l, b, l.burst, EXPIRY_MS, [], 0, EXPIRY_MS);
    assert second + [] == second;
  }

  /** The bound holds for all calls and intervals exactly if a minute refills the bucket. */
  lemma BoundIffMinuteFills(l: Limit)
    ensures (forall calls: seq<Call>, lo, hi :: lo <= hi && (calls != [] ==> Monotone(calls[0].now, calls)) ==>
               AdmittedIn(l, None, calls, lo, hi) as real <= Allowance(l, lo, hi)) <==> FillsInAMinute(l)
  {
    if FillsInAMinute(l) {
      forall calls: seq<Call>, lo, hi | lo <= hi && (calls != [] ==> Monotone(calls[0].now, calls))
        ensures AdmittedIn(l, None, calls, lo, hi) as real <= Allowance(l, lo, hi)
      {
        BucketBound(l, None, calls, lo, hi);
      }
    } else {
      ExpiryRefills(l);
      assert TwoBursts(l)[0].now == 0;
      assert AdmittedIn(l, None, TwoBursts(l), 0, EXPIRY_MS) as real > Allowance(l, 0, EXPIRY_MS);
    }
  }

  // ----- The script on two buckets -----

  datatype Key = UserKey(user: int, program: int) | ProgramKey(program: int)

  datatype Limits = Limits(user: Limit, program: Limit)

  datatype Request = Request(user: int, program: int, now: int)

  type Store = map<Key, Bucket>

  function LimitOf(ls: Limits, k: Key): Limit {
    if k.UserKey? then ls.user else ls.program
  }

  function Get(s: Store, k: Key): Option<Bucket> {
    if k in s then Some(s[k]) else None
  }

  function Level(ls: Limits, s: Store, k: Key, now: int): real {
    Refill(LimitOf(ls, k), Get(s, k), now)
  }

  predicate Allowed(ls: Limits, s: Store, r: Request) {
    Level(ls, s, UserKey(r.user, r.program), r.now) >= 1.0 && Level(ls, s, ProgramKey(r.program), r.now) >= 1.0
  }

  function Script(ls: Limits, s: Store, r: Request): Store {
    var u, p := UserKey(r.user, r.program), ProgramKey(r.program);
    var spent := if Allowed(ls, s, r) then 1.0 else 0.0;
    s[u := Bucket(Level(ls, s, u, r.now) - spent, r.now)][p := Bucket(Level(ls, s, p, r.now) - spent, r.now)]
  }

  predicate Touches(r: Request, k: Key) {
    k == UserKey(r.user, r.program) || k == ProgramKey(r.program)
  }

  function AllowedIn(ls: Limits, s: Store, requests: seq<Request>, k: Key, lo: int, hi: int): nat
    decreases requests
  {
    if requests == [] then 0
    else
      var r := requests[0];
      (if Touches(r, k) && lo <= r.now <= hi && Allowed(ls, s, r) then 1 else 0) +
      AllowedIn(ls, Script(ls, s, r), requests[1..], k, lo, hi)
  }

  /** What one bucket sees of a run. */
  function Seen(ls: Limits, s: Store, requests: seq<Request>, k: Key): seq<Call>
    decreases requests
  {
    if requests == [] then []
    else
      var r := requests[0];
      var rest := Seen(ls, Script(ls, s, r), requests[1..], k);
      if !Touches(r, k) then rest
      else
        var other := if k.UserKey? then ProgramKey(r.program) else UserKey(r.user, r.program);
        [Call(r.now, Level(ls, s, other, r.now) >= 1.0)] + rest
  }

  /** The script treats each of its buckets as a bucket on its own. */
  lemma {:induction false} SeenIsFaithful(ls: Limits, s: Store, requests: seq<Request>, k: Key, lo: int, hi: int)
    ensures AllowedIn(ls, s, requests, k, lo, hi) ==
            AdmittedIn(LimitOf(ls, k), Get(s, k), Seen(ls, s, requests, k), lo, hi)
    decreases requests
  {
    if requests != [] {
      var r := requests[0];
      SeenIsFaithful(ls, Script(ls, s, r), requests[1..], k, lo, hi);
      if Touches(r, k) {
        var calls := Seen(ls, s, requests, k);
        assert calls[1..] == Seen(ls, Script(ls, s, r), requests[1..], k);
        assert Get(Script(ls, s, r), k) == Some(Used(LimitOf(ls, k), Get(s, k), calls[0]));
      } else {
        assert Get(Script(ls, s, r), k) == Get(s, k);
      }
    }
  }

  predicate Clocked(start: int, requests: seq<Request>) {
    && (|requests| > 0 ==> start <= requests[0].now)
    && (forall i :: 0 <= i < |requests| - 1 ==> requests[i].now <= requests[i + 1].now)
  }

  lemma {:induction false} SeenIsMonotone(ls: Limits, s: Store, requests: seq<Request>, k: Key, start: int)
    requires Clocked(start, requests)
    ensures Monotone(start, Seen(ls, s, requests, k))
    decreases requests
  {
    if requests != [] {
      var r, rest := requests[0], requests[1..];
      assert rest != [] ==> r.now <= requests[1].now;
      assert forall i :: 0 <= i < |rest| ==> rest[i] == requests[i + 1];
      SeenIsMonotone(ls, Script(ls, s, r), rest, k, r.now);
    }
  }

  /** In any run from empty buckets, in any interval, every user and every program stays in its bound. */
  lemma EveryBucketIsBounded(ls: Limits, requests: seq<Request>, k: Key, lo: int, hi: int, start: int)
    requires Clocked(start, requests) && lo <= hi && FillsInAMinute(LimitOf(ls, k))
    ensures AllowedIn(ls, map[], requests, k, lo, hi) as real <= Allowance(LimitOf(ls, k), lo, hi)
  {
    SeenIsFaithful(ls, map[], requests, k, lo, hi);
    SeenIsMonotone(ls, map[], requests, k, start);
    BucketBound(LimitOf(ls, k), None, Seen(ls, map[], requests, k), lo, hi);
  }

  /** A denied request changes the level of no bucket, now or at any later time. */
  lemma DeniedSpendsNothing(ls: Limits, s: Store, r: Request, k: Key, later: int)
    requires FillsInAMinute(LimitOf(ls, k)) && Sound(LimitOf(ls, k), Get(s, k))
    requires Since(Get(s, k), r.now) <= r.now <= later
    requires !Allowed(ls, s, r)
    ensures Level(ls, Script(ls, s, r), k, later) == Level(ls, s, k, later)
  {
    var l, b := LimitOf(ls, k), Get(s, k);
    if Touches(r, k) {
      var b' := Bucket(Level(ls, s, k, r.now), r.now);
      assert Get(Script(ls, s, r), k) == Some(b');
      AccruedAdds(l.rate, later - r.now, 0);
      if b.Some? {
        RefillAtMost(l, b.value, r.now);
        RefillAtMost(l, b.value, later);
        AccruedAdds(l.rate, r.now - b.value.lastMs, later - r.now);
      }
      RefillAtMost(l, b', later);
    } else {
      assert Get(Script(ls, s, r), k) == Get(s, k);
    }
  }

  // ----- Nobody is denied below the bound -----

  /** The bucket after some calls, and how many of them it admitted. */
  function After(l: Limit, b: Option<Bucket>, calls: seq<Call>): Option<Bucket>
    decreases calls
  {
    if calls == [] then b else After(l, Some(Used(l, b, calls[0])), calls[1..])
  }

  function Admitted(l: Limit, b: Option<Bucket>, calls: seq<Call>): nat
    decreases calls
  {
    if calls == [] then 0
    else (if Admits(l, b, calls[0]) then 1 else 0) + Admitted(l, Some(Used(l, b, calls[0])), calls[1..])
  }

  predicate Until(calls: seq<Call>, t: int) {
    forall i :: 0 <= i < |calls| ==> calls[i].now <= t
  }

  /**
   An exhausted bucket has spent what it had: from some call on, at which it was full, or else since
   the beginning (-1), it admitted more than its content and its rate allow, less one.
   */
  lemma {:induction false} ExhaustedIsSpent(l: Limit, b: Option<Bucket>, calls: seq<Call>, t: int) returns (k: int)
    requires l.burst >= 1 && Until(calls, t) && Refill(l, After(l, b, calls), t) < 1.0
    requires if calls == [] then Since(b, t) <= t else Monotone(Since(b, calls[0].now), calls)
    ensures -1 <= k < |calls|
    ensures k == -1 ==>
              b.Some? && Admitted(l, b, calls) as real > b.value.tokens + Accrued(l.rate, t - b.value.lastMs) - 1.0
    ensures k >= 0 ==>
              Admitted(l, After(l, b, calls[..k]), calls[k..]) as real > Allowance(l, calls[k].now, t) - 1.0
    decreases calls
  {
    if calls == [] {
      k := -1;
      if t == b.value.lastMs { assert Accrued(l.rate, 0) == 0.0; }
    } else {
      var c, rest := calls[0], calls[1..];
      var b' := Used(l, b, c);
      assert rest != [] ==> c.now <= calls[1].now;
      assert forall i :: 0 <= i < |rest| ==> rest[i] == calls[i + 1];
      k := ExhaustedIsSpent(l, Some(b'), rest, t);
      if k >= 0 {
        assert rest[..k] == calls[1..k + 1] && calls[..k + 1][1..] == rest[..k] && calls[k + 1..] == rest[k..];
        assert calls[..k + 1][0] == c;
        k := k + 1;
      } else if Refill(l, b, c.now) == l.burst as real {
        k := 0;
        assert calls[..0] == [] && calls[0..] == calls;
      } else {
        AccruedAdds(l.rate, c.now - b.value.lastMs, t - c.now);
        if c.now == b.value.lastMs { assert Accrued(l.rate, 0) == 0.0; }
      }
    }
  }

  /** What was admitted from a call on was admitted at times from its time on. */
  lemma {:induction false} AdmittedFrom(l: Limit, b: Option<Bucket>, calls: seq<Call>, k: nat, t: int)
    requires k < |calls| && Until(calls, t) && Monotone(calls[0].now, calls)
    ensures Admitted(l, After(l, b, calls[..k]), calls[k..]) <= AdmittedIn(l, b, calls, calls[k].now, t)
    decreases k
  {
    if k == 0 {
      assert calls[..0] == [] && calls[0..] == calls;
      FirstIsEarliest(calls);
      AllAdmittedIn(l, b, calls, calls[0].now, t);
    } else {
      var rest := calls[1..];
      assert forall i :: 0 <= i < |rest| ==> rest[i] == calls[i + 1];
      assert rest[..k - 1] == calls[1..k] && calls[..k][1..] == rest[..k - 1] && calls[k..] == rest[k - 1..];
      assert calls[..k][0] == calls[0];
      AdmittedFrom(l, Some(Used(l, b, calls[0])), rest, k - 1, t);
    }
  }

  lemma {:induction false} FirstIsEarliest(calls: seq<Call>)
    requires calls != [] && Monotone(calls[0].now, calls)
    ensures forall i :: 0 <= i < |calls| ==> calls[0].now <= calls[i].now
    decreases |calls|
  {
    if |calls| > 1 {
      var rest := calls[1..];
      assert forall i :: 0 <= i < |rest| ==> rest[i] == calls[i + 1];
      FirstIsEarliest(rest);
      assert calls[0].now <= calls[0 + 1].now;
      forall i | 0 <= i < |calls| ensures calls[0].now <= calls[i].now {
        if i > 0 { assert calls[i] == rest[i - 1]; }
      }
    }
  }

  lemma {:induction false} AllAdmittedIn(l: Limit, b: Option<Bucket>, calls: seq<Call>, lo: int, hi: int)
    requires forall i :: 0 <= i < |calls| ==> lo <= calls[i].now <= hi
    ensures Admitted(l, b, calls) == AdmittedIn(l, b, calls, lo, hi)
    decreases calls
  {
    if calls != [] {
      AllAdmittedIn(l, Some(Used(l, b, calls[0])), calls[1..], lo, hi);
    }
  }

  /** The store after some requests. */
  function Served(ls: Limits, s: Store, requests: seq<Request>): Store
    decreases requests
  {
    if requests == [] then s else Served(ls, Script(ls, s, requests[0]), requests[1..])
  }

  lemma {:induction false} ServedIsSeen(ls: Limits, s: Store, requests: seq<Request>, k: Key)
    ensures Get(Served(ls, s, requests), k) == After(LimitOf(ls, k), Get(s, k), Seen(ls, s, requests, k))
    decreases requests
  {
    if requests != [] {
      var r := requests[0];
      ServedIsSeen(ls, Script(ls, s, r), requests[1..], k);
      if Touches(r, k) {
        var calls := Seen(ls, s, requests, k);
        assert calls[1..] == Seen(ls, Script(ls, s, r), requests[1..], k);
        assert Get(Script(ls, s, r), k) == Some(Used(LimitOf(ls, k), Get(s, k), calls[0]));
      } else {
        assert Get(Script(ls, s, r), k) == Get(s, k);
      }
    }
  }

  lemma {:induction false} SeenUntil(ls: Limits, s: Store, requests: seq<Request>, k: Key, t: int)
    requires forall i :: 0 <= i < |requests| ==> requests[i].now <= t
    ensures Until(Seen(ls, s, requests, k), t)
    decreases requests
  {
    if requests != [] {
      SeenUntil(ls, Script(ls, s, requests[0]), requests[1..], k, t);
    }
  }

  /** One of the two buckets of the request has been used up to its bound, in some interval that ends now. */
  ghost predicate AtTheBound(ls: Limits, requests: seq<Request>, k: Key, now: int) {
    exists lo :: lo <= now && AllowedIn(ls, map[], requests, k, lo, now) as real > Allowance(LimitOf(ls, k), lo, now) - 1.0
  }

  lemma EmptyBucketIsAtTheBound(ls: Limits, requests: seq<Request>, k: Key, start: int, now: int)
    requires Clocked(start, requests) && (forall i :: 0 <= i < |requests| ==> requests[i].now <= now)
    requires LimitOf(ls, k).burst >= 1 && Level(ls, Served(ls, map[], requests), k, now) < 1.0
    ensures AtTheBound(ls, requests, k, now)
  {
    var l, calls := LimitOf(ls, k), Seen(ls, map[], requests, k);
    ServedIsSeen(ls, map[], requests, k);
    SeenIsMonotone(ls, map[], requests, k, start);
    SeenUntil(ls, map[], requests, k, now);
    var i := ExhaustedIsSpent(l, None, calls, now);
    AdmittedFrom(l, None, calls, i, now);
    SeenIsFaithful(ls, map[], requests, k, calls[i].now, now);
    assert AllowedIn(ls, map[], requests, k, calls[i].now, now) as real > Allowance(l, calls[i].now, now) - 1.0;
  }

  /**
   The limiter is no stricter than its bounds: after any run, a request is denied only if one more
   would exceed the bound of its user or of its program in some interval that ends now.
   */
  lemma DeniedOnlyAtTheBound(ls: Limits, requests: seq<Request>, r: Request, start: int)
    requires Clocked(start, requests) && (forall i :: 0 <= i < |requests| ==> requests[i].now <= r.now)
    requires ls.user.burst >= 1 && ls.program.burst >= 1 && !Allowed(ls, Served(ls, map[], requests), r)
    ensures AtTheBound(ls, requests, UserKey(r.user, r.program), r.now) || AtTheBound(ls, requests, ProgramKey(r.program), r.now)
  {
    if Level(ls, Served(ls, map[], requests), UserKey(r.user, r.program), r.now) < 1.0 {
      EmptyBucketIsAtTheBound(ls, requests, UserKey(r.user, r.program), start, r.now);
    } else {
      EmptyBucketIsAtTheBound(ls, requests, ProgramKey(r.program), start, r.now);
    }
  }

  // ----- The exact conditions for the script -----

  /** A whole program is bounded. */
  ghost predicate ProgramBounded(ls: Limits) {
    forall requests, program, lo, hi, start :: Clocked(start, requests) && lo <= hi ==>
      AllowedIn(ls, map[], requests, ProgramKey(program), lo, hi) as real <= Allowance(ls.program, lo, hi)
  }

  /** A user is bounded, whatever the limit of the program is. */
  ghost predicate UserBounded(l: Limit) {
    forall p, requests, user, program, lo, hi, start :: Clocked(start, requests) && lo <= hi ==>
      AllowedIn(Limits(l, p), map[], requests, UserKey(user, program), lo, hi) as real <= Allowance(l, lo, hi)
  }

  /** Users whose burst is zero get nothing. */
  lemma {:induction false} NoBurstNothing(ls: Limits, s: Store, requests: seq<Request>, k: Key, lo: int, hi: int)
    requires ls.user.burst == 0
    ensures AllowedIn(ls, s, requests, k, lo, hi) == 0
    decreases requests
  {
    if requests != [] {
      NoBurstNothing(ls, Script(ls, s, requests[0]), requests[1..], k, lo, hi);
    }
  }

  /** `n` different users of program 0 at one moment. */
  function Visitors(first: nat, n: nat, now: int): (r: seq<Request>)
    ensures |r| == n && forall i :: 0 <= i < n ==> r[i] == Request(first + i, 0, now)
  {
    seq(n, i => Request(first + i, 0, now))
  }

  /** Nobody from `first` on has come yet. */
  ghost predicate NewFrom(s: Store, first: nat) {
    forall u :: u >= first ==> UserKey(u, 0) !in s
  }

  /** New users have full buckets, so the program sees calls that only it can refuse. */
  lemma {:induction false} VisitorsAreSeen(ls: Limits, s: Store, first: nat, n: nat, now: int, more: seq<Request>)
    returns (s': Store)
    requires ls.user.burst >= 1 && NewFrom(s, first)
    ensures NewFrom(s', first + n)
    ensures Seen(ls, s, Visitors(first, n, now) + more, ProgramKey(0)) ==
            Repeat(Call(now, true), n) + Seen(ls, s', more, ProgramKey(0))
    decreases n
  {
    var requests := Visitors(first, n, now) + more;
    if n == 0 {
      s' := s;
      assert requests == more;
    } else {
      var r := Request(first, 0, now);
      assert requests[0] == r && requests[1..] == Visitors(first + 1, n - 1, now) + more;
      s' := VisitorsAreSeen(ls, Script(ls, s, r), first + 1, n - 1, now, more);
      assert [Call(now, true)] + Repeat(Call(now, true), n - 1) == Repeat(Call(now, true), n);
    }
  }

  /** New users exhaust the program, and again after its key has expired. */
  lemma ExpiryRefillsTheProgram(ls: Limits) returns (requests: seq<Request>)
    requires ls.user.burst >= 1 && ls.program.burst > 0
    ensures Clocked(0, requests) && AllowedIn(ls, map[], requests, ProgramKey(0), 0, EXPIRY_MS) == 2 * ls.program.burst
  {
    var n := ls.program.burst;
    var second := Visitors(n, n, EXPIRY_MS);
    requests := Visitors(0, n, 0) + second;
    var s1 := VisitorsAreSeen(ls, map[], 0, n, 0, second);
    var s2 := VisitorsAreSeen(ls, s1, n, n, EXPIRY_MS, []);
    assert second + [] == second && Repeat(Call(EXPIRY_MS, true), n) + [] == Repeat(Call(EXPIRY_MS, true), n);
    SeenIsFaithful(ls, map[], requests, ProgramKey(0), 0, EXPIRY_MS);
    ExpiryRefills(ls.program);
  }

  /** A program keeps its bound in every run iff a minute refills it, or its users may not buy at all. */
  lemma ProgramBoundIff(ls: Limits)
    ensures ProgramBounded(ls) <==> FillsInAMinute(ls.program) || ls.user.burst == 0
  {
    if FillsInAMinute(ls.program) || ls.user.burst == 0 {
      forall requests, program, lo, hi, start | Clocked(start, requests) && lo <= hi
        ensures AllowedIn(ls, map[], requests, ProgramKey(program), lo, hi) as real <= Allowance(ls.program, lo, hi)
      {
        if FillsInAMinute(ls.program) {
          EveryBucketIsBounded(ls, requests, ProgramKey(program), lo, hi, start);
        } else {
          NoBurstNothing(ls, map[], requests, ProgramKey(program), lo, hi);
          AccruedAdds(ls.program.rate, hi - lo, 0);
        }
      }
    } else {
      var requests := ExpiryRefillsTheProgram(ls);
      assert AllowedIn(ls, map[], requests, ProgramKey(0), 0, EXPIRY_MS) as real > Allowance(ls.program, 0, EXPIRY_MS);
    }
  }

  predicate OneUser(requests: seq<Request>) {
    forall i :: 0 <= i < |requests| ==> requests[i].user == 1 && requests[i].program == 0
  }

  function CallsOf(requests: seq<Request>): seq<Call> {
    seq(|requests|, i requires 0 <= i < |requests| => Call(requests[i].now, true))
  }

  /** With one user and equal limits the two buckets move in lockstep. */
  lemma {:induction false} Lockstep(l: Limit, s: Store, requests: seq<Request>, lo: int, hi: int)
    requires OneUser(requests) && Get(s, UserKey(1, 0)) == Get(s, ProgramKey(0))
    ensures AllowedIn(Limits(l, l), s, requests, UserKey(1, 0), lo, hi) ==
            AdmittedIn(l, Get(s, UserKey(1, 0)), CallsOf(requests), lo, hi)
    decreases requests
  {
    if requests != [] {
      var ls, r := Limits(l, l), requests[0];
      assert r == Request(1, 0, r.now);
      var s' := Script(ls, s, r);
      assert OneUser(requests[1..]);
      Lockstep(l, s', requests[1..], lo, hi);
      assert CallsOf(requests)[1..] == CallsOf(requests[1..]);
      assert Get(s', UserKey(1, 0)) == Some(Used(l, Get(s, UserKey(1, 0)), Call(r.now, true)));
    }
  }

  /** A user keeps its bound under every limit of the program iff a minute refills the user's bucket. */
  lemma UserBoundIff(l: Limit)
    ensures UserBounded(l) <==> FillsInAMinute(l)
  {
    if FillsInAMinute(l) {
      forall p, requests, user, program, lo, hi, start | Clocked(start, requests) && lo <= hi
        ensures AllowedIn(Limits(l, p), map[], requests, UserKey(user, program), lo, hi) as real <= Allowance(l, lo, hi)
      {
        EveryBucketIsBounded(Limits(l, p), requests, UserKey(user, program), lo, hi, start);
      }
    } else {
      var n := l.burst;
      var requests := seq(n, i => Request(1, 0, 0)) + seq(n, i => Request(1, 0, EXPIRY_MS));
      Lockstep(l, map[], requests, 0, EXPIRY_MS);
      assert CallsOf(requests) == TwoBursts(l);
      ExpiryRefills(l);
      assert Clocked(0, requests);
      assert AllowedIn(Limits(l, l), map[], requests, UserKey(1, 0), 0, EXPIRY_MS) as real > Allowance(l, 0, EXPIRY_MS);
    }
  }

  class PurchaseRateLimiter {
    const limits: Limits
    var store: Store

    constructor (limits: Limits)
      ensures this.limits == limits && store == map[]
    {
      this.limits, store := limits, map[];
    }

    method Allow(user: int, program: int, now: int) returns (allowed: bool)
      modifies this
      ensures allowed == Allowed(limits, old(store), Request(user, program, now))
      ensures store == Script(limits, old(store), Request(user, program, now))
    {
      var u, p := UserKey(user, program), ProgramKey(program);
      var userTokens := Refill(limits.user, Get(store, u), now);
      var programTokens := Refill(limits.program, Get(store, p), now);
      allowed := userTokens >= 1.0 && programTokens >= 1.0;
      if allowed {
        userTokens := userTokens - 1.0;
        programTokens := programTokens - 1.0;
      }
      store := store[u := Bucket(userTokens, now)];
      store := store[p := Bucket(programTokens, now)];
    }
  }
}
