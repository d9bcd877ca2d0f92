/** internal/api/pairing_ratelimit.go: token buckets per address and overall, with idle buckets swept. Times are in seconds. */
module RateLimiter {
  import opened Sequences

  const MAX_IP_BUCKETS := 4096
  const SWEEP_EVERY := 60.0

  datatype IP = IP(text: string)

  const UNKNOWN := IP("unknown")

  /** Unused is the zero bucket, full on first use. */
  datatype Bucket = Unused | Bucket(tokens: real, last: real)

  // ----- One bucket -----

  /** What elapsed time adds to a bucket that gains a token every so often. */
  function Gain(elapsed: real, every: real): real
    requires every > 0.0
  {
    elapsed / every
  }

  lemma GainAdds(a: real, b: real, every: real)
    requires every > 0.0
    ensures Gain(a + b, every) == Gain(a, every) + Gain(b, every)
    ensures a >= 0.0 ==> Gain(a, every) >= 0.0
    ensures Gain(0.0, every) == 0.0
  {
  }

  lemma GainFills(capacity: int, elapsed: real, every: real)
    requires every > 0.0 && elapsed >= capacity as real * every
    ensures Gain(elapsed, every) >= capacity as real
  {
    var rest := elapsed - capacity as real * every;
    GainAdds(capacity as real * every, rest, every);
    assert Gain(capacity as real * every, every) == capacity as real;
  }

  function Refilled(b: Bucket, now: real, capacity: int, every: real): (r: Bucket)
    requires every > 0.0
    ensures r.Bucket?
  {
    if b.Unused? then Bucket(capacity as real, now)
    else if now - b.last > 0.0 then
      var tokens := b.tokens + Gain(now - b.last, every);
      Bucket(if tokens > capacity as real then capacity as real else tokens, now)
    else b
  }

  function TakeToken(b: Bucket, now: real, capacity: int, every: real): (bool, Bucket)
    requires every > 0.0
  {
    var r := Refilled(b, now, capacity, every);
    if r.tokens < 1.0 then (false, r) else (true, r.(tokens := r.tokens - 1.0))
  }

  /** A bucket never holds less than nothing or more than it can, and was last used by now. */
  predicate Sound(b: Bucket, capacity: int, now: real) {
    b.Bucket? ==> 0.0 <= b.tokens <= capacity as real && b.last <= now
  }

  lemma TakeSound(b: Bucket, now: real, capacity: int, every: real)
    requires every > 0.0 && capacity > 0 && Sound(b, capacity, now)
    ensures Sound(TakeToken(b, now, capacity, every).1, capacity, now)
    ensures TakeToken(b, now, capacity, every).1.Bucket? && TakeToken(b, now, capacity, every).1.last == now
  {
    if b.Bucket? { GainAdds(now - b.last, 0.0, every); }
  }

  /** A bucket that had the time to fill up answers like a new one. */
  lemma IdleIsNew(b: Bucket, now: real, capacity: int, every: real)
    requires every > 0.0 && capacity > 0 && b.Bucket? && b.tokens >= 0.0 && now - b.last >= capacity as real * every
    ensures TakeToken(b, now, capacity, every) == TakeToken(Unused, now, capacity, every)
  {
    GainFills(capacity, now - b.last, every);
    assert capacity as real * every > 0.0;
  }

  function IdleTTL(capacity: int, every: real): real {
    if capacity <= 0 || every <= 0.0 then 0.0 else 2.0 * capacity as real * every
  }

  // ----- A limiter that never forgets -----

  /** One phase: a bucket for every address ever seen, and the overall one. */
  datatype Plain = Plain(buckets: map<IP, Bucket>, overall: Bucket)

  function BucketOf(buckets: map<IP, Bucket>, ip: IP): Bucket {
    if ip in buckets then buckets[ip] else Unused
  }

  function PlainAllow(p: Plain, ip: IP, now: real, perIP: int, burst: int, every: real): (bool, Plain)
    requires every > 0.0
  {
    var (ok, b) := TakeToken(BucketOf(p.buckets, ip), now, perIP, every);
    if !ok then (false, p.(buckets := p.buckets[ip := b]))
    else
      var (allowed, o) := TakeToken(p.overall, now, burst, every);
      (allowed, Plain(p.buckets[ip := b], o))
  }

  /** Every tracked bucket is the unforgotten one; every forgotten one has had the time to fill up. */
  ghost predicate Agrees(buckets: map<IP, Bucket>, all: map<IP, Bucket>, capacity: int, every: real, now: real) {
    && buckets.Keys <= all.Keys
    && (forall ip | ip in buckets :: buckets[ip] == all[ip])
    && (forall ip | ip in all :: all[ip].Bucket? && Sound(all[ip], capacity, now))
    && (forall ip | ip in all && ip !in buckets :: now - all[ip].last >= capacity as real * every)
  }

  function Swept(buckets: map<IP, Bucket>, ttl: real, now: real): map<IP, Bucket> {
    map ip | ip in buckets && (ttl <= 0.0 || buckets[ip].Unused? || now - buckets[ip].last < ttl) :: buckets[ip]
  }

  lemma SweepAgrees(buckets: map<IP, Bucket>, all: map<IP, Bucket>, capacity: int, every: real, now: real, later: real)
    requires Agrees(buckets, all, capacity, every, now) && now <= later && capacity > 0 && every > 0.0
    ensures Agrees(buckets, all, capacity, every, later)
    ensures Agrees(Swept(buckets, IdleTTL(capacity, every), later), all, capacity, every, later)
  {
    TTLFills(capacity, every);
  }

  lemma TTLFills(capacity: int, every: real)
    requires capacity > 0 && every > 0.0
    ensures IdleTTL(capacity, every) >= capacity as real * every > 0.0
  {
    assert capacity as real * every > 0.0;
    assert IdleTTL(capacity, every) == capacity as real * every + capacity as real * every;
  }

  lemma TakeAgrees(buckets: map<IP, Bucket>, all: map<IP, Bucket>, ip: IP, capacity: int, every: real, now: real)
    requires Agrees(buckets, all, capacity, every, now) && capacity > 0 && every > 0.0
    ensures TakeToken(BucketOf(buckets, ip), now, capacity, every) == TakeToken(BucketOf(all, ip), now, capacity, every)
    ensures var b := TakeToken(BucketOf(all, ip), now, capacity, every).1; Agrees(buckets[ip := b], all[ip := b], capacity, every, now)
  {
    if ip in all && ip !in buckets { IdleIsNew(all[ip], now, capacity, every); }
    hide TakeToken;
    TakeSound(BucketOf(all, ip), now, capacity, every);
  }

  // ----- How many get through -----

  /** Between any two of these times, no more than the burst and what was refilled meanwhile. */
  ghost predicate WindowBound(allowed: seq<real>, burst: int, every: real)
    requires every > 0.0
  {
    forall i, j | 0 <= i <= j < |allowed| :: (j - i + 1) as real <= burst as real + Gain(allowed[j] - allowed[i], every)
  }

  /** What was let through since, and what is left, never exceed the burst and what was refilled. */
  ghost predicate Accounted(allowed: seq<real>, b: Bucket, burst: int, every: real)
    requires every > 0.0
  {
    && b.Bucket?
    && (forall i | 0 <= i < |allowed| :: allowed[i] <= b.last)
    && (forall i | 0 <= i < |allowed| :: (|allowed| - i) as real + b.tokens <= burst as real + Gain(b.last - allowed[i], every))
  }

  lemma TakeAccounted(allowed: seq<real>, b: Bucket, now: real, burst: int, every: real)
    requires every > 0.0 && burst > 0 && b.Bucket? && Sound(b, burst, now) && Accounted(allowed, b, burst, every)
    ensures var (ok, r) := TakeToken(b, now, burst, every); Accounted(if ok then allowed + [now] else allowed, r, burst, every)
  {
    var (ok, r) := TakeToken(b, now, burst, every);
    var more := if ok then allowed + [now] else allowed;
    GainAdds(now - b.last, 0.0, every);
    TakeSound(b, now, burst, every);
    forall i | 0 <= i < |more| ensures (|more| - i) as real + r.tokens <= burst as real + Gain(r.last - more[i], every) {
      if i < |allowed| {
        GainAdds(b.last - allowed[i], now - b.last, every);
        assert b.last - allowed[i] + (now - b.last) == now - allowed[i];
      }
    }
  }

  lemma WindowGrows(allowed: seq<real>, b: Bucket, now: real, burst: int, every: real)
    requires every > 0.0 && burst > 0 && b.Bucket? && Sound(b, burst, now) && Accounted(allowed, b, burst, every)
    requires WindowBound(allowed, burst, every) && TakeToken(b, now, burst, every).0
    ensures WindowBound(allowed + [now], burst, every)
  {
    var r := TakeToken(b, now, burst, every).1;
    var more := allowed + [now];
    TakeAccounted(allowed, b, now, burst, every);
    TakeSound(b, now, burst, every);
    forall i, j | 0 <= i <= j < |more| ensures (j - i + 1) as real <= burst as real + Gain(more[j] - more[i], every) {
      if j < |allowed| {
        assert more[i] == allowed[i] && more[j] == allowed[j];
      } else {
        assert (|more| - i) as real + r.tokens <= burst as real + Gain(r.last - more[i], every);
      }
    }
  }

  /** In any window of time, whatever was let through in it is within the burst and what the window refills. */
  lemma AnyWindow(allowed: seq<real>, burst: int, every: real, from: real, to: real, i: nat, j: nat)
    requires every > 0.0 && WindowBound(allowed, burst, every)
    requires i <= j < |allowed| && from <= allowed[i] && allowed[j] <= to
    ensures (j - i + 1) as real <= burst as real + Gain(to - from, every)
  {
    var inside, rest := allowed[j] - allowed[i], (to - from) - (allowed[j] - allowed[i]);
    GainAdds(inside, rest, every);
    GainAdds(rest, 0.0, every);
    assert inside + rest == to - from;
  }

  // ----- Who is refused -----

  /** No window that ends now saw more than the burst less one, and what was refilled in it. */
  ghost predicate Room(times: seq<real>, now: real, burst: int, every: real)
    requires every > 0.0
  {
    forall i | 0 <= i < |times| :: (|times| - i) as real <= burst as real - 1.0 + Gain(now - times[i], every)
  }

  /** Since it was last full, a bucket lost no more than it let through, and was refilled in full. */
  ghost predicate Filled(times: seq<real>, b: Bucket, burst: int, every: real)
    requires every > 0.0
  {
    && b.Bucket?
    && (b.tokens >= burst as real
        || exists i :: 0 <= i < |times| && b.tokens >= burst as real - (|times| - i) as real + Gain(b.last - times[i], every))
  }

  lemma RefilledFilled(times: seq<real>, b: Bucket, now: real, burst: int, every: real)
    requires every > 0.0 && burst > 0 && Sound(b, burst, now) && Filled(times, b, burst, every)
    ensures Filled(times, Refilled(b, now, burst, every), burst, every) && Refilled(b, now, burst, every).last == now
  {
    var r := Refilled(b, now, burst, every);
    GainAdds(now - b.last, 0.0, every);
    if b.tokens < burst as real && r.tokens < burst as real {
      var i :| 0 <= i < |times| && b.tokens >= burst as real - (|times| - i) as real + Gain(b.last - times[i], every);
      GainAdds(b.last - times[i], now - b.last, every);
      assert b.last - times[i] + (now - b.last) == now - times[i];
      assert r.tokens >= burst as real - (|times| - i) as real + Gain(r.last - times[i], every);
    }
  }

  lemma TakeFilled(times: seq<real>, b: Bucket, now: real, burst: int, every: real)
    requires every > 0.0 && burst > 0 && Sound(b, burst, now) && Filled(times, b, burst, every)
    ensures var (ok, r) := TakeToken(b, now, burst, every); Filled(if ok then times + [now] else times, r, burst, every)
  {
    RefilledFilled(times, b, now, burst, every);
    TakenFilled(times, Refilled(b, now, burst, every), burst, every);
  }

  lemma TakenFilled(times: seq<real>, r: Bucket, burst: int, every: real)
    requires every > 0.0 && Filled(times, r, burst, every)
    ensures Filled(times + [r.last], r.(tokens := r.tokens - 1.0), burst, every)
  {
    var more, taken := times + [r.last], r.(tokens := r.tokens - 1.0);
    GainAdds(0.0, 0.0, every);
    if r.tokens >= burst as real {
      assert more[|times|] == r.last;
      assert taken.tokens >= burst as real - (|more| - |times|) as real + Gain(taken.last - more[|times|], every);
    } else {
      var i :| 0 <= i < |times| && r.tokens >= burst as real - (|times| - i) as real + Gain(r.last - times[i], every);
      assert more[i] == times[i] && taken.tokens >= burst as real - (|more| - i) as real + Gain(taken.last - more[i], every);
    }
  }

  lemma NewFilled(times: seq<real>, now: real, burst: int, every: real)
    requires every > 0.0 && burst > 0
    ensures TakeToken(Unused, now, burst, every).0
    ensures Filled(times + [now], TakeToken(Unused, now, burst, every).1, burst, every)
  {
    TakenFilled(times, Bucket(burst as real, now), burst, every);
  }

  /** Only after a window that was too full is a request refused. */
  lemma RefusedFull(times: seq<real>, b: Bucket, now: real, burst: int, every: real)
    requires every > 0.0 && burst > 0 && Sound(b, burst, now) && Filled(times, b, burst, every)
    requires !TakeToken(b, now, burst, every).0
    ensures !Room(times, now, burst, every)
  {
    RefilledFilled(times, b, now, burst, every);
    var r := Refilled(b, now, burst, every);
    var i :| 0 <= i < |times| && r.tokens >= burst as real - (|times| - i) as real + Gain(r.last - times[i], every);
    assert !((|times| - i) as real <= burst as real - 1.0 + Gain(now - times[i], every));
  }

  /** And after such a window it is. */
  lemma AllowedRoom(times: seq<real>, b: Bucket, now: real, burst: int, every: real)
    requires every > 0.0 && burst > 0 && b.Bucket? && Sound(b, burst, now) && Accounted(times, b, burst, every)
    requires TakeToken(b, now, burst, every).0
    ensures Room(times, now, burst, every)
  {
    var r := TakeToken(b, now, burst, every).1;
    TakeAccounted(times, b, now, burst, every);
    TakeSound(b, now, burst, every);
    forall i | 0 <= i < |times| ensures (|times| - i) as real <= burst as real - 1.0 + Gain(now - times[i], every) {
      assert (times + [now])[i] == times[i];
    }
  }

  /** A bucket that had the time for one token lets the next request through. */
  lemma OneRefills(b: Bucket, now: real, capacity: int, every: real)
    requires every > 0.0 && capacity > 0 && b.Bucket? && Sound(b, capacity, now) && now - b.last >= every
    ensures TakeToken(b, now, capacity, every).0
  {
    GainFills(1, now - b.last, every);
  }

  // ----- The limiter -----

  /**
  One phase of the limiter, beside one that never forgets and the times at which it let something through. kept says
  that no request so far left its bucket unstored; it cannot have, with no more addresses than are tracked.
  */
  ghost predicate PhaseValid(buckets: map<IP, Bucket>, overall: Bucket, plain: Plain, kept: bool, allowed: seq<real>, perIP: int, burst: int,
                             every: real, now: real)
    requires every > 0.0
  {
    && |buckets| <= MAX_IP_BUCKETS
    && (forall ip | ip in buckets :: buckets[ip].Bucket? && Sound(buckets[ip], perIP, now))
    && overall.Bucket? && Sound(overall, burst, now)
    && Accounted(allowed, overall, burst, every) && WindowBound(allowed, burst, every)
    && (kept ==> Agrees(buckets, plain.buckets, perIP, every, now) && overall == plain.overall)
    && (|plain.buckets| <= MAX_IP_BUCKETS ==> kept)
  }

  lemma PhaseSweeps(buckets: map<IP, Bucket>, overall: Bucket, plain: Plain, kept: bool, allowed: seq<real>, perIP: int, burst: int,
                    every: real, now: real, later: real)
    requires every > 0.0 && perIP > 0 && PhaseValid(buckets, overall, plain, kept, allowed, perIP, burst, every, now) && now <= later
    ensures PhaseValid(buckets, overall, plain, kept, allowed, perIP, burst, every, later)
    ensures PhaseValid(Swept(buckets, IdleTTL(perIP, every), later), overall, plain, kept, allowed, perIP, burst, every, later)
  {
    hide Agrees, Accounted, WindowBound, IdleTTL;
    Cardinal(Swept(buckets, IdleTTL(perIP, every), later).Keys, buckets.Keys);
    if kept {
      SweepAgrees(buckets, plain.buckets, perIP, every, now, later);
    }
  }

  /** The buckets once ip's was used: a new one is not stored when there are too many already. */
  function Stored(buckets: map<IP, Bucket>, ip: IP, b: Bucket): map<IP, Bucket> {
    if ip in buckets || |buckets| < MAX_IP_BUCKETS then buckets[ip := b] else buckets
  }

  /** What a request does to one phase. */
  function PhaseAllow(buckets: map<IP, Bucket>, overall: Bucket, ip: IP, now: real, perIP: int, burst: int, every: real):
      (bool, map<IP, Bucket>, Bucket)
    requires every > 0.0
  {
    var (ok, b) := TakeToken(BucketOf(buckets, ip), now, perIP, every);
    if !ok then (false, Stored(buckets, ip, b), overall)
    else
      var (allowed, o) := TakeToken(overall, now, burst, every);
      (allowed, Stored(buckets, ip, b), o)
  }

  lemma StoredSound(buckets: map<IP, Bucket>, ip: IP, b: Bucket, perIP: int, now: real)
    requires |buckets| <= MAX_IP_BUCKETS && b.Bucket? && Sound(b, perIP, now)
    requires forall i | i in buckets :: buckets[i].Bucket? && Sound(buckets[i], perIP, now)
    ensures var more := Stored(buckets, ip, b);
      |more| <= MAX_IP_BUCKETS && forall i | i in more :: more[i].Bucket? && Sound(more[i], perIP, now)
  {
    assert buckets[ip := b].Keys == buckets.Keys + {ip};
  }

  /** With few enough addresses every bucket is stored. */
  lemma AllStored(buckets: map<IP, Bucket>, all: map<IP, Bucket>, ip: IP, b: Bucket)
    requires buckets.Keys <= all.Keys && |all[ip := b]| <= MAX_IP_BUCKETS
    ensures Stored(buckets, ip, b) == buckets[ip := b] && |all| <= MAX_IP_BUCKETS
  {
    assert all[ip := b].Keys == all.Keys + {ip};
    Cardinal(all.Keys, all[ip := b].Keys);
    Cardinal(buckets.Keys, all[ip := b].Keys);
  }

  lemma PhaseTakes(buckets: map<IP, Bucket>, overall: Bucket, plain: Plain, kept: bool, allowed: seq<real>, ip: IP, perIP: int, burst: int,
                   every: real, now: real)
    requires every > 0.0 && perIP > 0 && burst > 0 && PhaseValid(buckets, overall, plain, kept, allowed, perIP, burst, every, now)
    ensures var (ok, more, o) := PhaseAllow(buckets, overall, ip, now, perIP, burst, every);
      var (plainly, p) := PlainAllow(plain, ip, now, perIP, burst, every);
      && PhaseValid(more, o, p, kept && ip in more, if ok then allowed + [now] else allowed, perIP, burst, every, now)
      && (kept ==> ok == plainly)
  {
    hide TakeToken, Stored, Agrees, Accounted, WindowBound, Sound;
    var b := TakeToken(BucketOf(buckets, ip), now, perIP, every).1;
    BucketSound(buckets, ip, perIP, now);
    TakeSound(BucketOf(buckets, ip), now, perIP, every);
    StoredSound(buckets, ip, b, perIP, now);
    TakeSound(overall, now, burst, every);
    TakeAccounted(allowed, overall, now, burst, every);
    if TakeToken(overall, now, burst, every).0 { WindowGrows(allowed, overall, now, burst, every); }
    var all := TakeToken(BucketOf(plain.buckets, ip), now, perIP, every).1;
    Fewer(plain.buckets, ip, all);
    StoredOrNot(buckets, ip, b);
    if kept {
      TakeAgrees(buckets, plain.buckets, ip, perIP, every, now);
      AgreeKeys(buckets, plain.buckets, perIP, every, now);
      if |plain.buckets[ip := all]| <= MAX_IP_BUCKETS { AllStored(buckets, plain.buckets, ip, all); }
    }
  }

  lemma StoredIf(buckets: map<IP, Bucket>, ip: IP, b: Bucket, store: bool)
    requires store == (ip in buckets || |buckets| < MAX_IP_BUCKETS)
    ensures Stored(buckets, ip, b) == if store then buckets[ip := b] else buckets
  {
  }

  lemma StoredOrNot(buckets: map<IP, Bucket>, ip: IP, b: Bucket)
    ensures ip in Stored(buckets, ip, b) <==> Stored(buckets, ip, b) == buckets[ip := b]
  {
  }

  // ----- Refusals of one phase -----

  /**
  passed has the times at which each address's own bucket let a request through, whether or not the overall one did.
  Nothing is lost: no tracked bucket holds less than those times leave, and none that was kept holds more.
  */
  ghost predicate PhaseSeen(buckets: map<IP, Bucket>, overall: Bucket, plain: Plain, kept: bool, allowed: seq<real>, passed: map<IP, seq<real>>,
                            perIP: int, burst: int, every: real)
    requires every > 0.0
  {
    && AllFilled(buckets, passed, perIP, every)
    && Filled(allowed, overall, burst, every)
    && (kept ==> AllAccounted(plain.buckets, passed, perIP, every))
  }

  ghost predicate AllFilled(buckets: map<IP, Bucket>, passed: map<IP, seq<real>>, perIP: int, every: real)
    requires every > 0.0
  {
    forall ip | ip in buckets :: Filled(At(passed, ip, []), buckets[ip], perIP, every)
  }

  ghost predicate AllAccounted(all: map<IP, Bucket>, passed: map<IP, seq<real>>, perIP: int, every: real)
    requires every > 0.0
  {
    && passed.Keys <= all.Keys
    && forall ip | ip in all :: all[ip].Bucket? && Accounted(At(passed, ip, []), all[ip], perIP, every)
  }

  lemma FilledPut(buckets: map<IP, Bucket>, passed: map<IP, seq<real>>, ip: IP, times: seq<real>, b: Bucket, perIP: int, every: real)
    requires every > 0.0 && AllFilled(buckets, passed, perIP, every) && Filled(times, b, perIP, every)
    ensures AllFilled(Stored(buckets, ip, b), passed[ip := times], perIP, every)
  {
    hide Filled;
  }

  lemma AccountedPut(all: map<IP, Bucket>, passed: map<IP, seq<real>>, ip: IP, times: seq<real>, b: Bucket, perIP: int, every: real)
    requires every > 0.0 && AllAccounted(all, passed, perIP, every) && b.Bucket? && Accounted(times, b, perIP, every)
    ensures AllAccounted(all[ip := b], passed[ip := times], perIP, every)
  {
    hide Accounted;
  }

  function Passes(buckets: map<IP, Bucket>, passed: map<IP, seq<real>>, ip: IP, now: real, perIP: int, every: real): map<IP, seq<real>>
    requires every > 0.0
  {
    passed[ip := if TakeToken(BucketOf(buckets, ip), now, perIP, every).0 then At(passed, ip, []) + [now] else At(passed, ip, [])]
  }

  lemma NewAccounted(now: real, capacity: int, every: real)
    requires every > 0.0 && capacity > 0
    ensures TakeToken(Unused, now, capacity, every).0
    ensures Accounted([now], TakeToken(Unused, now, capacity, every).1, capacity, every)
  {
    GainAdds(0.0, 0.0, every);
  }

  /** The address's own bucket, tracked or new. */
  lemma OwnFilled(buckets: map<IP, Bucket>, times: seq<real>, ip: IP, now: real, perIP: int, every: real)
    requires every > 0.0 && perIP > 0 && Sound(BucketOf(buckets, ip), perIP, now)
    requires ip in buckets ==> Filled(times, buckets[ip], perIP, every)
    ensures var (ok, b) := TakeToken(BucketOf(buckets, ip), now, perIP, every);
      Filled(if ok then times + [now] else times, b, perIP, every) && (!ok ==> !Room(times, now, perIP, every))
  {
    hide TakeToken, Filled, Room, Sound;
    if ip in buckets {
      TakeFilled(times, buckets[ip], now, perIP, every);
      if !TakeToken(buckets[ip], now, perIP, every).0 { RefusedFull(times, buckets[ip], now, perIP, every); }
    } else {
      NewFilled(times, now, perIP, every);
    }
  }

  lemma OwnAccounted(all: map<IP, Bucket>, passed: map<IP, seq<real>>, ip: IP, now: real, perIP: int, every: real)
    requires every > 0.0 && perIP > 0 && passed.Keys <= all.Keys
    requires ip in all ==> all[ip].Bucket? && Sound(all[ip], perIP, now) && Accounted(At(passed, ip, []), all[ip], perIP, every)
    ensures var (ok, b) := TakeToken(BucketOf(all, ip), now, perIP, every);
      && b.Bucket? && Accounted(if ok then At(passed, ip, []) + [now] else At(passed, ip, []), b, perIP, every)
      && (ok ==> Room(At(passed, ip, []), now, perIP, every))
  {
    hide TakeToken, Accounted, Sound;
    if ip in all {
      TakeAccounted(At(passed, ip, []), all[ip], now, perIP, every);
      TakeSound(all[ip], now, perIP, every);
      if TakeToken(all[ip], now, perIP, every).0 { AllowedRoom(At(passed, ip, []), all[ip], now, perIP, every); }
    } else {
      NewAccounted(now, perIP, every);
      UnusedSound(perIP, now);
      TakeSound(Unused, now, perIP, every);
      assert [] + [now] == [now];
    }
  }

  lemma UnusedSound(capacity: int, now: real)
    ensures Sound(Unused, capacity, now)
  {
  }

  lemma PhaseSees(buckets: map<IP, Bucket>, overall: Bucket, plain: Plain, kept: bool, allowed: seq<real>, passed: map<IP, seq<real>>, ip: IP,
                  perIP: int, burst: int, every: real, now: real)
    requires every > 0.0 && perIP > 0 && burst > 0 && PhaseValid(buckets, overall, plain, kept, allowed, perIP, burst, every, now)
    requires PhaseSeen(buckets, overall, plain, kept, allowed, passed, perIP, burst, every)
    ensures var (ok, more, o) := PhaseAllow(buckets, overall, ip, now, perIP, burst, every);
      var p := PlainAllow(plain, ip, now, perIP, burst, every).1;
      && PhaseSeen(more, o, p, kept && ip in more, if ok then allowed + [now] else allowed, Passes(buckets, passed, ip, now, perIP, every),
                   perIP, burst, every)
      && (ok ==> Room(allowed, now, burst, every))
      && (kept && ok ==> Room(At(passed, ip, []), now, perIP, every))
      && (!ok ==> !Room(At(passed, ip, []), now, perIP, every) || !Room(allowed, now, burst, every))
  {
    hide TakeToken, Agrees, Accounted, WindowBound, Sound, Filled, Room, AllFilled, AllAccounted, Stored;
    BucketSound(buckets, ip, perIP, now);
    var times, b := Passes(buckets, passed, ip, now, perIP, every)[ip], TakeToken(BucketOf(buckets, ip), now, perIP, every).1;
    FilledAt(buckets, passed, ip, perIP, every);
    OwnFilled(buckets, At(passed, ip, []), ip, now, perIP, every);
    FilledPut(buckets, passed, ip, times, b, perIP, every);
    TakeFilled(allowed, overall, now, burst, every);
    if TakeToken(overall, now, burst, every).0 {
      AllowedRoom(allowed, overall, now, burst, every);
    } else {
      RefusedFull(allowed, overall, now, burst, every);
    }
    if kept {
      TakeAgrees(buckets, plain.buckets, ip, perIP, every, now);
      AgreeSound(buckets, plain.buckets, ip, perIP, every, now);
      AccountedAt(plain.buckets, passed, ip, perIP, every);
      OwnAccounted(plain.buckets, passed, ip, now, perIP, every);
      AccountedPut(plain.buckets, passed, ip, times, b, perIP, every);
    }
  }

  lemma SweepSees(buckets: map<IP, Bucket>, overall: Bucket, plain: Plain, kept: bool, allowed: seq<real>, passed: map<IP, seq<real>>,
                  perIP: int, burst: int, every: real, now: real)
    requires every > 0.0 && PhaseSeen(buckets, overall, plain, kept, allowed, passed, perIP, burst, every)
    ensures PhaseSeen(Swept(buckets, IdleTTL(perIP, every), now), overall, plain, kept, allowed, passed, perIP, burst, every)
  {
    hide Filled, Accounted, IdleTTL;
  }

  lemma FilledAt(buckets: map<IP, Bucket>, passed: map<IP, seq<real>>, ip: IP, perIP: int, every: real)
    requires every > 0.0 && AllFilled(buckets, passed, perIP, every)
    ensures ip in buckets ==> Filled(At(passed, ip, []), buckets[ip], perIP, every)
  {
  }

  lemma AccountedAt(all: map<IP, Bucket>, passed: map<IP, seq<real>>, ip: IP, perIP: int, every: real)
    requires every > 0.0 && AllAccounted(all, passed, perIP, every)
    ensures passed.Keys <= all.Keys
    ensures ip in all ==> all[ip].Bucket? && Accounted(At(passed, ip, []), all[ip], perIP, every)
  {
  }

  lemma AgreeSound(buckets: map<IP, Bucket>, all: map<IP, Bucket>, ip: IP, capacity: int, every: real, now: real)
    requires Agrees(buckets, all, capacity, every, now)
    ensures ip in all ==> all[ip].Bucket? && Sound(all[ip], capacity, now)
  {
  }

  lemma BucketSound(buckets: map<IP, Bucket>, ip: IP, perIP: int, now: real)
    requires forall i | i in buckets :: buckets[i].Bucket? && Sound(buckets[i], perIP, now)
    ensures Sound(BucketOf(buckets, ip), perIP, now)
  {
  }

  lemma AgreeKeys(buckets: map<IP, Bucket>, all: map<IP, Bucket>, capacity: int, every: real, now: real)
    requires Agrees(buckets, all, capacity, every, now)
    ensures buckets.Keys <= all.Keys
  {
  }

  lemma Fewer(all: map<IP, Bucket>, ip: IP, b: Bucket)
    ensures |all| <= |all[ip := b]|
  {
    assert all[ip := b].Keys == all.Keys + {ip};
    Cardinal(all.Keys, all[ip := b].Keys);
  }

  class PairingRateLimiter {
    var ipStartBuckets: map<IP, Bucket>
    var ipDoneBuckets: map<IP, Bucket>
    var globalStart: Bucket
    var globalDone: Bucket
    const burstPerIP: int
    const globalBurst: int
    const startRefill: real
    const completeRefill: real
    var lastSweep: real
    // The time of the last request; limiters that never forget; and when something got through.
    ghost var clock: real
    ghost var plainStart: Plain
    ghost var plainDone: Plain
    ghost var keptStarts: bool
    ghost var keptDones: bool
    ghost var starts: seq<real>
    ghost var completions: seq<real>
    // When each address's own bucket let a request through, in each phase.
    ghost var startsBy: map<IP, seq<real>>
    ghost var completionsBy: map<IP, seq<real>>

    predicate Configured() {
      burstPerIP > 0 && globalBurst > 0 && startRefill > 0.0 && completeRefill > 0.0
    }

    ghost predicate ValidAt(now: real)
      reads this
    {
      && Configured()
      && PhaseValid(ipStartBuckets, globalStart, plainStart, keptStarts, starts, burstPerIP, globalBurst, startRefill, now)
      && PhaseValid(ipDoneBuckets, globalDone, plainDone, keptDones, completions, burstPerIP, globalBurst, completeRefill, now)
      && PhaseSeen(ipStartBuckets, globalStart, plainStart, keptStarts, starts, startsBy, burstPerIP, globalBurst, startRefill)
      && PhaseSeen(ipDoneBuckets, globalDone, plainDone, keptDones, completions, completionsBy, burstPerIP, globalBurst, completeRefill)
    }

    ghost predicate Valid()
      reads this
    {
      ValidAt(clock)
    }

    /** Settings that are not positive fall back to the defaults. */
    constructor (burstPerIP: int, globalBurst: int, startRefill: real, completeRefill: real, now: real)
      ensures Valid() && clock == now && starts == completions == [] && startsBy == completionsBy == map[]
    {
      this.burstPerIP := if burstPerIP <= 0 then 5 else burstPerIP;
      var burst := if globalBurst <= 0 then 30 else globalBurst;
      this.globalBurst := burst;
      this.startRefill := if startRefill <= 0.0 then 5.0 else startRefill;
      this.completeRefill := if completeRefill <= 0.0 then 2.0 else completeRefill;
      ipStartBuckets, ipDoneBuckets := map[], map[];
      globalStart, globalDone := Bucket(burst as real, now), Bucket(burst as real, now);
      lastSweep, clock := now, now;
      plainStart, plainDone := Plain(map[], Bucket(burst as real, now)), Plain(map[], Bucket(burst as real, now));
      starts, completions, keptStarts, keptDones := [], [], true, true;
      startsBy, completionsBy := map[], map[];
    }

    method SweepIdle(buckets: map<IP, Bucket>, ttl: real, now: real) returns (kept: map<IP, Bucket>)
      ensures kept == Swept(buckets, ttl, now)
      ensures ttl > 0.0 ==> forall ip :: ip in kept <==> ip in buckets && !(buckets[ip].Bucket? && now - buckets[ip].last >= ttl)
      ensures forall ip | ip in kept :: kept[ip] == buckets[ip]
    {
      kept := buckets;
      if ttl <= 0.0 {
        return;
      }
      var left := buckets.Keys;
      while left != {}
        invariant left <= buckets.Keys
        invariant kept == map ip | ip in buckets && (ip in left || buckets[ip].Unused? || now - buckets[ip].last < ttl) :: buckets[ip]
        decreases left
      {
        var ip :| ip in left;
        left := left - {ip};
        if kept[ip].Bucket? && now - kept[ip].last >= ttl {
          kept := kept - {ip};
        }
      }
    }

    method SweepBuckets(now: real)
      requires ValidAt(now)
      modifies this`ipStartBuckets, this`ipDoneBuckets
      ensures ValidAt(now)
    {
      hide PhaseValid, PhaseSeen, IdleTTL, Swept;
      SweepSees(ipStartBuckets, globalStart, plainStart, keptStarts, starts, startsBy, burstPerIP, globalBurst, startRefill, now);
      SweepSees(ipDoneBuckets, globalDone, plainDone, keptDones, completions, completionsBy, burstPerIP, globalBurst, completeRefill, now);
      PhaseSweeps(ipStartBuckets, globalStart, plainStart, keptStarts, starts, burstPerIP, globalBurst, startRefill, now, now);
      PhaseSweeps(ipDoneBuckets, globalDone, plainDone, keptDones, completions, burstPerIP, globalBurst, completeRefill, now, now);
      ipStartBuckets := SweepIdle(ipStartBuckets, IdleTTL(burstPerIP, startRefill), now);
      ipDoneBuckets := SweepIdle(ipDoneBuckets, IdleTTL(burstPerIP, completeRefill), now);
    }

    method MaybeSweep(now: real)
      requires Valid() && clock <= now
      modifies this`ipStartBuckets, this`ipDoneBuckets, this`lastSweep
      ensures ValidAt(now)
    {
      hide PhaseValid, PhaseSeen;
      PhaseSweeps(ipStartBuckets, globalStart, plainStart, keptStarts, starts, burstPerIP, globalBurst, startRefill, clock, now);
      PhaseSweeps(ipDoneBuckets, globalDone, plainDone, keptDones, completions, burstPerIP, globalBurst, completeRefill, clock, now);
      if now - lastSweep < SWEEP_EVERY {
        return;
      }
      lastSweep := now;
      SweepBuckets(now);
    }

    /** The address's bucket, and whether there is room to store it. */
    method LoadBucket(isStart: bool, ip: IP, now: real) returns (b: Bucket, store: bool)
      requires ValidAt(now)
      modifies this`ipStartBuckets, this`ipDoneBuckets
      ensures ValidAt(now)
      ensures var buckets := if isStart then ipStartBuckets else ipDoneBuckets;
        b == BucketOf(buckets, ip) && store == (ip in buckets || |buckets| < MAX_IP_BUCKETS)
    {
      hide PhaseValid, PhaseSeen;
      var buckets := if isStart then ipStartBuckets else ipDoneBuckets;
      if ip in buckets {
        return buckets[ip], true;
      }
      if |buckets| >= MAX_IP_BUCKETS {
        SweepBuckets(now);
        buckets := if isStart then ipStartBuckets else ipDoneBuckets;
        if ip in buckets {
          return buckets[ip], true;
        }
        if |buckets| >= MAX_IP_BUCKETS {
          return Unused, false;
        }
      }
      return Unused, true;
    }

    method AllowStart(ip: IP, now: real) returns (allowed: bool)
      requires ValidAt(now)
      modifies this`ipStartBuckets, this`ipDoneBuckets, this`globalStart, this`plainStart, this`keptStarts, this`starts, this`startsBy
      ensures ValidAt(now)
      ensures allowed ==> Room(old(starts), now, globalBurst, startRefill) && startsBy == old(startsBy)[ip := At(old(startsBy), ip, []) + [now]]
      ensures old(keptStarts) && allowed ==> Room(At(old(startsBy), ip, []), now, burstPerIP, startRefill)
      ensures !allowed ==>
        !Room(At(old(startsBy), ip, []), now, burstPerIP, startRefill) || !Room(old(starts), now, globalBurst, startRefill)
      ensures var times := At(old(startsBy), ip, []);
        startsBy == old(startsBy)[ip := times] || startsBy == old(startsBy)[ip := times + [now]]
      ensures old(keptStarts) ==> allowed == PlainAllow(old(plainStart), ip, now, burstPerIP, globalBurst, startRefill).0
      ensures keptStarts == (old(keptStarts) && ip in ipStartBuckets)
      ensures plainStart == PlainAllow(old(plainStart), ip, now, burstPerIP, globalBurst, startRefill).1
      ensures starts == if allowed then old(starts) + [now] else old(starts)
    {
      hide PhaseValid, PhaseSeen, Room, TakeToken, PlainAllow, BucketOf, Stored;
      var bucket, store := LoadBucket(true, ip, now);
      PhaseTakes(ipStartBuckets, globalStart, plainStart, keptStarts, starts, ip, burstPerIP, globalBurst, startRefill, now);
      PhaseSees(ipStartBuckets, globalStart, plainStart, keptStarts, starts, startsBy, ip, burstPerIP, globalBurst, startRefill, now);
      startsBy := Passes(ipStartBuckets, startsBy, ip, now, burstPerIP, startRefill);
      plainStart := PlainAllow(plainStart, ip, now, burstPerIP, globalBurst, startRefill).1;
      var (ok, used) := TakeToken(bucket, now, burstPerIP, startRefill);
      StoredIf(ipStartBuckets, ip, used, store);
      if store {
        ipStartBuckets := ipStartBuckets[ip := used];
      }
      keptStarts := keptStarts && ip in ipStartBuckets;
      if !ok {
        return false;
      }
      var (taken, left) := TakeToken(globalStart, now, globalBurst, startRefill);
      globalStart := left;
      if taken { starts := starts + [now]; }
      return taken;
    }

    method AllowCompletion(ip: IP, now: real) returns (allowed: bool)
      requires ValidAt(now)
      modifies this`ipStartBuckets, this`ipDoneBuckets, this`globalDone, this`plainDone, this`keptDones, this`completions, this`completionsBy
      ensures ValidAt(now)
      ensures allowed ==>
        Room(old(completions), now, globalBurst, completeRefill) && completionsBy == old(completionsBy)[ip := At(old(completionsBy), ip, []) + [now]]
      ensures old(keptDones) && allowed ==> Room(At(old(completionsBy), ip, []), now, burstPerIP, completeRefill)
      ensures !allowed ==>
        !Room(At(old(completionsBy), ip, []), now, burstPerIP, completeRefill) || !Room(old(completions), now, globalBurst, completeRefill)
      ensures var times := At(old(completionsBy), ip, []);
        completionsBy == old(completionsBy)[ip := times] || completionsBy == old(completionsBy)[ip := times + [now]]
      ensures old(keptDones) ==> allowed == PlainAllow(old(plainDone), ip, now, burstPerIP, globalBurst, completeRefill).0
      ensures keptDones == (old(keptDones) && ip in ipDoneBuckets)
      ensures plainDone == PlainAllow(old(plainDone), ip, now, burstPerIP, globalBurst, completeRefill).1
      ensures completions == if allowed then old(completions) + [now] else old(completions)
    {
      hide PhaseValid, PhaseSeen, Room, TakeToken, PlainAllow, BucketOf, Stored;
      var bucket, store := LoadBucket(false, ip, now);
      PhaseTakes(ipDoneBuckets, globalDone, plainDone, keptDones, completions, ip, burstPerIP, globalBurst, completeRefill, now);
      PhaseSees(ipDoneBuckets, globalDone, plainDone, keptDones, completions, completionsBy, ip, burstPerIP, globalBurst, completeRefill, now);
      completionsBy := Passes(ipDoneBuckets, completionsBy, ip, now, burstPerIP, completeRefill);
      plainDone := PlainAllow(plainDone, ip, now, burstPerIP, globalBurst, completeRefill).1;
      var (ok, used) := TakeToken(bucket, now, burstPerIP, completeRefill);
      StoredIf(ipDoneBuckets, ip, used, store);
      if store {
        ipDoneBuckets := ipDoneBuckets[ip := used];
      }
      keptDones := keptDones && ip in ipDoneBuckets;
      if !ok {
        return false;
      }
      var (taken, left) := TakeToken(globalDone, now, globalBurst, completeRefill);
      globalDone := left;
      if taken { completions := completions + [now]; }
      return taken;
    }

    /**
     * Lets a request through if its address and everybody together have a token left. As long as no request before
     * found its bucket unstored, the answer is that of a limiter that never forgets a bucket. A request is refused
     * only if some window that ends now was full, its address's or everybody's, and, as long as that holds, if it was.
     */
    method Allow(source: string, isStart: bool, now: real) returns (allowed: bool)
      requires Valid() && clock <= now
      modifies this
      ensures Valid() && clock == now
      ensures var ip := if source == "" then UNKNOWN else IP(source);
        if isStart then
          && (old(keptStarts) ==> allowed == PlainAllow(old(plainStart), ip, now, burstPerIP, globalBurst, startRefill).0)
          && (!allowed ==> !Room(At(old(startsBy), ip, []), now, burstPerIP, startRefill) || !Room(old(starts), now, globalBurst, startRefill))
          && (allowed ==> Room(old(starts), now, globalBurst, startRefill))
          && (old(keptStarts) && allowed ==> Room(At(old(startsBy), ip, []), now, burstPerIP, startRefill))
          && (startsBy == old(startsBy)[ip := At(old(startsBy), ip, []) + [now]] || (!allowed && startsBy == old(startsBy)[ip := At(old(startsBy), ip, [])]))
          && completionsBy == old(completionsBy)
          && keptStarts == (old(keptStarts) && ip in ipStartBuckets) && keptDones == old(keptDones)
          && plainStart == PlainAllow(old(plainStart), ip, now, burstPerIP, globalBurst, startRefill).1 && plainDone == old(plainDone)
          && starts == (if allowed then old(starts) + [now] else old(starts)) && completions == old(completions)
        else
          && (old(keptDones) ==> allowed == PlainAllow(old(plainDone), ip, now, burstPerIP, globalBurst, completeRefill).0)
          && (!allowed ==>
                !Room(At(old(completionsBy), ip, []), now, burstPerIP, completeRefill) || !Room(old(completions), now, globalBurst, completeRefill))
          && (allowed ==> Room(old(completions), now, globalBurst, completeRefill))
          && (old(keptDones) && allowed ==> Room(At(old(completionsBy), ip, []), now, burstPerIP, completeRefill))
          && (completionsBy == old(completionsBy)[ip := At(old(completionsBy), ip, []) + [now]]
              || (!allowed && completionsBy == old(completionsBy)[ip := At(old(completionsBy), ip, [])]))
          && startsBy == old(startsBy)
          && keptDones == (old(keptDones) && ip in ipDoneBuckets) && keptStarts == old(keptStarts)
          && plainDone == PlainAllow(old(plainDone), ip, now, burstPerIP, globalBurst, completeRefill).1 && plainStart == old(plainStart)
          && completions == (if allowed then old(completions) + [now] else old(completions)) && starts == old(starts)
    {
      hide PhaseValid, PhaseSeen, Room, TakeToken, PlainAllow, BucketOf;
      var ip := if source == "" then UNKNOWN else IP(source);
      MaybeSweep(now);
      clock := now;
      if isStart {
        allowed := AllowStart(ip, now);
      } else {
        allowed := AllowCompletion(ip, now);
      }
    }

    /** With no more addresses than are tracked, every request found its bucket stored. */
    lemma Tracked()
      requires Valid()
      ensures |plainStart.buckets| <= MAX_IP_BUCKETS ==> keptStarts
      ensures |plainDone.buckets| <= MAX_IP_BUCKETS ==> keptDones
    {
      hide WindowBound, Accounted, Agrees;
    }

    /** However many addresses there are, no window sees more starts or completions than the bound. */
    lemma Throttled()
      requires Valid()
      ensures WindowBound(starts, globalBurst, startRefill) && WindowBound(completions, globalBurst, completeRefill)
    {
      hide WindowBound, Accounted, Agrees;
    }
  }
}
