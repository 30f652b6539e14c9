/** The token bucket of a user and the expiry of its key (ratelimit.go), over exact numbers; times in milliseconds. */
module RateLimit {
  import opened Rows

  datatype Limits = Limits(rate: real, capacity: real)  // tokens a second; burst

  type Positive = l: Limits | l.rate > 0.0 && l.capacity > 0.0 witness Limits(5.0, 10.0)

  /** The constants the server uses. */
  const SERVER: Positive := Limits(5.0, 10.0)

  datatype Bucket = Bucket(tokens: real, lastRefill: int)

  function Min(a: real, b: real): real { if a <= b then a else b }

  function Ceil(x: real): int { if x == x.Floor as real then x.Floor else x.Floor + 1 }

  /** What accrues over some milliseconds. */
  function Refill(l: Positive, elapsed: int): real {
    elapsed as real / 1000.0 * l.rate
  }

  /** A missing key reads as a full bucket. */
  function Opened(l: Positive, seen: Option<Bucket>, now: int): Bucket {
    if seen.Some? then seen.value else Bucket(l.capacity, now)
  }

  function Level(l: Positive, b: Bucket, now: int): real {
    Min(l.capacity, b.tokens + Refill(l, now - b.lastRefill))
  }

  predicate Admits(l: Positive, b: Bucket, now: int) {
    Level(l, b, now) >= 1.0
  }

  /** An admission restarts the refill clock; a denial stores the refilled tokens and leaves the clock where it was. */
  function Called(l: Positive, b: Bucket, now: int): Bucket {
    if Admits(l, b, now) then Bucket(Level(l, b, now) - 1.0, now) else Bucket(Level(l, b, now), b.lastRefill)
  }

  /** The bucket as the next call finds it, for a key that never expires. */
  function Forever(l: Positive, calls: seq<int>): Option<Bucket> {
    if calls == [] then None
    else
      var now := calls[|calls| - 1];
      Some(Called(l, Opened(l, Forever(l, calls[..|calls| - 1]), now), now))
  }

  /** The lifetime `EXPIRE` gives the key at every call. */
  function Lifetime(l: Positive): int {
    (Ceil(l.capacity / l.rate) + 1) * 1000
  }

  datatype Key = Key(bucket: Bucket, expires: int)

  function Seen(key: Option<Key>, now: int): Option<Bucket> {
    if key.Some? && now <= key.value.expires then Some(key.value.bucket) else None
  }

  function Expiring(l: Positive, calls: seq<int>): Option<Key> {
    if calls == [] then None
    else
      var now := calls[|calls| - 1];
      var seen := Seen(Expiring(l, calls[..|calls| - 1]), now);
      Some(Key(Called(l, Opened(l, seen, now), now), now + Lifetime(l)))
  }

  /** The answer to the last call of a history, with and without expiry. */
  predicate Answer(l: Positive, calls: seq<int>)
    requires calls != []
  {
    var now := calls[|calls| - 1];
    Admits(l, Opened(l, Seen(Expiring(l, calls[..|calls| - 1]), now), now), now)
  }

  predicate AnswerForever(l: Positive, calls: seq<int>)
    requires calls != []
  {
    var now := calls[|calls| - 1];
    Admits(l, Opened(l, Forever(l, calls[..|calls| - 1]), now), now)
  }

  /** A clock that never runs backwards. */
  predicate Monotone(calls: seq<int>) {
    forall i, j :: 0 <= i <= j < |calls| ==> calls[i] <= calls[j]
  }

  // ----- Arithmetic of the refill -----

  lemma RefillAdds(l: Positive, a: int, b: int)
    ensures Refill(l, a + b) == Refill(l, a) + Refill(l, b)
  {
    assert (a + b) as real / 1000.0 == a as real / 1000.0 + b as real / 1000.0;
    Distributes(a as real / 1000.0, b as real / 1000.0, l.rate);
  }

  lemma Distributes(x: real, y: real, z: real)
    ensures (x + y) * z == x * z + y * z
  {
  }

  lemma RefillSign(l: Positive, a: int)
    ensures a >= 0 ==> Refill(l, a) >= 0.0
    ensures a > 0 ==> Refill(l, a) > 0.0
    ensures a == 0 ==> Refill(l, a) == 0.0
  {
    var x := a as real / 1000.0;
    assert a > 0 ==> x > 0.0;
    assert a == 0 ==> x == 0.0;
    if a > 0 { TimesPositive(x, l.rate); }
  }

  lemma TimesPositive(x: real, y: real)
    requires x > 0.0 && y > 0.0
    ensures x * y > 0.0
  {
  }

  /** A key that has expired would have been full again. */
  lemma LifetimeFills(l: Positive, elapsed: int)
    requires elapsed >= Lifetime(l)
    ensures Refill(l, elapsed) >= l.capacity
  {
    var seconds := Ceil(l.capacity / l.rate) + 1;
    assert seconds as real >= l.capacity / l.rate;
    var x := elapsed as real / 1000.0;
    assert x >= seconds as real;
    TimesMonotone(l.capacity / l.rate, x, l.rate);
    Quotient(l.capacity, l.rate);
  }

  lemma TimesMonotone(x: real, y: real, z: real)
    requires x <= y && z > 0.0
    ensures x * z <= y * z
  {
  }

  lemma Quotient(x: real, y: real)
    requires y > 0.0
    ensures x / y * y == x
  {
  }

  // ----- Tokens stay between 0 and the capacity -----

  predicate InRange(l: Positive, b: Bucket) {
    0.0 <= b.tokens <= l.capacity
  }

  lemma CalledInRange(l: Positive, b: Bucket, now: int)
    requires InRange(l, b) && b.lastRefill <= now
    ensures InRange(l, Called(l, b, now)) && Called(l, b, now).lastRefill <= now
  {
    RefillSign(l, now - b.lastRefill);
  }

  lemma {:induction false} ForeverInRange(l: Positive, calls: seq<int>)
    requires Monotone(calls) && calls != []
    ensures Forever(l, calls).Some? && InRange(l, Forever(l, calls).value)
    ensures Forever(l, calls).value.lastRefill <= calls[|calls| - 1]
  {
    var now := calls[|calls| - 1];
    if |calls| > 1 {
      ForeverInRange(l, calls[..|calls| - 1]);
    }
    CalledInRange(l, Opened(l, Forever(l, calls[..|calls| - 1]), now), now);
  }

  // ----- Expiry cannot be observed -----

  /** Same tokens; and the same refill clock, unless no call is ever admitted. */
  predicate Alike(l: Positive, a: Bucket, b: Bucket) {
    a.tokens == b.tokens && (a.lastRefill == b.lastRefill || (a.tokens == l.capacity && l.capacity < 1.0))
  }

  lemma AlikeCalls(l: Positive, a: Bucket, b: Bucket, now: int)
    requires Alike(l, a, b) && a.lastRefill <= now && b.lastRefill <= now
    ensures Admits(l, a, now) == Admits(l, b, now) && Alike(l, Called(l, a, now), Called(l, b, now))
  {
    RefillSign(l, now - a.lastRefill);
    RefillSign(l, now - b.lastRefill);
  }

  /** A bucket idle beyond its lifetime acts as a new one. */
  lemma IdleIsNew(l: Positive, b: Bucket, now: int)
    requires InRange(l, b) && now - b.lastRefill >= Lifetime(l)
    ensures Admits(l, b, now) == Admits(l, Bucket(l.capacity, now), now)
    ensures Alike(l, Called(l, b, now), Called(l, Bucket(l.capacity, now), now))
  {
    LifetimeFills(l, now - b.lastRefill);
    RefillSign(l, 0);
  }

  lemma {:induction false} ExpiringAlike(l: Positive, calls: seq<int>)
    requires Monotone(calls) && calls != []
    ensures Expiring(l, calls).Some? && Expiring(l, calls).value.expires == calls[|calls| - 1] + Lifetime(l)
    ensures Alike(l, Expiring(l, calls).value.bucket, Forever(l, calls).value)
    ensures Expiring(l, calls).value.bucket.lastRefill <= calls[|calls| - 1]
    ensures Answer(l, calls) == AnswerForever(l, calls)
  {
    var before, now := calls[..|calls| - 1], calls[|calls| - 1];
    RefillSign(l, 0);
    if before != [] {
      ExpiringAlike(l, before);
      ForeverInRange(l, before);
      assert before[|before| - 1] == calls[|calls| - 2] <= now;
      var key, b := Expiring(l, before).value, Forever(l, before).value;
      if now <= key.expires {
        AlikeCalls(l, key.bucket, b, now);
      } else {
        IdleIsNew(l, b, now);
      }
    }
  }

  /** Under a clock that never runs backwards, the key that expires gives the answers of one that never does, and its
      tokens stay between 0 and the capacity. */
  lemma ExpiryIsInvisible(l: Positive, calls: seq<int>)
    requires Monotone(calls) && calls != []
    ensures Answer(l, calls) == AnswerForever(l, calls)
    ensures InRange(l, Expiring(l, calls).value.bucket)
  {
    ExpiringAlike(l, calls);
    ForeverInRange(l, calls);
  }

  // ----- How many calls are admitted -----

  function Admitted(l: Positive, calls: seq<int>): nat {
    if calls == [] then 0
    else Admitted(l, calls[..|calls| - 1]) + (if AnswerForever(l, calls) then 1 else 0)
  }

  /** Milliseconds for which the bucket was credited: at every call, all of the time since the last admission. */
  function Credited(l: Positive, calls: seq<int>): int {
    if calls == [] then 0
    else
      var now := calls[|calls| - 1];
      Credited(l, calls[..|calls| - 1]) + (now - Opened(l, Forever(l, calls[..|calls| - 1]), now).lastRefill)
  }

  /** Tokens that did not fit into the bucket. */
  function Spilled(l: Positive, calls: seq<int>): real {
    if calls == [] then 0.0
    else
      var now := calls[|calls| - 1];
      var b := Opened(l, Forever(l, calls[..|calls| - 1]), now);
      Spilled(l, calls[..|calls| - 1]) + (b.tokens + Refill(l, now - b.lastRefill) - Level(l, b, now))
  }

  function Stored(l: Positive, calls: seq<int>): real {
    if calls == [] then l.capacity else Forever(l, calls).value.tokens
  }

  /** Tokens are conserved: one full bucket and the credited refill became admissions, spill and what is left. */
  lemma {:induction false} TokensConserved(l: Positive, calls: seq<int>)
    requires Monotone(calls)
    ensures Admitted(l, calls) as real + Stored(l, calls) + Spilled(l, calls) == l.capacity + Refill(l, Credited(l, calls))
    ensures Spilled(l, calls) >= 0.0
  {
    if calls == [] {
      RefillSign(l, 0);
    } else {
      var before, now := calls[..|calls| - 1], calls[|calls| - 1];
      var b := Opened(l, Forever(l, before), now);
      TokensConserved(l, before);
      RefillAdds(l, Credited(l, before), now - b.lastRefill);
      RefillSign(l, 0);
    }
  }

  /** Calls `from..` of a history were all admitted. */
  predicate AllAdmitted(l: Positive, calls: seq<int>, from: nat) {
    forall k :: from < k <= |calls| ==> Answer(l, calls[..k])
  }

  lemma AdmittedTokens(l: Positive, b: Bucket, now: int)
    requires Admits(l, b, now)
    ensures Called(l, b, now).lastRefill == now
    ensures Called(l, b, now).tokens <= b.tokens + Refill(l, now - b.lastRefill) - 1.0
    ensures Called(l, b, now).tokens <= l.capacity - 1.0
  {
  }

  lemma LastAdmitted(l: Positive, calls: seq<int>, from: nat)
    requires Monotone(calls) && from < |calls| && AllAdmitted(l, calls, from)
    ensures var now := calls[|calls| - 1];
            var b := Opened(l, Forever(l, calls[..|calls| - 1]), now);
            Admits(l, b, now) && Forever(l, calls) == Some(Called(l, b, now))
  {
    assert calls[..|calls|] == calls;
    assert Answer(l, calls[..|calls|]);
    ExpiringAlike(l, calls);
  }

  lemma EarlierAdmitted(l: Positive, calls: seq<int>, from: nat)
    requires Monotone(calls) && from < |calls| - 1 && AllAdmitted(l, calls, from)
    ensures Monotone(calls[..|calls| - 1]) && AllAdmitted(l, calls[..|calls| - 1], from)
  {
    var before := calls[..|calls| - 1];
    assert forall k :: from < k <= |before| ==> before[..k] == calls[..k];
  }

  /** After n consecutive admissions within T milliseconds: n + tokens <= capacity + rate * T. */
  lemma {:induction false} BurstTokens(l: Positive, calls: seq<int>, from: nat)
    requires Monotone(calls) && from < |calls| && AllAdmitted(l, calls, from)
    ensures Forever(l, calls).Some? && Forever(l, calls).value.lastRefill == calls[|calls| - 1]
    ensures (|calls| - from) as real + Forever(l, calls).value.tokens
            <= l.capacity + Refill(l, calls[|calls| - 1] - calls[from])
  {
    var before, now := calls[..|calls| - 1], calls[|calls| - 1];
    LastAdmitted(l, calls, from);
    AdmittedTokens(l, Opened(l, Forever(l, before), now), now);
    if from == |calls| - 1 {
      RefillSign(l, 0);
    } else {
      EarlierAdmitted(l, calls, from);
      BurstTokens(l, before, from);
      RefillAdds(l, before[|before| - 1] - calls[from], now - before[|before| - 1]);
    }
  }

  /** n consecutive admissions within T milliseconds: n <= capacity + rate * T, at any point of any history. */
  lemma BurstBound(l: Positive, calls: seq<int>, from: nat)
    requires Monotone(calls) && from < |calls| && AllAdmitted(l, calls, from)
    ensures (|calls| - from) as real <= l.capacity + Refill(l, calls[|calls| - 1] - calls[from])
  {
    BurstTokens(l, calls, from);
    ForeverInRange(l, calls);
  }

  // ----- What denials do -----

  function CalledAll(l: Positive, b: Bucket, calls: seq<int>): Bucket {
    if calls == [] then b else Called(l, CalledAll(l, b, calls[..|calls| - 1]), calls[|calls| - 1])
  }

  /** Every call was denied. */
  predicate AllDenied(l: Positive, b: Bucket, calls: seq<int>) {
    forall k :: 0 <= k < |calls| ==> !Admits(l, CalledAll(l, b, calls[..k]), calls[k])
  }

  function SumSince(t0: int, calls: seq<int>): int {
    if calls == [] then 0 else SumSince(t0, calls[..|calls| - 1]) + (calls[|calls| - 1] - t0)
  }

  lemma DeniedCall(l: Positive, b: Bucket, now: int)
    requires l.capacity >= 1.0 && !Admits(l, b, now)
    ensures Called(l, b, now) == Bucket(b.tokens + Refill(l, now - b.lastRefill), b.lastRefill)
  {
  }

  lemma EarlierDenied(l: Positive, b: Bucket, calls: seq<int>)
    requires calls != [] && AllDenied(l, b, calls)
    ensures AllDenied(l, b, calls[..|calls| - 1])
    ensures !Admits(l, CalledAll(l, b, calls[..|calls| - 1]), calls[|calls| - 1])
  {
    var before := calls[..|calls| - 1];
    assert forall k :: 0 <= k < |before| ==> before[..k] == calls[..k] && before[k] == calls[k];
  }

  /** Each denial credits all of the time since the last admission once more. */
  lemma {:induction false} DenialsAccumulate(l: Positive, b: Bucket, calls: seq<int>)
    requires l.capacity >= 1.0 && AllDenied(l, b, calls)
    ensures CalledAll(l, b, calls) == Bucket(b.tokens + Refill(l, SumSince(b.lastRefill, calls)), b.lastRefill)
  {
    if calls == [] {
      RefillSign(l, 0);
    } else {
      var before, now := calls[..|calls| - 1], calls[|calls| - 1];
      EarlierDenied(l, b, calls);
      DenialsAccumulate(l, b, before);
      RefillAdds(l, SumSince(b.lastRefill, before), now - b.lastRefill);
      DeniedCall(l, CalledAll(l, b, before), now);
    }
  }

  lemma {:induction false} SumSinceSign(t0: int, calls: seq<int>)
    requires forall k :: 0 <= k < |calls| ==> t0 <= calls[k]
    ensures SumSince(t0, calls) >= 0
    ensures SumSince(t0, calls) == 0 <==> forall k :: 0 <= k < |calls| ==> calls[k] == t0
  {
    if calls != [] {
      SumSinceSign(t0, calls[..|calls| - 1]);
    }
  }

  lemma ExtraTokens(l: Positive, b: Bucket, extra: real, now: int)
    requires extra >= 0.0
    ensures var more := Bucket(b.tokens + extra, b.lastRefill);
            && Level(l, more, now) >= Level(l, b, now)
            && (Level(l, more, now) == Level(l, b, now) <==> Level(l, b, now) == l.capacity || extra == 0.0)
  {
  }

  lemma DeniedExtra(l: Positive, b: Bucket, denied: seq<int>) returns (extra: real)
    requires l.capacity >= 1.0 && AllDenied(l, b, denied)
    requires forall k :: 0 <= k < |denied| ==> b.lastRefill <= denied[k]
    ensures extra >= 0.0 && CalledAll(l, b, denied) == Bucket(b.tokens + extra, b.lastRefill)
    ensures extra == 0.0 <==> forall k :: 0 <= k < |denied| ==> denied[k] == b.lastRefill
  {
    DenialsAccumulate(l, b, denied);
    SumSinceSign(b.lastRefill, denied);
    RefillSign(l, SumSince(b.lastRefill, denied));
    extra := Refill(l, SumSince(b.lastRefill, denied));
  }

  /** The textbook bucket ignores denied calls: from the last admission on, its level at `now` is that of `b`.
      The script is never below it, and is at it exactly if the bucket is full or all denials came at the very
      instant of the admission. */
  lemma DenialsNeverHurt(l: Positive, b: Bucket, denied: seq<int>, now: int)
    requires l.capacity >= 1.0 && AllDenied(l, b, denied)
    requires forall k :: 0 <= k < |denied| ==> b.lastRefill <= denied[k]
    ensures Admits(l, b, now) ==> Admits(l, CalledAll(l, b, denied), now)
    ensures Level(l, CalledAll(l, b, denied), now) >= Level(l, b, now)
    ensures Level(l, CalledAll(l, b, denied), now) == Level(l, b, now)
            <==> Level(l, b, now) == l.capacity || forall k :: 0 <= k < |denied| ==> denied[k] == b.lastRefill
  {
    var extra := DeniedExtra(l, b, denied);
    ExtraTokens(l, b, extra, now);
  }

  // ----- When the textbook bound holds -----

  /** When the last admitted call came; before any, when the first call came. */
  function LastAdmission(l: Positive, calls: seq<int>): int
    requires calls != []
  {
    if |calls| == 1 || AnswerForever(l, calls) then calls[|calls| - 1] else LastAdmission(l, calls[..|calls| - 1])
  }

  /** How long after the last admission the denied calls came, all together. */
  function Waited(l: Positive, calls: seq<int>): int {
    if |calls| <= 1 then 0
    else
      var before, now := calls[..|calls| - 1], calls[|calls| - 1];
      Waited(l, before) + (if AnswerForever(l, calls) then 0 else now - LastAdmission(l, before))
  }

  lemma {:induction false} RefillClock(l: Positive, calls: seq<int>)
    requires calls != []
    ensures Forever(l, calls).Some? && Forever(l, calls).value.lastRefill == LastAdmission(l, calls)
  {
    if |calls| > 1 {
      RefillClock(l, calls[..|calls| - 1]);
    }
  }

  /** In the times of the calls: the bucket is credited up to the last admission once, and for every denied call once
      more. */
  lemma {:induction false} CreditedTimes(l: Positive, calls: seq<int>)
    requires calls != []
    ensures Credited(l, calls) == LastAdmission(l, calls) - calls[0] + Waited(l, calls)
  {
    if |calls| == 1 {
      assert Credited(l, []) == 0;
    } else {
      var before := calls[..|calls| - 1];
      CreditedTimes(l, before);
      RefillClock(l, before);
    }
  }

  /** Time credited beyond the time that has passed since the first call. */
  function Surplus(l: Positive, calls: seq<int>): int
    requires calls != []
  {
    Waited(l, calls) - (calls[|calls| - 1] - LastAdmission(l, calls))
  }

  /** The textbook bound holds of a whole history exactly if the refill of the surplus time is still in the bucket or was
      spilled. */
  lemma TextbookBoundHoldsIff(l: Positive, calls: seq<int>)
    requires Monotone(calls) && calls != []
    ensures Admitted(l, calls) as real <= l.capacity + Refill(l, calls[|calls| - 1] - calls[0])
            <==> Refill(l, Surplus(l, calls)) <= Stored(l, calls) + Spilled(l, calls)
  {
    TokensConserved(l, calls);
    CreditedTimes(l, calls);
    RefillAdds(l, calls[|calls| - 1] - calls[0], Surplus(l, calls));
  }

  /** So every history without surplus keeps it. */
  lemma NoSurplusNoExcess(l: Positive, calls: seq<int>)
    requires Monotone(calls) && calls != [] && Surplus(l, calls) <= 0
    ensures Admitted(l, calls) as real <= l.capacity + Refill(l, calls[|calls| - 1] - calls[0])
  {
    TextbookBoundHoldsIff(l, calls);
    TokensConserved(l, calls);
    ForeverInRange(l, calls);
    RefillSign(l, -Surplus(l, calls));
    RefillAdds(l, Surplus(l, calls), -Surplus(l, calls));
    RefillSign(l, 0);
  }

  lemma CallCredits(l: Positive, b: Bucket, now: int)
    ensures (if Admits(l, b, now) then 1.0 else 0.0) + Called(l, b, now).tokens <= b.tokens + Refill(l, now - b.lastRefill)
    ensures (if Admits(l, b, now) then 1.0 else 0.0) + Called(l, b, now).tokens <= l.capacity
  {
  }

  /** What the last call of a history adds to its accounts. */
  lemma LastCallAccounts(l: Positive, calls: seq<int>)
    requires calls != []
    ensures var before, now := calls[..|calls| - 1], calls[|calls| - 1];
            var b := Opened(l, Forever(l, before), now);
            var one := Admitted(l, calls) - Admitted(l, before);
            && one as real + Stored(l, calls) <= b.tokens + Refill(l, now - b.lastRefill)
            && one as real + Stored(l, calls) <= l.capacity
            && Credited(l, calls) == Credited(l, before) + (now - b.lastRefill)
            && (before != [] ==> b.tokens == Stored(l, before))
  {
    CallCredits(l, Opened(l, Forever(l, calls[..|calls| - 1]), calls[|calls| - 1]), calls[|calls| - 1]);
  }

  /** Two stretches in a row. */
  lemma StretchesAdd(l: Positive, admitted: int, stored: real, credited: int, more: int, left: real, wait: int)
    requires admitted as real + stored <= l.capacity + Refill(l, credited)
    requires more as real + left <= stored + Refill(l, wait)
    ensures (admitted + more) as real + left <= l.capacity + Refill(l, credited + wait)
  {
    RefillAdds(l, credited, wait);
  }

  lemma StretchGrows(l: Positive, calls: seq<int>, from: nat)
    requires Monotone(calls) && from < |calls| - 1
    requires var before := calls[..|calls| - 1];
             (Admitted(l, before) - Admitted(l, before[..from])) as real + Stored(l, before)
             <= l.capacity + Refill(l, Credited(l, before) - Credited(l, before[..from + 1]))
    ensures (Admitted(l, calls) - Admitted(l, calls[..from])) as real + Stored(l, calls)
            <= l.capacity + Refill(l, Credited(l, calls) - Credited(l, calls[..from + 1]))
  {
    var before := calls[..|calls| - 1];
    LastCallAccounts(l, calls);
    assert before[..from] == calls[..from] && before[..from + 1] == calls[..from + 1];
    StretchesAdd(l, Admitted(l, before) - Admitted(l, before[..from]), Stored(l, before),
                 Credited(l, before) - Credited(l, before[..from + 1]),
                 Admitted(l, calls) - Admitted(l, before), Stored(l, calls), Credited(l, calls) - Credited(l, before));
  }

  /** Any stretch of calls, denials and all, from the one at position `from` on: its admissions and what is left then are
      covered by one full bucket and the time credited within it. */
  lemma {:induction false} StretchBound(l: Positive, calls: seq<int>, from: nat)
    requires Monotone(calls) && from < |calls|
    ensures (Admitted(l, calls) - Admitted(l, calls[..from])) as real + Stored(l, calls)
            <= l.capacity + Refill(l, Credited(l, calls) - Credited(l, calls[..from + 1]))
  {
    if from == |calls| - 1 {
      assert calls[..|calls|] == calls;
      LastCallAccounts(l, calls);
      RefillSign(l, 0);
    } else {
      StretchBound(l, calls[..|calls| - 1], from);
      StretchGrows(l, calls, from);
    }
  }

  /** The same in the times of the calls: between the admissions that end before and within the stretch, and for its
      denied calls once more. */
  lemma StretchTimes(l: Positive, calls: seq<int>, from: nat)
    requires Monotone(calls) && from < |calls|
    ensures var first := calls[..from + 1];
            Credited(l, calls) - Credited(l, first)
            == LastAdmission(l, calls) - LastAdmission(l, first) + Waited(l, calls) - Waited(l, first)
  {
    CreditedTimes(l, calls);
    CreditedTimes(l, calls[..from + 1]);
  }

  // ----- The textbook bound fails once a denial intervenes -----

  /** Eleven admissions in 150 ms from a bucket of ten that refills five a second. */
  const DENIED_ONCE: seq<int> := [0, 0, 0, 0, 0, 0, 0, 0, 0, 0, 100, 150]

  lemma {:induction false} BurstAtZero(n: nat)
    requires n <= 10
    ensures Forever(SERVER, seq(n, i => 0)) == if n == 0 then None else Some(Bucket(10.0 - n as real, 0))
    ensures Admitted(SERVER, seq(n, i => 0)) == n
  {
    if n > 0 {
      BurstAtZero(n - 1);
      assert seq(n, i => 0)[..n - 1] == seq(n - 1, i => 0);
    }
  }

  lemma TextbookBoundFails()
    ensures Monotone(DENIED_ONCE) && Admitted(SERVER, DENIED_ONCE) == 11
    ensures 11.0 > SERVER.capacity + Refill(SERVER, 150)
  {
    BurstAtZero(10);
    assert DENIED_ONCE[..10] == seq(10, i => 0);
    assert DENIED_ONCE[..11][..10] == DENIED_ONCE[..10];
    assert DENIED_ONCE[..12] == DENIED_ONCE && DENIED_ONCE[..11][10] == 100 && DENIED_ONCE[11] == 150;
    assert Forever(SERVER, DENIED_ONCE[..10]) == Some(Bucket(0.0, 0));
    assert Level(SERVER, Bucket(0.0, 0), 100) == 0.5;
    assert Forever(SERVER, DENIED_ONCE[..11]) == Some(Bucket(0.5, 0));
    assert Admitted(SERVER, DENIED_ONCE[..11]) == 10;
    assert Level(SERVER, Bucket(0.5, 0), 150) == 1.25;
  }

  // ----- The script -----

  /** One more call. */
  lemma CallOnce(l: Positive, calls: seq<int>, now: int)
    requires Monotone(calls) && (calls != [] ==> calls[|calls| - 1] <= now)
    ensures var b := Opened(l, Seen(Expiring(l, calls), now), now);
            && Monotone(calls + [now])
            && Expiring(l, calls + [now]) == Some(Key(Called(l, b, now), now + Lifetime(l)))
            && Answer(l, calls + [now]) == Admits(l, b, now)
            && InRange(l, Called(l, b, now))
  {
    assert (calls + [now])[..|calls|] == calls;
    assert Monotone(calls + [now]) by {
      forall i, j | 0 <= i <= j < |calls + [now]|
        ensures (calls + [now])[i] <= (calls + [now])[j]
      {
        if i < |calls| { assert calls[i] <= calls[|calls| - 1]; }
      }
    }
    ExpiryIsInvisible(l, calls + [now]);
  }

  class Limiter {
    const limits: Positive
    var tokens: Option<real>
    var lastRefill: int
    var expires: int
    ghost var calls: seq<int>

    ghost predicate Valid()
      reads this
    {
      Monotone(calls) && Expiring(limits, calls) == Held()
    }

    ghost function Held(): Option<Key>
      reads this
    {
      if tokens.Some? then Some(Key(Bucket(tokens.value, lastRefill), expires)) else None
    }

    constructor (limits: Positive)
      ensures Valid() && calls == [] && this.limits == limits
    {
      this.limits := limits;
      tokens := None;
      calls := [];
    }

    /** EXPIRE deletes the key when its time has passed; then the script reads, refills and decides. */
    method Allow(now: int) returns (allowed: bool)
      requires Valid() && (calls != [] ==> calls[|calls| - 1] <= now)
      modifies this
      ensures Valid() && calls == old(calls) + [now]
      ensures allowed == Answer(limits, calls)
      ensures tokens.Some? && 0.0 <= tokens.value <= limits.capacity && expires == now + Lifetime(limits)
    {
      CallOnce(limits, calls, now);
      if tokens.Some? && expires < now {
        tokens := None;
      }
      var held, since := limits.capacity, now;
      if tokens.Some? {
        held, since := tokens.value, lastRefill;
      }
      allowed, held, since := Decide(limits, held, since, now);
      tokens, lastRefill, expires := Some(held), since, now + Lifetime(limits);
      calls := calls + [now];
    }
  }

  /** Refill, and admit or deny: the tokens and the refill time to store. */
  method Decide(l: Positive, tokens: real, since: int, now: int) returns (allowed: bool, left: real, refilled: int)
    ensures allowed == Admits(l, Bucket(tokens, since), now)
    ensures Bucket(left, refilled) == Called(l, Bucket(tokens, since), now)
  {
    var level := Min(l.capacity, tokens + Refill(l, now - since));
    allowed := level >= 1.0;
    if allowed {
      left, refilled := level - 1.0, now;
    } else {
      left, refilled := level, since;
    }
  }
}
