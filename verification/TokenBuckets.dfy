/** The lazily refilled token bucket, over real-valued tokens and seconds, and the closed
    form of what it admits. */
module TokenBuckets {
  import opened Wrappers

  datatype Bucket = Bucket(rate: real, capacity: real, tokens: real, last: Option<real>)

  function Min(x: real, y: real): real { if x <= y then x else y }

  /** Elapsed time, saturating at zero when the clock went backwards. */
  function Since(last: real, now: real): real { if now >= last then now - last else 0.0 }

  function Full(rate: nat, burst: nat): Bucket {
    Bucket(rate as real, burst as real, burst as real, None)
  }

  function Refilled(b: Bucket, elapsed: real): real { elapsed * b.rate }

  /** The tokens on hand at `now`, refill included. */
  function Level(b: Bucket, now: real): real {
    if b.last.None? then b.tokens
    else Min(b.tokens + Refilled(b, Since(b.last.value, now)), b.capacity)
  }

  function Take(b: Bucket, now: real): (Bucket, bool) {
    var level := Level(b, now);
    if level >= 1.0 then (b.(tokens := level - 1.0, last := Some(now)), true)
    else (b.(tokens := level, last := Some(now)), false)
  }

  class TokenBucket {
    const ratePerSec: real
    const capacity: real
    var tokens: real
    var lastRefill: Option<real>

    constructor (rate: nat, burst: nat)
      ensures Value() == Full(rate, burst)
    {
      ratePerSec, capacity := rate as real, burst as real;
      tokens, lastRefill := burst as real, None;
    }

    function Value(): Bucket
      reads this
    {
      Bucket(ratePerSec, capacity, tokens, lastRefill)
    }

    method TryTake(now: real) returns (taken: bool)
      modifies this
      ensures (Value(), taken) == Take(old(Value()), now)
    {
      if lastRefill.Some? {
        var elapsed := Since(lastRefill.value, now);
        tokens := Min(tokens + elapsed * ratePerSec, capacity);
      }
      lastRefill := Some(now);
      if tokens >= 1.0 {
        tokens := tokens - 1.0;
        return true;
      }
      return false;
    }
  }

  /** A clock that stands still or goes back refills nothing, and is believed. */
  lemma BackwardsRefillsNothing(b: Bucket, now: real)
    requires b.last.Some? && now <= b.last.value && b.tokens <= b.capacity
    ensures Level(b, now) == b.tokens && Take(b, now).0.last == Some(now)
  {
    assert Refilled(b, 0.0) == 0.0;
  }

  // ---- a run of calls at the instants `ts` ----

  function After(b: Bucket, ts: seq<real>): Bucket {
    if ts == [] then b else Take(After(b, ts[..|ts| - 1]), ts[|ts| - 1]).0
  }

  /** The tokens call `j` finds, and whether it takes one. */
  function Found(b: Bucket, ts: seq<real>, j: nat): real
    requires j < |ts|
  {
    Level(After(b, ts[..j]), ts[j])
  }

  predicate Admitted(b: Bucket, ts: seq<real>, j: nat)
    requires j < |ts|
  {
    Found(b, ts, j) >= 1.0
  }

  /** Calls in [i, j) that took a token. */
  function Takes(b: Bucket, ts: seq<real>, i: nat, j: nat): nat
    requires i <= j <= |ts|
    decreases j
  {
    if i == j then 0 else Takes(b, ts, i, j - 1) + if Admitted(b, ts, j - 1) then 1 else 0
  }

  /** Forward motion of the clock from call i to call j. */
  function Elapsed(ts: seq<real>, i: nat, j: nat): real
    requires i <= j < |ts|
    decreases j
  {
    if i == j then 0.0 else Elapsed(ts, i, j - 1) + Since(ts[j - 1], ts[j])
  }

  /** Tokens refilled between calls i and j if none spilled over. */
  function Gain(b: Bucket, ts: seq<real>, i: nat, j: nat): real
    requires i <= j < |ts|
    decreases j
  {
    if i == j then 0.0 else Gain(b, ts, i, j - 1) + Refilled(b, Since(ts[j - 1], ts[j]))
  }

  /** The allowance call j would find if the bucket had last been full at call i. */
  function Allowance(b: Bucket, ts: seq<real>, i: nat, j: nat): real
    requires i <= j < |ts|
  {
    b.capacity + Gain(b, ts, i, j) - Takes(b, ts, i, j) as real
  }

  lemma Distribute(x: real, y: real, r: real)
    ensures (x + y) * r == x * r + y * r
  {
  }

  lemma {:induction false} AfterKeepsShape(b: Bucket, ts: seq<real>)
    ensures After(b, ts).rate == b.rate && After(b, ts).capacity == b.capacity
    ensures ts != [] ==> After(b, ts).last == Some(ts[|ts| - 1])
  {
    if ts != [] { AfterKeepsShape(b, ts[..|ts| - 1]); }
  }

  lemma FoundStep(b: Bucket, ts: seq<real>, j: nat)
    requires j + 1 < |ts|
    ensures Found(b, ts, j + 1) ==
            Min(Found(b, ts, j) - (if Admitted(b, ts, j) then 1.0 else 0.0) + Refilled(b, Since(ts[j], ts[j + 1])),
                b.capacity)
  {
    assert ts[..j + 1][..j] == ts[..j];
    AfterKeepsShape(b, ts[..j]);
    AfterKeepsShape(b, ts[..j + 1]);
  }

  lemma AllowanceStep(b: Bucket, ts: seq<real>, i: nat, j: nat)
    requires i <= j && j + 1 < |ts|
    ensures Allowance(b, ts, i, j + 1) ==
            Allowance(b, ts, i, j) - (if Admitted(b, ts, j) then 1.0 else 0.0) + Refilled(b, Since(ts[j], ts[j + 1]))
  {
  }

  /** Each gain is the elapsed time at the refill rate. */
  lemma {:induction false} GainIsElapsed(b: Bucket, ts: seq<real>, i: nat, j: nat)
    requires i <= j < |ts|
    ensures Gain(b, ts, i, j) == Elapsed(ts, i, j) * b.rate
    decreases j
  {
    if i < j {
      GainIsElapsed(b, ts, i, j - 1);
      Distribute(Elapsed(ts, i, j - 1), Since(ts[j - 1], ts[j]), b.rate);
    }
  }

  lemma {:induction false} FoundIsMinimum(b: Bucket, ts: seq<real>, j: nat)
    requires b.last.None? && b.tokens == b.capacity && j < |ts|
    ensures forall i :: 0 <= i <= j ==> Found(b, ts, j) <= Allowance(b, ts, i, j)
    ensures exists i :: 0 <= i <= j && Found(b, ts, j) == Allowance(b, ts, i, j)
  {
    assert Allowance(b, ts, j, j) == b.capacity;
    if j == 0 {
      assert ts[..0] == [];
    } else {
      FoundIsMinimum(b, ts, j - 1);
      FoundStep(b, ts, j - 1);
      forall i | 0 <= i <= j - 1 ensures Found(b, ts, j) <= Allowance(b, ts, i, j) {
        AllowanceStep(b, ts, i, j - 1);
      }
      var i :| 0 <= i <= j - 1 && Found(b, ts, j - 1) == Allowance(b, ts, i, j - 1);
      AllowanceStep(b, ts, i, j - 1);
      assert Found(b, ts, j) == Allowance(b, ts, i, j) || Found(b, ts, j) == Allowance(b, ts, j, j);
    }
  }

  /** burst + rate * elapsed since call i - takes since call i. */
  function Credit(rate: nat, burst: nat, ts: seq<real>, i: nat, j: nat): real
    requires i <= j < |ts|
  {
    burst as real + Elapsed(ts, i, j) * rate as real - Takes(Full(rate, burst), ts, i, j) as real
  }

  lemma CreditIsAllowance(rate: nat, burst: nat, ts: seq<real>, i: nat, j: nat)
    requires i <= j < |ts|
    ensures Credit(rate, burst, ts, i, j) == Allowance(Full(rate, burst), ts, i, j)
  {
    GainIsElapsed(Full(rate, burst), ts, i, j);
  }

  /** Closed form: the tokens a call finds are the minimum, over every earlier call, of the
      credit since that call. It needs no monotone clock. */
  lemma {:induction false} ClosedForm(rate: nat, burst: nat, ts: seq<real>, j: nat)
    requires j < |ts|
    ensures forall i :: 0 <= i <= j ==> Found(Full(rate, burst), ts, j) <= Credit(rate, burst, ts, i, j)
    ensures exists i :: 0 <= i <= j && Found(Full(rate, burst), ts, j) == Credit(rate, burst, ts, i, j)
  {
    var b := Full(rate, burst);
    FoundIsMinimum(b, ts, j);
    forall i | 0 <= i <= j ensures Found(b, ts, j) <= Credit(rate, burst, ts, i, j) {
      CreditIsAllowance(rate, burst, ts, i, j);
      assert Found(b, ts, j) <= Allowance(b, ts, i, j);
    }
    var i :| 0 <= i <= j && Found(b, ts, j) == Allowance(b, ts, i, j);
    CreditIsAllowance(rate, burst, ts, i, j);
  }

  lemma ScaleNonNegative(x: real, r: real)
    requires 0.0 <= x && 0.0 <= r
    ensures 0.0 <= x * r
  {
  }

  lemma {:induction false} GainGrows(b: Bucket, ts: seq<real>, i: nat, j: nat)
    requires i <= j < |ts| && 0.0 <= b.rate
    ensures 0.0 <= Gain(b, ts, i, j)
    ensures i < j ==> Gain(b, ts, i, j - 1) <= Gain(b, ts, i, j)
  {
    if i < j {
      GainGrows(b, ts, i, j - 1);
      ScaleNonNegative(Since(ts[j - 1], ts[j]), b.rate);
      assert 0.0 <= Refilled(b, Since(ts[j - 1], ts[j]));
    }
  }

  lemma {:induction false} TakesWithinGain(b: Bucket, ts: seq<real>, i: nat, j: nat)
    requires i <= j < |ts| && 0.0 <= b.rate && 0.0 <= b.capacity
    requires b.last.None? && b.tokens == b.capacity
    ensures Takes(b, ts, i, j + 1) as real <= b.capacity + Gain(b, ts, i, j)
    decreases j
  {
    GainGrows(b, ts, i, j);
    if Admitted(b, ts, j) {
      FoundIsMinimum(b, ts, j);
      assert Found(b, ts, j) <= Allowance(b, ts, i, j);
    } else if i < j {
      TakesWithinGain(b, ts, i, j - 1);
    } else {
      assert Takes(b, ts, i, i) == 0;
    }
  }

  /** burst + rate * elapsed, over the calls i..j. */
  function Cap(rate: nat, burst: nat, ts: seq<real>, i: nat, j: nat): real
    requires i <= j < |ts|
  {
    burst as real + Elapsed(ts, i, j) * rate as real
  }

  /** In every window of calls i..j the admissions are at most burst + rate * elapsed. */
  lemma {:induction false} WindowBound(rate: nat, burst: nat, ts: seq<real>, i: nat, j: nat)
    requires i <= j < |ts|
    ensures Takes(Full(rate, burst), ts, i, j + 1) as real <= Cap(rate, burst, ts, i, j)
  {
    TakesWithinGain(Full(rate, burst), ts, i, j);
    GainIsElapsed(Full(rate, burst), ts, i, j);
  }

  ghost predicate AllAdmitted(b: Bucket, ts: seq<real>, n: nat)
    requires n <= |ts|
  {
    forall k :: 0 <= k < n ==> Admitted(b, ts, k)
  }

  lemma {:induction false} TakesAll(b: Bucket, ts: seq<real>, i: nat, j: nat)
    requires i <= j <= |ts| && AllAdmitted(b, ts, j)
    ensures Takes(b, ts, i, j) == j - i
    decreases j
  {
    if i < j { TakesAll(b, ts, i, j - 1); }
  }

  ghost predicate WithinGain(b: Bucket, ts: seq<real>, i: nat, j: nat)
    requires i <= j < |ts|
  {
    (j - i + 1) as real <= b.capacity + Gain(b, ts, i, j)
  }

  lemma {:induction false} ConformingPrefix(b: Bucket, ts: seq<real>, n: nat)
    requires n <= |ts| && b.last.None? && b.tokens == b.capacity
    requires forall i, j :: 0 <= i <= j < n ==> WithinGain(b, ts, i, j)
    ensures AllAdmitted(b, ts, n)
  {
    if n > 0 {
      ConformingPrefix(b, ts, n - 1);
      FoundIsMinimum(b, ts, n - 1);
      var i :| 0 <= i <= n - 1 && Found(b, ts, n - 1) == Allowance(b, ts, i, n - 1);
      TakesAll(b, ts, i, n - 1);
      assert WithinGain(b, ts, i, n - 1);
    }
  }

  /** The window of calls i..j fits the burst plus what refills in it. */
  ghost predicate Conforms(rate: nat, burst: nat, ts: seq<real>, i: nat, j: nat)
    requires i <= j < |ts|
  {
    (j - i + 1) as real <= Cap(rate, burst, ts, i, j)
  }

  lemma ConformsIsWithinGain(rate: nat, burst: nat, ts: seq<real>, i: nat, j: nat)
    requires i <= j < |ts|
    ensures Conforms(rate, burst, ts, i, j) <==> WithinGain(Full(rate, burst), ts, i, j)
  {
    GainIsElapsed(Full(rate, burst), ts, i, j);
  }

  lemma AdmittedWithinGain(b: Bucket, ts: seq<real>, i: nat, j: nat)
    requires i <= j < |ts| && 0.0 <= b.rate && 0.0 <= b.capacity
    requires b.last.None? && b.tokens == b.capacity && AllAdmitted(b, ts, |ts|)
    ensures WithinGain(b, ts, i, j)
  {
    TakesAll(b, ts, i, j + 1);
    TakesWithinGain(b, ts, i, j);
  }

  /** A stream is admitted in full exactly when every window of it conforms. */
  lemma {:induction false} AdmittedInFull(rate: nat, burst: nat, ts: seq<real>)
    ensures AllAdmitted(Full(rate, burst), ts, |ts|) <==>
            forall i, j :: 0 <= i <= j < |ts| ==> Conforms(rate, burst, ts, i, j)
  {
    var b := Full(rate, burst);
    if AllAdmitted(b, ts, |ts|) {
      forall i, j | 0 <= i <= j < |ts| ensures Conforms(rate, burst, ts, i, j) {
        AdmittedWithinGain(b, ts, i, j);
        ConformsIsWithinGain(rate, burst, ts, i, j);
      }
    } else if forall i, j :: 0 <= i <= j < |ts| ==> Conforms(rate, burst, ts, i, j) {
      forall i, j | 0 <= i <= j < |ts| ensures WithinGain(b, ts, i, j) {
        ConformsIsWithinGain(rate, burst, ts, i, j);
      }
      ConformingPrefix(b, ts, |ts|);
    }
  }

  ghost predicate Monotone(ts: seq<real>) {
    forall k :: 0 < k < |ts| ==> ts[k - 1] <= ts[k]
  }

  /** Under a monotone clock the forward motion is the plain difference. */
  lemma {:induction false} MonotoneElapsed(ts: seq<real>, i: nat, j: nat)
    requires i <= j < |ts| && Monotone(ts)
    ensures Elapsed(ts, i, j) == ts[j] - ts[i]
  {
    if i < j { MonotoneElapsed(ts, i, j - 1); }
  }
}
