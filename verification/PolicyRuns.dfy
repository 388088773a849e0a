/** Whole runs of the uplink policy: what a dropped message leaves behind, and what the
    verdicts of one class depend on. */
module PolicyRuns {
  import opened Wrappers
  import opened Topics
  import opened TokenBuckets
  import opened Policy

  /** One lock scope on the policy. An admission pushes the message if it is to be buffered. */
  datatype Op =
    | Arrive(cls: UnsClass, connected: bool, now: real, item: Item)
    | PushFailed(item: Item)
    | PopOldest
    | PutBack(item: Item)

  datatype Outcome =
    | Verdict(verdict: UplinkVerdict, buffered: Option<EvtPush>)
    | Pushed(push: EvtPush)
    | Popped(item: Option<Item>)
    | Requeued(kept: bool)

  function Perform(p: PolicyState, op: Op): (r: (PolicyState, Outcome))
    requires WellFormed(p)
    ensures WellFormed(r.0)
  {
    match op
    case Arrive(c, connected, now, item) =>
      var (q, verdict) := Admission(p, c, connected, now);
      OperationsKeepBound(p, c, connected, now, item);
      OperationsKeepBound(q, c, connected, now, item);
      if verdict == Buffer then (Push(q, item).0, Verdict(Buffer, Some(Push(q, item).1)))
      else (q, Verdict(verdict, None))
    case PushFailed(item) =>
      OperationsKeepBound(p, Cmd, true, 0.0, item);
      (Push(p, item).0, Pushed(Push(p, item).1))
    case PopOldest => (Pop(p).0, Popped(Pop(p).1))
    case PutBack(item) => (Requeue(p, item).0, Requeued(Requeue(p, item).1))
  }

  function Outcomes(p: PolicyState, ops: seq<Op>): (r: seq<Outcome>)
    requires WellFormed(p)
    ensures |r| == |ops|
    decreases |ops|
  {
    if ops == [] then []
    else [Perform(p, ops[0]).1] + Outcomes(Perform(p, ops[0]).0, ops[1..])
  }

  function StateAfter(p: PolicyState, ops: seq<Op>): (r: PolicyState)
    requires WellFormed(p)
    ensures WellFormed(r)
    decreases |ops|
  {
    if ops == [] then p else Perform(StateAfter(p, ops[..|ops| - 1]), ops[|ops| - 1]).0
  }

  predicate IsDrop(o: Outcome) {
    o.Verdict? && o.verdict in {DropDisabled, DropDisconnected, DropRateCapped}
  }

  // ---- erasure ----

  function Keep<T>(items: seq<T>, keep: seq<bool>): seq<T>
    requires |items| == |keep|
  {
    if items == [] then []
    else (if keep[0] then [items[0]] else []) + Keep(items[1..], keep[1..])
  }

  /** The clock as of each operation: only admissions read it. */
  function Clock(t: real, op: Op): real { if op.Arrive? then op.now else t }

  predicate MonotoneFrom(t: real, ops: seq<Op>)
    decreases |ops|
  {
    ops == [] || (t <= Clock(t, ops[0]) && MonotoneFrom(Clock(t, ops[0]), ops[1..]))
  }

  ghost predicate SaneBucket(b: Bucket, t: real) {
    && 0.0 <= b.rate
    && b.tokens <= b.capacity
    && (b.last.None? ==> b.tokens == b.capacity)
    && (b.last.Some? ==> b.last.value <= t)
  }

  /** Two buckets that no call from `t` on can tell apart. */
  ghost predicate SimilarBuckets(b: Bucket, d: Bucket, t: real) {
    && b.rate == d.rate && b.capacity == d.capacity
    && SaneBucket(b, t) && SaneBucket(d, t)
    && Level(b, t) == Level(d, t)
  }

  lemma RefillSplits(b: Bucket, x: real, y: real)
    ensures Refilled(b, x + y) == Refilled(b, x) + Refilled(b, y)
  {
    Distribute(x, y, b.rate);
  }

  lemma RefillNonNegative(b: Bucket, x: real)
    requires 0.0 <= b.rate && 0.0 <= x
    ensures 0.0 <= Refilled(b, x)
  {
    ScaleNonNegative(x, b.rate);
  }

  /** Lazy refill composes: filling to `t` and then to `u` is filling to `u`. */
  lemma RefillComposes(b: Bucket, t: real, u: real)
    requires SaneBucket(b, t) && t <= u
    ensures Level(b, u) == Min(Level(b, t) + Refilled(b, u - t), b.capacity)
  {
    RefillNonNegative(b, u - t);
    if b.last.Some? {
      var last := b.last.value;
      RefillSplits(b, t - last, u - t);
      assert (t - last) + (u - t) == u - last;
    }
  }

  lemma SimilarLater(b: Bucket, d: Bucket, t: real, u: real)
    requires SimilarBuckets(b, d, t) && t <= u
    ensures SimilarBuckets(b, d, u)
  {
    RefillComposes(b, t, u);
    RefillComposes(d, t, u);
    assert Refilled(b, u - t) == Refilled(d, u - t);
  }

  lemma TakeKeepsSane(b: Bucket, t: real)
    requires SaneBucket(b, t)
    ensures SaneBucket(Take(b, t).0, t)
    ensures !Take(b, t).1 ==> Level(Take(b, t).0, t) == Level(b, t)
  {
    assert Refilled(b, 0.0) == 0.0;
    assert Level(b, t) <= b.capacity;
  }

  ghost predicate SimilarSlots(a: ClassState, b: ClassState, t: real) {
    && a.enabled == b.enabled
    && (a.bucket.None? <==> b.bucket.None?)
    && (a.bucket.Some? ==> SimilarBuckets(a.bucket.value, b.bucket.value, t))
  }

  ghost predicate Similar(p: PolicyState, q: PolicyState, t: real)
    requires WellFormed(p) && WellFormed(q)
  {
    && p.evtBuffer == q.evtBuffer && p.evtBufferMax == q.evtBufferMax
    && forall i :: 0 <= i < |POLICY_CLASSES| ==> SimilarSlots(p.classes[i], q.classes[i], t)
  }

  lemma SimilarStatesLater(p: PolicyState, q: PolicyState, t: real, u: real)
    requires WellFormed(p) && WellFormed(q) && Similar(p, q, t) && t <= u
    ensures Similar(p, q, u)
  {
    forall i | 0 <= i < |POLICY_CLASSES| ensures SimilarSlots(p.classes[i], q.classes[i], u) {
      if p.classes[i].bucket.Some? {
        SimilarLater(p.classes[i].bucket.value, q.classes[i].bucket.value, t, u);
      }
    }
  }

  /** Similar buckets answer alike, and one that refuses stays similar to one not asked. */
  lemma TakeSimilar(b: Bucket, d: Bucket, now: real)
    requires SimilarBuckets(b, d, now)
    ensures Take(b, now).1 == Take(d, now).1
    ensures SimilarBuckets(Take(b, now).0, Take(d, now).0, now)
    ensures !Take(b, now).1 ==> SimilarBuckets(Take(b, now).0, d, now)
  {
    TakeKeepsSane(b, now);
    TakeKeepsSane(d, now);
  }

  lemma AdmissionSimilar(p: PolicyState, q: PolicyState, c: UnsClass, connected: bool, now: real)
    requires WellFormed(p) && WellFormed(q) && Similar(p, q, now)
    ensures Admission(p, c, connected, now).1 == Admission(q, c, connected, now).1
    ensures Similar(Admission(p, c, connected, now).0, Admission(q, c, connected, now).0, now)
    ensures Admission(p, c, connected, now).1 == DropRateCapped ==>
              Similar(Admission(p, c, connected, now).0, q, now)
  {
    if c != Cmd {
      var i := ClassIndex(c).value;
      assert SimilarSlots(p.classes[i], q.classes[i], now);
      if p.classes[i].bucket.Some? {
        TakeSimilar(p.classes[i].bucket.value, q.classes[i].bucket.value, now);
      }
    }
  }

  lemma PerformSimilar(p: PolicyState, q: PolicyState, t: real, op: Op)
    requires WellFormed(p) && WellFormed(q) && Similar(p, q, t) && t <= Clock(t, op)
    ensures Perform(p, op).1 == Perform(q, op).1
    ensures Similar(Perform(p, op).0, Perform(q, op).0, Clock(t, op))
    ensures IsDrop(Perform(p, op).1) ==> Similar(Perform(p, op).0, q, Clock(t, op))
  {
    SimilarStatesLater(p, q, t, Clock(t, op));
    if op.Arrive? {
      AdmissionSimilar(p, q, op.cls, op.connected, op.now);
    }
  }

  lemma KeepHead<T>(items: seq<T>, keep: seq<bool>)
    requires items != [] && |items| == |keep|
    ensures Keep(items, keep) == (if keep[0] then [items[0]] else []) + Keep(items[1..], keep[1..])
  {
  }

  lemma {:induction false} KeepLast<T>(items: seq<T>, keep: seq<bool>)
    requires items != [] && |items| == |keep|
    ensures var n := |items| - 1;
            Keep(items, keep) == Keep(items[..n], keep[..n]) + if keep[n] then [items[n]] else []
    decreases |items|
  {
    var n := |items| - 1;
    if n > 0 {
      KeepLast(items[1..], keep[1..]);
      assert items[1..][..n - 1] == items[..n][1..] && keep[1..][..n - 1] == keep[..n][1..];
    }
  }

  lemma {:induction false} EraseFrom(p: PolicyState, q: PolicyState, t: real, ops: seq<Op>, keep: seq<bool>)
    requires WellFormed(p) && WellFormed(q) && Similar(p, q, t)
    requires |keep| == |ops| && MonotoneFrom(t, ops)
    requires forall i :: 0 <= i < |ops| && !keep[i] ==> IsDrop(Outcomes(p, ops)[i])
    ensures Outcomes(q, Keep(ops, keep)) == Keep(Outcomes(p, ops), keep)
    decreases |ops|
  {
    if ops != [] {
      var op := ops[0];
      PerformSimilar(p, q, t, op);
      var p' := Perform(p, op).0;
      var q' := if keep[0] then Perform(q, op).0 else q;
      assert Outcomes(p, ops)[1..] == Outcomes(p', ops[1..]);
      forall i | 0 <= i < |ops[1..]| && !keep[1..][i] ensures IsDrop(Outcomes(p', ops[1..])[i]) {
        assert Outcomes(p, ops)[i + 1] == Outcomes(p', ops[1..])[i];
      }
      EraseFrom(p', q', Clock(t, op), ops[1..], keep[1..]);
      KeepHead(ops, keep);
      KeepHead(Outcomes(p, ops), keep);
      if keep[0] {
        assert Keep(ops, keep)[1..] == Keep(ops[1..], keep[1..]);
      } else {
        assert Keep(ops, keep) == Keep(ops[1..], keep[1..]);
      }
    }
  }

  lemma ConfiguredIsSelfSimilar(cfg: UplinkConfig, t: real)
    ensures Similar(Configured(cfg), Configured(cfg), t)
  {
  }

  /** Erasure: under a monotone clock, deleting from a run any messages the policy dropped
      (disabled, disconnected or rate-capped) changes no other outcome. */
  lemma ErasingDropsChangesNothing(cfg: UplinkConfig, t: real, ops: seq<Op>, keep: seq<bool>)
    requires |keep| == |ops| && MonotoneFrom(t, ops)
    requires forall i :: 0 <= i < |ops| && !keep[i] ==> IsDrop(Outcomes(Configured(cfg), ops)[i])
    ensures Outcomes(Configured(cfg), Keep(ops, keep)) == Keep(Outcomes(Configured(cfg), ops), keep)
  {
    ConfiguredIsSelfSimilar(cfg, t);
    EraseFrom(Configured(cfg), Configured(cfg), t, ops, keep);
  }

  // ---- non-interference ----

  /** The instants at which messages of class `c` arrived with the link up. */
  function ArrivalTimes(ops: seq<Op>, c: UnsClass): seq<real> {
    if ops == [] then []
    else
      var op := ops[|ops| - 1];
      ArrivalTimes(ops[..|ops| - 1], c) + if op.Arrive? && op.cls == c && op.connected then [op.now] else []
  }

  /** One operation on a slot other than `evt`'s: only a connected arrival of an enabled,
      capped class moves it, and then by one take from its bucket. */
  lemma SlotStep(p: PolicyState, op: Op, c: UnsClass)
    requires WellFormed(p) && c != Evt && c != Cmd
    ensures var i := ClassIndex(c).value;
            Perform(p, op).0.classes[i] ==
              if op.Arrive? && op.cls == c && op.connected && p.classes[i].enabled && p.classes[i].bucket.Some?
              then p.classes[i].(bucket := Some(Take(p.classes[i].bucket.value, op.now).0))
              else p.classes[i]
  {
  }

  /** The slot of a class other than `evt` is its own connected arrivals run through its
      own bucket, whatever else happened. */
  lemma {:induction false} SlotFollowsOwnArrivals(p: PolicyState, ops: seq<Op>, c: UnsClass)
    requires WellFormed(p) && c != Evt && c != Cmd
    ensures var i := ClassIndex(c).value;
            StateAfter(p, ops).classes[i] ==
              if p.classes[i].enabled && p.classes[i].bucket.Some?
              then p.classes[i].(bucket := Some(After(p.classes[i].bucket.value, ArrivalTimes(ops, c))))
              else p.classes[i]
    decreases |ops|
  {
    if ops != [] {
      var front, op := ops[..|ops| - 1], ops[|ops| - 1];
      SlotFollowsOwnArrivals(p, front, c);
      SlotStep(StateAfter(p, front), op, c);
      var ts := ArrivalTimes(front, c);
      if op.Arrive? && op.cls == c && op.connected {
        assert (ts + [op.now])[..|ts|] == ts;
      } else {
        assert ts + [] == ts;
      }
    }
  }

  /** What the policy says of one arrival of a class other than `evt`: a function of the
      class's own configuration and own earlier connected arrivals, and of nothing else. */
  function OwnVerdict(cfg: UplinkConfig, c: UnsClass, earlier: seq<real>, connected: bool, now: real): UplinkVerdict
    requires c != Evt && c != Cmd
  {
    var slot := Configured(cfg).classes[ClassIndex(c).value];
    if !slot.enabled then DropDisabled
    else if !connected then DropDisconnected
    else if slot.bucket.None? || Admitted(slot.bucket.value, earlier + [now], |earlier|) then Forward
    else DropRateCapped
  }

  /** Non-interference, in every run and with any clock. */
  lemma VerdictsAreOwn(cfg: UplinkConfig, ops: seq<Op>, c: UnsClass, connected: bool, now: real, item: Item)
    requires c != Evt && c != Cmd
    ensures Perform(StateAfter(Configured(cfg), ops), Arrive(c, connected, now, item)).1 ==
            Verdict(OwnVerdict(cfg, c, ArrivalTimes(ops, c), connected, now), None)
  {
    SlotFollowsOwnArrivals(Configured(cfg), ops, c);
    var ts := ArrivalTimes(ops, c);
    assert (ts + [now])[..|ts|] == ts;
  }

  // ---- the cap, `evt` included ----

  /** The verdicts of a message that went to the bucket, or past it for lack of one. */
  predicate Metered(op: Op, o: Outcome, c: UnsClass) {
    op.Arrive? && op.cls == c && o in {Verdict(Forward, None), Verdict(DropRateCapped, None)}
  }

  /** The instants of the metered messages of class `c`. A buffered `evt` is not one. */
  function MeteredTimes(p: PolicyState, ops: seq<Op>, c: UnsClass): seq<real>
    requires WellFormed(p)
    decreases |ops|
  {
    if ops == [] then []
    else
      var front, op := ops[..|ops| - 1], ops[|ops| - 1];
      MeteredTimes(p, front, c) + if Metered(op, Perform(StateAfter(p, front), op).1, c) then [op.now] else []
  }

  /** One operation on any slot: exactly a metered message takes from the bucket. */
  lemma MeteredStep(p: PolicyState, op: Op, c: UnsClass)
    requires WellFormed(p) && c != Cmd
    ensures var slot := p.classes[ClassIndex(c).value];
            var after := Perform(p, op).0.classes[ClassIndex(c).value];
            var metered := Metered(op, Perform(p, op).1, c);
            && (metered ==> slot.enabled && op.connected)
            && (slot.bucket.Some? && metered ==>
                  && after == slot.(bucket := Some(Take(slot.bucket.value, op.now).0))
                  && Perform(p, op).1.verdict ==
                     (if Level(slot.bucket.value, op.now) >= 1.0 then Forward else DropRateCapped))
            && (slot.bucket.None? || !metered ==> after == slot)
  {
  }

  /** The slot of any class is its metered messages run through its bucket: a message
      buffered, or dropped for the link or the switch, spends no token. */
  lemma {:induction false} SlotFollowsMetered(p: PolicyState, ops: seq<Op>, c: UnsClass)
    requires WellFormed(p) && c != Cmd
    ensures var slot := p.classes[ClassIndex(c).value];
            StateAfter(p, ops).classes[ClassIndex(c).value] ==
              if slot.bucket.None? then slot
              else slot.(bucket := Some(After(slot.bucket.value, MeteredTimes(p, ops, c))))
    decreases |ops|
  {
    if ops != [] {
      var front, op := ops[..|ops| - 1], ops[|ops| - 1];
      SlotFollowsMetered(p, front, c);
      MeteredStep(StateAfter(p, front), op, c);
      var ts := MeteredTimes(p, front, c);
      if Metered(op, Perform(StateAfter(p, front), op).1, c) {
        assert (ts + [op.now])[..|ts|] == ts;
      } else {
        assert ts + [] == ts;
      }
    }
  }

  lemma {:induction false} BoundStays(p: PolicyState, ops: seq<Op>)
    requires WellFormed(p)
    ensures StateAfter(p, ops).evtBufferMax == p.evtBufferMax
    decreases |ops|
  {
    if ops != [] { BoundStays(p, ops[..|ops| - 1]); }
  }

  /** The verdict on an `evt`, exactly, in every run and with any clock: from its switch, the
      link, the buffer, and its bucket run over the metered messages so far. */
  lemma EvtVerdictExactly(cfg: UplinkConfig, ops: seq<Op>, connected: bool, now: real, item: Item)
    ensures var p, q := Configured(cfg), StateAfter(Configured(cfg), ops);
            var slot, ts := p.classes[ClassIndex(Evt).value], MeteredTimes(p, ops, Evt);
            var queued := p.evtBufferMax > 0 && (!connected || q.evtBuffer != []);
            var pays := slot.bucket.None? || Admitted(slot.bucket.value, ts + [now], |ts|);
            var outcome := Perform(q, Arrive(Evt, connected, now, item)).1;
            && outcome.Verdict?
            && (outcome.verdict == DropDisabled <==> !slot.enabled)
            && (outcome.verdict == Buffer <==> slot.enabled && queued)
            && (outcome.verdict == DropDisconnected <==> slot.enabled && !queued && !connected)
            && (outcome.verdict == Forward <==> slot.enabled && !queued && connected && pays)
            && (outcome.verdict == DropRateCapped <==> slot.enabled && !queued && connected && !pays)
  {
    var ts := MeteredTimes(Configured(cfg), ops, Evt);
    SlotFollowsMetered(Configured(cfg), ops, Evt);
    BoundStays(Configured(cfg), ops);
    assert (ts + [now])[..|ts|] == ts;
  }

  /** Messages of class `c` forwarded live by the operations from position `from` on. */
  function Forwards(p: PolicyState, ops: seq<Op>, from: nat, c: UnsClass): nat
    requires WellFormed(p) && from <= |ops|
    decreases |ops|
  {
    if |ops| == from then 0
    else
      var front, op := ops[..|ops| - 1], ops[|ops| - 1];
      var outcome := Perform(StateAfter(p, front), op).1;
      Forwards(p, front, from, c) +
      if op.Arrive? && op.cls == c && outcome == Verdict(Forward, None) then 1 else 0
  }

  lemma {:induction false} TakesOfPrefix(b: Bucket, ts: seq<real>, t: real, i: nat, j: nat)
    requires i <= j <= |ts|
    ensures Takes(b, ts + [t], i, j) == Takes(b, ts, i, j)
    decreases j
  {
    if i < j {
      TakesOfPrefix(b, ts, t, i, j - 1);
      assert (ts + [t])[..j - 1] == ts[..j - 1];
    }
  }

  /** A metered message is forwarded exactly when the run of metered messages admits it. */
  lemma MeteredIsTake(p: PolicyState, front: seq<Op>, op: Op, c: UnsClass)
    requires WellFormed(p) && c != Cmd && p.classes[ClassIndex(c).value].bucket.Some?
    requires Metered(op, Perform(StateAfter(p, front), op).1, c)
    ensures var ts := MeteredTimes(p, front, c);
            Perform(StateAfter(p, front), op).1 == Verdict(Forward, None) <==>
            Admitted(p.classes[ClassIndex(c).value].bucket.value, ts + [op.now], |ts|)
  {
    var ts := MeteredTimes(p, front, c);
    SlotFollowsMetered(p, front, c);
    MeteredStep(StateAfter(p, front), op, c);
    assert (ts + [op.now])[..|ts|] == ts;
  }

  /** Both counts after one more operation. */
  lemma OneMore(p: PolicyState, front: seq<Op>, op: Op, from: nat, c: UnsClass) returns (metered: bool, taken: bool)
    requires WellFormed(p) && from <= |front|
    requires c != Cmd && p.classes[ClassIndex(c).value].bucket.Some?
    ensures metered ==> op.Arrive?
    ensures MeteredTimes(p, front + [op], c) == MeteredTimes(p, front, c) + if metered then [op.now] else []
    ensures Forwards(p, front + [op], from, c) == Forwards(p, front, from, c) + if taken then 1 else 0
    ensures taken <==>
            && metered
            && Admitted(p.classes[ClassIndex(c).value].bucket.value,
                        MeteredTimes(p, front, c) + [op.now], |MeteredTimes(p, front, c)|)
  {
    assert (front + [op])[..|front|] == front;
    var o := Perform(StateAfter(p, front), op).1;
    metered := Metered(op, o, c);
    taken := metered && o == Verdict(Forward, None);
    if metered { MeteredIsTake(p, front, op, c); }
  }

  lemma TakesExtend(b: Bucket, ts: seq<real>, t: real, i: nat)
    requires i <= |ts|
    ensures Takes(b, ts + [t], i, |ts| + 1) == Takes(b, ts, i, |ts|) + if Admitted(b, ts + [t], |ts|) then 1 else 0
  {
    TakesOfPrefix(b, ts, t, i, |ts|);
  }

  ghost predicate ForwardsMatch(p: PolicyState, ops: seq<Op>, from: nat, c: UnsClass)
    requires WellFormed(p) && c != Cmd && from <= |ops|
    requires p.classes[ClassIndex(c).value].bucket.Some?
  {
    var ts, start := MeteredTimes(p, ops, c), |MeteredTimes(p, ops[..from], c)|;
    start <= |ts| && Forwards(p, ops, from, c) == Takes(p.classes[ClassIndex(c).value].bucket.value, ts, start, |ts|)
  }

  lemma MatchGrows(b: Bucket, ts: seq<real>, us: seq<real>, start: nat, t: real, metered: bool, taken: bool)
    requires start <= |ts| && us == ts + (if metered then [t] else [])
    requires taken <==> metered && Admitted(b, ts + [t], |ts|)
    ensures Takes(b, us, start, |us|) == Takes(b, ts, start, |ts|) + if taken then 1 else 0
  {
    if metered {
      TakesExtend(b, ts, t, start);
    } else {
      assert us == ts;
    }
  }

  lemma ForwardsMatchOneMore(p: PolicyState, front: seq<Op>, op: Op, from: nat, c: UnsClass)
    requires WellFormed(p) && c != Cmd && from <= |front|
    requires p.classes[ClassIndex(c).value].bucket.Some?
    requires ForwardsMatch(p, front, from, c)
    ensures ForwardsMatch(p, front + [op], from, c)
  {
    var metered, taken := OneMore(p, front, op, from, c);
    assert (front + [op])[..from] == front[..from];
    MatchGrows(p.classes[ClassIndex(c).value].bucket.value, MeteredTimes(p, front, c), MeteredTimes(p, front + [op], c),
               |MeteredTimes(p, front[..from], c)|, if metered then op.now else 0.0, metered, taken);
  }

  /** Over any stretch of any run the live forwards are the tokens taken. */
  lemma {:induction false} ForwardsAreTakes(p: PolicyState, ops: seq<Op>, from: nat, c: UnsClass)
    requires WellFormed(p) && c != Cmd && from <= |ops|
    requires p.classes[ClassIndex(c).value].bucket.Some?
    ensures ForwardsMatch(p, ops, from, c)
    decreases |ops|
  {
    if |ops| == from {
      assert ops[..from] == ops;
    } else {
      var front, op := ops[..|ops| - 1], ops[|ops| - 1];
      ForwardsAreTakes(p, front, from, c);
      ForwardsMatchOneMore(p, front, op, from, c);
      assert ops == front + [op];
    }
  }

  lemma TakesWithinCap(cfg: UplinkConfig, c: UnsClass, ts: seq<real>, i: nat)
    requires c != Cmd && Lookup(cfg, c).maxRatePerSec.Some? && i < |ts|
    ensures var p, bucket := Lookup(cfg, c), Configured(cfg).classes[ClassIndex(c).value].bucket;
            && bucket.Some?
            && Takes(bucket.value, ts, i, |ts|) as real <= Cap(p.maxRatePerSec.value, Burst(p), ts, i, |ts| - 1)
  {
    var p := Lookup(cfg, c);
    assert Configured(cfg).classes[ClassIndex(c).value].bucket == Some(Full(p.maxRatePerSec.value, Burst(p)));
    WindowBound(p.maxRatePerSec.value, Burst(p), ts, i, |ts| - 1);
  }

  /** The cap, over any stretch of any run and for every class: live forwards number at
      most burst + rate * (time from the first to the last metered message in the stretch). */
  lemma ForwardsWithinCap(cfg: UplinkConfig, ops: seq<Op>, from: nat, c: UnsClass)
    requires c != Cmd && from <= |ops|
    requires Lookup(cfg, c).maxRatePerSec.Some?
    requires |MeteredTimes(Configured(cfg), ops[..from], c)| < |MeteredTimes(Configured(cfg), ops, c)|
    ensures var p, ts := Lookup(cfg, c), MeteredTimes(Configured(cfg), ops, c);
            Forwards(Configured(cfg), ops, from, c) as real <=
              Cap(p.maxRatePerSec.value, Burst(p), ts, |MeteredTimes(Configured(cfg), ops[..from], c)|, |ts| - 1)
  {
    TakesWithinCap(cfg, c, MeteredTimes(Configured(cfg), ops, c), |MeteredTimes(Configured(cfg), ops[..from], c)|);
    ForwardsAreTakes(Configured(cfg), ops, from, c);
  }
}
