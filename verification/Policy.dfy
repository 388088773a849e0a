/** The uplink policy: per-class enables and rate caps, and the bounded drop-oldest
    `evt` replay buffer. The class is the code; the value functions specify it. */
module Policy {
  import opened Wrappers
  import opened Topics
  import opened Messages
  import opened TokenBuckets

  datatype UplinkVerdict = Forward | DropDisabled | DropDisconnected | DropRateCapped | Buffer

  datatype EvtPush = Stored(evictedOldest: bool) | Rejected

  datatype Item = Item(topic: string, bytes: Bytes)

  datatype ClassState = ClassState(enabled: bool, bucket: Option<Bucket>)

  datatype PolicyState = PolicyState(classes: seq<ClassState>, evtBuffer: seq<Item>, evtBufferMax: nat)

  const POLICY_CLASSES: seq<UnsClass> := [State, Cfg, Evt, Metric, Data, Log, App]
  const DEFAULT_EVT_BUFFER_MAX: nat := 1000
  const U32_MAX: nat := 0xFFFF_FFFF

  /** The policy slot of a class; `cmd` has none. */
  function ClassIndex(c: UnsClass): (r: Option<nat>)
    ensures r.None? <==> c == Cmd
    ensures r.Some? ==> r.value < |POLICY_CLASSES| && POLICY_CLASSES[r.value] == c
  {
    match c
    case State => Some(0)
    case Cfg => Some(1)
    case Evt => Some(2)
    case Metric => Some(3)
    case Data => Some(4)
    case Log => Some(5)
    case App => Some(6)
    case Cmd => None
  }

  // ---- configuration ----

  type u32 = n: nat | n <= U32_MAX

  datatype BufferConfig = BufferConfig(enabled: bool, maxMessages: nat)

  datatype ClassPolicy = ClassPolicy(
    enabled: Option<bool>,
    maxRatePerSec: Option<u32>,
    burst: Option<u32>,
    bufferWhileDisconnected: Option<BufferConfig>)

  type UplinkConfig = map<string, ClassPolicy>

  function Lookup(cfg: UplinkConfig, c: UnsClass): ClassPolicy {
    if Token(c) in cfg then cfg[Token(c)] else ClassPolicy(None, None, None, None)
  }

  /** The burst in force: configured, else twice the rate, saturating at 32 bits. */
  function Burst(p: ClassPolicy): nat
    requires p.maxRatePerSec.Some?
  {
    if p.burst.Some? then p.burst.value
    else if 2 * p.maxRatePerSec.value > U32_MAX then U32_MAX
    else 2 * p.maxRatePerSec.value
  }

  /** The policy a configuration asks for, class by class, before any message. */
  function Configured(cfg: UplinkConfig): PolicyState {
    PolicyState(
      seq(|POLICY_CLASSES|, i requires 0 <= i < |POLICY_CLASSES| =>
        var p := Lookup(cfg, POLICY_CLASSES[i]);
        ClassState(
          if p.enabled.Some? then p.enabled.value else POLICY_CLASSES[i] != App,
          if p.maxRatePerSec.Some? then Some(Full(p.maxRatePerSec.value, Burst(p))) else None)),
      [],
      var evt := Lookup(cfg, Evt).bufferWhileDisconnected;
      if evt.None? then DEFAULT_EVT_BUFFER_MAX else if evt.value.enabled then evt.value.maxMessages else 0)
  }

  /** What a configuration asks for, read off it class by class. */
  lemma ConfiguredExactly(cfg: UplinkConfig, c: UnsClass)
    requires c != Cmd
    ensures var slot := Configured(cfg).classes[ClassIndex(c).value];
            if Token(c) !in cfg then slot == ClassState(c != App, None)
            else
              var p := cfg[Token(c)];
              && (p.enabled.Some? ==> slot.enabled == p.enabled.value)
              && (p.enabled.None? ==> slot.enabled == (c != App))
              && (slot.bucket.Some? <==> p.maxRatePerSec.Some?)
              && (slot.bucket.Some? ==>
                    && slot.bucket.value.rate == p.maxRatePerSec.value as real
                    && slot.bucket.value.last == None
                    && slot.bucket.value.tokens == slot.bucket.value.capacity
                    && (p.burst.Some? ==> slot.bucket.value.capacity == p.burst.value as real)
                    && (p.burst.None? && p.maxRatePerSec.value <= 0x7FFF_FFFF ==>
                          slot.bucket.value.capacity == (2 * p.maxRatePerSec.value) as real)
                    && (p.burst.None? && p.maxRatePerSec.value > 0x7FFF_FFFF ==>
                          slot.bucket.value.capacity == 0xFFFF_FFFF as real))
  {
  }

  /** The replay buffer starts empty, of 1000 messages unless configured otherwise. */
  lemma BufferConfiguredExactly(cfg: UplinkConfig)
    ensures Configured(cfg).evtBuffer == []
    ensures var knob := if "evt" in cfg then cfg["evt"].bufferWhileDisconnected else None;
            && (knob.None? ==> Configured(cfg).evtBufferMax == 1000)
            && (knob.Some? && knob.value.enabled ==> Configured(cfg).evtBufferMax == knob.value.maxMessages)
            && (knob.Some? && !knob.value.enabled ==> Configured(cfg).evtBufferMax == 0)
  {
  }

  // ---- specification ----

  predicate WellFormed(p: PolicyState) {
    && |p.classes| == |POLICY_CLASSES|
    && |p.evtBuffer| <= p.evtBufferMax
  }

  function Admission(p: PolicyState, c: UnsClass, connected: bool, now: real): (PolicyState, UplinkVerdict)
    requires WellFormed(p)
  {
    var idx := ClassIndex(c);
    if idx.None? then (p, Forward)
    else
      var slot := p.classes[idx.value];
      var buffering := c == Evt && p.evtBufferMax > 0;
      if !slot.enabled then (p, DropDisabled)
      else if !connected then (p, if buffering then Buffer else DropDisconnected)
      else if buffering && p.evtBuffer != [] then (p, Buffer)
      else if slot.bucket.None? then (p, Forward)
      else
        var (bucket, taken) := Take(slot.bucket.value, now);
        (p.(classes := p.classes[idx.value := slot.(bucket := Some(bucket))]),
         if taken then Forward else DropRateCapped)
  }

  function Push(p: PolicyState, item: Item): (PolicyState, EvtPush) {
    if p.evtBufferMax == 0 then (p, Rejected)
    else
      var full := |p.evtBuffer| >= p.evtBufferMax;
      var kept := if full && p.evtBuffer != [] then p.evtBuffer[1..] else p.evtBuffer;
      (p.(evtBuffer := kept + [item]), Stored(full))
  }

  function Pop(p: PolicyState): (PolicyState, Option<Item>) {
    if p.evtBuffer == [] then (p, None) else (p.(evtBuffer := p.evtBuffer[1..]), Some(p.evtBuffer[0]))
  }

  function Requeue(p: PolicyState, item: Item): (PolicyState, bool) {
    if |p.evtBuffer| >= p.evtBufferMax then (p, false)
    else (p.(evtBuffer := [item] + p.evtBuffer), true)
  }

  /** `cmd` is not governed: it passes and leaves no trace. */
  lemma CmdPasses(p: PolicyState, connected: bool, now: real)
    requires WellFormed(p)
    ensures Admission(p, Cmd, connected, now) == (p, Forward)
  {
  }

  /** A push keeps the latest messages, as many as the bound allows, the new one last. */
  lemma PushExactly(p: PolicyState, item: Item)
    requires WellFormed(p)
    ensures var (q, push) := Push(p, item);
            && q == p.(evtBuffer := q.evtBuffer)
            && (push == Rejected <==> p.evtBufferMax == 0)
            && (push == Stored(true) <==> |p.evtBuffer| == p.evtBufferMax > 0)
            && |q.evtBuffer| <= p.evtBufferMax
            && (p.evtBufferMax > 0 ==>
                  && (|q.evtBuffer| == |p.evtBuffer| + 1 || |q.evtBuffer| == p.evtBufferMax)
                  && q.evtBuffer == (p.evtBuffer + [item])[|p.evtBuffer| + 1 - |q.evtBuffer|..])
  {
    var all := p.evtBuffer + [item];
    if p.evtBufferMax > 0 && |p.evtBuffer| == p.evtBufferMax {
      assert all[1..] == p.evtBuffer[1..] + [item];
    }
  }

  /** A pop takes the front, and a requeue puts one there unless the buffer is at its bound. */
  lemma FrontExactly(p: PolicyState, item: Item)
    requires WellFormed(p)
    ensures var (q, popped) := Pop(p);
            && q == p.(evtBuffer := q.evtBuffer)
            && (popped == None <==> p.evtBuffer == [])
            && p.evtBuffer == (if popped.Some? then [popped.value] else []) + q.evtBuffer
    ensures var (q, kept) := Requeue(p, item);
            && q == p.(evtBuffer := q.evtBuffer)
            && (kept <==> |p.evtBuffer| < p.evtBufferMax)
            && q.evtBuffer == (if kept then [item] else []) + p.evtBuffer
  {
    if p.evtBuffer != [] { assert p.evtBuffer == [p.evtBuffer[0]] + p.evtBuffer[1..]; }
  }

  /** Every operation keeps the seven slots and the buffer bound. */
  lemma OperationsKeepBound(p: PolicyState, c: UnsClass, connected: bool, now: real, item: Item)
    requires WellFormed(p)
    ensures WellFormed(Admission(p, c, connected, now).0)
    ensures WellFormed(Push(p, item).0)
    ensures WellFormed(Pop(p).0)
    ensures WellFormed(Requeue(p, item).0)
  {
  }

  /** A popped event put back, with nothing pushed in between, leaves the buffer as it was. */
  lemma PopRequeueRoundTrip(p: PolicyState)
    requires WellFormed(p) && p.evtBuffer != []
    ensures Requeue(Pop(p).0, Pop(p).1.value) == (p, true)
  {
    assert [p.evtBuffer[0]] + p.evtBuffer[1..] == p.evtBuffer;
  }

  // ---- the code ----

  class UplinkPolicy {
    const enabled: seq<bool>
    const buckets: seq<TokenBucket?>
    var evtBuffer: seq<Item>
    const evtBufferMax: nat

    ghost function Buckets(): set<object> {
      set i | 0 <= i < |buckets| && buckets[i] != null :: buckets[i]
    }

    ghost predicate Valid()
      reads this
    {
      && |enabled| == |buckets| == |POLICY_CLASSES|
      && |evtBuffer| <= evtBufferMax
      && (forall i, j :: 0 <= i < j < |buckets| && buckets[i] != null ==> buckets[i] != buckets[j])
    }

    ghost function SlotValue(i: nat): ClassState
      requires |enabled| == |buckets| && i < |enabled|
      reads Buckets()
    {
      ClassState(enabled[i], if buckets[i] == null then None else Some(buckets[i].Value()))
    }

    ghost function Value(): (p: PolicyState)
      requires Valid()
      reads this, Buckets()
      ensures WellFormed(p)
      ensures forall i :: 0 <= i < |enabled| ==> p.classes[i] == SlotValue(i)
    {
      PolicyState(seq(|enabled|, i requires 0 <= i < |enabled| reads Buckets() => SlotValue(i)),
                  evtBuffer, evtBufferMax)
    }

    constructor FromConfig(cfg: UplinkConfig)
      ensures Valid() && fresh(Buckets())
      ensures Value() == Configured(cfg)
    {
      var on: seq<bool> := [];
      var caps: seq<TokenBucket?> := [];
      for n := 0 to |POLICY_CLASSES|
        invariant |on| == |caps| == n
        invariant forall i :: 0 <= i < n && caps[i] != null ==> fresh(caps[i])
        invariant forall i, j :: 0 <= i < j < n && caps[i] != null ==> caps[i] != caps[j]
        invariant forall i :: 0 <= i < n ==>
                    Configured(cfg).classes[i] ==
                    ClassState(on[i], if caps[i] == null then None else Some(caps[i].Value()))
      {
        var p := Lookup(cfg, POLICY_CLASSES[n]);
        on := on + [if p.enabled.Some? then p.enabled.value else POLICY_CLASSES[n] != App];
        if p.maxRatePerSec.Some? {
          var bucket := new TokenBucket(p.maxRatePerSec.value, Burst(p));
          caps := caps + [bucket];
        } else {
          caps := caps + [null];
        }
      }
      enabled, buckets, evtBuffer := on, caps, [];
      var evt := Lookup(cfg, Evt).bufferWhileDisconnected;
      evtBufferMax :=
        if evt.None? then DEFAULT_EVT_BUFFER_MAX else if evt.value.enabled then evt.value.maxMessages else 0;
      new;
      assert forall i :: 0 <= i < |enabled| ==> SlotValue(i) == Configured(cfg).classes[i];
    }

    method Admit(c: UnsClass, connected: bool, now: real) returns (verdict: UplinkVerdict)
      requires Valid()
      modifies Buckets()
      ensures Valid()
      ensures (Value(), verdict) == Admission(old(Value()), c, connected, now)
    {
      var idx := ClassIndex(c);
      if idx.None? {
        return Forward;
      }
      if !enabled[idx.value] {
        return DropDisabled;
      }
      var buffering := c == Evt && evtBufferMax > 0;
      if !connected {
        return if buffering then Buffer else DropDisconnected;
      }
      if buffering && evtBuffer != [] {
        return Buffer;
      }
      var bucket := buckets[idx.value];
      if bucket != null {
        assert bucket in Buckets();
        var taken := bucket.TryTake(now);
        assert forall i :: 0 <= i < |enabled| && i != idx.value ==> SlotValue(i) == old(SlotValue(i));
        assert Value().classes == Admission(old(Value()), c, connected, now).0.classes;
        if !taken {
          return DropRateCapped;
        }
      }
      return Forward;
    }

    method PushEvt(item: Item) returns (push: EvtPush)
      requires Valid()
      modifies this`evtBuffer
      ensures Valid()
      ensures (Value(), push) == Push(old(Value()), item)
    {
      if evtBufferMax == 0 {
        return Rejected;
      }
      var evicted := false;
      if |evtBuffer| >= evtBufferMax {
        evtBuffer := evtBuffer[1..];
        evicted := true;
      }
      evtBuffer := evtBuffer + [item];
      assert Value().classes == old(Value()).classes;
      return Stored(evicted);
    }

    method PopEvt() returns (item: Option<Item>)
      requires Valid()
      modifies this`evtBuffer
      ensures Valid()
      ensures (Value(), item) == Pop(old(Value()))
    {
      if evtBuffer == [] {
        return None;
      }
      item := Some(evtBuffer[0]);
      evtBuffer := evtBuffer[1..];
      assert Value().classes == old(Value()).classes;
    }

    method RequeueEvtFront(item: Item) returns (kept: bool)
      requires Valid()
      modifies this`evtBuffer
      ensures Valid()
      ensures (Value(), kept) == Requeue(old(Value()), item)
    {
      if |evtBuffer| >= evtBufferMax {
        return false;
      }
      evtBuffer := [item] + evtBuffer;
      assert Value().classes == old(Value()).classes;
      return true;
    }
  }
}
