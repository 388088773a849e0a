/** The reply correlation map: bridge reply topic to the requester's own reply topic, with
    a uniform time to live and a bound. The class is the code, over a vector in insertion
    order; it refines a plain map. Times are nanoseconds. */
module Reply {
  import opened Wrappers
  import opened Messages
  import opened Relay

  datatype Pending = Pending(siteReplyTo: string, correlationId: string, deadline: int)

  datatype Entry = Entry(topic: string, pending: Pending)

  datatype DownlinkRewrite =
    | Passthrough
    | Rewritten(bytes: Bytes, bridgeTopic: string, evicted: Option<string>)
    | Dropped(reason: DropReason)

  datatype ReplyRelay = Relayed(bytes: Bytes) | Refused(reason: DropReason)

  /** The correlator as a value. */
  datatype Corr = Corr(ttl: nat, maxPending: nat, pending: seq<Entry>)

  const SWEEP_MAX: nat := 5_000_000_000
  const SWEEP_MIN: nat := 100_000_000

  function Empty(ttl: nat, maxPending: nat): Corr {
    Corr(ttl, if maxPending == 0 then 1 else maxPending, [])
  }

  function Gap(x: nat, y: nat): nat { if x <= y then y - x else x - y }

  /** The period between 100 ms and 5 s that is nearest to a quarter of the ttl. */
  function SweepInterval(ttl: nat): (d: nat)
    ensures SWEEP_MIN <= d <= SWEEP_MAX
    ensures forall x :: SWEEP_MIN <= x <= SWEEP_MAX ==> Gap(d, ttl / 4) <= Gap(x, ttl / 4)
  {
    if ttl / 4 < SWEEP_MIN then SWEEP_MIN else if ttl / 4 > SWEEP_MAX then SWEEP_MAX else ttl / 4
  }

  // ---- specification over the vector ----

  /** Position of the first entry for a topic, or the length if there is none. */
  function IndexOf(pending: seq<Entry>, topic: string): (i: nat)
    ensures i <= |pending|
    ensures forall j :: 0 <= j < i ==> pending[j].topic != topic
    ensures i < |pending| ==> pending[i].topic == topic
  {
    if pending == [] then 0
    else if pending[0].topic == topic then 0
    else 1 + IndexOf(pending[1..], topic)
  }

  predicate Contains(c: Corr, topic: string) { IndexOf(c.pending, topic) < |c.pending| }

  function Without(c: Corr, i: nat): Corr
    requires i < |c.pending|
  {
    c.(pending := c.pending[..i] + c.pending[i + 1..])
  }

  function Take(c: Corr, topic: string): (Corr, Option<string>) {
    var i := IndexOf(c.pending, topic);
    if i == |c.pending| then (c, None) else (Without(c, i), Some(c.pending[i].pending.siteReplyTo))
  }

  /** Length of the leading run of entries whose deadline has passed. */
  function StaleRun(pending: seq<Entry>, now: int): (n: nat)
    ensures n <= |pending|
    ensures forall j :: 0 <= j < n ==> pending[j].pending.deadline <= now
    ensures n < |pending| ==> pending[n].pending.deadline > now
  {
    if pending == [] || pending[0].pending.deadline > now then 0 else 1 + StaleRun(pending[1..], now)
  }

  function Names(pending: seq<Entry>): (r: seq<string>)
    ensures |r| == |pending|
    ensures forall j :: 0 <= j < |r| ==> r[j] == pending[j].topic
  {
    seq(|pending|, j requires 0 <= j < |pending| => pending[j].topic)
  }

  function Sweep(c: Corr, now: int): (Corr, seq<string>) {
    var n := StaleRun(c.pending, now);
    (c.(pending := c.pending[n..]), Names(c.pending[..n]))
  }

  function Others(pending: seq<Entry>, topic: string): seq<Entry> {
    if pending == [] then []
    else (if pending[0].topic == topic then [] else [pending[0]]) + Others(pending[1..], topic)
  }

  function Abandon(c: Corr, topic: string): Corr { c.(pending := Others(c.pending, topic)) }

  /** Record a fresh entry, evicting the oldest when the map is at its bound. */
  function Record(c: Corr, topic: string, site: string, correlationId: string, now: int): (Corr, Option<string>) {
    var full := |c.pending| >= c.maxPending && c.pending != [];
    var kept := if full then c.pending[1..] else c.pending;
    (c.(pending := kept + [Entry(topic, Pending(site, correlationId, now + c.ttl))]),
     if full then Some(c.pending[0].topic) else None)
  }

  /** One forwardable command; `minted` is the topic the library would mint for it. */
  function Rewrite(c: Corr, codec: Codec, relayed: Bytes, minted: string, now: int): (Corr, DownlinkRewrite) {
    var decoded := codec.decode(relayed);
    if decoded.None? then (c, Dropped(MalformedEnvelope))
    else
      var m := decoded.value;
      if m.replyTo.None? then (c, Passthrough)
      else
        var bytes := codec.encode(m.(replyTo := Some(minted)));
        if bytes.None? then (c, Dropped(MalformedEnvelope))
        else
          var (d, evicted) := Record(c, minted, m.replyTo.value, m.correlationId, now);
          (d, Rewritten(bytes.value, minted, evicted))
  }

  function PrepareReply(e: RelayEngine, codec: Codec, payload: Bytes): ReplyRelay {
    var decoded := codec.decode(payload);
    if decoded.None? then Refused(MalformedEnvelope)
    else
      var stamped := Stamp(e, decoded.value.(replyTo := None));
      if stamped.Failure? then Refused(stamped.error)
      else
        var bytes := codec.encode(stamped.value);
        if bytes.None? then Refused(MalformedEnvelope) else Relayed(bytes.value)
  }

  // ---- the code ----

  class ReplyCorrelator {
    const ttl: nat
    const maxPending: nat
    var pending: seq<Entry>

    predicate Valid()
      reads this
    {
      maxPending >= 1 && |pending| <= maxPending
    }

    function Value(): Corr
      reads this
    {
      Corr(ttl, maxPending, pending)
    }

    constructor (ttl: nat, maxPending: nat)
      ensures Valid() && Value() == Empty(ttl, maxPending)
      ensures this.ttl == ttl && this.pending == []
      ensures this.maxPending == if maxPending > 0 then maxPending else 1
    {
      this.ttl, this.maxPending, pending := ttl, if maxPending == 0 then 1 else maxPending, [];
    }

    method RewriteDownlink(codec: Codec, relayed: Bytes, minted: string, now: int) returns (r: DownlinkRewrite)
      requires Valid()
      modifies this`pending
      ensures Valid()
      ensures (Value(), r) == Rewrite(old(Value()), codec, relayed, minted, now)
    {
      var decoded := codec.decode(relayed);
      if decoded.None? {
        return Dropped(MalformedEnvelope);
      }
      var msg := decoded.value;
      if msg.replyTo.None? {
        return Passthrough;
      }
      var site := msg.replyTo.value;
      msg := msg.(replyTo := Some(minted));
      var bytes := codec.encode(msg);
      if bytes.None? {
        return Dropped(MalformedEnvelope);
      }
      var evicted: Option<string> := None;
      if |pending| >= maxPending {
        evicted := Some(pending[0].topic);
        pending := pending[1..];
      }
      pending := pending + [Entry(minted, Pending(site, msg.correlationId, now + ttl))];
      return Rewritten(bytes.value, minted, evicted);
    }

    method Position(topic: string) returns (i: nat)
      ensures i == IndexOf(pending, topic)
    {
      i := 0;
      while i < |pending| && pending[i].topic != topic
        invariant i <= |pending|
        invariant forall j :: 0 <= j < i ==> pending[j].topic != topic
      {
        i := i + 1;
      }
    }

    method TakeEntry(topic: string) returns (site: Option<string>)
      requires Valid()
      modifies this`pending
      ensures Valid()
      ensures (Value(), site) == Take(old(Value()), topic)
    {
      var i := Position(topic);
      if i == |pending| {
        return None;
      }
      site := Some(pending[i].pending.siteReplyTo);
      pending := pending[..i] + pending[i + 1..];
    }

    method SweepExpired(now: int) returns (expired: seq<string>)
      requires Valid()
      modifies this`pending
      ensures Valid()
      ensures (Value(), expired) == Sweep(old(Value()), now)
    {
      var keepFrom: nat := 0;
      while keepFrom < |pending| && pending[keepFrom].pending.deadline <= now
        invariant keepFrom <= |pending|
        invariant forall j :: 0 <= j < keepFrom ==> pending[j].pending.deadline <= now
      {
        keepFrom := keepFrom + 1;
      }
      expired := Names(pending[..keepFrom]);
      pending := pending[keepFrom..];
    }

    method AbandonTopic(topic: string)
      requires Valid()
      modifies this`pending
      ensures Valid() && Value() == Abandon(old(Value()), topic)
    {
      var kept: seq<Entry> := [];
      for i := 0 to |pending|
        invariant pending == old(pending)
        invariant |kept| <= i
        invariant kept + Others(pending[i..], topic) == Others(pending, topic)
      {
        assert pending[i..][1..] == pending[i + 1..];
        if pending[i].topic != topic {
          kept := kept + [pending[i]];
        }
      }
      pending := kept;
    }

    method Drain() returns (topics: seq<string>)
      requires Valid()
      modifies this`pending
      ensures Valid() && pending == [] && topics == Names(old(pending))
    {
      topics := Names(pending);
      pending := [];
    }
  }

  // ---- what becomes of one command ----

  /** The outcome, exactly, from the message decoded. One that asks for no reply passes, and
      leaves the map alone; one that does is rewritten to ask for it on the minted topic, and
      recorded with its own; it is dropped only if it does not decode or re-encode. */
  lemma RewriteExactly(c: Corr, codec: Codec, relayed: Bytes, minted: string, now: int)
    ensures var decoded, (d, r) := codec.decode(relayed), Rewrite(c, codec, relayed, minted, now);
            if decoded.None? then (d, r) == (c, Dropped(MalformedEnvelope))
            else
              var m := decoded.value;
              var out := codec.encode(m.(replyTo := Some(minted)));
              && (r == Passthrough <==> m.replyTo == None)
              && (r == Passthrough ==> d == c)
              && (r.Rewritten? <==> m.replyTo.Some? && out.Some?)
              && (r.Rewritten? ==>
                    && r.bytes == out.value && r.bridgeTopic == minted
                    && (d, r.evicted) == Record(c, minted, m.replyTo.value, m.correlationId, now))
              && (r.Dropped? <==> m.replyTo.Some? && out.None?)
              && (r.Dropped? ==> r.reason == MalformedEnvelope && d == c)
  {
  }

  // ---- what a sweep promises with no assumption on the clock ----

  /** A sweep removes the entries it names, from the front, all of them expired. */
  lemma SweepSound(c: Corr, now: int)
    ensures var (d, expired) := Sweep(c, now);
            && |expired| <= |c.pending| && d.pending == c.pending[|expired|..]
            && (forall j :: 0 <= j < |expired| ==>
                  expired[j] == c.pending[j].topic && c.pending[j].pending.deadline <= now)
    ensures forall e :: e in c.pending && e !in Sweep(c, now).0.pending ==> e.pending.deadline <= now
  {
    var n := StaleRun(c.pending, now);
    assert c.pending == c.pending[..n] + c.pending[n..];
  }

  /** It leaves no expired entry exactly when none stands behind an unexpired one. */
  lemma SweepComplete(c: Corr, now: int)
    ensures (forall k :: |Sweep(c, now).1| <= k < |c.pending| ==> c.pending[k].pending.deadline > now)
            <==>
            (forall j, k :: 0 <= j < k < |c.pending| && c.pending[k].pending.deadline <= now ==>
               c.pending[j].pending.deadline <= now)
  {
  }

  // ---- refinement of a plain map under a monotone clock ----

  ghost predicate Distinct(pending: seq<Entry>) {
    forall j, k :: 0 <= j < k < |pending| ==> pending[j].topic != pending[k].topic
  }

  ghost predicate Sorted(pending: seq<Entry>) {
    forall j, k :: 0 <= j < k < |pending| ==> pending[j].pending.deadline <= pending[k].pending.deadline
  }

  /** What holds of a correlator driven by a clock that has reached `clock`. */
  ghost predicate Ordered(c: Corr, clock: int) {
    && 1 <= c.maxPending && |c.pending| <= c.maxPending
    && Distinct(c.pending) && Sorted(c.pending)
    && forall e :: e in c.pending ==> e.pending.deadline <= clock + c.ttl
  }

  function Keys(c: Corr): set<string> { set e | e in c.pending :: e.topic }

  lemma DistinctEntries(pending: seq<Entry>, d: Entry, e: Entry)
    requires Distinct(pending) && d in pending && e in pending && d.topic == e.topic
    ensures d == e
  {
    var j :| 0 <= j < |pending| && pending[j] == d;
    var k :| 0 <= k < |pending| && pending[k] == e;
    assert j == k;
  }

  /** The map a vector of distinct topics stands for. */
  ghost function Abstract(pending: seq<Entry>): map<string, Pending>
    requires Distinct(pending)
  {
    assert forall d, e :: d in pending && e in pending && d.topic == e.topic ==> d == e by {
      forall d, e | d in pending && e in pending && d.topic == e.topic ensures d == e {
        DistinctEntries(pending, d, e);
      }
    }
    map e | e in pending :: e.topic := e.pending
  }

  lemma RemoveAt(pending: seq<Entry>, i: nat)
    requires Distinct(pending) && i < |pending|
    ensures var rest := pending[..i] + pending[i + 1..];
            && Distinct(rest)
            && (Sorted(pending) ==> Sorted(rest))
            && (forall e :: e in rest <==> e in pending && e.topic != pending[i].topic)
  {
    var rest := pending[..i] + pending[i + 1..];
    assert forall j :: 0 <= j < |rest| ==> rest[j] == pending[if j < i then j else j + 1];
    forall j, k | 0 <= j < k < |rest|
      ensures rest[j].topic != rest[k].topic
      ensures Sorted(pending) ==> rest[j].pending.deadline <= rest[k].pending.deadline
    {
      var j', k' := if j < i then j else j + 1, if k < i then k else k + 1;
      assert rest[j] == pending[j'] && rest[k] == pending[k'] && j' < k';
    }
    forall e ensures e in rest <==> e in pending && e.topic != pending[i].topic {
      if e in rest {
        var j :| 0 <= j < |rest| && rest[j] == e;
        assert e == pending[if j < i then j else j + 1];
      }
      if e in pending && e.topic != pending[i].topic {
        var j :| 0 <= j < |pending| && pending[j] == e;
        assert e == rest[if j < i then j else j - 1];
      }
    }
  }

  lemma MembersMakeTheMap(rest: seq<Entry>, pending: seq<Entry>, topic: string)
    requires Distinct(rest) && Distinct(pending)
    requires forall e :: e in rest <==> e in pending && e.topic != topic
    ensures Abstract(rest) == Abstract(pending) - {topic}
  {
    var a, b := Abstract(rest), Abstract(pending) - {topic};
    assert forall t :: t in a <==> t in b;
    assert forall e :: e in rest ==> a[e.topic] == e.pending == b[e.topic];
  }

  lemma RemovedFromMap(pending: seq<Entry>, i: nat)
    requires Distinct(pending) && i < |pending|
    ensures var rest := pending[..i] + pending[i + 1..];
            Distinct(rest) && Abstract(rest) == Abstract(pending) - {pending[i].topic}
  {
    RemoveAt(pending, i);
    MembersMakeTheMap(pending[..i] + pending[i + 1..], pending, pending[i].topic);
  }

  lemma Appended(pending: seq<Entry>, e: Entry)
    requires Distinct(pending) && forall d :: d in pending ==> d.topic != e.topic
    ensures Distinct(pending + [e])
    ensures Abstract(pending + [e]) == Abstract(pending)[e.topic := e.pending]
  {
    var longer := pending + [e];
    assert forall j :: 0 <= j < |pending| ==> pending[j] in pending;
    assert forall d :: d in longer <==> d in pending || d == e;
  }

  lemma FrontIsLeast(pending: seq<Entry>)
    requires Distinct(pending) && Sorted(pending) && pending != []
    ensures pending[0].topic in Abstract(pending)
    ensures forall t :: t in Abstract(pending) ==>
              Abstract(pending)[pending[0].topic].deadline <= Abstract(pending)[t].deadline
  {
    assert pending[0] in pending;
  }

  /** The entries a recording keeps: all of them, or all but the front one. */
  function Kept(c: Corr): seq<Entry> {
    if |c.pending| >= c.maxPending && c.pending != [] then c.pending[1..] else c.pending
  }

  lemma KeptInOrder(c: Corr, clock: int)
    requires Ordered(c, clock)
    ensures Distinct(Kept(c)) && Sorted(Kept(c)) && |Kept(c)| < c.maxPending
    ensures forall e :: e in Kept(c) ==> e in c.pending
    ensures Abstract(Kept(c)) ==
            if |c.pending| == c.maxPending then Abstract(c.pending) - {c.pending[0].topic} else Abstract(c.pending)
  {
    if |c.pending| == c.maxPending {
      assert c.pending[..0] + c.pending[1..] == Kept(c);
      RemoveAt(c.pending, 0);
      RemovedFromMap(c.pending, 0);
    }
  }

  lemma RecordKeepsOrder(c: Corr, clock: int, topic: string, site: string, id: string, now: int)
    requires Ordered(c, clock) && clock <= now && topic !in Keys(c)
    ensures Ordered(Record(c, topic, site, id, now).0, now)
    ensures Abstract(Record(c, topic, site, id, now).0.pending) ==
            Abstract(Kept(c))[topic := Pending(site, id, now + c.ttl)]
  {
    var e := Entry(topic, Pending(site, id, now + c.ttl));
    assert forall x :: x in c.pending ==> x.topic in Keys(c);
    KeptInOrder(c, clock);
    Appended(Kept(c), e);
    AppendedInOrder(Kept(c), e);
    assert Record(c, topic, site, id, now).0.pending == Kept(c) + [e];
    assert forall x :: x in Kept(c) + [e] <==> x in Kept(c) || x == e;
  }

  /** Recording keeps the order, and on the map evicts an entry of least deadline exactly
      when the map is at its bound, then adds the new entry. */
  lemma RecordRefines(c: Corr, clock: int, topic: string, site: string, id: string, now: int)
    requires Ordered(c, clock) && clock <= now && topic !in Keys(c)
    ensures var (d, evicted) := Record(c, topic, site, id, now);
            var before := Abstract(c.pending);
            && Ordered(d, now)
            && (evicted.Some? <==> |c.pending| == c.maxPending)
            && (evicted.Some? ==>
                  && evicted.value in before
                  && forall t :: t in before ==> before[evicted.value].deadline <= before[t].deadline)
            && Abstract(d.pending) ==
                 (if evicted.Some? then before - {evicted.value} else before)
                   [topic := Pending(site, id, now + c.ttl)]
  {
    KeptInOrder(c, clock);
    RecordKeepsOrder(c, clock, topic, site, id, now);
    if |c.pending| == c.maxPending {
      FrontIsLeast(c.pending);
    }
  }

  lemma AppendedInOrder(pending: seq<Entry>, e: Entry)
    requires Sorted(pending) && forall d :: d in pending ==> d.pending.deadline <= e.pending.deadline
    ensures Sorted(pending + [e])
  {
    assert forall j :: 0 <= j < |pending| ==> pending[j] in pending;
  }

  lemma Found(pending: seq<Entry>, topic: string)
    ensures IndexOf(pending, topic) < |pending| <==> exists e :: e in pending && e.topic == topic
  {
    var i := IndexOf(pending, topic);
    if i < |pending| { assert pending[i] in pending; }
  }

  /** An entry of the vector is a binding of the map. */
  lemma Bound(pending: seq<Entry>, i: nat)
    requires Distinct(pending) && i < |pending|
    ensures pending[i].topic in Abstract(pending) && Abstract(pending)[pending[i].topic] == pending[i].pending
  {
    assert pending[i] in pending;
  }

  lemma TakeOnMap(c: Corr, clock: int, topic: string)
    requires Ordered(c, clock) && IndexOf(c.pending, topic) < |c.pending|
    ensures Ordered(Take(c, topic).0, clock)
    ensures Abstract(Take(c, topic).0.pending) == Abstract(c.pending) - {topic}
    ensures forall e :: e in Take(c, topic).0.pending ==> e.topic != topic
  {
    var i := IndexOf(c.pending, topic);
    RemoveAt(c.pending, i);
    RemovedFromMap(c.pending, i);
  }

  /** Taking resolves to the recorded site topic and removes the entry: it works once. */
  lemma TakeRefines(c: Corr, clock: int, topic: string)
    requires Ordered(c, clock)
    ensures var (d, site) := Take(c, topic);
            var before := Abstract(c.pending);
            && Ordered(d, clock)
            && (site.Some? <==> topic in before)
            && (site.Some? ==> site.value == before[topic].siteReplyTo)
            && Abstract(d.pending) == before - {topic}
            && Take(d, topic) == (d, None)
  {
    var i := IndexOf(c.pending, topic);
    Found(c.pending, topic);
    if i < |c.pending| {
      Bound(c.pending, i);
      TakeOnMap(c, clock, topic);
      Found(Take(c, topic).0.pending, topic);
    } else {
      assert Abstract(c.pending) - {topic} == Abstract(c.pending);
    }
  }

  lemma {:induction false} OthersIsRemoval(pending: seq<Entry>, topic: string)
    requires Distinct(pending)
    ensures var i := IndexOf(pending, topic);
            Others(pending, topic) == if i < |pending| then pending[..i] + pending[i + 1..] else pending
  {
    if pending != [] {
      OthersIsRemoval(pending[1..], topic);
      var k := IndexOf(pending[1..], topic);
      if pending[0].topic == topic {
        assert k == |pending[1..]|;
      } else if k < |pending[1..]| {
        assert pending[..k + 1] == [pending[0]] + pending[1..][..k];
        assert pending[k + 2..] == pending[1..][k + 1..];
      }
    }
  }

  /** Abandoning a topic is taking it and forgetting where its reply was to go. */
  lemma AbandonRefines(c: Corr, clock: int, topic: string)
    requires Ordered(c, clock)
    ensures Abandon(c, topic) == Take(c, topic).0
    ensures Ordered(Abandon(c, topic), clock)
    ensures Abstract(Abandon(c, topic).pending) == Abstract(c.pending) - {topic}
  {
    OthersIsRemoval(c.pending, topic);
    TakeRefines(c, clock, topic);
  }

  lemma SuffixInOrder(pending: seq<Entry>, n: nat)
    requires Distinct(pending) && Sorted(pending) && n <= |pending|
    ensures Distinct(pending[n..]) && Sorted(pending[n..])
  {
    var young := pending[n..];
    assert forall j :: 0 <= j < |young| ==> young[j] == pending[n + j];
  }

  lemma PrefixMembers(pending: seq<Entry>, n: nat)
    requires n <= |pending|
    ensures forall e :: e in pending <==> e in pending[..n] || e in pending[n..]
  {
    assert pending == pending[..n] + pending[n..];
  }

  /** Under the order, the stale run is exactly the expired entries. */
  lemma StaleRunExact(pending: seq<Entry>, now: int)
    requires Distinct(pending) && Sorted(pending)
    ensures var n := StaleRun(pending, now);
            && Distinct(pending[n..]) && Sorted(pending[n..])
            && (forall e :: e in pending[..n] <==> e in pending && e.pending.deadline <= now)
            && (forall e :: e in pending[n..] <==> e in pending && e.pending.deadline > now)
  {
    var n := StaleRun(pending, now);
    SuffixInOrder(pending, n);
    PrefixMembers(pending, n);
    var young := pending[n..];
    forall e | e in young ensures e.pending.deadline > now {
      var j :| 0 <= j < |young| && young[j] == e;
      assert young[0] == pending[n];
    }
  }

  lemma SweptMap(c: Corr, clock: int, now: int)
    requires Ordered(c, clock) && clock <= now
    ensures var d := Sweep(c, now).0;
            && Ordered(d, now)
            && Abstract(d.pending) ==
               map t | t in Abstract(c.pending) && Abstract(c.pending)[t].deadline > now :: Abstract(c.pending)[t]
  {
    StaleRunExact(c.pending, now);
    var d := Sweep(c, now).0;
    MembersFilterTheMap(d.pending, c.pending, now);
  }

  lemma MembersFilterTheMap(young: seq<Entry>, pending: seq<Entry>, now: int)
    requires Distinct(young) && Distinct(pending)
    requires forall e :: e in young <==> e in pending && e.pending.deadline > now
    ensures Abstract(young) ==
            map t | t in Abstract(pending) && Abstract(pending)[t].deadline > now :: Abstract(pending)[t]
  {
    var a, before := Abstract(young), Abstract(pending);
    assert forall e :: e in pending ==> before[e.topic] == e.pending;
    assert forall e :: e in young ==> a[e.topic] == e.pending;
    forall t ensures t in a <==> t in before && before[t].deadline > now {
      if t in a {
        var e :| e in young && e.topic == t;
        assert e in pending;
      }
      if t in before && before[t].deadline > now {
        var e :| e in pending && e.topic == t;
        assert e in young;
      }
    }
  }

  /** A sweep removes exactly the entries whose deadline has passed, oldest first. */
  lemma SweepRefines(c: Corr, clock: int, now: int)
    requires Ordered(c, clock) && clock <= now
    ensures var (d, expired) := Sweep(c, now);
            var before := Abstract(c.pending);
            && Ordered(d, now)
            && Abstract(d.pending) == (map t | t in before && before[t].deadline > now :: before[t])
            && (forall t :: t in expired <==> t in before && before[t].deadline <= now)
            && (forall j, k :: 0 <= j < k < |expired| ==>
                  expired[j] != expired[k] && before[expired[j]].deadline <= before[expired[k]].deadline)
  {
    SweptMap(c, clock, now);
    SweptNames(c, now);
    var expired := Sweep(c, now).1;
    var before := Abstract(c.pending);
    forall j, k | 0 <= j < k < |expired|
      ensures expired[j] != expired[k] && before[expired[j]].deadline <= before[expired[k]].deadline
    {
      Bound(c.pending, j);
      Bound(c.pending, k);
      assert expired[j] == c.pending[j].topic && expired[k] == c.pending[k].topic;
    }
  }

  lemma SweptNameIsStale(c: Corr, now: int, j: nat)
    requires Distinct(c.pending) && j < |Sweep(c, now).1|
    ensures var t := Sweep(c, now).1[j];
            t in Abstract(c.pending) && Abstract(c.pending)[t].deadline <= now
  {
    Bound(c.pending, j);
  }

  lemma StaleNameIsSwept(c: Corr, now: int, j: nat)
    requires Sorted(c.pending) && j < |c.pending| && c.pending[j].pending.deadline <= now
    ensures c.pending[j].topic in Sweep(c, now).1
  {
    assert Sweep(c, now).1[j] == c.pending[j].topic;
  }

  lemma SweptNames(c: Corr, now: int)
    requires Distinct(c.pending) && Sorted(c.pending)
    ensures forall t :: t in Sweep(c, now).1 <==>
              t in Abstract(c.pending) && Abstract(c.pending)[t].deadline <= now
  {
    forall t ensures t in Sweep(c, now).1 <==> t in Abstract(c.pending) && Abstract(c.pending)[t].deadline <= now {
      if t in Sweep(c, now).1 {
        var j :| 0 <= j < |Sweep(c, now).1| && Sweep(c, now).1[j] == t;
        SweptNameIsStale(c, now, j);
      }
      if t in Abstract(c.pending) && Abstract(c.pending)[t].deadline <= now {
        var j :| 0 <= j < |c.pending| && c.pending[j].topic == t;
        Bound(c.pending, j);
        StaleNameIsSwept(c, now, j);
      }
    }
  }
}
