/** How long a reply path lives: whole runs of the correlation map under a monotone clock. */
module ReplyLifetime {
  import opened Wrappers
  import opened Reply

  /** One lock scope on the map. */
  datatype Op =
    | Minted(topic: string, site: string, correlationId: string, now: int)
    | Resolved(topic: string, now: int)
    | Swept(now: int)
    | Forgotten(topic: string, now: int)

  /** A recording: its topic and instant. */
  datatype Recording = Recording(topic: string, at: int)

  datatype Eviction = Eviction(victim: nat, cause: nat)

  datatype Expiry = Expiry(entry: nat, at: int)

  /** The map with its history. `ordinals` gives, for each pending entry, the index of its
      recording; evictions name victim and evicting recording by index. */
  datatype Life = Life(
    corr: Corr,
    clock: int,
    lastSweep: int,
    recordings: seq<Recording>,
    ordinals: seq<nat>,
    evictions: seq<Eviction>,
    expiries: seq<Expiry>)

  function Start(ttl: nat, maxPending: nat, now: int): Life {
    Life(Empty(ttl, maxPending), now, now, [], [], [], [])
  }

  function Drop(ordinals: seq<nat>, i: nat): seq<nat> {
    if i < |ordinals| then ordinals[..i] + ordinals[i + 1..] else ordinals
  }

  ghost predicate Admissible(l: Life, op: Op) {
    && l.clock <= op.now
    && |l.ordinals| == |l.corr.pending|
    && (op.Minted? ==> forall r :: r in l.recordings ==> r.topic != op.topic)
  }

  function Expiries(ordinals: seq<nat>, now: int): (r: seq<Expiry>)
    ensures |r| == |ordinals| && forall j :: 0 <= j < |r| ==> r[j] == Expiry(ordinals[j], now)
  {
    seq(|ordinals|, j requires 0 <= j < |ordinals| => Expiry(ordinals[j], now))
  }

  ghost function Perform(l: Life, op: Op): Life
    requires Admissible(l, op)
  {
    var t := l.(clock := op.now);
    match op
    case Minted(topic, site, id, now) =>
      var (d, evicted) := Record(l.corr, topic, site, id, now);
      t.(corr := d,
         recordings := l.recordings + [Recording(topic, now)],
         ordinals := (if evicted.Some? then l.ordinals[1..] else l.ordinals) + [|l.recordings|],
         evictions := if evicted.Some? then l.evictions + [Eviction(l.ordinals[0], |l.recordings|)] else l.evictions)
    case Resolved(topic, now) =>
      t.(corr := Take(l.corr, topic).0, ordinals := Drop(l.ordinals, IndexOf(l.corr.pending, topic)))
    case Swept(now) =>
      var n := StaleRun(l.corr.pending, now);
      t.(corr := Sweep(l.corr, now).0, lastSweep := now, ordinals := l.ordinals[n..],
         expiries := l.expiries + Expiries(l.ordinals[..n], now))
    case Forgotten(topic, now) =>
      t.(corr := Abandon(l.corr, topic), ordinals := Drop(l.ordinals, IndexOf(l.corr.pending, topic)))
  }

  ghost function Run(start: Life, ops: seq<Op>): Option<Life>
    decreases |ops|
  {
    if ops == [] then Some(start)
    else
      var before := Run(start, ops[..|ops| - 1]);
      var op := ops[|ops| - 1];
      if before.Some? && Admissible(before.value, op) then Some(Perform(before.value, op)) else None
  }

  // ---- invariant ----

  /** Each pending entry is its recording, with the deadline one ttl after it. */
  ghost predicate Recorded(recordings: seq<Recording>, pending: seq<Entry>, ordinals: seq<nat>, ttl: nat) {
    && |ordinals| == |pending|
    && (forall j :: 0 <= j < |ordinals| ==>
          && ordinals[j] < |recordings|
          && recordings[ordinals[j]].topic == pending[j].topic
          && pending[j].pending.deadline == recordings[ordinals[j]].at + ttl)
    && (forall j, k :: 0 <= j < k < |ordinals| ==> ordinals[j] < ordinals[k])
  }

  ghost predicate EntriesRecorded(l: Life) {
    Recorded(l.recordings, l.corr.pending, l.ordinals, l.corr.ttl)
  }

  ghost predicate EvictionsLate(l: Life) {
    forall v :: v in l.evictions ==> v.victim < v.cause < |l.recordings| && v.cause - v.victim >= l.corr.maxPending
  }

  ghost predicate ExpiriesLate(l: Life) {
    forall x :: x in l.expiries ==>
      x.entry < |l.recordings| && x.at - l.recordings[x.entry].at >= l.corr.ttl
  }

  /** What a sweep left was not due then; what came later is younger than the sweep. */
  ghost predicate SweptClean(l: Life) {
    && l.lastSweep <= l.clock
    && forall e :: e in l.corr.pending ==>
         e.pending.deadline > l.lastSweep || e.pending.deadline - l.corr.ttl >= l.lastSweep
  }

  ghost predicate LifeInv(ttl: nat, maxPending: nat, l: Life) {
    && l.corr.ttl == ttl && l.corr.maxPending == Empty(ttl, maxPending).maxPending
    && Ordered(l.corr, l.clock)
    && EntriesRecorded(l) && EvictionsLate(l) && ExpiriesLate(l) && SweptClean(l)
  }

  lemma {:induction false} IncreasingSpan(ordinals: seq<nat>)
    requires ordinals != [] && forall j, k :: 0 <= j < k < |ordinals| ==> ordinals[j] < ordinals[k]
    ensures ordinals[|ordinals| - 1] - ordinals[0] >= |ordinals| - 1
  {
    if |ordinals| > 1 {
      IncreasingSpan(ordinals[..|ordinals| - 1]);
    }
  }

  lemma MintedTopicIsNew(l: Life, op: Op)
    requires EntriesRecorded(l) && op.Minted? && Admissible(l, op)
    ensures op.topic !in Keys(l.corr)
  {
    forall e | e in l.corr.pending ensures e.topic != op.topic {
      var j :| 0 <= j < |l.corr.pending| && l.corr.pending[j] == e;
      assert l.recordings[l.ordinals[j]] in l.recordings;
    }
  }

  lemma MintEvictsLate(l: Life, op: Op)
    requires EntriesRecorded(l) && EvictionsLate(l) && ExpiriesLate(l) && op.Minted? && Admissible(l, op)
    requires 1 <= l.corr.maxPending
    ensures EvictionsLate(Perform(l, op)) && ExpiriesLate(Perform(l, op))
  {
    var t := Perform(l, op);
    if t.evictions != l.evictions {
      IncreasingSpan(l.ordinals);
      assert forall v :: v in t.evictions ==> v in l.evictions || v == Eviction(l.ordinals[0], |l.recordings|);
    }
  }

  lemma MintKeeps(ttl: nat, maxPending: nat, l: Life, op: Op)
    requires LifeInv(ttl, maxPending, l) && op.Minted? && Admissible(l, op)
    ensures LifeInv(ttl, maxPending, Perform(l, op))
  {
    MintedTopicIsNew(l, op);
    RecordKeepsOrder(l.corr, l.clock, op.topic, op.site, op.correlationId, op.now);
    MintEvictsLate(l, op);
    MintRecorded(l, op);
    MintSweptClean(l, op);
  }

  lemma SuffixRecorded(recordings: seq<Recording>, pending: seq<Entry>, ordinals: seq<nat>, ttl: nat, n: nat)
    requires Recorded(recordings, pending, ordinals, ttl) && n <= |pending|
    ensures Recorded(recordings, pending[n..], ordinals[n..], ttl)
  {
    assert forall j :: 0 <= j < |pending| - n ==>
      pending[n..][j] == pending[n + j] && ordinals[n..][j] == ordinals[n + j];
  }

  lemma AppendRecorded(recordings: seq<Recording>, pending: seq<Entry>, ordinals: seq<nat>, ttl: nat,
                       e: Entry, now: int)
    requires Recorded(recordings, pending, ordinals, ttl) && e.pending.deadline == now + ttl
    ensures Recorded(recordings + [Recording(e.topic, now)], pending + [e], ordinals + [|recordings|], ttl)
  {
  }

  lemma MintRecorded(l: Life, op: Op)
    requires EntriesRecorded(l) && op.Minted? && Admissible(l, op)
    ensures EntriesRecorded(Perform(l, op))
  {
    var shift := if Record(l.corr, op.topic, op.site, op.correlationId, op.now).1.Some? then 1 else 0;
    var e := Entry(op.topic, Pending(op.site, op.correlationId, op.now + l.corr.ttl));
    SuffixRecorded(l.recordings, l.corr.pending, l.ordinals, l.corr.ttl, shift);
    AppendRecorded(l.recordings, l.corr.pending[shift..], l.ordinals[shift..], l.corr.ttl, e, op.now);
    assert shift == 0 ==> l.corr.pending[shift..] == l.corr.pending && l.ordinals[shift..] == l.ordinals;
  }

  lemma MintSweptClean(l: Life, op: Op)
    requires SweptClean(l) && op.Minted? && Admissible(l, op)
    ensures SweptClean(Perform(l, op))
  {
    var t := Perform(l, op);
    var e := t.corr.pending[|t.corr.pending| - 1];
    assert t.corr.pending == Kept(l.corr) + [e];
    assert forall x :: x in Kept(l.corr) ==> x in l.corr.pending;
  }

  lemma RemoveKeeps(ttl: nat, maxPending: nat, l: Life, topic: string, now: int)
    requires LifeInv(ttl, maxPending, l) && l.clock <= now
    ensures LifeInv(ttl, maxPending, Perform(l, Resolved(topic, now)))
  {
    var t := Perform(l, Resolved(topic, now));
    var i := IndexOf(l.corr.pending, topic);
    if i < |l.corr.pending| {
      RemoveAt(l.corr.pending, i);
      RemovedRecorded(l, i, t);
    }
  }

  lemma RemovedRecorded(l: Life, i: nat, t: Life)
    requires EntriesRecorded(l) && i < |l.corr.pending|
    requires t.corr == Without(l.corr, i) && t.ordinals == Drop(l.ordinals, i) && t.recordings == l.recordings
    ensures EntriesRecorded(t)
  {
    forall j | 0 <= j < |t.ordinals|
      ensures t.ordinals[j] == l.ordinals[if j < i then j else j + 1]
      ensures t.corr.pending[j] == l.corr.pending[if j < i then j else j + 1]
    {
    }
  }

  lemma SweepKeeps(ttl: nat, maxPending: nat, l: Life, now: int)
    requires LifeInv(ttl, maxPending, l) && l.clock <= now
    ensures LifeInv(ttl, maxPending, Perform(l, Swept(now)))
  {
    var t := Perform(l, Swept(now));
    var n := StaleRun(l.corr.pending, now);
    StaleRunExact(l.corr.pending, now);
    SweptRecorded(l, now);
    forall x | x in t.expiries ensures x.entry < |t.recordings| && x.at - t.recordings[x.entry].at >= ttl {
      if x !in l.expiries {
        var j :| 0 <= j < n && Expiries(l.ordinals[..n], now)[j] == x;
        assert l.corr.pending[j].pending.deadline <= now;
        assert x == Expiry(l.ordinals[j], now);
      }
    }
  }

  lemma SweptRecorded(l: Life, now: int)
    requires EntriesRecorded(l) && Admissible(l, Swept(now))
    ensures EntriesRecorded(Perform(l, Swept(now)))
  {
    SuffixRecorded(l.recordings, l.corr.pending, l.ordinals, l.corr.ttl, StaleRun(l.corr.pending, now));
  }

  /** The history misses nothing: an entry that leaves the map is on record as the victim of the
      recording that evicted it, as expired, or was resolved or forgotten by name; and a
      recording is pending at once. */
  lemma HistoryIsComplete(l: Life, op: Op)
    requires EntriesRecorded(l) && Admissible(l, op)
    ensures var t := Perform(l, op);
            && (forall j :: 0 <= j < |l.ordinals| && l.ordinals[j] !in t.ordinals ==>
                  || (op.Minted? && Eviction(l.ordinals[j], |l.recordings|) in t.evictions)
                  || (op.Swept? && Expiry(l.ordinals[j], op.now) in t.expiries)
                  || ((op.Resolved? || op.Forgotten?) && l.corr.pending[j].topic == op.topic))
            && (op.Minted? ==> t.recordings == l.recordings + [Recording(op.topic, op.now)]
                               && |l.recordings| in t.ordinals)
            && t.clock == op.now && (op.Swept? ==> t.lastSweep == op.now)
  {
    var t := Perform(l, op);
    match op
    case Minted(topic, site, id, now) =>
      var evicted := Record(l.corr, topic, site, id, now).1;
      assert t.ordinals[|t.ordinals| - 1] == |l.recordings|;
      assert forall j :: 1 <= j < |l.ordinals| ==> l.ordinals[j] == t.ordinals[if evicted.Some? then j - 1 else j];
      assert evicted.Some? ==> t.evictions[|l.evictions|] == Eviction(l.ordinals[0], |l.recordings|);
      assert evicted.None? && |l.ordinals| > 0 ==> t.ordinals[0] == l.ordinals[0];
    case Swept(now) =>
      var n := StaleRun(l.corr.pending, now);
      assert forall j :: n <= j < |l.ordinals| ==> l.ordinals[j] == t.ordinals[j - n];
      assert forall j :: 0 <= j < n ==> t.expiries[|l.expiries| + j] == Expiry(l.ordinals[j], now);
    case Resolved(topic, now) => DropLeaves(l.ordinals, IndexOf(l.corr.pending, topic));
    case Forgotten(topic, now) => DropLeaves(l.ordinals, IndexOf(l.corr.pending, topic));
  }

  lemma DropLeaves(ordinals: seq<nat>, i: nat)
    ensures forall j :: 0 <= j < |ordinals| && j != i ==> ordinals[j] in Drop(ordinals, i)
  {
    forall j | 0 <= j < |ordinals| && j != i ensures ordinals[j] in Drop(ordinals, i) {
      assert ordinals[j] == Drop(ordinals, i)[if j < i || i >= |ordinals| then j else j - 1];
    }
  }

  lemma LifeStep(ttl: nat, maxPending: nat, l: Life, op: Op)
    requires LifeInv(ttl, maxPending, l) && Admissible(l, op)
    ensures LifeInv(ttl, maxPending, Perform(l, op))
  {
    match op
    case Minted(topic, site, id, now) => MintKeeps(ttl, maxPending, l, op);
    case Resolved(topic, now) => RemoveKeeps(ttl, maxPending, l, topic, now);
    case Swept(now) => SweepKeeps(ttl, maxPending, l, now);
    case Forgotten(topic, now) =>
      AbandonRefines(l.corr, l.clock, topic);
      RemoveKeeps(ttl, maxPending, l, topic, now);
  }

  lemma {:induction false} LifeInvariant(ttl: nat, maxPending: nat, start: int, ops: seq<Op>)
    requires Run(Start(ttl, maxPending, start), ops).Some?
    ensures LifeInv(ttl, maxPending, Run(Start(ttl, maxPending, start), ops).value)
    decreases |ops|
  {
    if ops != [] {
      var front := ops[..|ops| - 1];
      LifeInvariant(ttl, maxPending, start, front);
      LifeStep(ttl, maxPending, Run(Start(ttl, maxPending, start), front).value, ops[|ops| - 1]);
    }
  }

  /** In every run: an entry is evicted only by the maxPending-th later recording or one
      after it, and is never swept before its age reaches the ttl. */
  lemma NeverTornDownEarly(ttl: nat, maxPending: nat, start: int, ops: seq<Op>)
    requires Run(Start(ttl, maxPending, start), ops).Some?
    ensures var l := Run(Start(ttl, maxPending, start), ops).value;
            && (forall v :: v in l.evictions ==>
                  v.victim < v.cause < |l.recordings| && v.cause - v.victim >= maxPending && v.cause - v.victim >= 1)
            && (forall x :: x in l.expiries ==>
                  x.entry < |l.recordings| && x.at - l.recordings[x.entry].at >= ttl)
  {
    LifeInvariant(ttl, maxPending, start, ops);
  }

  /** If the last sweep is at most one sweep interval ago, no pending entry is older than
      the ttl plus that interval: 100 ms to 5 s beyond it. */
  lemma NeverMuchOlderThanTtl(ttl: nat, maxPending: nat, start: int, ops: seq<Op>, now: int, j: nat)
    requires Run(Start(ttl, maxPending, start), ops).Some?
    requires var l := Run(Start(ttl, maxPending, start), ops).value;
             l.clock <= now <= l.lastSweep + SweepInterval(ttl) && j < |l.corr.pending| == |l.ordinals|
    ensures var l := Run(Start(ttl, maxPending, start), ops).value;
            && l.ordinals[j] < |l.recordings|
            && l.recordings[l.ordinals[j]].topic == l.corr.pending[j].topic
            && now - l.recordings[l.ordinals[j]].at <= ttl + SweepInterval(ttl)
  {
    LifeInvariant(ttl, maxPending, start, ops);
    var l := Run(Start(ttl, maxPending, start), ops).value;
    assert l.corr.pending[j] in l.corr.pending;
  }
}
