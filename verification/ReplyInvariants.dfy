/** What every interleaving of the reply proxy's tasks keeps: one fate per request, and a
    live subscription only where an entry or a task accounts for it. */
module ReplyInvariants {
  import opened Wrappers
  import opened Messages
  import opened Reply
  import opened ReplyProxy

  // ---- the invariants ----

  /** The map holds exactly the requests whose fate is open, each with its own site topic. */
  ghost predicate MapAgrees(corr: Corr, recorded: map<string, Request>) {
    && (forall e :: e in corr.pending ==>
          e.topic in recorded && recorded[e.topic].fate == Live && recorded[e.topic].site == e.pending.siteReplyTo)
    && (forall t :: t in recorded && recorded[t].fate == Live ==> t in Keys(corr))
  }

  /** Each bridge topic is established by the one pump that minted it, before its reply
      pump exists. */
  ghost predicate Owned(s: Proxy) {
    && (forall i :: 0 <= i < |s.pumps| && Own(s.pumps[i]).Some? ==>
          var t := Own(s.pumps[i]).value;
          t in s.recorded && s.recorded[t].pump == i && t !in s.repliers)
    && s.recorded.Keys <= s.seen
    && s.repliers.Keys <= s.recorded.Keys
  }

  /** Each removed entry not yet unsubscribed is held by exactly one task. */
  ghost predicate Held(s: Proxy) {
    && (forall i :: 0 <= i < |s.pumps| && s.pumps[i].Evicting? ==>
          s.pumps[i].victim in s.recorded && s.recorded[s.pumps[i].victim].fate == Expiring(ByPump(i)))
    && (forall j :: 0 <= j < |s.sweeping| ==>
          s.sweeping[j] in s.recorded && s.recorded[s.sweeping[j]].fate == Expiring(BySweep))
    && (forall j, k :: 0 <= j < k < |s.sweeping| ==> s.sweeping[j] != s.sweeping[k])
    && (forall t :: t in s.recorded && s.recorded[t].fate.Expiring? ==>
          match s.recorded[t].fate.holder
          case ByPump(i) => i < |s.pumps| && s.pumps[i].Evicting? && s.pumps[i].victim == t
          case BySweep => t in s.sweeping)
  }

  ghost predicate Repliers(s: Proxy) {
    forall t :: t in s.repliers ==>
      && t in s.recorded
      && (s.repliers[t].Resolved? || s.repliers[t].Settled? ==> s.recorded[t].fate == Taken)
      && (s.repliers[t].Resolved? ==> s.repliers[t].site == s.recorded[t].site)
  }

  /** The pump that minted `t` is at the given point with it. */
  ghost predicate Before(s: Proxy, t: string)
    requires t in s.recorded
  {
    var i := s.recorded[t].pump;
    && i < |s.pumps| && Own(s.pumps[i]) == Some(t)
    && (s.pumps[i].Evicting? || s.pumps[i].Subscribing? || s.pumps[i].Abandoning?)
  }

  ghost predicate After(s: Proxy, t: string)
    requires t in s.recorded
  {
    var i := s.recorded[t].pump;
    && i < |s.pumps| && Own(s.pumps[i]) == Some(t)
    && (s.pumps[i].Rechecking? || s.pumps[i].Dangling?)
  }

  /** Some task still has to unsubscribe `t`. */
  ghost predicate Obliged(s: Proxy, t: string)
    requires t in s.recorded
  {
    || s.recorded[t].fate.Expiring?
    || After(s, t)
    || (t in s.repliers && (s.repliers[t].Resolved? || s.repliers[t].Settled?))
  }

  ghost predicate SubscribedFor(s: Proxy, t: string) {
    && (t in s.subs ==>
          t in s.recorded && !Before(s, t) && (s.recorded[t].fate == Live || Obliged(s, t)))
    && (t in s.recorded && s.recorded[t].fate == Live ==>
          && (t in s.subs || Before(s, t))
          && (Before(s, t) || After(s, t) || (t in s.repliers && s.repliers[t].Waiting?))
          && (After(s, t) ==> s.pumps[s.recorded[t].pump].Rechecking?))
  }

  ghost predicate Subscriptions(s: Proxy) {
    forall t :: SubscribedFor(s, t)
  }

  ghost predicate ProxyInv(cfg: Config, s: Proxy) {
    && |s.pumps| == cfg.pumps
    && Ordered(s.corr, s.clock)
    && MapAgrees(s.corr, s.recorded)
    && Owned(s) && Held(s) && Repliers(s) && Subscriptions(s)
  }

  // ---- steps ----

  lemma ContainsIsLive(s: Proxy, t: string)
    requires MapAgrees(s.corr, s.recorded)
    ensures Contains(s.corr, t) <==> t in s.recorded && s.recorded[t].fate == Live
  {
    Found(s.corr.pending, t);
    if t in Keys(s.corr) {
      var e :| e in s.corr.pending && e.topic == t;
    }
  }

  /** The state with one pump moved. */
  function At(s: Proxy, i: nat, p: Pump): Proxy
    requires i < |s.pumps|
  {
    s.(pumps := s.pumps[i := p])
  }

  /** A pump moving on without touching map, subscriptions or reply pumps. */
  lemma MoveKeeps(cfg: Config, s: Proxy, i: nat, p: Pump)
    requires ProxyInv(cfg, s) && i < |s.pumps| && !s.pumps[i].Evicting? && !p.Evicting?
    requires Own(p) == Own(s.pumps[i])
    requires Own(p).Some? ==> s.pumps[i].Subscribing? && p.Abandoning?
    ensures ProxyInv(cfg, At(s, i, p))
  {
    var t := At(s, i, p);
    forall x ensures SubscribedFor(t, x) {
      assert SubscribedFor(s, x);
    }
  }

  lemma EvictTasks(cfg: Config, s: Proxy, i: nat)
    requires ProxyInv(cfg, s) && i < |s.pumps| && s.pumps[i].Evicting?
    ensures var t := OnEvict(s, i); MapAgrees(t.corr, t.recorded) && Owned(t) && Held(t) && Repliers(t)
  {
  }

  lemma EvictSubscriptions(cfg: Config, s: Proxy, i: nat)
    requires ProxyInv(cfg, s) && i < |s.pumps| && s.pumps[i].Evicting?
    ensures Subscriptions(OnEvict(s, i))
  {
    var t := OnEvict(s, i);
    forall x ensures SubscribedFor(t, x) {
      assert SubscribedFor(s, x);
    }
  }

  lemma EvictKeeps(cfg: Config, s: Proxy, i: nat)
    requires ProxyInv(cfg, s) && i < |s.pumps| && s.pumps[i].Evicting?
    ensures ProxyInv(cfg, OnEvict(s, i))
  {
    EvictTasks(cfg, s, i);
    EvictSubscriptions(cfg, s, i);
  }

  lemma SubscribeKeeps(cfg: Config, s: Proxy, i: nat, ok: bool)
    requires ProxyInv(cfg, s) && i < |s.pumps| && s.pumps[i].Subscribing?
    ensures ProxyInv(cfg, OnSubscribe(s, i, ok))
  {
    var t := OnSubscribe(s, i, ok);
    forall x ensures SubscribedFor(t, x) {
      assert SubscribedFor(s, x);
    }
  }

  /** The pump lets go of its topic, whose request is closed by now. */
  lemma LetGoKeeps(cfg: Config, s: Proxy, t: Proxy, i: nat)
    requires ProxyInv(cfg, s) && i < |s.pumps| && s.pumps[i].Abandoning?
    requires var bridge := s.pumps[i].cmd.bridge;
             && bridge in s.recorded
             && t.recorded ==
                (if s.recorded[bridge].fate == Live then SetFate(s.recorded, bridge, Abandoned) else s.recorded)
    requires Ordered(t.corr, t.clock) && MapAgrees(t.corr, t.recorded)
    requires t.pumps == s.pumps[i := Idle] && t.subs == s.subs && t.sweeping == s.sweeping
    requires t.repliers == s.repliers && t.seen == s.seen
    ensures ProxyInv(cfg, t)
  {
    forall x ensures SubscribedFor(t, x) {
      assert SubscribedFor(s, x);
    }
  }

  lemma GiveUpKeeps(cfg: Config, s: Proxy, i: nat)
    requires ProxyInv(cfg, s) && i < |s.pumps| && s.pumps[i].Abandoning?
    ensures ProxyInv(cfg, OnGiveUp(s, i))
  {
    ContainsIsLive(s, s.pumps[i].cmd.bridge);
    RemovedAgrees(s, s.pumps[i].cmd.bridge, Abandoned);
    LetGoKeeps(cfg, s, OnGiveUp(s, i), i);
  }

  lemma RemovedMembers(c: Corr, clock: int, t: string)
    requires Ordered(c, clock)
    ensures Abandon(c, t) == Take(c, t).0 && Ordered(Abandon(c, t), clock)
    ensures forall e :: e in Abandon(c, t).pending <==> e in c.pending && e.topic != t
  {
    AbandonRefines(c, clock, t);
    Found(c.pending, t);
    var i := IndexOf(c.pending, t);
    if i < |c.pending| {
      RemoveAt(c.pending, i);
    }
  }

  lemma MembersAgree(c: Corr, d: Corr, recorded: map<string, Request>, t: string, fate: Fate)
    requires MapAgrees(c, recorded) && fate != Live
    requires forall e :: e in d.pending <==> e in c.pending && e.topic != t
    ensures MapAgrees(d, if t in Keys(c) then SetFate(recorded, t, fate) else recorded)
  {
    var after := if t in Keys(c) then SetFate(recorded, t, fate) else recorded;
    forall x | x in after && after[x].fate == Live ensures x in Keys(d) {
      var e :| e in c.pending && e.topic == x;
      assert e in d.pending;
    }
  }

  /** Taking or abandoning an entry closes exactly that request. */
  lemma RemovedAgrees(s: Proxy, t: string, fate: Fate)
    requires Ordered(s.corr, s.clock) && MapAgrees(s.corr, s.recorded) && fate != Live
    ensures Abandon(s.corr, t) == Take(s.corr, t).0
    ensures Ordered(Abandon(s.corr, t), s.clock)
    ensures MapAgrees(Abandon(s.corr, t), if Contains(s.corr, t) then SetFate(s.recorded, t, fate) else s.recorded)
    ensures Take(s.corr, t).1.Some? <==> Contains(s.corr, t)
    ensures Take(s.corr, t).1.Some? ==> t in s.recorded && Take(s.corr, t).1.value == s.recorded[t].site
  {
    RemovedMembers(s.corr, s.clock, t);
    ContainsIsLive(s, t);
    MembersAgree(s.corr, Abandon(s.corr, t), s.recorded, t, fate);
    var i := IndexOf(s.corr.pending, t);
    if i < |s.corr.pending| {
      assert s.corr.pending[i] in s.corr.pending;
      assert t in Keys(s.corr);
    }
  }

  /** The entry is there: the reply pump starts. */
  lemma StartsWaiting(cfg: Config, s: Proxy, t: Proxy, i: nat)
    requires ProxyInv(cfg, s) && i < |s.pumps| && s.pumps[i].Rechecking?
    requires var cmd := s.pumps[i].cmd;
             && cmd.bridge in s.recorded && s.recorded[cmd.bridge].fate == Live
             && t == s.(pumps := s.pumps[i := Relaying(cmd.topic, cmd.bytes, cmd.from)],
                        repliers := s.repliers[cmd.bridge := Waiting])
    ensures ProxyInv(cfg, t)
  {
    forall x ensures SubscribedFor(t, x) {
      assert SubscribedFor(s, x);
    }
  }

  /** The entry is gone: the subscription is left to give back. */
  lemma LeftDangling(cfg: Config, s: Proxy, t: Proxy, i: nat)
    requires ProxyInv(cfg, s) && i < |s.pumps| && s.pumps[i].Rechecking?
    requires var cmd := s.pumps[i].cmd;
             && cmd.bridge in s.recorded && s.recorded[cmd.bridge].fate != Live
             && t == s.(pumps := s.pumps[i := Dangling(cmd)])
    ensures ProxyInv(cfg, t)
  {
    forall x ensures SubscribedFor(t, x) {
      assert SubscribedFor(s, x);
    }
  }

  lemma RecheckKeeps(cfg: Config, s: Proxy, i: nat)
    requires ProxyInv(cfg, s) && i < |s.pumps| && s.pumps[i].Rechecking?
    ensures ProxyInv(cfg, OnRecheck(s, i))
  {
    ContainsIsLive(s, s.pumps[i].cmd.bridge);
    if Contains(s.corr, s.pumps[i].cmd.bridge) {
      StartsWaiting(cfg, s, OnRecheck(s, i), i);
    } else {
      LeftDangling(cfg, s, OnRecheck(s, i), i);
    }
  }

  lemma UndangleKeeps(cfg: Config, s: Proxy, i: nat)
    requires ProxyInv(cfg, s) && i < |s.pumps| && s.pumps[i].Dangling?
    ensures ProxyInv(cfg, OnUndangle(s, i))
  {
    var t := OnUndangle(s, i);
    assert SubscribedFor(s, s.pumps[i].cmd.bridge);
    forall x ensures SubscribedFor(t, x) {
      assert SubscribedFor(s, x);
    }
  }

  lemma HeadLeaves(s: seq<string>)
    requires s != [] && forall j, k :: 0 <= j < k < |s| ==> s[j] != s[k]
    ensures forall x :: x in s[1..] <==> x in s && x != s[0]
    ensures forall j, k :: 0 <= j < k < |s[1..]| ==> s[1..][j] != s[1..][k]
  {
    assert s == [s[0]] + s[1..];
    assert forall j :: 0 <= j < |s| - 1 ==> s[1..][j] == s[j + 1];
  }

  lemma ExpireNextHeld(s: Proxy)
    requires Held(s) && s.sweeping != []
    ensures Held(OnExpireNext(s))
  {
    HeadLeaves(s.sweeping);
    var t := OnExpireNext(s);
    forall j | 0 <= j < |t.sweeping|
      ensures t.sweeping[j] in t.recorded && t.recorded[t.sweeping[j]].fate == Expiring(BySweep)
    {
      assert t.sweeping[j] == s.sweeping[j + 1];
    }
  }

  lemma ExpireNextKeeps(cfg: Config, s: Proxy)
    requires ProxyInv(cfg, s) && s.sweeping != []
    ensures ProxyInv(cfg, OnExpireNext(s))
  {
    var t := OnExpireNext(s);
    assert s.sweeping[0] in s.recorded && s.recorded[s.sweeping[0]].fate == Expiring(BySweep);
    ExpireNextHeld(s);
    forall x ensures SubscribedFor(t, x) {
      assert SubscribedFor(s, x);
    }
  }

  lemma TakenKeeps(cfg: Config, s: Proxy, t: Proxy, bridge: string, r: Replier)
    requires ProxyInv(cfg, s) && bridge in s.repliers && s.repliers[bridge].Waiting?
    requires bridge in s.recorded && s.recorded[bridge].fate == Live
    requires r.Resolved? && r.site == s.recorded[bridge].site
    requires Ordered(t.corr, t.clock) && t.recorded == SetFate(s.recorded, bridge, Taken)
    requires MapAgrees(t.corr, t.recorded)
    requires t.repliers == s.repliers[bridge := r]
    requires t.subs == s.subs && t.pumps == s.pumps && t.sweeping == s.sweeping && t.seen == s.seen
    ensures ProxyInv(cfg, t)
  {
    forall x ensures SubscribedFor(t, x) {
      assert SubscribedFor(s, x);
    }
  }

  lemma StrayKeeps(cfg: Config, s: Proxy, t: Proxy, bridge: string)
    requires ProxyInv(cfg, s) && bridge in s.repliers && s.repliers[bridge].Waiting?
    requires bridge in s.recorded && s.recorded[bridge].fate != Live
    requires t.repliers == s.repliers[bridge := Done] && t.corr == s.corr && t.clock == s.clock
    requires t.recorded == s.recorded
    requires t.subs == s.subs && t.pumps == s.pumps && t.sweeping == s.sweeping && t.seen == s.seen
    ensures ProxyInv(cfg, t)
  {
    forall x ensures SubscribedFor(t, x) {
      assert SubscribedFor(s, x);
    }
  }

  lemma ReplyKeeps(cfg: Config, s: Proxy, bridge: string, payload: Bytes)
    requires ProxyInv(cfg, s) && bridge in s.repliers && s.repliers[bridge].Waiting?
    ensures ProxyInv(cfg, OnReply(s, bridge, payload))
  {
    RemovedAgrees(s, bridge, Taken);
    ContainsIsLive(s, bridge);
    if Contains(s.corr, bridge) {
      TakenKeeps(cfg, s, OnReply(s, bridge, payload), bridge, Resolved(s.recorded[bridge].site, payload));
    } else {
      StrayKeeps(cfg, s, OnReply(s, bridge, payload), bridge);
    }
  }

  /** A reply pump moving on after its request was taken, or closing without one. */
  lemma ReplierKeeps(cfg: Config, s: Proxy, bridge: string, r: Replier)
    requires ProxyInv(cfg, s) && bridge in s.repliers
    requires || (s.repliers[bridge].Resolved? && r == Settled)
             || (s.repliers[bridge].Waiting? && bridge !in s.subs && r == Done)
    ensures ProxyInv(cfg, s.(repliers := s.repliers[bridge := r]))
  {
    var t := s.(repliers := s.repliers[bridge := r]);
    assert SubscribedFor(s, bridge);
    forall x ensures SubscribedFor(t, x) {
      assert SubscribedFor(s, x);
    }
  }

  lemma TearDownKeeps(cfg: Config, s: Proxy, bridge: string)
    requires ProxyInv(cfg, s) && bridge in s.repliers && s.repliers[bridge].Settled?
    ensures ProxyInv(cfg, s.(subs := s.subs - {bridge}, repliers := s.repliers[bridge := Done]))
  {
    var t := s.(subs := s.subs - {bridge}, repliers := s.repliers[bridge := Done]);
    forall x ensures SubscribedFor(t, x) {
      assert SubscribedFor(s, x);
    }
  }

  lemma SweptTopics(c: Corr, clock: int, now: int)
    requires Ordered(c, clock) && clock <= now
    ensures forall e :: e in Sweep(c, now).0.pending <==> e in c.pending && e.topic !in Sweep(c, now).1
    ensures forall x :: x in Sweep(c, now).1 ==> x in Keys(c)
  {
    StaleRunExact(c.pending, now);
    var n := StaleRun(c.pending, now);
    var gone, kept := c.pending[..n], c.pending[n..];
    NamesMembers(gone);
    PrefixMembers(c.pending, n);
    forall d, e | d in gone && e in kept ensures d.topic != e.topic {
      if d.topic == e.topic { DistinctEntries(c.pending, d, e); }
    }
  }

  lemma NamesMembers(entries: seq<Entry>)
    ensures forall x :: x in Names(entries) <==> exists e :: e in entries && e.topic == x
  {
    forall x ensures x in Names(entries) <==> exists e :: e in entries && e.topic == x {
      if x in Names(entries) {
        var j :| 0 <= j < |entries| && Names(entries)[j] == x;
        assert entries[j] in entries;
      }
      if e :| e in entries && e.topic == x {
        var j :| 0 <= j < |entries| && entries[j] == e;
        assert Names(entries)[j] == x;
      }
    }
  }

  lemma SweptAgree(c: Corr, d: Corr, recorded: map<string, Request>, after: map<string, Request>, gone: seq<string>)
    requires MapAgrees(c, recorded)
    requires forall e :: e in d.pending <==> e in c.pending && e.topic !in gone
    requires after.Keys == recorded.Keys
    requires forall x :: x in after ==>
               after[x] == if x in gone then recorded[x].(fate := Expiring(BySweep)) else recorded[x]
    ensures MapAgrees(d, after)
  {
    forall x | x in after && after[x].fate == Live ensures x in Keys(d) {
      var e :| e in c.pending && e.topic == x;
      assert e in d.pending;
    }
  }

  lemma SweepAgrees(s: Proxy, now: int)
    requires Ordered(s.corr, s.clock) && MapAgrees(s.corr, s.recorded) && s.clock <= now
    ensures Ordered(OnSweep(s, now).corr, now)
    ensures MapAgrees(OnSweep(s, now).corr, OnSweep(s, now).recorded)
    ensures forall t :: t in OnSweep(s, now).sweeping ==> t in s.recorded && s.recorded[t].fate == Live
    ensures var x := OnSweep(s, now).sweeping; forall j, k :: 0 <= j < k < |x| ==> x[j] != x[k]
  {
    SweepRefines(s.corr, s.clock, now);
    SweptTopics(s.corr, s.clock, now);
    var t := OnSweep(s, now);
    SweptAgree(s.corr, t.corr, s.recorded, t.recorded, t.sweeping);
  }

  /** The state after a sweep: what it removed was open, and is now held by the sweep. */
  ghost predicate SweptState(s: Proxy, t: Proxy) {
    && s.sweeping == []
    && (forall x :: x in t.sweeping ==> x in s.recorded && s.recorded[x].fate == Live)
    && (forall j, k :: 0 <= j < k < |t.sweeping| ==> t.sweeping[j] != t.sweeping[k])
    && t.recorded.Keys == s.recorded.Keys
    && (forall x :: x in t.recorded ==>
          t.recorded[x] == if x in t.sweeping then s.recorded[x].(fate := Expiring(BySweep)) else s.recorded[x])
    && t.pumps == s.pumps && t.repliers == s.repliers && t.subs == s.subs && t.seen == s.seen
  }

  lemma SweptTasks(s: Proxy, t: Proxy)
    requires Owned(s) && Held(s) && Repliers(s) && SweptState(s, t)
    ensures Owned(t) && Held(t) && Repliers(t)
  {
  }

  lemma SweptSubscriptions(s: Proxy, t: Proxy)
    requires Subscriptions(s) && SweptState(s, t)
    ensures Subscriptions(t)
  {
    forall x ensures SubscribedFor(t, x) {
      assert SubscribedFor(s, x);
    }
  }

  lemma SweepKeeps(cfg: Config, s: Proxy, now: int)
    requires ProxyInv(cfg, s) && s.sweeping == [] && s.clock <= now
    ensures ProxyInv(cfg, OnSweep(s, now))
  {
    SweepAgrees(s, now);
    SweptTasks(s, OnSweep(s, now));
    SweptSubscriptions(s, OnSweep(s, now));
  }

  lemma RecordMembers(c: Corr, clock: int, minted: string, site: string, id: string, now: int)
    requires Ordered(c, clock) && clock <= now && minted !in Keys(c)
    ensures var (d, evicted) := Record(c, minted, site, id, now);
            && Ordered(d, now)
            && (evicted.Some? ==> evicted.value in Keys(c))
            && (forall e :: e in d.pending <==>
                  || e == Entry(minted, Reply.Pending(site, id, now + c.ttl))
                  || (e in c.pending && evicted != Some(e.topic)))
  {
    RecordKeepsOrder(c, clock, minted, site, id, now);
    var (d, evicted) := Record(c, minted, site, id, now);
    assert d.pending == Kept(c) + [Entry(minted, Reply.Pending(site, id, now + c.ttl))];
    if evicted.Some? {
      assert c.pending[..0] + c.pending[1..] == Kept(c);
      RemoveAt(c.pending, 0);
      assert c.pending[0] in c.pending;
    }
  }

  lemma RecordAgrees(c: Corr, d: Corr, recorded: map<string, Request>, added: Entry, i: nat, evicted: Option<string>)
    requires MapAgrees(c, recorded) && added.topic !in recorded
    requires evicted.Some? ==> evicted.value in Keys(c)
    requires forall e :: e in d.pending <==> e == added || (e in c.pending && evicted != Some(e.topic))
    ensures var more := recorded[added.topic := Request(added.pending.siteReplyTo, i, Live)];
            MapAgrees(d, if evicted.Some? then SetFate(more, evicted.value, Expiring(ByPump(i))) else more)
  {
    var more := recorded[added.topic := Request(added.pending.siteReplyTo, i, Live)];
    var after := if evicted.Some? then SetFate(more, evicted.value, Expiring(ByPump(i))) else more;
    forall x | x in after && after[x].fate == Live ensures x in Keys(d) {
      if x == added.topic {
        assert added in d.pending;
      } else {
        var e :| e in c.pending && e.topic == x;
        assert e in d.pending;
      }
    }
  }

  /** The state after recording `minted`, with or without a victim. */
  ghost predicate Recorded(s: Proxy, t: Proxy, i: nat, cmd: Rewrote, site: string, evicted: Option<string>)
    requires i < |s.pumps|
  {
    var more := s.recorded[cmd.bridge := Request(site, i, Live)];
    && t.pumps == s.pumps[i := if evicted.Some? then Evicting(cmd, evicted.value) else Subscribing(cmd)]
    && t.recorded == (if evicted.Some? then SetFate(more, evicted.value, Expiring(ByPump(i))) else more)
    && t.seen == s.seen + {cmd.bridge, site}
    && t.subs == s.subs && t.sweeping == s.sweeping && t.repliers == s.repliers
  }

  lemma RecordedTasks(s: Proxy, t: Proxy, i: nat, cmd: Rewrote, site: string, evicted: Option<string>)
    requires Owned(s) && Held(s) && Repliers(s) && Subscriptions(s)
    requires i < |s.pumps| && s.pumps[i].Decided? && cmd.bridge !in s.seen
    requires evicted.Some? ==> evicted.value in s.recorded && s.recorded[evicted.value].fate == Live
    requires Recorded(s, t, i, cmd, site, evicted)
    ensures Owned(t) && Held(t) && Repliers(t)
  {
    assert cmd.bridge !in s.recorded;
  }

  lemma RecordedSubscriptions(s: Proxy, t: Proxy, i: nat, cmd: Rewrote, site: string, evicted: Option<string>)
    requires Owned(s) && Held(s) && Repliers(s) && Subscriptions(s)
    requires i < |s.pumps| && s.pumps[i].Decided? && cmd.bridge !in s.seen
    requires evicted.Some? ==> evicted.value in s.recorded && s.recorded[evicted.value].fate == Live
    requires Recorded(s, t, i, cmd, site, evicted)
    ensures Subscriptions(t)
  {
    assert cmd.bridge !in s.recorded;
    forall x ensures SubscribedFor(t, x) {
      assert SubscribedFor(s, x);
    }
  }

  /** A command rewritten: a fresh request is recorded, and the victim, if any, is closed
      and held by this pump. */
  lemma RecordingKeeps(cfg: Config, s: Proxy, i: nat, minted: string, now: int)
    requires ProxyInv(cfg, s) && Possible(cfg, s, RewriteCmd(i, minted, now))
    requires Rewrite(s.corr, cfg.codec, s.pumps[i].payload, minted, now).1.Rewritten?
    ensures ProxyInv(cfg, OnRewrite(cfg, s, i, minted, now))
  {
    var t := OnRewrite(cfg, s, i, minted, now);
    var m := cfg.codec.decode(s.pumps[i].payload).value;
    var site := m.replyTo.value;
    assert minted !in Keys(s.corr);
    RecordMembers(s.corr, s.clock, minted, site, m.correlationId, now);
    var evicted := Record(s.corr, minted, site, m.correlationId, now).1;
    RecordAgrees(s.corr, t.corr, s.recorded,
                 Entry(minted, Reply.Pending(site, m.correlationId, now + s.corr.ttl)), i, evicted);
    var bytes := Rewrite(s.corr, cfg.codec, s.pumps[i].payload, minted, now).1.bytes;
    var cmd := Rewrote(s.pumps[i].topic, bytes, minted, s.pumps[i].from);
    assert Recorded(s, t, i, cmd, site, evicted);
    RecordedTasks(s, t, i, cmd, site, evicted);
    RecordedSubscriptions(s, t, i, cmd, site, evicted);
  }

  lemma RewriteKeeps(cfg: Config, s: Proxy, i: nat, minted: string, now: int)
    requires ProxyInv(cfg, s) && Possible(cfg, s, RewriteCmd(i, minted, now))
    ensures ProxyInv(cfg, OnRewrite(cfg, s, i, minted, now))
  {
    var rewrite := Rewrite(s.corr, cfg.codec, s.pumps[i].payload, minted, now).1;
    if rewrite.Rewritten? {
      RecordingKeeps(cfg, s, i, minted, now);
    } else {
      var p := s.pumps[i];
      var moved := if rewrite.Passthrough? then Relaying(p.topic, p.payload, p.from) else Idle;
      MoveKeeps(cfg, s, i, moved);
      SameButCounts(cfg, At(s, i, moved), OnRewrite(cfg, s, i, minted, now));
    }
  }

  /** The invariant does not read counters or publication logs, and survives the clock. */
  lemma SameButCounts(cfg: Config, s: Proxy, t: Proxy)
    requires ProxyInv(cfg, s) && s.clock <= t.clock
    requires t.corr == s.corr && t.subs == s.subs && t.pumps == s.pumps && t.sweeping == s.sweeping
    requires t.repliers == s.repliers && t.recorded == s.recorded && t.seen == s.seen
    ensures ProxyInv(cfg, t)
  {
    forall x ensures SubscribedFor(t, x) {
      assert SubscribedFor(s, x);
    }
  }

  lemma ReceiveKeeps(cfg: Config, s: Proxy, i: nat, topic: string, payload: Bytes)
    requires ProxyInv(cfg, s) && i < |s.pumps| && s.pumps[i].Idle?
    ensures ProxyInv(cfg, OnReceive(cfg, s, i, topic, payload))
  {
    var t := OnReceive(cfg, s, i, topic, payload);
    MoveKeeps(cfg, s, i, t.pumps[i]);
    assert t.pumps == s.pumps[i := t.pumps[i]];
    SameButCounts(cfg, At(s, i, t.pumps[i]), t);
  }

  lemma RelayDownKeeps(cfg: Config, s: Proxy, i: nat, ok: bool)
    requires ProxyInv(cfg, s) && i < |s.pumps| && s.pumps[i].Relaying?
    ensures ProxyInv(cfg, OnRelayDown(s, i, ok))
  {
    MoveKeeps(cfg, s, i, Idle);
    SameButCounts(cfg, At(s, i, Idle), OnRelayDown(s, i, ok));
  }

  lemma SettleKeeps(cfg: Config, s: Proxy, bridge: string, ok: bool)
    requires ProxyInv(cfg, s) && Possible(cfg, s, SettleReply(bridge, ok))
    ensures ProxyInv(cfg, OnSettle(cfg, s, bridge, ok))
  {
    ReplierKeeps(cfg, s, bridge, Settled);
    SameButCounts(cfg, s.(repliers := s.repliers[bridge := Settled]), OnSettle(cfg, s, bridge, ok));
  }

  lemma ProxyStep(cfg: Config, s: Proxy, a: Action)
    requires ProxyInv(cfg, s) && Possible(cfg, s, a)
    ensures ProxyInv(cfg, Step(cfg, s, a))
  {
    match a
    case Receive(i, topic, payload) => ReceiveKeeps(cfg, s, i, topic, payload);
    case RewriteCmd(i, minted, now) => RewriteKeeps(cfg, s, i, minted, now);
    case Evict(i) => EvictKeeps(cfg, s, i);
    case Subscribe(i, ok) => SubscribeKeeps(cfg, s, i, ok);
    case GiveUp(i) => GiveUpKeeps(cfg, s, i);
    case Recheck(i) => RecheckKeeps(cfg, s, i);
    case Undangle(i) => UndangleKeeps(cfg, s, i);
    case RelayDown(i, ok) => RelayDownKeeps(cfg, s, i, ok);
    case SweepMap(now) => SweepKeeps(cfg, s, now);
    case ExpireNext => ExpireNextKeeps(cfg, s);
    case ReplyArrives(t, payload) => ReplyKeeps(cfg, s, t, payload);
    case SettleReply(t, ok) => SettleKeeps(cfg, s, t, ok);
    case TearDown(t) => TearDownKeeps(cfg, s, t);
    case Close(t) => ReplierKeeps(cfg, s, t, Done);
  }

  /** All of it holds in every reachable state. */
  lemma {:induction false} ProxyInvariant(cfg: Config, actions: seq<Action>)
    requires Run(cfg, actions).Some?
    ensures ProxyInv(cfg, Run(cfg, actions).value)
    decreases |actions|
  {
    if actions == [] {
      assert forall x :: SubscribedFor(Initial(cfg), x);
    } else {
      var front := actions[..|actions| - 1];
      ProxyInvariant(cfg, front);
      ProxyStep(cfg, Run(cfg, front).value, actions[|actions| - 1]);
    }
  }

  // ---- subscriptions ----

  /** No live bridge-topic subscription is ever unaccounted for: it has a map entry, or
      some task still has to unsubscribe it. */
  lemma NoOrphanSubscription(cfg: Config, actions: seq<Action>, t: string)
    requires Run(cfg, actions).Some? && t in Run(cfg, actions).value.subs
    ensures var s := Run(cfg, actions).value;
            t in s.recorded && (t in Keys(s.corr) || Obliged(s, t))
  {
    ProxyInvariant(cfg, actions);
    var s := Run(cfg, actions).value;
    assert SubscribedFor(s, t);
  }

  /** No task is between touching the map and finishing what follows from it. */
  ghost predicate Quiescent(s: Proxy) {
    && (forall i :: 0 <= i < |s.pumps| ==> Own(s.pumps[i]).None?)
    && s.sweeping == []
    && (forall t :: t in s.repliers ==> s.repliers[t].Waiting? || s.repliers[t].Done?)
  }

  /** At rest the subscribed bridge topics are exactly the keys of the map, and a reply
      pump is waiting on each. */
  lemma SubscriptionsMatchMapAtRest(cfg: Config, actions: seq<Action>)
    requires Run(cfg, actions).Some? && Quiescent(Run(cfg, actions).value)
    ensures var s := Run(cfg, actions).value;
            && s.subs == Keys(s.corr)
            && forall t :: t in Keys(s.corr) ==> t in s.repliers && s.repliers[t].Waiting?
  {
    ProxyInvariant(cfg, actions);
    var s := Run(cfg, actions).value;
    forall t ensures t in s.subs <==> t in Keys(s.corr) {
      assert SubscribedFor(s, t);
      if t in Keys(s.corr) { assert s.recorded[t].fate == Live; }
    }
    forall t | t in Keys(s.corr) ensures t in s.repliers && s.repliers[t].Waiting? {
      assert SubscribedFor(s, t);
      assert s.recorded[t].fate == Live;
    }
  }
}
