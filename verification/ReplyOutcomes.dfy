/** What the reply proxy's runs produce: fates that are final and add up, at most one
    answer per request to its own requester, and commands that leak no site topic. */
module ReplyOutcomes {
  import opened Wrappers
  import opened Messages
  import opened Reply
  import opened ReplyProxy
  import opened ReplyInvariants

  // ---- fates are final ----

  /** How a fate may change: an open one closes, a held one expires, the rest stay. */
  predicate Advances(f: Fate, g: Fate) {
    f == g || f == Live || (f.Expiring? && g == Expired)
  }

  datatype Kind = IsLive | IsTaken | IsExpiring | IsExpired | IsAbandoned

  function KindOf(f: Fate): Kind {
    match f
    case Live => IsLive
    case Taken => IsTaken
    case Expiring(_) => IsExpiring
    case Expired => IsExpired
    case Abandoned => IsAbandoned
  }

  function OfKind(recorded: map<string, Request>, k: Kind): set<string> {
    set t | t in recorded && KindOf(recorded[t].fate) == k
  }

  ghost predicate Advanced(before: map<string, Request>, after: map<string, Request>) {
    forall x :: x in before ==>
      x in after && after[x].site == before[x].site && Advances(before[x].fate, after[x].fate)
  }

  lemma SetFateAdvances(recorded: map<string, Request>, t: string, f: Fate)
    requires t in recorded ==> Advances(recorded[t].fate, f)
    ensures Advanced(recorded, SetFate(recorded, t, f))
  {
  }

  lemma RewriteFates(cfg: Config, s: Proxy, i: nat, minted: string, now: int)
    requires ProxyInv(cfg, s) && Possible(cfg, s, RewriteCmd(i, minted, now))
    ensures minted !in s.recorded
    ensures var r := Rewrite(s.corr, cfg.codec, s.pumps[i].payload, minted, now).1;
            r.Rewritten? && r.evicted.Some? ==>
              r.evicted.value in s.recorded && s.recorded[r.evicted.value].fate == Live
  {
    if s.corr.pending != [] { assert s.corr.pending[0] in s.corr.pending; }
  }

  lemma RewriteAdvances(cfg: Config, s: Proxy, i: nat, minted: string, now: int)
    requires Possible(cfg, s, RewriteCmd(i, minted, now)) && minted !in s.recorded
    requires var r := Rewrite(s.corr, cfg.codec, s.pumps[i].payload, minted, now).1;
             r.Rewritten? && r.evicted.Some? ==>
               r.evicted.value in s.recorded && s.recorded[r.evicted.value].fate == Live
    ensures var t := OnRewrite(cfg, s, i, minted, now);
            && Advanced(s.recorded, t.recorded)
            && Count(t.recorded, IsExpired) == Count(s.recorded, IsExpired)
            && Count(t.recorded, IsTaken) == Count(s.recorded, IsTaken)
  {
    var t := OnRewrite(cfg, s, i, minted, now);
    assert OfKind(t.recorded, IsExpired) == OfKind(s.recorded, IsExpired);
    assert OfKind(t.recorded, IsTaken) == OfKind(s.recorded, IsTaken);
  }

  lemma SweepAdvances(s: Proxy, now: int)
    requires forall t :: t in OnSweep(s, now).sweeping ==> t in s.recorded && s.recorded[t].fate == Live
    ensures var t := OnSweep(s, now);
            && Advanced(s.recorded, t.recorded)
            && Count(t.recorded, IsExpired) == Count(s.recorded, IsExpired)
            && Count(t.recorded, IsTaken) == Count(s.recorded, IsTaken)
  {
    var t := OnSweep(s, now);
    assert OfKind(t.recorded, IsExpired) == OfKind(s.recorded, IsExpired);
    assert OfKind(t.recorded, IsTaken) == OfKind(s.recorded, IsTaken);
  }

  lemma FatesAdvance(cfg: Config, s: Proxy, a: Action)
    requires ProxyInv(cfg, s) && Possible(cfg, s, a)
    ensures Advanced(s.recorded, Step(cfg, s, a).recorded)
  {
    match a
    case RewriteCmd(i, minted, now) =>
      RewriteFates(cfg, s, i, minted, now);
      RewriteAdvances(cfg, s, i, minted, now);
    case Evict(i) => SetFateAdvances(s.recorded, s.pumps[i].victim, Expired);
    case GiveUp(i) =>
      ContainsIsLive(s, s.pumps[i].cmd.bridge);
      if Contains(s.corr, s.pumps[i].cmd.bridge) { SetFateAdvances(s.recorded, s.pumps[i].cmd.bridge, Abandoned); }
    case ReplyArrives(x, payload) =>
      RemovedAgrees(s, x, Taken);
      ContainsIsLive(s, x);
      if Contains(s.corr, x) { SetFateAdvances(s.recorded, x, Taken); }
    case SweepMap(now) =>
      SweepAgrees(s, now);
      SweepAdvances(s, now);
    case ExpireNext =>
      assert s.sweeping[0] in s.recorded;
      SetFateAdvances(s.recorded, s.sweeping[0], Expired);
    case _ =>
  }

  /** Over any continuation of a run a recorded topic keeps its site topic, and a closed
      fate is final. */
  lemma {:induction false} ExactlyOneFate(cfg: Config, actions: seq<Action>, n: nat, x: string)
    requires n <= |actions| && Run(cfg, actions).Some?
    requires Run(cfg, actions[..n]).Some? && x in Run(cfg, actions[..n]).value.recorded
    ensures var early, late := Run(cfg, actions[..n]).value, Run(cfg, actions).value;
            && x in late.recorded
            && late.recorded[x].site == early.recorded[x].site
            && Advances(early.recorded[x].fate, late.recorded[x].fate)
    decreases |actions|
  {
    if n == |actions| {
      assert actions[..n] == actions;
    } else {
      var front := actions[..|actions| - 1];
      assert front[..n] == actions[..n];
      ExactlyOneFate(cfg, front, n, x);
      ProxyInvariant(cfg, front);
      FatesAdvance(cfg, Run(cfg, front).value, actions[|actions| - 1]);
    }
  }

  // ---- counting fates ----

  function Count(recorded: map<string, Request>, k: Kind): nat { |OfKind(recorded, k)| }

  function ResolvedNow(repliers: map<string, Replier>): set<string> {
    set t | t in repliers && repliers[t].Resolved?
  }

  function Settling(repliers: map<string, Replier>): nat { |ResolvedNow(repliers)| }

  function Busy(pumps: seq<Pump>): nat {
    if pumps == [] then 0 else (if pumps[0].Idle? then 0 else 1) + Busy(pumps[1..])
  }

  lemma {:induction false} BusyUpdate(pumps: seq<Pump>, i: nat, p: Pump)
    requires i < |pumps|
    ensures Busy(pumps[i := p]) + (if pumps[i].Idle? then 0 else 1) == Busy(pumps) + (if p.Idle? then 0 else 1)
  {
    var updated := pumps[i := p];
    if i == 0 {
      assert updated[1..] == pumps[1..];
    } else {
      BusyUpdate(pumps[1..], i - 1, p);
      assert updated[1..] == pumps[1..][i - 1 := p];
    }
  }

  lemma {:induction false} IdleNotBusy(pumps: seq<Pump>)
    requires forall i :: 0 <= i < |pumps| ==> pumps[i].Idle?
    ensures Busy(pumps) == 0
  {
    if pumps != [] { IdleNotBusy(pumps[1..]); }
  }

  /** The counters against the history: expiries, settled replies, commands received. */
  ghost predicate Tallied(s: Proxy) {
    && s.counts.expired == Count(s.recorded, IsExpired)
    && Count(s.recorded, IsTaken) ==
         s.counts.replyRelayed + s.counts.replyFailed + s.counts.replyDropped + Settling(s.repliers)
    && s.counts.received ==
         s.counts.dropped + s.counts.downlinked + s.counts.publishFailed + s.counts.subscribeFailed + Busy(s.pumps)
  }

  lemma FateMoves(recorded: map<string, Request>, t: string, f: Fate, k: Kind)
    requires t in recorded
    ensures Count(SetFate(recorded, t, f), k) ==
            Count(recorded, k) - (if KindOf(recorded[t].fate) == k then 1 else 0) + (if KindOf(f) == k then 1 else 0)
  {
    var before, after := OfKind(recorded, k), OfKind(SetFate(recorded, t, f), k);
    assert after == before - {t} + (if KindOf(f) == k then {t} else {});
  }

  lemma ReplierMoves(repliers: map<string, Replier>, t: string, r: Replier)
    ensures Settling(repliers[t := r]) ==
            Settling(repliers) - (if t in repliers && repliers[t].Resolved? then 1 else 0)
            + (if r.Resolved? then 1 else 0)
  {
    assert ResolvedNow(repliers[t := r]) == ResolvedNow(repliers) - {t} + (if r.Resolved? then {t} else {});
  }

  /** A rewrite moves one pump, and counts a drop exactly when that ends the command. */
  lemma RewriteShape(cfg: Config, s: Proxy, i: nat, minted: string, now: int)
    requires Possible(cfg, s, RewriteCmd(i, minted, now))
    ensures var t := OnRewrite(cfg, s, i, minted, now);
            && |t.pumps| == |s.pumps| && t.pumps == s.pumps[i := t.pumps[i]]
            && t.repliers == s.repliers && t.answers == s.answers && t.relayed == s.relayed
            && t.subscribed == s.subscribed && t.inbox == s.inbox && t.taken == s.taken
            && t.counts == s.counts.(dropped := s.counts.dropped + if t.pumps[i].Idle? then 1 else 0)
  {
  }

  lemma RewriteTallied(cfg: Config, s: Proxy, i: nat, minted: string, now: int)
    requires Tallied(s) && Possible(cfg, s, RewriteCmd(i, minted, now))
    requires var t := OnRewrite(cfg, s, i, minted, now);
             && Count(t.recorded, IsExpired) == Count(s.recorded, IsExpired)
             && Count(t.recorded, IsTaken) == Count(s.recorded, IsTaken)
    ensures Tallied(OnRewrite(cfg, s, i, minted, now))
  {
    RewriteShape(cfg, s, i, minted, now);
    BusyUpdate(s.pumps, i, OnRewrite(cfg, s, i, minted, now).pumps[i]);
  }

  lemma EvictTallied(cfg: Config, s: Proxy, i: nat)
    requires ProxyInv(cfg, s) && Tallied(s) && Possible(cfg, s, Evict(i))
    ensures Tallied(OnEvict(s, i))
  {
    BusyUpdate(s.pumps, i, OnEvict(s, i).pumps[i]);
    FateMoves(s.recorded, s.pumps[i].victim, Expired, IsExpired);
    FateMoves(s.recorded, s.pumps[i].victim, Expired, IsTaken);
  }

  lemma GiveUpTallied(cfg: Config, s: Proxy, i: nat)
    requires ProxyInv(cfg, s) && Tallied(s) && Possible(cfg, s, GiveUp(i))
    ensures Tallied(OnGiveUp(s, i))
  {
    var bridge := s.pumps[i].cmd.bridge;
    BusyUpdate(s.pumps, i, Idle);
    ContainsIsLive(s, bridge);
    if Contains(s.corr, bridge) {
      FateMoves(s.recorded, bridge, Abandoned, IsExpired);
      FateMoves(s.recorded, bridge, Abandoned, IsTaken);
    }
  }

  lemma RecheckTallied(cfg: Config, s: Proxy, i: nat)
    requires ProxyInv(cfg, s) && Tallied(s) && Possible(cfg, s, Recheck(i))
    ensures Tallied(OnRecheck(s, i))
  {
    BusyUpdate(s.pumps, i, OnRecheck(s, i).pumps[i]);
    ReplierMoves(s.repliers, s.pumps[i].cmd.bridge, Waiting);
  }

  /** A pump moved, nothing closed: at most one counter of the command balance moves with it. */
  lemma MoveTallied(s: Proxy, t: Proxy, i: nat, p: Pump)
    requires Tallied(s) && i < |s.pumps| && t.pumps == s.pumps[i := p]
    requires t.recorded == s.recorded && t.repliers == s.repliers
    requires t.counts.expired == s.counts.expired
    requires t.counts.replyRelayed == s.counts.replyRelayed && t.counts.replyFailed == s.counts.replyFailed
    requires t.counts.replyDropped == s.counts.replyDropped
    requires (t.counts.dropped + t.counts.downlinked + t.counts.publishFailed + t.counts.subscribeFailed) -
             (s.counts.dropped + s.counts.downlinked + s.counts.publishFailed + s.counts.subscribeFailed) ==
             t.counts.received - s.counts.received + (if s.pumps[i].Idle? then 0 else 1) - (if p.Idle? then 0 else 1)
    ensures Tallied(t)
  {
    BusyUpdate(s.pumps, i, p);
  }

  lemma ReceiveTallied(cfg: Config, s: Proxy, i: nat, topic: string, payload: Bytes)
    requires Tallied(s) && i < |s.pumps| && s.pumps[i].Idle?
    ensures Tallied(OnReceive(cfg, s, i, topic, payload))
  {
    var t := OnReceive(cfg, s, i, topic, payload);
    assert t.pumps == s.pumps[i := t.pumps[i]];
    MoveTallied(s, t, i, t.pumps[i]);
  }

  lemma ExpireNextTallied(cfg: Config, s: Proxy)
    requires ProxyInv(cfg, s) && Tallied(s) && s.sweeping != []
    ensures Tallied(OnExpireNext(s))
  {
    assert s.sweeping[0] in s.recorded;
    FateMoves(s.recorded, s.sweeping[0], Expired, IsExpired);
    FateMoves(s.recorded, s.sweeping[0], Expired, IsTaken);
  }

  lemma ReplyTallied(cfg: Config, s: Proxy, bridge: string, payload: Bytes)
    requires ProxyInv(cfg, s) && Tallied(s) && Possible(cfg, s, ReplyArrives(bridge, payload))
    ensures Tallied(OnReply(s, bridge, payload))
  {
    ReplierMoves(s.repliers, bridge, OnReply(s, bridge, payload).repliers[bridge]);
    ContainsIsLive(s, bridge);
    RemovedAgrees(s, bridge, Taken);
    if Contains(s.corr, bridge) {
      FateMoves(s.recorded, bridge, Taken, IsExpired);
      FateMoves(s.recorded, bridge, Taken, IsTaken);
    }
  }

  lemma SettleTallied(cfg: Config, s: Proxy, bridge: string, ok: bool)
    requires Tallied(s) && Possible(cfg, s, SettleReply(bridge, ok))
    ensures Tallied(OnSettle(cfg, s, bridge, ok))
  {
    ReplierMoves(s.repliers, bridge, Settled);
  }

  lemma DoneTallied(s: Proxy, t: Proxy, bridge: string)
    requires Tallied(s) && bridge in s.repliers && !s.repliers[bridge].Resolved?
    requires t.repliers == s.repliers[bridge := Done] && t.counts == s.counts
    requires t.recorded == s.recorded && t.pumps == s.pumps
    ensures Tallied(t)
  {
    ReplierMoves(s.repliers, bridge, Done);
  }

  lemma {:induction false} TalliesHold(cfg: Config, actions: seq<Action>)
    requires Run(cfg, actions).Some?
    ensures Tallied(Run(cfg, actions).value)
    decreases |actions|
  {
    if actions == [] {
      IdleNotBusy(Initial(cfg).pumps);
      assert OfKind(map[], IsExpired) == {} && OfKind(map[], IsTaken) == {} && ResolvedNow(map[]) == {};
    } else {
      var front, a := actions[..|actions| - 1], actions[|actions| - 1];
      TalliesHold(cfg, front);
      ProxyInvariant(cfg, front);
      var s := Run(cfg, front).value;
      TalliedStep(cfg, s, a);
    }
  }

  lemma TalliedStep(cfg: Config, s: Proxy, a: Action)
    requires ProxyInv(cfg, s) && Tallied(s) && Possible(cfg, s, a)
    ensures Tallied(Step(cfg, s, a))
  {
    match a
    case RewriteCmd(i, minted, now) =>
      RewriteFates(cfg, s, i, minted, now);
      RewriteAdvances(cfg, s, i, minted, now);
      RewriteTallied(cfg, s, i, minted, now);
    case Evict(i) => EvictTallied(cfg, s, i);
    case GiveUp(i) => GiveUpTallied(cfg, s, i);
    case Recheck(i) => RecheckTallied(cfg, s, i);
    case SweepMap(now) =>
      SweepAgrees(s, now);
      SweepAdvances(s, now);
    case ExpireNext => ExpireNextTallied(cfg, s);
    case ReplyArrives(x, payload) => ReplyTallied(cfg, s, x, payload);
    case SettleReply(x, ok) => SettleTallied(cfg, s, x, ok);
    case TearDown(x) => DoneTallied(s, s.(subs := s.subs - {x}, repliers := s.repliers[x := Done]), x);
    case Close(x) => DoneTallied(s, s.(repliers := s.repliers[x := Done]), x);
    case Receive(i, topic, payload) => ReceiveTallied(cfg, s, i, topic, payload);
    case Subscribe(i, ok) => MoveTallied(s, OnSubscribe(s, i, ok), i, OnSubscribe(s, i, ok).pumps[i]);
    case Undangle(i) => MoveTallied(s, OnUndangle(s, i), i, OnUndangle(s, i).pumps[i]);
    case RelayDown(i, ok) => MoveTallied(s, OnRelayDown(s, i, ok), i, Idle);
  }

  lemma DisjointCount(a: set<string>, b: set<string>)
    requires a !! b
    ensures |a + b| == |a| + |b|
  {
  }

  lemma FatesPartition(recorded: map<string, Request>)
    ensures |recorded| == Count(recorded, IsLive) + Count(recorded, IsTaken) + Count(recorded, IsExpiring)
                          + Count(recorded, IsExpired) + Count(recorded, IsAbandoned)
  {
    var a, b, c := OfKind(recorded, IsLive), OfKind(recorded, IsTaken), OfKind(recorded, IsExpiring);
    var d, e := OfKind(recorded, IsExpired), OfKind(recorded, IsAbandoned);
    assert recorded.Keys == a + b + c + d + e;
    DisjointCount(a, b);
    DisjointCount(a + b, c);
    DisjointCount(a + b + c, d);
    DisjointCount(a + b + c + d, e);
  }

  lemma {:induction false} DistinctKeys(c: Corr)
    requires Distinct(c.pending)
    ensures |Keys(c)| == |c.pending|
    decreases |c.pending|
  {
    if c.pending != [] {
      var last := |c.pending| - 1;
      var front := c.(pending := c.pending[..last]);
      DistinctKeys(front);
      assert c.pending == front.pending + [c.pending[last]];
      assert Keys(c) == Keys(front) + {c.pending[last].topic};
      assert forall e :: e in front.pending ==> e.topic != c.pending[last].topic;
    }
  }

  /** At rest every recorded request is accounted for: answered or refused, expired,
      abandoned, or still pending; and every command received has its disposition. */
  lemma RequestsAddUpAtRest(cfg: Config, actions: seq<Action>)
    requires Run(cfg, actions).Some? && Quiescent(Run(cfg, actions).value)
    ensures var s := Run(cfg, actions).value;
            && |s.recorded| == s.counts.replyRelayed + s.counts.replyFailed + s.counts.replyDropped
                 + s.counts.expired + Count(s.recorded, IsAbandoned) + |s.corr.pending|
            && s.counts.received ==
                 s.counts.dropped + s.counts.downlinked + s.counts.publishFailed + s.counts.subscribeFailed
                 + Busy(s.pumps)
  {
    ProxyInvariant(cfg, actions);
    TalliesHold(cfg, actions);
    var s := Run(cfg, actions).value;
    FatesPartition(s.recorded);
    DistinctKeys(s.corr);
    assert OfKind(s.recorded, IsExpiring) == {} by {
      assert forall t :: t in s.recorded ==> !s.recorded[t].fate.Expiring?;
    }
    assert ResolvedNow(s.repliers) == {};
    assert OfKind(s.recorded, IsLive) == Keys(s.corr);
  }

  // ---- answers ----

  /** Each answer went to the site topic recorded for its request, which was taken, and no
      two answers share a request. */
  ghost predicate AnswersRight(s: Proxy) {
    && (forall j :: 0 <= j < |s.answers| ==>
          var a := s.answers[j];
          && a.bridge in s.recorded && a.site == s.recorded[a.bridge].site && s.recorded[a.bridge].fate == Taken
          && a.bridge in s.repliers && (s.repliers[a.bridge].Settled? || s.repliers[a.bridge].Done?))
    && (forall j, k :: 0 <= j < k < |s.answers| ==> s.answers[j].bridge != s.answers[k].bridge)
  }

  lemma AnswersStay(s: Proxy, t: Proxy)
    requires AnswersRight(s) && Advanced(s.recorded, t.recorded) && t.answers == s.answers
    requires forall x :: x in s.repliers && (s.repliers[x].Settled? || s.repliers[x].Done?) ==>
               x in t.repliers && (t.repliers[x].Settled? || t.repliers[x].Done?)
    ensures AnswersRight(t)
  {
  }

  lemma SettleAnswers(cfg: Config, s: Proxy, bridge: string, ok: bool)
    requires Repliers(s) && AnswersRight(s) && Possible(cfg, s, SettleReply(bridge, ok))
    ensures AnswersRight(OnSettle(cfg, s, bridge, ok))
  {
    var t := OnSettle(cfg, s, bridge, ok);
    AnswersStay(s, t.(answers := s.answers));
    assert forall j :: 0 <= j < |s.answers| ==> s.answers[j].bridge != bridge;
  }

  lemma PumpKeepsAnswers(cfg: Config, s: Proxy, a: Action)
    requires ProxyInv(cfg, s) && AnswersRight(s) && Possible(cfg, s, a) && IsPumpAction(a)
    ensures AnswersRight(Step(cfg, s, a))
  {
    FatesAdvance(cfg, s, a);
    match a
    case RewriteCmd(i, minted, now) =>
      RewriteShape(cfg, s, i, minted, now);
      AnswersStay(s, OnRewrite(cfg, s, i, minted, now));
    case Receive(i, topic, payload) => AnswersStay(s, OnReceive(cfg, s, i, topic, payload));
    case Evict(i) => AnswersStay(s, OnEvict(s, i));
    case Subscribe(i, ok) => AnswersStay(s, OnSubscribe(s, i, ok));
    case GiveUp(i) => AnswersStay(s, OnGiveUp(s, i));
    case Recheck(i) => AnswersStay(s, OnRecheck(s, i));
    case Undangle(i) => AnswersStay(s, OnUndangle(s, i));
    case RelayDown(i, ok) => AnswersStay(s, OnRelayDown(s, i, ok));
  }

  /** The steps of the downlink pumps, as against those of the sweep and the reply pumps. */
  predicate IsPumpAction(a: Action) {
    a.Receive? || a.RewriteCmd? || a.Evict? || a.Subscribe? || a.GiveUp? || a.Recheck? || a.Undangle? || a.RelayDown?
  }

  lemma RestKeepsAnswers(cfg: Config, s: Proxy, a: Action)
    requires ProxyInv(cfg, s) && AnswersRight(s) && Possible(cfg, s, a) && !IsPumpAction(a)
    ensures AnswersRight(Step(cfg, s, a))
  {
    FatesAdvance(cfg, s, a);
    match a
    case SettleReply(bridge, ok) => SettleAnswers(cfg, s, bridge, ok);
    case SweepMap(now) => AnswersStay(s, OnSweep(s, now));
    case ExpireNext => AnswersStay(s, OnExpireNext(s));
    case ReplyArrives(x, payload) => AnswersStay(s, OnReply(s, x, payload));
    case TearDown(x) => AnswersStay(s, s.(subs := s.subs - {x}, repliers := s.repliers[x := Done]));
    case Close(x) => AnswersStay(s, s.(repliers := s.repliers[x := Done]));
  }

  lemma {:induction false} AnswersInvariant(cfg: Config, actions: seq<Action>)
    requires Run(cfg, actions).Some?
    ensures AnswersRight(Run(cfg, actions).value)
    decreases |actions|
  {
    if actions != [] {
      var front := actions[..|actions| - 1];
      AnswersInvariant(cfg, front);
      ProxyInvariant(cfg, front);
      var a := actions[|actions| - 1];
      if IsPumpAction(a) { PumpKeepsAnswers(cfg, Run(cfg, front).value, a); }
      else { RestKeepsAnswers(cfg, Run(cfg, front).value, a); }
    }
  }

  // ---- what reaches the device bus ----

  /** A command fit to publish on the device bus: it asks for no reply, or asks for it on
      a recorded bridge topic already subscribed, which is not the requester's own. */
  ghost predicate Clean(codec: Codec, s: Proxy, payload: Bytes) {
    && codec.decode(payload).Some?
    && var r := codec.decode(payload).value.replyTo;
    r.Some? ==> r.value in s.subscribed && r.value in s.recorded && s.recorded[r.value].site != r.value
  }

  ghost predicate PumpClean(codec: Codec, s: Proxy, p: Pump) {
    match p
    case Idle => true
    case Decided(_, payload, _) => codec.decode(payload).Some?
    case Relaying(_, payload, _) => Clean(codec, s, payload)
    case _ =>
      && codec.decode(p.cmd.bytes).Some?
      && codec.decode(p.cmd.bytes).value.replyTo == Some(p.cmd.bridge)
      && (p.Rechecking? || p.Dangling? <==> p.cmd.bridge in s.subscribed)
  }

  ghost predicate NoLeak(cfg: Config, s: Proxy) {
    && (forall i :: 0 <= i < |s.pumps| ==> PumpClean(cfg.codec, s, s.pumps[i]))
    && (forall j :: 0 <= j < |s.relayed| ==> Clean(cfg.codec, s, s.relayed[j].payload))
    && (forall x :: x in s.recorded ==> s.recorded[x].site != x)
    && (forall x :: x in s.recorded && s.recorded[x].fate == Abandoned ==> x !in s.subscribed && Unowned(s, x))
    && s.subscribed <= s.recorded.Keys
  }

  ghost predicate Unowned(s: Proxy, x: string) {
    forall i :: 0 <= i < |s.pumps| ==> Own(s.pumps[i]) != Some(x)
  }

  /** Cleanliness only needs the subscribed set to grow and site topics to stay. */
  lemma StaysClean(codec: Codec, s: Proxy, t: Proxy, payload: Bytes)
    requires Clean(codec, s, payload) && s.subscribed <= t.subscribed
    requires forall x :: x in s.recorded ==> x in t.recorded && t.recorded[x].site == s.recorded[x].site
    ensures Clean(codec, t, payload)
  {
  }

  lemma PumpStaysClean(codec: Codec, s: Proxy, t: Proxy, p: Pump)
    requires PumpClean(codec, s, p) && s.subscribed <= t.subscribed
    requires Own(p).Some? ==> (Own(p).value in t.subscribed <==> Own(p).value in s.subscribed)
    requires forall x :: x in s.recorded ==> x in t.recorded && t.recorded[x].site == s.recorded[x].site
    ensures PumpClean(codec, t, p)
  {
    if p.Relaying? { StaysClean(codec, s, t, p.payload); }
  }

  /** A step that subscribes nothing and abandons nothing, and moves at most one pump. */
  lemma QuietStep(cfg: Config, s: Proxy, t: Proxy, i: nat)
    requires NoLeak(cfg, s) && Advanced(s.recorded, t.recorded) && t.subscribed == s.subscribed
    requires |t.pumps| == |s.pumps| && (i < |s.pumps| ==> t.pumps == s.pumps[i := t.pumps[i]])
    requires i >= |s.pumps| ==> t.pumps == s.pumps
    requires i < |s.pumps| ==> PumpClean(cfg.codec, t, t.pumps[i])
    requires forall x :: x in t.recorded ==>
               && t.recorded[x].site != x
               && (t.recorded[x].fate == Abandoned ==>
                     || (&& x in s.recorded && s.recorded[x].fate == Abandoned
                         && (i < |s.pumps| ==> Own(t.pumps[i]) != Some(x)))
                     || (x !in s.subscribed && Unowned(t, x)))
    requires |t.relayed| == |s.relayed| && t.relayed == s.relayed
    ensures NoLeak(cfg, t)
  {
    forall j | 0 <= j < |t.pumps| ensures PumpClean(cfg.codec, t, t.pumps[j]) {
      if j != i { PumpStaysClean(cfg.codec, s, t, s.pumps[j]); }
    }
    forall j | 0 <= j < |t.relayed| ensures Clean(cfg.codec, t, t.relayed[j].payload) {
      StaysClean(cfg.codec, s, t, s.relayed[j].payload);
    }
  }

  lemma RewriteLeaksNothing(cfg: Config, s: Proxy, i: nat, minted: string, now: int)
    requires WellBehaved(cfg.codec)
    requires ProxyInv(cfg, s) && NoLeak(cfg, s) && Possible(cfg, s, RewriteCmd(i, minted, now))
    ensures NoLeak(cfg, OnRewrite(cfg, s, i, minted, now))
  {
    var t := OnRewrite(cfg, s, i, minted, now);
    RewriteFates(cfg, s, i, minted, now);
    RewriteAdvances(cfg, s, i, minted, now);
    RewriteShape(cfg, s, i, minted, now);
    RewrittenPumpClean(cfg, s, i, minted, now);
    RewrittenSites(cfg, s, i, minted, now);
    QuietStep(cfg, s, t, i);
  }

  lemma RewrittenPumpClean(cfg: Config, s: Proxy, i: nat, minted: string, now: int)
    requires WellBehaved(cfg.codec)
    requires NoLeak(cfg, s) && Possible(cfg, s, RewriteCmd(i, minted, now)) && minted !in s.recorded
    ensures var t := OnRewrite(cfg, s, i, minted, now);
            PumpClean(cfg.codec, t, t.pumps[i]) && (Own(t.pumps[i]).Some? ==> Own(t.pumps[i]) == Some(minted))
  {
    assert PumpClean(cfg.codec, s, s.pumps[i]);
    assert minted !in s.subscribed;
  }

  lemma RewrittenSites(cfg: Config, s: Proxy, i: nat, minted: string, now: int)
    requires NoLeak(cfg, s) && Possible(cfg, s, RewriteCmd(i, minted, now)) && minted !in s.recorded
    requires var r := Rewrite(s.corr, cfg.codec, s.pumps[i].payload, minted, now).1;
             r.Rewritten? && r.evicted.Some? ==>
               r.evicted.value in s.recorded && s.recorded[r.evicted.value].fate == Live
    ensures var t := OnRewrite(cfg, s, i, minted, now);
            forall x :: x in t.recorded ==>
              && t.recorded[x].site != x
              && (t.recorded[x].fate == Abandoned ==> x in s.recorded && s.recorded[x].fate == Abandoned)
  {
  }

  lemma SubscribeLeaksNothing(cfg: Config, s: Proxy, i: nat, ok: bool)
    requires ProxyInv(cfg, s) && NoLeak(cfg, s) && Possible(cfg, s, Subscribe(i, ok))
    ensures NoLeak(cfg, OnSubscribe(s, i, ok))
  {
    var t := OnSubscribe(s, i, ok);
    var bridge := s.pumps[i].cmd.bridge;
    forall j | 0 <= j < |t.pumps| ensures PumpClean(cfg.codec, t, t.pumps[j]) {
      if j != i {
        assert Own(s.pumps[j]) != Some(bridge);
        PumpStaysClean(cfg.codec, s, t, s.pumps[j]);
      }
    }
    forall j | 0 <= j < |t.relayed| ensures Clean(cfg.codec, t, t.relayed[j].payload) {
      StaysClean(cfg.codec, s, t, s.relayed[j].payload);
    }
    forall x | x in t.recorded && t.recorded[x].fate == Abandoned ensures x !in t.subscribed && Unowned(t, x) {
      assert Unowned(s, x);
      assert Own(s.pumps[i]) != Some(x);
    }
  }

  lemma GiveUpLeaksNothing(cfg: Config, s: Proxy, i: nat)
    requires ProxyInv(cfg, s) && NoLeak(cfg, s) && Possible(cfg, s, GiveUp(i))
    ensures NoLeak(cfg, OnGiveUp(s, i))
  {
    FatesAdvance(cfg, s, GiveUp(i));
    var t := OnGiveUp(s, i);
    var bridge := s.pumps[i].cmd.bridge;
    assert Unowned(t, bridge) by {
      forall j | 0 <= j < |t.pumps| ensures Own(t.pumps[j]) != Some(bridge) {
        if j != i { assert Own(s.pumps[j]) != Some(bridge); }
      }
    }
    assert PumpClean(cfg.codec, s, s.pumps[i]);
    QuietStep(cfg, s, t, i);
  }

  lemma RelayLeaksNothing(cfg: Config, s: Proxy, i: nat, ok: bool)
    requires NoLeak(cfg, s) && Possible(cfg, s, RelayDown(i, ok))
    ensures NoLeak(cfg, OnRelayDown(s, i, ok))
  {
    var t := OnRelayDown(s, i, ok);
    QuietStep(cfg, s, t.(relayed := s.relayed), i);
    assert Clean(cfg.codec, s, s.pumps[i].payload) by { assert PumpClean(cfg.codec, s, s.pumps[i]); }
    forall j | 0 <= j < |t.relayed| ensures Clean(cfg.codec, t, t.relayed[j].payload) {
      var payload := if j < |s.relayed| then s.relayed[j].payload else s.pumps[i].payload;
      StaysClean(cfg.codec, s, t, payload);
    }
    forall j | 0 <= j < |t.pumps| ensures PumpClean(cfg.codec, t, t.pumps[j]) {
      if j != i { PumpStaysClean(cfg.codec, s, t, s.pumps[j]); }
    }
  }

  lemma ReceiveLeaksNothing(cfg: Config, s: Proxy, i: nat, topic: string, payload: Bytes)
    requires WellBehaved(cfg.codec) && NoLeak(cfg, s) && i < |s.pumps| && s.pumps[i].Idle?
    ensures NoLeak(cfg, OnReceive(cfg, s, i, topic, payload))
  {
    var t := OnReceive(cfg, s, i, topic, payload);
    assert t.pumps == s.pumps[i := t.pumps[i]];
    QuietStep(cfg, s, t, i);
  }

  lemma EvictLeaksNothing(cfg: Config, s: Proxy, i: nat)
    requires ProxyInv(cfg, s) && NoLeak(cfg, s) && Possible(cfg, s, Evict(i))
    ensures NoLeak(cfg, OnEvict(s, i))
  {
    SetFateAdvances(s.recorded, s.pumps[i].victim, Expired);
    assert PumpClean(cfg.codec, s, s.pumps[i]);
    QuietStep(cfg, s, OnEvict(s, i), i);
  }

  lemma RecheckLeaksNothing(cfg: Config, s: Proxy, i: nat)
    requires NoLeak(cfg, s) && i < |s.pumps| && s.pumps[i].Rechecking?
    ensures NoLeak(cfg, OnRecheck(s, i))
  {
    assert PumpClean(cfg.codec, s, s.pumps[i]);
    QuietStep(cfg, s, OnRecheck(s, i), i);
  }

  lemma UndangleLeaksNothing(cfg: Config, s: Proxy, i: nat)
    requires NoLeak(cfg, s) && i < |s.pumps| && s.pumps[i].Dangling?
    ensures NoLeak(cfg, OnUndangle(s, i))
  {
    assert PumpClean(cfg.codec, s, s.pumps[i]);
    QuietStep(cfg, s, OnUndangle(s, i), i);
  }

  /** Steps of the sweep and of the reply pumps touch no downlink pump. */
  lemma OthersLeakNothing(cfg: Config, s: Proxy, t: Proxy)
    requires NoLeak(cfg, s) && Advanced(s.recorded, t.recorded) && t.recorded.Keys == s.recorded.Keys
    requires t.pumps == s.pumps && t.subscribed == s.subscribed && t.relayed == s.relayed
    requires forall x :: x in t.recorded && t.recorded[x].fate == Abandoned ==> s.recorded[x].fate == Abandoned
    ensures NoLeak(cfg, t)
  {
    QuietStep(cfg, s, t, |s.pumps|);
  }

  lemma PumpsLeakNothing(cfg: Config, s: Proxy, a: Action)
    requires WellBehaved(cfg.codec)
    requires ProxyInv(cfg, s) && NoLeak(cfg, s) && Possible(cfg, s, a) && IsPumpAction(a)
    ensures NoLeak(cfg, Step(cfg, s, a))
  {
    match a
    case RewriteCmd(i, minted, now) => RewriteLeaksNothing(cfg, s, i, minted, now);
    case Subscribe(i, ok) => SubscribeLeaksNothing(cfg, s, i, ok);
    case GiveUp(i) => GiveUpLeaksNothing(cfg, s, i);
    case RelayDown(i, ok) => RelayLeaksNothing(cfg, s, i, ok);
    case Receive(i, topic, payload) => ReceiveLeaksNothing(cfg, s, i, topic, payload);
    case Evict(i) => EvictLeaksNothing(cfg, s, i);
    case Recheck(i) => RecheckLeaksNothing(cfg, s, i);
    case Undangle(i) => UndangleLeaksNothing(cfg, s, i);
  }

  lemma SweepLeaksNothing(cfg: Config, s: Proxy, now: int)
    requires ProxyInv(cfg, s) && NoLeak(cfg, s) && Possible(cfg, s, SweepMap(now))
    ensures NoLeak(cfg, OnSweep(s, now))
  {
    SweepAgrees(s, now);
    SweepAdvances(s, now);
    OthersLeakNothing(cfg, s, OnSweep(s, now));
  }

  lemma ExpireLeaksNothing(cfg: Config, s: Proxy)
    requires ProxyInv(cfg, s) && NoLeak(cfg, s) && s.sweeping != []
    ensures NoLeak(cfg, OnExpireNext(s))
  {
    assert s.sweeping[0] in s.recorded && s.recorded[s.sweeping[0]].fate == Expiring(BySweep);
    SetFateAdvances(s.recorded, s.sweeping[0], Expired);
    OthersLeakNothing(cfg, s, OnExpireNext(s));
  }

  lemma ReplyLeaksNothing(cfg: Config, s: Proxy, x: string, payload: Bytes)
    requires ProxyInv(cfg, s) && NoLeak(cfg, s) && Possible(cfg, s, ReplyArrives(x, payload))
    ensures NoLeak(cfg, OnReply(s, x, payload))
  {
    FatesAdvance(cfg, s, ReplyArrives(x, payload));
    OthersLeakNothing(cfg, s, OnReply(s, x, payload));
  }

  lemma RestLeaksNothing(cfg: Config, s: Proxy, a: Action)
    requires ProxyInv(cfg, s) && NoLeak(cfg, s) && Possible(cfg, s, a) && !IsPumpAction(a)
    ensures NoLeak(cfg, Step(cfg, s, a))
  {
    match a
    case SweepMap(now) => SweepLeaksNothing(cfg, s, now);
    case ExpireNext => ExpireLeaksNothing(cfg, s);
    case ReplyArrives(x, payload) => ReplyLeaksNothing(cfg, s, x, payload);
    case SettleReply(x, ok) => OthersLeakNothing(cfg, s, OnSettle(cfg, s, x, ok));
    case TearDown(x) => OthersLeakNothing(cfg, s, Step(cfg, s, a));
    case Close(x) => OthersLeakNothing(cfg, s, Step(cfg, s, a));
  }

  lemma {:induction false} NoLeakInvariant(cfg: Config, actions: seq<Action>)
    requires WellBehaved(cfg.codec) && Run(cfg, actions).Some?
    ensures NoLeak(cfg, Run(cfg, actions).value)
    decreases |actions|
  {
    if actions != [] {
      var front := actions[..|actions| - 1];
      NoLeakInvariant(cfg, front);
      ProxyInvariant(cfg, front);
      var a := actions[|actions| - 1];
      if IsPumpAction(a) { PumpsLeakNothing(cfg, Run(cfg, front).value, a); }
      else { RestLeaksNothing(cfg, Run(cfg, front).value, a); }
    }
  }

  /** Subscribe before relay, no leak: every command published on the device bus asks for
      no reply, or asks for it on a bridge topic whose subscribe had completed, never on
      the requester's own topic. A request whose subscribe failed while it was open has no
      entry, no subscription and no relayed command. */
  lemma SubscribedBeforeRelayed(cfg: Config, actions: seq<Action>)
    requires WellBehaved(cfg.codec) && Run(cfg, actions).Some?
    ensures var s := Run(cfg, actions).value;
            && (forall j :: 0 <= j < |s.relayed| ==>
                  && cfg.codec.decode(s.relayed[j].payload).Some?
                  && var r := cfg.codec.decode(s.relayed[j].payload).value.replyTo;
                  r.Some? ==> r.value in s.subscribed && r.value in s.recorded && s.recorded[r.value].site != r.value)
            && (forall x :: x in s.recorded && s.recorded[x].fate == Abandoned ==>
                  && x !in Keys(s.corr) && x !in s.subs
                  && forall j :: 0 <= j < |s.relayed| ==>
                       cfg.codec.decode(s.relayed[j].payload).Some? &&
                       cfg.codec.decode(s.relayed[j].payload).value.replyTo != Some(x))
  {
    NoLeakInvariant(cfg, actions);
    ProxyInvariant(cfg, actions);
    var s := Run(cfg, actions).value;
    assert forall j :: 0 <= j < |s.relayed| ==> Clean(cfg.codec, s, s.relayed[j].payload);
    forall x | x in s.recorded && s.recorded[x].fate == Abandoned ensures x !in Keys(s.corr) && x !in s.subs {
      assert SubscribedFor(s, x);
      assert x !in s.subscribed && Unowned(s, x);
      AbandonedNotSettled(s, x);
    }
  }

  lemma AbandonedNotSettled(s: Proxy, x: string)
    requires Repliers(s) && SubscribedFor(s, x) && x in s.recorded && s.recorded[x].fate == Abandoned && Unowned(s, x)
    ensures x !in s.subs
  {
  }

  /** Answers: at most one per request, always to the site topic recorded with it. */
  lemma AtMostOneAnswer(cfg: Config, actions: seq<Action>)
    requires Run(cfg, actions).Some?
    ensures var s := Run(cfg, actions).value;
            && (forall j :: 0 <= j < |s.answers| ==>
                  && s.answers[j].bridge in s.recorded
                  && s.answers[j].site == s.recorded[s.answers[j].bridge].site
                  && s.recorded[s.answers[j].bridge].fate == Taken)
            && (forall j, k :: 0 <= j < k < |s.answers| ==> s.answers[j].bridge != s.answers[k].bridge)
  {
    AnswersInvariant(cfg, actions);
  }
}
