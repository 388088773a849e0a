/** The reply proxy as a step system: downlink pumps, the sweep task and the one-shot
    reply pumps around the correlation map. */
module ReplyProxy {
  import opened Wrappers
  import opened Messages
  import opened Relay
  import opened Reply

  /** A rewritten command, the bridge topic minted for it, and which received command it is. */
  datatype Rewrote = Rewrote(topic: string, bytes: Bytes, bridge: string, from: nat)

  /** Where a downlink pump stands between receiving a command and being done with it. */
  datatype Pump =
    | Idle
    | Decided(topic: string, payload: Bytes, from: nat)
    | Evicting(cmd: Rewrote, victim: string)
    | Subscribing(cmd: Rewrote)
    | Abandoning(cmd: Rewrote)
    | Rechecking(cmd: Rewrote)
    | Dangling(cmd: Rewrote)
    | Relaying(topic: string, payload: Bytes, from: nat)

  /** A one-shot reply pump: waiting, holding a resolved reply, about to unsubscribe, done. */
  datatype Replier = Waiting | Resolved(site: string, reply: Bytes) | Settled | Done

  /** Who owes the unsubscribe of an entry removed by eviction or sweep. */
  datatype Holder = ByPump(pump: nat) | BySweep

  /** What became of a recorded bridge topic. */
  datatype Fate = Live | Taken | Expiring(holder: Holder) | Expired | Abandoned

  datatype Request = Request(site: string, pump: nat, fate: Fate)

  datatype Received = Received(pump: nat, topic: string, payload: Bytes)

  /** A command on the device bus, and which received command it is. */
  datatype Published = Published(topic: string, payload: Bytes, from: nat)

  datatype Answer = Answer(bridge: string, site: string, payload: Bytes)

  /** Counters, by what caused them: the source's shared `publish_failed` is the sum of the
      three failure counts, and its drop counters together the sum of the two drop counts. */
  datatype Tallies = Tallies(
    received: nat,
    dropped: nat,
    downlinked: nat,
    publishFailed: nat,
    subscribeFailed: nat,
    expired: nat,
    stray: nat,
    replyRelayed: nat,
    replyFailed: nat,
    replyDropped: nat)

  datatype Proxy = Proxy(
    corr: Corr,
    clock: int,
    subs: set<string>,
    pumps: seq<Pump>,
    sweeping: seq<string>,
    repliers: map<string, Replier>,
    counts: Tallies,
    // history
    recorded: map<string, Request>,
    seen: set<string>,
    subscribed: set<string>,
    inbox: seq<Received>,
    relayed: seq<Published>,
    taken: map<string, Bytes>,
    answers: seq<Answer>)

  datatype Config = Config(engine: RelayEngine, codec: Codec, ttl: nat, maxPending: nat, pumps: nat)

  datatype Action =
    | Receive(i: nat, topic: string, payload: Bytes)
    | RewriteCmd(i: nat, minted: string, now: int)
    | Evict(i: nat)
    | Subscribe(i: nat, ok: bool)
    | GiveUp(i: nat)
    | Recheck(i: nat)
    | Undangle(i: nat)
    | RelayDown(i: nat, ok: bool)
    | SweepMap(now: int)
    | ExpireNext
    | ReplyArrives(bridge: string, payload: Bytes)
    | SettleReply(bridge: string, ok: bool)
    | TearDown(bridge: string)
    | Close(bridge: string)

  function Initial(cfg: Config): Proxy {
    Proxy(Empty(cfg.ttl, cfg.maxPending), 0, {}, seq(cfg.pumps, i => Idle), [], map[],
          Tallies(0, 0, 0, 0, 0, 0, 0, 0, 0, 0), map[], {}, {}, [], [], map[], [])
  }

  /** The bridge topic a pump is establishing. */
  function Own(p: Pump): Option<string> {
    if p.Evicting? || p.Subscribing? || p.Abandoning? || p.Rechecking? || p.Dangling? then Some(p.cmd.bridge) else None
  }

  /** Minting is fresh: not a topic minted before, nor any reply topic a requester has used. */
  predicate Fresh(cfg: Config, s: Proxy, i: nat, minted: string)
    requires i < |s.pumps| && s.pumps[i].Decided?
  {
    && minted !in s.seen
    && var m := cfg.codec.decode(s.pumps[i].payload);
    (m.Some? ==> m.value.replyTo != Some(minted))
  }

  predicate Possible(cfg: Config, s: Proxy, a: Action) {
    match a
    case Receive(i, _, _) => i < |s.pumps| && s.pumps[i].Idle?
    case RewriteCmd(i, minted, now) =>
      i < |s.pumps| && s.pumps[i].Decided? && s.clock <= now && Fresh(cfg, s, i, minted)
    case Evict(i) => i < |s.pumps| && s.pumps[i].Evicting?
    case Subscribe(i, _) => i < |s.pumps| && s.pumps[i].Subscribing?
    case GiveUp(i) => i < |s.pumps| && s.pumps[i].Abandoning?
    case Recheck(i) => i < |s.pumps| && s.pumps[i].Rechecking?
    case Undangle(i) => i < |s.pumps| && s.pumps[i].Dangling?
    case RelayDown(i, _) => i < |s.pumps| && s.pumps[i].Relaying?
    case SweepMap(now) => s.sweeping == [] && s.clock <= now
    case ExpireNext => s.sweeping != []
    case ReplyArrives(t, _) => t in s.repliers && s.repliers[t].Waiting?
    case SettleReply(t, _) => t in s.repliers && s.repliers[t].Resolved?
    case TearDown(t) => t in s.repliers && s.repliers[t].Settled?
    case Close(t) => t in s.repliers && s.repliers[t].Waiting? && t !in s.subs
  }

  function SetFate(recorded: map<string, Request>, t: string, fate: Fate): map<string, Request> {
    if t in recorded then recorded[t := recorded[t].(fate := fate)] else recorded
  }

  function OnReceive(cfg: Config, s: Proxy, i: nat, topic: string, payload: Bytes): Proxy
    requires i < |s.pumps|
  {
    var inbox := s.inbox + [Received(i, topic, payload)];
    match Decide(cfg.engine, cfg.codec, Downlink, topic, payload)
    case Forward(bytes) =>
      s.(inbox := inbox, pumps := s.pumps[i := Decided(topic, bytes, |s.inbox|)],
         counts := s.counts.(received := s.counts.received + 1))
    case Drop(_) =>
      s.(inbox := inbox, counts := s.counts.(received := s.counts.received + 1, dropped := s.counts.dropped + 1))
  }

  /** A request recorded: the pump goes on to the victim, if there is one, or to subscribe. */
  function OnRecorded(s: Proxy, i: nat, corr: Corr, now: int, cmd: Rewrote, site: string,
                      evicted: Option<string>): Proxy
    requires i < |s.pumps|
  {
    var more := s.recorded[cmd.bridge := Request(site, i, Live)];
    s.(corr := corr, clock := now, seen := s.seen + {cmd.bridge, site},
       pumps := s.pumps[i := if evicted.Some? then Evicting(cmd, evicted.value) else Subscribing(cmd)],
       recorded := if evicted.Some? then SetFate(more, evicted.value, Expiring(ByPump(i))) else more)
  }

  function OnRewrite(cfg: Config, s: Proxy, i: nat, minted: string, now: int): Proxy
    requires i < |s.pumps| && s.pumps[i].Decided?
  {
    var p := s.pumps[i];
    var (corr, rewrite) := Rewrite(s.corr, cfg.codec, p.payload, minted, now);
    match rewrite
    case Dropped(_) =>
      s.(clock := now, pumps := s.pumps[i := Idle], counts := s.counts.(dropped := s.counts.dropped + 1))
    case Passthrough => s.(clock := now, pumps := s.pumps[i := Relaying(p.topic, p.payload, p.from)])
    case Rewritten(bytes, bridge, evicted) =>
      var m := cfg.codec.decode(p.payload);
      var site := if m.Some? && m.value.replyTo.Some? then m.value.replyTo.value else "";
      OnRecorded(s, i, corr, now, Rewrote(p.topic, bytes, bridge, p.from), site, evicted)
  }

  function OnEvict(s: Proxy, i: nat): Proxy
    requires i < |s.pumps| && s.pumps[i].Evicting?
  {
    var victim := s.pumps[i].victim;
    s.(pumps := s.pumps[i := Subscribing(s.pumps[i].cmd)],
       subs := s.subs - {victim},
       recorded := SetFate(s.recorded, victim, Expired),
       counts := s.counts.(expired := s.counts.expired + 1))
  }

  function OnSubscribe(s: Proxy, i: nat, ok: bool): Proxy
    requires i < |s.pumps| && s.pumps[i].Subscribing?
  {
    var cmd := s.pumps[i].cmd;
    if ok then
      s.(pumps := s.pumps[i := Rechecking(cmd)],
         subs := s.subs + {cmd.bridge}, subscribed := s.subscribed + {cmd.bridge})
    else s.(pumps := s.pumps[i := Abandoning(cmd)])
  }

  function OnGiveUp(s: Proxy, i: nat): Proxy
    requires i < |s.pumps| && s.pumps[i].Abandoning?
  {
    var t := s.pumps[i].cmd.bridge;
    s.(pumps := s.pumps[i := Idle],
       corr := Abandon(s.corr, t),
       recorded := if Contains(s.corr, t) then SetFate(s.recorded, t, Abandoned) else s.recorded,
       counts := s.counts.(subscribeFailed := s.counts.subscribeFailed + 1))
  }

  function OnRecheck(s: Proxy, i: nat): Proxy
    requires i < |s.pumps| && s.pumps[i].Rechecking?
  {
    var cmd := s.pumps[i].cmd;
    if Contains(s.corr, cmd.bridge) then
      s.(pumps := s.pumps[i := Relaying(cmd.topic, cmd.bytes, cmd.from)], repliers := s.repliers[cmd.bridge := Waiting])
    else s.(pumps := s.pumps[i := Dangling(cmd)])
  }

  function OnUndangle(s: Proxy, i: nat): Proxy
    requires i < |s.pumps| && s.pumps[i].Dangling?
  {
    var cmd := s.pumps[i].cmd;
    s.(pumps := s.pumps[i := Relaying(cmd.topic, cmd.bytes, cmd.from)], subs := s.subs - {cmd.bridge})
  }

  function OnRelayDown(s: Proxy, i: nat, ok: bool): Proxy
    requires i < |s.pumps| && s.pumps[i].Relaying?
  {
    var p := s.pumps[i];
    if ok then
      s.(pumps := s.pumps[i := Idle], relayed := s.relayed + [Published(p.topic, p.payload, p.from)],
         counts := s.counts.(downlinked := s.counts.downlinked + 1))
    else s.(pumps := s.pumps[i := Idle], counts := s.counts.(publishFailed := s.counts.publishFailed + 1))
  }

  function OnSweep(s: Proxy, now: int): Proxy {
    var (corr, expired) := Sweep(s.corr, now);
    s.(corr := corr, clock := now, sweeping := expired,
       recorded := map t | t in s.recorded ::
                     if t in expired then s.recorded[t].(fate := Expiring(BySweep)) else s.recorded[t])
  }

  function OnExpireNext(s: Proxy): Proxy
    requires s.sweeping != []
  {
    var t := s.sweeping[0];
    s.(sweeping := s.sweeping[1..], subs := s.subs - {t},
       recorded := SetFate(s.recorded, t, Expired),
       counts := s.counts.(expired := s.counts.expired + 1))
  }

  function OnReply(s: Proxy, t: string, payload: Bytes): Proxy {
    var (corr, site) := Take(s.corr, t);
    if site.None? then
      s.(repliers := s.repliers[t := Done], counts := s.counts.(stray := s.counts.stray + 1))
    else
      s.(corr := corr, recorded := SetFate(s.recorded, t, Taken), taken := s.taken[t := payload],
         repliers := s.repliers[t := Resolved(site.value, payload)])
  }

  function OnSettle(cfg: Config, s: Proxy, t: string, ok: bool): Proxy
    requires t in s.repliers && s.repliers[t].Resolved?
  {
    var r := s.repliers[t];
    var repliers := s.repliers[t := Settled];
    match PrepareReply(cfg.engine, cfg.codec, r.reply)
    case Refused(_) => s.(repliers := repliers, counts := s.counts.(replyDropped := s.counts.replyDropped + 1))
    case Relayed(bytes) =>
      if ok then
        s.(repliers := repliers, answers := s.answers + [Answer(t, r.site, bytes)],
           counts := s.counts.(replyRelayed := s.counts.replyRelayed + 1))
      else s.(repliers := repliers, counts := s.counts.(replyFailed := s.counts.replyFailed + 1))
  }

  function Step(cfg: Config, s: Proxy, a: Action): Proxy
    requires Possible(cfg, s, a)
  {
    match a
    case Receive(i, topic, payload) => OnReceive(cfg, s, i, topic, payload)
    case RewriteCmd(i, minted, now) => OnRewrite(cfg, s, i, minted, now)
    case Evict(i) => OnEvict(s, i)
    case Subscribe(i, ok) => OnSubscribe(s, i, ok)
    case GiveUp(i) => OnGiveUp(s, i)
    case Recheck(i) => OnRecheck(s, i)
    case Undangle(i) => OnUndangle(s, i)
    case RelayDown(i, ok) => OnRelayDown(s, i, ok)
    case SweepMap(now) => OnSweep(s, now)
    case ExpireNext => OnExpireNext(s)
    case ReplyArrives(t, payload) => OnReply(s, t, payload)
    case SettleReply(t, ok) => OnSettle(cfg, s, t, ok)
    case TearDown(t) => s.(subs := s.subs - {t}, repliers := s.repliers[t := Done])
    case Close(t) => s.(repliers := s.repliers[t := Done])
  }

  /** The state after a run of actions, or None when one of them was not possible. */
  function Run(cfg: Config, actions: seq<Action>): Option<Proxy>
    decreases |actions|
  {
    if actions == [] then Some(Initial(cfg))
    else
      var before := Run(cfg, actions[..|actions| - 1]);
      var a := actions[|actions| - 1];
      if before.Some? && Possible(cfg, before.value, a) then Some(Step(cfg, before.value, a)) else None
  }

  /** Shutdown aborts every task, then unsubscribes what is still in the map. */
  function Shutdown(s: Proxy): Proxy {
    s.(corr := s.corr.(pending := []), subs := s.subs - Keys(s.corr),
       pumps := seq(|s.pumps|, i => Idle), sweeping := [], repliers := map[])
  }
}
