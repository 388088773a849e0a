/** Over every run of the reply proxy: what the device is asked is what the requester asked,
    and what the requester is told is what the responder answered. */
module ProxyFidelity {
  import opened Wrappers
  import opened Messages
  import opened Relay
  import opened Reply
  import opened ReplyProxy
  import opened ReplyInvariants
  import opened ReplyOutcomes
  import opened RoundTrip

  // ---- down ----

  /** The bytes are the received command `from`, one hop longer; its reply topic, if it had
      one, is replaced by one recorded for it. */
  ghost predicate Carries(cfg: Config, s: Proxy, topic: string, payload: Bytes, from: nat) {
    && from < |s.inbox| && s.inbox[from].topic == topic
    && cfg.codec.decode(s.inbox[from].payload).Some? && cfg.codec.decode(payload).Some?
    && var m, r := cfg.codec.decode(s.inbox[from].payload).value, cfg.codec.decode(payload).value;
    && r == WithHops(m, Hops(m) + [JString(cfg.engine.hopId)]).(replyTo := r.replyTo)
    && (m.replyTo.Some? <==> r.replyTo.Some?)
    && (m.replyTo.Some? ==> r.replyTo.value in s.recorded && s.recorded[r.replyTo.value].site == m.replyTo.value)
  }

  /** The bytes `decide` forwarded: the received command, one hop longer, reply topic intact. */
  ghost predicate Stamped(cfg: Config, s: Proxy, topic: string, payload: Bytes, from: nat) {
    && from < |s.inbox| && s.inbox[from].topic == topic
    && cfg.codec.decode(s.inbox[from].payload).Some?
    && var m := cfg.codec.decode(s.inbox[from].payload).value;
    cfg.codec.decode(payload) == Some(WithHops(m, Hops(m) + [JString(cfg.engine.hopId)]))
  }

  ghost predicate PumpCarries(cfg: Config, s: Proxy, p: Pump) {
    match p
    case Idle => true
    case Decided(topic, payload, from) => Stamped(cfg, s, topic, payload, from)
    case Relaying(topic, payload, from) => Carries(cfg, s, topic, payload, from)
    case _ => Carries(cfg, s, p.cmd.topic, p.cmd.bytes, p.cmd.from)
  }

  /** The received command a pump is working on. */
  function Source(p: Pump): Option<nat> {
    match p
    case Idle => None
    case Decided(_, _, from) => Some(from)
    case Relaying(_, _, from) => Some(from)
    case _ => Some(p.cmd.from)
  }

  ghost predicate Faithful(cfg: Config, s: Proxy) {
    && (forall i :: 0 <= i < |s.pumps| ==> PumpCarries(cfg, s, s.pumps[i]))
    && (forall j :: 0 <= j < |s.relayed| ==>
          Carries(cfg, s, s.relayed[j].topic, s.relayed[j].payload, s.relayed[j].from))
  }

  /** No received command is worked on by two pumps, or again once relayed. */
  ghost predicate Once(s: Proxy) {
    && (forall i :: 0 <= i < |s.pumps| && Source(s.pumps[i]).Some? ==> Source(s.pumps[i]).value < |s.inbox|)
    && (forall j :: 0 <= j < |s.relayed| ==> s.relayed[j].from < |s.inbox|)
    && (forall i, k :: 0 <= i < k < |s.pumps| && Source(s.pumps[i]).Some? ==> Source(s.pumps[i]) != Source(s.pumps[k]))
    && (forall i, j :: 0 <= i < |s.pumps| && 0 <= j < |s.relayed| ==> Source(s.pumps[i]) != Some(s.relayed[j].from))
    && (forall j, k :: 0 <= j < k < |s.relayed| ==> s.relayed[j].from != s.relayed[k].from)
  }

  lemma StaysCarried(cfg: Config, s: Proxy, t: Proxy, topic: string, payload: Bytes, from: nat)
    requires |s.inbox| <= |t.inbox| && t.inbox[..|s.inbox|] == s.inbox && Advanced(s.recorded, t.recorded)
    ensures Carries(cfg, s, topic, payload, from) ==> Carries(cfg, t, topic, payload, from)
    ensures Stamped(cfg, s, topic, payload, from) ==> Stamped(cfg, t, topic, payload, from)
  {
    if from < |s.inbox| { assert t.inbox[from] == s.inbox[from]; }
  }

  lemma PumpStaysCarried(cfg: Config, s: Proxy, t: Proxy, p: Pump)
    requires |s.inbox| <= |t.inbox| && t.inbox[..|s.inbox|] == s.inbox && Advanced(s.recorded, t.recorded)
    requires PumpCarries(cfg, s, p)
    ensures PumpCarries(cfg, t, p)
  {
    match p
    case Idle =>
    case Decided(topic, payload, from) => StaysCarried(cfg, s, t, topic, payload, from);
    case Relaying(topic, payload, from) => StaysCarried(cfg, s, t, topic, payload, from);
    case _ => StaysCarried(cfg, s, t, p.cmd.topic, p.cmd.bytes, p.cmd.from);
  }

  /** At most one pump moves, to something it carries; nothing new is relayed. */
  lemma MoveFaithful(cfg: Config, s: Proxy, t: Proxy, i: nat)
    requires Faithful(cfg, s) && Advanced(s.recorded, t.recorded)
    requires |s.inbox| <= |t.inbox| && t.inbox[..|s.inbox|] == s.inbox
    requires |t.pumps| == |s.pumps| && forall k :: 0 <= k < |s.pumps| && k != i ==> t.pumps[k] == s.pumps[k]
    requires i < |s.pumps| ==> PumpCarries(cfg, t, t.pumps[i])
    requires t.relayed == s.relayed
    ensures Faithful(cfg, t)
  {
    forall k | 0 <= k < |t.pumps| ensures PumpCarries(cfg, t, t.pumps[k]) {
      if k != i { PumpStaysCarried(cfg, s, t, s.pumps[k]); }
    }
    forall j | 0 <= j < |t.relayed|
      ensures Carries(cfg, t, t.relayed[j].topic, t.relayed[j].payload, t.relayed[j].from)
    {
      StaysCarried(cfg, s, t, s.relayed[j].topic, s.relayed[j].payload, s.relayed[j].from);
    }
  }

  lemma ReceiveFaithful(cfg: Config, s: Proxy, i: nat, topic: string, payload: Bytes)
    requires WellBehaved(cfg.codec) && Faithful(cfg, s) && Possible(cfg, s, Receive(i, topic, payload))
    ensures Faithful(cfg, OnReceive(cfg, s, i, topic, payload))
  {
    var t := OnReceive(cfg, s, i, topic, payload);
    if Decide(cfg.engine, cfg.codec, Downlink, topic, payload).Forward? {
      ForwardAppendsOneHop(cfg.engine, cfg.codec, Downlink, topic, payload);
      assert t.inbox[|s.inbox|] == Received(i, topic, payload);
    }
    MoveFaithful(cfg, s, t, i);
  }

  /** A command that asks for no reply goes on as it is. */
  lemma PassedCarries(cfg: Config, s: Proxy, p: Pump)
    requires p.Decided? && PumpCarries(cfg, s, p)
    requires cfg.codec.decode(p.payload).Some? && cfg.codec.decode(p.payload).value.replyTo.None?
    ensures Carries(cfg, s, p.topic, p.payload, p.from)
  {
  }

  /** A command whose reply topic was replaced by the one recorded for it. */
  lemma RecordedCarries(cfg: Config, s: Proxy, t: Proxy, p: Pump, cmd: Rewrote)
    requires WellBehaved(cfg.codec) && p.Decided? && PumpCarries(cfg, s, p) && t.inbox == s.inbox
    requires cmd.topic == p.topic && cmd.from == p.from && cmd.bridge in t.recorded
    requires cfg.codec.decode(p.payload).Some?
    requires var m := cfg.codec.decode(p.payload).value;
             && m.replyTo == Some(t.recorded[cmd.bridge].site)
             && cfg.codec.encode(m.(replyTo := Some(cmd.bridge))) == Some(cmd.bytes)
    ensures Carries(cfg, t, cmd.topic, cmd.bytes, cmd.from)
  {
  }

  lemma RewrittenCarries(cfg: Config, s: Proxy, i: nat, minted: string, now: int)
    requires WellBehaved(cfg.codec) && Possible(cfg, s, RewriteCmd(i, minted, now))
    requires PumpCarries(cfg, s, s.pumps[i])
    requires var r := Rewrite(s.corr, cfg.codec, s.pumps[i].payload, minted, now).1;
             r.Rewritten? ==> r.evicted != Some(minted)
    ensures PumpCarries(cfg, OnRewrite(cfg, s, i, minted, now), OnRewrite(cfg, s, i, minted, now).pumps[i])
  {
    var t := OnRewrite(cfg, s, i, minted, now);
    match Rewrite(s.corr, cfg.codec, s.pumps[i].payload, minted, now).1
    case Dropped(_) =>
    case Passthrough =>
      PassedCarries(cfg, s, s.pumps[i]);
      assert t.inbox == s.inbox && t.recorded == s.recorded;
    case Rewritten(bytes, bridge, evicted) =>
      RecordedCarries(cfg, s, t, s.pumps[i], t.pumps[i].cmd);
  }

  lemma RewriteFaithful(cfg: Config, s: Proxy, i: nat, minted: string, now: int)
    requires WellBehaved(cfg.codec) && ProxyInv(cfg, s) && Faithful(cfg, s)
    requires Possible(cfg, s, RewriteCmd(i, minted, now))
    ensures Faithful(cfg, OnRewrite(cfg, s, i, minted, now))
  {
    RewriteFates(cfg, s, i, minted, now);
    RewriteAdvances(cfg, s, i, minted, now);
    RewrittenCarries(cfg, s, i, minted, now);
    RewriteShape(cfg, s, i, minted, now);
    MoveFaithful(cfg, s, OnRewrite(cfg, s, i, minted, now), i);
  }

  lemma RewriteKeepsSource(cfg: Config, s: Proxy, i: nat, minted: string, now: int)
    requires Possible(cfg, s, RewriteCmd(i, minted, now))
    ensures var p := OnRewrite(cfg, s, i, minted, now).pumps[i]; Source(p) in {None, Source(s.pumps[i])}
  {
  }

  /** From holding a rewritten command to holding it still, relaying it, or letting go. */
  predicate KeepsCommand(p: Pump, q: Pump) {
    && !p.Idle? && !p.Decided? && !p.Relaying?
    && match q
       case Idle => true
       case Decided(_, _, _) => false
       case Relaying(topic, payload, from) => topic == p.cmd.topic && payload == p.cmd.bytes && from == p.cmd.from
       case _ => q.cmd == p.cmd
  }

  /** A pump that moves on with the command it has. */
  lemma OnwardFaithful(cfg: Config, s: Proxy, t: Proxy, i: nat)
    requires Faithful(cfg, s) && Advanced(s.recorded, t.recorded) && t.inbox == s.inbox && t.relayed == s.relayed
    requires i < |s.pumps| == |t.pumps| && t.pumps == s.pumps[i := t.pumps[i]] && KeepsCommand(s.pumps[i], t.pumps[i])
    ensures Faithful(cfg, t)
  {
    assert PumpCarries(cfg, s, s.pumps[i]);
    StaysCarried(cfg, s, t, s.pumps[i].cmd.topic, s.pumps[i].cmd.bytes, s.pumps[i].cmd.from);
    MoveFaithful(cfg, s, t, i);
  }

  lemma RelayFaithful(cfg: Config, s: Proxy, i: nat, ok: bool)
    requires Faithful(cfg, s) && Possible(cfg, s, RelayDown(i, ok))
    ensures Faithful(cfg, OnRelayDown(s, i, ok))
  {
    var t := OnRelayDown(s, i, ok);
    assert PumpCarries(cfg, s, s.pumps[i]);
    MoveFaithful(cfg, s, t.(relayed := s.relayed), i);
    forall j | 0 <= j < |t.relayed|
      ensures Carries(cfg, t, t.relayed[j].topic, t.relayed[j].payload, t.relayed[j].from)
    {
      if j < |s.relayed| { StaysCarried(cfg, s, t, s.relayed[j].topic, s.relayed[j].payload, s.relayed[j].from); }
    }
    forall k | 0 <= k < |t.pumps| ensures PumpCarries(cfg, t, t.pumps[k]) {
      if k != i { PumpStaysCarried(cfg, s, t, s.pumps[k]); }
    }
  }

  predicate IsOnward(a: Action) { a.Evict? || a.Subscribe? || a.GiveUp? || a.Recheck? || a.Undangle? }

  lemma OnwardStepFaithful(cfg: Config, s: Proxy, a: Action)
    requires Faithful(cfg, s) && Possible(cfg, s, a) && IsOnward(a) && Advanced(s.recorded, Step(cfg, s, a).recorded)
    ensures Faithful(cfg, Step(cfg, s, a))
  {
    OnwardKeepsCommand(cfg, s, a, a.i);
    OnwardFaithful(cfg, s, Step(cfg, s, a), a.i);
  }

  lemma OnwardKeepsCommand(cfg: Config, s: Proxy, a: Action, i: nat)
    requires Possible(cfg, s, a) && IsOnward(a) && i == a.i
    ensures var t := Step(cfg, s, a);
            && t.inbox == s.inbox && t.relayed == s.relayed
            && i < |s.pumps| == |t.pumps| && t.pumps == s.pumps[i := t.pumps[i]]
            && KeepsCommand(s.pumps[i], t.pumps[i])
  {
  }

  /** The steps of the sweep and of the reply pumps. */
  lemma AsideLeavesCommands(cfg: Config, s: Proxy, a: Action)
    requires Possible(cfg, s, a) && !IsPumpAction(a)
    ensures var t := Step(cfg, s, a); t.pumps == s.pumps && t.inbox == s.inbox && t.relayed == s.relayed
  {
  }

  lemma FaithfulStep(cfg: Config, s: Proxy, a: Action)
    requires WellBehaved(cfg.codec) && ProxyInv(cfg, s) && Faithful(cfg, s) && Possible(cfg, s, a)
    ensures Faithful(cfg, Step(cfg, s, a))
  {
    FatesAdvance(cfg, s, a);
    if IsOnward(a) {
      OnwardStepFaithful(cfg, s, a);
    } else if !IsPumpAction(a) {
      AsideLeavesCommands(cfg, s, a);
      MoveFaithful(cfg, s, Step(cfg, s, a), |s.pumps|);
    } else {
      match a
      case Receive(i, topic, payload) => ReceiveFaithful(cfg, s, i, topic, payload);
      case RewriteCmd(i, minted, now) => RewriteFaithful(cfg, s, i, minted, now);
      case RelayDown(i, ok) => RelayFaithful(cfg, s, i, ok);
    }
  }

  lemma {:induction false} FaithfulInvariant(cfg: Config, actions: seq<Action>)
    requires WellBehaved(cfg.codec) && Run(cfg, actions).Some?
    ensures Faithful(cfg, Run(cfg, actions).value)
    decreases |actions|
  {
    if actions != [] {
      var front := actions[..|actions| - 1];
      FaithfulInvariant(cfg, front);
      ProxyInvariant(cfg, front);
      FaithfulStep(cfg, Run(cfg, front).value, actions[|actions| - 1]);
    }
  }

  /** At most one pump moves, and keeps its command or lets go of it. */
  lemma MoveOnce(s: Proxy, t: Proxy, i: nat)
    requires Once(s) && t.inbox == s.inbox && t.relayed == s.relayed && |t.pumps| == |s.pumps|
    requires forall k :: 0 <= k < |s.pumps| && k != i ==> t.pumps[k] == s.pumps[k]
    requires i < |s.pumps| ==> Source(t.pumps[i]).None? || Source(t.pumps[i]) == Source(s.pumps[i])
    ensures Once(t)
  {
    assert forall k :: 0 <= k < |t.pumps| ==> Source(t.pumps[k]).None? || Source(t.pumps[k]) == Source(s.pumps[k]);
  }

  lemma ReceiveOnce(cfg: Config, s: Proxy, i: nat, topic: string, payload: Bytes)
    requires Once(s) && Possible(cfg, s, Receive(i, topic, payload))
    ensures Once(OnReceive(cfg, s, i, topic, payload))
  {
    var t := OnReceive(cfg, s, i, topic, payload);
    assert forall k :: 0 <= k < |t.pumps| && k != i ==> t.pumps[k] == s.pumps[k];
    assert Source(t.pumps[i]) in {None, Some(|s.inbox|)};
  }

  lemma RelayOnce(cfg: Config, s: Proxy, i: nat, ok: bool)
    requires Once(s) && Possible(cfg, s, RelayDown(i, ok))
    ensures Once(OnRelayDown(s, i, ok))
  {
    var t := OnRelayDown(s, i, ok);
    assert forall k :: 0 <= k < |t.pumps| && k != i ==> t.pumps[k] == s.pumps[k];
    assert forall j :: 0 <= j < |s.relayed| ==> t.relayed[j] == s.relayed[j];
    assert ok ==> Source(s.pumps[i]) == Some(t.relayed[|s.relayed|].from);
  }

  /** Each pump works on what it received last, and relays in that order. */
  ghost predicate InOrder(s: Proxy) {
    && Once(s)
    && (forall i :: 0 <= i < |s.pumps| && Source(s.pumps[i]).Some? ==> s.inbox[Source(s.pumps[i]).value].pump == i)
    && (forall i, j :: 0 <= i < |s.pumps| && 0 <= j < |s.relayed| && Source(s.pumps[i]).Some? &&
                       s.inbox[s.relayed[j].from].pump == i ==>
          s.relayed[j].from < Source(s.pumps[i]).value)
    && (forall j, k :: 0 <= j < k < |s.relayed| &&
                       s.inbox[s.relayed[j].from].pump == s.inbox[s.relayed[k].from].pump ==>
          s.relayed[j].from < s.relayed[k].from)
  }

  lemma MoveInOrder(s: Proxy, t: Proxy, i: nat)
    requires InOrder(s) && t.inbox == s.inbox && t.relayed == s.relayed && |t.pumps| == |s.pumps|
    requires forall k :: 0 <= k < |s.pumps| && k != i ==> t.pumps[k] == s.pumps[k]
    requires i < |s.pumps| ==> Source(t.pumps[i]).None? || Source(t.pumps[i]) == Source(s.pumps[i])
    ensures InOrder(t)
  {
    MoveOnce(s, t, i);
    assert forall k :: 0 <= k < |t.pumps| ==> Source(t.pumps[k]).None? || Source(t.pumps[k]) == Source(s.pumps[k]);
  }

  /** A pump takes up a command received last of all, or none. */
  lemma TakeUpInOrder(s: Proxy, t: Proxy, i: nat)
    requires InOrder(s) && Once(t) && t.relayed == s.relayed && i < |s.pumps| == |t.pumps|
    requires |t.inbox| == |s.inbox| + 1 && t.inbox[..|s.inbox|] == s.inbox && t.inbox[|s.inbox|].pump == i
    requires forall k :: 0 <= k < |s.pumps| && k != i ==> t.pumps[k] == s.pumps[k]
    requires Source(t.pumps[i]) in {None, Some(|s.inbox|)}
    ensures InOrder(t)
  {
    assert forall n :: 0 <= n < |s.inbox| ==> t.inbox[n] == s.inbox[n];
  }

  lemma ReceiveInOrder(cfg: Config, s: Proxy, i: nat, topic: string, payload: Bytes)
    requires InOrder(s) && Possible(cfg, s, Receive(i, topic, payload))
    ensures InOrder(OnReceive(cfg, s, i, topic, payload))
  {
    ReceiveOnce(cfg, s, i, topic, payload);
    TakeUpInOrder(s, OnReceive(cfg, s, i, topic, payload), i);
  }

  lemma RelayInOrder(cfg: Config, s: Proxy, i: nat, ok: bool)
    requires InOrder(s) && Possible(cfg, s, RelayDown(i, ok))
    ensures InOrder(OnRelayDown(s, i, ok))
  {
    RelayOnce(cfg, s, i, ok);
    var t := OnRelayDown(s, i, ok);
    assert forall k :: 0 <= k < |t.pumps| && k != i ==> t.pumps[k] == s.pumps[k];
    assert forall j :: 0 <= j < |s.relayed| ==> t.relayed[j] == s.relayed[j];
    assert ok ==> Source(s.pumps[i]) == Some(t.relayed[|s.relayed|].from);
  }

  lemma InOrderStep(cfg: Config, s: Proxy, a: Action)
    requires InOrder(s) && Possible(cfg, s, a)
    ensures InOrder(Step(cfg, s, a))
  {
    if IsOnward(a) {
      OnwardKeepsCommand(cfg, s, a, a.i);
      MoveInOrder(s, Step(cfg, s, a), a.i);
    } else if !IsPumpAction(a) {
      AsideLeavesCommands(cfg, s, a);
      MoveInOrder(s, Step(cfg, s, a), |s.pumps|);
    } else {
      match a
      case Receive(i, topic, payload) => ReceiveInOrder(cfg, s, i, topic, payload);
      case RewriteCmd(i, minted, now) =>
        RewriteShape(cfg, s, i, minted, now);
        RewriteKeepsSource(cfg, s, i, minted, now);
        MoveInOrder(s, OnRewrite(cfg, s, i, minted, now), i);
      case RelayDown(i, ok) => RelayInOrder(cfg, s, i, ok);
    }
  }

  lemma {:induction false} InOrderInvariant(cfg: Config, actions: seq<Action>)
    requires Run(cfg, actions).Some?
    ensures InOrder(Run(cfg, actions).value)
    decreases |actions|
  {
    if actions != [] {
      var front := actions[..|actions| - 1];
      InOrderInvariant(cfg, front);
      InOrderStep(cfg, Run(cfg, front).value, actions[|actions| - 1]);
    }
  }

  /** No received command is worked on by two pumps, or again once relayed, in any run. */
  lemma OnceInvariant(cfg: Config, actions: seq<Action>)
    requires Run(cfg, actions).Some?
    ensures Once(Run(cfg, actions).value)
  {
    InOrderInvariant(cfg, actions);
  }

  /** The commands one downlink pump relays are in strict order of reception. */
  lemma RelayedInReceptionOrder(cfg: Config, actions: seq<Action>, j: nat, k: nat)
    requires Run(cfg, actions).Some? && j < k < |Run(cfg, actions).value.relayed|
    ensures var s := Run(cfg, actions).value;
            && s.relayed[j].from < |s.inbox| && s.relayed[k].from < |s.inbox|
            && (s.inbox[s.relayed[j].from].pump == s.inbox[s.relayed[k].from].pump ==>
                  s.relayed[j].from < s.relayed[k].from)
  {
    InOrderInvariant(cfg, actions);
  }

  /** Every command on the device bus is a received one, each relayed at most once, under
      its own topic and with its own content, one hop longer; it asks for a reply exactly
      if the received one did, then on a bridge topic recorded with the requester's own. */
  lemma RelayedIsReceived(cfg: Config, actions: seq<Action>, j: nat)
    requires WellBehaved(cfg.codec) && Run(cfg, actions).Some? && j < |Run(cfg, actions).value.relayed|
    ensures var s := Run(cfg, actions).value;
            var sent := s.relayed[j];
            && sent.from < |s.inbox| && sent.topic == s.inbox[sent.from].topic
            && cfg.codec.decode(s.inbox[sent.from].payload).Some? && cfg.codec.decode(sent.payload).Some?
            && (var m, r := cfg.codec.decode(s.inbox[sent.from].payload).value, cfg.codec.decode(sent.payload).value;
                && SameContent(m, r) && Hops(r) == Hops(m) + [JString(cfg.engine.hopId)]
                && (m.replyTo.Some? <==> r.replyTo.Some?)
                && (m.replyTo.Some? ==>
                  r.replyTo.value in s.recorded && s.recorded[r.replyTo.value].site == m.replyTo.value))
            && (forall k :: 0 <= k < |s.relayed| && k != j ==> s.relayed[k].from != sent.from)
  {
    FaithfulInvariant(cfg, actions);
    InOrderInvariant(cfg, actions);
    var s := Run(cfg, actions).value;
    var sent := s.relayed[j];
    assert Carries(cfg, s, sent.topic, sent.payload, sent.from);
    var m, r := cfg.codec.decode(s.inbox[sent.from].payload).value, cfg.codec.decode(sent.payload).value;
    HopsLeaveContent(m, Hops(m) + [JString(cfg.engine.hopId)], r.replyTo);
  }

  // ---- up ----

  /** `taken` holds, for each request resolved, the reply that resolved it. */
  ghost predicate AnswersFaithful(cfg: Config, s: Proxy) {
    && (forall t :: t in s.repliers && s.repliers[t].Waiting? ==> t !in s.taken)
    && (forall t :: t in s.repliers && s.repliers[t].Resolved? ==> t in s.taken && s.taken[t] == s.repliers[t].reply)
    && (forall t :: t in s.taken ==> t in s.repliers)
    && (forall j :: 0 <= j < |s.answers| ==>
          && s.answers[j].bridge in s.taken
          && PrepareReply(cfg.engine, cfg.codec, s.taken[s.answers[j].bridge]) == Relayed(s.answers[j].payload))
  }

  /** Steps that resolve and settle nothing. */
  lemma QuietAnswers(cfg: Config, s: Proxy, t: Proxy)
    requires AnswersFaithful(cfg, s) && t.taken == s.taken && t.answers == s.answers
    requires forall x :: x in s.repliers ==> x in t.repliers
    requires forall x :: x in t.repliers && t.repliers[x].Waiting? ==>
               x !in s.repliers || s.repliers[x].Waiting?
    requires forall x :: x in t.repliers && t.repliers[x].Resolved? ==>
        x in s.repliers && s.repliers[x] == t.repliers[x]
    ensures AnswersFaithful(cfg, t)
  {
  }

  lemma ReplyAnswers(cfg: Config, s: Proxy, x: string, payload: Bytes)
    requires AnswersFaithful(cfg, s) && AnswersRight(s) && Possible(cfg, s, ReplyArrives(x, payload))
    ensures AnswersFaithful(cfg, OnReply(s, x, payload))
  {
  }

  lemma SettledAnswers(cfg: Config, s: Proxy, x: string, ok: bool)
    requires AnswersFaithful(cfg, s) && Possible(cfg, s, SettleReply(x, ok))
    ensures AnswersFaithful(cfg, OnSettle(cfg, s, x, ok))
  {
  }

  /** A downlink pump takes no reply; its re-check may start one reply pump. */
  lemma PumpQuiet(cfg: Config, s: Proxy, a: Action)
    requires ProxyInv(cfg, s) && Possible(cfg, s, a) && IsPumpAction(a)
    ensures var t := Step(cfg, s, a);
            && t.taken == s.taken && t.answers == s.answers
            && (forall x :: x in s.repliers ==> x in t.repliers && t.repliers[x] == s.repliers[x])
            && (forall x :: x in t.repliers && x !in s.repliers ==> t.repliers[x] == Waiting)
  {
    match a
    case RewriteCmd(i, minted, now) => RewriteShape(cfg, s, i, minted, now);
    case Recheck(i) => assert s.pumps[i].cmd.bridge !in s.repliers;
    case _ =>
  }

  lemma AnswersFaithfulStep(cfg: Config, s: Proxy, a: Action)
    requires ProxyInv(cfg, s) && AnswersRight(s) && AnswersFaithful(cfg, s) && Possible(cfg, s, a)
    ensures AnswersFaithful(cfg, Step(cfg, s, a))
  {
    if IsPumpAction(a) {
      PumpQuiet(cfg, s, a);
      QuietAnswers(cfg, s, Step(cfg, s, a));
    } else {
      match a
      case ReplyArrives(x, payload) => ReplyAnswers(cfg, s, x, payload);
      case SettleReply(x, ok) => SettledAnswers(cfg, s, x, ok);
      case SweepMap(now) => QuietAnswers(cfg, s, OnSweep(s, now));
      case ExpireNext => QuietAnswers(cfg, s, OnExpireNext(s));
      case TearDown(x) => QuietAnswers(cfg, s, Step(cfg, s, a));
      case Close(x) => QuietAnswers(cfg, s, Step(cfg, s, a));
    }
  }

  lemma {:induction false} AnswersFaithfulInvariant(cfg: Config, actions: seq<Action>)
    requires Run(cfg, actions).Some?
    ensures AnswersFaithful(cfg, Run(cfg, actions).value)
    decreases |actions|
  {
    if actions != [] {
      var front := actions[..|actions| - 1];
      AnswersFaithfulInvariant(cfg, front);
      AnswersInvariant(cfg, front);
      ProxyInvariant(cfg, front);
      AnswersFaithfulStep(cfg, Run(cfg, front).value, actions[|actions| - 1]);
    }
  }

  /** Every answer published carries the content of the reply taken on its bridge topic, one
      hop longer and asking for no reply. */
  lemma AnswerIsReply(cfg: Config, actions: seq<Action>, j: nat)
    requires WellBehaved(cfg.codec) && Run(cfg, actions).Some? && j < |Run(cfg, actions).value.answers|
    ensures var s := Run(cfg, actions).value;
            var answer := s.answers[j];
            && answer.bridge in s.taken
            && cfg.codec.decode(s.taken[answer.bridge]).Some? && cfg.codec.decode(answer.payload).Some?
            && var r, got := cfg.codec.decode(s.taken[answer.bridge]).value, cfg.codec.decode(answer.payload).value;
            SameContent(r, got) && Hops(got) == Hops(r) + [JString(cfg.engine.hopId)] && got.replyTo == None
  {
    AnswersFaithfulInvariant(cfg, actions);
    var s := Run(cfg, actions).value;
    ReplyCrosses(cfg.engine, cfg.codec, s.taken[s.answers[j].bridge]);
  }

  /** There and back: an answer on the bridge topic of a relayed command is published on the
      reply topic of the command received. */
  lemma AnswerReachesRequester(cfg: Config, actions: seq<Action>, j: nat, k: nat)
    requires WellBehaved(cfg.codec) && Run(cfg, actions).Some?
    requires var s := Run(cfg, actions).value;
             && j < |s.relayed| && k < |s.answers| && cfg.codec.decode(s.relayed[j].payload).Some?
             && cfg.codec.decode(s.relayed[j].payload).value.replyTo == Some(s.answers[k].bridge)
    ensures var s := Run(cfg, actions).value;
            && s.relayed[j].from < |s.inbox| && cfg.codec.decode(s.inbox[s.relayed[j].from].payload).Some?
            && cfg.codec.decode(s.inbox[s.relayed[j].from].payload).value.replyTo == Some(s.answers[k].site)
  {
    RelayedIsReceived(cfg, actions, j);
    AtMostOneAnswer(cfg, actions);
  }
}
