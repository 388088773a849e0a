/** Every uplink pump is serial: what it publishes live lands in the order it received it. */
module PumpOrder {
  import opened Wrappers
  import opened Messages
  import opened Governor

  ghost predicate Serial(cfg: Config, s: GovState) {
    && |s.pumps| == |cfg.classes| && |s.origins| == |s.site|
    && (forall i :: 0 <= i < |s.pumps| && !s.pumps[i].Idle? ==> i in s.hands && s.hands[i] < s.received)
    && (forall q :: 0 <= q < |s.site| ==>
          && (s.site[q].Live? <==> s.origins[q].Some?)
          && (s.origins[q].Some? ==>
                var o := s.origins[q].value;
                && o.from < s.received && o.pump < |cfg.classes| && s.site[q].cls == cfg.classes[o.pump]
                && (!s.pumps[o.pump].Idle? ==> o.from < s.hands[o.pump])))
    && (forall p, q :: 0 <= p < q < |s.site| && SamePump(s.origins, p, q) ==>
          s.origins[p].value.from < s.origins[q].value.from)
  }

  predicate SamePump(origins: seq<Option<Origin>>, p: nat, q: nat)
    requires p < |origins| && q < |origins|
  {
    origins[p].Some? && origins[q].Some? && origins[p].value.pump == origins[q].value.pump
  }

  lemma ReceiveSerial(cfg: Config, s: GovState, i: nat, topic: string, payload: Bytes)
    requires Serial(cfg, s) && Possible(cfg, s, Receive(i, topic, payload))
    ensures Serial(cfg, OnReceive(cfg, s, i, topic, payload))
  {
    var t := OnReceive(cfg, s, i, topic, payload);
    assert t.origins == s.origins && t.site == s.site;
  }

  lemma AdmitSerial(cfg: Config, s: GovState, i: nat, connected: bool, now: real)
    requires Serial(cfg, s) && Possible(cfg, s, Admit(i, connected, now))
    ensures Serial(cfg, OnAdmit(cfg, s, i, connected, now))
  {
    var t := OnAdmit(cfg, s, i, connected, now);
    assert t.origins == s.origins && t.site == s.site && t.hands == s.hands && t.received == s.received;
  }

  lemma PublishSerial(cfg: Config, s: GovState, i: nat, ok: bool)
    requires Serial(cfg, s) && Possible(cfg, s, Publish(i, ok))
    ensures Serial(cfg, OnPublish(cfg, s, i, ok))
  {
    var t := OnPublish(cfg, s, i, ok);
    forall p, q | 0 <= p < q < |t.site| && SamePump(t.origins, p, q)
      ensures t.origins[p].value.from < t.origins[q].value.from
    {
      if q < |s.site| { assert SamePump(s.origins, p, q); }
    }
  }

  lemma ReplaySerial(cfg: Config, s: GovState, ok: bool)
    requires Serial(cfg, s) && s.pc.Flying?
    ensures Serial(cfg, OnPublishReplay(s, ok))
  {
    var t := OnPublishReplay(s, ok);
    forall p, q | 0 <= p < q < |t.site| && SamePump(t.origins, p, q)
      ensures t.origins[p].value.from < t.origins[q].value.from
    {
      assert SamePump(s.origins, p, q);
    }
  }

  /** The watcher's other steps receive and land nothing. */
  lemma QuietSerial(cfg: Config, s: GovState, t: GovState)
    requires Serial(cfg, s) && t.pumps == s.pumps && t.site == s.site
    requires t.origins == s.origins && t.hands == s.hands && t.received == s.received
    ensures Serial(cfg, t)
  {
  }

  lemma {:induction false} SerialInvariant(cfg: Config, actions: seq<Action>)
    requires Run(cfg, actions).Some?
    ensures Serial(cfg, Run(cfg, actions).value)
    decreases |actions|
  {
    if actions != [] {
      var front, a := actions[..|actions| - 1], actions[|actions| - 1];
      SerialInvariant(cfg, front);
      match a
      case Receive(i, topic, payload) => ReceiveSerial(cfg, Run(cfg, front).value, i, topic, payload);
      case Admit(i, connected, now) => AdmitSerial(cfg, Run(cfg, front).value, i, connected, now);
      case Publish(i, ok) => PublishSerial(cfg, Run(cfg, front).value, i, ok);
      case PublishReplay(ok) => ReplaySerial(cfg, Run(cfg, front).value, ok);
      case _ => QuietSerial(cfg, Run(cfg, front).value, Step(cfg, Run(cfg, front).value, a));
    }
  }

  /** For every class: the live landings of one pump are in strict order of reception. */
  lemma LiveInReceptionOrder(cfg: Config, actions: seq<Action>, p: nat, q: nat)
    requires Run(cfg, actions).Some?
    requires var s := Run(cfg, actions).value; p < q < |s.site| && s.site[p].Live? && s.site[q].Live?
    ensures var s := Run(cfg, actions).value;
            && |s.origins| == |s.site| && s.origins[p].Some? && s.origins[q].Some?
            && (s.origins[p].value.pump == s.origins[q].value.pump ==>
                  s.origins[p].value.from < s.origins[q].value.from)
  {
    SerialInvariant(cfg, actions);
    assert SamePump(Run(cfg, actions).value.origins, p, q) <==>
           Run(cfg, actions).value.origins[p].value.pump == Run(cfg, actions).value.origins[q].value.pump;
  }
}
