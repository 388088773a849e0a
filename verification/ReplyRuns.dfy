/** The lifetimes, over the reply proxy's own runs: every interleaving of its tasks is one
    run of operations on the correlation map. */
module ReplyRuns {
  import opened Wrappers
  import opened Reply
  import opened ReplyProxy
  import Lifetime = ReplyLifetime

  /** What a step does to the map under its lock. */
  function OpsOf(cfg: Config, s: Proxy, a: Action): seq<Lifetime.Op>
    requires Possible(cfg, s, a)
  {
    match a
    case RewriteCmd(i, minted, now) =>
      if Rewrite(s.corr, cfg.codec, s.pumps[i].payload, minted, now).1.Rewritten? then
        var m := cfg.codec.decode(s.pumps[i].payload).value;
        [Lifetime.Minted(minted, m.replyTo.value, m.correlationId, now)]
      else []
    case GiveUp(i) => [Lifetime.Forgotten(s.pumps[i].cmd.bridge, s.clock)]
    case SweepMap(now) => [Lifetime.Swept(now)]
    case ReplyArrives(t, _) => [Lifetime.Resolved(t, s.clock)]
    case _ => []
  }

  function MapOps(cfg: Config, actions: seq<Action>): seq<Lifetime.Op>
    decreases |actions|
  {
    if actions == [] then []
    else
      var front, a := actions[..|actions| - 1], actions[|actions| - 1];
      var before := Run(cfg, front);
      MapOps(cfg, front) +
      if before.Some? && Possible(cfg, before.value, a) then OpsOf(cfg, before.value, a) else []
  }

  ghost function LifeOf(cfg: Config, actions: seq<Action>): Option<Lifetime.Life> {
    Lifetime.Run(Lifetime.Start(cfg.ttl, cfg.maxPending, 0), MapOps(cfg, actions))
  }

  /** The history of the map in a state of the proxy. */
  ghost predicate Tracks(cfg: Config, s: Proxy, l: Lifetime.Life) {
    && l.corr == s.corr && l.clock <= s.clock
    && (forall r :: r in l.recordings ==> r.topic in s.seen)
    && Lifetime.LifeInv(cfg.ttl, cfg.maxPending, l)
  }

  lemma LifeExtends(start: Lifetime.Life, ops: seq<Lifetime.Op>, op: Lifetime.Op)
    requires Lifetime.Run(start, ops).Some? && Lifetime.Admissible(Lifetime.Run(start, ops).value, op)
    ensures Lifetime.Run(start, ops + [op]) == Some(Lifetime.Perform(Lifetime.Run(start, ops).value, op))
  {
    assert (ops + [op])[..|ops|] == ops;
  }

  /** A step that does not touch the map. */
  lemma ApartTracks(cfg: Config, s: Proxy, a: Action, l: Lifetime.Life)
    requires Possible(cfg, s, a) && Tracks(cfg, s, l) && OpsOf(cfg, s, a) == []
    ensures Tracks(cfg, Step(cfg, s, a), l)
  {
    var t := Step(cfg, s, a);
    assert t.corr == s.corr && s.clock <= t.clock && s.seen <= t.seen;
  }

  lemma MintTracks(cfg: Config, s: Proxy, i: nat, minted: string, now: int, l: Lifetime.Life)
    requires Possible(cfg, s, RewriteCmd(i, minted, now)) && Tracks(cfg, s, l)
    requires OpsOf(cfg, s, RewriteCmd(i, minted, now)) != []
    ensures var op := OpsOf(cfg, s, RewriteCmd(i, minted, now))[0];
            Lifetime.Admissible(l, op) && Tracks(cfg, OnRewrite(cfg, s, i, minted, now), Lifetime.Perform(l, op))
  {
    var op := OpsOf(cfg, s, RewriteCmd(i, minted, now))[0];
    Lifetime.LifeStep(cfg.ttl, cfg.maxPending, l, op);
    var t, k := OnRewrite(cfg, s, i, minted, now), Lifetime.Perform(l, op);
    assert forall r :: r in k.recordings ==> r in l.recordings || r == Lifetime.Recording(minted, now);
  }

  lemma OthersTrack(cfg: Config, s: Proxy, a: Action, l: Lifetime.Life)
    requires Possible(cfg, s, a) && Tracks(cfg, s, l) && !a.RewriteCmd? && OpsOf(cfg, s, a) != []
    ensures var op := OpsOf(cfg, s, a)[0];
            Lifetime.Admissible(l, op) && Tracks(cfg, Step(cfg, s, a), Lifetime.Perform(l, op))
  {
    var op := OpsOf(cfg, s, a)[0];
    Lifetime.LifeStep(cfg.ttl, cfg.maxPending, l, op);
    assert Lifetime.Perform(l, op).recordings == l.recordings;
  }

  /** The map in any reachable state is its operations performed on the empty one, with the
      clock monotone and no topic minted twice, so every lifetime theorem applies. */
  lemma {:induction false} MapIsItsOps(cfg: Config, actions: seq<Action>)
    requires Run(cfg, actions).Some?
    ensures LifeOf(cfg, actions).Some? && Tracks(cfg, Run(cfg, actions).value, LifeOf(cfg, actions).value)
    decreases |actions|
  {
    if actions == [] {
      Lifetime.LifeInvariant(cfg.ttl, cfg.maxPending, 0, []);
    } else {
      var front, a := actions[..|actions| - 1], actions[|actions| - 1];
      MapIsItsOps(cfg, front);
      var s, l := Run(cfg, front).value, LifeOf(cfg, front).value;
      var extra := OpsOf(cfg, s, a);
      if extra == [] {
        ApartTracks(cfg, s, a, l);
        assert MapOps(cfg, front) + extra == MapOps(cfg, front);
      } else {
        if a.RewriteCmd? { MintTracks(cfg, s, a.i, a.minted, a.now, l); } else { OthersTrack(cfg, s, a, l); }
        LifeExtends(Lifetime.Start(cfg.ttl, cfg.maxPending, 0), MapOps(cfg, front), extra[0]);
        assert extra == [extra[0]];
      }
    }
  }

  /** In every run of the proxy: evictions and expiries are never early, and if the sweep
      task's last sweep is at most one interval ago no pending entry is older than the ttl
      plus that interval. */
  lemma LifetimesHold(cfg: Config, actions: seq<Action>, now: int)
    requires Run(cfg, actions).Some?
    ensures LifeOf(cfg, actions).Some?
    ensures var s, l := Run(cfg, actions).value, LifeOf(cfg, actions).value;
            && l.corr == s.corr && |l.ordinals| == |s.corr.pending|
            && (forall v :: v in l.evictions ==>
                  && v.victim < v.cause < |l.recordings|
                  && v.cause - v.victim >= cfg.maxPending && v.cause - v.victim >= 1)
            && (forall x :: x in l.expiries ==>
                  x.entry < |l.recordings| && x.at - l.recordings[x.entry].at >= cfg.ttl)
            && (l.clock <= now <= l.lastSweep + SweepInterval(cfg.ttl) ==>
                  forall j :: 0 <= j < |s.corr.pending| ==>
                    && l.ordinals[j] < |l.recordings|
                    && l.recordings[l.ordinals[j]].topic == s.corr.pending[j].topic
                    && now - l.recordings[l.ordinals[j]].at <= cfg.ttl + SweepInterval(cfg.ttl))
  {
    MapIsItsOps(cfg, actions);
    var s, l := Run(cfg, actions).value, LifeOf(cfg, actions).value;
    Lifetime.NeverTornDownEarly(cfg.ttl, cfg.maxPending, 0, MapOps(cfg, actions));
    if l.clock <= now <= l.lastSweep + SweepInterval(cfg.ttl) {
      forall j | 0 <= j < |s.corr.pending|
        ensures l.ordinals[j] < |l.recordings| && l.recordings[l.ordinals[j]].topic == s.corr.pending[j].topic
        ensures now - l.recordings[l.ordinals[j]].at <= cfg.ttl + SweepInterval(cfg.ttl)
      {
        Lifetime.NeverMuchOlderThanTtl(cfg.ttl, cfg.maxPending, 0, MapOps(cfg, actions), now, j);
      }
    }
  }
}
