/** Strict order as a guarantee: at which admissions is it certain, whatever happens next,
    that no event admitted earlier lands later. */
module Overtakable {
  import opened Wrappers
  import opened Topics
  import opened Policy
  import opened Governor
  import opened ReplayWindow
  import opened AdmissionOrder
  import opened OvertakingRuns
  import opened WatcherOrder

  /** An event admitted before `later` has landed after it. */
  ghost predicate Passed(s: GovState, later: nat) {
    exists p, q :: 0 <= p < q < |s.site| && IsEvt(s.site[p]) && IsEvt(s.site[q])
                   && s.site[p].order == later && s.site[q].order < later
  }

  /** Some continuation of the run has that happen. */
  ghost predicate CanBePassed(cfg: Config, actions: seq<Action>, later: nat) {
    exists longer :: actions <= longer && HasPassed(cfg, longer, later)
  }

  ghost predicate HasPassed(cfg: Config, actions: seq<Action>, later: nat) {
    Run(cfg, actions).Some? && Passed(Run(cfg, actions).value, later)
  }

  predicate LandedAt(s: GovState, order: nat, at: nat) {
    at < |s.site| && IsEvt(s.site[at]) && s.site[at].order == order
  }

  predicate EvtPublishing(cfg: Config, s: GovState, j: nat) {
    j < |s.pumps| == |cfg.classes| && cfg.classes[j] == Evt && s.pumps[j].Publishing?
  }

  // ---- only if ----

  lemma StepKeepsBirths(cfg: Config, s: GovState, a: Action)
    requires Possible(cfg, s, a)
    ensures s.line.births <= Step(cfg, s, a).line.births
  {
  }

  lemma LastKeepsBirths(cfg: Config, actions: seq<Action>)
    requires actions != [] && Run(cfg, actions).Some?
    ensures var front := actions[..|actions| - 1];
            Run(cfg, front).Some? && Run(cfg, front).value.line.births <= Run(cfg, actions).value.line.births
  {
    StepKeepsBirths(cfg, Run(cfg, actions[..|actions| - 1]).value, actions[|actions| - 1]);
  }

  lemma {:induction false} BirthsPersist(cfg: Config, actions: seq<Action>, n: nat)
    requires n <= |actions| && Run(cfg, actions).Some?
    ensures Run(cfg, actions[..n]).Some?
    ensures Run(cfg, actions[..n]).value.line.births <= Run(cfg, actions).value.line.births
    decreases |actions|
  {
    if n == |actions| {
      assert actions[..n] == actions;
    } else {
      var front := actions[..|actions| - 1];
      LastKeepsBirths(cfg, actions);
      BirthsPersist(cfg, front, n);
      assert front[..n] == actions[..n];
    }
  }

  /** What the admission of an `evt` adds to the line. */
  lemma AdmissionBirth(cfg: Config, actions: seq<Action>, i: nat, connected: bool, now: real)
    requires Run(cfg, actions).Some? && Possible(cfg, Run(cfg, actions).value, Admit(i, connected, now))
    requires cfg.classes[i] == Evt
    requires Admission(Run(cfg, actions).value.policy, Evt, connected, now).1 in {UplinkVerdict.Forward, Buffer}
    ensures var s, t := Run(cfg, actions).value, Run(cfg, actions + [Admit(i, connected, now)]);
            && t == Some(OnAdmit(cfg, s, i, connected, now))
            && t.value.line.births == s.line.births +
                 [Birth(i, s.pumps[i].item, Admission(s.policy, Evt, connected, now).1 == UplinkVerdict.Forward,
                        if s.pc.Flying? then Some(OrderOf(s.line, s.pc.index)) else None, PublishingNow(cfg, s))]
  {
    RunExtends(cfg, actions, Admit(i, connected, now));
  }

  /** The birth of an `evt` is still on record in any continuation. */
  lemma BirthOnRecord(cfg: Config, actions: seq<Action>, i: nat, connected: bool, now: real, longer: seq<Action>)
    requires Run(cfg, actions).Some? && Possible(cfg, Run(cfg, actions).value, Admit(i, connected, now))
    requires cfg.classes[i] == Evt
    requires Admission(Run(cfg, actions).value.policy, Evt, connected, now).1 in {UplinkVerdict.Forward, Buffer}
    requires actions + [Admit(i, connected, now)] <= longer && Run(cfg, longer).Some?
    ensures var s, births := Run(cfg, actions).value, Run(cfg, longer).value.line.births;
            && |s.line.births| < |births|
            && var b := births[|s.line.births|];
            && b.publishing == PublishingNow(cfg, s) && (b.flying.Some? ==> s.pc.Flying?)
            && b.live == (Admission(s.policy, Evt, connected, now).1 == UplinkVerdict.Forward)
  {
    AdmissionBirth(cfg, actions, i, connected, now);
    BirthsPersist(cfg, longer, |actions| + 1);
    assert longer[..|actions| + 1] == actions + [Admit(i, connected, now)];
  }

  lemma PassedMeansUnderWay(cfg: Config, actions: seq<Action>, i: nat, connected: bool, now: real, longer: seq<Action>)
    requires Run(cfg, actions).Some? && Possible(cfg, Run(cfg, actions).value, Admit(i, connected, now))
    requires cfg.classes[i] == Evt
    requires Admission(Run(cfg, actions).value.policy, Evt, connected, now).1 in {UplinkVerdict.Forward, Buffer}
    requires actions + [Admit(i, connected, now)] <= longer
    requires HasPassed(cfg, longer, |Run(cfg, actions).value.line.births|)
    ensures var s := Run(cfg, actions).value;
            || (exists j: nat :: EvtPublishing(cfg, s, j))
            || (Admission(s.policy, Evt, connected, now).1 == UplinkVerdict.Forward && s.pc.Flying?)
  {
    var s, later, t := Run(cfg, actions).value, |Run(cfg, actions).value.line.births|, Run(cfg, longer).value;
    var p, q :| 0 <= p < q < |t.site| && IsEvt(t.site[p]) && IsEvt(t.site[q])
                && t.site[p].order == later && t.site[q].order < later;
    BirthOnRecord(cfg, actions, i, connected, now, longer);
    OvertakenOnlyIfUnderWay(cfg, longer, p, q);
    if t.site[q].order in PublishingNow(cfg, s) {
      var j :| 0 <= j < |s.pumps| && cfg.classes[j] == Evt && s.pumps[j].Publishing?
                && s.pumps[j].order == t.site[q].order;
      assert EvtPublishing(cfg, s, j);
    } else {
      LineInvariant(cfg, longer);
    }
  }

  // ---- if ----

  /** The watcher has moved on alone. */
  ghost predicate Onward(s: GovState, t: GovState) {
    && t.pumps == s.pumps && t.evts.log == s.evts.log && t.evts.dropped == s.evts.dropped
    && t.line.births == s.line.births && t.line.pushes == s.line.pushes
  }

  /** Both broadcasts, as far as they are still to come, bring the watcher to the drain. */
  lemma AnnounceToDrain(cfg: Config, actions: seq<Action>) returns (longer: seq<Action>)
    requires Run(cfg, actions).Some? && Run(cfg, actions).value.pc.Broadcasting?
    requires Run(cfg, actions).value.pc.which < 2
    ensures actions <= longer && Run(cfg, longer).Some?
    ensures Onward(Run(cfg, actions).value, Run(cfg, longer).value)
    ensures Run(cfg, longer).value.pc.Draining?
  {
    RunExtends(cfg, actions, Announce);
    longer := actions + [Announce];
    if Run(cfg, actions).value.pc.which == 0 {
      RunExtends(cfg, longer, Announce);
      longer := longer + [Announce];
    }
  }

  lemma CheckToDrain(cfg: Config, actions: seq<Action>) returns (longer: seq<Action>)
    requires Run(cfg, actions).Some?
    requires Run(cfg, actions).value.pc.Checking? && Run(cfg, actions).value.policy.evtBuffer != []
    ensures actions <= longer && Run(cfg, longer).Some?
    ensures Onward(Run(cfg, actions).value, Run(cfg, longer).value)
    ensures Run(cfg, longer).value.pc.Draining?
  {
    RunExtends(cfg, actions, CheckPending);
    longer := actions + [CheckPending];
  }

  lemma TickToDrain(cfg: Config, actions: seq<Action>) returns (longer: seq<Action>)
    requires Run(cfg, actions).Some?
    requires Run(cfg, actions).value.pc.Sleeping? && Run(cfg, actions).value.policy.evtBuffer != []
    ensures actions <= longer && Run(cfg, longer).Some?
    ensures Onward(Run(cfg, actions).value, Run(cfg, longer).value)
    ensures Run(cfg, longer).value.pc.Draining?
  {
    RunExtends(cfg, actions, Tick(true));
    if Run(cfg, actions).value.wasConnected {
      longer := CheckToDrain(cfg, actions + [Tick(true)]);
    } else {
      longer := AnnounceToDrain(cfg, actions + [Tick(true)]);
    }
  }

  /** From anywhere the watcher can be brought to the drain while something is buffered. */
  lemma ToDrain(cfg: Config, actions: seq<Action>) returns (longer: seq<Action>)
    requires Run(cfg, actions).Some? && Run(cfg, actions).value.policy.evtBuffer != []
    ensures actions <= longer && Run(cfg, longer).Some?
    ensures Onward(Run(cfg, actions).value, Run(cfg, longer).value)
    ensures Run(cfg, longer).value.pc.Draining?
  {
    WatchInvariant(cfg, actions);
    match Run(cfg, actions).value.pc
    case Sleeping => longer := TickToDrain(cfg, actions);
    case Broadcasting(_) => longer := AnnounceToDrain(cfg, actions);
    case Checking => longer := CheckToDrain(cfg, actions);
    case Draining => longer := actions;
    case Flying(_, _) =>
      RunExtends(cfg, actions, PublishReplay(true));
      longer := actions + [PublishReplay(true)];
  }

  lemma DrainOne(cfg: Config, actions: seq<Action>) returns (longer: seq<Action>)
    requires Run(cfg, actions).Some?
    requires Run(cfg, actions).value.pc.Draining? && Run(cfg, actions).value.policy.evtBuffer != []
    ensures actions <= longer && Run(cfg, longer).Some?
    ensures Onward(Run(cfg, actions).value, Run(cfg, longer).value)
    ensures var s, t := Run(cfg, actions).value, Run(cfg, longer).value;
            t.pc.Draining? && |t.policy.evtBuffer| == |s.policy.evtBuffer| - 1
  {
    RunExtends(cfg, actions, TakeOldest(true));
    longer := actions + [TakeOldest(true)];
    RunExtends(cfg, longer, PublishReplay(true));
    longer := longer + [PublishReplay(true)];
  }

  /** And from the drain everything buffered can be replayed. */
  lemma {:induction false} DrainAll(cfg: Config, actions: seq<Action>, n: nat) returns (longer: seq<Action>)
    requires Run(cfg, actions).Some? && Run(cfg, actions).value.pc.Draining?
    requires |Run(cfg, actions).value.policy.evtBuffer| == n
    ensures actions <= longer && Run(cfg, longer).Some?
    ensures Onward(Run(cfg, actions).value, Run(cfg, longer).value)
    ensures Run(cfg, longer).value.pc.Draining? && Run(cfg, longer).value.policy.evtBuffer == []
    decreases n
  {
    if n == 0 {
      longer := actions;
    } else {
      var shorter := DrainOne(cfg, actions);
      longer := DrainAll(cfg, shorter, n - 1);
    }
  }

  /** A buffered event, not dropped, has landed once the buffer has been drained. */
  lemma DrainedHasLanded(cfg: Config, actions: seq<Action>, longer: seq<Action>, j: nat) returns (at: nat)
    requires Run(cfg, actions).Some? && Run(cfg, longer).Some?
    requires Onward(Run(cfg, actions).value, Run(cfg, longer).value)
    requires Run(cfg, longer).value.pc.Draining? && Run(cfg, longer).value.policy.evtBuffer == []
    requires j < |Run(cfg, actions).value.line.pushes|
    requires |Run(cfg, actions).value.evts.log| - |Run(cfg, actions).value.policy.evtBuffer| <= j
    ensures LandedAt(Run(cfg, longer).value, Run(cfg, actions).value.line.pushes[j], at)
  {
    EvtInvariant(cfg, actions);
    EvtInvariant(cfg, longer);
    LineInvariant(cfg, longer);
    var s, t := Run(cfg, actions).value, Run(cfg, longer).value;
    assert j !in s.evts.dropped;
    assert j in t.evts.replayed;
    at := t.line.places[t.line.pushes[j]].at;
  }

  lemma PassedLater(cfg: Config, actions: seq<Action>, longer: seq<Action>, a: Action, later: nat)
    requires actions <= longer && HasPassed(cfg, longer + [a], later)
    ensures CanBePassed(cfg, actions, later)
  {
    assert actions <= longer + [a];
  }

  /** Another pump publishes after `later` has landed. */
  lemma LandsBehind(cfg: Config, actions: seq<Action>, longer: seq<Action>, p: nat, j: nat, later: nat)
    requires actions <= longer && Run(cfg, longer).Some? && LandedAt(Run(cfg, longer).value, later, p)
    requires var t := Run(cfg, longer).value; EvtPublishing(cfg, t, j) && t.pumps[j].order < later
    ensures CanBePassed(cfg, actions, later)
  {
    var t := Run(cfg, longer).value;
    RunExtends(cfg, longer, Publish(j, true));
    var u := Run(cfg, longer + [Publish(j, true)]).value;
    assert u.site[p] == t.site[p] && u.site[|t.site|].order == t.pumps[j].order;
    PassedLater(cfg, actions, longer, Publish(j, true), later);
  }

  /** A live event lands at once. */
  lemma LiveLands(cfg: Config, actions: seq<Action>, i: nat)
    requires Run(cfg, actions).Some? && EvtPublishing(cfg, Run(cfg, actions).value, i)
    ensures Run(cfg, actions + [Publish(i, true)]) == Some(OnPublish(cfg, Run(cfg, actions).value, i, true))
    ensures LandedAt(Run(cfg, actions + [Publish(i, true)]).value, Run(cfg, actions).value.pumps[i].order,
                     |Run(cfg, actions).value.site|)
  {
    RunExtends(cfg, actions, Publish(i, true));
  }

  lemma LiveCanBePassed(cfg: Config, actions: seq<Action>, i: nat, j: nat, later: nat)
    requires Run(cfg, actions).Some? && i != j
    requires var s := Run(cfg, actions).value;
             EvtPublishing(cfg, s, i) && EvtPublishing(cfg, s, j) && s.pumps[j].order < s.pumps[i].order == later
    ensures CanBePassed(cfg, actions, later)
  {
    LiveLands(cfg, actions, i);
    LandsBehind(cfg, actions, actions + [Publish(i, true)], |Run(cfg, actions).value.site|, j, later);
  }

  lemma LiveCanPassReplay(cfg: Config, actions: seq<Action>, i: nat, later: nat)
    requires Run(cfg, actions).Some?
    requires var s := Run(cfg, actions).value;
             EvtPublishing(cfg, s, i) && s.pc.Flying? && OrderOf(s.line, s.pc.index) < s.pumps[i].order == later
    ensures CanBePassed(cfg, actions, later)
  {
    LiveLands(cfg, actions, i);
    var s, one := Run(cfg, actions).value, actions + [Publish(i, true)];
    var t := Run(cfg, one).value;
    RunExtends(cfg, one, PublishReplay(true));
    var u := Run(cfg, one + [PublishReplay(true)]).value;
    assert u.site[|s.site|] == t.site[|s.site|] && u.site[|s.site| + 1].order == OrderOf(s.line, s.pc.index);
    PassedLater(cfg, actions, one, PublishReplay(true), later);
  }

  lemma DrainFromAnywhere(cfg: Config, actions: seq<Action>) returns (longer: seq<Action>)
    requires Run(cfg, actions).Some? && Run(cfg, actions).value.policy.evtBuffer != []
    ensures actions <= longer && Run(cfg, longer).Some?
    ensures Onward(Run(cfg, actions).value, Run(cfg, longer).value)
    ensures Run(cfg, longer).value.pc.Draining? && Run(cfg, longer).value.policy.evtBuffer == []
  {
    var first := ToDrain(cfg, actions);
    longer := DrainAll(cfg, first, |Run(cfg, first).value.policy.evtBuffer|);
  }

  lemma StillPublishing(cfg: Config, s: GovState, t: GovState, j: nat)
    requires Onward(s, t) && EvtPublishing(cfg, s, j)
    ensures EvtPublishing(cfg, t, j) && t.pumps[j].order == s.pumps[j].order
  {
  }

  lemma BufferedCanBePassed(cfg: Config, actions: seq<Action>, j: nat, last: nat, later: nat)
    requires Run(cfg, actions).Some?
    requires var s := Run(cfg, actions).value;
             && s.policy.evtBuffer != [] && EvtPublishing(cfg, s, j) && s.pumps[j].order < later
             && last + 1 == |s.line.pushes| == |s.evts.log| && s.line.pushes[last] == later
    ensures CanBePassed(cfg, actions, later)
  {
    var drained := DrainFromAnywhere(cfg, actions);
    StillPublishing(cfg, Run(cfg, actions).value, Run(cfg, drained).value, j);
    var at := DrainedHasLanded(cfg, actions, drained, last);
    LandsBehind(cfg, actions, drained, at, j, later);
  }

  /** The state after an `evt` is forwarded or buffered, as far as it matters here. */
  lemma AfterAdmission(cfg: Config, s: GovState, i: nat, connected: bool, now: real)
    requires EvtInv(cfg, s) && LineInv(cfg, s) && Possible(cfg, s, Admit(i, connected, now)) && cfg.classes[i] == Evt
    requires Admission(s.policy, Evt, connected, now).1 in {UplinkVerdict.Forward, Buffer}
    ensures var t := OnAdmit(cfg, s, i, connected, now);
            && |t.pumps| == |s.pumps| && (forall j :: 0 <= j < |s.pumps| && j != i ==> t.pumps[j] == s.pumps[j])
            && (if Admission(s.policy, Evt, connected, now).1 == UplinkVerdict.Forward then
                  EvtPublishing(cfg, t, i) && t.pumps[i].order == |s.line.births| && t.pc == s.pc
                  && t.line.pushes == s.line.pushes
                else
                  t.policy.evtBuffer != [] && |t.evts.log| == |t.line.pushes|
                  && t.line.pushes == s.line.pushes + [|s.line.births|])
  {
    if Admission(s.policy, Evt, connected, now).1 == Buffer { BufferStores(s.policy, s.pumps[i].item, connected, now); }
  }

  lemma PublishingCanPass(cfg: Config, actions: seq<Action>, i: nat, j: nat, connected: bool, now: real)
    requires Run(cfg, actions).Some? && Possible(cfg, Run(cfg, actions).value, Admit(i, connected, now))
    requires cfg.classes[i] == Evt && EvtPublishing(cfg, Run(cfg, actions).value, j)
    requires Admission(Run(cfg, actions).value.policy, Evt, connected, now).1 in {UplinkVerdict.Forward, Buffer}
    ensures CanBePassed(cfg, actions + [Admit(i, connected, now)], |Run(cfg, actions).value.line.births|)
  {
    EvtInvariant(cfg, actions);
    LineInvariant(cfg, actions);
    AfterAdmission(cfg, Run(cfg, actions).value, i, connected, now);
    AdmissionBirth(cfg, actions, i, connected, now);
    var s, longer := Run(cfg, actions).value, actions + [Admit(i, connected, now)];
    if Admission(s.policy, Evt, connected, now).1 == UplinkVerdict.Forward {
      LiveCanBePassed(cfg, longer, i, j, |s.line.births|);
    } else {
      BufferedCanBePassed(cfg, longer, j, |s.line.pushes|, |s.line.births|);
    }
  }

  lemma FlyingCanPass(cfg: Config, actions: seq<Action>, i: nat, connected: bool, now: real)
    requires Run(cfg, actions).Some? && Possible(cfg, Run(cfg, actions).value, Admit(i, connected, now))
    requires cfg.classes[i] == Evt && Run(cfg, actions).value.pc.Flying?
    requires Admission(Run(cfg, actions).value.policy, Evt, connected, now).1 == UplinkVerdict.Forward
    ensures CanBePassed(cfg, actions + [Admit(i, connected, now)], |Run(cfg, actions).value.line.births|)
  {
    EvtInvariant(cfg, actions);
    LineInvariant(cfg, actions);
    FlyingIsOpen(cfg, Run(cfg, actions).value);
    AfterAdmission(cfg, Run(cfg, actions).value, i, connected, now);
    AdmissionBirth(cfg, actions, i, connected, now);
    LiveCanPassReplay(cfg, actions + [Admit(i, connected, now)], i, |Run(cfg, actions).value.line.births|);
  }

  /** Strict order, exactly, for every admission of an `evt`, live or buffered: some future
      has an earlier-admitted event land after it if and only if another pump is publishing
      an `evt` at that moment, or the watcher holds an event and this one goes out live. */
  lemma StrictOrderGuaranteedExactly(cfg: Config, actions: seq<Action>, i: nat, connected: bool, now: real)
    requires Run(cfg, actions).Some? && Possible(cfg, Run(cfg, actions).value, Admit(i, connected, now))
    requires cfg.classes[i] == Evt
    requires Admission(Run(cfg, actions).value.policy, Evt, connected, now).1 in {UplinkVerdict.Forward, Buffer}
    ensures var s := Run(cfg, actions).value;
            CanBePassed(cfg, actions + [Admit(i, connected, now)], |s.line.births|)
            <==>
            || (exists j: nat :: EvtPublishing(cfg, s, j))
            || (Admission(s.policy, Evt, connected, now).1 == UplinkVerdict.Forward && s.pc.Flying?)
  {
    var later := |Run(cfg, actions).value.line.births|;
    var admitted := actions + [Admit(i, connected, now)];
    if longer :| admitted <= longer && HasPassed(cfg, longer, later) {
      PassedMeansUnderWay(cfg, actions, i, connected, now, longer);
    }
    var s := Run(cfg, actions).value;
    if j: nat :| EvtPublishing(cfg, s, j) {
      PublishingCanPass(cfg, actions, i, j, connected, now);
    } else if Admission(s.policy, Evt, connected, now).1 == UplinkVerdict.Forward && s.pc.Flying? {
      FlyingCanPass(cfg, actions, i, connected, now);
    }
  }
}
