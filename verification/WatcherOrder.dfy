/** The connectivity watcher over every run: rehydration before replay, once per edge. */
module WatcherOrder {
  import opened Messages
  import opened Governor
  import opened ReplayWindow

  /** The link state the last tick saw, from the baseline taken at start. */
  function LastSeen(baseline: bool, events: seq<Event>): bool
    decreases |events|
  {
    if events == [] then baseline
    else
      var last := events[|events| - 1];
      if last.Ticked? then last.connected else LastSeen(baseline, events[..|events| - 1])
  }

  /** Ticks that saw the link up when the tick before had seen it down. */
  function RisingEdges(baseline: bool, events: seq<Event>): nat
    decreases |events|
  {
    if events == [] then 0
    else
      var front, last := events[..|events| - 1], events[|events| - 1];
      RisingEdges(baseline, front) + if last == Ticked(true) && !LastSeen(baseline, front) then 1 else 0
  }

  function Broadcasts(events: seq<Event>, which: nat): nat
    decreases |events|
  {
    if events == [] then 0
    else Broadcasts(events[..|events| - 1], which) + if events[|events| - 1] == Broadcast(which) then 1 else 0
  }

  /** Broadcast `which` attempted after position `p`. */
  ghost predicate SentAfter(events: seq<Event>, p: nat, which: nat) {
    exists r :: p < r < |events| && events[r] == Broadcast(which)
  }

  /** Both broadcasts attempted, in order, between positions `p` and `q`. */
  ghost predicate PairBetween(events: seq<Event>, p: nat, q: nat)
    requires q <= |events|
  {
    exists r, s :: p < r < s < q && events[r] == Broadcast(0) && events[s] == Broadcast(1)
  }

  /** How far the rehydration owed for every observed outage has got. */
  ghost predicate Rehydrated(s: GovState) {
    forall p :: 0 <= p < |s.events| && s.events[p] == Ticked(false) ==>
      match s.pc
      case Sleeping => s.wasConnected ==> PairBetween(s.events, p, |s.events|)
      case Broadcasting(which) => which == 1 ==> SentAfter(s.events, p, 0)
      case Checking => PairBetween(s.events, p, |s.events|)
      case Draining => PairBetween(s.events, p, |s.events|)
      case Flying(_, _) => PairBetween(s.events, p, |s.events|)
  }

  ghost predicate ReplaysFollowPairs(events: seq<Event>) {
    forall p, q :: 0 <= p < q < |events| && events[p] == Ticked(false) && events[q].Replayed? ==>
      PairBetween(events, p, q)
  }

  ghost predicate WatchInv(cfg: Config, s: GovState) {
    && (s.pc.Broadcasting? ==> s.pc.which < 2)
    && LastSeen(cfg.baseline, s.events) == (if s.pc.Sleeping? then s.wasConnected else true)
    && RisingEdges(cfg.baseline, s.events) ==
         Broadcasts(s.events, 0) + (if s.pc == Broadcasting(0) then 1 else 0)
    && RisingEdges(cfg.baseline, s.events) ==
         Broadcasts(s.events, 1) + (if s.pc.Broadcasting? then 1 else 0)
    && (s.pc.Checking? ==> s.wasConnected)
    && Rehydrated(s)
    && ReplaysFollowPairs(s.events)
  }

  lemma PairPersists(events: seq<Event>, e: Event, p: nat, q: nat)
    requires q <= |events| && PairBetween(events, p, q)
    ensures PairBetween(events + [e], p, q) && PairBetween(events + [e], p, |events| + 1)
  {
    var r, s :| p < r < s < q && events[r] == Broadcast(0) && events[s] == Broadcast(1);
    assert (events + [e])[r] == Broadcast(0) && (events + [e])[s] == Broadcast(1);
  }

  lemma PairCompletes(events: seq<Event>, p: nat)
    requires SentAfter(events, p, 0)
    ensures PairBetween(events + [Broadcast(1)], p, |events| + 1)
  {
    var r :| p < r < |events| && events[r] == Broadcast(0);
    var longer := events + [Broadcast(1)];
    assert longer[r] == Broadcast(0) && longer[|events|] == Broadcast(1);
  }

  lemma ReplaysStayPaired(events: seq<Event>, e: Event)
    requires ReplaysFollowPairs(events)
    requires e.Replayed? ==>
               forall p :: 0 <= p < |events| && events[p] == Ticked(false) ==> PairBetween(events, p, |events|)
    ensures ReplaysFollowPairs(events + [e])
  {
    var longer := events + [e];
    forall p, q | 0 <= p < q < |longer| && longer[p] == Ticked(false) && longer[q].Replayed?
      ensures PairBetween(longer, p, q)
    {
      PairPersists(events, e, p, q);
    }
  }

  /** Appending an event of the watcher's. */
  lemma Appended(cfg: Config, events: seq<Event>, e: Event)
    ensures LastSeen(cfg.baseline, events + [e]) == if e.Ticked? then e.connected else LastSeen(cfg.baseline, events)
    ensures RisingEdges(cfg.baseline, events + [e]) ==
            RisingEdges(cfg.baseline, events) + if e == Ticked(true) && !LastSeen(cfg.baseline, events) then 1 else 0
    ensures forall w :: Broadcasts(events + [e], w) == Broadcasts(events, w) + if e == Broadcast(w) then 1 else 0
  {
    assert (events + [e])[..|events|] == events;
  }

  lemma OutagesCarryOver(events: seq<Event>, e: Event, p: nat)
    requires p < |events|
    ensures PairBetween(events, p, |events|) ==> PairBetween(events + [e], p, |events| + 1)
    ensures SentAfter(events, p, 0) && e == Broadcast(1) ==> PairBetween(events + [e], p, |events| + 1)
    ensures e == Broadcast(0) ==> SentAfter(events + [e], p, 0)
  {
    if PairBetween(events, p, |events|) { PairPersists(events, e, p, |events|); }
    if SentAfter(events, p, 0) && e == Broadcast(1) { PairCompletes(events, p); }
    if e == Broadcast(0) { assert (events + [e])[|events|] == Broadcast(0); }
  }

  lemma RehydrationKept(s: GovState, t: GovState, e: Event)
    requires Rehydrated(s) && t.events == s.events + [e]
    requires s.pc.Broadcasting? ==> s.pc.which < 2 && e == Broadcast(s.pc.which)
    requires s.pc == Broadcasting(0) ==> t.pc == Broadcasting(1)
    requires s.pc == Broadcasting(1) ==> t.pc == Draining
    requires s.pc.Sleeping? && !s.wasConnected ==>
               (t.pc.Sleeping? && !t.wasConnected) || t.pc == Broadcasting(0)
    requires e == Ticked(false) ==> t.pc.Sleeping? && !t.wasConnected
    requires t.pc.Broadcasting? && t.pc.which == 1 ==> e == Broadcast(0)
    ensures Rehydrated(t)
  {
    forall p | 0 <= p < |s.events|
      ensures PairBetween(s.events, p, |s.events|) ==> PairBetween(t.events, p, |t.events|)
      ensures SentAfter(s.events, p, 0) && e == Broadcast(1) ==> PairBetween(t.events, p, |t.events|)
      ensures e == Broadcast(0) ==> SentAfter(t.events, p, 0)
    {
      OutagesCarryOver(s.events, e, p);
    }
  }

  lemma TickKeeps(cfg: Config, s: GovState, connected: bool)
    requires WatchInv(cfg, s) && s.pc.Sleeping?
    ensures WatchInv(cfg, OnTick(s, connected))
  {
    Appended(cfg, s.events, Ticked(connected));
    ReplaysStayPaired(s.events, Ticked(connected));
    RehydrationKept(s, OnTick(s, connected), Ticked(connected));
  }

  lemma AnnounceKeeps(cfg: Config, s: GovState)
    requires WatchInv(cfg, s) && s.pc.Broadcasting?
    ensures WatchInv(cfg, OnAnnounce(s))
  {
    Appended(cfg, s.events, Broadcast(s.pc.which));
    ReplaysStayPaired(s.events, Broadcast(s.pc.which));
    RehydrationKept(s, OnAnnounce(s), Broadcast(s.pc.which));
  }

  lemma ReplayKeepsWatch(cfg: Config, s: GovState, ok: bool)
    requires WatchInv(cfg, s) && s.pc.Flying?
    ensures WatchInv(cfg, OnPublishReplay(s, ok))
  {
    if ok {
      Appended(cfg, s.events, Replayed(s.pc.index));
      ReplaysStayPaired(s.events, Replayed(s.pc.index));
      RehydrationKept(s, OnPublishReplay(s, ok), Replayed(s.pc.index));
    }
  }

  /** The pumps' steps, and the watcher's that neither tick nor send. */
  lemma SilentKeeps(cfg: Config, s: GovState, t: GovState)
    requires WatchInv(cfg, s) && t.events == s.events
    requires (t.pc == s.pc && t.wasConnected == s.wasConnected)
             || (&& !s.pc.Sleeping? && !s.pc.Broadcasting?
                 && (t.pc.Draining? || t.pc.Flying? || (t.pc.Sleeping? && t.wasConnected)))
    ensures WatchInv(cfg, t)
  {
  }

  lemma WatchStep(cfg: Config, s: GovState, a: Action)
    requires WatchInv(cfg, s) && Possible(cfg, s, a)
    ensures WatchInv(cfg, Step(cfg, s, a))
  {
    match a
    case Receive(i, topic, payload) => SilentKeeps(cfg, s, OnReceive(cfg, s, i, topic, payload));
    case Admit(i, connected, now) => SilentKeeps(cfg, s, OnAdmit(cfg, s, i, connected, now));
    case Publish(i, ok) => SilentKeeps(cfg, s, OnPublish(cfg, s, i, ok));
    case Tick(connected) => TickKeeps(cfg, s, connected);
    case Announce => AnnounceKeeps(cfg, s);
    case CheckPending => SilentKeeps(cfg, s, Step(cfg, s, a));
    case TakeOldest(connected) => SilentKeeps(cfg, s, OnTakeOldest(s, connected));
    case PublishReplay(ok) => ReplayKeepsWatch(cfg, s, ok);
  }

  lemma {:induction false} WatchInvariant(cfg: Config, actions: seq<Action>)
    requires Run(cfg, actions).Some?
    ensures WatchInv(cfg, Run(cfg, actions).value)
    decreases |actions|
  {
    if actions != [] {
      var front := actions[..|actions| - 1];
      WatchInvariant(cfg, front);
      WatchStep(cfg, Run(cfg, front).value, actions[|actions| - 1]);
    }
  }

  /** Between any tick that saw the link down and any later replayed event, both broadcasts
      were attempted, state before cfg. */
  lemma RehydrationPrecedesReplay(cfg: Config, actions: seq<Action>, p: nat, q: nat)
    requires Run(cfg, actions).Some?
    requires var events := Run(cfg, actions).value.events;
             p < q < |events| && events[p] == Ticked(false) && events[q].Replayed?
    ensures var events := Run(cfg, actions).value.events;
            exists r, s :: p < r < s < q && events[r] == Broadcast(0) && events[s] == Broadcast(1)
  {
    WatchInvariant(cfg, actions);
    assert PairBetween(Run(cfg, actions).value.events, p, q);
  }

  /** One pair per observed reconnect, and none for the start: whenever the watcher is not
      in the middle of a pair, each broadcast was attempted once per rising edge. */
  lemma OnePairPerReconnect(cfg: Config, actions: seq<Action>)
    requires Run(cfg, actions).Some? && !Run(cfg, actions).value.pc.Broadcasting?
    ensures var events := Run(cfg, actions).value.events;
            Broadcasts(events, 0) == Broadcasts(events, 1) == RisingEdges(cfg.baseline, events)
  {
    WatchInvariant(cfg, actions);
  }

  /** The indices replayed, as the watcher's events tell them. */
  function ReplayedIn(events: seq<Event>): seq<nat>
    decreases |events|
  {
    if events == [] then []
    else
      var last := events[|events| - 1];
      ReplayedIn(events[..|events| - 1]) + if last.Replayed? then [last.index] else []
  }

  lemma ReplayedMore(events: seq<Event>, e: Event)
    ensures ReplayedIn(events + [e]) == ReplayedIn(events) + if e.Replayed? then [e.index] else []
  {
    assert (events + [e])[..|events|] == events;
  }

  lemma ToldStep(cfg: Config, s: GovState, a: Action)
    requires Possible(cfg, s, a) && ReplayedIn(s.events) == s.evts.replayed
    ensures ReplayedIn(Step(cfg, s, a).events) == Step(cfg, s, a).evts.replayed
  {
    match a
    case Tick(connected) => ReplayedMore(s.events, Ticked(connected));
    case Announce => ReplayedMore(s.events, Broadcast(s.pc.which));
    case PublishReplay(ok) => ReplayedMore(s.events, Replayed(s.pc.index));
    case _ =>
  }

  /** The watcher's events miss no replay: they tell exactly the indices replayed, in order. */
  lemma {:induction false} EveryReplayIsTold(cfg: Config, actions: seq<Action>)
    requires Run(cfg, actions).Some?
    ensures ReplayedIn(Run(cfg, actions).value.events) == Run(cfg, actions).value.evts.replayed
    decreases |actions|
  {
    if actions != [] {
      var front := actions[..|actions| - 1];
      EveryReplayIsTold(cfg, front);
      ToldStep(cfg, Run(cfg, front).value, actions[|actions| - 1]);
    }
  }

  /** No run sticks: in every reachable state every pump, and the watcher, has a step. */
  lemma NoRunSticks(cfg: Config, actions: seq<Action>, i: nat, topic: string, payload: Bytes, ok: bool, now: real)
    requires Run(cfg, actions).Some? && i < |cfg.classes|
    ensures var s := Run(cfg, actions).value;
            && (|| Possible(cfg, s, Receive(i, topic, payload)) || Possible(cfg, s, Admit(i, ok, now))
                || Possible(cfg, s, Publish(i, ok)))
            && (|| Possible(cfg, s, Tick(ok)) || Possible(cfg, s, Announce) || Possible(cfg, s, CheckPending)
                || Possible(cfg, s, TakeOldest(ok)) || Possible(cfg, s, PublishReplay(ok)))
  {
    WatchInvariant(cfg, actions);
    EvtInvariant(cfg, actions);
    NobodyIsStuck(cfg, Run(cfg, actions).value, i, topic, payload, ok, now);
  }
}
