/** The order in which events reach the site against the order in which they were admitted:
    which events can be overtaken, and exactly when none can. */
module AdmissionOrder {
  import opened Wrappers
  import opened Topics
  import opened Messages
  import opened Policy
  import opened Governor
  import opened ReplayWindow

  predicate IsEvt(l: Landing) { l.Replay? || l.cls == Evt }

  /** The admitted event `order` has reached the site. */
  ghost predicate HasLanded(s: GovState, order: nat) {
    exists q :: 0 <= q < |s.site| && IsEvt(s.site[q]) && s.site[q].order == order
  }

  /** It was evicted, refused at a requeue, or refused by a buffer that is off. */
  ghost predicate IsDropped(s: GovState, order: nat) {
    || (order < |s.line.places| && s.line.places[order].Refused?)
    || (exists j :: 0 <= j < |s.line.pushes| && s.line.pushes[j] == order && j in s.evts.dropped)
  }

  // ---- where every admitted event is ----

  /** Pumps publishing an `evt` and admissions that are on a pump are the same thing. */
  ghost predicate PumpsPlaced(classes: seq<UnsClass>, pumps: seq<Pump>, l: Line) {
    && |pumps| == |classes| && |l.places| == |l.births|
    && (forall i :: 0 <= i < |pumps| && classes[i] == Evt && pumps[i].Publishing? ==>
          && pumps[i].order < |l.births| && l.places[pumps[i].order] == OnPump
          && l.births[pumps[i].order].pump == i && l.births[pumps[i].order].item == pumps[i].item)
    && (forall k :: 0 <= k < |l.births| && l.places[k] == OnPump ==>
          && l.births[k].live && l.births[k].pump < |pumps| && classes[l.births[k].pump] == Evt
          && pumps[l.births[k].pump].Publishing? && pumps[l.births[k].pump].order == k)
  }

  /** The push sequence holds each admission at most once. */
  ghost predicate LogPlaced(h: Evts, l: Line) {
    && |l.places| == |l.births| && |l.pushes| == |h.log|
    && (forall k :: 0 <= k < |l.births| && l.places[k].InLog? ==>
          var j := l.places[k].index; j < |l.pushes| && l.pushes[j] == k && j !in h.replayed)
    && (forall j :: 0 <= j < |l.pushes| ==>
          && l.pushes[j] < |l.births| && l.births[l.pushes[j]].item == h.log[j]
          && (if j in h.replayed then l.places[l.pushes[j]].Landed? else l.places[l.pushes[j]] == InLog(j)))
  }

  /** Each landed event landed once, where its place says. */
  ghost predicate SitePlaced(h: Evts, l: Line, site: seq<Landing>) {
    && |l.places| == |l.births|
    && (forall k :: 0 <= k < |l.births| && l.places[k].Landed? ==>
          var q := l.places[k].at; q < |site| && IsEvt(site[q]) && site[q].order == k)
    && (forall q :: 0 <= q < |site| && IsEvt(site[q]) ==>
          && site[q].order < |l.births| && l.places[site[q].order] == Landed(q)
          && l.births[site[q].order].item == site[q].item
          && (site[q].Live? ==> l.births[site[q].order].live)
          && (site[q].Replay? ==>
                && site[q].index in h.replayed
                && site[q].index < |l.pushes| && l.pushes[site[q].index] == site[q].order))
  }

  ghost predicate Placed(cfg: Config, s: GovState) {
    && PumpsPlaced(cfg.classes, s.pumps, s.line)
    && LogPlaced(s.evts, s.line)
    && SitePlaced(s.evts, s.line, s.site)
  }

  // ---- which of them can still be overtaken ----

  /** Still to land, or to be dropped. */
  ghost predicate IsOpen(h: Evts, l: Line, k: nat)
    requires k < |l.places|
  {
    l.places[k] == OnPump || (l.places[k].InLog? && l.places[k].index !in h.dropped)
  }

  /** At its admission `later` had the earlier `k` beside it on another pump. */
  predicate Beside(l: Line, k: nat, later: nat)
    requires later < |l.births|
  {
    k in l.births[later].publishing
  }

  /** What the admissions remember covers everything that can still overtake. */
  ghost predicate Remembered(h: Evts, l: Line) {
    && |l.places| == |l.births|
    && (forall k, m :: 0 <= k < m < |l.births| && l.places[k] == OnPump ==> Beside(l, k, m))
    && (forall k, m :: 0 <= k < m < |l.births| && l.births[m].live && IsOpen(h, l, k) ==>
          Beside(l, k, m) || l.births[m].flying == Some(k))
    && (forall m, k: nat :: 0 <= m < |l.births| && Beside(l, k, m) ==> k < m && l.births[k].pump != l.births[m].pump)
    && (forall j :: 0 <= j < |l.pushes| ==> l.pushes[j] < |l.births|)
    && (forall i, j :: 0 <= i < j < |l.pushes| && l.pushes[j] < l.pushes[i] ==> Beside(l, l.pushes[j], l.pushes[i]))
  }

  /** An event that lands after a later-admitted one was on another pump at that one's
      admission, or is a replay of what was in flight then. */
  ghost predicate Excused(l: Line, earlier: Landing, later: Landing) {
    && later.order < |l.births|
    && (|| Beside(l, earlier.order, later.order)
        || (later.Live? && earlier.Replay? && l.births[later.order].flying == Some(earlier.order)))
  }

  ghost predicate Overtakings(l: Line, site: seq<Landing>) {
    forall p, q :: 0 <= p < q < |site| && IsEvt(site[p]) && IsEvt(site[q]) && site[q].order < site[p].order ==>
      Excused(l, site[q], site[p])
  }

  ghost predicate LineInv(cfg: Config, s: GovState) {
    Placed(cfg, s) && Remembered(s.evts, s.line) && Overtakings(s.line, s.site)
  }

  // ---- admissions ----

  /** Every admission on a pump is on one of the pumps publishing now, and not on an idle one. */
  lemma OnPumpIsPublishing(cfg: Config, s: GovState, k: nat)
    requires PumpsPlaced(cfg.classes, s.pumps, s.line) && k < |s.line.births|
    ensures s.line.places[k] == OnPump <==> k in PublishingNow(cfg, s)
    ensures s.line.places[k] == OnPump ==> s.pumps[s.line.births[k].pump].Publishing?
  {
  }

  /** A live event let through finds everything earlier settled, on another pump, or in flight. */
  lemma OpenAtForward(cfg: Config, s: GovState, connected: bool, now: real, k: nat)
    requires EvtInv(cfg, s) && Placed(cfg, s) && k < |s.line.births|
    requires Admission(s.policy, Evt, connected, now).1 == UplinkVerdict.Forward
    requires IsOpen(s.evts, s.line, k)
    ensures k in PublishingNow(cfg, s) || (s.pc.Flying? && OrderOf(s.line, s.pc.index) == k)
  {
    OnPumpIsPublishing(cfg, s, k);
    ForwardSeesEmptyBuffer(cfg, s, Evt, connected, now);
    if s.line.places[k].InLog? {
      var j := s.line.places[k].index;
      assert j < |s.evts.log| && !Settled(s.evts, j);
    }
  }

  lemma BirthRemembered(cfg: Config, s: GovState, i: nat, item: Item, live: bool)
    requires Placed(cfg, s) && Remembered(s.evts, s.line)
    requires i < |s.pumps| && !s.pumps[i].Publishing?
    requires live ==> forall k :: 0 <= k < |s.line.births| && IsOpen(s.evts, s.line, k) ==>
               k in PublishingNow(cfg, s) || (s.pc.Flying? && OrderOf(s.line, s.pc.index) == k)
    ensures Remembered(s.evts, Joined(cfg, s, i, item, live))
  {
    var l, m := Joined(cfg, s, i, item, live), |s.line.births|;
    forall k | 0 <= k < m
      ensures l.places[k] == OnPump ==> Beside(l, k, m)
      ensures live && IsOpen(s.evts, l, k) ==> Beside(l, k, m) || l.births[m].flying == Some(k)
    {
      OnPumpIsPublishing(cfg, s, k);
      assert IsOpen(s.evts, l, k) <==> IsOpen(s.evts, s.line, k);
    }
    forall k: nat | Beside(l, k, m) ensures k < m && l.births[k].pump != i {
      var x :| 0 <= x < |s.pumps| && cfg.classes[x] == Evt && s.pumps[x].Publishing? && s.pumps[x].order == k;
      assert s.line.births[k].pump == x;
    }
    forall k: nat, n: nat | n < m ensures Beside(l, k, n) <==> Beside(s.line, k, n) {
    }
  }

  lemma BirthOvertakings(cfg: Config, s: GovState, i: nat, item: Item, live: bool)
    requires Overtakings(s.line, s.site) && |s.pumps| == |cfg.classes|
    ensures Overtakings(Joined(cfg, s, i, item, live), s.site)
  {
    var l := Joined(cfg, s, i, item, live);
    forall p, q | 0 <= p < q < |s.site| && IsEvt(s.site[p]) && IsEvt(s.site[q]) && s.site[q].order < s.site[p].order
      ensures Excused(l, s.site[q], s.site[p])
    {
      assert Excused(s.line, s.site[q], s.site[p]);
    }
  }

  /** Events only ever settle: what stays open was open, and a new push was on its pump. */
  lemma MoveRemembered(h: Evts, g: Evts, l: Line, t: Line, order: nat)
    requires Remembered(h, l) && t.births == l.births && |t.places| == |l.places|
    requires forall k :: 0 <= k < |l.places| && IsOpen(g, t, k) ==> IsOpen(h, l, k)
    requires forall k :: 0 <= k < |l.places| && t.places[k] == OnPump ==> l.places[k] == OnPump
    requires t.pushes == l.pushes || (t.pushes == l.pushes + [order] && order < |l.places| && l.places[order] == OnPump)
    ensures Remembered(g, t)
  {
    forall k: nat, m: nat | m < |l.births| ensures Beside(t, k, m) <==> Beside(l, k, m) {
    }
    forall i, j | 0 <= i < j < |t.pushes| && t.pushes[j] < t.pushes[i] ensures Beside(t, t.pushes[j], t.pushes[i]) {
      if j < |l.pushes| {
        assert Beside(l, l.pushes[j], l.pushes[i]);
      } else {
        assert Beside(l, order, l.pushes[i]);
      }
    }
  }

  lemma MoveOvertakings(l: Line, t: Line, site: seq<Landing>)
    requires Overtakings(l, site) && t.births == l.births
    ensures Overtakings(t, site)
  {
    forall p, q | 0 <= p < q < |site| && IsEvt(site[p]) && IsEvt(site[q]) && site[q].order < site[p].order
      ensures Excused(t, site[q], site[p])
    {
      assert Excused(l, site[q], site[p]);
    }
  }

  lemma LandingOvertakes(l: Line, site: seq<Landing>, x: Landing)
    requires Overtakings(l, site)
    requires IsEvt(x) ==>
               forall p :: 0 <= p < |site| && IsEvt(site[p]) && x.order < site[p].order ==> Excused(l, x, site[p])
    ensures Overtakings(l, site + [x])
  {
    var longer := site + [x];
    forall p, q | 0 <= p < q < |longer| && IsEvt(longer[p]) && IsEvt(longer[q]) && longer[q].order < longer[p].order
      ensures Excused(l, longer[q], longer[p])
    {
      if q < |site| { assert Excused(l, site[q], site[p]); }
    }
  }

  lemma LiveExcused(cfg: Config, s: GovState, i: nat, x: Landing)
    requires LineInv(cfg, s) && i < |s.pumps| && cfg.classes[i] == Evt && s.pumps[i].Publishing?
    requires x.Live? && x.order == s.pumps[i].order
    ensures forall p :: 0 <= p < |s.site| && IsEvt(s.site[p]) && x.order < s.site[p].order ==>
        Excused(s.line, x, s.site[p])
  {
    forall p | 0 <= p < |s.site| && IsEvt(s.site[p]) && x.order < s.site[p].order
      ensures Excused(s.line, x, s.site[p])
    {
      assert Beside(s.line, x.order, s.site[p].order);
    }
  }

  lemma ReplayExcused(cfg: Config, s: GovState, x: Landing)
    requires EvtInv(cfg, s) && LineInv(cfg, s) && s.pc.Flying?
    requires x.Replay? && x.order == OrderOf(s.line, s.pc.index)
    ensures forall p :: 0 <= p < |s.site| && IsEvt(s.site[p]) && x.order < s.site[p].order ==>
        Excused(s.line, x, s.site[p])
  {
    var j := s.pc.index;
    assert j !in s.evts.replayed && j !in s.evts.dropped && j < |s.line.pushes|;
    assert IsOpen(s.evts, s.line, x.order);
    forall p | 0 <= p < |s.site| && IsEvt(s.site[p]) && x.order < s.site[p].order
      ensures Excused(s.line, x, s.site[p])
    {
      if s.site[p].Replay? {
        assert s.site[p].index < j;
        assert Beside(s.line, s.line.pushes[j], s.line.pushes[s.site[p].index]);
      } else {
        assert s.line.births[s.site[p].order].live;
      }
    }
  }

  // ---- the steps ----

  lemma LiveBirthPlaced(cfg: Config, s: GovState, i: nat, pump: Pump)
    requires Placed(cfg, s) && i < |s.pumps| && cfg.classes[i] == Evt && !s.pumps[i].Publishing?
    requires pump.Publishing? && pump.order == |s.line.births|
    ensures var l := Joined(cfg, s, i, pump.item, true);
            PumpsPlaced(cfg.classes, s.pumps[i := pump], l) && LogPlaced(s.evts, l) && SitePlaced(s.evts, l, s.site)
  {
  }

  lemma BufferedBirthPlaced(cfg: Config, s: GovState, i: nat, item: Item, g: Evts)
    requires Placed(cfg, s) && i < |s.pumps| && cfg.classes[i] == Evt && !s.pumps[i].Publishing?
    requires g.log == s.evts.log + [item] && g.replayed == s.evts.replayed
    requires forall j :: j in s.evts.replayed ==> j < |s.evts.log|
    ensures var l := Pushed(Joined(cfg, s, i, item, false), |s.line.births|, Stored(true));
            PumpsPlaced(cfg.classes, s.pumps[i := Idle], l) && LogPlaced(g, l) && SitePlaced(g, l, s.site)
  {
    var l := Pushed(Joined(cfg, s, i, item, false), |s.line.births|, Stored(true));
    assert forall k :: 0 <= k < |s.line.births| ==> l.births[k] == s.line.births[k] && l.places[k] == s.line.places[k];
    assert forall j :: 0 <= j < |s.line.pushes| ==> l.pushes[j] == s.line.pushes[j];
  }

  /** A pump done with its event. */
  lemma LeavesPump(classes: seq<UnsClass>, pumps: seq<Pump>, l: Line, t: Line, i: nat)
    requires PumpsPlaced(classes, pumps, l) && i < |pumps| && classes[i] == Evt && pumps[i].Publishing?
    requires t.births == l.births && |t.places| == |l.places| && t.places[pumps[i].order] != OnPump
    requires forall k :: 0 <= k < |l.places| && k != pumps[i].order ==> t.places[k] == l.places[k]
    ensures PumpsPlaced(classes, pumps[i := Idle], t)
  {
  }

  lemma LatePushLogged(h: Evts, g: Evts, l: Line, order: nat, item: Item, push: EvtPush)
    requires LogPlaced(h, l) && order < |l.births| && l.places[order] == OnPump && l.births[order].item == item
    requires g.replayed == h.replayed && g.log == if push.Stored? then h.log + [item] else h.log
    requires forall j :: j in h.replayed ==> j < |h.log|
    ensures LogPlaced(g, Pushed(l, order, push))
  {
    var t := Pushed(l, order, push);
    assert forall j :: 0 <= j < |l.pushes| ==> t.pushes[j] == l.pushes[j] && l.pushes[j] != order;
  }

  lemma LatePushSited(h: Evts, g: Evts, l: Line, site: seq<Landing>, order: nat, push: EvtPush)
    requires SitePlaced(h, l, site) && order < |l.births| && l.places[order] == OnPump && g.replayed == h.replayed
    ensures SitePlaced(g, Pushed(l, order, push), site)
  {
    var t := Pushed(l, order, push);
    assert forall j :: 0 <= j < |l.pushes| ==> t.pushes[j] == l.pushes[j];
  }

  lemma LatePushPlaced(cfg: Config, s: GovState, i: nat, g: Evts, push: EvtPush)
    requires Placed(cfg, s) && i < |s.pumps| && cfg.classes[i] == Evt && s.pumps[i].Publishing?
    requires g.replayed == s.evts.replayed
    requires g.log == if push.Stored? then s.evts.log + [s.pumps[i].item] else s.evts.log
    requires forall j :: j in s.evts.replayed ==> j < |s.evts.log|
    ensures var l := Pushed(s.line, s.pumps[i].order, push);
            PumpsPlaced(cfg.classes, s.pumps[i := Idle], l) && LogPlaced(g, l) && SitePlaced(g, l, s.site)
  {
    LeavesPump(cfg.classes, s.pumps, s.line, Pushed(s.line, s.pumps[i].order, push), i);
    LatePushLogged(s.evts, g, s.line, s.pumps[i].order, s.pumps[i].item, push);
    LatePushSited(s.evts, g, s.line, s.site, s.pumps[i].order, push);
  }

  /** A landing settles its place; those before it keep theirs. */
  lemma LandingSited(h: Evts, g: Evts, l: Line, site: seq<Landing>, x: Landing)
    requires SitePlaced(h, l, site) && x.order < |l.births| && !l.places[x.order].Landed?
    requires IsEvt(x) && l.births[x.order].item == x.item
    requires forall j :: j in h.replayed ==> j in g.replayed
    requires x.Live? ==> l.births[x.order].live
    requires x.Replay? ==> x.index in g.replayed && x.index < |l.pushes| && l.pushes[x.index] == x.order
    ensures SitePlaced(g, PlaceAt(l, x.order, Landed(|site|)), site + [x])
  {
    var longer := site + [x];
    assert forall q :: 0 <= q < |site| ==> longer[q] == site[q];
  }

  lemma LiveLandingPlaced(cfg: Config, s: GovState, i: nat, x: Landing)
    requires Placed(cfg, s) && i < |s.pumps| && cfg.classes[i] == Evt && s.pumps[i].Publishing?
    requires x.Live? && x.cls == Evt && x.item == s.pumps[i].item && x.order == s.pumps[i].order
    ensures var l := PlaceAt(s.line, x.order, Landed(|s.site|));
            && PumpsPlaced(cfg.classes, s.pumps[i := Idle], l)
            && LogPlaced(s.evts, l) && SitePlaced(s.evts, l, s.site + [x])
  {
    LeavesPump(cfg.classes, s.pumps, s.line, PlaceAt(s.line, x.order, Landed(|s.site|)), i);
    LandingSited(s.evts, s.evts, s.line, s.site, x);
  }

  lemma ReplayLogged(h: Evts, l: Line, j: nat, at: nat)
    requires LogPlaced(h, l) && j < |l.pushes| && j !in h.replayed
    ensures LogPlaced(h.(replayed := h.replayed + [j]), PlaceAt(l, l.pushes[j], Landed(at)))
  {
    var g := h.(replayed := h.replayed + [j]);
    assert forall k :: k in g.replayed <==> k in h.replayed || k == j;
    assert l.places[l.pushes[j]] == InLog(j);
  }

  lemma ReplayLandingPlaced(cfg: Config, s: GovState, x: Landing)
    requires EvtInv(cfg, s) && Placed(cfg, s) && s.pc.Flying?
    requires x == Replay(s.pc.index, s.pc.item, OrderOf(s.line, s.pc.index))
    ensures var l, g := PlaceAt(s.line, x.order, Landed(|s.site|)), s.evts.(replayed := s.evts.replayed + [s.pc.index]);
            PumpsPlaced(cfg.classes, s.pumps, l) && LogPlaced(g, l) && SitePlaced(g, l, s.site + [x])
  {
    var j := s.pc.index;
    assert j !in s.evts.replayed && j < |s.line.pushes| && s.line.places[x.order] == InLog(j);
    ReplayLogged(s.evts, s.line, j, |s.site|);
    LandingSited(s.evts, s.evts.(replayed := s.evts.replayed + [j]), s.line, s.site, x);
  }

  /** A step that changes no admission, no push and no `evt` landing. */
  lemma AsidePlaced(cfg: Config, s: GovState, t: GovState)
    requires LineInv(cfg, s) && t.line == s.line
    requires t.evts.log == s.evts.log && t.evts.replayed == s.evts.replayed && s.evts.dropped <= t.evts.dropped
    requires |t.pumps| == |s.pumps|
    requires forall i :: 0 <= i < |s.pumps| && cfg.classes[i] == Evt ==>
               t.pumps[i] == s.pumps[i] || (!s.pumps[i].Publishing? && !t.pumps[i].Publishing?)
    requires t.site == s.site || (|t.site| == |s.site| + 1 && t.site[..|s.site|] == s.site && !IsEvt(t.site[|s.site|]))
    ensures LineInv(cfg, t)
  {
    MoveRemembered(s.evts, t.evts, s.line, t.line, 0);
    assert forall q :: 0 <= q < |s.site| ==> t.site[q] == s.site[q];
    if t.site != s.site {
      LandingOvertakes(s.line, s.site, t.site[|s.site|]);
      assert t.site == s.site + [t.site[|s.site|]];
    }
  }

  lemma ForwardKeepsLine(cfg: Config, s: GovState, i: nat, connected: bool, now: real)
    requires EvtInv(cfg, s) && LineInv(cfg, s) && Possible(cfg, s, Admit(i, connected, now)) && cfg.classes[i] == Evt
    requires Admission(s.policy, Evt, connected, now).1 == UplinkVerdict.Forward
    ensures LineInv(cfg, OnAdmit(cfg, s, i, connected, now))
  {
    var t := OnAdmit(cfg, s, i, connected, now);
    var item := s.pumps[i].item;
    forall k | 0 <= k < |s.line.births| && IsOpen(s.evts, s.line, k)
      ensures k in PublishingNow(cfg, s) || (s.pc.Flying? && OrderOf(s.line, s.pc.index) == k)
    {
      OpenAtForward(cfg, s, connected, now, k);
    }
    BirthRemembered(cfg, s, i, item, true);
    BirthOvertakings(cfg, s, i, item, true);
    LiveBirthPlaced(cfg, s, i, t.pumps[i]);
    assert t.line == Joined(cfg, s, i, item, true) && t.pumps == s.pumps[i := t.pumps[i]];
  }

  /** A Buffer verdict always stores: it is given only with the buffer on. */
  lemma BufferStores(p: PolicyState, item: Item, connected: bool, now: real)
    requires Policy.WellFormed(p) && Admission(p, Evt, connected, now).1 == Buffer
    ensures Push(p, item).1.Stored?
  {
  }

  lemma BufferKeepsLine(cfg: Config, s: GovState, i: nat, connected: bool, now: real)
    requires EvtInv(cfg, s) && LineInv(cfg, s) && Possible(cfg, s, Admit(i, connected, now)) && cfg.classes[i] == Evt
    requires Admission(s.policy, Evt, connected, now).1 == Buffer
    ensures LineInv(cfg, OnAdmit(cfg, s, i, connected, now))
  {
    var t := OnAdmit(cfg, s, i, connected, now);
    var item := s.pumps[i].item;
    var born := Joined(cfg, s, i, item, false);
    BufferStores(s.policy, item, connected, now);
    BirthRemembered(cfg, s, i, item, false);
    BirthOvertakings(cfg, s, i, item, false);
    MoveRemembered(s.evts, t.evts, born, t.line, |s.line.births|);
    MoveOvertakings(born, t.line, s.site);
    BufferedBirthPlaced(cfg, s, i, item, t.evts);
  }

  lemma AdmitKeepsLine(cfg: Config, s: GovState, i: nat, connected: bool, now: real)
    requires EvtInv(cfg, s) && LineInv(cfg, s) && Possible(cfg, s, Admit(i, connected, now))
    ensures LineInv(cfg, OnAdmit(cfg, s, i, connected, now))
  {
    var verdict := Admission(s.policy, cfg.classes[i], connected, now).1;
    if cfg.classes[i] == Evt && verdict == UplinkVerdict.Forward {
      ForwardKeepsLine(cfg, s, i, connected, now);
    } else if verdict == Buffer {
      BufferKeepsLine(cfg, s, i, connected, now);
    } else {
      AsidePlaced(cfg, s, OnAdmit(cfg, s, i, connected, now));
    }
  }

  lemma LandKeepsLine(cfg: Config, s: GovState, i: nat)
    requires EvtInv(cfg, s) && LineInv(cfg, s) && Possible(cfg, s, Publish(i, true)) && cfg.classes[i] == Evt
    ensures LineInv(cfg, OnPublish(cfg, s, i, true))
  {
    var t := OnPublish(cfg, s, i, true);
    var x := t.site[|s.site|];
    LiveExcused(cfg, s, i, x);
    LandingOvertakes(s.line, s.site, x);
    MoveOvertakings(s.line, t.line, t.site);
    MoveRemembered(s.evts, t.evts, s.line, t.line, 0);
    LiveLandingPlaced(cfg, s, i, x);
  }

  lemma FailKeepsLine(cfg: Config, s: GovState, i: nat)
    requires EvtInv(cfg, s) && LineInv(cfg, s) && Possible(cfg, s, Publish(i, false)) && cfg.classes[i] == Evt
    ensures LineInv(cfg, OnPublish(cfg, s, i, false))
  {
    var t := OnPublish(cfg, s, i, false);
    MoveOvertakings(s.line, t.line, s.site);
    MoveRemembered(s.evts, t.evts, s.line, t.line, s.pumps[i].order);
    LatePushPlaced(cfg, s, i, t.evts, Push(s.policy, s.pumps[i].item).1);
  }

  lemma ReplayKeepsLine(cfg: Config, s: GovState)
    requires EvtInv(cfg, s) && LineInv(cfg, s) && s.pc.Flying?
    ensures LineInv(cfg, OnPublishReplay(s, true))
  {
    var t := OnPublishReplay(s, true);
    var x := t.site[|s.site|];
    ReplayExcused(cfg, s, x);
    LandingOvertakes(s.line, s.site, x);
    MoveOvertakings(s.line, t.line, t.site);
    MoveRemembered(s.evts, t.evts, s.line, t.line, 0);
    ReplayLandingPlaced(cfg, s, x);
  }

  lemma PublishKeepsLine(cfg: Config, s: GovState, i: nat, ok: bool)
    requires EvtInv(cfg, s) && LineInv(cfg, s) && Possible(cfg, s, Publish(i, ok))
    ensures LineInv(cfg, OnPublish(cfg, s, i, ok))
  {
    if cfg.classes[i] != Evt {
      AsidePlaced(cfg, s, OnPublish(cfg, s, i, ok));
    } else if ok {
      LandKeepsLine(cfg, s, i);
    } else {
      FailKeepsLine(cfg, s, i);
    }
  }

  lemma PublishReplayKeepsLine(cfg: Config, s: GovState, ok: bool)
    requires EvtInv(cfg, s) && LineInv(cfg, s) && s.pc.Flying?
    ensures LineInv(cfg, OnPublishReplay(s, ok))
  {
    if ok { ReplayKeepsLine(cfg, s); } else { AsidePlaced(cfg, s, OnPublishReplay(s, ok)); }
  }

  lemma ReceiveKeepsLine(cfg: Config, s: GovState, i: nat, topic: string, payload: Bytes)
    requires LineInv(cfg, s) && Possible(cfg, s, Receive(i, topic, payload))
    ensures LineInv(cfg, OnReceive(cfg, s, i, topic, payload))
  {
    AsidePlaced(cfg, s, OnReceive(cfg, s, i, topic, payload));
  }

  /** The watcher's other steps move only its position and the buffer. */
  lemma WatcherKeepsLine(cfg: Config, s: GovState, t: GovState)
    requires LineInv(cfg, s) && t.line == s.line && t.evts == s.evts && t.pumps == s.pumps && t.site == s.site
    ensures LineInv(cfg, t)
  {
  }

  lemma LineStep(cfg: Config, s: GovState, a: Action)
    requires EvtInv(cfg, s) && LineInv(cfg, s) && Possible(cfg, s, a)
    ensures LineInv(cfg, Step(cfg, s, a))
  {
    match a
    case Receive(i, topic, payload) => ReceiveKeepsLine(cfg, s, i, topic, payload);
    case Admit(i, connected, now) => AdmitKeepsLine(cfg, s, i, connected, now);
    case Publish(i, ok) => PublishKeepsLine(cfg, s, i, ok);
    case PublishReplay(ok) => PublishReplayKeepsLine(cfg, s, ok);
    case Tick(connected) => WatcherKeepsLine(cfg, s, OnTick(s, connected));
    case Announce => WatcherKeepsLine(cfg, s, OnAnnounce(s));
    case CheckPending => WatcherKeepsLine(cfg, s, Step(cfg, s, a));
    case TakeOldest(connected) => WatcherKeepsLine(cfg, s, OnTakeOldest(s, connected));
  }

  lemma {:induction false} LineInvariant(cfg: Config, actions: seq<Action>)
    requires Run(cfg, actions).Some?
    ensures LineInv(cfg, Run(cfg, actions).value)
    decreases |actions|
  {
    if actions != [] {
      var front := actions[..|actions| - 1];
      EvtInvariant(cfg, front);
      LineInvariant(cfg, front);
      LineStep(cfg, Run(cfg, front).value, actions[|actions| - 1]);
    }
  }

  // ---- the theorems ----

  /** Each admitted event lands at most once, as what was admitted. */
  lemma LandsAtMostOnce(cfg: Config, actions: seq<Action>, p: nat, q: nat)
    requires Run(cfg, actions).Some?
    requires var site := Run(cfg, actions).value.site; p < |site| && q < |site| && IsEvt(site[p]) && IsEvt(site[q])
    ensures var s := Run(cfg, actions).value;
            && s.site[p].order < |s.line.births| && s.site[p].item == s.line.births[s.site[p].order].item
            && (s.site[p].order == s.site[q].order ==> p == q)
  {
    LineInvariant(cfg, actions);
  }

  /** Bounded overtaking, by admission: an event lands after one admitted later only if, at
      that later admission, it was being published by another pump, or it is a replay of
      the event in flight then and the later one went out live. */
  lemma OvertakenOnlyIfUnderWay(cfg: Config, actions: seq<Action>, p: nat, q: nat)
    requires Run(cfg, actions).Some?
    requires var site := Run(cfg, actions).value.site;
             p < q < |site| && IsEvt(site[p]) && IsEvt(site[q]) && site[q].order < site[p].order
    ensures var s := Run(cfg, actions).value;
            && s.site[p].order < |s.line.births|
            && var later := s.line.births[s.site[p].order];
            || (s.site[q].order in later.publishing && s.line.births[s.site[q].order].pump != later.pump)
            || (s.site[p].Live? && s.site[q].Replay? && later.flying == Some(s.site[q].order))
  {
    LineInvariant(cfg, actions);
    var s := Run(cfg, actions).value;
    assert Excused(s.line, s.site[q], s.site[p]);
    if s.site[q].order in s.line.births[s.site[p].order].publishing {
      assert Beside(s.line, s.site[q].order, s.site[p].order);
    }
  }

  /** The events of one pump land in order, but for a live one overtaking the replay of the
      event that was in flight at its admission. */
  lemma OnePumpInOrder(cfg: Config, actions: seq<Action>, p: nat, q: nat)
    requires Run(cfg, actions).Some?
    requires var site := Run(cfg, actions).value.site;
             p < q < |site| && IsEvt(site[p]) && IsEvt(site[q]) && site[q].order < site[p].order
    requires var s := Run(cfg, actions).value;
             && s.site[p].order < |s.line.births|
             && s.line.births[s.site[q].order].pump == s.line.births[s.site[p].order].pump
    ensures var s := Run(cfg, actions).value;
            s.site[p].Live? && s.site[q].Replay? && s.line.births[s.site[p].order].flying == Some(s.site[q].order)
  {
    OvertakenOnlyIfUnderWay(cfg, actions, p, q);
  }

  lemma SettledIsNotOpen(cfg: Config, s: GovState, k: nat)
    requires LineInv(cfg, s) && k < |s.line.births|
    ensures HasLanded(s, k) || IsDropped(s, k) <==> !IsOpen(s.evts, s.line, k)
  {
    match s.line.places[k]
    case OnPump =>
    case InLog(j) =>
    case Landed(q) => assert IsEvt(s.site[q]) && s.site[q].order == k;
    case Refused =>
  }

  /** Strict order, exactly: when a live `evt` goes through, every `evt` admitted before it
      has landed or been dropped if and only if the watcher holds nothing and no pump is
      publishing an `evt`. */
  lemma StrictlyInOrderExactly(cfg: Config, actions: seq<Action>, connected: bool, now: real)
    requires Run(cfg, actions).Some?
    requires Admission(Run(cfg, actions).value.policy, Evt, connected, now).1 == UplinkVerdict.Forward
    ensures var s := Run(cfg, actions).value;
            (forall k :: 0 <= k < |s.line.births| ==> HasLanded(s, k) || IsDropped(s, k))
            <==>
            !s.pc.Flying? && forall i :: 0 <= i < |s.pumps| == |cfg.classes| && cfg.classes[i] == Evt ==>
              !s.pumps[i].Publishing?
  {
    EvtInvariant(cfg, actions);
    LineInvariant(cfg, actions);
    var s := Run(cfg, actions).value;
    forall k | 0 <= k < |s.line.births| ensures HasLanded(s, k) || IsDropped(s, k) <==> !IsOpen(s.evts, s.line, k) {
      SettledIsNotOpen(cfg, s, k);
    }
    forall k | 0 <= k < |s.line.births| && IsOpen(s.evts, s.line, k)
      ensures k in PublishingNow(cfg, s) || s.pc.Flying?
    {
      OpenAtForward(cfg, s, connected, now, k);
    }
    if s.pc.Flying? {
      FlyingIsOpen(cfg, s);
    }
    forall i | 0 <= i < |s.pumps| && cfg.classes[i] == Evt && s.pumps[i].Publishing?
      ensures IsOpen(s.evts, s.line, s.pumps[i].order)
    {
    }
  }

  /** In every reachable state everything admitted has landed, been dropped or been pushed if
      and only if no pump is publishing an `evt`: only then does an event that is buffered
      join the queue behind all of its predecessors. */
  lemma AllPushedExactly(cfg: Config, actions: seq<Action>)
    requires Run(cfg, actions).Some?
    ensures var s := Run(cfg, actions).value;
            (forall k :: 0 <= k < |s.line.births| ==> HasLanded(s, k) || IsDropped(s, k) || k in s.line.pushes)
            <==>
            forall i :: 0 <= i < |s.pumps| == |cfg.classes| && cfg.classes[i] == Evt ==> !s.pumps[i].Publishing?
  {
    LineInvariant(cfg, actions);
    var s := Run(cfg, actions).value;
    forall k | 0 <= k < |s.line.births|
      ensures HasLanded(s, k) || IsDropped(s, k) || k in s.line.pushes <==> k !in PublishingNow(cfg, s)
    {
      SettledIsNotOpen(cfg, s, k);
      OnPumpIsPublishing(cfg, s, k);
    }
    forall i | 0 <= i < |s.pumps| && cfg.classes[i] == Evt && s.pumps[i].Publishing?
      ensures s.pumps[i].order < |s.line.births| && s.pumps[i].order in PublishingNow(cfg, s)
    {
    }
  }

  /** In a run where no admission found another pump publishing an `evt`, and no live one an
      event in flight, the events land in the order of admission. */
  lemma AloneMeansInOrder(cfg: Config, actions: seq<Action>, p: nat, q: nat)
    requires Run(cfg, actions).Some?
    requires var births := Run(cfg, actions).value.line.births;
             forall k :: 0 <= k < |births| ==>
               births[k].publishing == {} && (births[k].live ==> births[k].flying == None)
    requires var site := Run(cfg, actions).value.site; p < q < |site| && IsEvt(site[p]) && IsEvt(site[q])
    ensures Run(cfg, actions).value.site[p].order < Run(cfg, actions).value.site[q].order
  {
    LandsAtMostOnce(cfg, actions, p, q);
    LineInvariant(cfg, actions);
    var site := Run(cfg, actions).value.site;
    if site[q].order < site[p].order {
      OvertakenOnlyIfUnderWay(cfg, actions, p, q);
    }
  }

  lemma FlyingIsOpen(cfg: Config, s: GovState)
    requires EvtInv(cfg, s) && LineInv(cfg, s) && s.pc.Flying?
    ensures s.pc.index < |s.line.pushes| && s.line.pushes[s.pc.index] < |s.line.births|
    ensures IsOpen(s.evts, s.line, s.line.pushes[s.pc.index])
  {
    assert s.pc.index !in s.evts.replayed && s.pc.index !in s.evts.dropped;
  }
}
