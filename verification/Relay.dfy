/** The relay decision engine: class routing, own-device pinning, hop stamping. */
module Relay {
  import opened Wrappers
  import opened Topics
  import opened Messages

  datatype Direction = Uplink | Downlink

  datatype DropReason =
    | OwnEcho
    | MaxHopsExceeded
    | NotUnsTopic
    | ClassNotRelayed
    | NotOwnDevice
    | MalformedEnvelope

  datatype RelayDecision = Forward(bytes: Bytes) | Drop(reason: DropReason)

  datatype EngineError = InvalidDeviceToken

  datatype RelayEngine = RelayEngine(
    device: string,
    hopId: string,
    maxHops: nat,
    appEnabled: bool,
    uplinkFilters: seq<(UnsClass, string)>,
    downlinkFilters: seq<string>,
    rehydrationTopics: seq<string>)

  const ROOT := "ecv1"
  const UPLINK_CLASSES: seq<UnsClass> := [State, Cfg, Evt, Metric, Data, Log]

  // ---- construction ----

  predicate ValidDevice(device: string) {
    && device != ""
    && forall i :: 0 <= i < |device| ==>
         device[i] !in {'/', '+', '#', '\\'} && ' ' <= device[i] && device[i] != '\U{7F}'
  }

  predicate IsLeaf(c: UnsClass) { c in {State, Cfg} }

  function Tail(c: UnsClass): seq<string> {
    if IsLeaf(c) then [Token(c)] else [Token(c), "#"]
  }

  function Wildcards(instanceScope: bool): seq<string> {
    if instanceScope then ["+", "+"] else ["+"]
  }

  function UplinkFilter(c: UnsClass, instanceScope: bool): string {
    Join([ROOT, "+"] + Wildcards(instanceScope) + Tail(c))
  }

  function DownlinkFilter(device: string, instanceScope: bool): string {
    Join([ROOT, device] + Wildcards(instanceScope) + Tail(Cmd))
  }

  predicate UplinkRelayed(appEnabled: bool, c: UnsClass) {
    c in UPLINK_CLASSES || (appEnabled && c == App)
  }

  function RelayedClasses(appEnabled: bool): seq<UnsClass> {
    UPLINK_CLASSES + if appEnabled then [App] else []
  }

  /** What a constructed engine holds: both scopes of each relayed class, in class order,
      and `cmd` for the own device only. */
  ghost predicate ValidEngine(e: RelayEngine) {
    && ValidDevice(e.device)
    && e.hopId == e.device + "/uns-bridge"
    && FilterList(e.uplinkFilters, RelayedClasses(e.appEnabled))
    && e.downlinkFilters == [DownlinkFilter(e.device, true), DownlinkFilter(e.device, false)]
  }

  ghost predicate FilterList(filters: seq<(UnsClass, string)>, classes: seq<UnsClass>) {
    && |filters| == 2 * |classes|
    && forall k :: 0 <= k < |filters| ==>
         filters[k] == (classes[k / 2], UplinkFilter(classes[k / 2], k % 2 == 0))
  }

  lemma FilterListExtends(filters: seq<(UnsClass, string)>, classes: seq<UnsClass>, c: UnsClass)
    requires FilterList(filters, classes)
    ensures FilterList(filters + [(c, UplinkFilter(c, true))] + [(c, UplinkFilter(c, false))], classes + [c])
  {
    var longer := filters + [(c, UplinkFilter(c, true))] + [(c, UplinkFilter(c, false))];
    assert forall k :: 0 <= k < |filters| ==> longer[k] == filters[k] && (classes + [c])[k / 2] == classes[k / 2];
  }

  method New(device: string, maxHops: nat, appEnabled: bool)
    returns (r: Result<RelayEngine, EngineError>)
    ensures r.Success? <==>
            && device != ""
            && forall i :: 0 <= i < |device| ==>
                 device[i] !in {'/', '+', '#', '\\'} && ' ' <= device[i] && device[i] != '\U{7F}'
    ensures r.Success? ==>
              && ValidEngine(r.value)
              && r.value.device == device
              && r.value.hopId == device + "/uns-bridge"
              && r.value.maxHops == maxHops
              && r.value.appEnabled == appEnabled
              && r.value.rehydrationTopics ==
                   ["ecv1/" + device + "/_bcast/cmd/republish-state",
                    "ecv1/" + device + "/_bcast/cmd/republish-cfg"]
  {
    if !ValidDevice(device) {
      return Failure(InvalidDeviceToken);
    }
    var filters: seq<(UnsClass, string)> := [];
    for n := 0 to |UPLINK_CLASSES|
      invariant FilterList(filters, UPLINK_CLASSES[..n])
    {
      var c := UPLINK_CLASSES[n];
      FilterListExtends(filters, UPLINK_CLASSES[..n], c);
      assert UPLINK_CLASSES[..n + 1] == UPLINK_CLASSES[..n] + [c];
      filters := filters + [(c, UplinkFilter(c, true))];
      filters := filters + [(c, UplinkFilter(c, false))];
    }
    assert UPLINK_CLASSES[..|UPLINK_CLASSES|] == UPLINK_CLASSES;
    if appEnabled {
      FilterListExtends(filters, UPLINK_CLASSES, App);
      filters := filters + [(App, UplinkFilter(App, true))];
      filters := filters + [(App, UplinkFilter(App, false))];
    }
    var downlink := [DownlinkFilter(device, true), DownlinkFilter(device, false)];
    var rehydration := ["ecv1/" + device + "/_bcast/cmd/republish-state",
                        "ecv1/" + device + "/_bcast/cmd/republish-cfg"];
    r := Success(RelayEngine(device, device + "/uns-bridge", maxHops, appEnabled, filters, downlink, rehydration));
  }

  /** Every class goes up but `cmd`, and but `app` when it is not opted in. */
  lemma UplinkRelayedExactly(appEnabled: bool, c: UnsClass)
    ensures UplinkRelayed(appEnabled, c) <==> c != Cmd && (c == App ==> appEnabled)
  {
  }

  /** How a subscription to a class ends. */
  function Ending(c: UnsClass): string {
    match c
    case State => "state"
    case Cfg => "cfg"
    case Evt => "evt/#"
    case Metric => "metric/#"
    case Data => "data/#"
    case Log => "log/#"
    case App => "app/#"
    case Cmd => "cmd/#"
  }

  lemma TailSpelledOut(c: UnsClass)
    ensures Join(Tail(c)) == Ending(c)
  {
    if !IsLeaf(c) { assert Tail(c)[1..] == ["#"]; }
  }

  lemma JoinHead(a: string, rest: seq<string>)
    requires rest != []
    ensures Join([a] + rest) == a + "/" + Join(rest)
  {
    assert ([a] + rest)[1..] == rest;
  }

  lemma ScopeSpelledOut(second: string, rest: seq<string>)
    requires rest != []
    ensures Join([ROOT, second] + Wildcards(false) + rest) == "ecv1/" + second + "/+/" + Join(rest)
    ensures Join([ROOT, second] + Wildcards(true) + rest) == "ecv1/" + second + "/+/+/" + Join(rest)
  {
    var one, two := ["+"] + rest, ["+"] + (["+"] + rest);
    JoinHead("+", rest);
    JoinHead("+", one);
    JoinHead(second, one);
    JoinHead(second, two);
    JoinHead(ROOT, [second] + one);
    JoinHead(ROOT, [second] + two);
    assert [ROOT, second] + Wildcards(false) + rest == [ROOT] + ([second] + one);
    assert [ROOT, second] + Wildcards(true) + rest == [ROOT] + ([second] + two);
    assert ROOT + "/" + (second + "/" + ("+" + "/" + Join(rest))) == "ecv1/" + second + "/+/" + Join(rest);
    assert ROOT + "/" + (second + "/" + ("+" + "/" + ("+" + "/" + Join(rest)))) ==
           "ecv1/" + second + "/+/+/" + Join(rest);
  }

  /** The filters, spelled out. */
  lemma FiltersSpelledOut(device: string, c: UnsClass)
    ensures UplinkFilter(c, true) == "ecv1/" + "+" + "/+/+/" + Ending(c)
    ensures UplinkFilter(c, false) == "ecv1/" + "+" + "/+/" + Ending(c)
    ensures DownlinkFilter(device, true) == "ecv1/" + device + "/+/+/" + "cmd/#"
    ensures DownlinkFilter(device, false) == "ecv1/" + device + "/+/" + "cmd/#"
  {
    TailSpelledOut(c);
    TailSpelledOut(Cmd);
    ScopeSpelledOut("+", Tail(c));
    ScopeSpelledOut(device, Tail(Cmd));
  }

  lemma RelayedClassesDistinct(appEnabled: bool)
    ensures forall i, j {:trigger RelayedClasses(appEnabled)[i], RelayedClasses(appEnabled)[j]} ::
              0 <= i < j < |RelayedClasses(appEnabled)| ==>
              RelayedClasses(appEnabled)[i] != RelayedClasses(appEnabled)[j]
    ensures forall c: UnsClass :: c in RelayedClasses(appEnabled) <==> UplinkRelayed(appEnabled, c)
  {
  }

  /** The subscription of a class at a scope: its position in the list is determined. */
  lemma FilterIndex(e: RelayEngine, c: UnsClass, instanceScope: bool) returns (k: nat)
    requires ValidEngine(e) && UplinkRelayed(e.appEnabled, c)
    ensures k < |e.uplinkFilters| && e.uplinkFilters[k] == (c, UplinkFilter(c, instanceScope))
  {
    RelayedClassesDistinct(e.appEnabled);
    var n :| 0 <= n < |RelayedClasses(e.appEnabled)| && RelayedClasses(e.appEnabled)[n] == c;
    k := if instanceScope then 2 * n else 2 * n + 1;
    assert k / 2 == n;
  }

  /** No class has more than its two filters, side by side. */
  lemma TwoFiltersPerClass(e: RelayEngine, j: nat, k: nat)
    requires ValidEngine(e) && j < k < |e.uplinkFilters| && e.uplinkFilters[j].0 == e.uplinkFilters[k].0
    ensures j % 2 == 0 && k == j + 1
  {
    RelayedClassesDistinct(e.appEnabled);
    var classes := RelayedClasses(e.appEnabled);
    assert classes[j / 2] == classes[k / 2];
  }

  /** Both scopes of exactly the relayed classes are subscribed, each once. */
  lemma SubscribedExactlyOnce(e: RelayEngine, c: UnsClass, instanceScope: bool)
    requires ValidEngine(e)
    ensures UplinkRelayed(e.appEnabled, c) <==>
            exists k :: 0 <= k < |e.uplinkFilters| && e.uplinkFilters[k] == (c, UplinkFilter(c, instanceScope))
                        && k % 2 == (if instanceScope then 0 else 1)
    ensures forall j, k :: 0 <= j < k < |e.uplinkFilters| && e.uplinkFilters[j].0 == e.uplinkFilters[k].0 ==>
              j % 2 == 0 && k == j + 1
  {
    RelayedClassesDistinct(e.appEnabled);
    if UplinkRelayed(e.appEnabled, c) {
      var n :| 0 <= n < |RelayedClasses(e.appEnabled)| && RelayedClasses(e.appEnabled)[n] == c;
      var at := if instanceScope then 2 * n else 2 * n + 1;
      assert e.uplinkFilters[at] == (c, UplinkFilter(c, instanceScope));
    }
    forall j, k | 0 <= j < k < |e.uplinkFilters| && e.uplinkFilters[j].0 == e.uplinkFilters[k].0
      ensures j % 2 == 0 && k == j + 1
    {
      TwoFiltersPerClass(e, j, k);
    }
  }

  /** Every class but `cmd`, and but `app` when not opted in, has both its filters; `cmd`
      has none going up. */
  lemma EveryClassIsSubscribed(e: RelayEngine, c: UnsClass, instanceScope: bool)
    requires ValidEngine(e)
    ensures (exists k :: 0 <= k < |e.uplinkFilters| && e.uplinkFilters[k] == (c, UplinkFilter(c, instanceScope)))
            <==> c != Cmd && (c == App ==> e.appEnabled)
  {
    UplinkRelayedExactly(e.appEnabled, c);
    RelayedClassesDistinct(e.appEnabled);
    if UplinkRelayed(e.appEnabled, c) {
      var k := FilterIndex(e, c, instanceScope);
    }
  }

  // ---- hop stamping ----

  /** The hop rules: own id anywhere drops, `maxHops` ids drop, otherwise append own id. */
  function Stamp(e: RelayEngine, m: Message): Result<Message, DropReason> {
    if m.raw then Success(m)
    else if JString(e.hopId) in Hops(m) then Failure(OwnEcho)
    else if |Hops(m)| >= e.maxHops then Failure(MaxHopsExceeded)
    else Success(WithHops(m, Hops(m) + [JString(e.hopId)]))
  }

  /** An envelope being edited in place, as `stamp_hop` edits the message it is given. */
  class Envelope {
    var raw: bool
    var name: string
    var correlationId: string
    var replyTo: Option<string>
    var identity: string
    var tags: Option<map<string, Json>>
    var body: Body

    constructor (m: Message)
      ensures Value() == m
    {
      raw, name, correlationId, replyTo := m.raw, m.name, m.correlationId, m.replyTo;
      identity, tags, body := m.identity, m.tags, m.body;
    }

    function Value(): Message
      reads this
    {
      Message(raw, name, correlationId, replyTo, identity, tags, body)
    }

    /** A failed stamp leaves the message as it was, except that an absent tags member
        has been created empty. */
    method StampHop(e: RelayEngine) returns (r: Result<(), DropReason>)
      modifies this`tags
      ensures Stamp(e, old(Value())).Success? ==> r == Success(()) && Value() == Stamp(e, old(Value())).value
      ensures Stamp(e, old(Value())).Failure? ==>
                && r == Failure(Stamp(e, old(Value())).error)
                && Value() == old(Value()).(tags := Some(TagsOf(old(Value()))))
    {
      if raw {
        return Success(());
      }
      if tags.None? {
        tags := Some(map[]);
      }
      var extra := tags.value;
      var hops: seq<Json> := [];
      if RELAY_TAG in extra && extra[RELAY_TAG].JArray? {
        hops := extra[RELAY_TAG].items;
      }
      for i := 0 to |hops|
        invariant JString(e.hopId) !in hops[..i]
        invariant Value() == old(Value()).(tags := Some(TagsOf(old(Value()))))
      {
        if hops[i] == JString(e.hopId) {
          return Failure(OwnEcho);
        }
        assert hops[..i + 1] == hops[..i] + [hops[i]];
      }
      assert hops[..|hops|] == hops;
      if |hops| >= e.maxHops {
        return Failure(MaxHopsExceeded);
      }
      hops := hops + [JString(e.hopId)];
      tags := Some(extra[RELAY_TAG := JArray(hops)]);
      return Success(());
    }
  }

  // ---- the decision ----

  /** The class `decide` finds: at level 3 if that is a class token, else at level 4. */
  function DecidedClass(topic: string): Option<UnsClass> {
    var levels := Split(topic);
    if |levels| < 4 || levels[0] != ROOT then None
    else if FromToken(levels[3]).Some? then FromToken(levels[3])
    else if |levels| > 4 then FromToken(levels[4])
    else None
  }

  /** Routing and device pinning: the reason to drop, if there is one. */
  function Routed(e: RelayEngine, direction: Direction, topic: string): Option<DropReason> {
    var decided := DecidedClass(topic);
    if decided.None? then Some(NotUnsTopic)
    else match direction
      case Uplink => if UplinkRelayed(e.appEnabled, decided.value) then None else Some(ClassNotRelayed)
      case Downlink =>
        if decided.value != Cmd then Some(ClassNotRelayed)
        else if Split(topic)[1] != e.device then Some(NotOwnDevice)
        else None
  }

  function Decide(e: RelayEngine, codec: Codec, direction: Direction, topic: string, payload: Bytes): RelayDecision {
    var routed := Routed(e, direction, topic);
    if routed.Some? then Drop(routed.value)
    else
      var decoded := codec.decode(payload);
      if decoded.None? then Drop(MalformedEnvelope)
      else
        var stamped := Stamp(e, decoded.value);
        if stamped.Failure? then Drop(stamped.error)
        else
          var bytes := codec.encode(stamped.value);
          if bytes.None? then Drop(MalformedEnvelope) else Forward(bytes.value)
  }

  /** The class a topic names: at level 3, or at level 4 when level 3 names none. */
  predicate NamesClass(levels: seq<string>, c: UnsClass) {
    && |levels| >= 4 && levels[0] == "ecv1"
    && (|| levels[3] == Token(c)
        || (|levels| > 4 && levels[4] == Token(c) && forall d: UnsClass :: levels[3] != Token(d)))
  }

  lemma NamesDecided(topic: string, c: UnsClass)
    ensures NamesClass(Split(topic), c) <==> DecidedClass(topic) == Some(c)
  {
    var levels := Split(topic);
    if |levels| >= 4 {
      TokensDistinct(c, c);
      if FromToken(levels[3]).Some? { TokensDistinct(FromToken(levels[3]).value, c); }
      if |levels| > 4 && FromToken(levels[4]).Some? { TokensDistinct(FromToken(levels[4]).value, c); }
    }
  }

  /** Routing, on the levels of the topic: when it passes, and why when it does not. */
  lemma RoutedExactly(e: RelayEngine, topic: string)
    ensures var levels := Split(topic);
            && (Routed(e, Uplink, topic) == None <==>
                  exists c: UnsClass :: NamesClass(levels, c) && c != Cmd && (c == App ==> e.appEnabled))
            && (Routed(e, Uplink, topic) == Some(ClassNotRelayed) <==>
                  NamesClass(levels, Cmd) || (NamesClass(levels, App) && !e.appEnabled))
            && (Routed(e, Downlink, topic) == None <==> NamesClass(levels, Cmd) && levels[1] == e.device)
            && (Routed(e, Downlink, topic) == Some(NotOwnDevice) <==> NamesClass(levels, Cmd) && levels[1] != e.device)
            && (Routed(e, Downlink, topic) == Some(ClassNotRelayed) <==>
                  exists c: UnsClass :: NamesClass(levels, c) && c != Cmd)
            && (forall d: Direction :: Routed(e, d, topic) == Some(NotUnsTopic) <==>
                  forall c: UnsClass :: !NamesClass(levels, c))
  {
    forall c: UnsClass ensures NamesClass(Split(topic), c) <==> DecidedClass(topic) == Some(c) {
      NamesDecided(topic, c);
    }
    if DecidedClass(topic).Some? {
      UplinkRelayedExactly(e.appEnabled, DecidedClass(topic).value);
      assert NamesClass(Split(topic), DecidedClass(topic).value);
    }
  }

  /** The decision, exactly. A message is forwarded if and only if it is routed, decodes,
      does not carry the own id, has hops to spare and re-encodes with the own id appended;
      those bytes are what is forwarded. Otherwise the reason is the first that fails. */
  lemma DecideExactly(e: RelayEngine, codec: Codec, direction: Direction, topic: string, payload: Bytes)
    requires WellBehaved(codec)
    ensures var d, routed := Decide(e, codec, direction, topic, payload), Routed(e, direction, topic);
            var decoded := codec.decode(payload);
            if routed.Some? then d == Drop(routed.value)
            else if decoded.None? then d == Drop(MalformedEnvelope)
            else
              var m := decoded.value;
              var out := codec.encode(WithHops(m, Hops(m) + [JString(e.hopId)]));
              && (d == Drop(OwnEcho) <==> JString(e.hopId) in Hops(m))
              && (d == Drop(MaxHopsExceeded) <==> JString(e.hopId) !in Hops(m) && |Hops(m)| >= e.maxHops)
              && (d == Drop(MalformedEnvelope) <==>
                    JString(e.hopId) !in Hops(m) && |Hops(m)| < e.maxHops && out.None?)
              && (d.Forward? <==> JString(e.hopId) !in Hops(m) && |Hops(m)| < e.maxHops && out.Some?)
              && (d.Forward? ==> d.bytes == out.value)
  {
  }

  /** What a forward means: the outgoing bytes decode to the incoming message with this
      bridge's id appended to the hop list and nothing else touched. */
  lemma ForwardAppendsOneHop(e: RelayEngine, codec: Codec, direction: Direction, topic: string, payload: Bytes)
    requires WellBehaved(codec)
    requires Decide(e, codec, direction, topic, payload).Forward?
    ensures codec.decode(payload).Some?
    ensures var m := codec.decode(payload).value;
            var out := Decide(e, codec, direction, topic, payload).bytes;
            && JString(e.hopId) !in Hops(m)
            && |Hops(m)| < e.maxHops
            && codec.decode(out) == Some(WithHops(m, Hops(m) + [JString(e.hopId)]))
  {
  }

  // ---- which filters match, against what is decided ----

  function ClassLevel(instanceScope: bool): nat { if instanceScope then 4 else 3 }

  predicate HasShape(topic: string, c: UnsClass, instanceScope: bool) {
    var levels := Split(topic);
    var at := ClassLevel(instanceScope);
    && |levels| > at
    && levels[0] == ROOT
    && levels[at] == Token(c)
    && (IsLeaf(c) ==> |levels| == at + 1)
  }

  lemma FilterLevels(second: string, c: UnsClass, instanceScope: bool)
    requires '/' !in second
    ensures Split(Join([ROOT, second] + Wildcards(instanceScope) + Tail(c))) ==
            [ROOT, second] + Wildcards(instanceScope) + Tail(c)
  {
    TokensDistinct(c, c);
    assert '/' !in ROOT && '/' !in "+" && '/' !in "#";
    SplitJoin([ROOT, second] + Wildcards(instanceScope) + Tail(c));
  }

  /** Dropping a common head that is not `#`. */
  lemma MatchesStep(f: seq<string>, t: seq<string>)
    requires |f| > 0 && f[0] != "#"
    ensures Matches(f, t) <==> |t| > 0 && (f[0] == "+" || f[0] == t[0]) && Matches(f[1..], t[1..])
  {
  }

  lemma MatchesTail(c: UnsClass, t: seq<string>)
    ensures Matches(Tail(c), t) <==> |t| > 0 && t[0] == Token(c) && (IsLeaf(c) ==> |t| == 1)
  {
    TokensDistinct(c, c);
    MatchesStep(Tail(c), t);
    if IsLeaf(c) {
      assert Tail(c)[1..] == [];
    } else {
      assert Tail(c)[1..] == ["#"];
    }
  }

  lemma MatchesWild(c: UnsClass, instanceScope: bool, t: seq<string>)
    ensures var at := |Wildcards(instanceScope)|;
            Matches(Wildcards(instanceScope) + Tail(c), t) <==>
            |t| > at && t[at] == Token(c) && (IsLeaf(c) ==> |t| == at + 1)
  {
    var f := Wildcards(instanceScope) + Tail(c);
    MatchesStep(f, t);
    if |t| > 0 {
      if instanceScope {
        assert f[1..] == ["+"] + Tail(c);
        MatchesStep(f[1..], t[1..]);
        assert f[1..][1..] == Tail(c);
        if |t| > 1 {
          MatchesTail(c, t[1..][1..]);
        }
      } else {
        assert f[1..] == Tail(c);
        MatchesTail(c, t[1..]);
      }
    }
  }

  lemma FilterMatches(second: string, c: UnsClass, instanceScope: bool, topic: string)
    requires '/' !in second && second != "#"
    ensures TopicMatches(Join([ROOT, second] + Wildcards(instanceScope) + Tail(c)), topic) <==>
            HasShape(topic, c, instanceScope) && (second == "+" || Split(topic)[1] == second)
  {
    FilterLevels(second, c, instanceScope);
    var t := Split(topic);
    var f := [ROOT, second] + Wildcards(instanceScope) + Tail(c);
    MatchesStep(f, t);
    assert f[1..] == [second] + Wildcards(instanceScope) + Tail(c);
    if |t| > 0 {
      MatchesStep(f[1..], t[1..]);
      assert f[1..][1..] == Wildcards(instanceScope) + Tail(c);
      if |t| > 1 {
        MatchesWild(c, instanceScope, t[1..][1..]);
      }
    }
  }

  /** An uplink filter matches exactly the topics of its class, scope and shape. */
  lemma UplinkFilterExact(c: UnsClass, instanceScope: bool, topic: string)
    ensures TopicMatches(UplinkFilter(c, instanceScope), topic) <==> HasShape(topic, c, instanceScope)
  {
    FilterMatches("+", c, instanceScope, topic);
  }

  /** A downlink filter matches exactly the `cmd` topics of the own device. */
  lemma DownlinkFilterExact(device: string, instanceScope: bool, topic: string)
    requires ValidDevice(device)
    ensures TopicMatches(DownlinkFilter(device, instanceScope), topic) <==>
            HasShape(topic, Cmd, instanceScope) && Split(topic)[1] == device
  {
    assert device[0] != '+' && device[0] != '#';
    FilterMatches(device, Cmd, instanceScope, topic);
  }

  /** Levels 3 and 4 both name a class: the one family on which the two scopes overlap. */
  predicate DoubleClass(topic: string) {
    var levels := Split(topic);
    |levels| > 4 && FromToken(levels[3]).Some? && FromToken(levels[4]).Some?
  }

  /** Off that family, a topic that matches an uplink filter matches only that one, and
      the class of the pump behind it is the class `decide` finds. */
  lemma PumpClassIsDecidedClass(e: RelayEngine, topic: string, j: nat, k: nat)
    requires ValidEngine(e) && j < |e.uplinkFilters| && k < |e.uplinkFilters|
    requires !DoubleClass(topic)
    requires TopicMatches(e.uplinkFilters[j].1, topic) && TopicMatches(e.uplinkFilters[k].1, topic)
    ensures j == k
    ensures DecidedClass(topic) == Some(e.uplinkFilters[j].0)
    ensures Routed(e, Uplink, topic) == None
  {
    if j < k {
      MatchedTwice(e, topic, j, k);
    } else if k < j {
      MatchedTwice(e, topic, k, j);
    }
    var a := e.uplinkFilters[j].0;
    RelayedClassesDistinct(e.appEnabled);
    UplinkFilterExact(a, j % 2 == 0, topic);
    TokensDistinct(a, a);
  }

  /** On every topic: the class of a pump a topic reaches is the class `decide` finds
      exactly when the pump's filter is the component-scope one, or level 3 names no class,
      or levels 3 and 4 are the same. Otherwise the message is governed and counted under
      the pump's class though `decide` routed it as another. */
  lemma PumpClassExactly(e: RelayEngine, topic: string, k: nat)
    requires ValidEngine(e) && k < |e.uplinkFilters|
    requires TopicMatches(e.uplinkFilters[k].1, topic)
    ensures var levels := Split(topic);
            && |levels| >= 4
            && (DecidedClass(topic) == Some(e.uplinkFilters[k].0) <==>
                  || k % 2 == 1
                  || FromToken(levels[3]).None?
                  || (|levels| > 4 && levels[3] == levels[4]))
  {
    var c := e.uplinkFilters[k].0;
    RelayedClassesDistinct(e.appEnabled);
    UplinkFilterExact(c, k % 2 == 0, topic);
    TokensDistinct(c, c);
  }

  /** A relayed channel class at level 3 and a relayed class at level 4, the latter
      ending the topic if it is a leaf class. */
  predicate Overlapping(appEnabled: bool, topic: string) {
    && DoubleClass(topic)
    && Split(topic)[0] == ROOT
    && var a, b := FromToken(Split(topic)[3]).value, FromToken(Split(topic)[4]).value;
    && UplinkRelayed(appEnabled, a) && !IsLeaf(a)
    && UplinkRelayed(appEnabled, b) && (IsLeaf(b) ==> |Split(topic)| == 5)
  }

  /** Two uplink filters match one topic exactly when it is overlapping. */
  lemma FiltersOverlapExactly(e: RelayEngine, topic: string)
    requires ValidEngine(e)
    ensures Overlapping(e.appEnabled, topic) <==>
            exists j, k :: 0 <= j < k < |e.uplinkFilters|
              && TopicMatches(e.uplinkFilters[j].1, topic) && TopicMatches(e.uplinkFilters[k].1, topic)
  {
    forall j, k | 0 <= j < k < |e.uplinkFilters|
                  && TopicMatches(e.uplinkFilters[j].1, topic) && TopicMatches(e.uplinkFilters[k].1, topic)
      ensures Overlapping(e.appEnabled, topic)
    {
      MatchedTwice(e, topic, j, k);
    }
    if Overlapping(e.appEnabled, topic) {
      var a, b := FromToken(Split(topic)[3]).value, FromToken(Split(topic)[4]).value;
      UplinkFilterExact(a, false, topic);
      UplinkFilterExact(b, true, topic);
      var j := FilterIndex(e, a, false);
      var k := FilterIndex(e, b, true);
      ScopesDiffer(a, b);
      assert j < k || k < j;
    }
  }

  lemma MatchedTwice(e: RelayEngine, topic: string, j: nat, k: nat)
    requires ValidEngine(e) && j < k < |e.uplinkFilters|
    requires TopicMatches(e.uplinkFilters[j].1, topic) && TopicMatches(e.uplinkFilters[k].1, topic)
    ensures Overlapping(e.appEnabled, topic)
  {
    var a, b := e.uplinkFilters[j].0, e.uplinkFilters[k].0;
    RelayedClassesDistinct(e.appEnabled);
    SubscribedExactlyOnce(e, a, true);
    UplinkFilterExact(a, j % 2 == 0, topic);
    UplinkFilterExact(b, k % 2 == 0, topic);
    TokensDistinct(a, b);
    TokensDistinct(b, b);
  }

  lemma ScopesDiffer(a: UnsClass, b: UnsClass)
    ensures UplinkFilter(a, false) != UplinkFilter(b, true)
  {
    FilterLevels("+", a, false);
    FilterLevels("+", b, true);
    TokensDistinct(a, a);
    assert Split(UplinkFilter(a, false))[3] == Token(a);
    assert Split(UplinkFilter(b, true))[3] == "+";
  }

  /** Such a topic exists, so one delivery can reach two pumps of different classes. */
  lemma FiltersAreNotDisjoint(e: RelayEngine)
    requires ValidEngine(e)
    ensures var topic := Join(["ecv1", "d", "c", "evt", "data", "x"]);
            && TopicMatches(UplinkFilter(Evt, false), topic)
            && TopicMatches(UplinkFilter(Data, true), topic)
            && DecidedClass(topic) == Some(Evt)
  {
    var levels := ["ecv1", "d", "c", "evt", "data", "x"];
    SplitJoin(levels);
    UplinkFilterExact(Evt, false, Join(levels));
    UplinkFilterExact(Data, true, Join(levels));
    TokensDistinct(Evt, Evt);
  }

  /** A topic routed up is subscribed exactly when it has the shape its class publishes on. */
  lemma RoutedUplinkIsSubscribed(e: RelayEngine, topic: string)
    requires ValidEngine(e) && Routed(e, Uplink, topic) == None
    ensures var c := DecidedClass(topic).value;
            var instanceScope := Split(topic)[3] != Token(c);
            HasShape(topic, c, instanceScope) <==>
            exists k :: 0 <= k < |e.uplinkFilters| && e.uplinkFilters[k] == (c, UplinkFilter(c, instanceScope))
                        && TopicMatches(e.uplinkFilters[k].1, topic)
  {
    var c := DecidedClass(topic).value;
    var instanceScope := Split(topic)[3] != Token(c);
    UplinkFilterExact(c, instanceScope, topic);
    var k := FilterIndex(e, c, instanceScope);
  }

  /** Every command routed down is subscribed, whatever its length. */
  lemma RoutedDownlinkIsSubscribed(e: RelayEngine, topic: string)
    requires ValidEngine(e) && Routed(e, Downlink, topic) == None
    ensures exists k :: 0 <= k < |e.downlinkFilters| && TopicMatches(e.downlinkFilters[k], topic)
  {
    DownlinkFilterExact(e.device, true, topic);
    DownlinkFilterExact(e.device, false, topic);
    TokensDistinct(Cmd, Cmd);
    var k := if Split(topic)[3] == Token(Cmd) then 1 else 0;
    assert TopicMatches(e.downlinkFilters[k], topic);
  }

  // ---- directions ----

  /** No topic flows both ways, whichever two engines look at it. */
  lemma DirectionsNeverMix(up: RelayEngine, down: RelayEngine, codec: Codec, topic: string, p: Bytes, q: Bytes)
    requires Decide(down, codec, Downlink, topic, p).Forward?
    ensures Decide(up, codec, Uplink, topic, q) == Drop(ClassNotRelayed)
  {
  }

  /** Level 3 is `cmd` and level 4 a relayed class, ending the topic if it is a leaf class. */
  predicate CommandThenClass(appEnabled: bool, topic: string) {
    var levels := Split(topic);
    && |levels| > 4 && levels[0] == ROOT && levels[3] == Token(Cmd)
    && FromToken(levels[4]).Some?
    && UplinkRelayed(appEnabled, FromToken(levels[4]).value)
    && (IsLeaf(FromToken(levels[4]).value) ==> |levels| == 5)
  }

  lemma EchoedMeansDouble(e: RelayEngine, topic: string, k: nat)
    requires ValidEngine(e) && Routed(e, Downlink, topic) == None
    requires k < |e.uplinkFilters| && TopicMatches(e.uplinkFilters[k].1, topic)
    ensures CommandThenClass(e.appEnabled, topic)
  {
    var c := e.uplinkFilters[k].0;
    RelayedClassesDistinct(e.appEnabled);
    assert UplinkRelayed(e.appEnabled, c);
    UplinkFilterExact(c, k % 2 == 0, topic);
    TokensDistinct(c, Cmd);
    TokensDistinct(Cmd, Cmd);
  }

  /** A relayed command reaches an uplink pump exactly on that family, and there `decide`
      drops it: no command is ever relayed back up. */
  lemma RelayedCommandEcho(e: RelayEngine, topic: string)
    requires ValidEngine(e) && Routed(e, Downlink, topic) == None
    ensures CommandThenClass(e.appEnabled, topic) <==>
            exists k :: 0 <= k < |e.uplinkFilters| && TopicMatches(e.uplinkFilters[k].1, topic)
    ensures Routed(e, Uplink, topic) == Some(ClassNotRelayed)
  {
    forall k | 0 <= k < |e.uplinkFilters| && TopicMatches(e.uplinkFilters[k].1, topic)
      ensures CommandThenClass(e.appEnabled, topic)
    {
      EchoedMeansDouble(e, topic, k);
    }
    if CommandThenClass(e.appEnabled, topic) {
      var c := FromToken(Split(topic)[4]).value;
      UplinkFilterExact(c, true, topic);
      var k := FilterIndex(e, c, true);
    }
  }

  /** The family is not empty: a command some bridge relays down lands on its own uplink. */
  lemma CommandEchoExists(e: RelayEngine, rest: string)
    requires ValidEngine(e) && e.device == "d" && '/' !in rest
    ensures var topic := Join(["ecv1", "d", "c", "cmd", "data", rest]);
            && Routed(e, Downlink, topic) == None
            && TopicMatches(UplinkFilter(Data, true), topic)
            && TopicMatches(DownlinkFilter("d", false), topic)
  {
    var levels := ["ecv1", "d", "c", "cmd", "data", rest];
    SplitJoin(levels);
    UplinkFilterExact(Data, true, Join(levels));
    DownlinkFilterExact("d", false, Join(levels));
    TokensDistinct(Cmd, Cmd);
  }
}
