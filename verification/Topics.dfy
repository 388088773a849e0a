/** UNS topics and MQTT topic filters (MQTT Version 3.1.1, section 4.7.1): splitting
    a topic into levels, the class tokens, and what a filter matches. */
module Topics {
  import opened Wrappers

  datatype UnsClass = State | Cfg | Evt | Metric | Data | Log | App | Cmd

  function Token(c: UnsClass): string {
    match c
    case State => "state"
    case Cfg => "cfg"
    case Evt => "evt"
    case Metric => "metric"
    case Data => "data"
    case Log => "log"
    case App => "app"
    case Cmd => "cmd"
  }

  /** The class a level names, if it is a class token. */
  function FromToken(s: string): (r: Option<UnsClass>)
    ensures r.Some? ==> Token(r.value) == s
    ensures r.None? ==> forall c: UnsClass :: Token(c) != s
  {
    if s == "state" then Some(State)
    else if s == "cfg" then Some(Cfg)
    else if s == "evt" then Some(Evt)
    else if s == "metric" then Some(Metric)
    else if s == "data" then Some(Data)
    else if s == "log" then Some(Log)
    else if s == "app" then Some(App)
    else if s == "cmd" then Some(Cmd)
    else None
  }

  lemma TokensDistinct(c: UnsClass, d: UnsClass)
    ensures Token(c) == Token(d) ==> c == d
    ensures FromToken(Token(c)) == Some(c)
    ensures '/' !in Token(c)
    ensures Token(c) != "+" && Token(c) != "#"
  {
    assert |Token(State)| == 5 && |Token(Metric)| == 6 && |Token(Data)| == 4;
    assert |Token(Cfg)| == |Token(Evt)| == |Token(Log)| == |Token(App)| == |Token(Cmd)| == 3;
    assert Token(Cfg)[2] == 'g' && Token(Evt)[2] == 't' && Token(Log)[2] == 'g';
    assert Token(App)[2] == 'p' && Token(Cmd)[2] == 'd' && Token(Cfg)[0] == 'c' && Token(Log)[0] == 'l';
  }

  /** The levels of a topic: the source's `topic.split('/')`. */
  function Split(s: string): (r: seq<string>)
    ensures |r| >= 1
  {
    if s == "" then [""]
    else
      var rest := Split(s[1..]);
      if s[0] == '/' then [""] + rest else [[s[0]] + rest[0]] + rest[1..]
  }

  function Join(levels: seq<string>): string
    requires |levels| >= 1
  {
    if |levels| == 1 then levels[0] else levels[0] + "/" + Join(levels[1..])
  }

  predicate SlashFree(levels: seq<string>) {
    forall i :: 0 <= i < |levels| ==> '/' !in levels[i]
  }

  lemma {:induction false} SplitPrefix(level: string, s: string)
    requires '/' !in level
    ensures Split(level + "/" + s) == [level] + Split(s)
    decreases level
  {
    var whole := level + "/" + s;
    if level == "" {
      assert whole[1..] == s;
    } else {
      assert whole[1..] == level[1..] + "/" + s;
      SplitPrefix(level[1..], s);
      assert [level[0]] + level[1..] == level;
    }
  }

  lemma {:induction false} SplitOne(level: string)
    requires '/' !in level
    ensures Split(level) == [level]
  {
    if level != "" {
      SplitOne(level[1..]);
      assert [level[0]] + level[1..] == level;
    }
  }

  /** Levels without a separator survive joining and splitting. */
  lemma {:induction false} SplitJoin(levels: seq<string>)
    requires |levels| >= 1 && SlashFree(levels)
    ensures Split(Join(levels)) == levels
  {
    if |levels| == 1 {
      SplitOne(levels[0]);
    } else {
      SplitJoin(levels[1..]);
      SplitPrefix(levels[0], Join(levels[1..]));
      assert Join(levels) == levels[0] + "/" + Join(levels[1..]);
    }
  }

  /** Splitting loses nothing: every topic is the join of its levels. */
  lemma {:induction false} JoinSplit(s: string)
    ensures Join(Split(s)) == s && SlashFree(Split(s))
  {
    if s != "" {
      JoinSplit(s[1..]);
      var rest := Split(s[1..]);
      if s[0] == '/' {
        assert Split(s)[1..] == rest;
      } else {
        assert Split(s)[1..] == rest[1..];
        assert [s[0]] + s[1..] == s;
      }
    }
  }

  /** MQTT filter matching, level by level: `+` is one level, a final `#` is any
      number of levels including none, so it also matches the parent level. */
  predicate Matches(f: seq<string>, t: seq<string>) {
    if |f| == 0 then |t| == 0
    else if f[0] == "#" then |f| == 1
    else |t| > 0 && (f[0] == "+" || f[0] == t[0]) && Matches(f[1..], t[1..])
  }

  predicate TopicMatches(filter: string, topic: string) {
    Matches(Split(filter), Split(topic))
  }
}
