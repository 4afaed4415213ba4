/** MQTT topic names (`src/command.rs`, `src/mqtt.rs`): the printers, the command
    parser, and how both relate to subscription filters. */
module Topics {
  import opened Prelude

  /** The levels of a text that has one more character in front. */
  function Prepend(c: char, levels: seq<string>): (r: seq<string>)
    requires |levels| > 0
    ensures |r| > 0
  {
    if c == '/' then [""] + levels else [[c] + levels[0]] + levels[1..]
  }

  /** Splitting on `/`, as MQTT does to obtain topic levels. */
  function Levels(s: string): (r: seq<string>)
    ensures |r| > 0
  {
    if s == "" then [""] else Prepend(s[0], Levels(s[1..]))
  }

  function Join(levels: seq<string>): string
    requires |levels| > 0
  {
    if |levels| == 1 then levels[0] else levels[0] + "/" + Join(levels[1..])
  }

  predicate SlashFree(s: string) {
    '/' !in s
  }

  lemma JoinCons(first: string, rest: seq<string>)
    requires |rest| > 0
    ensures Join([first] + rest) == first + "/" + Join(rest)
  {
    assert ([first] + rest)[1..] == rest;
  }

  lemma Regroup(a: string, b: string, c: string, d: string)
    ensures (a + b) + c + d == a + (b + c + d)
  {}

  lemma JoinGrow(c: char, levels: seq<string>)
    requires |levels| > 0
    ensures Join([[c] + levels[0]] + levels[1..]) == [c] + Join(levels)
  {
    if |levels| > 1 {
      var first, rest := levels[0], levels[1..];
      JoinCons([c] + first, rest);
      Regroup([c], first, "/", Join(rest));
    }
  }

  lemma JoinPrepend(c: char, levels: seq<string>)
    requires |levels| > 0
    ensures Join(Prepend(c, levels)) == [c] + Join(levels)
  {
    if c == '/' {
      JoinCons("", levels);
      assert "" + "/" == [c];
    } else {
      JoinGrow(c, levels);
    }
  }

  lemma {:induction false} JoinLevels(s: string)
    ensures Join(Levels(s)) == s
  {
    if s != "" {
      JoinLevels(s[1..]);
      JoinPrepend(s[0], Levels(s[1..]));
      assert s == [s[0]] + s[1..];
    }
  }

  lemma LevelsOfCons(c: char, s: string)
    ensures Levels([c] + s) == Prepend(c, Levels(s))
  {
    assert ([c] + s)[1..] == s;
  }

  lemma PrependConcat(c: char, a: seq<string>, b: seq<string>)
    requires |a| > 0
    ensures Prepend(c, a + b) == Prepend(c, a) + b
  {
    assert (a + b)[1..] == a[1..] + b;
  }

  lemma {:induction false} LevelsConcat(a: string, b: string)
    ensures Levels(a + "/" + b) == Levels(a) + Levels(b)
  {
    if a == "" {
      assert a + "/" + b == ['/'] + b;
      LevelsOfCons('/', b);
    } else {
      var c, t := a[0], a[1..];
      calc {
        Levels(a + "/" + b);
        { assert a + "/" + b == [c] + (t + "/" + b); LevelsOfCons(c, t + "/" + b); }
        Prepend(c, Levels(t + "/" + b));
        { LevelsConcat(t, b); }
        Prepend(c, Levels(t) + Levels(b));
        { PrependConcat(c, Levels(t), Levels(b)); }
        Prepend(c, Levels(t)) + Levels(b);
        { assert a == [c] + t; LevelsOfCons(c, t); }
        Levels(a) + Levels(b);
      }
    }
  }

  lemma {:induction false} LevelsOfSlashFree(s: string)
    requires SlashFree(s)
    ensures Levels(s) == [s]
  {
    if s != "" {
      assert s[0] in s;
      assert forall c :: c in s[1..] ==> c in s;
      LevelsOfSlashFree(s[1..]);
      assert [s[0]] + s[1..] == s;
    }
  }

  lemma {:induction false} LevelsAreSlashFree(s: string)
    ensures forall l :: l in Levels(s) ==> SlashFree(l)
  {
    if s != "" {
      LevelsAreSlashFree(s[1..]);
      assert Levels(s[1..])[0] in Levels(s[1..]);
    }
  }

  /** Every topic the proxy publishes on or listens to. */
  datatype Topic =
    | Availability(id: string)
    | Link(id: string)
    | Snapshot(id: string)
    | Event(id: string, direction: Direction, action: string)
    | Command(id: string)
    | CurrentLimit(id: string)
    | CommandResult(id: string)

  function DirectionName(d: Direction): string {
    match d
    case ChargerToCentral => "charger"
    case CentralToCharger => "central_system"
  }

  function Suffix(t: Topic): string {
    match t
    case Availability(_) => "availability"
    case Link(_) => "status"
    case Snapshot(_) => "state"
    case Event(_, d, action) => DirectionName(d) + "/" + action
    case Command(_) => "command"
    case CurrentLimit(_) => "command/current_limit"
    case CommandResult(_) => "command/result"
  }

  function Print(t: Topic): string {
    "ocpp" + "/" + t.id + "/" + Suffix(t)
  }

  function SuffixLevels(t: Topic): seq<string> {
    match t
    case Availability(_) => ["availability"]
    case Link(_) => ["status"]
    case Snapshot(_) => ["state"]
    case Event(_, d, action) => [DirectionName(d)] + Levels(action)
    case Command(_) => ["command"]
    case CurrentLimit(_) => ["command", "current_limit"]
    case CommandResult(_) => ["command", "result"]
  }

  lemma NamesAreSlashFree()
    ensures SlashFree("ocpp") && SlashFree("command") && SlashFree("availability")
    ensures SlashFree("status") && SlashFree("state") && SlashFree("+")
    ensures SlashFree("charger") && SlashFree("central_system")
    ensures SlashFree("current_limit") && SlashFree("result")
  {}

  lemma LevelsOfPair(a: string, b: string)
    requires SlashFree(a)
    ensures Levels(a + "/" + b) == [a] + Levels(b)
  {
    LevelsConcat(a, b);
    LevelsOfSlashFree(a);
  }

  lemma LevelsOfNames(a: string, b: string)
    requires SlashFree(a) && SlashFree(b)
    ensures Levels(a + "/" + b) == [a, b]
  {
    LevelsOfPair(a, b);
    LevelsOfSlashFree(b);
  }

  lemma LevelsOfSuffix(t: Topic)
    ensures Levels(Suffix(t)) == SuffixLevels(t)
  {
    NamesAreSlashFree();
    match t
    case Event(_, d, action) =>
      LevelsOfPair(DirectionName(d), action);
    case CurrentLimit(_) =>
      assert "command" + "/" + "current_limit" == Suffix(t);
      LevelsOfNames("command", "current_limit");
    case CommandResult(_) =>
      assert "command" + "/" + "result" == Suffix(t);
      LevelsOfNames("command", "result");
    case _ => LevelsOfSlashFree(Suffix(t));
  }

  lemma LevelsOfRooted(root: string, id: string, suffix: string)
    requires SlashFree(root)
    ensures Levels(root + "/" + id + "/" + suffix) == [root] + Levels(id) + Levels(suffix)
  {
    assert root + "/" + id + "/" + suffix == root + "/" + (id + "/" + suffix);
    LevelsOfPair(root, id + "/" + suffix);
    LevelsConcat(id, suffix);
  }

  lemma LevelsOfPrint(t: Topic)
    ensures Levels(Print(t)) == ["ocpp"] + Levels(t.id) + SuffixLevels(t)
  {
    NamesAreSlashFree();
    LevelsOfRooted("ocpp", t.id, Suffix(t));
    LevelsOfSuffix(t);
  }

  /** Over slash-free charge point ids no two topics share a name, whatever
      action name a charger puts in a frame. */
  lemma PrintIsInjective(t: Topic, u: Topic)
    requires SlashFree(t.id) && SlashFree(u.id)
    requires Print(t) == Print(u)
    ensures t == u
  {
    LevelsOfPrint(t);
    LevelsOfPrint(u);
    LevelsOfSlashFree(t.id);
    LevelsOfSlashFree(u.id);
    var lt, lu := Levels(Print(t)), Levels(Print(u));
    assert lt[1] == t.id && lu[1] == u.id;
    assert lt[2..] == SuffixLevels(t) && lu[2..] == SuffixLevels(u);
    var x, y := SuffixLevels(t)[0], SuffixLevels(u)[0];
    assert x == y;
    assert |x| == |y| && x[1] == y[1] && x[2] == y[2];
    if t.Event? && u.Event? {
      assert SuffixLevels(t)[1..] == Levels(t.action);
      assert SuffixLevels(u)[1..] == Levels(u.action);
      JoinLevels(t.action);
      JoinLevels(u.action);
    } else if |SuffixLevels(t)| == 2 && !t.Event? && !u.Event? {
      assert SuffixLevels(t)[1][0] == SuffixLevels(u)[1][0];
    }
  }

  /** The names a subscriber relies on. */
  lemma TopicsAreNamedAsDocumented(id: string, action: string)
    ensures Print(Event(id, ChargerToCentral, action)) == "ocpp/" + id + "/charger/" + action
    ensures Print(Event(id, CentralToCharger, action)) == "ocpp/" + id + "/central_system/" + action
    ensures Print(Availability(id)) == "ocpp/" + id + "/availability"
    ensures Print(Link(id)) == "ocpp/" + id + "/status" && Print(Snapshot(id)) == "ocpp/" + id + "/state"
    ensures Print(Command(id)) == "ocpp/" + id + "/command"
    ensures Print(CurrentLimit(id)) == "ocpp/" + id + "/command/current_limit"
    ensures Print(CommandResult(id)) == "ocpp/" + id + "/command/result"
  {
    assert "ocpp" + "/" == "ocpp/";
    EventIsNamed(id, "charger", action);
    EventIsNamed(id, "central_system", action);
    PlainIsNamed(id, "availability");
    PlainIsNamed(id, "status");
    PlainIsNamed(id, "state");
    PlainIsNamed(id, "command");
    PlainIsNamed(id, "command/current_limit");
    PlainIsNamed(id, "command/result");
    assert "/" + "availability" == "/availability" && "/" + "status" == "/status" && "/" + "state" == "/state";
    assert "/" + "command" == "/command" && "/" + "command/current_limit" == "/command/current_limit";
    assert "/" + "command/result" == "/command/result";
    assert "/" + "charger" + "/" == "/charger/" && "/" + "central_system" + "/" == "/central_system/";
  }

  lemma PlainIsNamed(id: string, suffix: string)
    ensures "ocpp" + "/" + id + "/" + suffix == ("ocpp" + "/") + id + ("/" + suffix)
  {}

  lemma EventIsNamed(id: string, direction: string, action: string)
    ensures "ocpp" + "/" + id + "/" + (direction + "/" + action)
         == ("ocpp" + "/") + id + ("/" + direction + "/") + action
  {}

  /** Recognise a command topic and the charge point it addresses. */
  function ParseCommandTopic(topic: string): Option<Topic> {
    ParseLevels(Levels(topic))
  }

  function ParseLevels(parts: seq<string>): Option<Topic>
    requires |parts| > 0
  {
    if parts[0] != "ocpp" then None
    else if |parts| < 2 then None
    else if parts[1] == "" then None
    else if |parts| < 3 || parts[2] != "command" then None
    else if |parts| == 3 then Some(Command(parts[1]))
    else if parts[3] == "current_limit" && |parts| == 4 then Some(CurrentLimit(parts[1]))
    else None
  }

  /** Parsing a built command topic returns what it was built from. */
  lemma ParseOfPrint(t: Topic)
    requires t.Command? || t.CurrentLimit?
    requires SlashFree(t.id) && t.id != ""
    ensures ParseCommandTopic(Print(t)) == Some(t)
  {
    LevelsOfPrint(t);
    LevelsOfSlashFree(t.id);
    assert Levels(Print(t)) == ["ocpp", t.id] + SuffixLevels(t);
  }

  /** Whatever is accepted is exactly the topic that would be built from it. */
  lemma PrintOfParse(topic: string)
    requires ParseCommandTopic(topic).Some?
    ensures var t := ParseCommandTopic(topic).value;
            (t.Command? || t.CurrentLimit?) && t.id != "" && SlashFree(t.id) && Print(t) == topic
  {
    var t := ParseCommandTopic(topic).value;
    var parts := Levels(topic);
    LevelsAreSlashFree(topic);
    assert parts[1] in parts;
    LevelsOfPrint(t);
    LevelsOfSlashFree(t.id);
    assert parts == Levels(Print(t));
    JoinLevels(topic);
    JoinLevels(Print(t));
  }

  /** Section 4.7.1.3 of MQTT 3.1.1: `+` stands for exactly one level. */
  predicate Matches(filter: seq<string>, topic: seq<string>) {
    && |filter| == |topic|
    && forall i :: 0 <= i < |filter| ==> filter[i] == "+" || filter[i] == topic[i]
  }

  /** The two filters the publisher subscribes to: the command topics with the
      charge point level left open. */
  predicate IsSubscription(filter: Topic) {
    filter == Command("+") || filter == CurrentLimit("+")
  }

  predicate SubscribedTo(parts: seq<string>) {
    || Matches(Levels(Print(Command("+"))), parts)
    || Matches(Levels(Print(CurrentLimit("+"))), parts)
  }

  lemma MatchesPattern(suffix: seq<string>, parts: seq<string>)
    requires "+" !in suffix
    ensures Matches(["ocpp", "+"] + suffix, parts)
       <==> |parts| == 2 + |suffix| && parts[0] == "ocpp" && parts[2..] == suffix
  {
    var pattern := ["ocpp", "+"] + suffix;
    assert "ocpp"[0] != "+"[0];
    assert forall i :: 0 <= i < |suffix| ==> pattern[i + 2] == suffix[i];
    if Matches(pattern, parts) {
      assert pattern[0] != "+";
      forall i | 0 <= i < |suffix| ensures parts[2..][i] == suffix[i] {
        assert pattern[i + 2] == suffix[i] && suffix[i] in suffix;
      }
    } else if |parts| == |pattern| && parts[0] == "ocpp" && parts[2..] == suffix {
      forall i | 0 <= i < |pattern| ensures pattern[i] == "+" || pattern[i] == parts[i] {
        assert i >= 2 ==> parts[i] == parts[2..][i - 2];
      }
    }
  }

  /** What matching one of the two filters means, level by level. */
  lemma MatchesSubscription(filter: Topic, parts: seq<string>)
    requires IsSubscription(filter)
    ensures Matches(Levels(Print(filter)), parts)
       <==> && |parts| == 2 + |SuffixLevels(filter)|
            && parts[0] == "ocpp" && parts[2..] == SuffixLevels(filter)
  {
    LevelsOfPrint(filter);
    NamesAreSlashFree();
    LevelsOfSlashFree(filter.id);
    assert Levels(Print(filter)) == ["ocpp", "+"] + SuffixLevels(filter);
    assert forall l :: l in SuffixLevels(filter) ==> |l| > 1;
    MatchesPattern(SuffixLevels(filter), parts);
  }

  lemma ParsedIffShaped(parts: seq<string>)
    requires |parts| > 0
    ensures ParseLevels(parts).Some?
       <==> && |parts| > 2 && parts[0] == "ocpp" && parts[1] != ""
            && (parts[2..] == ["command"] || parts[2..] == ["command", "current_limit"])
  {
    if |parts| == 3 {
      assert parts[2..] == [parts[2]];
    } else if |parts| == 4 {
      assert parts[2..] == [parts[2], parts[3]];
    }
  }

  /** A topic is accepted exactly when the broker would deliver it under one of
      the two subscriptions and its charge point level is not empty. */
  lemma AcceptedIffSubscribed(topic: string)
    ensures ParseCommandTopic(topic).Some?
       <==> SubscribedTo(Levels(topic)) && |Levels(topic)| > 1 && Levels(topic)[1] != ""
  {
    var parts := Levels(topic);
    ParsedIffShaped(parts);
    MatchesSubscription(Command("+"), parts);
    MatchesSubscription(CurrentLimit("+"), parts);
  }

  /** The proxy never takes its own result topic for a command, even when the
      charge point id contains slashes. */
  lemma ResultTopicIsNeverACommand(id: string)
    ensures ParseCommandTopic(Print(CommandResult(id))).None?
  {
    LevelsOfPrint(CommandResult(id));
    var parts := Levels(Print(CommandResult(id)));
    assert parts[|parts| - 1] == "result";
    assert "result"[0] != "command"[0] && "result"[0] != "current_limit"[0];
  }
}
