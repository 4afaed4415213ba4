/** Runs of a session, from its start, in which the code does other than its
    documentation says. */
module SessionExamples {
  import opened Prelude
  import opened LimitPolicy
  import opened Commands
  import opened LocalCalls
  import opened CommandDesk
  import opened Forwarding
  import opened Session
  import SessionCommands
  import SessionUpstream

  lemma RunOfSnoc(cfg: Config, s: State, inputs: seq<Input>, i: Input)
    ensures Run(cfg, s, inputs + [i]) == Step(cfg, Run(cfg, s, inputs), i)
  {
    assert (inputs + [i])[..|inputs|] == inputs;
  }

  lemma RunOfTwoMore(cfg: Config, s: State, inputs: seq<Input>, a: Input, b: Input)
    ensures Run(cfg, s, inputs + [a] + [b]) == Step(cfg, Step(cfg, Run(cfg, s, inputs), a), b)
  {
    RunOfSnoc(cfg, s, inputs, a);
    RunOfSnoc(cfg, s, inputs + [a], b);
  }

  lemma RunOfTwo(cfg: Config, s: State, a: Input, b: Input)
    ensures Run(cfg, s, [a, b]) == Step(cfg, Step(cfg, s, a), b)
  {
    RunOfSnoc(cfg, s, [], a);
    RunOfSnoc(cfg, s, [a], b);
    assert [] + [a] == [a] && [a] + [b] == [a, b];
  }

  lemma RunOfThree(cfg: Config, s: State, a: Input, b: Input, c: Input)
    ensures Run(cfg, s, [a, b, c]) == Step(cfg, Step(cfg, Step(cfg, s, a), b), c)
  {
    RunOfTwo(cfg, s, a, b);
    RunOfSnoc(cfg, s, [a, b], c);
    assert [a, b] + [c] == [a, b, c];
  }

  lemma RunOfFour(cfg: Config, s: State, a: Input, b: Input, c: Input, d: Input)
    ensures Run(cfg, s, [a, b, c, d]) == Step(cfg, Step(cfg, Step(cfg, Step(cfg, s, a), b), c), d)
  {
    RunOfThree(cfg, s, a, b, c);
    RunOfSnoc(cfg, s, [a, b, c], d);
    assert [a, b, c] + [d] == [a, b, c, d];
  }

  lemma RunOfFive(cfg: Config, s: State, a: Input, b: Input, c: Input, d: Input, e: Input)
    ensures Run(cfg, s, [a, b, c, d, e]) == Step(cfg, Step(cfg, Step(cfg, Step(cfg, Step(cfg, s, a), b), c), d), e)
  {
    RunOfFour(cfg, s, a, b, c, d);
    RunOfSnoc(cfg, s, [a, b, c, d], e);
    assert [a, b, c, d] + [e] == [a, b, c, d, e];
  }

  function Ask(id: string, now: real): Request {
    Request(id, GetConfiguration([]), Mqtt, now)
  }

  function Limit(now: real): Request {
    Request("limit", ClearCurrentLimit, Mqtt, now)
  }

  /** A session whose first connection attempt succeeds. */
  function Connected(cfg: Config, start: real): State {
    Init(cfg, start).(phase := Forwarding)
  }

  lemma ConnectsFirst(cfg: Config, start: real)
    ensures Step(cfg, Init(cfg, start), Input(start, ConnectOk(0))) == Connected(cfg, start)
  {
    assert Replayed([]) == [];
  }

  // ---- a late answer ----

  function FirstId(start: real): string {
    UniqueId(Millis(start), 1)
  }

  function FirstSent(start: real, r: Request): Sent {
    Sent(FirstId(start), r, Millis(start), 1, 1)
  }

  /** The one command taken is on its way to the charger. */
  function InFlightDesk(start: real, r: Request): Desk {
    Desk([], true, Calls([], Some(InFlight(r, PreparedCall(FirstId(start), GetConfigurationAction, None), start)), 1),
         [r], [r], [FirstSent(start, r)], [])
  }

  /** Taking a first command while nothing else holds the line. */
  lemma FirstCommandIsSent(cfg: Config, s: State, start: real)
    requires cfg.capacity > 0 && s.phase.Forwarding? && s.now == start && s.desk == EMPTY_DESK && !Held(s)
    ensures var r := Ask("ask", start);
            Step(cfg, Step(cfg, s, Input(start, Arrive(r))), Input(start, TakeCommand(true)))
              == s.(desk := InFlightDesk(start, r), line := s.line + [ProxySent(FirstId(start), start)])
  {
    var r := Ask("ask", start);
    var arrived := CommandDesk.Arrive(EMPTY_DESK, r);
    assert Step(cfg, s, Input(start, Arrive(r))) == s.(desk := arrived);
    assert Kept([], r) == [] && Displaced([], r, cfg.capacity) == [];
    assert Pushed([], r, cfg.capacity) == [r];
    var taken := TakeOne(arrived, cfg.capacity);
    assert taken == Desk([], true, Calls([r], None, 0), [r], [r], [], []);
    assert PrepareCall(cfg.charging, r, FirstId(start))
        == Some(PreparedCall(FirstId(start), GetConfigurationAction, None));
    assert Pump(cfg.charging, taken, start, true).desk == InFlightDesk(start, r);
  }

  function LateAnswer(start: real): Text {
    Parsed(Frame("late", CallResult(NoStatus), FirstId(start)))
  }

  /** A first connection and a first command. */
  function FirstCommandRun(start: real): seq<Input> {
    [Input(start, ConnectOk(0)), Input(start, Arrive(Ask("ask", start))), Input(start, TakeCommand(true))]
  }

  /** Nothing but the one command has happened. */
  predicate JustSent(s: State, start: real, r: Request) {
    s.phase.Forwarding? && s.now == start && s.desk == InFlightDesk(start, r) && s.pipe == EMPTY_PIPE
  }

  lemma FirstCommandRuns(cfg: Config, start: real)
    requires cfg.capacity > 0
    ensures JustSent(Run(cfg, Init(cfg, start), FirstCommandRun(start)), start, Ask("ask", start))
  {
    ConnectsFirst(cfg, start);
    RunOfThree(cfg, Init(cfg, start), Input(start, ConnectOk(0)), Input(start, Arrive(Ask("ask", start))),
               Input(start, TakeCommand(true)));
    FirstCommandIsSent(cfg, Connected(cfg, start), start);
  }

  function LateAnswerRun(cfg: Config, start: real): seq<Input> {
    var due := start + cfg.charging.commandTimeout;
    FirstCommandRun(start) + [Input(due, CommandTick(true))] + [Input(due, ChargerText(LateAnswer(start), true, true))]
  }

  /** Whatever led to the first command being in flight. */
  lemma AnswerComesTooLate(cfg: Config, s: State, inputs: seq<Input>, start: real, r: Request)
    requires cfg.charging.commandTimeout >= 0.0 && JustSent(Run(cfg, s, inputs), start, r)
    ensures var due := start + cfg.charging.commandTimeout;
            var t := Run(cfg, s, inputs + [Input(due, CommandTick(true))]
                                   + [Input(due, ChargerText(LateAnswer(start), true, true))]);
            && t.desk.sent == [FirstSent(start, r)] && t.desk.results == [Outcome(r, Timeout, None)]
            && t.pipe.delivered == [Delivery("late", 0, true)]
            && UNIQUE_ID_PREFIX <= LateAnswer(start).frame.uniqueId == t.desk.sent[0].uniqueId
  {
    var due := start + cfg.charging.commandTimeout;
    UniqueIdHasPrefix(Millis(start), 1);
    RunOfTwoMore(cfg, s, inputs, Input(due, CommandTick(true)), Input(due, ChargerText(LateAnswer(start), true, true)));
    AnsweredTooLate(cfg, Run(cfg, s, inputs), start, r);
  }

  /** A Call of the proxy's times out, and then the charger answers it: the answer,
      its id prefixed as every id of the proxy's, is what the Central System gets. */
  lemma LateAnswerIsDelivered(cfg: Config, start: real)
    requires cfg.capacity > 0 && cfg.charging.commandTimeout >= 0.0
    ensures var s := Run(cfg, Init(cfg, start), LateAnswerRun(cfg, start));
            && s.desk.sent == [FirstSent(start, Ask("ask", start))]
            && s.pipe.delivered == [Delivery("late", 0, true)]
            && s.desk.results == [Outcome(Ask("ask", start), Timeout, None)]
            && UNIQUE_ID_PREFIX <= LateAnswer(start).frame.uniqueId == s.desk.sent[0].uniqueId
  {
    FirstCommandRuns(cfg, start);
    AnswerComesTooLate(cfg, Init(cfg, start), FirstCommandRun(start), start, Ask("ask", start));
  }

  lemma AnsweredTooLate(cfg: Config, s: State, start: real, r: Request)
    requires s.phase.Forwarding? && s.now == start && cfg.charging.commandTimeout >= 0.0
    requires s.desk == InFlightDesk(start, r) && s.pipe == EMPTY_PIPE
    ensures var due := start + cfg.charging.commandTimeout;
            var t := Step(cfg, Step(cfg, s, Input(due, CommandTick(true))),
                          Input(due, ChargerText(LateAnswer(start), true, true)));
            && t.desk.sent == s.desk.sent && t.desk.results == [Outcome(r, Timeout, None)]
            && t.pipe.delivered == [Delivery("late", 0, true)]
  {
    var due := start + cfg.charging.commandTimeout;
    var ticked := Step(cfg, s, Input(due, CommandTick(true)));
    assert Expired(s.desk.calls, due, cfg.charging.commandTimeout) == [];
    assert Report([], Stale) == [];
    assert ticked.desk.calls.inFlight.None? && ticked.desk.calls.queued == [];
    assert ticked.desk.results == [Outcome(r, Timeout, None)];
  }

  // ---- a late command ----

  /** The charger hangs up, the session drains, and a command comes: it sits in the
      inbox, and no later input ever gives it a result. */
  lemma LateCommandIsNeverReported(cfg: Config, start: real, later: seq<Input>)
    requires cfg.capacity > 0
    ensures var r := Ask("late", start);
            var run := [Input(start, ConnectOk(0)), Input(start, ChargerClosed), Input(start, Teardown),
                        Input(start, Arrive(r))];
            var s := Run(cfg, Init(cfg, start), run);
            s.desk.arrived == [r] && s.desk.inbox == [r] && Run(cfg, s, later).desk.results == []
  {
    var r := Ask("late", start);
    var run := [Input(start, ConnectOk(0)), Input(start, ChargerClosed), Input(start, Teardown),
                Input(start, Arrive(r))];
    var s := Run(cfg, Init(cfg, start), run);
    ConnectsFirst(cfg, start);
    RunOfFour(cfg, Init(cfg, start), run[0], run[1], run[2], run[3]);
    DrainsEmpty(cfg, start);
    SessionCommands.LateCommandsAreLost(cfg, s, later);
  }

  lemma DrainsEmpty(cfg: Config, start: real)
    ensures var closed := Step(cfg, Connected(cfg, start), Input(start, ChargerClosed));
            Step(cfg, closed, Input(start, Teardown)) == Connected(cfg, start).(phase := Drained)
  {
    assert Close(EMPTY_DESK) == EMPTY_DESK;
  }

  // ---- a discarded text ----

  function DiscardRun(start: real, text: Text): seq<Input> {
    [Input(start, ConnectFailed), Input(start, ChargerText(text, true, true))]
  }

  /** The charger speaks while the session waits to try again: the text is read, and
      neither delivered nor kept, then or after any later inputs. */
  lemma TextWhileRetryingIsDiscarded(cfg: Config, start: real, text: Text, later: seq<Input>)
    requires cfg.window > 0.0
    ensures var s := Run(cfg, Init(cfg, start), DiscardRun(start, text));
            && s.pipe.read == [text] && s.pipe.delivered == [] && s.pipe.buffer == []
            && 0 !in SessionUpstream.Order(Run(cfg, s, later).pipe)
  {
    var failed := Step(cfg, Init(cfg, start), Input(start, ConnectFailed));
    RunOfSnoc(cfg, Init(cfg, start), [], Input(start, ConnectFailed));
    assert [] + [Input(start, ConnectFailed)] == [Input(start, ConnectFailed)];
    RunOfTwo(cfg, Init(cfg, start), Input(start, ConnectFailed), Input(start, ChargerText(text, true, true)));
    assert failed.phase.Retrying? && failed.pipe == EMPTY_PIPE && failed.now == start;
    SessionUpstream.FateIsDecidedOnReading(cfg, start, [Input(start, ConnectFailed)],
                                           Input(start, ChargerText(text, true, true)), later);
  }

  // ---- a reused id ----

  function CallFrame(id: string): Text {
    Parsed(Frame("call", Call("Heartbeat"), id))
  }

  /** The Central System's Call is unanswered and no time has passed, yet the proxy
      sends its own: the charger used the same id for a Call in between. */
  lemma ReusedIdFreesTheLine(cfg: Config, start: real, id: string)
    requires cfg.capacity > 0
    ensures var run := [Input(start, ConnectOk(0)), Input(start, CentralText(CallFrame(id), true)),
                        Input(start, ChargerText(CallFrame(id), true, true)),
                        Input(start, Arrive(Ask("ask", start))), Input(start, TakeCommand(true))];
            Run(cfg, Init(cfg, start), run).line ==
              [CentralCall(id, start), ChargerCall(id, start), ProxySent(FirstId(start), start)]
  {
    var run := [Input(start, ConnectOk(0)), Input(start, CentralText(CallFrame(id), true)),
                Input(start, ChargerText(CallFrame(id), true, true)),
                Input(start, Arrive(Ask("ask", start))), Input(start, TakeCommand(true))];
    ConnectsFirst(cfg, start);
    RunOfFive(cfg, Init(cfg, start), run[0], run[1], run[2], run[3], run[4]);
    var asked := Step(cfg, Connected(cfg, start), run[1]);
    IdIsReused(cfg, asked, start, id);
    FirstCommandIsSent(cfg, Step(cfg, asked, run[2]), start);
  }

  lemma IdIsReused(cfg: Config, s: State, start: real, id: string)
    requires s.phase.Forwarding? && s.now == start && s.desk == EMPTY_DESK && s.line == [CentralCall(id, start)]
    requires s.pipe.tracker == map[id := Pending("Heartbeat", CentralToCharger, start)]
    ensures var t := Step(cfg, s, Input(start, ChargerText(CallFrame(id), true, true)));
            && t.phase.Forwarding? && t.now == start && t.desk == EMPTY_DESK && !Held(t)
            && t.line == [CentralCall(id, start), ChargerCall(id, start)]
  {
    var relayed := RelayFrame(s, CallFrame(id).frame);
    assert relayed.pipe.tracker == map[id := Pending("Heartbeat", ChargerToCentral, start)];
    assert Send(cfg, relayed, true) == relayed.(line := relayed.line + []);
  }

  // ---- a limit called superseded that is not, and one superseded by an older one ----

  /** The charger is kept busy by a Call of the Central System's. */
  predicate Busy(s: State, start: real) {
    && s.phase.Forwarding? && s.now == start && Held(s)
    && s.desk.calls.inFlight.None? && s.desk.open && s.desk.inbox == []
  }

  function Offer(r: Request, start: real): seq<Input> {
    [Input(start, Arrive(r)), Input(start, TakeCommand(true))]
  }

  function Offers(r: Request, start: real, n: nat): seq<Input> {
    if n == 0 then [] else Offers(r, start, n - 1) + Offer(r, start)
  }

  lemma RunOfOffer(cfg: Config, s: State, inputs: seq<Input>, r: Request, start: real)
    ensures Run(cfg, s, inputs + Offer(r, start)) ==
            Step(cfg, Step(cfg, Run(cfg, s, inputs), Input(start, Arrive(r))), Input(start, TakeCommand(true)))
  {
    RunOfSnoc(cfg, s, inputs, Input(start, Arrive(r)));
    RunOfSnoc(cfg, s, inputs + [Input(start, Arrive(r))], Input(start, TakeCommand(true)));
    assert inputs + Offer(r, start) == inputs + [Input(start, Arrive(r))] + [Input(start, TakeCommand(true))];
  }

  /** A busy session queues what it is offered and sends nothing. */
  lemma OfferedWhileBusy(cfg: Config, s: State, r: Request, start: real)
    requires cfg.capacity > 0 && Busy(s, start)
    ensures var t := Step(cfg, Step(cfg, s, Input(start, Arrive(r))), Input(start, TakeCommand(true)));
            && Busy(t, start)
            && t.desk.calls.queued == Pushed(s.desk.calls.queued, r, cfg.capacity)
            && t.desk.taken == s.desk.taken + [r]
            && t.desk.results == s.desk.results + Report(Displaced(s.desk.calls.queued, r, cfg.capacity), Crowded)
  {}

  function Copies(r: Request, n: nat): seq<Request> {
    seq(n, i => r)
  }

  lemma OneMoreFits(cfg: Config, s: State, r: Request, start: real)
    requires Busy(s, start) && NotLimit(r) && |s.desk.calls.queued| < cfg.capacity
    ensures var t := Step(cfg, Step(cfg, s, Input(start, Arrive(r))), Input(start, TakeCommand(true)));
            Busy(t, start) && Queues(s.desk, t.desk, [r])
  {
    OfferedWhileBusy(cfg, s, r, start);
    assert Displaced(s.desk.calls.queued, r, cfg.capacity) == [];
  }

  /** `more` was taken and queued, and nothing reported. */
  predicate Queues(d: Desk, d': Desk, more: seq<Request>) {
    d'.calls.queued == d.calls.queued + more && d'.taken == d.taken + more && d'.results == d.results
  }

  /** A busy session `t` that has queued `r` `n` times more than `s` had. */
  predicate Fed(s: State, t: State, r: Request, start: real, n: nat) {
    Busy(t, start) && Queues(s.desk, t.desk, Copies(r, n))
  }

  lemma FeedOne(cfg: Config, s: State, t: State, r: Request, start: real, n: nat)
    requires NotLimit(r) && n > 0 && Fed(s, t, r, start, n - 1) && |s.desk.calls.queued| + n <= cfg.capacity
    ensures Fed(s, Step(cfg, Step(cfg, t, Input(start, Arrive(r))), Input(start, TakeCommand(true))), r, start, n)
  {
    OneMoreFits(cfg, t, r, start);
    assert Copies(r, n) == Copies(r, n - 1) + [r];
  }

  /** The session after being offered the same command `n` times. */
  function Offered(cfg: Config, s: State, r: Request, start: real, n: nat): State {
    if n == 0 then s
    else
      Step(cfg, Step(cfg, Offered(cfg, s, r, start, n - 1), Input(start, Arrive(r))),
           Input(start, TakeCommand(true)))
  }

  lemma {:induction false} RunOfOffers(cfg: Config, s: State, r: Request, start: real, n: nat)
    ensures Run(cfg, s, Offers(r, start, n)) == Offered(cfg, s, r, start, n)
  {
    if n > 0 {
      RunOfOffers(cfg, s, r, start, n - 1);
      RunOfOffer(cfg, s, Offers(r, start, n - 1), r, start);
    }
  }

  /** Offering one command that is not a limit again and again fills the queue. */
  lemma {:induction false} QueueFills(cfg: Config, s: State, r: Request, start: real, n: nat)
    requires Busy(s, start) && NotLimit(r)
    requires |s.desk.calls.queued| + n <= cfg.capacity
    ensures Fed(s, Offered(cfg, s, r, start, n), r, start, n)
  {
    if n > 0 {
      QueueFills(cfg, s, r, start, n - 1);
      FeedOne(cfg, s, Offered(cfg, s, r, start, n - 1), r, start, n);
    }
  }

  lemma {:induction false} NewestLimitBeforeCopies(limit: Request, r: Request, n: nat)
    requires IsLimit(limit) && NotLimit(r)
    ensures NewestLimit([limit] + Copies(r, n)) == Some(limit)
  {
    if n > 0 {
      NewestLimitBeforeCopies(limit, r, n - 1);
      assert [limit] + Copies(r, n) == ([limit] + Copies(r, n - 1)) + [r];
      NewestLimitOfSnoc([limit] + Copies(r, n - 1), r);
    }
  }

  lemma {:induction false} RunOfConcat(cfg: Config, s: State, a: seq<Input>, b: seq<Input>)
    ensures Run(cfg, s, a + b) == Run(cfg, Run(cfg, s, a), b)
  {
    if b == [] {
      assert a + b == a;
    } else {
      var n := |b| - 1;
      RunOfConcat(cfg, s, a, b[..n]);
      RunOfSnoc(cfg, s, a + b[..n], b[n]);
      RunOfSnoc(cfg, Run(cfg, s, a), b[..n], b[n]);
      assert a + b == (a + b[..n]) + [b[n]] && b == b[..n] + [b[n]];
    }
  }

  function OverflowRun(cfg: Config, start: real): seq<Input> {
    [Input(start, ConnectOk(0)), Input(start, CentralText(CallFrame("busy"), true))]
      + Offer(Limit(start), start) + Offers(Ask("ask", start), start, cfg.capacity)
  }

  /** One limit command and then as many others as the queue holds: the limit is
      reported superseded, and no other limit command was ever taken. */
  lemma OverflowCallsALimitSuperseded(cfg: Config, start: real)
    requires cfg.capacity > 0
    ensures var d := Run(cfg, Init(cfg, start), OverflowRun(cfg, start)).desk;
            && d.results == [Outcome(Limit(start), Superseded, None)]
            && d.taken == [Limit(start)] + Copies(Ask("ask", start), cfg.capacity)
            && NewestLimit(d.taken) == Some(Limit(start))
  {
    var limit, r := Limit(start), Ask("ask", start);
    BusyAtOnce(cfg, start);
    var held := [Input(start, ConnectOk(0)), Input(start, CentralText(CallFrame("busy"), true))];
    RunOfOffer(cfg, Init(cfg, start), held, limit, start);
    OfferedWhileBusy(cfg, Run(cfg, Init(cfg, start), held), limit, start);
    var s := Run(cfg, Init(cfg, start), held + Offer(limit, start));
    assert Kept([], limit) == [] && Displaced([], limit, cfg.capacity) == [];
    assert s.desk.calls.queued == [limit] && s.desk.taken == [limit] && s.desk.results == [];
    LastOfferOverflows(cfg, s, start);
    RunOfOffers(cfg, s, r, start, cfg.capacity);
    RunOfConcat(cfg, Init(cfg, start), held + Offer(limit, start), Offers(r, start, cfg.capacity));
    NewestLimitBeforeCopies(limit, r, cfg.capacity);
  }

  lemma BusyAtOnce(cfg: Config, start: real)
    ensures var held := [Input(start, ConnectOk(0)), Input(start, CentralText(CallFrame("busy"), true))];
            var s := Run(cfg, Init(cfg, start), held);
            Busy(s, start) && s.desk == EMPTY_DESK
  {
    ConnectsFirst(cfg, start);
    RunOfTwo(cfg, Init(cfg, start), Input(start, ConnectOk(0)), Input(start, CentralText(CallFrame("busy"), true)));
    var s := Step(cfg, Connected(cfg, start), Input(start, CentralText(CallFrame("busy"), true)));
    assert "busy" in s.pipe.tracker && s.pipe.tracker["busy"] == Pending("Heartbeat", CentralToCharger, start);
  }

  lemma FullQueueDropsTheLimit(limit: Request, r: Request, capacity: nat)
    requires capacity > 0 && IsLimit(limit) && NotLimit(r)
    ensures Report(Displaced([limit] + Copies(r, capacity - 1), r, capacity), Crowded)
         == [Outcome(limit, Superseded, None)]
  {
    assert Displaced([limit] + Copies(r, capacity - 1), r, capacity) == [limit];
  }

  /** One limit command and `n` others, all waiting. */
  predicate Filled(s: State, start: real, n: nat) {
    && Busy(s, start) && s.desk.results == []
    && s.desk.calls.queued == [Limit(start)] + Copies(Ask("ask", start), n)
    && s.desk.taken == [Limit(start)] + Copies(Ask("ask", start), n)
  }

  lemma FillsUp(cfg: Config, s: State, start: real, n: nat)
    requires n < cfg.capacity && Busy(s, start)
    requires s.desk.calls.queued == [Limit(start)] && s.desk.taken == [Limit(start)] && s.desk.results == []
    ensures Filled(Offered(cfg, s, Ask("ask", start), start, n), start, n)
  {
    QueueFills(cfg, s, Ask("ask", start), start, n);
  }

  lemma OverflowsWhenFull(cfg: Config, s: State, start: real)
    requires cfg.capacity > 0 && Filled(s, start, cfg.capacity - 1)
    ensures var r := Ask("ask", start);
            var d := Step(cfg, Step(cfg, s, Input(start, Arrive(r))), Input(start, TakeCommand(true))).desk;
            && d.results == [Outcome(Limit(start), Superseded, None)]
            && d.taken == [Limit(start)] + Copies(r, cfg.capacity)
  {
    var r := Ask("ask", start);
    OfferedWhileBusy(cfg, s, r, start);
    FullQueueDropsTheLimit(Limit(start), r, cfg.capacity);
    assert Copies(r, cfg.capacity - 1) + [r] == Copies(r, cfg.capacity);
  }

  lemma LastOfferOverflows(cfg: Config, s: State, start: real)
    requires cfg.capacity > 0 && Busy(s, start)
    requires s.desk.calls.queued == [Limit(start)] && s.desk.taken == [Limit(start)] && s.desk.results == []
    ensures var r := Ask("ask", start);
            var d := Offered(cfg, s, r, start, cfg.capacity).desk;
            && d.results == [Outcome(Limit(start), Superseded, None)]
            && d.taken == [Limit(start)] + Copies(r, cfg.capacity)
  {
    var r, n := Ask("ask", start), cfg.capacity - 1;
    FillsUp(cfg, s, start, n);
    OverflowsWhenFull(cfg, Offered(cfg, s, r, start, n), start);
  }

  function UserLimit(start: real): Request {
    Request("user", SetCurrentLimit(Finite(10.0)), Mqtt, start)
  }

  function OldLimit(start: real): Request {
    Request("reapply", SetCurrentLimit(Finite(16.0)), Reapply, start)
  }

  /** A controller asks for 10 A while the charger is busy, and then the publisher sends
      the 16 A accepted earlier again: the 10 A are reported superseded, and 16 A are
      what is left to send. */
  lemma ReapplyOverridesTheUser(cfg: Config, start: real)
    requires cfg.capacity > 0
    ensures var run := [Input(start, ConnectOk(0)), Input(start, CentralText(CallFrame("busy"), true))]
                         + Offer(UserLimit(start), start) + Offer(OldLimit(start), start);
            var d := Run(cfg, Init(cfg, start), run).desk;
            && d.results == [Outcome(UserLimit(start), Superseded, None)]
            && d.calls.queued == [OldLimit(start)] && d.taken == [UserLimit(start), OldLimit(start)]
  {
    var held := [Input(start, ConnectOk(0)), Input(start, CentralText(CallFrame("busy"), true))];
    BusyAtOnce(cfg, start);
    RunOfOffer(cfg, Init(cfg, start), held, UserLimit(start), start);
    RunOfOffer(cfg, Init(cfg, start), held + Offer(UserLimit(start), start), OldLimit(start), start);
    TakesBothLimits(cfg, Run(cfg, Init(cfg, start), held), start);
  }

  lemma TakesBothLimits(cfg: Config, s: State, start: real)
    requires cfg.capacity > 0 && Busy(s, start) && s.desk == EMPTY_DESK
    ensures var t := Step(cfg, Step(cfg, s, Input(start, Arrive(UserLimit(start)))), Input(start, TakeCommand(true)));
            var arrived := Step(cfg, t, Input(start, Arrive(OldLimit(start))));
            var d := Step(cfg, arrived, Input(start, TakeCommand(true))).desk;
            && d.results == [Outcome(UserLimit(start), Superseded, None)]
            && d.calls.queued == [OldLimit(start)] && d.taken == [UserLimit(start), OldLimit(start)]
  {
    var user, old' := UserLimit(start), OldLimit(start);
    var t := Step(cfg, Step(cfg, s, Input(start, Arrive(user))), Input(start, TakeCommand(true)));
    OfferedWhileBusy(cfg, s, user, start);
    assert Kept([], user) == [] && Displaced([], user, cfg.capacity) == [];
    assert t.desk.calls.queued == [user];
    OfferedWhileBusy(cfg, t, old', start);
    LimitMakesWay(user, old', cfg.capacity);
  }

  lemma LimitMakesWay(limit: Request, newer: Request, capacity: nat)
    requires capacity > 0 && IsLimit(limit) && IsLimit(newer)
    ensures Pushed([limit], newer, capacity) == [newer]
    ensures Report(Displaced([limit], newer, capacity), Crowded) == [Outcome(limit, Superseded, None)]
  {
    assert [limit][..0] == [];
    assert Filter(NotLimit, [limit]) == [] && Filter(IsLimit, [limit]) == [limit];
  }
}
