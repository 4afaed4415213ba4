/** What every run of a session does with the commands it is given. */
module SessionCommands {
  import opened Prelude
  import opened Commands
  import opened LocalCalls
  import opened CommandDesk
  import opened Session

  /** The command log is in order, and nothing is held once the drain is done. */
  ghost predicate CommandsInv(cfg: Config, s: State) {
    && DeskInv(s.desk, cfg.capacity)
    && (s.phase.Drained? ==> Idle(s.desk.calls))
  }

  lemma ArriveKeeps(d: Desk, r: Request, capacity: nat)
    requires DeskInv(d, capacity)
    ensures DeskInv(CommandDesk.Arrive(d, r), capacity)
  {
    assert d.arrived + [r] == d.taken + (d.inbox + [r]);
  }

  lemma SendKeeps(cfg: Config, s: State, alive: bool)
    requires DeskInv(s.desk, cfg.capacity) && !s.phase.Drained?
    ensures CommandsInv(cfg, Send(cfg, s, alive))
  {
    SendLocalKeeps(cfg.charging, s.desk, Held(s), s.now, alive, cfg.capacity);
  }

  predicate TouchesDesk(e: Event) {
    e.Arrive? || e.InboxClosed? || e.ChargerText? || e.TakeCommand? || e.CommandTick? || e.Teardown?
  }

  lemma OthersLeaveTheDesk(cfg: Config, s: State, i: Input)
    requires !TouchesDesk(i.event)
    ensures Step(cfg, s, i).desk == s.desk
    ensures Step(cfg, s, i).phase.Drained? ==> s.phase.Drained?
  {}

  lemma ClosingTheInboxKeeps(d: Desk, capacity: nat)
    requires DeskInv(d, capacity)
    ensures DeskInv(d.(open := false), capacity)
  {}

  lemma StepKeepsCommands(cfg: Config, s: State, i: Input)
    requires CommandsInv(cfg, s) && cfg.capacity > 0
    ensures CommandsInv(cfg, Step(cfg, s, i))
  {
    if !TouchesDesk(i.event) {
      OthersLeaveTheDesk(cfg, s, i);
    } else if Enabled(cfg, s, i) {
      DeskEventKeeps(cfg, s.(now := i.at), i.event);
    }
  }

  lemma DeskEventKeeps(cfg: Config, s: State, e: Event)
    requires CommandsInv(cfg, s) && cfg.capacity > 0 && TouchesDesk(e)
    requires e.ChargerText? || e.TakeCommand? || e.CommandTick? ==> !s.phase.Drained?
    ensures CommandsInv(cfg, Act(cfg, s, e))
  {
    if e.ChargerText? {
      ChargerTextKeeps(cfg, s, e);
    } else if e.TakeCommand? {
      TakeCommandKeeps(cfg, s, e);
    } else if e.CommandTick? {
      CommandTickKeeps(cfg, s, e.alive);
    } else {
      InboxEventKeeps(cfg, s, e);
    }
  }

  lemma InboxEventKeeps(cfg: Config, s: State, e: Event)
    requires CommandsInv(cfg, s) && (e.Arrive? || e.InboxClosed? || e.Teardown?)
    ensures CommandsInv(cfg, Act(cfg, s, e))
  {
    match e
    case Arrive(request) => ArriveKeeps(s.desk, request, cfg.capacity);
    case InboxClosed => ClosingTheInboxKeeps(s.desk, cfg.capacity);
    case Teardown => CloseKeeps(s.desk, cfg.capacity);
  }

  lemma TakeCommandKeeps(cfg: Config, s: State, e: Event)
    requires CommandsInv(cfg, s) && cfg.capacity > 0 && e.TakeCommand? && !s.phase.Drained?
    ensures CommandsInv(cfg, Act(cfg, s, e))
  {
    if s.desk.inbox != [] {
      var taken := TakeOne(s.desk, cfg.capacity);
      TakeOneKeeps(s.desk, cfg.capacity);
      SendKeeps(cfg, s.(desk := taken), e.alive);
    }
  }

  lemma ChargerTextKeeps(cfg: Config, s: State, e: Event)
    requires CommandsInv(cfg, s) && e.ChargerText? && !s.phase.Drained?
    ensures CommandsInv(cfg, Act(cfg, s, e))
  {
    if s.phase.Forwarding? && AnswersProxy(s, e.text) {
      AnswerKeeps(s.desk, cfg.capacity, e.text.frame.messageType);
      SendKeeps(cfg, Consume(s, e.text.frame), e.alive);
    } else if s.phase.Forwarding? && e.text.Parsed? {
      SendKeeps(cfg, RelayFrame(s, e.text.frame), e.alive);
    }
  }

  lemma CommandTickKeeps(cfg: Config, s: State, alive: bool)
    requires CommandsInv(cfg, s) && !s.phase.Drained?
    ensures CommandsInv(cfg, OnCommandTick(cfg, s, alive))
  {
    ExpireKeeps(s.desk, cfg.capacity, s.now, cfg.charging.commandTimeout);
    SendKeeps(cfg, s.(desk := ExpireDesk(s.desk, s.now, cfg.charging.commandTimeout),
                      line := s.line + TimedOut(s, cfg.charging.commandTimeout)), alive);
  }

  lemma {:induction false} RunKeepsCommands(cfg: Config, start: real, inputs: seq<Input>)
    requires cfg.capacity > 0
    ensures CommandsInv(cfg, Run(cfg, Init(cfg, start), inputs))
  {
    if inputs != [] {
      RunKeepsCommands(cfg, start, inputs[..|inputs| - 1]);
      StepKeepsCommands(cfg, Run(cfg, Init(cfg, start), inputs[..|inputs| - 1]), inputs[|inputs| - 1]);
    }
  }

  // ---- main results ----

  /** Conservation: in every reachable state each request the session has taken
      is reported, queued or in flight, exactly once. */
  lemma CommandsAreConserved(cfg: Config, start: real, inputs: seq<Input>)
    requires cfg.capacity > 0
    ensures var d := Run(cfg, Init(cfg, start), inputs).desk;
            && multiset(d.taken) == Bag(d.results) + multiset(d.calls.queued) + FlightBag(d.calls.inFlight)
            && d.arrived == d.taken + d.inbox
  {
    RunKeepsCommands(cfg, start, inputs);
  }

  /** After teardown every request taken has exactly one result, and the only
      requests that arrived without one are those still in the inbox. */
  lemma EveryTakenCommandIsReported(cfg: Config, start: real, inputs: seq<Input>)
    requires cfg.capacity > 0 && Run(cfg, Init(cfg, start), inputs).phase.Drained?
    ensures var d := Run(cfg, Init(cfg, start), inputs).desk;
            && multiset(d.taken) == Bag(d.results)
            && multiset(d.arrived) == Bag(d.results) + multiset(d.inbox)
  {
    RunKeepsCommands(cfg, start, inputs);
    var d := Run(cfg, Init(cfg, start), inputs).desk;
    assert multiset(d.arrived) == multiset(d.taken) + multiset(d.inbox);
  }

  /** A command that lands in the inbox after the drain never gets a result:
      from then on nothing is taken and nothing is reported. */
  lemma {:induction false} LateCommandsAreLost(cfg: Config, s: State, inputs: seq<Input>)
    requires s.phase.Drained?
    ensures var t := Run(cfg, s, inputs);
            t.phase.Drained? && t.desk.results == s.desk.results && t.desk.taken == s.desk.taken
  {
    if inputs != [] {
      LateCommandsAreLost(cfg, s, inputs[..|inputs| - 1]);
    }
  }

  /** The queue stays within capacity, holds at most one limit command and keeps
      arrival order; a queued limit command is the newest one taken. */
  lemma QueueIsCoalesced(cfg: Config, start: real, inputs: seq<Input>)
    requires cfg.capacity > 0
    ensures Coalesced(Run(cfg, Init(cfg, start), inputs).desk, cfg.capacity)
  {
    RunKeepsCommands(cfg, start, inputs);
  }

  /** Last limit wins: any limit command sent was, when it was sent, the newest
      limit command the session had taken. */
  lemma LastLimitWins(cfg: Config, start: real, inputs: seq<Input>, k: nat)
    requires cfg.capacity > 0
    requires var d := Run(cfg, Init(cfg, start), inputs).desk; k < |d.sent| && IsLimit(d.sent[k].request)
    ensures var d := Run(cfg, Init(cfg, start), inputs).desk;
            d.sent[k].known <= |d.taken| && NewestLimit(d.taken[..d.sent[k].known]) == Some(d.sent[k].request)
  {
    RunKeepsCommands(cfg, start, inputs);
    var d := Run(cfg, Init(cfg, start), inputs).desk;
    assert WellSent(d.sent[k], d.taken);
  }

  /** Every id sent is built from the clock and a sequence number of its own, and
      fits the 36 characters of section 4.1.4 of OCPP-J 1.6 while the two numbers
      have the stated size. */
  lemma EveryUniqueIdFits(cfg: Config, start: real, inputs: seq<Input>, k: nat)
    requires cfg.capacity > 0 && k < |Run(cfg, Init(cfg, start), inputs).desk.sent|
    ensures var x := Run(cfg, Init(cfg, start), inputs).desk.sent[k];
            && x.uniqueId == UniqueId(x.millis, x.number)
            && (x.millis < Power10(13) && x.number < Power10(16) ==> |x.uniqueId| <= 36)
  {
    RunKeepsCommands(cfg, start, inputs);
    var d := Run(cfg, Init(cfg, start), inputs).desk;
    assert WellSent(d.sent[k], d.taken);
    if d.sent[k].millis < Power10(13) && d.sent[k].number < Power10(16) {
      UniqueIdFits(d.sent[k].millis, d.sent[k].number);
    }
  }

  /** Ids are never reused within a session. */
  lemma UniqueIdsAreDistinct(cfg: Config, start: real, inputs: seq<Input>, j: nat, k: nat)
    requires cfg.capacity > 0 && j < k < |Run(cfg, Init(cfg, start), inputs).desk.sent|
    ensures var sent := Run(cfg, Init(cfg, start), inputs).desk.sent;
            sent[j].uniqueId != sent[k].uniqueId
  {
    RunKeepsCommands(cfg, start, inputs);
    SentIdsDiffer(Run(cfg, Init(cfg, start), inputs).desk, cfg.capacity, j, k);
  }

  /** Every result derived from an answer reports the request whose own Call
      carried the answered id, however late other answers arrive. */
  lemma AnswersReportTheirOwnRequest(cfg: Config, start: real, inputs: seq<Input>, o: Outcome)
    requires cfg.capacity > 0
    requires o in Run(cfg, Init(cfg, start), inputs).desk.results && o.answerTo.Some?
    ensures var sent := Run(cfg, Init(cfg, start), inputs).desk.sent;
            && (exists k :: 0 <= k < |sent| && sent[k].uniqueId == o.answerTo.value)
            && (forall k :: 0 <= k < |sent| && sent[k].uniqueId == o.answerTo.value ==> sent[k].request == o.request)
  {
    RunKeepsCommands(cfg, start, inputs);
    AnswersAreAttributed(Run(cfg, Init(cfg, start), inputs).desk, cfg.capacity, o);
  }
}
