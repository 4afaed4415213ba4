/** What the results of a session say: when the label Superseded is right, and how
    long a command waits for one. */
module SessionResults {
  import opened Prelude
  import opened Commands
  import opened LocalCalls
  import opened CommandDesk
  import opened Session
  import opened SessionCommands
  import opened SessionLine

  // ---- the logs only grow ----

  predicate Grows(d: Desk, d': Desk) {
    d.arrived <= d'.arrived && d.taken <= d'.taken && d.results <= d'.results
  }

  /** None of the results added calls its request superseded. */
  predicate NoneSuperseded(d: Desk, d': Desk) {
    forall k :: |d.results| <= k < |d'.results| ==> !d'.results[k].status.Superseded?
  }

  lemma {:induction false} PumpGrows(charging: Charging, d: Desk, now: real, alive: bool)
    ensures var d' := Pump(charging, d, now, alive).desk;
            Grows(d, d') && NoneSuperseded(d, d') && d'.taken == d.taken
    decreases |d.calls.queued|
  {
    if d.calls.queued != [] && PrepareCall(charging, d.calls.queued[0], NextId(d, now)).None? {
      PumpGrows(charging, Popped(d, Invalid), now, alive);
    }
  }

  lemma SendGrows(cfg: Config, s: State, alive: bool)
    ensures var d' := Send(cfg, s, alive).desk;
            Grows(s.desk, d') && NoneSuperseded(s.desk, d') && d'.taken == s.desk.taken
  {
    PumpGrows(cfg.charging, s.desk, s.now, alive);
  }

  /** What a tick does before it sends. */
  function Swept(cfg: Config, s: State): State {
    s.(desk := ExpireDesk(s.desk, s.now, cfg.charging.commandTimeout),
       line := s.line + TimedOut(s, cfg.charging.commandTimeout))
  }

  lemma OtherEventGrows(cfg: Config, s: State, e: Event)
    requires !e.TakeCommand?
    ensures var d' := Act(cfg, s, e).desk; Grows(s.desk, d') && NoneSuperseded(s.desk, d')
  {
    if e.ChargerText? {
      ChargerTextGrows(cfg, s, e);
    } else if e.CommandTick? {
      TickGrows(cfg, s, e);
    } else {
      SilentEventGrows(cfg, s, e);
    }
  }

  lemma ChargerTextGrows(cfg: Config, s: State, e: Event)
    requires e.ChargerText?
    ensures var d' := Act(cfg, s, e).desk; Grows(s.desk, d') && NoneSuperseded(s.desk, d')
  {
    if AnswersProxy(s, e.text) {
      SendGrows(cfg, Consume(s, e.text.frame), e.alive);
    } else if e.text.Parsed? {
      SendGrows(cfg, RelayFrame(s, e.text.frame), e.alive);
    }
  }

  lemma TickGrows(cfg: Config, s: State, e: Event)
    requires e.CommandTick?
    ensures var d' := Act(cfg, s, e).desk; Grows(s.desk, d') && NoneSuperseded(s.desk, d')
  {
    SendGrows(cfg, Swept(cfg, s), e.alive);
  }

  lemma SilentEventGrows(cfg: Config, s: State, e: Event)
    requires !e.TakeCommand? && !e.ChargerText? && !e.CommandTick?
    ensures var d' := Act(cfg, s, e).desk; Grows(s.desk, d') && NoneSuperseded(s.desk, d')
  {}

  lemma TakeCommandGrows(cfg: Config, s: State, alive: bool)
    requires s.desk.inbox != []
    ensures var d, taken, d' := s.desk, TakeOne(s.desk, cfg.capacity), Act(cfg, s, TakeCommand(alive)).desk;
            && Grows(d, taken) && Grows(taken, d') && NoneSuperseded(taken, d')
            && d'.taken == taken.taken
  {
    SendGrows(cfg, s.(desk := TakeOne(s.desk, cfg.capacity)), alive);
  }

  lemma StepGrows(cfg: Config, s: State, i: Input)
    ensures Grows(s.desk, Step(cfg, s, i).desk)
  {
    if Enabled(cfg, s, i) {
      if i.event.TakeCommand? {
        TakeCommandGrows(cfg, s.(now := i.at), i.event.alive);
      } else {
        OtherEventGrows(cfg, s.(now := i.at), i.event);
      }
    }
  }

  // ---- the label Superseded ----

  /** A result that calls its request superseded by a newer limit although the step
      took none: the request is still the newest limit command taken. */
  predicate Mislabelled(d: Desk, d': Desk, k: nat)
    requires k < |d'.results| && d.taken <= d'.taken
  {
    && d'.results[k].status.Superseded?
    && NewestLimit(d'.taken) == Some(d'.results[k].request)
    && forall x :: x in d'.taken[|d.taken|..] ==> NotLimit(x)
  }

  /** A result that calls its request superseded because the step took a newer limit
      command in its place. */
  predicate RightlySuperseded(d: Desk, d': Desk, k: nat)
    requires k < |d'.results|
  {
    && NewestLimit(d.taken) == Some(d'.results[k].request)
    && d.taken <= d'.taken && |d'.taken| == |d.taken| + 1 && IsLimit(d'.taken[|d.taken|])
  }

  /** The full queue gives way to a command that is not a limit, and its oldest
      entry is one. */
  predicate DropsALimit(cfg: Config, s: State, i: Input) {
    && Enabled(cfg, s, i) && i.event.TakeCommand? && NotLimit(s.desk.inbox[0])
    && s.desk.calls.queued != [] && |s.desk.calls.queued| >= cfg.capacity && IsLimit(s.desk.calls.queued[0])
  }

  predicate NewlySuperseded(d: Desk, d': Desk, k: nat) {
    |d.results| <= k < |d'.results| && d'.results[k].status.Superseded?
  }

  /** What a displaced request says about the queue it left. */
  lemma DisplacedLimit(d: Desk, capacity: nat, q: Request)
    requires DeskInv(d, capacity) && capacity > 0 && d.inbox != []
    requires q in Displaced(d.calls.queued, d.inbox[0], capacity) && IsLimit(q)
    ensures q in d.calls.queued && NewestLimit(d.taken) == Some(q)
    ensures NotLimit(d.inbox[0]) ==> |d.calls.queued| >= capacity && q == d.calls.queued[0]
  {
    var kept := Kept(d.calls.queued, d.inbox[0]);
    assert forall x :: x in kept[..Overflow(kept, capacity)] ==> x in kept;
    assert q in d.calls.queued;
  }

  /** The results `TakeOne` adds are about the displaced requests. */
  lemma TakenReports(d: Desk, capacity: nat, k: nat)
    requires d.inbox != [] && NewlySuperseded(d, TakeOne(d, capacity), k)
    ensures var q := TakeOne(d, capacity).results[k].request;
            IsLimit(q) && q in Displaced(d.calls.queued, d.inbox[0], capacity)
  {
    var displaced := Displaced(d.calls.queued, d.inbox[0], capacity);
    assert TakeOne(d, capacity).results[k] == Report(displaced, Crowded)[k - |d.results|];
    assert displaced[k - |d.results|] in displaced;
  }

  lemma TakenLabels(d: Desk, capacity: nat, k: nat)
    requires DeskInv(d, capacity) && capacity > 0 && d.inbox != []
    requires NewlySuperseded(d, TakeOne(d, capacity), k)
    ensures var d' := TakeOne(d, capacity);
            if NotLimit(d.inbox[0]) then
              Mislabelled(d, d', k) && |d.calls.queued| >= capacity && IsLimit(d.calls.queued[0])
            else
              RightlySuperseded(d, d', k) && !Mislabelled(d, d', k)
  {
    var d', r := TakeOne(d, capacity), d.inbox[0];
    TakenReports(d, capacity, k);
    DisplacedLimit(d, capacity, d'.results[k].request);
    NewestLimitOfSnoc(d.taken, r);
    assert d'.taken[|d.taken|..] == [r];
    assert r in d'.taken[|d.taken|..];
  }

  lemma DroppingMislabels(d: Desk, capacity: nat)
    requires DeskInv(d, capacity) && capacity > 0 && d.inbox != []
    requires NotLimit(d.inbox[0]) && |d.calls.queued| >= capacity && IsLimit(d.calls.queued[0])
    ensures var d' := TakeOne(d, capacity);
            |d.results| < |d'.results| && Mislabelled(d, d', |d.results|)
  {
    var q := d.calls.queued[0];
    assert Displaced(d.calls.queued, d.inbox[0], capacity) == [q];
    assert q in d.calls.queued;
    assert TakeOne(d, capacity).results == d.results + [Outcome(q, Superseded, None)];
    NewestLimitOfSnoc(d.taken, d.inbox[0]);
    assert TakeOne(d, capacity).taken[|d.taken|..] == [d.inbox[0]];
  }

  /** The same labels seen after the sending that follows in the same step. */
  lemma LabelsCarry(d: Desk, taken: Desk, d': Desk, k: nat)
    requires Grows(d, taken) && Grows(taken, d') && NoneSuperseded(taken, d') && d'.taken == taken.taken
    ensures NewlySuperseded(d, d', k) <==> NewlySuperseded(d, taken, k)
    ensures NewlySuperseded(d, d', k) ==> d'.results[k] == taken.results[k]
  {
    assert k < |taken.results| ==> d'.results[k] == taken.results[k];
  }

  lemma StepLabels(cfg: Config, s: State, i: Input, k: nat)
    requires DeskInv(s.desk, cfg.capacity) && cfg.capacity > 0
    requires NewlySuperseded(s.desk, Step(cfg, s, i).desk, k)
    ensures var d' := Step(cfg, s, i).desk;
            && Grows(s.desk, d')
            && if DropsALimit(cfg, s, i) then Mislabelled(s.desk, d', k)
               else RightlySuperseded(s.desk, d', k) && !Mislabelled(s.desk, d', k)
  {
    StepGrows(cfg, s, i);
    var t := s.(now := i.at);
    if i.event.TakeCommand? {
      TakeCommandGrows(cfg, t, i.event.alive);
      LabelsCarry(s.desk, TakeOne(s.desk, cfg.capacity), Step(cfg, s, i).desk, k);
      TakenLabels(s.desk, cfg.capacity, k);
    } else {
      OtherEventGrows(cfg, t, i.event);
      assert false;
    }
  }

  lemma DropIsMislabelled(cfg: Config, s: State, i: Input)
    requires DeskInv(s.desk, cfg.capacity) && cfg.capacity > 0 && DropsALimit(cfg, s, i)
    ensures var d' := Step(cfg, s, i).desk;
            && Grows(s.desk, d') && NewlySuperseded(s.desk, d', |s.desk.results|)
            && Mislabelled(s.desk, d', |s.desk.results|)
  {
    StepGrows(cfg, s, i);
    TakeCommandGrows(cfg, s.(now := i.at), i.event.alive);
    LabelsCarry(s.desk, TakeOne(s.desk, cfg.capacity), Step(cfg, s, i).desk, |s.desk.results|);
    DroppingMislabels(s.desk, cfg.capacity);
  }

  // ---- a result within two timeouts ----

  lemma BagGrows(a: seq<Outcome>, b: seq<Outcome>)
    requires a <= b
    ensures Bag(a) <= Bag(b)
  {
    assert b == a + b[|a|..];
    BagConcat(a, b[|a|..]);
  }

  lemma StepGrowsBag(cfg: Config, s: State, i: Input)
    ensures Bag(s.desk.results) <= Bag(Step(cfg, s, i).desk.results)
  {
    StepGrows(cfg, s, i);
    BagGrows(s.desk.results, Step(cfg, s, i).desk.results);
  }

  /** Reported once more than in `d`. */
  predicate OnceMore(d: Desk, d': Desk, r: Request) {
    Bag(d'.results)[r] > Bag(d.results)[r]
  }

  lemma ReportedThenSent(cfg: Config, s: State, reported: State, o: Outcome, alive: bool)
    requires s.desk.results + [o] <= reported.desk.results
    ensures OnceMore(s.desk, Send(cfg, reported, alive).desk, o.request)
  {
    SendGrows(cfg, reported, alive);
    BagOne(s.desk.results, o);
    BagGrows(s.desk.results + [o], Send(cfg, reported, alive).desk.results);
  }

  lemma OverdueIsReported(cfg: Config, s: State, alive: bool)
    requires Overdue(s.desk.calls.inFlight, s.now, cfg.charging.commandTimeout)
    ensures OnceMore(s.desk, OnCommandTick(cfg, s, alive).desk, s.desk.calls.inFlight.value.request)
  {
    var d := s.desk;
    var expired := Report(Expired(d.calls, s.now, cfg.charging.commandTimeout), Stale);
    var o := Outcome(d.calls.inFlight.value.request, Timeout, None);
    assert Swept(cfg, s).desk.results == d.results + expired + [o];
    SendGrows(cfg, Swept(cfg, s), alive);
    BagConcat(d.results, expired);
    BagOne(d.results + expired, o);
    BagGrows(d.results + expired + [o], OnCommandTick(cfg, s, alive).desk.results);
  }

  lemma CloseReportsTheCall(d: Desk)
    requires d.calls.inFlight.Some?
    ensures OnceMore(d, Close(d), d.calls.inFlight.value.request)
  {
    var queued, late := Report(d.calls.queued, Over), Lapsed(d.calls.inFlight);
    BagConcat(d.results, queued);
    BagConcat(d.results + queued, late);
    BagConcat(d.results + queued + late, Report(d.inbox, Over));
    BagLapsed(d.calls.inFlight);
  }

  lemma TickReportsTheCall(cfg: Config, s: State, e: Event)
    requires e.CommandTick? && Overdue(s.desk.calls.inFlight, s.now, cfg.charging.commandTimeout)
    ensures OnceMore(s.desk, Act(cfg, s, e).desk, s.desk.calls.inFlight.value.request)
  {
    OverdueIsReported(cfg, s, e.alive);
  }

  lemma TeardownReportsTheCall(cfg: Config, s: State, e: Event)
    requires e.Teardown? && s.desk.calls.inFlight.Some?
    ensures OnceMore(s.desk, Act(cfg, s, e).desk, s.desk.calls.inFlight.value.request)
  {
    CloseReportsTheCall(s.desk);
  }

  /** A Call in flight stays so until its own request is reported. */
  lemma EventEndsCallsReported(cfg: Config, s: State, e: Event)
    requires s.desk.calls.inFlight.Some?
    ensures var d' := Act(cfg, s, e).desk;
            d'.calls.inFlight == s.desk.calls.inFlight || OnceMore(s.desk, d', s.desk.calls.inFlight.value.request)
  {
    if e.ChargerText? {
      AnswerIsReported(cfg, s, e);
    } else if e.CommandTick? && Overdue(s.desk.calls.inFlight, s.now, cfg.charging.commandTimeout) {
      TickReportsTheCall(cfg, s, e);
    } else if e.Teardown? {
      TeardownReportsTheCall(cfg, s, e);
    } else {
      OthersLeaveTheCall(cfg, s, e);
    }
  }

  lemma AnswerIsReported(cfg: Config, s: State, e: Event)
    requires s.desk.calls.inFlight.Some? && e.ChargerText?
    ensures var d' := Act(cfg, s, e).desk;
            d'.calls.inFlight == s.desk.calls.inFlight || OnceMore(s.desk, d', s.desk.calls.inFlight.value.request)
  {
    if s.phase.Forwarding? && AnswersProxy(s, e.text) {
      var answered := Consume(s, e.text.frame);
      ReportedThenSent(cfg, s, answered, answered.desk.results[|s.desk.results|], e.alive);
    }
  }

  lemma OthersLeaveTheCall(cfg: Config, s: State, e: Event)
    requires s.desk.calls.inFlight.Some? && !e.ChargerText? && !e.Teardown?
    requires e.CommandTick? ==> !Overdue(s.desk.calls.inFlight, s.now, cfg.charging.commandTimeout)
    ensures Act(cfg, s, e).desk.calls.inFlight == s.desk.calls.inFlight
  {}

  lemma {:induction false} RunEndsCallsReported(cfg: Config, s: State, inputs: seq<Input>)
    requires s.desk.calls.inFlight.Some?
    ensures var d' := Run(cfg, s, inputs).desk;
            && Grows(s.desk, d')
            && (d'.calls.inFlight == s.desk.calls.inFlight || OnceMore(s.desk, d', s.desk.calls.inFlight.value.request))
  {
    if inputs != [] {
      var i, t := inputs[|inputs| - 1], Run(cfg, s, inputs[..|inputs| - 1]);
      RunEndsCallsReported(cfg, s, inputs[..|inputs| - 1]);
      StepGrows(cfg, t, i);
      StepGrowsBag(cfg, t, i);
      if Enabled(cfg, t, i) && t.desk.calls.inFlight == s.desk.calls.inFlight {
        BagGrows(s.desk.results, t.desk.results);
        EventEndsCallsReported(cfg, t.(now := i.at), i.event);
      }
    }
  }

  lemma {:induction false} RunGrows(cfg: Config, s: State, inputs: seq<Input>)
    ensures Grows(s.desk, Run(cfg, s, inputs).desk)
  {
    if inputs != [] {
      RunGrows(cfg, s, inputs[..|inputs| - 1]);
      StepGrows(cfg, Run(cfg, s, inputs[..|inputs| - 1]), inputs[|inputs| - 1]);
    }
  }

  lemma {:induction false} PumpKeepsOnlyQueued(charging: Charging, d: Desk, now: real, alive: bool)
    ensures forall q :: q in Pump(charging, d, now, alive).desk.calls.queued ==> q in d.calls.queued
    decreases |d.calls.queued|
  {
    if d.calls.queued != [] {
      PumpKeepsOnlyQueued(charging, Popped(d, Invalid), now, alive);
    }
  }

  /** Right after a tick every queued request is younger than the timeout. */
  lemma TickLeavesOnlyYoung(cfg: Config, s: State, alive: bool)
    ensures forall q :: q in OnCommandTick(cfg, s, alive).desk.calls.queued ==>
                          q in s.desk.calls.queued && s.now - q.issuedAt < cfg.charging.commandTimeout
  {
    PumpKeepsOnlyQueued(cfg.charging, Swept(cfg, s).desk, s.now, alive);
  }

  lemma FlightIsPast(cfg: Config, start: real, inputs: seq<Input>)
    ensures var s := Run(cfg, Init(cfg, start), inputs);
            !s.phase.Drained? && s.desk.calls.inFlight.Some? ==> s.desk.calls.inFlight.value.sentAt <= s.now
  {
    RunKeepsLine(cfg, start, inputs);
  }

  // ---- a result for whatever arrives before the drain ----

  lemma MultisetOfPrefix<T>(a: seq<T>, b: seq<T>)
    requires a <= b
    ensures multiset(a) <= multiset(b)
  {
    assert b == a + b[|a|..];
  }

  lemma DrainReports(cfg: Config, s: State, i: Input)
    requires CommandsInv(cfg, s) && !s.phase.Drained? && Step(cfg, s, i).phase.Drained?
    ensures Bag(Step(cfg, s, i).desk.results) == multiset(s.desk.arrived)
  {
    if i.event.Teardown? {
      CloseKeeps(s.desk, cfg.capacity);
    } else {
      NothingElseDrains(cfg, s.(now := i.at), i.event);
      assert false;
    }
  }

  lemma {:induction false} RunKeepsCommandsFrom(cfg: Config, s: State, inputs: seq<Input>)
    requires CommandsInv(cfg, s) && cfg.capacity > 0
    ensures CommandsInv(cfg, Run(cfg, s, inputs))
  {
    if inputs != [] {
      RunKeepsCommandsFrom(cfg, s, inputs[..|inputs| - 1]);
      StepKeepsCommands(cfg, Run(cfg, s, inputs[..|inputs| - 1]), inputs[|inputs| - 1]);
    }
  }

  lemma {:induction false} DrainCovers(cfg: Config, s: State, later: seq<Input>)
    requires CommandsInv(cfg, s) && cfg.capacity > 0
    requires !s.phase.Drained? && Run(cfg, s, later).phase.Drained?
    ensures multiset(s.desk.arrived) <= Bag(Run(cfg, s, later).desk.results)
  {
    var n := |later| - 1;
    var t := Run(cfg, s, later[..n]);
    if t.phase.Drained? {
      DrainCovers(cfg, s, later[..n]);
      StepGrowsBag(cfg, t, later[n]);
    } else {
      RunKeepsCommandsFrom(cfg, s, later[..n]);
      RunGrows(cfg, s, later[..n]);
      MultisetOfPrefix(s.desk.arrived, t.desk.arrived);
      DrainReports(cfg, t, later[n]);
    }
  }

  // ---- whose limit it is ----

  /** The newest limit command that came from a controller. */
  function NewestUserLimit(taken: seq<Request>): Option<Request> {
    if taken == [] then None
    else
      var r := taken[|taken| - 1];
      if IsLimit(r) && r.source.Mqtt? then Some(r) else NewestUserLimit(taken[..|taken| - 1])
  }

  lemma {:induction false} NewestOfBoth(taken: seq<Request>, q: Request)
    requires NewestLimit(taken) == Some(q)
    ensures NewestUserLimit(taken) == Some(q) <==> q.source.Mqtt?
  {
    var n := |taken| - 1;
    UserLimitIsTheUsers(taken);
    if NotLimit(taken[n]) {
      NewestOfBoth(taken[..n], q);
    }
  }

  lemma {:induction false} UserLimitIsTheUsers(taken: seq<Request>)
    ensures NewestUserLimit(taken).Some? ==> NewestUserLimit(taken).value.source.Mqtt?
  {
    if taken != [] {
      UserLimitIsTheUsers(taken[..|taken| - 1]);
    }
  }

  /** A controller's queued limit is reported superseded because the session takes a
      limit that the publisher sent again. */
  predicate LosesToReapply(d: Desk, d': Desk, k: nat) {
    && NewlySuperseded(d, d', k) && d'.results[k].request.source.Mqtt?
    && RightlySuperseded(d, d', k) && d'.taken[|d.taken|].source.Reapply?
  }

  predicate TakesReapplyOverUser(cfg: Config, s: State, i: Input) {
    && Enabled(cfg, s, i) && i.event.TakeCommand?
    && IsLimit(s.desk.inbox[0]) && s.desk.inbox[0].source.Reapply?
    && exists q :: q in s.desk.calls.queued && IsLimit(q) && q.source.Mqtt?
  }

  lemma TakenReapplyDisplaces(d: Desk, capacity: nat, q: Request) returns (k: nat)
    requires DeskInv(d, capacity) && capacity > 0 && d.inbox != []
    requires IsLimit(d.inbox[0]) && q in d.calls.queued && IsLimit(q)
    ensures NewlySuperseded(d, TakeOne(d, capacity), k) && TakeOne(d, capacity).results[k].request == q
  {
    var displaced := Displaced(d.calls.queued, d.inbox[0], capacity);
    assert q in Replaced(d.calls.queued, d.inbox[0]);
    assert q in displaced;
    var j :| 0 <= j < |displaced| && displaced[j] == q;
    k := |d.results| + j;
    assert TakeOne(d, capacity).results[k] == Report(displaced, Crowded)[j];
  }

  lemma ReapplyTakesOver(cfg: Config, s: State, i: Input) returns (k: nat)
    requires DeskInv(s.desk, cfg.capacity) && cfg.capacity > 0 && TakesReapplyOverUser(cfg, s, i)
    ensures LosesToReapply(s.desk, Step(cfg, s, i).desk, k)
  {
    var q :| q in s.desk.calls.queued && IsLimit(q) && q.source.Mqtt?;
    k := TakenReapplyDisplaces(s.desk, cfg.capacity, q);
    TakeCommandGrows(cfg, s.(now := i.at), i.event.alive);
    LabelsCarry(s.desk, TakeOne(s.desk, cfg.capacity), Step(cfg, s, i).desk, k);
    StepLabels(cfg, s, i, k);
  }

  lemma LossIsToATakenReapply(cfg: Config, s: State, i: Input, k: nat)
    requires DeskInv(s.desk, cfg.capacity) && cfg.capacity > 0 && LosesToReapply(s.desk, Step(cfg, s, i).desk, k)
    ensures TakesReapplyOverUser(cfg, s, i)
  {
    var d := s.desk;
    if i.event.TakeCommand? {
      TakeCommandGrows(cfg, s.(now := i.at), i.event.alive);
      LabelsCarry(d, TakeOne(d, cfg.capacity), Step(cfg, s, i).desk, k);
      TakenReports(d, cfg.capacity, k);
      DisplacedLimit(d, cfg.capacity, Step(cfg, s, i).desk.results[k].request);
    } else {
      OtherEventGrows(cfg, s.(now := i.at), i.event);
      assert false;
    }
  }

  // ---- main results ----

  /** A command that arrives is reported by the time the session has drained exactly if
      it arrived before the drain. */
  lemma ReportedIffItArrivesBeforeTheDrain(cfg: Config, start: real, inputs: seq<Input>, i: Input, later: seq<Input>)
    requires cfg.capacity > 0 && i.event.Arrive?
    requires Enabled(cfg, Run(cfg, Init(cfg, start), inputs), i)
    requires Run(cfg, Step(cfg, Run(cfg, Init(cfg, start), inputs), i), later).phase.Drained?
    ensures var s := Run(cfg, Init(cfg, start), inputs);
            var arrived := Step(cfg, s, i);
            var r := i.event.request;
            Bag(Run(cfg, arrived, later).desk.results)[r] >= multiset(arrived.desk.arrived)[r] <==> !s.phase.Drained?
  {
    var s := Run(cfg, Init(cfg, start), inputs);
    var arrived, r := Step(cfg, s, i), i.event.request;
    RunKeepsCommands(cfg, start, inputs);
    StepKeepsCommands(cfg, s, i);
    if s.phase.Drained? {
      EveryTakenCommandIsReported(cfg, start, inputs);
      LateCommandsAreLost(cfg, arrived, later);
      assert multiset(arrived.desk.arrived) == multiset(s.desk.arrived) + multiset{r};
      assert multiset(s.desk.arrived) == Bag(s.desk.results) + multiset(s.desk.inbox);
    } else {
      DrainCovers(cfg, arrived, later);
    }
  }

  /** Whose limit is left to send, and whose was sent: the newest one a controller gave,
      exactly if it was not sent again by the publisher. */
  lemma LimitIsTheUsersIffNotAReapply(cfg: Config, start: real, inputs: seq<Input>)
    requires cfg.capacity > 0
    ensures var d := Run(cfg, Init(cfg, start), inputs).desk;
            && (forall q :: q in d.calls.queued && IsLimit(q) ==>
                  (NewestUserLimit(d.taken) == Some(q) <==> q.source.Mqtt?))
            && (forall k :: 0 <= k < |d.sent| && IsLimit(d.sent[k].request) ==>
                  && d.sent[k].known <= |d.taken|
                  && (NewestUserLimit(d.taken[..d.sent[k].known]) == Some(d.sent[k].request) <==>
                        d.sent[k].request.source.Mqtt?))
  {
    RunKeepsCommands(cfg, start, inputs);
    var d := Run(cfg, Init(cfg, start), inputs).desk;
    forall q | q in d.calls.queued && IsLimit(q)
      ensures NewestUserLimit(d.taken) == Some(q) <==> q.source.Mqtt?
    {
      NewestOfBoth(d.taken, q);
    }
    forall k | 0 <= k < |d.sent| && IsLimit(d.sent[k].request)
      ensures d.sent[k].known <= |d.taken|
      ensures NewestUserLimit(d.taken[..d.sent[k].known]) == Some(d.sent[k].request)
         <==> d.sent[k].request.source.Mqtt?
    {
      assert WellSent(d.sent[k], d.taken);
      NewestOfBoth(d.taken[..d.sent[k].known], d.sent[k].request);
    }
  }

  /** And when a controller's newer limit is lost to an older one sent again: exactly
      when the session takes a re-applied limit while a controller's is still queued. */
  lemma UserLimitLostIffAReapplyIsTaken(cfg: Config, start: real, inputs: seq<Input>, i: Input)
    requires cfg.capacity > 0
    ensures var s := Run(cfg, Init(cfg, start), inputs);
            (exists k: nat :: LosesToReapply(s.desk, Step(cfg, s, i).desk, k)) <==> TakesReapplyOverUser(cfg, s, i)
  {
    RunKeepsCommands(cfg, start, inputs);
    var s := Run(cfg, Init(cfg, start), inputs);
    if TakesReapplyOverUser(cfg, s, i) {
      var k := ReapplyTakesOver(cfg, s, i);
    }
    forall k: nat | LosesToReapply(s.desk, Step(cfg, s, i).desk, k) ensures TakesReapplyOverUser(cfg, s, i) {
      LossIsToATakenReapply(cfg, s, i, k);
    }
  }

  /** When the label Superseded is wrong, over every run: a step reports some request
      superseded that is still the newest limit taken exactly if it takes a command
      that is not a limit into a full queue whose oldest entry is a limit. */
  lemma SupersededIsWrongIffALimitIsDropped(cfg: Config, start: real, inputs: seq<Input>, i: Input)
    requires cfg.capacity > 0
    ensures var s := Run(cfg, Init(cfg, start), inputs);
            var d' := Step(cfg, s, i).desk;
            && Grows(s.desk, d')
            && ((exists k: nat :: NewlySuperseded(s.desk, d', k) && Mislabelled(s.desk, d', k)) <==>
                  DropsALimit(cfg, s, i))
  {
    RunKeepsCommands(cfg, start, inputs);
    var s := Run(cfg, Init(cfg, start), inputs);
    StepGrows(cfg, s, i);
    if DropsALimit(cfg, s, i) {
      DropIsMislabelled(cfg, s, i);
    }
    forall k: nat | NewlySuperseded(s.desk, Step(cfg, s, i).desk, k) && Mislabelled(s.desk, Step(cfg, s, i).desk, k)
      ensures DropsALimit(cfg, s, i)
    {
      StepLabels(cfg, s, i, k);
    }
  }

  /** And when it is right: in every other case the request was the newest limit
      taken until this step, which took another limit command. */
  lemma OtherwiseANewerLimitWasTaken(cfg: Config, start: real, inputs: seq<Input>, i: Input, k: nat)
    requires cfg.capacity > 0
    requires var s := Run(cfg, Init(cfg, start), inputs);
             NewlySuperseded(s.desk, Step(cfg, s, i).desk, k) && !DropsALimit(cfg, s, i)
    ensures var s := Run(cfg, Init(cfg, start), inputs);
            RightlySuperseded(s.desk, Step(cfg, s, i).desk, k)
  {
    RunKeepsCommands(cfg, start, inputs);
    StepLabels(cfg, Run(cfg, Init(cfg, start), inputs), i, k);
  }

  /** Bounded waiting: once a tick has come a timeout or more after a request was
      issued, and another a timeout or more after that one, the request has as many
      results as it had been taken times at the first. How often ticks come is not
      part of the model. */
  lemma EveryRequestIsReportedInTime(cfg: Config, start: real, inputs: seq<Input>, first: Input,
                                     more: seq<Input>, second: Input, r: Request)
    requires cfg.capacity > 0 && first.event.CommandTick? && second.event.CommandTick?
    requires Enabled(cfg, Run(cfg, Init(cfg, start), inputs), first)
    requires Enabled(cfg, Run(cfg, Step(cfg, Run(cfg, Init(cfg, start), inputs), first), more), second)
    requires first.at - r.issuedAt >= cfg.charging.commandTimeout
    requires second.at - first.at >= cfg.charging.commandTimeout
    ensures var s1 := Step(cfg, Run(cfg, Init(cfg, start), inputs), first);
            var s2 := Step(cfg, Run(cfg, s1, more), second);
            Bag(s2.desk.results)[r] >= multiset(s1.desk.taken)[r]
  {
    var s0 := Run(cfg, Init(cfg, start), inputs);
    var s1 := Step(cfg, s0, first);
    assert (inputs + [first])[..|inputs|] == inputs;
    RunKeepsCommands(cfg, start, inputs + [first]);
    FlightIsPast(cfg, start, inputs + [first]);
    TickLeavesOnlyYoung(cfg, s0.(now := first.at), first.event.alive);
    assert r !in s1.desk.calls.queued;
    assert !s1.phase.Drained? && s1.now == first.at;
    assert multiset(s1.desk.taken)[r] == Bag(s1.desk.results)[r] + FlightBag(s1.desk.calls.inFlight)[r];
    if s1.desk.calls.inFlight.Some? && s1.desk.calls.inFlight.value.request == r {
      OpenCallIsReportedByTheNextTick(cfg, s1, more, second);
    } else {
      RunGrows(cfg, s1, more);
      BagGrows(s1.desk.results, Run(cfg, s1, more).desk.results);
      StepGrowsBag(cfg, Run(cfg, s1, more), second);
    }
  }

  lemma OpenCallIsReportedByTheNextTick(cfg: Config, s: State, more: seq<Input>, tick: Input)
    requires s.desk.calls.inFlight.Some? && tick.event.CommandTick?
    requires Enabled(cfg, Run(cfg, s, more), tick)
    requires tick.at - s.desk.calls.inFlight.value.sentAt >= cfg.charging.commandTimeout
    ensures OnceMore(s.desk, Step(cfg, Run(cfg, s, more), tick).desk, s.desk.calls.inFlight.value.request)
  {
    var t := Run(cfg, s, more);
    RunEndsCallsReported(cfg, s, more);
    BagGrows(s.desk.results, t.desk.results);
    StepGrowsBag(cfg, t, tick);
    if t.desk.calls.inFlight == s.desk.calls.inFlight {
      OverdueIsReported(cfg, t.(now := tick.at), tick.event.alive);
    }
  }
}
