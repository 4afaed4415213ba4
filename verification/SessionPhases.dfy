/** Where the session task goes next, and how long it sleeps, over every run and in
    terms of what happens outside. */
module SessionPhases {
  import opened Prelude
  import opened Commands
  import opened CommandDesk
  import opened Forwarding
  import opened Session
  import opened SessionSending
  import opened SessionUpstream
  import opened SessionReasons
  import Backoff

  // ---- outages, read off the inputs ----

  /** The upstream fails while the session forwards. */
  predicate Loses(cfg: Config, s: State, i: Input) {
    && Enabled(cfg, s, i) && s.phase.Forwarding?
    && match i.event {
         case CentralClosed => true
         case CentralPing(pongOk) => !pongOk
         case ChargerText(text, upOk, _) => !upOk && !Answers(cfg, s, i)
         case _ => false
       }
  }

  predicate Fails(cfg: Config, s: State, i: Input) {
    Loses(cfg, s, i) || (Enabled(cfg, s, i) && i.event.ConnectFailed?)
  }

  predicate Connects(cfg: Config, s: State, i: Input) {
    Enabled(cfg, s, i) && i.event.ConnectOk?
  }

  /** How often connecting or the connection failed since it last succeeded. */
  function Failures(cfg: Config, start: real, inputs: seq<Input>): nat {
    if inputs == [] then 0
    else
      var n := |inputs| - 1;
      var s := Run(cfg, Init(cfg, start), inputs[..n]);
      if Connects(cfg, s, inputs[n]) then 0
      else Failures(cfg, start, inputs[..n]) + (if Fails(cfg, s, inputs[n]) then 1 else 0)
  }

  /** When the outage under way began. */
  function Began(cfg: Config, start: real, inputs: seq<Input>): Option<real> {
    if inputs == [] then None
    else
      var n := |inputs| - 1;
      var s := Run(cfg, Init(cfg, start), inputs[..n]);
      var before := Began(cfg, start, inputs[..n]);
      if Connects(cfg, s, inputs[n]) then None
      else if Fails(cfg, s, inputs[n]) && before.None? then Some(inputs[n].at)
      else before
  }

  /** How long the outage has lasted when `i` comes. */
  function Lasted(cfg: Config, start: real, inputs: seq<Input>, i: Input): real {
    match Began(cfg, start, inputs)
    case Some(began) => i.at - began
    case None => 0.0
  }

  predicate Running(s: State) {
    !s.phase.Closing? && !s.phase.Drained?
  }

  /** The stored backoff is the one the failures so far have left. */
  predicate Paced(cfg: Config, s: State, failures: nat, began: Option<real>) {
    && s.since == began
    && (Running(s) ==>
          s.backoff == Backoff.Stored(cfg.initialBackoff, BACKOFF_MULTIPLIER, cfg.maxBackoff, failures))
  }

  lemma StepIsPaced(cfg: Config, s: State, i: Input, failures: nat, began: Option<real>)
    requires Paced(cfg, s, failures, began)
    ensures var fails := Fails(cfg, s, i);
            Paced(cfg, Step(cfg, s, i),
                  if Connects(cfg, s, i) then 0 else failures + (if fails then 1 else 0),
                  if Connects(cfg, s, i) then None else if fails && began.None? then Some(i.at) else began)
  {}

  lemma {:induction false} RunIsPaced(cfg: Config, start: real, inputs: seq<Input>)
    ensures Paced(cfg, Run(cfg, Init(cfg, start), inputs), Failures(cfg, start, inputs), Began(cfg, start, inputs))
  {
    if inputs != [] {
      var n := |inputs| - 1;
      RunIsPaced(cfg, start, inputs[..n]);
      StepIsPaced(cfg, Run(cfg, Init(cfg, start), inputs[..n]), inputs[n],
                  Failures(cfg, start, inputs[..n]), Began(cfg, start, inputs[..n]));
    }
  }

  /** The delay the documentation promises after `n` failures. */
  function Promised(cfg: Config, n: nat): real {
    Backoff.ClosedForm(cfg.initialBackoff, BACKOFF_MULTIPLIER, cfg.maxBackoff, n)
  }

  // ---- when a session ends ----

  /** A command that could have gone out found the charger gone. */
  predicate FindsChargerGone(cfg: Config, s: State, i: Input) {
    && Tries(cfg, s, i) && !Alive(i.event)
    && exists k: nat :: |s.desk.results| <= k < |Step(cfg, s, i).desk.results|
                        && Step(cfg, s, i).desk.results[k].status.NotConnected?
  }

  predicate GivesUp(cfg: Config, start: real, inputs: seq<Input>, i: Input) {
    && Enabled(cfg, Run(cfg, Init(cfg, start), inputs), i)
    && i.event.ConnectFailed? && Lasted(cfg, start, inputs, i) >= cfg.window
  }

  predicate NoNew(s: State, t: State) {
    forall k :: |s.desk.results| <= k < |t.desk.results| ==> !t.desk.results[k].status.NotConnected?
  }

  lemma ArmNeverNotConnected(cfg: Config, s: State, i: Input)
    requires !i.event.Teardown?
    ensures forall o :: o in ArmReports(cfg, s, i) ==> !o.status.NotConnected?
  {
    if i.event.TakeCommand? && s.desk.inbox != [] {
      ReportNever(LocalCalls.Displaced(s.desk.calls.queued, s.desk.inbox[0], cfg.capacity), Crowded);
    } else if i.event.CommandTick? {
      ReportNever(LocalCalls.Expired(s.desk.calls, i.at, cfg.charging.commandTimeout), Stale);
    }
  }

  lemma ReportNever(rs: seq<Request>, why: Reason)
    requires !why.Over?
    ensures forall o :: o in Report(rs, why) ==> !o.status.NotConnected?
  {
    var reports := Report(rs, why);
    forall o | o in reports ensures !o.status.NotConnected? {
      var k :| 0 <= k < |reports| && reports[k] == o;
    }
  }

  /** A closing attempt is one that reports a request NotConnected, and no other. */
  lemma AttemptCloses(cfg: Config, u: State, alive: bool)
    requires u.phase.Forwarding?
    ensures var t := Send(cfg, u, alive);
            && u.desk.results <= t.desk.results
            && (t.phase.Closing? || t.phase.Forwarding?)
            && (t.phase.Closing? <==> !NoNew(u, t))
            && (t.phase.Closing? ==> !alive)
  {
    if u.desk.calls.inFlight.None? && !Held(u) {
      PumpAttempts(cfg.charging, u.desk, u.now, alive);
      var queued := u.desk.calls.queued;
      var n := Unfit(cfg.charging, queued);
      var t, reports := Send(cfg, u, alive), Reports(cfg.charging, queued, alive);
      assert t.desk.results == u.desk.results + reports;
      if n < |queued| && !alive {
        assert reports[n].status.NotConnected?;
        assert t.desk.results[|u.desk.results| + n].status.NotConnected?;
      }
    }
  }

  lemma TryCloses(cfg: Config, s: State, i: Input)
    requires Tries(cfg, s, i)
    ensures var t := Step(cfg, s, i);
            (t.phase.Closing? || t.phase.Forwarding?) && (t.phase.Closing? <==> FindsChargerGone(cfg, s, i))
  {
    TryingIsSending(cfg, s, i);
    ReadyReports(cfg, s, i);
    ArmNeverNotConnected(cfg, s, i);
    var u, t := Ready(cfg, s, i), Step(cfg, s, i);
    AttemptCloses(cfg, u, Alive(i.event));
    forall k: nat | |s.desk.results| <= k < |u.desk.results| ensures !t.desk.results[k].status.NotConnected? {
      assert t.desk.results[k] == u.desk.results[k] == ArmReports(cfg, s, i)[k - |s.desk.results|];
    }
    if t.phase.Closing? {
      var k :| |u.desk.results| <= k < |t.desk.results| && t.desk.results[k].status.NotConnected?;
      assert |s.desk.results| <= k;
    }
  }

  // ---- where the task goes ----

  /** The table of moves, for a session that has lasted `lasted` into an outage. */
  predicate Moves(cfg: Config, s: State, i: Input, lasted: real) {
    var t := Step(cfg, s, i);
    var gives := i.event.ConnectFailed? && lasted >= cfg.window;
    var ends := || i.event.Cancelled? || i.event.ChargerClosed?
                || (i.event.CentralText? && !i.event.alive) || gives || FindsChargerGone(cfg, s, i);
    && (t.phase.Closing? <==> ends || (s.phase.Closing? && i.event.Arrive?))
    && (t.phase.Drained? <==> i.event.Teardown? || (s.phase.Drained? && i.event.Arrive?))
    && (t.phase.Forwarding? <==>
          || (i.event.ConnectOk? && i.event.accepts >= |s.pipe.buffer|)
          || (s.phase.Forwarding? && !ends && !Loses(cfg, s, i)))
    && (t.phase.Pausing? <==> Loses(cfg, s, i) || (s.phase.Pausing? && i.event.Arrive?))
    && (t.phase.Retrying? <==> (i.event.ConnectFailed? && !gives) || (s.phase.Retrying? && i.event.Arrive?))
    && t.closeCode == (if gives then CLOSE_GOING_AWAY else s.closeCode)
  }

  lemma TryMoves(cfg: Config, s: State, i: Input, lasted: real)
    requires Tries(cfg, s, i)
    ensures Moves(cfg, s, i, lasted)
  {
    TryCloses(cfg, s, i);
    TryingIsSending(cfg, s, i);
  }

  lemma OtherMoves(cfg: Config, s: State, i: Input, lasted: real)
    requires Enabled(cfg, s, i) && !Tries(cfg, s, i)
    requires lasted == if s.since.Some? then i.at - s.since.value else 0.0
    ensures Moves(cfg, s, i, lasted)
  {}

  // ---- main results ----

  /** Where every input takes the session, over every run: when it closes, drains,
      forwards, pauses, retries, and otherwise connects; and that the charger is told
      1001 exactly if it was the reconnection window that ended it. */
  lemma EveryMoveHasItsCause(cfg: Config, start: real, inputs: seq<Input>, i: Input)
    requires Enabled(cfg, Run(cfg, Init(cfg, start), inputs), i)
    ensures Moves(cfg, Run(cfg, Init(cfg, start), inputs), i, Lasted(cfg, start, inputs, i))
  {
    var s := Run(cfg, Init(cfg, start), inputs);
    RunIsPaced(cfg, start, inputs);
    if Tries(cfg, s, i) {
      TryMoves(cfg, s, i, Lasted(cfg, start, inputs, i));
    } else {
      OtherMoves(cfg, s, i, Lasted(cfg, start, inputs, i));
    }
  }

  function WindowClosed(cfg: Config, start: real, inputs: seq<Input>): bool {
    inputs != [] &&
    var n := |inputs| - 1;
    WindowClosed(cfg, start, inputs[..n]) || GivesUp(cfg, start, inputs[..n], inputs[n])
  }

  /** The close code is 1001 exactly if the window has run out, and 1000 otherwise. */
  lemma {:induction false} CloseCodeTellsWhy(cfg: Config, start: real, inputs: seq<Input>)
    ensures Run(cfg, Init(cfg, start), inputs).closeCode == if WindowClosed(cfg, start, inputs) then 1001 else 1000
  {
    if inputs != [] {
      var n := |inputs| - 1;
      CloseCodeTellsWhy(cfg, start, inputs[..n]);
      if Enabled(cfg, Run(cfg, Init(cfg, start), inputs[..n]), inputs[n]) {
        EveryMoveHasItsCause(cfg, start, inputs[..n], inputs[n]);
      }
    }
  }

  /** The n-th failure since the last success sleeps the n-th delay of the closed form,
      cut to what is left of the window, or ends the session. */
  lemma RetriesFollowTheClosedForm(cfg: Config, start: real, inputs: seq<Input>, i: Input)
    requires cfg.maxBackoff >= 0.0 && i.event.ConnectFailed?
    requires Enabled(cfg, Run(cfg, Init(cfg, start), inputs), i)
    ensures var t := Step(cfg, Run(cfg, Init(cfg, start), inputs), i);
            var left := cfg.window - Lasted(cfg, start, inputs, i);
            if left <= 0.0 then t.phase.Closing?
            else t.phase == Retrying(i.at + MinReal(Promised(cfg, Failures(cfg, start, inputs)), MaxReal(left, 1.0)))
  {
    RunIsPaced(cfg, start, inputs);
    Backoff.DelayIsClosedForm(cfg.initialBackoff, BACKOFF_MULTIPLIER, cfg.maxBackoff, Failures(cfg, start, inputs));
  }

  /** So does the pause after the upstream is lost, which the window does not cut. */
  lemma PausesFollowTheClosedForm(cfg: Config, start: real, inputs: seq<Input>, i: Input)
    requires cfg.maxBackoff >= 0.0 && Loses(cfg, Run(cfg, Init(cfg, start), inputs), i)
    ensures Step(cfg, Run(cfg, Init(cfg, start), inputs), i).phase
         == Pausing(i.at + Promised(cfg, Failures(cfg, start, inputs)))
  {
    RunIsPaced(cfg, start, inputs);
    Backoff.DelayIsClosedForm(cfg.initialBackoff, BACKOFF_MULTIPLIER, cfg.maxBackoff, Failures(cfg, start, inputs));
  }

  /** A connection that takes what is waiting delivers it, in order, and the session
      forwards; one that does not delivers nothing, and the session connects again with
      everything still waiting. */
  lemma ConnectReplaysOrTriesAgain(cfg: Config, start: real, inputs: seq<Input>, i: Input)
    requires i.event.ConnectOk? && Enabled(cfg, Run(cfg, Init(cfg, start), inputs), i)
    ensures var s := Run(cfg, Init(cfg, start), inputs);
            var t := Step(cfg, s, i);
            if i.event.accepts >= |s.pipe.buffer| then
              && t.phase.Forwarding? && t.pipe.buffer == []
              && DeliveredTexts(t.pipe.delivered) == DeliveredTexts(s.pipe.delivered) + Raws(s.pipe.buffer)
            else
              t.phase == Connecting(i.at) && t.pipe.buffer == s.pipe.buffer && t.pipe.delivered == s.pipe.delivered
  {
    RunKeepsUpstream(cfg, start, inputs);
    var p := Run(cfg, Init(cfg, start), inputs).pipe;
    assert Replayed(p.buffer[..0]) == [] && p.delivered + [] == p.delivered && p.buffer[0..] == p.buffer;
    assert p.buffer[..|p.buffer|] == p.buffer;
    DeliveredThen(p.delivered, p.buffer);
  }

  lemma DeliveredThen(delivered: seq<Delivery>, buffer: seq<Buffered>)
    ensures DeliveredTexts(delivered + Replayed(buffer)) == DeliveredTexts(delivered) + Raws(buffer)
  {}

  // ---- what is delivered when ----

  /** What an input adds to what the Central System has received. */
  function Delivers(cfg: Config, s: State, i: Input): seq<string> {
    if i.event.ChargerText? && s.phase.Forwarding? && !Answers(cfg, s, i) && i.event.upOk then [i.event.text.Raw()]
    else if i.event.ConnectOk? && i.event.accepts >= |s.pipe.buffer| then Raws(s.pipe.buffer)
    else []
  }

  /** What waits for the next connection after an input. */
  function Waits(cfg: Config, s: State, i: Input): seq<string> {
    if i.event.ChargerText? && s.phase.Forwarding? && !Answers(cfg, s, i) && !i.event.upOk && i.event.text.Parsed? then
      [i.event.text.Raw()]
    else if i.event.ConnectOk? && i.event.accepts >= |s.pipe.buffer| then []
    else Raws(s.pipe.buffer)
  }

  lemma DeliveredOne(delivered: seq<Delivery>, d: Delivery)
    ensures DeliveredTexts(delivered + [d]) == DeliveredTexts(delivered) + [d.raw]
  {}

  lemma TextDelivers(cfg: Config, s: State, i: Input)
    requires UpstreamInv(s) && Enabled(cfg, s, i) && i.event.ChargerText?
    ensures var t := Step(cfg, s, i);
            && DeliveredTexts(t.pipe.delivered) == DeliveredTexts(s.pipe.delivered) + Delivers(cfg, s, i)
            && Raws(t.pipe.buffer) == Waits(cfg, s, i)
  {
    DeliveredOne(s.pipe.delivered, Delivery(i.event.text.Raw(), |s.pipe.read|, i.event.text.Parsed?));
    assert DeliveredTexts(s.pipe.delivered) + [] == DeliveredTexts(s.pipe.delivered);
  }

  lemma OthersDeliverNothing(cfg: Config, s: State, i: Input)
    requires UpstreamInv(s) && Enabled(cfg, s, i) && !i.event.ChargerText? && !i.event.ConnectOk?
    ensures Step(cfg, s, i).pipe.delivered == s.pipe.delivered && Step(cfg, s, i).pipe.buffer == s.pipe.buffer
  {}

  /** A text goes to the Central System when its send succeeds or when a connection
      takes what waited, and never otherwise; and a frame waits only if its own send
      failed. */
  lemma EveryDeliveryHasItsCause(cfg: Config, start: real, inputs: seq<Input>, i: Input)
    requires Enabled(cfg, Run(cfg, Init(cfg, start), inputs), i)
    ensures var s := Run(cfg, Init(cfg, start), inputs);
            var t := Step(cfg, s, i);
            && DeliveredTexts(t.pipe.delivered) == DeliveredTexts(s.pipe.delivered) + Delivers(cfg, s, i)
            && Raws(t.pipe.buffer) == Waits(cfg, s, i)
  {
    RunKeepsUpstream(cfg, start, inputs);
    var s := Run(cfg, Init(cfg, start), inputs);
    if i.event.ChargerText? {
      TextDelivers(cfg, s, i);
    } else if i.event.ConnectOk? {
      ConnectReplaysOrTriesAgain(cfg, start, inputs, i);
    } else {
      OthersDeliverNothing(cfg, s, i);
    }
    assert DeliveredTexts(s.pipe.delivered) + [] == DeliveredTexts(s.pipe.delivered);
  }
}
