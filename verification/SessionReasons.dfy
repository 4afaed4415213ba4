/** Why every result was reported: what each status tells the controller. */
module SessionReasons {
  import opened Prelude
  import opened Commands
  import opened LocalCalls
  import opened CommandDesk
  import opened Session
  import opened SessionCommands
  import opened SessionPolicy
  import opened SessionSending

  /** How the charger's answer to a command is to be read. Having nothing to clear, and
      needing a reboot for a stored setting, both leave the wish fulfilled. */
  predicate Means(command: ProxyCommand, answer: MessageType, status: Status) {
    && (status.Accepted? <==>
          && answer.CallResult?
          && (|| answer.answer.NoStatus? || answer.answer.AcceptedAnswer?
              || (answer.answer.UnknownAnswer? && command.ClearCurrentLimit?)
              || (answer.answer.RebootRequired? && command.ChangeConfiguration?)))
    && (status.Error? <==> answer.CallError?)
    && (status.Rejected? <==> answer.CallResult? && !status.Accepted?)
  }

  /** The input is the charger's answer to the Call in flight. */
  predicate Answers(cfg: Config, s: State, i: Input) {
    && Enabled(cfg, s, i) && i.event.ChargerText? && s.phase.Forwarding? && i.event.text.Parsed?
    && !i.event.text.frame.messageType.Call? && s.desk.calls.inFlight.Some?
    && s.desk.calls.inFlight.value.prepared.uniqueId == i.event.text.frame.uniqueId
  }

  /** A result that reports an answer of the charger's. */
  predicate FromAnswer(cfg: Config, s: State, i: Input, o: Outcome) {
    && Answers(cfg, s, i)
    && o.request == s.desk.calls.inFlight.value.request && o.answerTo == Some(i.event.text.frame.uniqueId)
    && Means(o.request.command, i.event.text.frame.messageType, o.status)
  }

  predicate IsHeld(d: Desk, r: Request) {
    r in d.calls.queued || r in d.inbox
  }

  predicate InFlightWith(d: Desk, r: Request) {
    d.calls.inFlight.Some? && d.calls.inFlight.value.request == r
  }

  /** A result the proxy reports on its own. */
  predicate OnItsOwn(cfg: Config, s: State, i: Input, o: Outcome) {
    && o.answerTo.None?
    && match o.status
       case Invalid => Tries(cfg, s, i) && !Permitted(cfg.charging, o.request)
       case Superseded => i.event.TakeCommand? && IsLimit(o.request) && o.request in s.desk.calls.queued
       case Rejected =>
         && i.event.TakeCommand? && NotLimit(o.request) && |s.desk.calls.queued| >= cfg.capacity
         && s.desk.calls.queued != [] && o.request == s.desk.calls.queued[0]
       case Timeout =>
         || (i.event.Teardown? && InFlightWith(s.desk, o.request))
         || (i.event.CommandTick? && o.request in s.desk.calls.queued
             && i.at - o.request.issuedAt >= cfg.charging.commandTimeout)
         || (i.event.CommandTick? && InFlightWith(s.desk, o.request)
             && i.at - s.desk.calls.inFlight.value.sentAt >= cfg.charging.commandTimeout)
       case NotConnected =>
         || (i.event.Teardown? && IsHeld(s.desk, o.request))
         || (Tries(cfg, s, i) && !Alive(i.event) && Permitted(cfg.charging, o.request))
       case Accepted => false
       case Error => false
  }

  predicate Because(cfg: Config, s: State, i: Input, o: Outcome) {
    FromAnswer(cfg, s, i, o) || OnItsOwn(cfg, s, i, o)
  }

  predicate AllBecause(cfg: Config, s: State, i: Input, os: seq<Outcome>) {
    forall o :: o in os ==> Because(cfg, s, i, o)
  }

  lemma BecauseConcat(cfg: Config, s: State, i: Input, a: seq<Outcome>, b: seq<Outcome>)
    requires AllBecause(cfg, s, i, a) && AllBecause(cfg, s, i, b)
    ensures AllBecause(cfg, s, i, a + b)
  {}

  // ---- what each step adds ----

  /** The Call in flight, if its time is up. */
  function LateCall(cfg: Config, s: State, i: Input): Option<InFlight> {
    if Overdue(s.desk.calls.inFlight, i.at, cfg.charging.commandTimeout) then s.desk.calls.inFlight else None
  }

  /** What the arm itself reports, before anything is sent. */
  function ArmReports(cfg: Config, s: State, i: Input): seq<Outcome> {
    if i.event.TakeCommand? && s.desk.inbox != [] then
      Report(Displaced(s.desk.calls.queued, s.desk.inbox[0], cfg.capacity), Crowded)
    else if Answers(cfg, s, i) then
      var f := s.desk.calls.inFlight.value;
      [Outcome(f.request, InterpretResponse(f.prepared.action, i.event.text.frame.messageType),
               Some(f.prepared.uniqueId))]
    else if i.event.CommandTick? then
      Report(Expired(s.desk.calls, i.at, cfg.charging.commandTimeout), Stale)
        + Lapsed(LateCall(cfg, s, i))
    else if i.event.Teardown? then
      Report(s.desk.calls.queued, Over) + Lapsed(s.desk.calls.inFlight) + Report(s.desk.inbox, Over)
    else []
  }

  lemma ReadyReports(cfg: Config, s: State, i: Input)
    requires Tries(cfg, s, i)
    ensures Ready(cfg, s, i).desk.results == s.desk.results + ArmReports(cfg, s, i)
  {
    if i.event.CommandTick? {
      var a := Report(Expired(s.desk.calls, i.at, cfg.charging.commandTimeout), Stale);
      var b := Lapsed(LateCall(cfg, s, i));
      assert s.desk.results + a + b == s.desk.results + (a + b);
    }
  }

  lemma OthersReport(cfg: Config, s: State, i: Input)
    requires Enabled(cfg, s, i) && !Tries(cfg, s, i)
    ensures Step(cfg, s, i).desk.results == s.desk.results + ArmReports(cfg, s, i)
  {
    if i.event.Teardown? {
      var a, b, c := Report(s.desk.calls.queued, Over), Lapsed(s.desk.calls.inFlight), Report(s.desk.inbox, Over);
      assert s.desk.results + a + b + c == s.desk.results + (a + b + c);
    }
  }

  lemma SendReports(cfg: Config, s: State, alive: bool)
    ensures var t := Send(cfg, s, alive);
            || t.desk.results == s.desk.results
            || t.desk.results == s.desk.results + Reports(cfg.charging, s.desk.calls.queued, alive)
  {
    if s.desk.calls.inFlight.None? {
      PumpAttempts(cfg.charging, s.desk, s.now, alive);
    }
  }

  // ---- why ----

  lemma ReportsBecause(cfg: Config, s: State, i: Input)
    requires Tries(cfg, s, i)
    ensures AllBecause(cfg, s, i, Reports(cfg.charging, ToSend(cfg, s, i), Alive(i.event)))
  {
    var queued := ToSend(cfg, s, i);
    var n := Unfit(cfg.charging, queued);
    assert forall k :: 0 <= k < n ==> queued[..n][k] == queued[k];
  }

  lemma CrowdedBecause(cfg: Config, s: State, i: Input)
    requires DeskInv(s.desk, cfg.capacity) && cfg.capacity > 0 && i.event.TakeCommand? && s.desk.inbox != []
    ensures AllBecause(cfg, s, i, ArmReports(cfg, s, i))
  {
    var displaced := Displaced(s.desk.calls.queued, s.desk.inbox[0], cfg.capacity);
    forall q | q in displaced
      ensures Because(cfg, s, i, Outcome(q, StatusFor(Crowded, q), None))
    {
      DisplacedBecause(s.desk, cfg.capacity, q);
    }
    var reports := Report(displaced, Crowded);
    forall o | o in reports ensures Because(cfg, s, i, o) {
      var k :| 0 <= k < |reports| && reports[k] == o;
      assert displaced[k] in displaced;
    }
  }

  lemma DisplacedBecause(d: Desk, capacity: nat, q: Request)
    requires DeskInv(d, capacity) && capacity > 0 && d.inbox != []
    requires q in Displaced(d.calls.queued, d.inbox[0], capacity)
    ensures q in d.calls.queued
    ensures NotLimit(q) ==> |d.calls.queued| >= capacity && q == d.calls.queued[0]
  {
    var r := d.inbox[0];
    var kept := Kept(d.calls.queued, r);
    assert forall x :: x in kept[..Overflow(kept, capacity)] ==> x in kept;
    if NotLimit(q) {
      assert q in kept[..Overflow(kept, capacity)] && q == kept[0];
      KeptWhenFull(d.calls.queued, r, capacity);
    }
  }

  /** Only a queue without limit commands is still full after they made way. */
  lemma KeptWhenFull(queued: seq<Request>, r: Request, capacity: nat)
    requires |queued| <= capacity && |Kept(queued, r)| >= capacity
    ensures Kept(queued, r) == queued
  {
    if IsLimit(r) {
      FullFilter(NotLimit, queued);
    }
  }

  lemma {:induction false} FullFilter(keep: Request -> bool, s: seq<Request>)
    requires |Filter(keep, s)| >= |s|
    ensures Filter(keep, s) == s
  {
    if s != [] {
      var n := |s| - 1;
      FullFilter(keep, s[..n]);
      assert s == s[..n] + [s[n]];
    }
  }

  lemma AnswerBecause(cfg: Config, s: State, i: Input)
    requires Vetted(cfg.charging, s.desk) && Answers(cfg, s, i)
    ensures AllBecause(cfg, s, i, ArmReports(cfg, s, i))
  {
    var f := s.desk.calls.inFlight.value;
    assert PrepareCall(cfg.charging, f.request, f.prepared.uniqueId) == Some(f.prepared);
    assert f.prepared.action == ActionOf(f.request.command);
    assert FromAnswer(cfg, s, i, ArmReports(cfg, s, i)[0]);
  }

  lemma TickBecause(cfg: Config, s: State, i: Input)
    requires i.event.CommandTick?
    ensures AllBecause(cfg, s, i, ArmReports(cfg, s, i))
  {
    var expired := Expired(s.desk.calls, i.at, cfg.charging.commandTimeout);
    var stale := Report(expired, Stale);
    forall o | o in stale ensures Because(cfg, s, i, o) {
      var k :| 0 <= k < |stale| && stale[k] == o;
      assert expired[k] in expired;
    }
    BecauseConcat(cfg, s, i, stale, Lapsed(LateCall(cfg, s, i)));
  }

  lemma OverBecause(cfg: Config, s: State, i: Input, rs: seq<Request>)
    requires i.event.Teardown? && forall r :: r in rs ==> IsHeld(s.desk, r)
    ensures AllBecause(cfg, s, i, Report(rs, Over))
  {
    var over := Report(rs, Over);
    forall o | o in over ensures Because(cfg, s, i, o) {
      var k :| 0 <= k < |over| && over[k] == o;
      assert rs[k] in rs;
    }
  }

  lemma TeardownBecause(cfg: Config, s: State, i: Input)
    requires i.event.Teardown?
    ensures AllBecause(cfg, s, i, ArmReports(cfg, s, i))
  {
    OverBecause(cfg, s, i, s.desk.calls.queued);
    OverBecause(cfg, s, i, s.desk.inbox);
    BecauseConcat(cfg, s, i, Report(s.desk.calls.queued, Over), Lapsed(s.desk.calls.inFlight));
    BecauseConcat(cfg, s, i, Report(s.desk.calls.queued, Over) + Lapsed(s.desk.calls.inFlight),
                  Report(s.desk.inbox, Over));
  }

  lemma ArmBecause(cfg: Config, s: State, i: Input)
    requires DeskInv(s.desk, cfg.capacity) && cfg.capacity > 0 && Vetted(cfg.charging, s.desk) && Enabled(cfg, s, i)
    ensures AllBecause(cfg, s, i, ArmReports(cfg, s, i))
  {
    if i.event.TakeCommand? {
      CrowdedBecause(cfg, s, i);
    } else if Answers(cfg, s, i) {
      AnswerBecause(cfg, s, i);
    } else if i.event.CommandTick? {
      TickBecause(cfg, s, i);
    } else if i.event.Teardown? {
      TeardownBecause(cfg, s, i);
    }
  }

  /** All results a step adds are the arm's and then those of an attempt to send. */
  lemma StepReports(cfg: Config, s: State, i: Input)
    requires Enabled(cfg, s, i)
    ensures var added := s.desk.results + ArmReports(cfg, s, i);
            var t := Step(cfg, s, i);
            || t.desk.results == added
            || (Tries(cfg, s, i)
                && t.desk.results == added + Reports(cfg.charging, ToSend(cfg, s, i), Alive(i.event)))
  {
    if Tries(cfg, s, i) {
      TryingIsSending(cfg, s, i);
      ReadyReports(cfg, s, i);
      SendReports(cfg, Ready(cfg, s, i), Alive(i.event));
    } else {
      OthersReport(cfg, s, i);
    }
  }

  lemma Among(a: seq<Outcome>, b: seq<Outcome>, c: seq<Outcome>, k: nat)
    requires |a| <= k < |a + b + c|
    ensures (a + b + c)[k] in b || (a + b + c)[k] in c
  {}

  // ---- main results ----

  /** Every result any run reports has its reason: a status derived from the charger's
      answer says what that answer means for the command, and any other status says what
      befell the request at that moment. */
  lemma EveryResultHasItsReason(cfg: Config, start: real, inputs: seq<Input>, i: Input, k: nat)
    requires cfg.capacity > 0
    requires var s := Run(cfg, Init(cfg, start), inputs);
             Enabled(cfg, s, i) && |s.desk.results| <= k < |Step(cfg, s, i).desk.results|
    ensures var s := Run(cfg, Init(cfg, start), inputs);
            Because(cfg, s, i, Step(cfg, s, i).desk.results[k])
  {
    RunKeepsCommands(cfg, start, inputs);
    RunVets(cfg, start, inputs);
    var s := Run(cfg, Init(cfg, start), inputs);
    ArmBecause(cfg, s, i);
    StepReports(cfg, s, i);
    if Tries(cfg, s, i) {
      ReportsBecause(cfg, s, i);
    }
    var sent := if Tries(cfg, s, i) then Reports(cfg.charging, ToSend(cfg, s, i), Alive(i.event)) else [];
    if Step(cfg, s, i).desk.results == s.desk.results + ArmReports(cfg, s, i) {
      Among(s.desk.results, ArmReports(cfg, s, i), [], k);
      assert s.desk.results + ArmReports(cfg, s, i) + [] == s.desk.results + ArmReports(cfg, s, i);
    } else {
      Among(s.desk.results, ArmReports(cfg, s, i), sent, k);
    }
  }

  /** And every answer to the Call in flight is reported, at once and first. */
  lemma EveryAnswerIsReported(cfg: Config, start: real, inputs: seq<Input>, i: Input)
    requires cfg.capacity > 0 && Answers(cfg, Run(cfg, Init(cfg, start), inputs), i)
    ensures var s := Run(cfg, Init(cfg, start), inputs);
            var results := Step(cfg, s, i).desk.results;
            && s.desk.results < results && FromAnswer(cfg, s, i, results[|s.desk.results|])
  {
    RunVets(cfg, start, inputs);
    var s := Run(cfg, Init(cfg, start), inputs);
    StepReports(cfg, s, i);
    AnswerBecause(cfg, s, i);
    assert ArmReports(cfg, s, i)[0] in ArmReports(cfg, s, i);
  }
}
