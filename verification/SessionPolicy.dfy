/** What a controller can make a charger do: nothing configuration does not allow,
    over every run of a session (`prepare_call` in `src/command.rs`). */
module SessionPolicy {
  import opened Prelude
  import opened LimitPolicy
  import opened Commands
  import opened CommandDesk
  import opened Session
  import opened SessionCommands

  /** What the configuration lets a controller ask of a charger. */
  predicate Permitted(charging: Charging, r: Request) {
    match r.command
    case SetCurrentLimit(limit) => limit.Finite? && limit.value >= 0.0
    case ChangeConfiguration(key, _) => key in charging.allowedKeys
    case TriggerMessage(requested, _) => requested in TRIGGERABLE_MESSAGES
    case _ => true
  }

  lemma PreparedIffPermitted(charging: Charging, r: Request, uniqueId: string)
    ensures PrepareCall(charging, r, uniqueId).Some? <==> Permitted(charging, r)
    ensures var call := PrepareCall(charging, r, uniqueId);
            call.Some? ==> && call.value.uniqueId == uniqueId
                           && (call.value.applied.Some? <==> r.command.SetCurrentLimit?)
  {}

  predicate AsPrepared(charging: Charging, inFlight: Option<InFlight>) {
    inFlight.Some? ==>
      var f := inFlight.value;
      PrepareCall(charging, f.request, f.prepared.uniqueId) == Some(f.prepared)
  }

  predicate Vetted(charging: Charging, d: Desk) {
    && (forall k :: 0 <= k < |d.sent| ==> Permitted(charging, d.sent[k].request))
    && (forall o :: o in d.results && o.status.Invalid? ==> !Permitted(charging, o.request))
    && AsPrepared(charging, d.calls.inFlight)
  }

  /** Reports and answers never call a request invalid, and send nothing. */
  lemma VettedAfterReports(charging: Charging, d: Desk, d': Desk)
    requires Vetted(charging, d) && d'.sent == d.sent
    requires d'.calls.inFlight == d.calls.inFlight || d'.calls.inFlight.None?
    requires forall o :: o in d'.results ==> o in d.results || !o.status.Invalid?
    ensures Vetted(charging, d')
  {}

  lemma {:induction false} PumpVets(charging: Charging, d: Desk, now: real, alive: bool)
    requires Vetted(charging, d)
    ensures Vetted(charging, Pump(charging, d, now, alive).desk)
    decreases |d.calls.queued|
  {
    if d.calls.queued != [] {
      var r, uniqueId := d.calls.queued[0], UniqueId(Millis(now), d.calls.sequence + 1);
      PreparedIffPermitted(charging, r, uniqueId);
      match PrepareCall(charging, r, uniqueId)
      case None => PumpVets(charging, Popped(d, Invalid), now, alive);
      case Some(_) =>
    }
  }

  lemma SendVets(cfg: Config, s: State, alive: bool)
    requires Vetted(cfg.charging, s.desk)
    ensures Vetted(cfg.charging, Send(cfg, s, alive).desk)
  {
    PumpVets(cfg.charging, s.desk, s.now, alive);
  }

  lemma DeskEventVets(cfg: Config, s: State, e: Event)
    requires Vetted(cfg.charging, s.desk) && TouchesDesk(e)
    ensures Vetted(cfg.charging, Act(cfg, s, e).desk)
  {
    if e.ChargerText? {
      ChargerTextVets(cfg, s, e);
    } else if e.TakeCommand? {
      TakeCommandVets(cfg, s, e);
    } else if e.CommandTick? {
      CommandTickVets(cfg, s, e.alive);
    } else {
      VettedAfterReports(cfg.charging, s.desk, Act(cfg, s, e).desk);
    }
  }

  lemma TakeCommandVets(cfg: Config, s: State, e: Event)
    requires Vetted(cfg.charging, s.desk) && e.TakeCommand?
    ensures Vetted(cfg.charging, Act(cfg, s, e).desk)
  {
    if s.desk.inbox != [] {
      var taken := TakeOne(s.desk, cfg.capacity);
      VettedAfterReports(cfg.charging, s.desk, taken);
      SendVets(cfg, s.(desk := taken), e.alive);
    }
  }

  lemma ChargerTextVets(cfg: Config, s: State, e: Event)
    requires Vetted(cfg.charging, s.desk) && e.ChargerText?
    ensures Vetted(cfg.charging, Act(cfg, s, e).desk)
  {
    if AnswersProxy(s, e.text) {
      VettedAfterReports(cfg.charging, s.desk, Answer(s.desk, e.text.frame.messageType));
      SendVets(cfg, Consume(s, e.text.frame), e.alive);
    } else if e.text.Parsed? {
      SendVets(cfg, RelayFrame(s, e.text.frame), e.alive);
    }
  }

  lemma CommandTickVets(cfg: Config, s: State, alive: bool)
    requires Vetted(cfg.charging, s.desk)
    ensures Vetted(cfg.charging, OnCommandTick(cfg, s, alive).desk)
  {
    var timeout := cfg.charging.commandTimeout;
    var swept := ExpireDesk(s.desk, s.now, timeout);
    VettedAfterReports(cfg.charging, s.desk, swept);
    SendVets(cfg, s.(desk := swept, line := s.line + TimedOut(s, timeout)), alive);
  }

  lemma {:induction false} RunVets(cfg: Config, start: real, inputs: seq<Input>)
    ensures Vetted(cfg.charging, Run(cfg, Init(cfg, start), inputs).desk)
  {
    if inputs != [] {
      var i, s := inputs[|inputs| - 1], Run(cfg, Init(cfg, start), inputs[..|inputs| - 1]);
      RunVets(cfg, start, inputs[..|inputs| - 1]);
      if !TouchesDesk(i.event) {
        OthersLeaveTheDesk(cfg, s, i);
      } else if Enabled(cfg, s, i) {
        DeskEventVets(cfg, s.(now := i.at), i.event);
      }
    }
  }

  // ---- main results ----

  /** Over any run, every Call sent is one the configuration permits, and every
      request reported invalid is one it does not. */
  lemma OnlyPermittedCallsAreSent(cfg: Config, start: real, inputs: seq<Input>)
    ensures var d := Run(cfg, Init(cfg, start), inputs).desk;
            && (forall k :: 0 <= k < |d.sent| ==> Permitted(cfg.charging, d.sent[k].request))
            && (forall o :: o in d.results && o.status.Invalid? ==> !Permitted(cfg.charging, o.request))
  {
    RunVets(cfg, start, inputs);
  }

  /** Exactly the Calls that set a limit carry one, it is the one the policy applies to
      the request, and it is above the configured ceiling by half a tenth at most. */
  lemma NoCallExceedsTheCeiling(cfg: Config, start: real, inputs: seq<Input>)
    requires cfg.charging.policy.maxLimit >= 0.0
    requires Run(cfg, Init(cfg, start), inputs).desk.calls.inFlight.Some?
    ensures var f := Run(cfg, Init(cfg, start), inputs).desk.calls.inFlight.value;
            && (f.prepared.applied.Some? <==> f.request.command.SetCurrentLimit?)
            && (f.prepared.applied.Some? ==>
                  && 0.0 <= f.prepared.applied.value <= cfg.charging.policy.maxLimit + 0.05
                  && f.request.command.limit.Finite? && f.request.command.limit.value >= 0.0
                  && f.prepared.applied.value == Applied(cfg.charging.policy, f.request.command.limit.value))
  {
    RunVets(cfg, start, inputs);
    var f := Run(cfg, Init(cfg, start), inputs).desk.calls.inFlight.value;
    PreparedIffPermitted(cfg.charging, f.request, f.prepared.uniqueId);
    if f.request.command.SetCurrentLimit? {
      CeilingHolds(cfg.charging.policy, f.request.command.limit);
    }
  }
}
