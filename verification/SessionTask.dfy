/** The session task as the program runs it: one object per charger, updated in
    place by the arms of its select loop, each proved against `Session.Act`. */
module SessionTask {
  import opened Prelude
  import opened Commands
  import opened LocalCalls
  import opened CommandDesk
  import opened Forwarding
  import opened Session
  import Backoff

  class ChargerSession {
    const cfg: Config
    const local: LocalCallQueue
    const forwarder: MessageForwarder
    const backoff: Backoff.ExponentialBackoff
    var now: real
    var phase: Phase
    var reconnectingSince: Option<real>
    var closeCode: nat
    var commandsOpen: bool
    var inbox: seq<Request>
    var chargerToCentral: nat
    ghost var arrived: seq<Request>
    ghost var taken: seq<Request>
    ghost var sent: seq<Sent>
    ghost var results: seq<Outcome>
    ghost var line: seq<LineEvent>
    ghost var heard: seq<string>
    var read: seq<Text>
    ghost var delivered: seq<Delivery>
    ghost var answers: set<nat>
    ghost var idle: set<nat>
    ghost var failed: set<nat>

    ghost predicate Valid()
      reads this, backoff
    {
      && backoff.Valid()
      && backoff.initial == cfg.initialBackoff && backoff.max == cfg.maxBackoff
      && backoff.multiplier == BACKOFF_MULTIPLIER
      && local.timeout == cfg.charging.commandTimeout && local.capacity == cfg.capacity
      && forwarder.maxBufferSize == cfg.bufferSize && forwarder.maxBufferDuration == cfg.bufferAge
      && forwarder.tracker.maxAge == cfg.trackerAge
    }

    ghost function DeskView(): Desk
      reads this, local
    {
      Desk(inbox, commandsOpen, local.View(), arrived, taken, sent, results)
    }

    ghost function PipeView(): Pipe
      reads this, forwarder, forwarder.tracker
    {
      Pipe(forwarder.upstreamBuffer, forwarder.tracker.pendingCalls, chargerToCentral,
           read, delivered, answers, idle, failed)
    }

    ghost function View(): State
      reads this, local, forwarder, forwarder.tracker, backoff
    {
      State(now, phase, reconnectingSince, backoff.current, closeCode, DeskView(), PipeView(), line, heard)
    }

    constructor (cfg: Config, start: real)
      requires cfg.capacity > 0 && cfg.initialBackoff >= 0.0 && cfg.maxBackoff >= 0.0
      ensures Valid() && this.cfg == cfg && View() == Init(cfg, start)
      ensures fresh(local) && fresh(forwarder) && fresh(forwarder.tracker) && fresh(backoff)
    {
      this.cfg := cfg;
      local := new LocalCallQueue(cfg.charging.commandTimeout, cfg.capacity);
      forwarder := new MessageForwarder(cfg.bufferSize, cfg.bufferAge, cfg.trackerAge);
      backoff := new Backoff.ExponentialBackoff(cfg.initialBackoff, cfg.maxBackoff, BACKOFF_MULTIPLIER);
      now, phase, reconnectingSince, closeCode := start, Connecting(start), None, CLOSE_NORMAL;
      commandsOpen, inbox, chargerToCentral := true, [], 0;
      arrived, taken, sent, results, line, heard := [], [], [], [], [], [];
      read, delivered, answers, idle, failed := [], [], {}, {}, {};
    }

    // ---- reporting ----

    method EmitCommandResult(outcome: Outcome)
      modifies this`results
      ensures results == old(results) + [outcome]
    {
      results := results + [outcome];
    }

    method EmitAll(requests: seq<Request>, why: Reason)
      modifies this`results
      ensures results == old(results) + Report(requests, why)
    {
      for i := 0 to |requests|
        invariant results == old(results) + Report(requests[..i], why)
      {
        EmitCommandResult(Outcome(requests[i], StatusFor(why, requests[i]), None));
        assert Report(requests[..i + 1], why)
            == Report(requests[..i], why) + [Outcome(requests[i], StatusFor(why, requests[i]), None)];
      }
      assert requests[..|requests|] == requests;
    }

    // ---- proxy Calls ----

    /** Put one prepared Call on the wire; `false` if the charger is gone. The
        frame's text is abstracted to its unique id. */
    method Dispatch(request: Request, prepared: PreparedCall, alive: bool) returns (ok: bool)
      modifies this`results, this`sent, this`line, local`inFlight
      ensures ok == alive
      ensures ok ==> && local.inFlight == Some(InFlight(request, prepared, now)) && results == old(results)
                     && sent == old(sent) + [Sent(prepared.uniqueId, request, Millis(now), local.sequence, |taken|)]
                     && line == old(line) + [ProxySent(prepared.uniqueId, now)]
      ensures !ok ==> && results == old(results) + [Outcome(request, NotConnected, None)]
                      && local.inFlight == old(local.inFlight) && sent == old(sent) && line == old(line)
    {
      var sink := new MessageSink(if alive then 1 else 0);
      ok := sink.SendRaw(prepared.uniqueId);
      if !ok {
        EmitCommandResult(Outcome(request, NotConnected, None));
      } else {
        local.SetInFlight(request, prepared, now);
        sent := sent + [Sent(prepared.uniqueId, request, Millis(now), local.sequence, |taken|)];
        line := line + [ProxySent(prepared.uniqueId, now)];
      }
    }

    method PumpQueue(alive: bool) returns (gone: bool)
      requires local.inFlight.None?
      modifies this`results, this`sent, this`line, local
      ensures var out := Pump(cfg.charging, old(DeskView()), now, alive);
              DeskView() == out.desk && gone == out.lost
      ensures line == old(line) + NewCall(old(sent), sent, now)
    {
      ghost var before := DeskView();
      ghost var goal := Pump(cfg.charging, before, now, alive);
      while local.queued != []
        invariant local.inFlight.None? && sent == before.sent && line == old(line)
        invariant DeskView() == before.(calls := local.View(), results := results)
        invariant Pump(cfg.charging, DeskView(), now, alive) == goal
        decreases |local.queued|
      {
        var popped := local.PopNext();
        var uniqueId := local.NextUniqueId(Millis(now));
        var prepared := PrepareCall(cfg.charging, popped.value, uniqueId);
        if prepared.Some? {
          var ok := Dispatch(popped.value, prepared.value, alive);
          return !ok;
        }
        EmitCommandResult(Outcome(popped.value, Invalid, None));
      }
      gone := false;
    }

    /** Give the line to a proxy Call, unless one is open or a Central System Call
        is waiting; `gone` if the charger is. */
    method SendLocalCalls(alive: bool) returns (gone: bool)
      requires Valid()
      modifies this`results, this`sent, this`line, local
      ensures Valid()
      ensures View() == Send(cfg, old(View()), alive).(phase := old(phase))
      ensures gone == SendLocal(cfg.charging, old(DeskView()), Held(old(View())), now, alive).lost
    {
      gone := false;
      if local.inFlight.None? && local.queued != [] {
        var held := forwarder.tracker.HasRecentPendingIn(CentralToCharger, now, CENTRAL_CALL_GRACE);
        if !held {
          gone := PumpQueue(alive);
        }
      }
    }

    // ---- reconnecting ----

    method OnConnectFailed()
      requires Valid()
      modifies this`reconnectingSince, this`phase, this`closeCode, backoff
      ensures Valid() && View() == Session.OnConnectFailed(cfg, old(View()))
    {
      if reconnectingSince.None? {
        reconnectingSince := Some(now);
      }
      var elapsed := now - reconnectingSince.value;
      if elapsed >= cfg.window {
        closeCode := CLOSE_GOING_AWAY;
        phase := Closing;
      } else {
        var next := backoff.NextDelay();
        phase := Retrying(now + MinReal(next, MaxReal(cfg.window - elapsed, 1.0)));
      }
    }

    method Replay(accepts: nat) returns (complete: bool)
      modifies this`chargerToCentral, this`delivered, forwarder
      ensures var k := MinNat(accepts, |old(forwarder.upstreamBuffer)|);
              && complete == (k == |old(forwarder.upstreamBuffer)|)
              && PipeView() == ReplayBuffer(old(PipeView()), k)
                                 .(counter := old(chargerToCentral) + (if complete then k else 0))
    {
      ghost var waiting := forwarder.upstreamBuffer;
      var sink := new MessageSink(accepts);
      var flushed := forwarder.FlushUpstream(sink);
      delivered := delivered + Replayed(waiting[..MinNat(accepts, |waiting|)]);
      complete := flushed.Some?;
      if complete {
        chargerToCentral := chargerToCentral + flushed.value;
      }
    }

    method OnConnectOk(accepts: nat)
      requires Valid()
      modifies this`reconnectingSince, this`phase, this`chargerToCentral, this`delivered, backoff, forwarder
      ensures Valid() && View() == Session.OnConnectOk(cfg, old(View()), accepts)
    {
      backoff.Reset();
      reconnectingSince := None;
      var complete := Replay(accepts);
      phase := if complete then Forwarding else Connecting(now);
    }

    method LoseUpstream()
      requires Valid()
      modifies this`reconnectingSince, this`phase, backoff
      ensures Valid() && View() == Session.LoseUpstream(cfg, old(View()))
    {
      if reconnectingSince.None? {
        reconnectingSince := Some(now);
      }
      var pause := backoff.NextDelay();
      phase := Pausing(now + pause);
    }

    // ---- the arms of the forwarding loop ----

    /** The charger answered one of the proxy's Calls. */
    method CompleteLocalCall(frame: Frame)
      requires Ours(local.View(), frame.uniqueId)
      modifies this`results, this`line, local`inFlight
      ensures DeskView() == Answer(old(DeskView()), frame.messageType)
      ensures line == old(line) + [ProxyAnswered(frame.uniqueId, now)]
    {
      var taken := local.TakeResponse(frame.uniqueId);
      var f := taken.value;
      EmitCommandResult(Outcome(f.request, InterpretResponse(f.prepared.action, frame.messageType),
                                Some(f.prepared.uniqueId)));
      line := line + [ProxyAnswered(frame.uniqueId, now)];
    }

    /** An answer to the proxy ends at the proxy. */
    method ConsumeAnswer(frame: Frame)
      requires Valid() && Ours(local.View(), frame.uniqueId)
      modifies this`results, this`line, this`read, this`answers, local`inFlight
      ensures Valid()
      ensures DeskView() == Answer(old(DeskView()), frame.messageType)
      ensures line == old(line) + [ProxyAnswered(frame.uniqueId, now)]
      ensures PipeView() == old(PipeView()).(read := old(read) + [Parsed(frame)],
                                             answers := old(answers) + {|old(read)|})
    {
      answers := answers + {|read|};
      read := read + [Parsed(frame)];
      CompleteLocalCall(frame);
    }

    method SendUpstream(frame: Frame, upOk: bool) returns (ok: bool)
      modifies forwarder.tracker
      ensures ok == upOk
      ensures forwarder.tracker.pendingCalls
           == if ok then Observe(old(forwarder.tracker.pendingCalls), frame, ChargerToCentral, now)
              else old(forwarder.tracker.pendingCalls)
    {
      var sink := new MessageSink(if upOk then 1 else 0);
      var action;
      ok, action := forwarder.ForwardMessage(frame, sink, ChargerToCentral, now);
    }

    /** Forward a frame upstream, or keep it for after the reconnect. */
    method ForwardFrame(frame: Frame, upOk: bool)
      requires Valid()
      modifies this`chargerToCentral, this`read, this`delivered, this`line, forwarder, forwarder.tracker
      ensures Valid()
      ensures View() == if upOk then RelayFrame(old(View()), frame) else KeepFrame(cfg, old(View()), frame)
    {
      var ok := SendUpstream(frame, upOk);
      if ok {
        chargerToCentral := chargerToCentral + 1;
        delivered := delivered + [Delivery(frame.raw, |read|, true)];
        line := line + [LineOf(frame, ChargerToCentral, now)];
      } else {
        forwarder.BufferUpstream(Buffered(frame, now, |read|));
      }
      read := read + [Parsed(frame)];
    }

    method ForwardMalformed(bytes: string, upOk: bool)
      requires Valid()
      modifies this`read, this`delivered, this`failed
      ensures Valid()
      ensures View() == if upOk then RelayMalformed(old(View()), bytes) else DropMalformed(old(View()), bytes)
    {
      var sink := new MessageSink(if upOk then 1 else 0);
      var ok := sink.SendRaw(bytes);
      if ok {
        delivered := delivered + [Delivery(bytes, |read|, false)];
      } else {
        failed := failed + {|read|};
      }
      read := read + [Malformed(bytes)];
    }

    method TrySending(alive: bool)
      requires Valid()
      modifies this`results, this`sent, this`line, this`phase, local
      ensures Valid() && View() == Send(cfg, old(View()), alive)
    {
      var gone := SendLocalCalls(alive);
      if gone {
        phase := Closing;
      }
    }

    method OnChargerText(text: Text, upOk: bool, alive: bool)
      requires Valid() && phase.Forwarding?
      modifies this, local, forwarder, forwarder.tracker, backoff
      ensures Valid() && View() == Session.OnChargerText(cfg, old(View()), text, upOk, alive)
    {
      if text.Parsed? {
        var frame := text.frame;
        if !frame.messageType.Call? && Ours(local.View(), frame.uniqueId) {
          ConsumeAnswer(frame);
          TrySending(alive);
        } else {
          ForwardFrame(frame, upOk);
          if !upOk {
            LoseUpstream();
          } else if local.queued != [] || local.inFlight.Some? {
            TrySending(alive);
          }
        }
      } else {
        ForwardMalformed(text.bytes, upOk);
        if !upOk {
          LoseUpstream();
        }
      }
    }

    method OnCentralText(text: Text, alive: bool)
      requires Valid() && phase.Forwarding?
      modifies this`line, this`heard, this`phase, forwarder.tracker
      ensures Valid() && View() == Session.OnCentralText(old(View()), text, alive)
    {
      var sink := new MessageSink(if alive then 1 else 0);
      if text.Parsed? {
        var ok, action := forwarder.ForwardMessage(text.frame, sink, CentralToCharger, now);
        if ok {
          line := line + [LineOf(text.frame, CentralToCharger, now)];
        } else {
          phase := Closing;
        }
      } else {
        var ok := sink.SendRaw(text.bytes);
        if !ok {
          phase := Closing;
        }
      }
      heard := heard + sink.delivered;
    }

    method TakeCommand()
      requires Valid() && inbox != []
      modifies this`inbox, this`taken, this`results, local
      ensures Valid() && DeskView() == TakeOne(old(DeskView()), cfg.capacity)
    {
      var request := inbox[0];
      inbox := inbox[1..];
      taken := taken + [request];
      var displaced := local.Push(request);
      EmitAll(displaced, Crowded);
    }

    method ExpireCommands()
      requires Valid()
      modifies this`results, this`line, local
      ensures Valid() && DeskView() == ExpireDesk(old(DeskView()), now, cfg.charging.commandTimeout)
      ensures line == old(line) + TimedOut(old(View()), cfg.charging.commandTimeout)
    {
      var expired, late := local.Expire(now);
      EmitAll(expired, Stale);
      ReportLate(late);
    }

    /** Report the Call in flight if its time is up. */
    method ReportLate(late: Option<InFlight>)
      modifies this`results, this`line
      ensures results == old(results) + Lapsed(late)
      ensures line == old(line) + (if late.Some? then [ProxyTimedOut(late.value.prepared.uniqueId, now)] else [])
    {
      if late.Some? {
        EmitCommandResult(Outcome(late.value.request, Timeout, None));
        line := line + [ProxyTimedOut(late.value.prepared.uniqueId, now)];
      }
    }

    method OnHousekeeping()
      requires Valid()
      modifies forwarder, forwarder.tracker
      ensures Valid() && View() == Session.OnHousekeeping(cfg, old(View()))
    {
      var evicted := forwarder.EvictExpiredMessages(now);
      var stale := forwarder.tracker.CleanupExpired(now);
    }

    /** Nothing queued or in flight can be delivered any more: say so. */
    method ReportHeld()
      modifies this`results, local`queued, local`inFlight
      ensures results == old(results) + Report(old(local.queued), Over) + Lapsed(old(local.inFlight))
      ensures local.queued == [] && local.inFlight.None?
    {
      var queued, late := local.Drain();
      EmitAll(queued, Over);
      if late.Some? {
        EmitCommandResult(Outcome(late.value.request, Timeout, None));
      }
    }

    method DrainInbox()
      modifies this`inbox, this`taken, this`results
      ensures inbox == [] && taken == old(taken) + old(inbox)
      ensures results == old(results) + Report(old(inbox), Over)
    {
      ghost var all := inbox;
      ghost var k := 0;
      while inbox != []
        invariant k <= |all| && inbox == all[k..] && taken == old(taken) + all[..k]
        invariant results == old(results) + Report(all[..k], Over)
        decreases |inbox|
      {
        var request := inbox[0];
        assert Report(all[..k + 1], Over) == Report(all[..k], Over) + [Outcome(request, NotConnected, None)];
        inbox := inbox[1..];
        taken := taken + [request];
        EmitCommandResult(Outcome(request, NotConnected, None));
        k := k + 1;
      }
      assert all[..k] == all;
    }

    method TearDown()
      requires Valid()
      modifies this`inbox, this`taken, this`results, this`phase, local`queued, local`inFlight
      ensures Valid() && View() == old(View()).(desk := Close(old(DeskView())), phase := Drained)
    {
      ReportHeld();
      DrainInbox();
      phase := Drained;
    }

    // ---- one pass through the loop, and the loop ----

    /** The arms that only move the session between its phases. */
    method HandleLink(e: Event)
      requires Valid()
      requires e.ConnectFailed? || e.ConnectOk? || e.SleepOver? || e.Cancelled? || e.ChargerClosed? || e.ChargerOther?
               || e.CentralPing? || e.CentralOther? || e.CentralClosed?
      modifies this`reconnectingSince, this`phase, this`closeCode, this`chargerToCentral, this`delivered,
               backoff, forwarder
      ensures Valid() && View() == Act(cfg, old(View()), e)
    {
      match e
      case ConnectFailed => OnConnectFailed();
      case ConnectOk(accepts) => OnConnectOk(accepts);
      case SleepOver => phase := Connecting(now);
      case ChargerOther =>
        if !phase.Forwarding? {
          phase := Connecting(now);
        }
      case CentralPing(pongOk) =>
        if !pongOk {
          LoseUpstream();
        }
      case CentralOther =>
      case CentralClosed => LoseUpstream();
      case Cancelled => phase := Closing;
      case ChargerClosed => phase := Closing;
    }

    method HandleTexts(e: Event)
      requires Valid() && (e.ChargerText? || e.CentralText?)
      requires e.CentralText? ==> phase.Forwarding?
      modifies this, local, forwarder, forwarder.tracker, backoff
      ensures Valid() && View() == Act(cfg, old(View()), e)
    {
      match e
      case ChargerText(text, upOk, alive) =>
        if phase.Forwarding? {
          OnChargerText(text, upOk, alive);
        } else {
          idle := idle + {|read|};
          read := read + [text];
          phase := Connecting(now);
        }
      case CentralText(text, alive) => OnCentralText(text, alive);
    }

    method OnTakeCommand(alive: bool)
      requires Valid() && inbox != []
      modifies this`inbox, this`taken, this`results, this`sent, this`line, this`phase, local
      ensures Valid() && View() == Send(cfg, old(View()).(desk := TakeOne(old(DeskView()), cfg.capacity)), alive)
    {
      TakeCommand();
      TrySending(alive);
    }

    method OnCommandTick(alive: bool)
      requires Valid()
      modifies this`results, this`sent, this`line, this`phase, local
      ensures Valid() && View() == Session.OnCommandTick(cfg, old(View()), alive)
    {
      ExpireCommands();
      TrySending(alive);
    }

    method HandleInbox(e: Event)
      requires Valid() && (e.Arrive? || e.InboxClosed?)
      modifies this`inbox, this`arrived, this`commandsOpen
      ensures Valid() && View() == Act(cfg, old(View()), e)
    {
      match e
      case Arrive(request) =>
        inbox := inbox + [request];
        arrived := arrived + [request];
      case InboxClosed => commandsOpen := false;
    }

    method HandleTimers(e: Event)
      requires Valid() && (e.CommandTick? || e.Housekeeping? || e.Teardown?)
      modifies this, local, forwarder, forwarder.tracker
      ensures Valid() && View() == Act(cfg, old(View()), e)
    {
      match e
      case CommandTick(alive) => OnCommandTick(alive);
      case Housekeeping => OnHousekeeping();
      case Teardown => TearDown();
    }

    method Handle(i: Input)
      requires Valid() && Enabled(cfg, View(), i)
      modifies this, local, forwarder, forwarder.tracker, backoff
      ensures Valid() && View() == Step(cfg, old(View()), i)
    {
      now := i.at;
      match i.event
      case ChargerText(_, _, _) => HandleTexts(i.event);
      case CentralText(_, _) => HandleTexts(i.event);
      case Arrive(_) => HandleInbox(i.event);
      case InboxClosed => HandleInbox(i.event);
      case TakeCommand(alive) => OnTakeCommand(alive);
      case CommandTick(_) => HandleTimers(i.event);
      case Housekeeping => HandleTimers(i.event);
      case Teardown => HandleTimers(i.event);
      case _ => HandleLink(i.event);
    }

    /** The whole session, over the inputs the outside world produces. */
    method RunSession(inputs: seq<Input>)
      requires Valid() && AllEnabled(cfg, View(), inputs)
      modifies this, local, forwarder, forwarder.tracker, backoff
      ensures Valid() && View() == Run(cfg, old(View()), inputs)
    {
      ghost var s := View();
      for i := 0 to |inputs|
        invariant Valid() && View() == Run(cfg, s, inputs[..i])
      {
        PrefixEnabled(cfg, s, inputs, i + 1);
        assert inputs[..i + 1][..i] == inputs[..i];
        Handle(inputs[i]);
      }
      assert inputs[..|inputs|] == inputs;
    }
  }

  /** Every input is one the select loop could take when its turn came. */
  ghost predicate AllEnabled(cfg: Config, s: State, inputs: seq<Input>) {
    inputs == [] ||
    var n := |inputs| - 1;
    AllEnabled(cfg, s, inputs[..n]) && Enabled(cfg, Run(cfg, s, inputs[..n]), inputs[n])
  }

  lemma {:induction false} PrefixEnabled(cfg: Config, s: State, inputs: seq<Input>, k: nat)
    requires AllEnabled(cfg, s, inputs) && k <= |inputs|
    ensures AllEnabled(cfg, s, inputs[..k])
  {
    if k < |inputs| {
      var n := |inputs| - 1;
      PrefixEnabled(cfg, s, inputs[..n], k);
      assert inputs[..n][..k] == inputs[..k];
    } else {
      assert inputs[..k] == inputs;
    }
  }
}
