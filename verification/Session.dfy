/** One charger's proxy session as an event-driven state machine
    (`src/session.rs`). Every arm of the select loop runs to completion, so one
    arm is one step; what the sockets, the clock and the router do is the input.
    Times are milliseconds. */
module Session {
  import opened Prelude
  import opened Commands
  import opened LocalCalls
  import opened CommandDesk
  import opened Forwarding
  import Backoff

  const CENTRAL_CALL_GRACE: real := 10000.0
  const CLOSE_NORMAL: nat := 1000
  const CLOSE_GOING_AWAY: nat := 1001
  const BACKOFF_MULTIPLIER: real := 2.0

  datatype Config = Config(
    charging: Charging, capacity: nat,
    bufferSize: nat, bufferAge: real, trackerAge: real,
    window: real, initialBackoff: real, maxBackoff: real)

  /** Where the session task is: connecting upstream, sleeping before the next
      attempt with (`Retrying`) or without (`Pausing`) an eye on the charger,
      forwarding, past the main loop, or past the teardown drain. */
  datatype Phase =
    | Connecting(started: real)
    | Retrying(until: real)
    | Pausing(until: real)
    | Forwarding
    | Closing
    | Drained

  /** A text delivered to the Central System; `source` is its position among the
      texts read from the charger and `counted` whether it was a parsed frame. */
  datatype Delivery = Delivery(raw: string, source: nat, counted: bool)

  /** What travels between the charger and the Central System. The index sets
      record why a text read from the charger was not delivered: it answered a
      proxy Call, it arrived while no upstream existed, or it was malformed and
      its send failed. */
  datatype Pipe = Pipe(
    buffer: seq<Buffered>, tracker: Tracker, counter: nat,
    read: seq<Text>, delivered: seq<Delivery>,
    answers: set<nat>, idle: set<nat>, failed: set<nat>)

  const EMPTY_PIPE := Pipe([], map[], 0, [], [], {}, {}, {})

  /** What happened on the charger's line that bears on taking turns. */
  datatype LineEvent =
    | ProxySent(id: string, at: real)
    | ProxyAnswered(id: string, at: real)
    | ProxyTimedOut(id: string, at: real)
    | CentralCall(id: string, at: real)
    | ChargerCall(id: string, at: real)
    | Response(id: string, at: real)

  /** `heard` logs the Central System's texts that the charger was sent. */
  datatype State = State(
    now: real, phase: Phase, since: Option<real>, backoff: real, closeCode: nat,
    desk: Desk, pipe: Pipe, line: seq<LineEvent>, heard: seq<string>)

  datatype Event =
    | Arrive(request: Request)
    | InboxClosed
    | ConnectFailed
    | ConnectOk(accepts: nat)
    | SleepOver
    | Cancelled
    | ChargerText(text: Text, upOk: bool, alive: bool)
    | ChargerOther
    | ChargerClosed
    | CentralText(text: Text, alive: bool)
    | CentralPing(pongOk: bool)
    | CentralOther
    | CentralClosed
    | TakeCommand(alive: bool)
    | CommandTick(alive: bool)
    | Housekeeping
    | Teardown

  datatype Input = Input(at: real, event: Event)

  function Init(cfg: Config, now: real): State {
    State(now, Connecting(now), None, cfg.initialBackoff, CLOSE_NORMAL, EMPTY_DESK, EMPTY_PIPE, [], [])
  }

  /** Whether the select loop can take this arm now. Clocks do not run back, the
      inbox takes a request only while a sender exists and there is room. */
  predicate Enabled(cfg: Config, s: State, i: Input) {
    && i.at >= s.now
    && match i.event {
         case Arrive(_) => s.desk.open && |s.desk.inbox| < cfg.capacity
         case InboxClosed => s.phase.Forwarding? && s.desk.open && s.desk.inbox == []
         case ConnectFailed | ConnectOk(_) => s.phase.Connecting?
         case SleepOver => s.phase.Retrying? || s.phase.Pausing?
         case Cancelled => s.phase.Retrying? || s.phase.Pausing? || s.phase.Forwarding?
         case ChargerText(_, _, _) | ChargerOther | ChargerClosed => s.phase.Retrying? || s.phase.Forwarding?
         case CentralText(_, _) | CentralPing(_) | CentralOther | CentralClosed => s.phase.Forwarding?
         case TakeCommand(_) => s.phase.Forwarding? && s.desk.open && s.desk.inbox != []
         case CommandTick(_) => s.phase.Forwarding? && !Idle(s.desk.calls)
         case Housekeeping => s.phase.Forwarding?
         case Teardown => s.phase.Closing?
       }
  }

  /** An input the loop cannot take leaves the session as it is. */
  function Step(cfg: Config, s: State, i: Input): State {
    if Enabled(cfg, s, i) then Act(cfg, s.(now := i.at), i.event) else s
  }

  function Run(cfg: Config, s: State, inputs: seq<Input>): State {
    if inputs == [] then s
    else Step(cfg, Run(cfg, s, inputs[..|inputs| - 1]), inputs[|inputs| - 1])
  }

  // ---- reconnecting ----

  function Since(s: State): real {
    if s.since.Some? then s.since.value else s.now
  }

  /** The connection attempt failed: give up after the window, or sleep. */
  function OnConnectFailed(cfg: Config, s: State): State {
    var elapsed := s.now - Since(s);
    if elapsed >= cfg.window then
      s.(since := Some(Since(s)), phase := Closing, closeCode := CLOSE_GOING_AWAY)
    else
      var delay := MinReal(Backoff.Delay(s.backoff, cfg.maxBackoff), MaxReal(cfg.window - elapsed, 1.0));
      s.(since := Some(Since(s)), phase := Retrying(s.now + delay),
         backoff := Backoff.Advance(s.backoff, BACKOFF_MULTIPLIER, cfg.maxBackoff))
  }

  function Replayed(buffer: seq<Buffered>): seq<Delivery> {
    seq(|buffer|, i requires 0 <= i < |buffer| => Delivery(buffer[i].frame.raw, buffer[i].source, true))
  }

  function ReplayBuffer(p: Pipe, k: nat): Pipe
    requires k <= |p.buffer|
  {
    p.(buffer := p.buffer[k..], delivered := p.delivered + Replayed(p.buffer[..k]))
  }

  /** Connected: replay the buffer. Only a complete replay is counted; a failed
      one goes straight back to connecting. */
  function OnConnectOk(cfg: Config, s: State, accepts: nat): State {
    var k := MinNat(accepts, |s.pipe.buffer|);
    var pipe := ReplayBuffer(s.pipe, k);
    var up := s.(since := None, backoff := cfg.initialBackoff);
    if k == |s.pipe.buffer| then
      up.(phase := Forwarding, pipe := pipe.(counter := pipe.counter + k))
    else
      up.(phase := Connecting(s.now), pipe := pipe)
  }

  /** The upstream connection failed while forwarding. */
  function LoseUpstream(cfg: Config, s: State): State {
    s.(since := Some(Since(s)), phase := Pausing(s.now + Backoff.Delay(s.backoff, cfg.maxBackoff)),
       backoff := Backoff.Advance(s.backoff, BACKOFF_MULTIPLIER, cfg.maxBackoff))
  }

  // ---- proxy Calls ----

  predicate Held(s: State) {
    RecentPending(s.pipe.tracker, CentralToCharger, s.now, CENTRAL_CALL_GRACE)
  }

  function NewCall(before: seq<Sent>, after: seq<Sent>, now: real): seq<LineEvent> {
    if |after| > |before| then [ProxySent(after[|after| - 1].uniqueId, now)] else []
  }

  /** Give the line to a proxy Call if nothing else holds it. */
  function Send(cfg: Config, s: State, alive: bool): State {
    var out := SendLocal(cfg.charging, s.desk, Held(s), s.now, alive);
    s.(desk := out.desk, line := s.line + NewCall(s.desk.sent, out.desk.sent, s.now),
       phase := if out.lost then Closing else s.phase)
  }

  // ---- the arms of the forwarding loop ----

  function LineOf(f: Frame, direction: Direction, now: real): LineEvent {
    match f.messageType
    case Call(_) => if direction.CentralToCharger? then CentralCall(f.uniqueId, now) else ChargerCall(f.uniqueId, now)
    case _ => Response(f.uniqueId, now)
  }

  predicate AnswersProxy(s: State, text: Text) {
    text.Parsed? && !text.frame.messageType.Call? && Ours(s.desk.calls, text.frame.uniqueId)
  }

  /** The charger answered a question the proxy asked: not passed on. */
  function Consume(s: State, f: Frame): State
    requires s.desk.calls.inFlight.Some?
  {
    s.(pipe := s.pipe.(read := s.pipe.read + [Parsed(f)], answers := s.pipe.answers + {|s.pipe.read|}),
       desk := Answer(s.desk, f.messageType),
       line := s.line + [ProxyAnswered(f.uniqueId, s.now)])
  }

  /** A frame sent on to the Central System. */
  function RelayFrame(s: State, f: Frame): State {
    s.(pipe := s.pipe.(read := s.pipe.read + [Parsed(f)],
                       delivered := s.pipe.delivered + [Delivery(f.raw, |s.pipe.read|, true)],
                       tracker := Observe(s.pipe.tracker, f, ChargerToCentral, s.now),
                       counter := s.pipe.counter + 1),
       line := s.line + [LineOf(f, ChargerToCentral, s.now)])
  }

  /** A frame whose send failed, kept for the next connection. */
  function KeepFrame(cfg: Config, s: State, f: Frame): State {
    s.(pipe := s.pipe.(read := s.pipe.read + [Parsed(f)],
                       buffer := AfterBuffering(s.pipe.buffer, Buffered(f, s.now, |s.pipe.read|), cfg.bufferSize)))
  }

  /** Text that is not an OCPP frame is passed on as it is, and not kept. */
  function RelayMalformed(s: State, bytes: string): State {
    s.(pipe := s.pipe.(read := s.pipe.read + [Malformed(bytes)],
                       delivered := s.pipe.delivered + [Delivery(bytes, |s.pipe.read|, false)]))
  }

  function DropMalformed(s: State, bytes: string): State {
    s.(pipe := s.pipe.(read := s.pipe.read + [Malformed(bytes)], failed := s.pipe.failed + {|s.pipe.read|}))
  }

  /** A text from the charger while forwarding. */
  function OnChargerText(cfg: Config, s: State, text: Text, upOk: bool, alive: bool): State {
    if AnswersProxy(s, text) then Send(cfg, Consume(s, text.frame), alive)
    else if text.Parsed? then
      if upOk then Send(cfg, RelayFrame(s, text.frame), alive) else LoseUpstream(cfg, KeepFrame(cfg, s, text.frame))
    else
      if upOk then RelayMalformed(s, text.bytes) else LoseUpstream(cfg, DropMalformed(s, text.bytes))
  }

  /** A text from the charger while a reconnect is being retried is not kept. */
  function OnIdleText(s: State, text: Text): State {
    s.(pipe := s.pipe.(read := s.pipe.read + [text], idle := s.pipe.idle + {|s.pipe.read|}),
       phase := Connecting(s.now))
  }

  function OnCentralText(s: State, text: Text, alive: bool): State {
    if !alive then s.(phase := Closing)
    else if text.Malformed? then s.(heard := s.heard + [text.bytes])
    else s.(heard := s.heard + [text.frame.raw],
            pipe := s.pipe.(tracker := Observe(s.pipe.tracker, text.frame, CentralToCharger, s.now)),
            line := s.line + [LineOf(text.frame, CentralToCharger, s.now)])
  }

  function TimedOut(s: State, timeout: real): seq<LineEvent> {
    if Overdue(s.desk.calls.inFlight, s.now, timeout) then
      [ProxyTimedOut(s.desk.calls.inFlight.value.prepared.uniqueId, s.now)]
    else []
  }

  function OnCommandTick(cfg: Config, s: State, alive: bool): State {
    var timeout := cfg.charging.commandTimeout;
    Send(cfg, s.(desk := ExpireDesk(s.desk, s.now, timeout), line := s.line + TimedOut(s, timeout)), alive)
  }

  function OnHousekeeping(cfg: Config, s: State): State {
    s.(pipe := s.pipe.(buffer := Filter(Fresh(s.now, cfg.bufferAge), s.pipe.buffer),
                       tracker := Cleanup(s.pipe.tracker, s.now, cfg.trackerAge)))
  }

  function Act(cfg: Config, s: State, e: Event): State {
    match e
    case Arrive(request) => s.(desk := CommandDesk.Arrive(s.desk, request))
    case InboxClosed => s.(desk := s.desk.(open := false))
    case ConnectFailed => OnConnectFailed(cfg, s)
    case ConnectOk(accepts) => OnConnectOk(cfg, s, accepts)
    case SleepOver => s.(phase := Connecting(s.now))
    case Cancelled | ChargerClosed => s.(phase := Closing)
    case ChargerText(text, upOk, alive) =>
      if s.phase.Forwarding? then OnChargerText(cfg, s, text, upOk, alive) else OnIdleText(s, text)
    case ChargerOther => if s.phase.Forwarding? then s else s.(phase := Connecting(s.now))
    case CentralText(text, alive) => OnCentralText(s, text, alive)
    case CentralPing(pongOk) => if pongOk then s else LoseUpstream(cfg, s)
    case CentralOther => s
    case CentralClosed => LoseUpstream(cfg, s)
    case TakeCommand(alive) =>
      if s.desk.inbox == [] then s else Send(cfg, s.(desk := TakeOne(s.desk, cfg.capacity)), alive)
    case CommandTick(alive) => OnCommandTick(cfg, s, alive)
    case Housekeeping => OnHousekeeping(cfg, s)
    case Teardown => s.(desk := Close(s.desk), phase := Drained)
  }
}
