/** Frames, proxy commands and the Calls they become (`src/models.rs`,
    `src/command.rs`). JSON is abstracted to the parts the code branches on. */
module Commands {
  import opened Prelude
  import opened LimitPolicy

  datatype Action =
    | SetChargingProfile | ClearChargingProfile | GetConfigurationAction
    | ChangeConfigurationAction | TriggerMessageAction | GetCompositeScheduleAction

  /** The `status` field of an answer's payload. */
  datatype AnswerStatus = NoStatus | AcceptedAnswer | UnknownAnswer | RebootRequired | OtherAnswer(text: string)

  datatype MessageType = Call(action: string) | CallResult(answer: AnswerStatus) | CallError

  datatype Frame = Frame(raw: string, messageType: MessageType, uniqueId: string)

  /** A text message from either socket. Anything that does not parse as one of
      the three OCPP-J structures is `Malformed` and still has its bytes. */
  datatype Text = Parsed(frame: Frame) | Malformed(bytes: string) {
    function Raw(): string {
      if Parsed? then frame.raw else bytes
    }
  }

  datatype ProxyCommand =
    | SetCurrentLimit(limit: Amps)
    | ClearCurrentLimit
    | GetConfiguration(keys: seq<string>)
    | ChangeConfiguration(key: string, value: string)
    | TriggerMessage(requested: string, connector: Option<nat>)
    | GetCompositeSchedule(connector: Option<nat>, duration: nat)

  function ActionOf(c: ProxyCommand): Action {
    match c
    case SetCurrentLimit(_) => SetChargingProfile
    case ClearCurrentLimit => ClearChargingProfile
    case GetConfiguration(_) => GetConfigurationAction
    case ChangeConfiguration(_, _) => ChangeConfigurationAction
    case TriggerMessage(_, _) => TriggerMessageAction
    case GetCompositeSchedule(_, _) => GetCompositeScheduleAction
  }

  datatype Source = Mqtt | Reapply

  datatype Request = Request(id: string, command: ProxyCommand, source: Source, issuedAt: real)

  /** Setting and clearing both describe the desired limit. */
  predicate IsLimit(r: Request) {
    r.command.SetCurrentLimit? || r.command.ClearCurrentLimit?
  }

  predicate NotLimit(r: Request) {
    !IsLimit(r)
  }

  datatype Charging = Charging(policy: Policy, allowedKeys: set<string>, commandTimeout: real)

  datatype PreparedCall = PreparedCall(uniqueId: string, action: Action, applied: Option<real>)

  datatype InFlight = InFlight(request: Request, prepared: PreparedCall, sentAt: real)

  const TRIGGERABLE_MESSAGES: set<string> := {
    "BootNotification", "DiagnosticsStatusNotification", "FirmwareStatusNotification",
    "Heartbeat", "MeterValues", "StatusNotification"
  }

  /** Validation before anything is sent; `None` rejects the request. */
  function PrepareCall(charging: Charging, r: Request, uniqueId: string): Option<PreparedCall> {
    var action := ActionOf(r.command);
    match r.command
    case SetCurrentLimit(limit) =>
      (match ResolveLimit(charging.policy, limit)
       case Some(applied) => Some(PreparedCall(uniqueId, action, Some(applied)))
       case None => None)
    case ChangeConfiguration(key, _) =>
      if key in charging.allowedKeys then Some(PreparedCall(uniqueId, action, None)) else None
    case TriggerMessage(requested, _) =>
      if requested in TRIGGERABLE_MESSAGES then Some(PreparedCall(uniqueId, action, None)) else None
    case _ => Some(PreparedCall(uniqueId, action, None))
  }

  datatype Status = Accepted | Rejected | Error | Timeout | NotConnected | Invalid | Superseded

  /** How the charger's answer to one of the proxy's Calls is read. */
  function InterpretResponse(action: Action, messageType: MessageType): Status {
    match messageType
    case Call(_) => Error
    case CallError => Error
    case CallResult(answer) =>
      if answer in {NoStatus, AcceptedAnswer} then Accepted
      else if action.ClearChargingProfile? && answer.UnknownAnswer? then Accepted
      else if action.ChangeConfigurationAction? && answer.RebootRequired? then Accepted
      else Rejected
  }

  /** A reported result. `answerTo` names the Call a charger's answer closed;
      it is `None` for every result the proxy produced on its own. */
  datatype Outcome = Outcome(request: Request, status: Status, answerTo: Option<string>)

  // ---- unique ids ----

  function Digit(n: nat): char
    requires n < 10
  {
    ('0' as int + n) as char
  }

  function Digits(n: nat): (s: string)
    ensures |s| > 0
    ensures forall c :: c in s ==> '0' <= c <= '9'
  {
    if n < 10 then [Digit(n)] else Digits(n / 10) + [Digit(n % 10)]
  }

  lemma {:induction false} DigitsInjective(a: nat, b: nat)
    requires Digits(a) == Digits(b)
    ensures a == b
  {
    var x, y := Digits(a), Digits(b);
    assert x[|x| - 1] == y[|y| - 1];
    if a >= 10 && b >= 10 {
      assert x[..|x| - 1] == Digits(a / 10) && y[..|y| - 1] == Digits(b / 10);
      DigitsInjective(a / 10, b / 10);
    }
  }

  function Power10(k: nat): nat {
    if k == 0 then 1 else 10 * Power10(k - 1)
  }

  lemma {:induction false} DigitsLength(n: nat, k: nat)
    requires k > 0 && n < Power10(k)
    ensures |Digits(n)| <= k
  {
    if n >= 10 {
      DigitsLength(n / 10, k - 1);
    }
  }

  const UNIQUE_ID_PREFIX := "proxy-"

  function UniqueId(millis: nat, sequence: nat): string {
    UNIQUE_ID_PREFIX + Digits(millis) + "-" + Digits(sequence)
  }

  lemma UniqueIdHasPrefix(millis: nat, sequence: nat)
    ensures UNIQUE_ID_PREFIX <= UniqueId(millis, sequence)
  {
    assert UniqueId(millis, sequence) == UNIQUE_ID_PREFIX + (Digits(millis) + "-" + Digits(sequence));
  }

  /** Two ids drawn with different sequence numbers differ, whatever the clock
      said when they were drawn. */
  lemma UniqueIdsDiffer(m: nat, s: nat, m': nat, s': nat)
    requires UniqueId(m, s) == UniqueId(m', s')
    ensures s == s'
  {
    var x, y := UniqueId(m, s), UniqueId(m', s');
    LastDash(UNIQUE_ID_PREFIX + Digits(m), Digits(s), UNIQUE_ID_PREFIX + Digits(m'), Digits(s'));
    DigitsInjective(s, s');
  }

  lemma LastDash(a: string, p: string, b: string, q: string)
    requires a + "-" + p == b + "-" + q
    requires '-' !in p && '-' !in q
    ensures p == q
  {
    var x, y := a + "-" + p, b + "-" + q;
    assert x[|a|] == '-' && y[|b|] == '-';
    if |p| != |q| {
      assert false;
    }
    assert x[|a| + 1..] == p && y[|b| + 1..] == q;
  }

  /** Section 4.1.4 of OCPP-J 1.6 limits a message id to 36 characters. */
  lemma UniqueIdFits(millis: nat, sequence: nat)
    requires millis < Power10(13) && sequence < Power10(16)
    ensures |UniqueId(millis, sequence)| <= 36
  {
    DigitsLength(millis, 13);
    DigitsLength(sequence, 16);
  }
}
