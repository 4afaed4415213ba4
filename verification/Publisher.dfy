/** The MQTT publisher's outgoing side (`src/mqtt.rs`) as a state machine: a FIFO
    buffer that is at once the offline store and the staging queue in front of a
    bounded request channel. The channel is a count of free slots. */
module Publisher {
  import opened Prelude
  import opened Topics
  import opened Snapshot

  const REQUEST_CHANNEL_CAPACITY: nat := 10

  datatype Content = Online | SnapshotOf(chargePoint: ChargePoint) | Opaque(bytes: string)

  datatype MqttMessage = MqttMessage(topic: Topic, content: Content)

  /** A queued message with its place in the order of queueing. */
  datatype Tagged = Tagged(message: MqttMessage, tag: nat)

  /** `queued`, `handed` and `evicted` are logs; `flushStart` is how much had been
      handed over when the flush now open (if any) began. */
  datatype Outbox = Outbox(
    buffer: seq<Tagged>, slots: nat, flush: Option<nat>,
    queued: seq<MqttMessage>, handed: seq<Tagged>, evicted: seq<Tagged>, flushStart: nat)

  const EMPTY_OUTBOX := Outbox([], REQUEST_CHANNEL_CAPACITY, None, [], [], [], 0)

  // ---- the buffer ----

  /** Hand the front of the buffer over until the channel is full. */
  function Drain(o: Outbox): Outbox {
    var k := MinNat(o.slots, |o.buffer|);
    o.(buffer := o.buffer[k..], slots := o.slots - k, handed := o.handed + o.buffer[..k],
       flush := if o.flush.None? || k == |o.buffer| then None else Some(o.flush.value + k))
  }

  /** Queue at the back; a full buffer loses its oldest message. */
  function Append(o: Outbox, m: MqttMessage, limit: nat): Outbox {
    var k := if |o.buffer| >= limit && o.buffer != [] then 1 else 0;
    o.(buffer := o.buffer[k..] + [Tagged(m, |o.queued|)], evicted := o.evicted + o.buffer[..k],
       queued := o.queued + [m])
  }

  /** Queue ahead of everything else; nothing is evicted. */
  function PushFront(o: Outbox, m: MqttMessage): Outbox {
    o.(buffer := [Tagged(m, |o.queued|)] + o.buffer, queued := o.queued + [m])
  }

  function Enqueue(o: Outbox, m: MqttMessage, limit: nat, connected: bool): Outbox {
    var appended := Append(o, m, limit);
    if connected then Drain(appended) else appended
  }

  function StartFlush(o: Outbox): Outbox {
    if o.buffer == [] then o else Drain(o.(flush := Some(0), flushStart := |o.handed|))
  }

  // ---- the publisher ----

  datatype Config = Config(limit: nat, announced: Option<string>, commands: bool, reapply: bool)

  datatype LinkState = LinkState(upstreamUp: bool, downstreamUp: bool)

  /** A standing limit sent to a charger's session again. */
  datatype Reapplied = Reapplied(id: string, limit: real)

  /** `connAcks` and `reapplied` are logs. */
  datatype State = State(
    connected: bool, subscribePending: bool, box: Outbox,
    snapshots: map<string, ChargePoint>, links: map<string, LinkState>,
    connAcks: nat, reapplied: seq<Reapplied>)

  const BOTH_UP := LinkState(true, true)

  /** A command outcome as it reaches the publisher: its message and what it
      folds into the snapshot. */
  datatype Outcome = Outcome(message: MqttMessage, entry: Entry)

  datatype Event =
    | ConnAck(slots: nat, order: seq<string>)
    | Tick(freed: nat)
    | Incoming(freed: nat, id: string, refused: Option<Outcome>)
    | ConnectionLost
    | Forwarded(id: string, message: MqttMessage, entry: Entry)
    | LinkChanged(id: string, message: MqttMessage, link: LinkState, refused: Option<Outcome>)
    | CommandDone(id: string, outcome: Outcome)

  function Init(snapshots: map<string, ChargePoint>): State {
    State(false, false, EMPTY_OUTBOX, snapshots, map[], 0, [])
  }

  function SnapshotMessage(id: string, s: ChargePoint): MqttMessage {
    MqttMessage(Topic.Snapshot(id), SnapshotOf(s))
  }

  predicate Distinct(order: seq<string>) {
    forall i, j :: 0 <= i < j < |order| ==> order[i] != order[j]
  }

  /** Snapshots are republished in some order of the map's keys, and the channel
      never has more free slots than its capacity. */
  predicate Enabled(s: State, e: Event) {
    match e
    case ConnAck(slots, order) =>
      && slots <= REQUEST_CHANNEL_CAPACITY && Distinct(order)
      && (forall id :: id in order ==> id in s.snapshots) && (forall id :: id in s.snapshots ==> id in order)
    case Tick(freed) => s.box.slots + freed <= REQUEST_CHANNEL_CAPACITY
    case Incoming(freed, _, _) => s.box.slots + freed <= REQUEST_CHANNEL_CAPACITY
    case _ => true
  }

  function Put(cfg: Config, s: State, m: MqttMessage): State {
    s.(box := Enqueue(s.box, m, cfg.limit, s.connected))
  }

  /** Publish a message and fold its entry into the snapshot; the snapshot itself
      is published only if a field moved. */
  function PutAndFold(cfg: Config, s: State, id: string, m: MqttMessage, e: Entry): State {
    var put := Put(cfg, s, m);
    var before := if id in s.snapshots then s.snapshots[id] else NO_SNAPSHOT;
    var after := Fold(before, e);
    var folded := put.(snapshots := s.snapshots[id := after]);
    if after.body == before.body then folded else Put(cfg, folded, SnapshotMessage(id, after))
  }

  function Refuse(cfg: Config, s: State, id: string, refused: Option<Outcome>): State {
    if refused.None? then s else PutAndFold(cfg, s, id, refused.value.message, refused.value.entry)
  }

  function TrySubscribe(s: State): State {
    if s.subscribePending && s.box.slots > 0 then
      s.(subscribePending := false, box := s.box.(slots := s.box.slots - 1))
    else s
  }

  function Republish(cfg: Config, s: State, order: seq<string>): State
    requires forall id :: id in order ==> id in s.snapshots
  {
    if order == [] then s
    else
      var n := |order| - 1;
      Put(cfg, Republish(cfg, s, order[..n]), SnapshotMessage(order[n], s.snapshots[order[n]]))
  }

  function Announce(cfg: Config, o: Outbox): Outbox {
    if cfg.announced.None? then o
    else Drain(PushFront(o, MqttMessage(Availability(cfg.announced.value), Online)))
  }

  function Reconnected(cfg: Config, s: State, slots: nat): State {
    s.(connected := true, connAcks := s.connAcks + 1,
       box := StartFlush(Announce(cfg, s.box.(slots := slots))))
  }

  /** `online` first, then the backlog, then the retained snapshots, then the
      subscriptions. */
  function OnConnAck(cfg: Config, s: State, slots: nat, order: seq<string>): State
    requires forall id :: id in order ==> id in s.snapshots
  {
    TrySubscribe(Republish(cfg, Reconnected(cfg, s, slots), order).(subscribePending := cfg.commands))
  }

  /** A standing limit is re-sent when both links are up again. */
  predicate Resends(cfg: Config, s: State, id: string, link: LinkState) {
    var wasUp := id in s.links && s.links[id] == BOTH_UP;
    && cfg.commands && cfg.reapply && link == BOTH_UP && !wasUp
    && id in s.snapshots && Standing(s.snapshots[id]).Some?
  }

  function NoteLink(cfg: Config, s: State, id: string, m: MqttMessage, link: LinkState): State {
    Put(cfg, s, m).(links := s.links[id := link])
  }

  /** The standing limit on its way to the charger's session. */
  function Resent(s: State, id: string): State
    requires id in s.snapshots && Standing(s.snapshots[id]).Some?
  {
    s.(reapplied := s.reapplied + [Reapplied(id, Standing(s.snapshots[id]).value)])
  }

  function OnLinkChanged(cfg: Config, s: State, id: string, m: MqttMessage, link: LinkState,
                         refused: Option<Outcome>): State
  {
    var noted := NoteLink(cfg, s, id, m, link);
    if Resends(cfg, s, id, link) then Refuse(cfg, Resent(noted, id), id, refused) else noted
  }

  function Settle(s: State): State {
    if s.connected then s.(box := Drain(s.box)) else s
  }

  function Freed(s: State, freed: nat): State {
    s.(box := s.box.(slots := s.box.slots + freed))
  }

  function Step(cfg: Config, s: State, e: Event): State {
    if !Enabled(s, e) then s
    else
      match e
      case ConnAck(slots, order) => OnConnAck(cfg, s, slots, order)
      case Tick(freed) =>
        var f := Freed(s, freed);
        if s.connected then Settle(TrySubscribe(f)) else f
      case Incoming(freed, id, refused) => Settle(Refuse(cfg, Freed(s, freed), id, refused))
      case ConnectionLost => s.(connected := false)
      case Forwarded(id, message, entry) => PutAndFold(cfg, s, id, message, entry)
      case LinkChanged(id, message, link, refused) => OnLinkChanged(cfg, s, id, message, link, refused)
      case CommandDone(id, outcome) => PutAndFold(cfg, s, id, outcome.message, outcome.entry)
  }

  function Run(cfg: Config, s: State, events: seq<Event>): State {
    if events == [] then s else Step(cfg, Run(cfg, s, events[..|events| - 1]), events[|events| - 1])
  }
}
