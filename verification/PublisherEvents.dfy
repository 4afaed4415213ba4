/** What each event makes the publisher queue, remember, hand over and lose. */
module PublisherEvents {
  import opened Prelude
  import opened Topics
  import opened Snapshot
  import opened Publisher
  import opened PublisherRuns
  import opened PublisherReconnect

  // ---- what the publisher remembers ----

  /** What is remembered of a charge point; nothing reads as the empty snapshot. */
  function Remembered(s: State, id: string): ChargePoint {
    if id in s.snapshots then s.snapshots[id] else NO_SNAPSHOT
  }

  /** A standing limit was sent again between the two states. */
  predicate WasResent(s: State, t: State) {
    |t.reapplied| > |s.reapplied|
  }

  /** What an event says about a charge point: a forwarded message, the outcome of a
      command, or the refusal of one no session could be given. */
  function Says(cfg: Config, s: State, e: Event, id: string): seq<Entry> {
    if !Enabled(s, e) then []
    else
      match e
      case Forwarded(about, _, entry) => if about == id then [entry] else []
      case CommandDone(about, outcome) => if about == id then [outcome.entry] else []
      case Incoming(_, about, refused) => if about == id && refused.Some? then [refused.value.entry] else []
      case LinkChanged(about, _, _, refused) =>
        if about == id && refused.Some? && WasResent(s, Step(cfg, s, e)) then [refused.value.entry] else []
      case _ => []
  }

  function Entries(cfg: Config, snapshots: map<string, ChargePoint>, events: seq<Event>, id: string): seq<Entry> {
    if events == [] then []
    else
      var n := |events| - 1;
      Entries(cfg, snapshots, events[..n], id) + Says(cfg, Run(cfg, Init(snapshots), events[..n]), events[n], id)
  }

  /** One entry folded into one snapshot, the others left alone. */
  predicate FoldsOne(s: State, t: State, id: string, e: Entry) {
    t.snapshots == s.snapshots[id := Fold(Remembered(s, id), e)]
  }

  /** What is remembered of `id` afterwards is what was, with `says` folded in. */
  predicate Learns(s: State, t: State, id: string, says: seq<Entry>) {
    && |says| <= 1
    && Remembered(t, id) == (if says == [] then Remembered(s, id) else Fold(Remembered(s, id), says[0]))
    && (id in t.snapshots <==> id in s.snapshots || says != [])
  }

  lemma PutAndFoldFolds(cfg: Config, s: State, id: string, m: MqttMessage, e: Entry)
    ensures FoldsOne(s, PutAndFold(cfg, s, id, m, e), id, e)
  {}

  lemma {:induction false} RepublishRemembers(cfg: Config, s: State, order: seq<string>)
    requires forall id :: id in order ==> id in s.snapshots
    ensures Republish(cfg, s, order).snapshots == s.snapshots
  {
    if order != [] {
      RepublishRemembers(cfg, s, order[..|order| - 1]);
    }
  }

  lemma LinkChangedRemembers(cfg: Config, s: State, e: Event, id: string)
    requires e.LinkChanged?
    ensures Learns(s, Step(cfg, s, e), id, Says(cfg, s, e, id))
  {
    LinkChangedSetsLinks(cfg, s, e);
    if Resends(cfg, s, e.id, e.link) && e.refused.Some? {
      var u := Resent(NoteLink(cfg, s, e.id, e.message, e.link), e.id);
      PutAndFoldFolds(cfg, u, e.id, e.refused.value.message, e.refused.value.entry);
    }
  }

  lemma StepRemembers(cfg: Config, s: State, e: Event, id: string)
    ensures Learns(s, Step(cfg, s, e), id, Says(cfg, s, e, id))
  {
    if e.LinkChanged? {
      LinkChangedRemembers(cfg, s, e, id);
    } else if e.Forwarded? || e.CommandDone? {
      MessageRemembers(cfg, s, e, id);
    } else {
      PolledRemembers(cfg, s, e, id);
    }
  }

  lemma MessageRemembers(cfg: Config, s: State, e: Event, id: string)
    requires e.Forwarded? || e.CommandDone?
    ensures Learns(s, Step(cfg, s, e), id, Says(cfg, s, e, id))
  {
    if e.Forwarded? {
      PutAndFoldFolds(cfg, s, e.id, e.message, e.entry);
    } else {
      PutAndFoldFolds(cfg, s, e.id, e.outcome.message, e.outcome.entry);
    }
  }

  lemma PolledRemembers(cfg: Config, s: State, e: Event, id: string)
    requires e.Tick? || e.Incoming? || e.ConnectionLost? || e.ConnAck?
    ensures Learns(s, Step(cfg, s, e), id, Says(cfg, s, e, id))
  {
    if e.Incoming? && e.refused.Some? {
      PutAndFoldFolds(cfg, Freed(s, e.freed), e.id, e.refused.value.message, e.refused.value.entry);
    } else if e.ConnAck? && Enabled(s, e) {
      RepublishRemembers(cfg, Reconnected(cfg, s, e.slots), e.order);
    }
  }

  // ---- what an event queues ----

  /** A charge point's snapshot, if the event moved a field of it. */
  function Publication(s: State, t: State, id: string): seq<MqttMessage> {
    if Remembered(t, id).body != Remembered(s, id).body then [SnapshotMessage(id, Remembered(t, id))] else []
  }

  function Refused(s: State, t: State, id: string, refused: Option<Outcome>): seq<MqttMessage> {
    if refused.Some? then [refused.value.message] + Publication(s, t, id) else []
  }

  /** The messages an event queues, in order. */
  function Queues(cfg: Config, s: State, t: State, e: Event): seq<MqttMessage>
    requires Enabled(s, e)
  {
    match e
    case Forwarded(id, message, _) => [message] + Publication(s, t, id)
    case CommandDone(id, outcome) => [outcome.message] + Publication(s, t, id)
    case Incoming(_, id, refused) => Refused(s, t, id, refused)
    case LinkChanged(id, message, _, refused) =>
      [message] + (if WasResent(s, t) then Refused(s, t, id, refused) else [])
    case ConnAck(_, order) => Greeting(cfg) + SnapshotMessages(s.snapshots, order)
    case Tick(_) => []
    case ConnectionLost => []
  }

  function Greeting(cfg: Config): seq<MqttMessage> {
    if cfg.announced.Some? then [MqttMessage(Availability(cfg.announced.value), Online)] else []
  }

  lemma PutAndFoldQueues(cfg: Config, s: State, id: string, m: MqttMessage, e: Entry)
    ensures var t := PutAndFold(cfg, s, id, m, e);
            t.box.queued == s.box.queued + ([m] + Publication(s, t, id))
  {
    var after := Fold(Remembered(s, id), e);
    assert s.box.queued + [m] + [SnapshotMessage(id, after)] == s.box.queued + ([m] + [SnapshotMessage(id, after)]);
    assert [m] + [] == [m];
  }

  lemma LinkChangedQueues(cfg: Config, s: State, e: Event)
    requires e.LinkChanged?
    ensures var t := Step(cfg, s, e); t.box.queued == s.box.queued + Queues(cfg, s, t, e)
  {
    LinkChangedSetsLinks(cfg, s, e);
    var t := Step(cfg, s, e);
    if Resends(cfg, s, e.id, e.link) && e.refused.Some? {
      var u := Resent(NoteLink(cfg, s, e.id, e.message, e.link), e.id);
      PutAndFoldQueues(cfg, u, e.id, e.refused.value.message, e.refused.value.entry);
      var more := [e.refused.value.message] + Publication(u, t, e.id);
      assert Publication(u, t, e.id) == Publication(s, t, e.id);
      assert s.box.queued + [e.message] + more == s.box.queued + ([e.message] + more);
    } else {
      assert [e.message] + [] == [e.message];
    }
  }

  lemma {:induction false} RepublishQueues(cfg: Config, s: State, order: seq<string>)
    requires forall id :: id in order ==> id in s.snapshots
    ensures Republish(cfg, s, order).box.queued == s.box.queued + SnapshotMessages(s.snapshots, order)
  {
    if order != [] {
      var n := |order| - 1;
      var m := SnapshotMessage(order[n], s.snapshots[order[n]]);
      RepublishQueues(cfg, s, order[..n]);
      assert SnapshotMessages(s.snapshots, order) == SnapshotMessages(s.snapshots, order[..n]) + [m];
    } else {
      assert SnapshotMessages(s.snapshots, order) == [];
    }
  }

  lemma ReconnectedQueues(cfg: Config, s: State, slots: nat)
    ensures Reconnected(cfg, s, slots).box.queued == s.box.queued + Greeting(cfg)
  {}

  lemma ConnAckQueues(cfg: Config, s: State, e: Event)
    requires e.ConnAck? && Enabled(s, e)
    ensures Step(cfg, s, e).box.queued == s.box.queued + (Greeting(cfg) + SnapshotMessages(s.snapshots, e.order))
  {
    ReconnectedQueues(cfg, s, e.slots);
    RepublishQueues(cfg, Reconnected(cfg, s, e.slots), e.order);
    ConcatAssociates(s.box.queued, Greeting(cfg), SnapshotMessages(s.snapshots, e.order));
    ConnAckKeepsQueued(cfg, s, e);
  }

  lemma ConnAckKeepsQueued(cfg: Config, s: State, e: Event)
    requires e.ConnAck? && Enabled(s, e)
    ensures Step(cfg, s, e).box.queued == Republish(cfg, Reconnected(cfg, s, e.slots), e.order).box.queued
  {}

  lemma IncomingQueues(cfg: Config, s: State, e: Event)
    requires e.Incoming? && Enabled(s, e)
    ensures var t := Step(cfg, s, e); t.box.queued == s.box.queued + Refused(s, t, e.id, e.refused)
  {
    if e.refused.Some? {
      PutAndFoldQueues(cfg, Freed(s, e.freed), e.id, e.refused.value.message, e.refused.value.entry);
    } else {
      assert s.box.queued + [] == s.box.queued;
    }
  }

  // ---- main results: memory and messages ----

  /** After any run every charge point is remembered as all that was said about it,
      folded into what was stored; and it is remembered at all only if something was. */
  lemma {:induction false} EveryEntryIsRemembered(cfg: Config, snapshots: map<string, ChargePoint>,
                                                  events: seq<Event>, id: string)
    ensures var s := Run(cfg, Init(snapshots), events);
            var h := Entries(cfg, snapshots, events, id);
            && Remembered(s, id) == FoldAll(Remembered(Init(snapshots), id), h)
            && (id in s.snapshots <==> id in snapshots || h != [])
  {
    if events != [] {
      var n := |events| - 1;
      var s := Run(cfg, Init(snapshots), events[..n]);
      EveryEntryIsRemembered(cfg, snapshots, events[..n], id);
      StepRemembers(cfg, s, events[n], id);
      FoldAllSnoc(Remembered(Init(snapshots), id), Entries(cfg, snapshots, events[..n], id),
                  Says(cfg, s, events[n], id));
    }
  }

  /** A charge point that nothing was stored about is shown as its history declares. */
  lemma NewChargePointsShowTheirHistory(cfg: Config, snapshots: map<string, ChargePoint>,
                                        events: seq<Event>, id: string)
    requires id !in snapshots
    ensures var h := Entries(cfg, snapshots, events, id);
            Remembered(Run(cfg, Init(snapshots), events), id).body == Declared(h, |h|)
  {
    var h := Entries(cfg, snapshots, events, id);
    EveryEntryIsRemembered(cfg, snapshots, events, id);
    FoldAllIsFolded(h, |h|);
    assert h[..|h|] == h;
    SnapshotEqualsHistory(h, |h|);
  }

  /** Every event queues its own message, then the refusal it led to, and a charge
      point's snapshot exactly if the event moved a field of it; a ConnAck queues
      `online` and every snapshot. */
  lemma EveryEventQueuesItsMessages(cfg: Config, snapshots: map<string, ChargePoint>, events: seq<Event>, e: Event)
    requires Enabled(Run(cfg, Init(snapshots), events), e)
    ensures var s := Run(cfg, Init(snapshots), events);
            var t := Step(cfg, s, e);
            t.box.queued == s.box.queued + Queues(cfg, s, t, e)
  {
    EventQueues(cfg, Run(cfg, Init(snapshots), events), e);
  }

  lemma EventQueues(cfg: Config, s: State, e: Event)
    requires Enabled(s, e)
    ensures var t := Step(cfg, s, e); t.box.queued == s.box.queued + Queues(cfg, s, t, e)
  {
    if e.LinkChanged? {
      LinkChangedQueues(cfg, s, e);
    } else if e.Forwarded? {
      PutAndFoldQueues(cfg, s, e.id, e.message, e.entry);
    } else if e.CommandDone? {
      PutAndFoldQueues(cfg, s, e.id, e.outcome.message, e.outcome.entry);
    } else if e.Incoming? {
      IncomingQueues(cfg, s, e);
    } else if e.ConnAck? {
      ConnAckQueues(cfg, s, e);
    } else {
      assert s.box.queued + [] == s.box.queued;
    }
  }

  // ---- slots and the subscription ----

  function Given(e: Event): nat {
    match e
    case Tick(freed) => freed
    case Incoming(freed, _, _) => freed
    case _ => 0
  }

  /** What is free and what was handed over, together. */
  function Spent(o: Outbox): nat {
    o.slots + |o.handed|
  }

  lemma DrainSpends(o: Outbox)
    ensures Spent(Drain(o)) == Spent(o) && o.handed <= Drain(o).handed
  {}

  lemma PutSpends(cfg: Config, s: State, m: MqttMessage)
    ensures var t := Put(cfg, s, m);
            && Spent(t.box) == Spent(s.box) && s.box.handed <= t.box.handed
            && (!s.connected ==> t.box.handed == s.box.handed)
            && t.connected == s.connected && t.subscribePending == s.subscribePending
  {
    DrainSpends(Append(s.box, m, cfg.limit));
  }

  /** Messages move, slots are spent, and nothing else changes. */
  predicate OnlySpends(s: State, t: State) {
    && Spent(t.box) == Spent(s.box) && s.box.handed <= t.box.handed
    && (!s.connected ==> t.box.handed == s.box.handed)
    && t.connected == s.connected && t.subscribePending == s.subscribePending
  }

  lemma PutAndFoldSpends(cfg: Config, s: State, id: string, m: MqttMessage, e: Entry)
    ensures OnlySpends(s, PutAndFold(cfg, s, id, m, e))
  {
    PutSpends(cfg, s, m);
    var after := Fold(Remembered(s, id), e);
    PutSpends(cfg, Put(cfg, s, m).(snapshots := s.snapshots[id := after]), SnapshotMessage(id, after));
  }

  lemma RefuseSpends(cfg: Config, s: State, id: string, refused: Option<Outcome>)
    ensures OnlySpends(s, Refuse(cfg, s, id, refused))
  {
    if refused.Some? {
      PutAndFoldSpends(cfg, s, id, refused.value.message, refused.value.entry);
    }
  }

  lemma {:induction false} RepublishSpends(cfg: Config, s: State, order: seq<string>)
    requires forall id :: id in order ==> id in s.snapshots
    ensures OnlySpends(s, Republish(cfg, s, order))
  {
    if order != [] {
      var n := |order| - 1;
      RepublishSpends(cfg, s, order[..n]);
      PutSpends(cfg, Republish(cfg, s, order[..n]), SnapshotMessage(order[n], s.snapshots[order[n]]));
    }
  }

  lemma LinkChangedSpends(cfg: Config, s: State, e: Event)
    requires e.LinkChanged?
    ensures OnlySpends(s, Step(cfg, s, e))
  {
    PutSpends(cfg, s, e.message);
    if Resends(cfg, s, e.id, e.link) {
      RefuseSpends(cfg, Resent(NoteLink(cfg, s, e.id, e.message, e.link), e.id), e.id, e.refused);
    }
  }

  /** The slot the subscription took, if it was sent. */
  function Subscribed(pending: bool, t: State): nat {
    if pending && !t.subscribePending then 1 else 0
  }

  lemma PolledSpends(cfg: Config, s: State, e: Event)
    requires (e.Tick? || e.Incoming?) && Enabled(s, e)
    ensures var t := Step(cfg, s, e);
            && Spent(t.box) + Subscribed(s.subscribePending, t) == Spent(s.box) + e.freed
            && s.box.handed <= t.box.handed && (!s.connected ==> t.box.handed == s.box.handed)
            && t.connected == s.connected
            && (t.subscribePending ==> s.subscribePending && (e.Tick? && s.connected ==> t.box.slots == 0))
  {
    var u := Freed(s, e.freed);
    if e.Incoming? {
      RefuseSpends(cfg, u, e.id, e.refused);
      DrainSpends(Refuse(cfg, u, e.id, e.refused).box);
    } else {
      DrainSpends(TrySubscribe(u).box);
    }
  }

  lemma ReconnectedSpends(cfg: Config, s: State, slots: nat)
    ensures var t := Reconnected(cfg, s, slots);
            t.connected && Spent(t.box) == slots + |s.box.handed| && s.box.handed <= t.box.handed
  {
    var o := s.box.(slots := slots);
    if cfg.announced.Some? {
      DrainSpends(PushFront(o, MqttMessage(Availability(cfg.announced.value), Online)));
    }
    var announced := Announce(cfg, o);
    if announced.buffer != [] {
      DrainSpends(announced.(flush := Some(0), flushStart := |announced.handed|));
    }
  }

  lemma ConnAckSpends(cfg: Config, s: State, e: Event)
    requires e.ConnAck? && Enabled(s, e)
    ensures var t := Step(cfg, s, e);
            && t.connected && s.box.handed <= t.box.handed
            && Spent(t.box) + Subscribed(cfg.commands, t) == e.slots + |s.box.handed|
            && (t.subscribePending ==> cfg.commands && t.box.slots == 0)
  {
    ReconnectedSpends(cfg, s, e.slots);
    RepublishSpends(cfg, Reconnected(cfg, s, e.slots), e.order);
  }

  /** Every free slot is still free, or was spent on a message or on the subscription;
      the subscription is owed after a ConnAck until a slot is there for it; and
      nothing is handed over without a connection. */
  lemma EverySlotIsAccountedFor(cfg: Config, snapshots: map<string, ChargePoint>, events: seq<Event>, e: Event)
    requires Enabled(Run(cfg, Init(snapshots), events), e)
    ensures var s := Run(cfg, Init(snapshots), events);
            var t := Step(cfg, s, e);
            var owed := if e.ConnAck? then cfg.commands else s.subscribePending;
            && Spent(t.box) + Subscribed(owed, t)
               == (if e.ConnAck? then e.slots + |s.box.handed| else Spent(s.box) + Given(e))
            && (t.subscribePending ==> owed && (e.ConnAck? || (e.Tick? && s.connected) ==> t.box.slots == 0))
            && (!s.connected && !e.ConnAck? ==> t.box.handed == s.box.handed)
            && (t.connected <==> e.ConnAck? || (s.connected && !e.ConnectionLost?))
  {
    var s := Run(cfg, Init(snapshots), events);
    if e.ConnAck? {
      ConnAckSpends(cfg, s, e);
    } else if e.Tick? || e.Incoming? {
      PolledSpends(cfg, s, e);
    } else if e.LinkChanged? {
      LinkChangedSpends(cfg, s, e);
    } else if e.Forwarded? {
      PutAndFoldSpends(cfg, s, e.id, e.message, e.entry);
    } else if e.CommandDone? {
      PutAndFoldSpends(cfg, s, e.id, e.outcome.message, e.outcome.entry);
    }
  }

  // ---- what happens to `online` ----

  function Hello(cfg: Config, s: State): Tagged
    requires cfg.announced.Some?
  {
    Tagged(MqttMessage(Availability(cfg.announced.value), Online), |s.box.queued|)
  }

  lemma {:induction false} RepublishPushesOut(cfg: Config, s: State, order: seq<string>)
    requires s.connected && s.box.slots == 0 && s.box.buffer != []
    requires forall id :: id in order ==> id in s.snapshots
    ensures var o := Republish(cfg, s, order).box;
            && Republish(cfg, s, order).connected && o.slots == 0 && o.handed == s.box.handed
            && if order == [] || |s.box.buffer| + |order| <= cfg.limit then
                 o.evicted == s.box.evicted && |o.buffer| == |s.box.buffer| + |order| && o.buffer[0] == s.box.buffer[0]
               else
                 s.box.buffer[0] in o.evicted && o.buffer != [] && |o.buffer| >= cfg.limit
  {
    if order != [] {
      var n := |order| - 1;
      RepublishPushesOut(cfg, s, order[..n]);
      PutPushesOut(cfg, Republish(cfg, s, order[..n]), SnapshotMessage(order[n], s.snapshots[order[n]]));
    }
  }

  lemma PutPushesOut(cfg: Config, s: State, m: MqttMessage)
    requires s.connected && s.box.slots == 0 && s.box.buffer != []
    ensures var t := Put(cfg, s, m);
            && t.connected && t.box.slots == 0 && t.box.handed == s.box.handed && t.box.buffer != []
            && s.box.evicted <= t.box.evicted
            && if |s.box.buffer| < cfg.limit then
                 && t.box.evicted == s.box.evicted && |t.box.buffer| == |s.box.buffer| + 1
                 && t.box.buffer[0] == s.box.buffer[0]
               else
                 |t.box.buffer| == |s.box.buffer| && t.box.evicted == s.box.evicted + [s.box.buffer[0]]
  {
    assert s.box.evicted + s.box.buffer[..0] == s.box.evicted;
    var o := Append(s.box, m, cfg.limit);
    assert o.handed + o.buffer[..0] == o.handed && o.buffer[0..] == o.buffer;
  }

  lemma HelloGoesFirst(cfg: Config, s: State, slots: nat)
    requires cfg.announced.Some?
    ensures var o := Reconnected(cfg, s, slots).box;
            if slots > 0 then
              |s.box.handed| < |o.handed| && o.handed[|s.box.handed|] == Hello(cfg, s)
            else
              && o.slots == 0 && o.handed == s.box.handed && o.evicted == s.box.evicted
              && o.buffer == [Hello(cfg, s)] + s.box.buffer
  {
    var pushed := PushFront(s.box.(slots := slots), Hello(cfg, s).message);
    var k := MinNat(slots, |pushed.buffer|);
    assert slots > 0 ==> (pushed.handed + pushed.buffer[..k])[|s.box.handed|] == Hello(cfg, s);
    assert slots == 0 ==> pushed.buffer[..0] == [] && pushed.buffer[0..] == pushed.buffer;
  }

  /** `online` is ahead of everything that waits. With a free slot it is the next message
      handed over. Without one it is the next to go, unless the snapshots queued behind
      it fill the buffer: then it is the first to be evicted, and the connection is
      never announced. */
  lemma OnlineIsLostIffSnapshotsFillTheBuffer(cfg: Config, snapshots: map<string, ChargePoint>, events: seq<Event>,
                                              slots: nat, order: seq<string>)
    requires cfg.announced.Some? && Enabled(Run(cfg, Init(snapshots), events), ConnAck(slots, order))
    ensures var s := Run(cfg, Init(snapshots), events);
            var o := Step(cfg, s, ConnAck(slots, order)).box;
            if slots > 0 then
              |s.box.handed| < |o.handed| && o.handed[|s.box.handed|] == Hello(cfg, s)
            else if order == [] || |s.box.buffer| + |order| < cfg.limit then
              o.handed == s.box.handed && o.buffer != [] && o.buffer[0] == Hello(cfg, s)
            else
              Hello(cfg, s) in o.evicted
  {
    var s := Run(cfg, Init(snapshots), events);
    HelloGoesFirst(cfg, s, slots);
    var up := Reconnected(cfg, s, slots);
    if slots > 0 {
      RepublishSpends(cfg, up, order);
      ConnAckHands(cfg, s, slots, order);
    } else {
      RepublishPushesOut(cfg, up, order);
    }
  }

  lemma ConnAckHands(cfg: Config, s: State, slots: nat, order: seq<string>)
    requires Enabled(s, ConnAck(slots, order))
    ensures Step(cfg, s, ConnAck(slots, order)).box.handed
         == Republish(cfg, Reconnected(cfg, s, slots), order).box.handed
  {}

  // ---- what is evicted ----

  lemma PutFits(cfg: Config, s: State, m: MqttMessage)
    ensures var t := Put(cfg, s, m);
            |s.box.buffer| < cfg.limit ==> t.box.evicted == s.box.evicted && |t.box.buffer| <= |s.box.buffer| + 1
  {
    assert s.box.evicted + s.box.buffer[..0] == s.box.evicted;
  }

  lemma PutAndFoldFits(cfg: Config, s: State, id: string, m: MqttMessage, e: Entry)
    requires |s.box.buffer| + 1 + |Publication(s, PutAndFold(cfg, s, id, m, e), id)| <= cfg.limit
    ensures PutAndFold(cfg, s, id, m, e).box.evicted == s.box.evicted
  {
    PutFits(cfg, s, m);
    var after := Fold(Remembered(s, id), e);
    PutFits(cfg, Put(cfg, s, m).(snapshots := s.snapshots[id := after]), SnapshotMessage(id, after));
  }

  lemma LinkChangedFits(cfg: Config, s: State, e: Event)
    requires e.LinkChanged? && |s.box.buffer| + |Queues(cfg, s, Step(cfg, s, e), e)| <= cfg.limit
    ensures Step(cfg, s, e).box.evicted == s.box.evicted
  {
    LinkChangedSetsLinks(cfg, s, e);
    PutFits(cfg, s, e.message);
    if Resends(cfg, s, e.id, e.link) && e.refused.Some? {
      var u := Resent(NoteLink(cfg, s, e.id, e.message, e.link), e.id);
      assert Publication(u, Step(cfg, s, e), e.id) == Publication(s, Step(cfg, s, e), e.id);
      PutAndFoldFits(cfg, u, e.id, e.refused.value.message, e.refused.value.entry);
    }
  }

  lemma {:induction false} RepublishFits(cfg: Config, s: State, order: seq<string>)
    requires (forall id :: id in order ==> id in s.snapshots) && |s.box.buffer| + |order| <= cfg.limit
    ensures var t := Republish(cfg, s, order);
            t.box.evicted == s.box.evicted && |t.box.buffer| <= |s.box.buffer| + |order|
  {
    if order != [] {
      var n := |order| - 1;
      RepublishFits(cfg, s, order[..n]);
      PutFits(cfg, Republish(cfg, s, order[..n]), SnapshotMessage(order[n], s.snapshots[order[n]]));
    }
  }

  lemma ConnAckFits(cfg: Config, s: State, e: Event)
    requires e.ConnAck? && Enabled(s, e) && |s.box.buffer| + |Greeting(cfg)| + |e.order| <= cfg.limit
    ensures Step(cfg, s, e).box.evicted == s.box.evicted
  {
    RepublishFits(cfg, Reconnected(cfg, s, e.slots), e.order);
  }

  /** An event whose messages fit into the buffer evicts nothing. */
  lemma NothingIsEvictedThatFits(cfg: Config, snapshots: map<string, ChargePoint>, events: seq<Event>, e: Event)
    requires Enabled(Run(cfg, Init(snapshots), events), e)
    requires var s := Run(cfg, Init(snapshots), events);
             |s.box.buffer| + |Queues(cfg, s, Step(cfg, s, e), e)| <= cfg.limit
    ensures var s := Run(cfg, Init(snapshots), events);
            Step(cfg, s, e).box.evicted == s.box.evicted
  {
    var s := Run(cfg, Init(snapshots), events);
    if e.LinkChanged? {
      LinkChangedFits(cfg, s, e);
    } else if e.Forwarded? {
      PutAndFoldFits(cfg, s, e.id, e.message, e.entry);
    } else if e.CommandDone? {
      PutAndFoldFits(cfg, s, e.id, e.outcome.message, e.outcome.entry);
    } else if e.Incoming? && e.refused.Some? {
      PutAndFoldFits(cfg, Freed(s, e.freed), e.id, e.refused.value.message, e.refused.value.entry);
    } else if e.ConnAck? {
      ConnAckFits(cfg, s, e);
    }
  }
}
