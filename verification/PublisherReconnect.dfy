/** What a reconnect to the broker achieves: current snapshots, and a backlog
    that gets out. */
module PublisherReconnect {
  import opened Prelude
  import opened Topics
  import opened Snapshot
  import opened Publisher
  import opened PublisherRuns

  // ---- current snapshot last ----

  /** The stream of messages as the broker will see it. */
  function Stream(o: Outbox): seq<Tagged> {
    o.handed + o.buffer
  }

  predicate OnSnapshotTopic(x: Tagged, id: string) {
    x.message.topic == Topic.Snapshot(id)
  }

  /** The last message on a charge point's snapshot topic. */
  function LastSnapshot(stream: seq<Tagged>, id: string): Option<Content> {
    if stream == [] then None
    else if OnSnapshotTopic(stream[|stream| - 1], id) then Some(stream[|stream| - 1].message.content)
    else LastSnapshot(stream[..|stream| - 1], id)
  }

  function Messages(stream: seq<Tagged>): seq<MqttMessage> {
    seq(|stream|, i requires 0 <= i < |stream| => stream[i].message)
  }

  function SnapshotMessages(snapshots: map<string, ChargePoint>, order: seq<string>): seq<MqttMessage>
    requires forall id :: id in order ==> id in snapshots
  {
    seq(|order|, i requires 0 <= i < |order| => SnapshotMessage(order[i], snapshots[order[i]]))
  }

  predicate EndsWith(stream: seq<Tagged>, messages: seq<MqttMessage>) {
    |messages| <= |stream| && Messages(stream[|stream| - |messages|..]) == messages
  }

  /** Queueing one more message never evicts one of the last ones, as long as the
      buffer has room for all of them. */
  lemma AppendExtends(o: Outbox, m: MqttMessage, limit: nat, messages: seq<MqttMessage>)
    requires EndsWith(Stream(o), messages) && |messages| < limit
    ensures EndsWith(Stream(Append(o, m, limit)), messages + [m])
  {
    var n := |messages|;
    var before, after := Stream(o), Stream(Append(o, m, limit));
    AppendKeepsTail(o, m, limit, n);
    assert after[|after| - n - 1..] == before[|before| - n..] + [after[|after| - 1]];
    assert Messages(after[|after| - n - 1..]) == Messages(before[|before| - n..]) + [m];
  }

  lemma AppendKeepsTail(o: Outbox, m: MqttMessage, limit: nat, n: nat)
    requires n <= |Stream(o)| && n < limit
    ensures var before, after := Stream(o), Stream(Append(o, m, limit));
            && n < |after| && after[|after| - 1].message == m
            && after[|after| - n - 1..|after| - 1] == before[|before| - n..]
  {}

  lemma DrainKeepsStream(o: Outbox)
    ensures Stream(Drain(o)) == Stream(o)
  {
    var k := MinNat(o.slots, |o.buffer|);
    assert o.buffer == o.buffer[..k] + o.buffer[k..];
  }

  lemma PutExtends(cfg: Config, s: State, m: MqttMessage, messages: seq<MqttMessage>)
    requires EndsWith(Stream(s.box), messages) && |messages| < cfg.limit
    ensures EndsWith(Stream(Put(cfg, s, m).box), messages + [m])
  {
    AppendExtends(s.box, m, cfg.limit, messages);
    DrainKeepsStream(Append(s.box, m, cfg.limit));
  }

  lemma {:induction false} RepublishEndsWithAll(cfg: Config, s: State, order: seq<string>)
    requires (forall id :: id in order ==> id in s.snapshots) && |order| <= cfg.limit
    ensures EndsWith(Stream(Republish(cfg, s, order).box), SnapshotMessages(s.snapshots, order))
  {
    if order != [] {
      var n := |order| - 1;
      var m := SnapshotMessage(order[n], s.snapshots[order[n]]);
      RepublishEndsWithAll(cfg, s, order[..n]);
      PutExtends(cfg, Republish(cfg, s, order[..n]), m, SnapshotMessages(s.snapshots, order[..n]));
      assert SnapshotMessages(s.snapshots, order) == SnapshotMessages(s.snapshots, order[..n]) + [m];
    }
  }

  lemma {:induction false} TailDecides(stream: seq<Tagged>, snapshots: map<string, ChargePoint>,
                                       order: seq<string>, k: nat)
    requires (forall id :: id in order ==> id in snapshots) && Distinct(order) && k < |order|
    requires EndsWith(stream, SnapshotMessages(snapshots, order))
    ensures LastSnapshot(stream, order[k]) == Some(SnapshotOf(snapshots[order[k]]))
  {
    var n, last := |order| - 1, |stream| - 1;
    var tail := stream[|stream| - |order|..];
    assert Messages(tail)[n] == tail[n].message == stream[last].message;
    assert Messages(tail)[n] == SnapshotMessage(order[n], snapshots[order[n]]);
    if k < n {
      assert stream[..last][last - n..] == tail[..n];
      assert Messages(tail[..n]) == Messages(tail)[..n] == SnapshotMessages(snapshots, order[..n]);
      TailDecides(stream[..last], snapshots, order[..n], k);
    }
  }

  lemma ConnAckEndsWithSnapshots(cfg: Config, s: State, slots: nat, order: seq<string>, k: nat)
    requires (forall id :: id in order ==> id in s.snapshots) && Distinct(order)
    requires |order| <= cfg.limit && k < |order|
    ensures LastSnapshot(Stream(OnConnAck(cfg, s, slots, order).box), order[k])
         == Some(SnapshotOf(s.snapshots[order[k]]))
  {
    var up := Reconnected(cfg, s, slots);
    RepublishEndsWithAll(cfg, up, order);
    TailDecides(Stream(Republish(cfg, up, order).box), s.snapshots, order, k);
    assert Stream(OnConnAck(cfg, s, slots, order).box) == Stream(Republish(cfg, up, order).box);
  }

  /** Right after a ConnAck the last message on every charge point's snapshot
      topic is its current snapshot, whatever was buffered, handed over or evicted
      before, provided the buffer can hold one message per charge point. */
  lemma CurrentSnapshotIsLast(cfg: Config, snapshots: map<string, ChargePoint>, events: seq<Event>,
                              slots: nat, order: seq<string>, id: string)
    requires var s := Run(cfg, Init(snapshots), events);
             Enabled(s, ConnAck(slots, order)) && id in s.snapshots
    requires |order| <= cfg.limit
    ensures var s := Run(cfg, Init(snapshots), events);
            LastSnapshot(Stream(Step(cfg, s, ConnAck(slots, order)).box), id) == Some(SnapshotOf(s.snapshots[id]))
  {
    var s := Run(cfg, Init(snapshots), events);
    var k :| 0 <= k < |order| && order[k] == id;
    ConnAckEndsWithSnapshots(cfg, s, slots, order, k);
  }

  // ---- flush progress ----

  /** In every reachable state an open flush has something left to hand over and
      has counted exactly what was handed over since it began. */
  lemma OpenFlushCountsExactly(cfg: Config, snapshots: map<string, ChargePoint>, events: seq<Event>)
    ensures var o := Run(cfg, Init(snapshots), events).box;
            o.flush.Some? ==> o.buffer != [] && o.flush.value == |o.handed| - o.flushStart
  {
    RunKeeps(cfg, snapshots, events);
  }

  lemma ReconnectedFlush(cfg: Config, s: State, slots: nat)
    requires FlushCounts(s.box)
    ensures var o := Reconnected(cfg, s, slots).box;
            && o.flush == OpenedBy(cfg, s, slots)
            && (o.flush.Some? ==>
                  o.slots == 0 && o.flushStart == |s.box.handed| + (if cfg.announced.Some? then slots else 0))
  {}

  lemma {:induction false} RepublishKeepsFlush(cfg: Config, s: State, order: seq<string>)
    requires s.connected && forall id :: id in order ==> id in s.snapshots
    requires s.box.flush.Some? ==> s.box.slots == 0
    ensures var t := Republish(cfg, s, order);
            && t.connected && t.box.flush == s.box.flush && t.box.flushStart == s.box.flushStart
            && (t.box.flush.Some? ==> t.box.slots == 0)
  {
    if order != [] {
      var n := |order| - 1;
      RepublishKeepsFlush(cfg, s, order[..n]);
      PutKeepsFlush(cfg, Republish(cfg, s, order[..n]), SnapshotMessage(order[n], s.snapshots[order[n]]));
    }
  }

  lemma PutKeepsFlush(cfg: Config, s: State, m: MqttMessage)
    requires s.connected && (s.box.flush.Some? ==> s.box.slots == 0)
    ensures var t := Put(cfg, s, m);
            && t.connected && t.box.flush == s.box.flush && t.box.flushStart == s.box.flushStart
            && (t.box.flush.Some? ==> t.box.slots == 0)
  {}

  /** The flush a ConnAck leaves open: none if the channel has room for `online` and
      the whole backlog. */
  function OpenedBy(cfg: Config, s: State, slots: nat): Option<nat> {
    var online := if cfg.announced.Some? then 1 else 0;
    if slots >= |s.box.buffer| + online then None else Some(if cfg.announced.Some? then 0 else slots)
  }

  /** After a ConnAck a flush is open exactly if the free slots do not suffice for the
      backlog and `online`. With an `online` to announce, its count starts after
      everything those slots took, so that part of the backlog is not counted. */
  lemma ConnAckStartsTheCount(cfg: Config, snapshots: map<string, ChargePoint>, events: seq<Event>,
                              slots: nat, order: seq<string>)
    requires Enabled(Run(cfg, Init(snapshots), events), ConnAck(slots, order))
    ensures var s := Run(cfg, Init(snapshots), events);
            var o := Step(cfg, s, ConnAck(slots, order)).box;
            && o.flush == OpenedBy(cfg, s, slots)
            && (o.flush.Some? ==> o.flushStart == |s.box.handed| + (if cfg.announced.Some? then slots else 0))
  {
    RunKeeps(cfg, snapshots, events);
    var s := Run(cfg, Init(snapshots), events);
    ReconnectedFlush(cfg, s, slots);
    RepublishKeepsFlush(cfg, Reconnected(cfg, s, slots), order);
  }

  function Ticks(freed: seq<nat>): seq<Event> {
    seq(|freed|, i requires 0 <= i < |freed| => Tick(freed[i]))
  }

  function Sum(freed: seq<nat>): nat {
    if freed == [] then 0 else Sum(freed[..|freed| - 1]) + freed[|freed| - 1]
  }

  function Owed(s: State): nat {
    if s.subscribePending then 1 else 0
  }

  predicate InCapacity(freed: seq<nat>) {
    forall i :: 0 <= i < |freed| ==> freed[i] <= REQUEST_CHANNEL_CAPACITY
  }

  /** One tick spends its free slots on the subscription first, then on messages,
      until either runs out. */
  lemma TickHandsOver(cfg: Config, s: State, freed: nat)
    requires s.connected && s.box.buffer != [] && s.box.slots == 0 && freed <= REQUEST_CHANNEL_CAPACITY
    ensures var t := Step(cfg, s, Tick(freed));
            && t.connected
            && (t.box.buffer == [] <==> freed >= |s.box.buffer| + Owed(s))
            && (t.box.buffer != [] ==>
                  t.box.slots == 0 && |t.box.buffer| + Owed(t) + freed == |s.box.buffer| + Owed(s))
  {}

  lemma {:induction false} BacklogAfter(cfg: Config, s: State, freed: seq<nat>)
    requires s.connected && s.box.buffer != [] && s.box.slots == 0 && InCapacity(freed)
    ensures var t := Run(cfg, s, Ticks(freed));
            && t.connected
            && (t.box.buffer == [] <==> Sum(freed) >= |s.box.buffer| + Owed(s))
            && (t.box.buffer != [] ==>
                  t.box.slots == 0 && |t.box.buffer| + Owed(t) + Sum(freed) == |s.box.buffer| + Owed(s))
  {
    if freed != [] {
      var n := |freed| - 1;
      BacklogAfter(cfg, s, freed[..n]);
      assert Ticks(freed)[..n] == Ticks(freed[..n]);
      var t := Run(cfg, s, Ticks(freed[..n]));
      assert Run(cfg, s, Ticks(freed)) == Step(cfg, t, Tick(freed[n]));
      if t.box.buffer != [] {
        TickHandsOver(cfg, t, freed[n]);
      }
    }
  }

  /** With nothing new to publish, a backlog is gone after these ticks exactly when
      they freed one slot per message, plus one if the command subscription was
      still owed: the subscription takes the first free slot. */
  lemma BacklogGoneIffEnoughFreed(cfg: Config, snapshots: map<string, ChargePoint>, events: seq<Event>, freed: seq<nat>)
    requires var s := Run(cfg, Init(snapshots), events); s.connected && s.box.buffer != []
    requires InCapacity(freed)
    ensures var s := Run(cfg, Init(snapshots), events);
            Run(cfg, s, Ticks(freed)).box.buffer == [] <==> Sum(freed) >= |s.box.buffer| + Owed(s)
  {
    RunKeeps(cfg, snapshots, events);
    BacklogAfter(cfg, Run(cfg, Init(snapshots), events), freed);
  }

  lemma {:induction false} SumOfOnes(freed: seq<nat>)
    requires forall i :: 0 <= i < |freed| ==> freed[i] >= 1
    ensures Sum(freed) >= |freed|
  {
    if freed != [] {
      SumOfOnes(freed[..|freed| - 1]);
    }
  }

  /** So if every tick frees a slot, as many ticks as messages remain are enough
      when no subscription is owed, and one more when it is. */
  lemma FlushFinishes(cfg: Config, snapshots: map<string, ChargePoint>, events: seq<Event>, freed: seq<nat>)
    requires var s := Run(cfg, Init(snapshots), events);
             s.connected && s.box.buffer != [] && |freed| == |s.box.buffer| + Owed(s)
    requires InCapacity(freed) && forall i :: 0 <= i < |freed| ==> freed[i] >= 1
    ensures var t := Run(cfg, Run(cfg, Init(snapshots), events), Ticks(freed));
            t.box.buffer == []
  {
    SumOfOnes(freed);
    BacklogGoneIffEnoughFreed(cfg, snapshots, events, freed);
  }

  lemma RunOfOne(cfg: Config, s: State, e: Event)
    ensures Run(cfg, s, [e]) == Step(cfg, s, e)
  {
    RunOfSnoc(cfg, s, [], e);
    assert [] + [e] == [e];
  }

  /** As many ticks as messages are not enough when the subscription is owed. The
      first connection finds the channel full, so `online` waits; a tick frees a
      slot, the subscription takes it, and `online` still waits. */
  lemma OneTickPerMessageIsNotEnough(cfg: Config)
    requires cfg.announced.Some? && cfg.commands
    ensures var s := Run(cfg, Init(map[]), [ConnAck(0, [])]);
            && s.connected && s.subscribePending && |s.box.buffer| == 1
            && Run(cfg, s, [Tick(1)]).box.buffer == s.box.buffer
  {
    RunOfOne(cfg, Init(map[]), ConnAck(0, []));
    RunOfOne(cfg, Step(cfg, Init(map[]), ConnAck(0, [])), Tick(1));
  }

  // ---- when a flush closes ----

  /** No flush is open over messages queued before the `n`-th. */
  predicate Flushed(o: Outbox, n: nat) {
    n <= |o.queued| && (o.flush.None? ==> forall x :: x in o.buffer ==> x.tag >= n)
  }

  lemma DrainFlushes(o: Outbox, n: nat)
    requires Flushed(o, n)
    ensures Flushed(Drain(o), n)
  {
    var k := MinNat(o.slots, |o.buffer|);
    assert forall x :: x in o.buffer[k..] ==> x in o.buffer;
  }

  lemma AppendFlushes(o: Outbox, m: MqttMessage, limit: nat, n: nat)
    requires Flushed(o, n)
    ensures Flushed(Append(o, m, limit), n)
  {
    assert forall k: nat, x :: k <= |o.buffer| && x in o.buffer[k..] ==> x in o.buffer;
  }

  lemma PutFlushes(cfg: Config, s: State, m: MqttMessage, n: nat)
    requires Flushed(s.box, n)
    ensures Flushed(Put(cfg, s, m).box, n)
  {
    AppendFlushes(s.box, m, cfg.limit, n);
    DrainFlushes(Append(s.box, m, cfg.limit), n);
  }

  lemma PutAndFoldFlushes(cfg: Config, s: State, id: string, m: MqttMessage, e: Entry, n: nat)
    requires Flushed(s.box, n)
    ensures Flushed(PutAndFold(cfg, s, id, m, e).box, n)
  {
    PutFlushes(cfg, s, m, n);
    var before := if id in s.snapshots then s.snapshots[id] else NO_SNAPSHOT;
    var after := Fold(before, e);
    PutFlushes(cfg, Put(cfg, s, m).(snapshots := s.snapshots[id := after]), SnapshotMessage(id, after), n);
  }

  lemma RefuseFlushes(cfg: Config, s: State, id: string, refused: Option<Outcome>, n: nat)
    requires Flushed(s.box, n)
    ensures Flushed(Refuse(cfg, s, id, refused).box, n)
  {
    if refused.Some? {
      PutAndFoldFlushes(cfg, s, id, refused.value.message, refused.value.entry, n);
    }
  }

  lemma {:induction false} RepublishFlushes(cfg: Config, s: State, order: seq<string>, n: nat)
    requires Flushed(s.box, n) && forall id :: id in order ==> id in s.snapshots
    ensures Flushed(Republish(cfg, s, order).box, n)
  {
    if order != [] {
      var k := |order| - 1;
      RepublishFlushes(cfg, s, order[..k], n);
      PutFlushes(cfg, Republish(cfg, s, order[..k]), SnapshotMessage(order[k], s.snapshots[order[k]]), n);
    }
  }

  lemma ReconnectedFlushes(cfg: Config, s: State, slots: nat, n: nat)
    requires Flushed(s.box, n)
    ensures Flushed(Reconnected(cfg, s, slots).box, n)
  {
    var o := s.box.(slots := slots);
    if cfg.announced.Some? {
      DrainFlushes(PushFront(o, MqttMessage(Availability(cfg.announced.value), Online)), n);
    }
    var announced := Announce(cfg, o);
    if announced.buffer != [] {
      DrainFlushes(announced.(flush := Some(0), flushStart := |announced.handed|), n);
    }
  }

  lemma ConnAckFlushes(cfg: Config, s: State, e: Event, n: nat)
    requires Flushed(s.box, n) && e.ConnAck?
    ensures Flushed(Step(cfg, s, e).box, n)
  {
    if Enabled(s, e) {
      ReconnectedFlushes(cfg, s, e.slots, n);
      RepublishFlushes(cfg, Reconnected(cfg, s, e.slots), e.order, n);
    }
  }

  lemma LinkChangedFlushes(cfg: Config, s: State, e: Event, n: nat)
    requires Flushed(s.box, n) && e.LinkChanged?
    ensures Flushed(Step(cfg, s, e).box, n)
  {
    PutFlushes(cfg, s, e.message, n);
    if Resends(cfg, s, e.id, e.link) {
      RefuseFlushes(cfg, Resent(NoteLink(cfg, s, e.id, e.message, e.link), e.id), e.id, e.refused, n);
    }
  }

  lemma PolledFlushes(cfg: Config, s: State, e: Event, n: nat)
    requires Flushed(s.box, n) && (e.Tick? || e.Incoming?)
    ensures Flushed(Step(cfg, s, e).box, n)
  {
    if Enabled(s, e) {
      var freed := Freed(s, e.freed);
      if e.Incoming? {
        RefuseFlushes(cfg, freed, e.id, e.refused, n);
        DrainFlushes(Refuse(cfg, freed, e.id, e.refused).box, n);
      } else {
        DrainFlushes(TrySubscribe(freed).box, n);
      }
    }
  }

  lemma StepFlushes(cfg: Config, s: State, e: Event, n: nat)
    requires Flushed(s.box, n)
    ensures Flushed(Step(cfg, s, e).box, n)
  {
    if e.ConnAck? {
      ConnAckFlushes(cfg, s, e, n);
    } else if e.LinkChanged? {
      LinkChangedFlushes(cfg, s, e, n);
    } else if e.Tick? || e.Incoming? {
      PolledFlushes(cfg, s, e, n);
    } else if e.Forwarded? {
      PutAndFoldFlushes(cfg, s, e.id, e.message, e.entry, n);
    } else if e.CommandDone? {
      PutAndFoldFlushes(cfg, s, e.id, e.outcome.message, e.outcome.entry, n);
    }
  }

  /** An open flush closes only once the buffer has run empty: nothing that was
      waiting when an event came is still waiting if the event closed the flush. */
  lemma FlushClosesOnlyWhenEmpty(cfg: Config, snapshots: map<string, ChargePoint>, events: seq<Event>, e: Event)
    requires var s := Run(cfg, Init(snapshots), events);
             s.box.flush.Some? && Step(cfg, s, e).box.flush.None?
    ensures var s := Run(cfg, Init(snapshots), events);
            forall x :: x in s.box.buffer ==> x !in Step(cfg, s, e).box.buffer
  {
    RunKeeps(cfg, snapshots, events);
    var s := Run(cfg, Init(snapshots), events);
    StepFlushes(cfg, s, e, |s.box.queued|);
    BufferedBefore(s.box);
  }

  lemma BufferedBefore(o: Outbox)
    requires TagsBelow(o.handed + o.buffer, |o.queued|)
    ensures forall x :: x in o.buffer ==> x.tag < |o.queued|
  {
    forall x | x in o.buffer ensures x.tag < |o.queued| {
      var i :| 0 <= i < |o.buffer| && o.buffer[i] == x;
      assert (o.handed + o.buffer)[|o.handed| + i] == x;
    }
  }

  /** A flush opens, and its count starts over, at a ConnAck only. */
  lemma OnlyConnAcksStartFlushes(cfg: Config, s: State, e: Event)
    requires !e.ConnAck?
    ensures NoFlushStarts(s.box, Step(cfg, s, e).box)
  {
    if e.LinkChanged? {
      PutStartsNoFlush(cfg, s, e.message);
      if Resends(cfg, s, e.id, e.link) {
        RefuseStartsNoFlush(cfg, Resent(NoteLink(cfg, s, e.id, e.message, e.link), e.id), e.id, e.refused);
      }
    } else if e.Forwarded? {
      PutAndFoldStartsNoFlush(cfg, s, e.id, e.message, e.entry);
    } else if e.CommandDone? {
      PutAndFoldStartsNoFlush(cfg, s, e.id, e.outcome.message, e.outcome.entry);
    } else if e.Incoming? && Enabled(s, e) {
      RefuseStartsNoFlush(cfg, Freed(s, e.freed), e.id, e.refused);
    }
  }

  predicate NoFlushStarts(o: Outbox, o': Outbox) {
    o'.flushStart == o.flushStart && (o'.flush.Some? ==> o.flush.Some?)
  }

  lemma PutStartsNoFlush(cfg: Config, s: State, m: MqttMessage)
    ensures NoFlushStarts(s.box, Put(cfg, s, m).box)
  {}

  lemma PutAndFoldStartsNoFlush(cfg: Config, s: State, id: string, m: MqttMessage, e: Entry)
    ensures NoFlushStarts(s.box, PutAndFold(cfg, s, id, m, e).box)
  {
    var before := if id in s.snapshots then s.snapshots[id] else NO_SNAPSHOT;
    var after := Fold(before, e);
    PutStartsNoFlush(cfg, s, m);
    PutStartsNoFlush(cfg, Put(cfg, s, m).(snapshots := s.snapshots[id := after]), SnapshotMessage(id, after));
  }

  lemma RefuseStartsNoFlush(cfg: Config, s: State, id: string, refused: Option<Outcome>)
    ensures NoFlushStarts(s.box, Refuse(cfg, s, id, refused).box)
  {
    if refused.Some? {
      PutAndFoldStartsNoFlush(cfg, s, id, refused.value.message, refused.value.entry);
    }
  }
}
