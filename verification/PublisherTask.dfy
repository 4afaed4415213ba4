/** The publisher as the program runs it: an object whose buffer, connection state
    and snapshots change in place, proved against `Publisher.Step`. */
module PublisherTask {
  import opened Prelude
  import opened Topics
  import opened Snapshot
  import opened Publisher

  /** The bounded request channel: it refuses when full and never blocks. */
  class RequestChannel {
    var slots: nat

    constructor ()
      ensures slots == REQUEST_CHANNEL_CAPACITY
    {
      slots := REQUEST_CHANNEL_CAPACITY;
    }

    method TrySend() returns (ok: bool)
      modifies this
      ensures ok == (old(slots) > 0) && slots == old(slots) - (if ok then 1 else 0)
    {
      ok := slots > 0;
      if ok {
        slots := slots - 1;
      }
    }

    method Poll(now: nat)
      modifies this
      ensures slots == now
    {
      slots := now;
    }
  }

  class MqttPublisher {
    const cfg: Config
    const client: RequestChannel
    var buffer: seq<Tagged>
    var connected: bool
    var subscribePending: bool
    var flushInProgress: Option<nat>
    var snapshots: map<string, ChargePoint>
    var links: map<string, LinkState>
    var queued: seq<MqttMessage>
    ghost var handed: seq<Tagged>
    ghost var evicted: seq<Tagged>
    ghost var flushStart: nat
    ghost var connAcks: nat
    ghost var reapplied: seq<Reapplied>

    ghost function Box(): Outbox
      reads this, client
    {
      Outbox(buffer, client.slots, flushInProgress, queued, handed, evicted, flushStart)
    }

    ghost function View(): State
      reads this, client
    {
      State(connected, subscribePending, Box(), snapshots, links, connAcks, reapplied)
    }

    constructor (cfg: Config, snapshots: map<string, ChargePoint>)
      ensures this.cfg == cfg && View() == Init(snapshots) && fresh(client)
    {
      this.cfg := cfg;
      client := new RequestChannel();
      buffer, connected, subscribePending, flushInProgress := [], false, false, None;
      this.snapshots, links, queued := snapshots, map[], [];
      handed, evicted, flushStart, connAcks, reapplied := [], [], 0, 0, [];
    }

    /** Give the client as many of the oldest messages as its channel has room for. */
    method DrainBuffer() returns (accepted: nat)
      modifies this`buffer, this`handed, this`flushInProgress, client
      ensures Box() == Drain(old(Box()))
      ensures accepted == MinNat(old(client.slots), |old(buffer)|)
    {
      ghost var all := buffer;
      ghost var already := handed;
      accepted := 0;
      while buffer != []
        invariant accepted <= |all| && buffer == all[accepted..] && handed == already + all[..accepted]
        invariant accepted <= old(client.slots) && client.slots == old(client.slots) - accepted
        invariant flushInProgress == old(flushInProgress)
        decreases |buffer|
      {
        var ok := client.TrySend();
        if !ok {
          break;
        }
        assert all[..accepted + 1] == all[..accepted] + [buffer[0]];
        handed := handed + [buffer[0]];
        buffer := buffer[1..];
        accepted := accepted + 1;
      }
      assert accepted == MinNat(old(client.slots), |all|) && |buffer| == |all| - accepted;
      if flushInProgress.Some? {
        flushInProgress := if buffer == [] then None else Some(flushInProgress.value + accepted);
      }
    }

    /** Buffer a message; a full buffer loses its oldest. */
    method BufferMessage(message: MqttMessage)
      modifies this`buffer, this`queued, this`evicted
      ensures Box() == Append(old(Box()), message, cfg.limit)
    {
      if |buffer| >= cfg.limit {
        if |buffer| > 0 {
          evicted := evicted + [buffer[0]];
          buffer := buffer[1..];
        }
      }
      buffer := buffer + [Tagged(message, |queued|)];
      queued := queued + [message];
    }

    /** Queue a message, and while connected hand on what fits. */
    method Enqueue(message: MqttMessage)
      modifies this`buffer, this`queued, this`evicted, this`handed, this`flushInProgress, client
      ensures Box() == Publisher.Enqueue(old(Box()), message, cfg.limit, connected)
    {
      BufferMessage(message);
      if connected {
        var accepted := DrainBuffer();
      }
    }

    method PublishOnline()
      modifies this`buffer, this`queued, this`handed, this`flushInProgress, client
      ensures Box() == Announce(cfg, old(Box()))
    {
      if cfg.announced.Some? {
        var message := MqttMessage(Availability(cfg.announced.value), Online);
        buffer := [Tagged(message, |queued|)] + buffer;
        queued := queued + [message];
        var accepted := DrainBuffer();
      }
    }

    method FlushBuffer()
      modifies this`buffer, this`handed, this`flushInProgress, this`flushStart, client
      ensures Box() == StartFlush(old(Box()))
    {
      if buffer != [] {
        flushInProgress := Some(0);
        flushStart := |handed|;
        var accepted := DrainBuffer();
      }
    }

    method PublishChargePointState(id: string, s: ChargePoint)
      modifies this`buffer, this`queued, this`evicted, this`handed, this`flushInProgress, client
      ensures View() == Put(cfg, old(View()), SnapshotMessage(id, s))
    {
      Enqueue(SnapshotMessage(id, s));
    }

    /** Push every snapshot back onto its retained topic. */
    method RepublishSnapshots(order: seq<string>)
      requires forall id :: id in order ==> id in snapshots
      modifies this`buffer, this`queued, this`evicted, this`handed, this`flushInProgress, client
      ensures View() == Republish(cfg, old(View()), order)
    {
      ghost var s := View();
      for i := 0 to |order|
        invariant snapshots == s.snapshots
        invariant View() == Republish(cfg, s, order[..i])
      {
        assert order[..i + 1][..i] == order[..i];
        PublishChargePointState(order[i], snapshots[order[i]]);
      }
      assert order[..|order|] == order;
    }

    /** Never await the channel from the task that drives it. */
    method TrySubscribe()
      modifies this`subscribePending, client
      ensures View() == Publisher.TrySubscribe(old(View()))
    {
      if subscribePending {
        var ok := client.TrySend();
        if ok {
          subscribePending := false;
        }
      }
    }

    /** `online` first, then the backlog. */
    method AnnounceAndFlush()
      modifies this`buffer, this`queued, this`handed, this`flushInProgress, this`flushStart, client
      ensures Box() == StartFlush(Announce(cfg, old(Box())))
    {
      PublishOnline();
      FlushBuffer();
    }

    method Reconnect(slots: nat)
      modifies this`connected, this`connAcks, this`buffer, this`queued, this`handed, this`flushInProgress,
               this`flushStart, client
      ensures View() == Reconnected(cfg, old(View()), slots)
    {
      ghost var box := Box().(slots := slots);
      connected := true;
      connAcks := connAcks + 1;
      client.Poll(slots);
      assert Box() == box;
      AnnounceAndFlush();
    }

    method OnConnAck(slots: nat, order: seq<string>)
      requires forall id :: id in order ==> id in snapshots
      modifies this, client
      ensures View() == Publisher.OnConnAck(cfg, old(View()), slots, order)
    {
      ghost var up := Reconnected(cfg, View(), slots);
      Reconnect(slots);
      RepublishSnapshots(order);
      assert View() == Republish(cfg, up, order);
      subscribePending := cfg.commands;
      TrySubscribe();
    }

    /** Publish an event and, if it moved a field, the snapshot it moved. */
    method PublishAndFold(id: string, message: MqttMessage, entry: Entry)
      modifies this`buffer, this`queued, this`evicted, this`handed, this`flushInProgress, this`snapshots, client
      ensures View() == PutAndFold(cfg, old(View()), id, message, entry)
    {
      ghost var put := Put(cfg, View(), message);
      Enqueue(message);
      assert View() == put;
      var before := if id in snapshots then snapshots[id] else NO_SNAPSHOT;
      var after := Fold(before, entry);
      snapshots := snapshots[id := after];
      assert View() == put.(snapshots := put.snapshots[id := after]);
      if after.body != before.body {
        PublishChargePointState(id, after);
      }
    }

    /** Answer for a command that no session could be given. */
    method PublishRefusal(id: string, refused: Option<Outcome>)
      modifies this`buffer, this`queued, this`evicted, this`handed, this`flushInProgress, this`snapshots, client
      ensures View() == Refuse(cfg, old(View()), id, refused)
    {
      if refused.Some? {
        PublishAndFold(id, refused.value.message, refused.value.entry);
      }
    }

    method OnLinkChanged(id: string, message: MqttMessage, link: LinkState, refused: Option<Outcome>)
      modifies this`buffer, this`queued, this`evicted, this`handed, this`flushInProgress, this`snapshots, this`links,
               this`reapplied, client
      ensures View() == Publisher.OnLinkChanged(cfg, old(View()), id, message, link, refused)
    {
      ghost var noted := NoteLink(cfg, View(), id, message, link);
      var wasUp := id in links && links[id] == BOTH_UP;
      Enqueue(message);
      links := links[id := link];
      assert View() == noted;
      if link == BOTH_UP && !wasUp && cfg.commands && cfg.reapply {
        if id in snapshots && Standing(snapshots[id]).Some? {
          reapplied := reapplied + [Reapplied(id, Standing(snapshots[id]).value)];
          assert View() == Resent(noted, id);
          PublishRefusal(id, refused);
        }
      }
    }

    method DrainIfConnected()
      modifies this`buffer, this`handed, this`flushInProgress, client
      ensures Box() == if connected then Drain(old(Box())) else old(Box())
    {
      if connected {
        var accepted := DrainBuffer();
      }
    }

    /** Every event-loop tick is a chance to move more of the buffer. */
    method OnTick(freed: nat)
      modifies this`subscribePending, this`buffer, this`handed, this`flushInProgress, client
      ensures View() == var f := Freed(old(View()), freed); if f.connected then Settle(Publisher.TrySubscribe(f)) else f
    {
      ghost var polled := Freed(View(), freed);
      client.Poll(client.slots + freed);
      assert View() == polled;
      if connected {
        TrySubscribe();
        assert View() == Publisher.TrySubscribe(polled);
        DrainIfConnected();
      }
    }

    method OnIncoming(freed: nat, id: string, refused: Option<Outcome>)
      modifies this`buffer, this`queued, this`evicted, this`handed, this`flushInProgress, this`snapshots, client
      ensures View() == Settle(Refuse(cfg, Freed(old(View()), freed), id, refused))
    {
      ghost var freedUp := Freed(View(), freed);
      client.Poll(client.slots + freed);
      assert View() == freedUp;
      PublishRefusal(id, refused);
      ghost var answered := View();
      DrainIfConnected();
      assert View() == Settle(answered);
    }

    method Handle(e: Event)
      requires Enabled(View(), e)
      modifies this, client
      ensures View() == Step(cfg, old(View()), e)
    {
      match e
      case ConnAck(slots, order) => OnConnAck(slots, order);
      case Tick(freed) => OnTick(freed);
      case Incoming(freed, id, refused) => OnIncoming(freed, id, refused);
      case ConnectionLost => connected := false;
      case Forwarded(id, message, entry) => PublishAndFold(id, message, entry);
      case LinkChanged(id, message, link, refused) => OnLinkChanged(id, message, link, refused);
      case CommandDone(id, outcome) => PublishAndFold(id, outcome.message, outcome.entry);
    }
  }
}
