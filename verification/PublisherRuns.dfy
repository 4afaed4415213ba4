/** What every run of the publisher does with the messages queued on it. */
module PublisherRuns {
  import opened Prelude
  import opened Topics
  import opened Snapshot
  import opened Publisher

  // ---- every message has one place ----

  function All(queued: seq<MqttMessage>): seq<Tagged> {
    seq(|queued|, i requires 0 <= i < |queued| => Tagged(queued[i], i))
  }

  predicate Placed(o: Outbox) {
    multiset(o.handed) + multiset(o.evicted) + multiset(o.buffer) == multiset(All(o.queued))
  }

  predicate Plain(x: Tagged) {
    !x.message.content.Online?
  }

  predicate TagsAscend(s: seq<Tagged>) {
    forall i, j :: 0 <= i < j < |s| ==> s[i].tag < s[j].tag
  }

  lemma AscendWithoutMiddle(a: seq<Tagged>, m: seq<Tagged>, b: seq<Tagged>)
    requires TagsAscend(a + m + b)
    ensures TagsAscend(a + b)
  {
    var long := a + m + b;
    forall i, j | 0 <= i < j < |a + b| ensures (a + b)[i].tag < (a + b)[j].tag {
      assert (a + b)[i] == long[if i < |a| then i else i + |m|];
      assert (a + b)[j] == long[if j < |a| then j else j + |m|];
    }
  }

  predicate TagsBelow(s: seq<Tagged>, n: nat) {
    forall i :: 0 <= i < |s| ==> s[i].tag < n
  }

  /** `ahead`, then the buffer, is the order of queueing, `online` aside. */
  predicate Sorted(ahead: seq<Tagged>, buffer: seq<Tagged>, n: nat) {
    TagsAscend(Filter(Plain, ahead + buffer)) && TagsBelow(ahead + buffer, n)
  }

  /** What was handed over is older than what is buffered, and so is what was evicted. */
  predicate InOrder(o: Outbox) {
    Sorted(o.handed, o.buffer, |o.queued|) && Sorted(o.evicted, o.buffer, |o.queued|)
  }

  lemma SortedWithoutFront(ahead: seq<Tagged>, buffer: seq<Tagged>, n: nat, k: nat)
    requires Sorted(ahead, buffer, n) && k <= |buffer|
    ensures Sorted(ahead, buffer[k..], n)
  {
    var front, rest := buffer[..k], buffer[k..];
    assert buffer == front + rest;
    FilterOfThree(ahead, front, rest);
    FilterConcat(Plain, ahead, rest);
    AscendWithoutMiddle(Filter(Plain, ahead), Filter(Plain, front), Filter(Plain, rest));
    BelowWithoutFront(ahead, buffer, n, k);
  }

  lemma FilterOfThree(a: seq<Tagged>, b: seq<Tagged>, c: seq<Tagged>)
    ensures Filter(Plain, a + (b + c)) == Filter(Plain, a) + Filter(Plain, b) + Filter(Plain, c)
  {
    FilterConcat(Plain, a, b + c);
    FilterConcat(Plain, b, c);
    ConcatAssociates(Filter(Plain, a), Filter(Plain, b), Filter(Plain, c));
  }

  lemma BelowWithoutFront(ahead: seq<Tagged>, buffer: seq<Tagged>, n: nat, k: nat)
    requires TagsBelow(ahead + buffer, n) && k <= |buffer|
    ensures TagsBelow(ahead + buffer[k..], n)
  {
    var shorter := ahead + buffer[k..];
    forall i | 0 <= i < |shorter| ensures shorter[i].tag < n {
      assert shorter[i] == (ahead + buffer)[if i < |ahead| then i else i + k];
    }
  }

  /** An open flush has something left to do and has counted what was handed over
      since it began. */
  predicate FlushCounts(o: Outbox) {
    o.flush.Some? ==> o.buffer != [] && o.flushStart + o.flush.value == |o.handed|
  }

  predicate BoxInv(o: Outbox) {
    Placed(o) && InOrder(o) && FlushCounts(o)
  }

  lemma DrainKeeps(o: Outbox)
    requires || BoxInv(o)
             || (Placed(o) && InOrder(o) && o.flush == Some(0) && o.flushStart == |o.handed| && o.buffer != [])
    ensures BoxInv(Drain(o))
    ensures Drain(o).handed + Drain(o).buffer == o.handed + o.buffer
    ensures Drain(o).buffer == [] || Drain(o).slots == 0
  {
    var k := MinNat(o.slots, |o.buffer|);
    assert o.buffer == o.buffer[..k] + o.buffer[k..];
    assert Drain(o).handed + Drain(o).buffer == o.handed + o.buffer;
    SortedWithoutFront(o.evicted, o.buffer, |o.queued|, k);
  }

  lemma AllGrows(queued: seq<MqttMessage>, m: MqttMessage)
    ensures All(queued + [m]) == All(queued) + [Tagged(m, |queued|)]
  {}

  lemma FilterSnoc(s: seq<Tagged>, x: Tagged)
    ensures Filter(Plain, s + [x]) == Filter(Plain, s) + (if Plain(x) then [x] else [])
  {
    assert (s + [x])[..|s|] == s;
  }

  /** The oldest buffered message is dropped. */
  lemma EvictKeeps(o: Outbox)
    requires Placed(o) && InOrder(o) && o.buffer != []
    ensures var o' := o.(buffer := o.buffer[1..], evicted := o.evicted + o.buffer[..1]);
            Placed(o') && InOrder(o')
  {
    var x := o.buffer[0];
    assert o.buffer == [x] + o.buffer[1..];
    assert (o.evicted + o.buffer[..1]) + o.buffer[1..] == o.evicted + o.buffer;
    SortedWithoutFront(o.handed, o.buffer, |o.queued|, 1);
  }

  /** A newly queued message is buffered, at whichever end. */
  lemma PlacedGrows(o: Outbox, o': Outbox, m: MqttMessage)
    requires Placed(o) && o'.queued == o.queued + [m]
    requires o'.handed == o.handed && o'.evicted == o.evicted
    requires multiset(o'.buffer) == multiset(o.buffer) + multiset{Tagged(m, |o.queued|)}
    ensures Placed(o')
  {
    var x := Tagged(m, |o.queued|);
    AllGrows(o.queued, m);
    assert multiset(All(o'.queued)) == multiset(All(o.queued)) + multiset{x};
    assert multiset(o.handed) + multiset(o.evicted) + (multiset(o.buffer) + multiset{x})
        == (multiset(o.handed) + multiset(o.evicted) + multiset(o.buffer)) + multiset{x};
  }

  lemma AscendSnoc(s: seq<Tagged>, x: Tagged)
    requires TagsAscend(Filter(Plain, s)) && TagsBelow(s, x.tag)
    ensures TagsAscend(Filter(Plain, s + [x])) && TagsBelow(s + [x], x.tag + 1)
  {
    FilterSnoc(s, x);
    PlainBelow(s, x.tag);
  }

  lemma PlainBelow(s: seq<Tagged>, n: nat)
    requires TagsBelow(s, n)
    ensures TagsBelow(Filter(Plain, s), n)
  {
    var plain := Filter(Plain, s);
    forall i | 0 <= i < |plain| ensures plain[i].tag < n {
      assert plain[i] in s;
    }
  }

  lemma PushBackKeeps(o: Outbox, m: MqttMessage)
    requires Placed(o) && InOrder(o)
    ensures var o' := o.(buffer := o.buffer + [Tagged(m, |o.queued|)], queued := o.queued + [m]);
            Placed(o') && InOrder(o')
  {
    var x := Tagged(m, |o.queued|);
    var o' := o.(buffer := o.buffer + [x], queued := o.queued + [m]);
    assert multiset(o.buffer + [x]) == multiset(o.buffer) + multiset{x};
    PlacedGrows(o, o', m);
    SortedGrows(o.handed, o.buffer, x);
    SortedGrows(o.evicted, o.buffer, x);
  }

  lemma SortedGrows(ahead: seq<Tagged>, buffer: seq<Tagged>, x: Tagged)
    requires Sorted(ahead, buffer, x.tag)
    ensures Sorted(ahead, buffer + [x], x.tag + 1)
  {
    ConcatAssociates(ahead, buffer, [x]);
    AscendSnoc(ahead + buffer, x);
  }

  lemma AppendKeeps(o: Outbox, m: MqttMessage, limit: nat)
    requires BoxInv(o)
    ensures BoxInv(Append(o, m, limit))
    ensures var full := |o.buffer| >= limit && o.buffer != [];
            |Append(o, m, limit).buffer| <= if full then |o.buffer| else |o.buffer| + 1
  {
    if |o.buffer| >= limit && o.buffer != [] {
      EvictKeeps(o);
      PushBackKeeps(o.(buffer := o.buffer[1..], evicted := o.evicted + o.buffer[..1]), m);
    } else {
      assert o.buffer[0..] == o.buffer && o.evicted + o.buffer[..0] == o.evicted;
      PushBackKeeps(o, m);
    }
  }

  /** An `online` message does not show among the plain ones. */
  lemma FilterSkipsOnline(a: seq<Tagged>, x: Tagged, b: seq<Tagged>)
    requires !Plain(x)
    ensures Filter(Plain, a + ([x] + b)) == Filter(Plain, a + b)
  {
    calc {
      Filter(Plain, a + ([x] + b));
      { assert a + ([x] + b) == (a + [x]) + b; }
      Filter(Plain, (a + [x]) + b);
      { FilterConcat(Plain, a + [x], b); }
      Filter(Plain, a + [x]) + Filter(Plain, b);
      { FilterSnoc(a, x); assert Filter(Plain, a) + [] == Filter(Plain, a); }
      Filter(Plain, a) + Filter(Plain, b);
      { FilterConcat(Plain, a, b); }
      Filter(Plain, a + b);
    }
  }

  lemma BelowInserted(a: seq<Tagged>, x: Tagged, b: seq<Tagged>)
    requires TagsBelow(a + b, x.tag)
    ensures TagsBelow(a + ([x] + b), x.tag + 1)
  {
    var longer := a + ([x] + b);
    forall i | 0 <= i < |longer| ensures longer[i].tag < x.tag + 1 {
      if i != |a| {
        assert longer[i] == (a + b)[if i < |a| then i else i - 1];
      }
    }
  }

  lemma PushFrontKeeps(o: Outbox, m: MqttMessage)
    requires BoxInv(o) && m.content.Online?
    ensures BoxInv(PushFront(o, m))
  {
    var x := Tagged(m, |o.queued|);
    assert multiset([x] + o.buffer) == multiset{x} + multiset(o.buffer);
    PlacedGrows(o, PushFront(o, m), m);
    FilterSkipsOnline(o.handed, x, o.buffer);
    BelowInserted(o.handed, x, o.buffer);
    FilterSkipsOnline(o.evicted, x, o.buffer);
    BelowInserted(o.evicted, x, o.buffer);
  }

  // ---- the publisher ----

  function Most(a: nat, b: nat): nat {
    if a >= b then a else b
  }

  predicate Roomy(cfg: Config, s: State) {
    |s.box.buffer| <= Most(1, cfg.limit) + s.connAcks
  }

  /** While connected, whatever is still buffered waits for a free slot. */
  predicate Eager(s: State) {
    s.connected ==> s.box.buffer == [] || s.box.slots == 0
  }

  predicate Inv(cfg: Config, s: State) {
    BoxInv(s.box) && Roomy(cfg, s) && Eager(s)
  }

  lemma PutKeeps(cfg: Config, s: State, m: MqttMessage)
    requires BoxInv(s.box) && Roomy(cfg, s)
    requires s.connected || Eager(s)
    ensures Inv(cfg, Put(cfg, s, m))
  {
    AppendKeeps(s.box, m, cfg.limit);
    DrainKeeps(Append(s.box, m, cfg.limit));
  }

  lemma PutAndFoldKeeps(cfg: Config, s: State, id: string, m: MqttMessage, e: Entry)
    requires BoxInv(s.box) && Roomy(cfg, s)
    requires s.connected || Eager(s)
    ensures Inv(cfg, PutAndFold(cfg, s, id, m, e))
  {
    PutKeeps(cfg, s, m);
    var before := if id in s.snapshots then s.snapshots[id] else NO_SNAPSHOT;
    var after := Fold(before, e);
    PutKeeps(cfg, Put(cfg, s, m).(snapshots := s.snapshots[id := after]), SnapshotMessage(id, after));
  }

  lemma {:induction false} RepublishKeeps(cfg: Config, s: State, order: seq<string>)
    requires Inv(cfg, s) && forall id :: id in order ==> id in s.snapshots
    ensures Inv(cfg, Republish(cfg, s, order))
    ensures Republish(cfg, s, order) == s.(box := Republish(cfg, s, order).box)
  {
    if order != [] {
      var n := |order| - 1;
      RepublishKeeps(cfg, s, order[..n]);
      PutKeeps(cfg, Republish(cfg, s, order[..n]), SnapshotMessage(order[n], s.snapshots[order[n]]));
    }
  }

  lemma AnnounceKeeps(cfg: Config, o: Outbox)
    requires BoxInv(o)
    ensures BoxInv(Announce(cfg, o)) && |Announce(cfg, o).buffer| <= |o.buffer| + 1
  {
    if cfg.announced.Some? {
      var m := MqttMessage(Availability(cfg.announced.value), Online);
      PushFrontKeeps(o, m);
      DrainKeeps(PushFront(o, m));
    }
  }

  lemma StartFlushKeeps(o: Outbox)
    requires BoxInv(o)
    ensures var o' := StartFlush(o);
            BoxInv(o') && |o'.buffer| <= |o.buffer| && (o'.buffer == [] || o'.slots == 0)
  {
    if o.buffer != [] {
      DrainKeeps(o.(flush := Some(0), flushStart := |o.handed|));
    }
  }

  lemma ReconnectedKeeps(cfg: Config, s: State, slots: nat)
    requires Inv(cfg, s)
    ensures Inv(cfg, Reconnected(cfg, s, slots))
  {
    AnnounceKeeps(cfg, s.box.(slots := slots));
    StartFlushKeeps(Announce(cfg, s.box.(slots := slots)));
  }

  lemma TrySubscribeKeeps(cfg: Config, s: State)
    requires BoxInv(s.box) && Roomy(cfg, s)
    ensures BoxInv(TrySubscribe(s).box) && Roomy(cfg, TrySubscribe(s))
    ensures Eager(s) ==> Eager(TrySubscribe(s))
  {}

  lemma ConnAckKeeps(cfg: Config, s: State, slots: nat, order: seq<string>)
    requires Inv(cfg, s) && forall id :: id in order ==> id in s.snapshots
    ensures Inv(cfg, OnConnAck(cfg, s, slots, order))
  {
    ReconnectedKeeps(cfg, s, slots);
    RepublishKeeps(cfg, Reconnected(cfg, s, slots), order);
    TrySubscribeKeeps(cfg, Republish(cfg, Reconnected(cfg, s, slots), order).(subscribePending := cfg.commands));
  }

  lemma TickKeeps(cfg: Config, s: State, freed: nat)
    requires Inv(cfg, s)
    ensures Inv(cfg, if s.connected then Settle(TrySubscribe(Freed(s, freed))) else Freed(s, freed))
  {
    TrySubscribeKeeps(cfg, Freed(s, freed));
    DrainKeeps(TrySubscribe(Freed(s, freed)).box);
  }

  lemma RefuseKeeps(cfg: Config, s: State, id: string, refused: Option<Outcome>)
    requires BoxInv(s.box) && Roomy(cfg, s)
    requires s.connected || Eager(s)
    ensures BoxInv(Refuse(cfg, s, id, refused).box) && Roomy(cfg, Refuse(cfg, s, id, refused))
    ensures Eager(s) ==> Inv(cfg, Refuse(cfg, s, id, refused))
  {
    if refused.Some? {
      PutAndFoldKeeps(cfg, s, id, refused.value.message, refused.value.entry);
    }
  }

  lemma SettleKeeps(cfg: Config, s: State)
    requires BoxInv(s.box) && Roomy(cfg, s)
    ensures Inv(cfg, Settle(s))
  {
    DrainKeeps(s.box);
  }

  lemma FreedKeeps(cfg: Config, s: State, freed: nat)
    requires Inv(cfg, s)
    ensures BoxInv(Freed(s, freed).box) && Roomy(cfg, Freed(s, freed))
  {}

  /** Links and logs do not matter to the outbox. */
  lemma InvOfBox(cfg: Config, s: State, t: State)
    requires Inv(cfg, s) && t.box == s.box && t.connected == s.connected && t.connAcks == s.connAcks
    ensures Inv(cfg, t)
  {}

  lemma LinkChangedKeeps(cfg: Config, s: State, id: string, m: MqttMessage, link: LinkState, refused: Option<Outcome>)
    requires Inv(cfg, s)
    ensures Inv(cfg, OnLinkChanged(cfg, s, id, m, link, refused))
  {
    var noted := NoteLink(cfg, s, id, m, link);
    PutKeeps(cfg, s, m);
    InvOfBox(cfg, Put(cfg, s, m), noted);
    if Resends(cfg, s, id, link) {
      InvOfBox(cfg, noted, Resent(noted, id));
      RefuseKeeps(cfg, Resent(noted, id), id, refused);
    }
  }

  lemma PolledKeeps(cfg: Config, s: State, e: Event)
    requires Inv(cfg, s) && Enabled(s, e) && (e.Tick? || e.Incoming?)
    ensures Inv(cfg, Step(cfg, s, e))
  {
    if e.Tick? {
      TickKeeps(cfg, s, e.freed);
    } else {
      FreedKeeps(cfg, s, e.freed);
      RefuseKeeps(cfg, Freed(s, e.freed), e.id, e.refused);
      SettleKeeps(cfg, Refuse(cfg, Freed(s, e.freed), e.id, e.refused));
    }
  }

  lemma StepKeeps(cfg: Config, s: State, e: Event)
    requires Inv(cfg, s)
    ensures Inv(cfg, Step(cfg, s, e))
  {
    if Enabled(s, e) {
      if e.ConnAck? {
        ConnAckKeeps(cfg, s, e.slots, e.order);
      } else if e.Tick? || e.Incoming? {
        PolledKeeps(cfg, s, e);
      } else if e.Forwarded? {
        PutAndFoldKeeps(cfg, s, e.id, e.message, e.entry);
      } else if e.LinkChanged? {
        LinkChangedKeeps(cfg, s, e.id, e.message, e.link, e.refused);
      } else if e.CommandDone? {
        PutAndFoldKeeps(cfg, s, e.id, e.outcome.message, e.outcome.entry);
      }
    }
  }

  lemma {:induction false} RunKeeps(cfg: Config, snapshots: map<string, ChargePoint>, events: seq<Event>)
    ensures Inv(cfg, Run(cfg, Init(snapshots), events))
  {
    if events != [] {
      RunKeeps(cfg, snapshots, events[..|events| - 1]);
      StepKeeps(cfg, Run(cfg, Init(snapshots), events[..|events| - 1]), events[|events| - 1]);
    }
  }

  // ---- main results ----

  lemma {:induction false} AtMostOnce(s: seq<Tagged>, x: Tagged)
    requires TagsAscend(s)
    ensures multiset(s)[x] <= 1
  {
    if s != [] {
      var n := |s| - 1;
      AtMostOnce(s[..n], x);
      assert s == s[..n] + [s[n]];
      if x == s[n] {
        assert x !in s[..n];
      }
    }
  }

  /** Every message ever queued is at all times in exactly one place: handed over,
      evicted or buffered. */
  lemma EveryMessageHasOnePlace(cfg: Config, snapshots: map<string, ChargePoint>, events: seq<Event>, k: nat)
    requires k < |Run(cfg, Init(snapshots), events).box.queued|
    ensures var o := Run(cfg, Init(snapshots), events).box;
            var x := Tagged(o.queued[k], k);
            multiset(o.handed)[x] + multiset(o.evicted)[x] + multiset(o.buffer)[x] == 1
  {
    RunKeeps(cfg, snapshots, events);
    var o := Run(cfg, Init(snapshots), events).box;
    var x := Tagged(o.queued[k], k);
    AtMostOnce(All(o.queued), x);
    assert All(o.queued)[k] == x;
    assert multiset(All(o.queued))[x] == 1;
    assert (multiset(o.handed) + multiset(o.evicted) + multiset(o.buffer))[x] == 1;
  }

  function NotIn(evicted: seq<Tagged>): Tagged -> bool {
    (x: Tagged) => Plain(x) && x !in evicted
  }

  lemma WithoutLast(s: seq<Tagged>)
    requires TagsAscend(s) && s != []
    ensures var n := |s| - 1;
            TagsAscend(s[..n]) && forall z :: z in s[..n] <==> z in s && z != s[n]
  {
    var n := |s| - 1;
    assert s == s[..n] + [s[n]];
  }

  lemma SameLast(a: seq<Tagged>, b: seq<Tagged>)
    requires TagsAscend(a) && TagsAscend(b) && a != [] && b != []
    requires forall x :: x in a <==> x in b
    ensures a[|a| - 1] == b[|b| - 1]
  {
    var x, y := a[|a| - 1], b[|b| - 1];
    assert x in a && y in b;
    LastIsLargest(a, y);
    LastIsLargest(b, x);
  }

  lemma {:induction false} SameElementsSameOrder(a: seq<Tagged>, b: seq<Tagged>)
    requires TagsAscend(a) && TagsAscend(b) && forall x :: x in a <==> x in b
    ensures a == b
  {
    assert (a != [] ==> a[0] in a) && (b != [] ==> b[0] in b);
    if a != [] && b != [] {
      SameLast(a, b);
      WithoutLast(a);
      WithoutLast(b);
      SameElementsSameOrder(a[..|a| - 1], b[..|b| - 1]);
      assert a == a[..|a| - 1] + [a[|a| - 1]] && b == b[..|b| - 1] + [b[|b| - 1]];
    }
  }

  lemma LastIsLargest(s: seq<Tagged>, x: Tagged)
    requires TagsAscend(s) && x in s
    ensures x.tag < s[|s| - 1].tag || x == s[|s| - 1]
  {}

  lemma {:induction false} FilterAscends(keep: Tagged -> bool, s: seq<Tagged>)
    requires TagsAscend(s)
    ensures TagsAscend(Filter(keep, s))
  {
    if s != [] {
      var n := |s| - 1;
      FilterAscends(keep, s[..n]);
      var before := Filter(keep, s[..n]);
      forall i | 0 <= i < |before| ensures before[i].tag < s[n].tag {
        assert before[i] in s[..n];
      }
    }
  }

  lemma PlacesOf(o: Outbox, x: Tagged)
    requires Placed(o)
    ensures x in o.handed + o.buffer <==> x in All(o.queued) && x !in o.evicted
  {
    AtMostOnce(All(o.queued), x);
    var places := multiset(o.handed) + multiset(o.evicted) + multiset(o.buffer);
    assert places[x] == multiset(o.handed)[x] + multiset(o.evicted)[x] + multiset(o.buffer)[x];
    assert x in All(o.queued) <==> multiset(All(o.queued))[x] > 0;
    assert x in o.handed + o.buffer <==> multiset(o.handed)[x] + multiset(o.buffer)[x] > 0;
    assert x in o.evicted <==> multiset(o.evicted)[x] > 0;
  }

  /** `online` messages aside, what was handed over followed by what is buffered
      is the order of queueing minus the evicted messages. */
  lemma PublishedInQueueingOrder(cfg: Config, snapshots: map<string, ChargePoint>, events: seq<Event>)
    ensures var o := Run(cfg, Init(snapshots), events).box;
            Filter(Plain, o.handed + o.buffer) == Filter(NotIn(o.evicted), All(o.queued))
  {
    RunKeeps(cfg, snapshots, events);
    var o := Run(cfg, Init(snapshots), events).box;
    var a, b := Filter(Plain, o.handed + o.buffer), Filter(NotIn(o.evicted), All(o.queued));
    FilterAscends(NotIn(o.evicted), All(o.queued));
    forall x ensures x in a <==> x in b {
      PlacesOf(o, x);
    }
    SameElementsSameOrder(a, b);
  }

  /** What is evicted is older than whatever is still buffered, `online` aside. */
  lemma TheOldestAreEvicted(cfg: Config, snapshots: map<string, ChargePoint>, events: seq<Event>,
                            x: Tagged, y: Tagged)
    requires var o := Run(cfg, Init(snapshots), events).box;
             x in o.evicted && y in o.buffer && Plain(x) && Plain(y)
    ensures x.tag < y.tag
  {
    RunKeeps(cfg, snapshots, events);
    var o := Run(cfg, Init(snapshots), events).box;
    FilterConcat(Plain, o.evicted, o.buffer);
    AscendAcross(Filter(Plain, o.evicted), Filter(Plain, o.buffer), x, y);
  }

  lemma AscendAcross(a: seq<Tagged>, b: seq<Tagged>, x: Tagged, y: Tagged)
    requires TagsAscend(a + b) && x in a && y in b
    ensures x.tag < y.tag
  {
    var i :| 0 <= i < |a| && a[i] == x;
    var j :| 0 <= j < |b| && b[j] == y;
    assert (a + b)[i] == x && (a + b)[|a| + j] == y;
  }

  /** The buffer outgrows its limit only by what reconnects push in front. */
  lemma BufferIsBounded(cfg: Config, snapshots: map<string, ChargePoint>, events: seq<Event>)
    ensures var s := Run(cfg, Init(snapshots), events);
            |s.box.buffer| <= Most(1, cfg.limit) + s.connAcks
  {
    RunKeeps(cfg, snapshots, events);
  }

  // ---- when the buffer outgrows its limit ----

  function FullSize(cfg: Config): nat {
    Most(1, cfg.limit)
  }

  lemma PutSize(cfg: Config, s: State, m: MqttMessage)
    ensures var b, b' := s.box.buffer, Put(cfg, s, m).box.buffer;
            && (|b| <= FullSize(cfg) ==> |b'| <= FullSize(cfg))
            && (s.connected && s.box.slots == 0 && |b| > FullSize(cfg) ==>
                  |b'| == |b| && Put(cfg, s, m).box.slots == 0)
  {}

  lemma PutAndFoldSize(cfg: Config, s: State, id: string, m: MqttMessage, e: Entry)
    requires |s.box.buffer| <= FullSize(cfg)
    ensures |PutAndFold(cfg, s, id, m, e).box.buffer| <= FullSize(cfg)
  {
    PutSize(cfg, s, m);
    var before := if id in s.snapshots then s.snapshots[id] else NO_SNAPSHOT;
    var after := Fold(before, e);
    PutSize(cfg, Put(cfg, s, m).(snapshots := s.snapshots[id := after]), SnapshotMessage(id, after));
  }

  lemma {:induction false} RepublishSize(cfg: Config, s: State, order: seq<string>)
    requires s.connected && forall id :: id in order ==> id in s.snapshots
    ensures var t := Republish(cfg, s, order);
            && t.connected
            && (|s.box.buffer| <= FullSize(cfg) ==> |t.box.buffer| <= FullSize(cfg))
            && (s.box.slots == 0 && |s.box.buffer| > FullSize(cfg) ==>
                  |t.box.buffer| == |s.box.buffer| && t.box.slots == 0)
  {
    if order != [] {
      var n := |order| - 1;
      RepublishSize(cfg, s, order[..n]);
      PutSize(cfg, Republish(cfg, s, order[..n]), SnapshotMessage(order[n], s.snapshots[order[n]]));
    }
  }

  lemma ReconnectedSize(cfg: Config, s: State, slots: nat)
    requires |s.box.buffer| <= FullSize(cfg)
    ensures var o := Reconnected(cfg, s, slots).box;
            && (|o.buffer| > FullSize(cfg) <==> cfg.announced.Some? && slots == 0 && |s.box.buffer| == FullSize(cfg))
            && (|o.buffer| > FullSize(cfg) ==> o.slots == 0)
  {}

  /** A reconnect takes the buffer over its limit exactly if there is an `online` to
      announce, the buffer is full and the channel has no free slot. */
  lemma ConnAckSize(cfg: Config, s: State, slots: nat, order: seq<string>)
    requires |s.box.buffer| <= FullSize(cfg) && forall id :: id in order ==> id in s.snapshots
    ensures |OnConnAck(cfg, s, slots, order).box.buffer| > FullSize(cfg)
       <==> cfg.announced.Some? && slots == 0 && |s.box.buffer| == FullSize(cfg)
  {
    ReconnectedSize(cfg, s, slots);
    RepublishSize(cfg, Reconnected(cfg, s, slots), order);
  }

  lemma RefuseSize(cfg: Config, s: State, id: string, refused: Option<Outcome>)
    requires |s.box.buffer| <= FullSize(cfg)
    ensures |Refuse(cfg, s, id, refused).box.buffer| <= FullSize(cfg)
  {
    if refused.Some? {
      PutAndFoldSize(cfg, s, id, refused.value.message, refused.value.entry);
    }
  }

  lemma LinkChangedSize(cfg: Config, s: State, e: Event)
    requires e.LinkChanged? && |s.box.buffer| <= FullSize(cfg)
    ensures |Step(cfg, s, e).box.buffer| <= FullSize(cfg)
  {
    PutSize(cfg, s, e.message);
    if Resends(cfg, s, e.id, e.link) {
      RefuseSize(cfg, Resent(NoteLink(cfg, s, e.id, e.message, e.link), e.id), e.id, e.refused);
    }
  }

  /** No other event does. */
  lemma OtherEventSize(cfg: Config, s: State, e: Event)
    requires !e.ConnAck? && |s.box.buffer| <= FullSize(cfg)
    ensures |Step(cfg, s, e).box.buffer| <= FullSize(cfg)
  {
    if Enabled(s, e) {
      match e
      case Incoming(freed, id, refused) => RefuseSize(cfg, Freed(s, freed), id, refused);
      case Forwarded(id, message, entry) => PutAndFoldSize(cfg, s, id, message, entry);
      case LinkChanged(_, _, _, _) => LinkChangedSize(cfg, s, e);
      case CommandDone(id, outcome) => PutAndFoldSize(cfg, s, id, outcome.message, outcome.entry);
      case Tick(_) =>
      case ConnectionLost =>
    }
  }

  /** In any run, one event takes the buffer over its limit exactly if it is a ConnAck
      that finds the buffer full and the channel without a slot, with an `online` to
      announce. */
  lemma BufferOutgrowsIff(cfg: Config, snapshots: map<string, ChargePoint>, events: seq<Event>, e: Event)
    requires |Run(cfg, Init(snapshots), events).box.buffer| <= FullSize(cfg)
    ensures var s := Run(cfg, Init(snapshots), events);
            |Step(cfg, s, e).box.buffer| > FullSize(cfg) <==>
            && Enabled(s, e) && e.ConnAck? && e.slots == 0
            && cfg.announced.Some? && |s.box.buffer| == FullSize(cfg)
  {
    var s := Run(cfg, Init(snapshots), events);
    if !e.ConnAck? {
      OtherEventSize(cfg, s, e);
    } else if Enabled(s, e) {
      ConnAckSize(cfg, s, e.slots, e.order);
    }
  }

  /** So a run whose reconnects each find a free slot stays within the limit. */
  lemma {:induction false} FreeSlotsKeepTheLimit(cfg: Config, snapshots: map<string, ChargePoint>, events: seq<Event>)
    requires forall e :: e in events && e.ConnAck? ==> e.slots > 0
    ensures |Run(cfg, Init(snapshots), events).box.buffer| <= FullSize(cfg)
  {
    if events != [] {
      var n := |events| - 1;
      FreeSlotsKeepTheLimit(cfg, snapshots, events[..n]);
      BufferOutgrowsIff(cfg, snapshots, events[..n], events[n]);
      assert events[n] in events;
    }
  }

  lemma RunOfSnoc(cfg: Config, s: State, events: seq<Event>, e: Event)
    ensures Run(cfg, s, events + [e]) == Step(cfg, Run(cfg, s, events), e)
  {
    assert (events + [e])[..|events|] == events;
  }

  function Flapping(n: nat): seq<Event> {
    seq(n, i => ConnAck(0, []))
  }

  /** Status messages while there is no connection. */
  function Statuses(n: nat): seq<Event> {
    seq(n, i => LinkChanged("id", MqttMessage(Link("id"), Opaque("")), LinkState(false, false), None))
  }

  lemma {:induction false} StatusesFill(cfg: Config, n: nat)
    requires n <= FullSize(cfg)
    ensures var s := Run(cfg, Init(map[]), Statuses(n));
            |s.box.buffer| == n && s.snapshots == map[] && !s.connected && s.connAcks == 0
  {
    if n > 0 {
      StatusesFill(cfg, n - 1);
      assert Statuses(n) == Statuses(n - 1) + Statuses(1);
      RunOfSnoc(cfg, Init(map[]), Statuses(n - 1), Statuses(1)[0]);
    }
  }

  lemma FlapGrows(cfg: Config, s: State)
    requires cfg.announced.Some? && s.snapshots == map[] && s.box.buffer != []
    ensures var t := Step(cfg, s, ConnAck(0, []));
            |t.box.buffer| == |s.box.buffer| + 1 && t.snapshots == map[] && t.connAcks == s.connAcks + 1
  {}

  /** The bound is reached: fill the buffer while offline, then let the connection
      come up again and again without a free slot. */
  lemma {:induction false} BoundIsReached(cfg: Config, n: nat)
    requires cfg.announced.Some?
    ensures var s := Run(cfg, Init(map[]), Statuses(FullSize(cfg)) + Flapping(n));
            |s.box.buffer| == FullSize(cfg) + n && s.connAcks == n && s.snapshots == map[]
  {
    var events := Statuses(FullSize(cfg)) + Flapping(n);
    if n == 0 {
      StatusesFill(cfg, FullSize(cfg));
      assert events == Statuses(FullSize(cfg));
    } else {
      var before := Statuses(FullSize(cfg)) + Flapping(n - 1);
      BoundIsReached(cfg, n - 1);
      assert events == before + [ConnAck(0, [])];
      RunOfSnoc(cfg, Init(map[]), before, ConnAck(0, []));
      FlapGrows(cfg, Run(cfg, Init(map[]), before));
    }
  }

  // ---- re-applying on a rising link ----

  /** The last reported state of a charge point's links. */
  function LastLink(events: seq<Event>, id: string): Option<LinkState> {
    if events == [] then None
    else
      var e := events[|events| - 1];
      if e.LinkChanged? && e.id == id then Some(e.link) else LastLink(events[..|events| - 1], id)
  }

  predicate SameLinks(s: State, t: State) {
    t.links == s.links && t.reapplied == s.reapplied
  }

  lemma PutAndFoldKeepsLinks(cfg: Config, s: State, id: string, m: MqttMessage, e: Entry)
    ensures SameLinks(s, PutAndFold(cfg, s, id, m, e))
  {}

  lemma RefuseKeepsLinks(cfg: Config, s: State, id: string, refused: Option<Outcome>)
    ensures SameLinks(s, Refuse(cfg, s, id, refused))
  {
    if refused.Some? {
      PutAndFoldKeepsLinks(cfg, s, id, refused.value.message, refused.value.entry);
    }
  }

  lemma PolledKeepsLinks(cfg: Config, s: State, e: Event)
    requires e.Tick? || e.Incoming? || e.ConnectionLost?
    ensures SameLinks(s, Step(cfg, s, e))
  {
    if e.Incoming? && Enabled(s, e) {
      RefuseKeepsLinks(cfg, Freed(s, e.freed), e.id, e.refused);
    }
  }

  lemma ConnAckKeepsLinks(cfg: Config, s: State, e: Event)
    requires e.ConnAck?
    ensures SameLinks(s, Step(cfg, s, e))
  {
    if Enabled(s, e) {
      RepublishKeepsLinks(cfg, Reconnected(cfg, s, e.slots), e.order);
    }
  }

  lemma LinkChangedSetsLinks(cfg: Config, s: State, e: Event)
    requires e.LinkChanged?
    ensures var t := Step(cfg, s, e);
            && t.links == s.links[e.id := e.link]
            && t.reapplied == if Resends(cfg, s, e.id, e.link) then Resent(s, e.id).reapplied else s.reapplied
  {
    if Resends(cfg, s, e.id, e.link) {
      RefuseKeepsLinks(cfg, Resent(NoteLink(cfg, s, e.id, e.message, e.link), e.id), e.id, e.refused);
    }
  }

  lemma StepKeepsLinks(cfg: Config, s: State, e: Event)
    requires !e.LinkChanged?
    ensures SameLinks(s, Step(cfg, s, e))
  {
    if e.ConnAck? {
      ConnAckKeepsLinks(cfg, s, e);
    } else if e.Forwarded? {
      PutAndFoldKeepsLinks(cfg, s, e.id, e.message, e.entry);
    } else if e.CommandDone? {
      PutAndFoldKeepsLinks(cfg, s, e.id, e.outcome.message, e.outcome.entry);
    } else {
      PolledKeepsLinks(cfg, s, e);
    }
  }

  lemma {:induction false} RepublishKeepsLinks(cfg: Config, s: State, order: seq<string>)
    requires forall id :: id in order ==> id in s.snapshots
    ensures SameLinks(s, Republish(cfg, s, order))
  {
    if order != [] {
      RepublishKeepsLinks(cfg, s, order[..|order| - 1]);
    }
  }

  lemma {:induction false} LinksAreTheLast(cfg: Config, snapshots: map<string, ChargePoint>,
                                           events: seq<Event>, id: string)
    ensures var s := Run(cfg, Init(snapshots), events);
            LastLink(events, id) == if id in s.links then Some(s.links[id]) else None
  {
    if events != [] {
      var n := |events| - 1;
      LinksAreTheLast(cfg, snapshots, events[..n], id);
      if events[n].LinkChanged? {
        LinkChangedSetsLinks(cfg, Run(cfg, Init(snapshots), events[..n]), events[n]);
      } else {
        StepKeepsLinks(cfg, Run(cfg, Init(snapshots), events[..n]), events[n]);
      }
    }
  }

  /** A limit is sent again exactly when both links of its charge point have just
      come up, judging by everything reported before; and it is the standing one. */
  lemma ReappliedIffTheLinksCameUp(cfg: Config, snapshots: map<string, ChargePoint>, events: seq<Event>, e: Event)
    ensures var s := Run(cfg, Init(snapshots), events);
            Step(cfg, s, e).reapplied ==
              if && e.LinkChanged? && e.link == BOTH_UP && LastLink(events, e.id) != Some(BOTH_UP)
                 && cfg.commands && cfg.reapply && e.id in s.snapshots && Standing(s.snapshots[e.id]).Some?
              then s.reapplied + [Reapplied(e.id, Standing(s.snapshots[e.id]).value)] else s.reapplied
  {
    var s := Run(cfg, Init(snapshots), events);
    if e.LinkChanged? {
      LinksAreTheLast(cfg, snapshots, events, e.id);
      LinkChangedSetsLinks(cfg, s, e);
    } else {
      StepKeepsLinks(cfg, s, e);
    }
  }
}
