/** Call tracking and the upstream buffer (`src/forwarder.rs`). */
module Forwarding {
  import opened Prelude
  import opened Commands

  // ---- call tracker ----

  datatype Pending = Pending(action: string, direction: Direction, sentAt: real)

  type Tracker = map<string, Pending>

  const UNKNOWN_ACTION := "Unknown"

  /** A forwarded Call is remembered; a forwarded response forgets its Call. */
  function Observe(t: Tracker, f: Frame, direction: Direction, now: real): Tracker {
    match f.messageType
    case Call(action) => t[f.uniqueId := Pending(action, direction, now)]
    case _ => t - {f.uniqueId}
  }

  /** The action published for a frame: its own, or that of the Call it answers. */
  function ResolvedAction(t: Tracker, f: Frame): string {
    match f.messageType
    case Call(action) => action
    case _ => if f.uniqueId in t then t[f.uniqueId].action else UNKNOWN_ACTION
  }

  predicate RecentPending(t: Tracker, direction: Direction, now: real, maxAge: real) {
    exists id :: id in t && t[id].direction == direction && now - t[id].sentAt < maxAge
  }

  function Cleanup(t: Tracker, now: real, maxAge: real): Tracker {
    map id | id in t && now - t[id].sentAt < maxAge :: t[id]
  }

  // ---- buffers ----

  /** A buffered frame. `source` is the position of the frame among the texts
      read from its sender; the program does not keep it. */
  datatype Buffered = Buffered(frame: Frame, receivedAt: real, source: nat)

  function AfterBuffering(buffer: seq<Buffered>, entry: Buffered, maxSize: nat): seq<Buffered> {
    (if |buffer| >= maxSize && buffer != [] then buffer[1..] else buffer) + [entry]
  }

  function Fresh(now: real, maxAge: real): Buffered -> bool {
    (b: Buffered) => b.receivedAt >= now - maxAge
  }

  function Raws(buffer: seq<Buffered>): seq<string> {
    seq(|buffer|, i requires 0 <= i < |buffer| => buffer[i].frame.raw)
  }

  /** A writer that takes `accepts` more messages before its connection fails. A
      failed send delivers nothing. */
  class MessageSink {
    var accepts: nat
    ghost var delivered: seq<string>

    constructor (accepts: nat)
      ensures this.accepts == accepts && delivered == []
    {
      this.accepts := accepts;
      delivered := [];
    }

    method SendRaw(raw: string) returns (ok: bool)
      modifies this
      ensures ok == (old(accepts) > 0)
      ensures accepts == old(accepts) - (if ok then 1 else 0)
      ensures delivered == old(delivered) + (if ok then [raw] else [])
    {
      ok := accepts > 0;
      if ok {
        accepts := accepts - 1;
        delivered := delivered + [raw];
      }
    }
  }

  class CallTracker {
    var pendingCalls: Tracker
    const maxAge: real

    constructor (maxAge: real)
      ensures pendingCalls == map[] && this.maxAge == maxAge
    {
      pendingCalls := map[];
      this.maxAge := maxAge;
    }

    method TrackCall(uniqueId: string, action: string, direction: Direction, now: real)
      modifies this
      ensures pendingCalls == old(pendingCalls)[uniqueId := Pending(action, direction, now)]
    {
      pendingCalls := pendingCalls[uniqueId := Pending(action, direction, now)];
    }

    /** The tracked action, consumed; `None` when the id is unknown. */
    method Resolve(uniqueId: string) returns (action: Option<string>)
      modifies this
      ensures pendingCalls == old(pendingCalls) - {uniqueId}
      ensures action == if uniqueId in old(pendingCalls) then Some(old(pendingCalls)[uniqueId].action) else None
    {
      if uniqueId in pendingCalls {
        action := Some(pendingCalls[uniqueId].action);
        pendingCalls := pendingCalls - {uniqueId};
      } else {
        action := None;
      }
    }

    method CleanupExpired(now: real) returns (evicted: nat)
      modifies this
      ensures pendingCalls == Cleanup(old(pendingCalls), now, maxAge)
      ensures evicted == |old(pendingCalls)| - |pendingCalls|
    {
      var before := pendingCalls;
      pendingCalls := Cleanup(pendingCalls, now, maxAge);
      assert pendingCalls.Keys <= before.Keys;
      SubsetSize(pendingCalls.Keys, before.Keys);
      evicted := |before| - |pendingCalls|;
    }

    /** Whether some Call in `direction` is unanswered and younger than `age`. */
    method HasRecentPendingIn(direction: Direction, now: real, age: real) returns (found: bool)
      ensures found == RecentPending(pendingCalls, direction, now, age)
    {
      var ids := pendingCalls.Keys;
      while ids != {}
        invariant ids <= pendingCalls.Keys
        invariant forall id :: id in pendingCalls && id !in ids
                    ==> !(pendingCalls[id].direction == direction && now - pendingCalls[id].sentAt < age)
        decreases |ids|
      {
        var id :| id in ids;
        if pendingCalls[id].direction == direction && now - pendingCalls[id].sentAt < age {
          return true;
        }
        ids := ids - {id};
      }
      found := false;
    }
  }

  lemma {:induction false} SubsetSize<T>(a: set<T>, b: set<T>)
    requires a <= b
    ensures |a| <= |b|
  {
    if a != {} {
      var x :| x in a;
      SubsetSize(a - {x}, b - {x});
    }
  }

  class MessageForwarder {
    var upstreamBuffer: seq<Buffered>
    const tracker: CallTracker
    const maxBufferSize: nat
    const maxBufferDuration: real

    constructor (maxBufferSize: nat, maxBufferDuration: real, trackerMaxAge: real)
      ensures upstreamBuffer == [] && fresh(tracker) && tracker.pendingCalls == map[]
      ensures tracker.maxAge == trackerMaxAge
      ensures this.maxBufferSize == maxBufferSize && this.maxBufferDuration == maxBufferDuration
    {
      upstreamBuffer := [];
      tracker := new CallTracker(trackerMaxAge);
      this.maxBufferSize := maxBufferSize;
      this.maxBufferDuration := maxBufferDuration;
    }

    method ResolveAction(frame: Frame, direction: Direction, now: real) returns (action: string)
      modifies tracker
      ensures tracker.pendingCalls == Observe(old(tracker.pendingCalls), frame, direction, now)
      ensures action == ResolvedAction(old(tracker.pendingCalls), frame)
    {
      match frame.messageType
      case Call(name) =>
        tracker.TrackCall(frame.uniqueId, name, direction, now);
        action := name;
      case _ =>
        var known := tracker.Resolve(frame.uniqueId);
        action := if known.Some? then known.value else UNKNOWN_ACTION;
    }

    /** Forward a frame byte for byte; track it only once it was sent. */
    method ForwardMessage(frame: Frame, sink: MessageSink, direction: Direction, now: real)
      returns (sent: bool, action: string)
      modifies tracker, sink
      ensures sent == (old(sink.accepts) > 0)
      ensures sink.accepts == old(sink.accepts) - (if sent then 1 else 0)
      ensures sink.delivered == old(sink.delivered) + (if sent then [frame.raw] else [])
      ensures sent ==> tracker.pendingCalls == Observe(old(tracker.pendingCalls), frame, direction, now)
      ensures sent ==> action == ResolvedAction(old(tracker.pendingCalls), frame)
      ensures !sent ==> tracker.pendingCalls == old(tracker.pendingCalls)
    {
      action := UNKNOWN_ACTION;
      sent := sink.SendRaw(frame.raw);
      if sent {
        action := ResolveAction(frame, direction, now);
      }
    }

    /** Keep a frame for later; a full buffer loses its oldest frame. */
    method BufferUpstream(entry: Buffered)
      modifies this
      ensures upstreamBuffer == AfterBuffering(old(upstreamBuffer), entry, maxBufferSize)
    {
      if |upstreamBuffer| >= maxBufferSize {
        if |upstreamBuffer| > 0 {
          upstreamBuffer := upstreamBuffer[1..];
        }
      }
      upstreamBuffer := upstreamBuffer + [entry];
    }

    /** Replay the buffer in order. On a failed send the rest stays, the frame
        that failed included. */
    method FlushUpstream(sink: MessageSink) returns (flushed: Option<nat>)
      modifies this, sink
      ensures var k := MinNat(old(sink.accepts), |old(upstreamBuffer)|);
              && upstreamBuffer == old(upstreamBuffer)[k..]
              && sink.delivered == old(sink.delivered) + Raws(old(upstreamBuffer)[..k])
              && sink.accepts == old(sink.accepts) - k
              && flushed == (if k == |old(upstreamBuffer)| then Some(k) else None)
    {
      ghost var all := upstreamBuffer;
      ghost var before := sink.delivered;
      var count := |upstreamBuffer|;
      ghost var k := 0;
      while upstreamBuffer != []
        invariant 0 <= k <= |all| && upstreamBuffer == all[k..]
        invariant k <= old(sink.accepts) && sink.accepts == old(sink.accepts) - k
        invariant sink.delivered == before + Raws(all[..k])
        decreases |upstreamBuffer|
      {
        var frame := upstreamBuffer[0];
        upstreamBuffer := upstreamBuffer[1..];
        var ok := sink.SendRaw(frame.frame.raw);
        if !ok {
          upstreamBuffer := [frame] + upstreamBuffer;
          return None;
        }
        assert Raws(all[..k + 1]) == Raws(all[..k]) + [frame.frame.raw];
        k := k + 1;
      }
      flushed := Some(count);
    }

    /** Drop buffered frames older than the limit. */
    method EvictExpiredMessages(now: real) returns (evicted: nat)
      modifies this
      ensures upstreamBuffer == Filter(Fresh(now, maxBufferDuration), old(upstreamBuffer))
      ensures evicted == |old(upstreamBuffer)| - |upstreamBuffer|
    {
      var kept: seq<Buffered> := [];
      var i := 0;
      while i < |upstreamBuffer|
        invariant 0 <= i <= |upstreamBuffer|
        invariant kept == Filter(Fresh(now, maxBufferDuration), upstreamBuffer[..i])
      {
        assert upstreamBuffer[..i + 1][..i] == upstreamBuffer[..i];
        if upstreamBuffer[i].receivedAt >= now - maxBufferDuration {
          kept := kept + [upstreamBuffer[i]];
        }
        i := i + 1;
      }
      assert upstreamBuffer[..i] == upstreamBuffer;
      evicted := |upstreamBuffer| - |kept|;
      upstreamBuffer := kept;
    }
  }
}
