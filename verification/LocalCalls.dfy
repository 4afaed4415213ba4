/** The commands a session still has to turn into Calls (`LocalCallQueue` in
    `src/command.rs`), and the single Call that may be open. */
module LocalCalls {
  import opened Prelude
  import opened Commands

  datatype Calls = Calls(queued: seq<Request>, inFlight: Option<InFlight>, sequence: nat)

  const NO_CALLS := Calls([], None, 0)

  predicate Ours(c: Calls, uniqueId: string) {
    c.inFlight.Some? && c.inFlight.value.prepared.uniqueId == uniqueId
  }

  predicate Idle(c: Calls) {
    c.queued == [] && c.inFlight.None?
  }

  // ---- queueing ----

  /** What stays queued once older limit commands make way for `r`. */
  function Kept(queued: seq<Request>, r: Request): seq<Request> {
    if IsLimit(r) then Filter(NotLimit, queued) else queued
  }

  function Replaced(queued: seq<Request>, r: Request): seq<Request> {
    if IsLimit(r) then Filter(IsLimit, queued) else []
  }

  function Overflow(kept: seq<Request>, capacity: nat): nat {
    if |kept| >= capacity && |kept| > 0 then 1 else 0
  }

  function Pushed(queued: seq<Request>, r: Request, capacity: nat): seq<Request> {
    var kept := Kept(queued, r);
    kept[Overflow(kept, capacity)..] + [r]
  }

  function Displaced(queued: seq<Request>, r: Request, capacity: nat): seq<Request> {
    var kept := Kept(queued, r);
    Replaced(queued, r) + kept[..Overflow(kept, capacity)]
  }

  /** Queueing loses nothing: every request is queued or reported displaced. */
  lemma PushConserves(queued: seq<Request>, r: Request, capacity: nat)
    ensures multiset(queued) + multiset{r}
         == multiset(Pushed(queued, r, capacity)) + multiset(Displaced(queued, r, capacity))
  {
    var kept := Kept(queued, r);
    var k := Overflow(kept, capacity);
    KeptAndReplaced(queued, r);
    assert kept == kept[..k] + kept[k..];
    assert multiset(kept) == multiset(kept[..k]) + multiset(kept[k..]);
  }

  lemma KeptAndReplaced(queued: seq<Request>, r: Request)
    ensures multiset(queued) == multiset(Kept(queued, r)) + multiset(Replaced(queued, r))
  {
    if IsLimit(r) {
      FilterSplits(NotLimit, IsLimit, queued);
    }
  }

  predicate AtMostOneLimit(queued: seq<Request>) {
    forall i, j :: 0 <= i < j < |queued| ==> NotLimit(queued[i]) || NotLimit(queued[j])
  }

  /** Coalescing: within capacity, at most one limit command, arrival order. */
  lemma PushCoalesces(queued: seq<Request>, r: Request, capacity: nat)
    requires capacity > 0 && |queued| <= capacity && AtMostOneLimit(queued)
    ensures |Pushed(queued, r, capacity)| <= capacity
    ensures AtMostOneLimit(Pushed(queued, r, capacity))
    ensures Subsequence(Pushed(queued, r, capacity), queued + [r])
  {
    var kept := Kept(queued, r);
    var k := Overflow(kept, capacity);
    FilterIsSubsequence(NotLimit, queued);
    SubsequenceSelf(queued);
    SubsequenceSelf(kept);
    if k == 1 {
      TailIsSubsequence(kept);
    } else {
      assert kept[k..] == kept;
    }
    SubsequenceTrans(kept[k..], kept, queued);
    SubsequenceKeep(kept[k..], queued, r);
    assert IsLimit(r) ==> forall x :: x in kept ==> NotLimit(x);
  }

  // ---- expiry ----

  function OlderThan(now: real, timeout: real): Request -> bool {
    (r: Request) => now - r.issuedAt >= timeout
  }

  function YoungerThan(now: real, timeout: real): Request -> bool {
    (r: Request) => now - r.issuedAt < timeout
  }

  predicate Overdue(inFlight: Option<InFlight>, now: real, timeout: real) {
    inFlight.Some? && now - inFlight.value.sentAt >= timeout
  }

  function AfterExpiry(c: Calls, now: real, timeout: real): Calls {
    c.(queued := Filter(YoungerThan(now, timeout), c.queued),
       inFlight := if Overdue(c.inFlight, now, timeout) then None else c.inFlight)
  }

  function Expired(c: Calls, now: real, timeout: real): seq<Request> {
    Filter(OlderThan(now, timeout), c.queued)
  }

  lemma ExpireConserves(c: Calls, now: real, timeout: real)
    ensures multiset(c.queued)
         == multiset(AfterExpiry(c, now, timeout).queued) + multiset(Expired(c, now, timeout))
    ensures Subsequence(AfterExpiry(c, now, timeout).queued, c.queued)
  {
    FilterSplits(YoungerThan(now, timeout), OlderThan(now, timeout), c.queued);
    FilterIsSubsequence(YoungerThan(now, timeout), c.queued);
  }

  lemma {:induction false} FilterKeepsOneLimit(keep: Request -> bool, queued: seq<Request>)
    requires AtMostOneLimit(queued)
    ensures AtMostOneLimit(Filter(keep, queued))
  {
    if queued != [] {
      FilterKeepsOneLimit(keep, queued[..|queued| - 1]);
      var before := Filter(keep, queued[..|queued| - 1]);
      forall i | 0 <= i < |before| ensures NotLimit(before[i]) || NotLimit(queued[|queued| - 1]) {
        assert before[i] in queued[..|queued| - 1];
      }
    }
  }

  // ---- the queue object ----

  class LocalCallQueue {
    var queued: seq<Request>
    var inFlight: Option<InFlight>
    var sequence: nat
    const timeout: real
    const capacity: nat

    function View(): Calls
      reads this
    {
      Calls(queued, inFlight, sequence)
    }

    constructor (timeout: real, capacity: nat)
      ensures View() == NO_CALLS
      ensures this.timeout == timeout
      ensures this.capacity == (if capacity < 1 then 1 else capacity)
    {
      this.queued, this.inFlight, this.sequence := [], None, 0;
      this.timeout := timeout;
      this.capacity := if capacity < 1 then 1 else capacity;
    }

    /** Take the limit commands out of the queue. */
    method DropLimits() returns (dropped: seq<Request>)
      modifies this`queued
      ensures queued == Filter(NotLimit, old(queued)) && dropped == Filter(IsLimit, old(queued))
    {
      dropped := [];
      var kept: seq<Request> := [];
      var i := 0;
      while i < |queued|
        invariant 0 <= i <= |queued|
        invariant kept == Filter(NotLimit, queued[..i])
        invariant dropped == Filter(IsLimit, queued[..i])
      {
        assert queued[..i + 1][..i] == queued[..i];
        if IsLimit(queued[i]) {
          dropped := dropped + [queued[i]];
        } else {
          kept := kept + [queued[i]];
        }
        i := i + 1;
      }
      assert queued[..i] == queued;
      queued := kept;
    }

    /** Queue a request and return the ones it displaces. */
    method Push(request: Request) returns (displaced: seq<Request>)
      modifies this
      ensures View() == old(View()).(queued := Pushed(old(queued), request, capacity))
      ensures displaced == Displaced(old(queued), request, capacity)
    {
      displaced := [];
      if IsLimit(request) {
        displaced := DropLimits();
      }
      if |queued| >= capacity {
        if |queued| > 0 {
          displaced := displaced + [queued[0]];
          queued := queued[1..];
        }
      }
      queued := queued + [request];
    }

    /** Draw an id that no other Call of this session carries. */
    method NextUniqueId(millis: nat) returns (uniqueId: string)
      modifies this`sequence
      ensures sequence == old(sequence) + 1 && uniqueId == UniqueId(millis, sequence)
    {
      sequence := sequence + 1;
      uniqueId := UniqueId(millis, sequence);
    }

    /** Pop the next request, unless a Call is in flight. */
    method PopNext() returns (request: Option<Request>)
      modifies this`queued
      ensures old(inFlight).Some? || old(queued) == [] ==> request.None? && queued == old(queued)
      ensures old(inFlight).None? && old(queued) != []
          ==> request == Some(old(queued)[0]) && queued == old(queued)[1..]
    {
      if inFlight.Some? || queued == [] {
        return None;
      }
      request := Some(queued[0]);
      queued := queued[1..];
    }

    method SetInFlight(request: Request, prepared: PreparedCall, now: real)
      modifies this`inFlight
      ensures inFlight == Some(InFlight(request, prepared, now))
    {
      inFlight := Some(InFlight(request, prepared, now));
    }

    /** Claim the Call in flight if this response answers it. */
    method TakeResponse(uniqueId: string) returns (taken: Option<InFlight>)
      modifies this`inFlight
      ensures taken == (if Ours(old(View()), uniqueId) then old(inFlight) else None)
      ensures inFlight == if taken.Some? then None else old(inFlight)
    {
      if inFlight.Some? && inFlight.value.prepared.uniqueId == uniqueId {
        taken := inFlight;
        inFlight := None;
      } else {
        taken := None;
      }
    }

    /** Everything that has waited too long leaves the queue. */
    method Expire(now: real) returns (expired: seq<Request>, late: Option<InFlight>)
      modifies this
      ensures View() == AfterExpiry(old(View()), now, timeout)
      ensures expired == Expired(old(View()), now, timeout)
      ensures late == if Overdue(old(inFlight), now, timeout) then old(inFlight) else None
    {
      expired := [];
      var kept: seq<Request> := [];
      var i := 0;
      while i < |queued|
        invariant 0 <= i <= |queued|
        invariant kept == Filter(YoungerThan(now, timeout), queued[..i])
        invariant expired == Filter(OlderThan(now, timeout), queued[..i])
      {
        assert queued[..i + 1][..i] == queued[..i];
        if now - queued[i].issuedAt >= timeout {
          expired := expired + [queued[i]];
        } else {
          kept := kept + [queued[i]];
        }
        i := i + 1;
      }
      assert queued[..i] == queued;
      queued := kept;
      late := None;
      if inFlight.Some? && now - inFlight.value.sentAt >= timeout {
        late := inFlight;
        inFlight := None;
      }
    }

    /** Hand back whatever is still held. */
    method Drain() returns (left: seq<Request>, late: Option<InFlight>)
      modifies this`queued, this`inFlight
      ensures left == old(queued) && late == old(inFlight)
      ensures queued == [] && inFlight.None?
    {
      left, late := queued, inFlight;
      queued, inFlight := [], None;
    }
  }
}
