/** The command side of a session (`src/session.rs`): the inbox the router fills,
    the queue of proxy Calls, and a log of everything taken, sent and reported.
    The logs have no counterpart in the program; they are what the theorems talk
    about. */
module CommandDesk {
  import opened Prelude
  import opened Commands
  import opened LocalCalls

  /** A proxy Call put on the wire. `known` is how many requests the session had
      taken from its inbox at that moment. */
  datatype Sent = Sent(uniqueId: string, request: Request, millis: nat, number: nat, known: nat)

  datatype Desk = Desk(
    inbox: seq<Request>,
    open: bool,
    calls: Calls,
    arrived: seq<Request>,
    taken: seq<Request>,
    sent: seq<Sent>,
    results: seq<Outcome>)

  const EMPTY_DESK := Desk([], true, NO_CALLS, [], [], [], [])

  // ---- reporting ----

  datatype Reason = Crowded | Stale | Over

  function StatusFor(why: Reason, r: Request): Status {
    match why
    case Crowded => if IsLimit(r) then Superseded else Rejected
    case Stale => Timeout
    case Over => NotConnected
  }

  function Report(rs: seq<Request>, why: Reason): (r: seq<Outcome>)
    ensures forall o :: o in r ==> o.answerTo.None?
  {
    seq(|rs|, i requires 0 <= i < |rs| => Outcome(rs[i], StatusFor(why, rs[i]), None))
  }

  function Lapsed(inFlight: Option<InFlight>): seq<Outcome> {
    if inFlight.Some? then [Outcome(inFlight.value.request, Timeout, None)] else []
  }

  // ---- actions ----

  function Arrive(d: Desk, r: Request): Desk {
    d.(inbox := d.inbox + [r], arrived := d.arrived + [r])
  }

  /** Take the oldest request from the inbox into the queue. */
  function TakeOne(d: Desk, capacity: nat): Desk
    requires d.inbox != []
  {
    var r := d.inbox[0];
    d.(inbox := d.inbox[1..], taken := d.taken + [r],
       calls := d.calls.(queued := Pushed(d.calls.queued, r, capacity)),
       results := d.results + Report(Displaced(d.calls.queued, r, capacity), Crowded))
  }

  /** The charger answered the Call in flight. */
  function Answer(d: Desk, messageType: MessageType): Desk
    requires d.calls.inFlight.Some?
  {
    var f := d.calls.inFlight.value;
    d.(calls := d.calls.(inFlight := None),
       results := d.results
         + [Outcome(f.request, InterpretResponse(f.prepared.action, messageType), Some(f.prepared.uniqueId))])
  }

  function ExpireDesk(d: Desk, now: real, timeout: real): Desk {
    d.(calls := AfterExpiry(d.calls, now, timeout),
       results := d.results + Report(Expired(d.calls, now, timeout), Stale)
         + Lapsed(if Overdue(d.calls.inFlight, now, timeout) then d.calls.inFlight else None))
  }

  /** The session is over: everything it holds is reported. */
  function Close(d: Desk): Desk {
    d.(inbox := [], taken := d.taken + d.inbox,
       calls := d.calls.(queued := [], inFlight := None),
       results := d.results + Report(d.calls.queued, Over) + Lapsed(d.calls.inFlight)
         + Report(d.inbox, Over))
  }

  datatype Sending = Sending(desk: Desk, lost: bool)

  function Millis(now: real): nat {
    if now < 0.0 then 0 else now.Floor
  }

  /** Send the first queued request that passes validation. `alive` says whether
      the charger connection takes the frame. */
  function Pump(charging: Charging, d: Desk, now: real, alive: bool): Sending
    decreases |d.calls.queued|
  {
    if d.calls.queued == [] then Sending(d, false)
    else
      var r := d.calls.queued[0];
      var n := d.calls.sequence + 1;
      var popped := d.(calls := d.calls.(queued := d.calls.queued[1..], sequence := n));
      match PrepareCall(charging, r, UniqueId(Millis(now), n))
      case None => Pump(charging, popped.(results := d.results + [Outcome(r, Invalid, None)]), now, alive)
      case Some(prepared) =>
        if !alive then
          Sending(popped.(results := d.results + [Outcome(r, NotConnected, None)]), true)
        else
          Sending(popped.(calls := popped.calls.(inFlight := Some(InFlight(r, prepared, now))),
                          sent := d.sent + [Sent(prepared.uniqueId, r, Millis(now), n, |d.taken|)]), false)
  }

  /** Nothing is sent while a Call is in flight or the line is held. */
  function SendLocal(charging: Charging, d: Desk, held: bool, now: real, alive: bool): Sending {
    if d.calls.inFlight.Some? || held then Sending(d, false) else Pump(charging, d, now, alive)
  }

  // ---- what every action keeps ----

  function Reported(results: seq<Outcome>): seq<Request> {
    seq(|results|, i requires 0 <= i < |results| => results[i].request)
  }

  function Bag(results: seq<Outcome>): multiset<Request> {
    multiset(Reported(results))
  }

  function FlightBag(inFlight: Option<InFlight>): multiset<Request> {
    if inFlight.Some? then multiset{inFlight.value.request} else multiset{}
  }

  /** Every request taken is reported, queued or in flight, and only once. */
  predicate Conserved(d: Desk) {
    multiset(d.taken) == Bag(d.results) + multiset(d.calls.queued) + FlightBag(d.calls.inFlight)
  }

  function NewestLimit(taken: seq<Request>): Option<Request> {
    if taken == [] then None
    else if IsLimit(taken[|taken| - 1]) then Some(taken[|taken| - 1])
    else NewestLimit(taken[..|taken| - 1])
  }

  ghost predicate Coalesced(d: Desk, capacity: nat) {
    && |d.calls.queued| <= capacity
    && AtMostOneLimit(d.calls.queued)
    && Subsequence(d.calls.queued, d.taken)
    && (forall q :: q in d.calls.queued && IsLimit(q) ==> NewestLimit(d.taken) == Some(q))
  }

  predicate WellSent(x: Sent, taken: seq<Request>) {
    && x.uniqueId == UniqueId(x.millis, x.number)
    && x.known <= |taken|
    && (IsLimit(x.request) ==> NewestLimit(taken[..x.known]) == Some(x.request))
  }

  predicate Numbered(d: Desk) {
    && (forall i :: 0 <= i < |d.sent| ==> WellSent(d.sent[i], d.taken) && d.sent[i].number <= d.calls.sequence)
    && (forall i, j :: 0 <= i < j < |d.sent| ==> d.sent[i].number < d.sent[j].number)
  }

  predicate WasSent(sent: seq<Sent>, uniqueId: string, r: Request) {
    exists i :: 0 <= i < |sent| && sent[i].uniqueId == uniqueId && sent[i].request == r
  }

  predicate Attributed(d: Desk) {
    && (d.calls.inFlight.Some? ==>
          WasSent(d.sent, d.calls.inFlight.value.prepared.uniqueId, d.calls.inFlight.value.request))
    && (forall o :: o in d.results && o.answerTo.Some? ==> WasSent(d.sent, o.answerTo.value, o.request))
  }

  ghost predicate DeskInv(d: Desk, capacity: nat) {
    && d.arrived == d.taken + d.inbox
    && Conserved(d)
    && Coalesced(d, capacity)
    && Numbered(d)
    && Attributed(d)
  }

  lemma BagConcat(a: seq<Outcome>, b: seq<Outcome>)
    ensures Bag(a + b) == Bag(a) + Bag(b)
  {
    assert Reported(a + b) == Reported(a) + Reported(b);
  }

  lemma BagOne(a: seq<Outcome>, o: Outcome)
    ensures Bag(a + [o]) == Bag(a) + multiset{o.request}
  {
    assert Reported(a + [o]) == Reported(a) + [o.request];
  }

  lemma BagReport(rs: seq<Request>, why: Reason)
    ensures Bag(Report(rs, why)) == multiset(rs)
  {
    assert Reported(Report(rs, why)) == rs;
  }

  lemma BagLapsed(inFlight: Option<InFlight>)
    ensures Bag(Lapsed(inFlight)) == FlightBag(inFlight)
  {
    if inFlight.Some? {
      assert Reported(Lapsed(inFlight)) == [inFlight.value.request];
    }
  }

  /** Taking more requests never disturbs what was said about earlier sends. */
  lemma NumberedAfterTaking(d: Desk, d': Desk, more: seq<Request>)
    requires Numbered(d) && d'.sent == d.sent && d'.taken == d.taken + more
    requires d'.calls.sequence >= d.calls.sequence
    ensures Numbered(d')
  {
    forall i | 0 <= i < |d.sent| ensures WellSent(d'.sent[i], d'.taken) {
      assert WellSent(d.sent[i], d.taken);
      assert d'.taken[..d.sent[i].known] == d.taken[..d.sent[i].known];
    }
  }

  lemma NewestLimitOfSnoc(taken: seq<Request>, r: Request)
    ensures NewestLimit(taken + [r]) == if IsLimit(r) then Some(r) else NewestLimit(taken)
  {
    assert (taken + [r])[..|taken + [r]| - 1] == taken;
  }

  /** Fewer queued requests, same logs: the queue discipline carries over. */
  lemma CoalescedAfterRemoval(d: Desk, d': Desk, capacity: nat)
    requires Coalesced(d, capacity) && d'.taken == d.taken
    requires Subsequence(d'.calls.queued, d.calls.queued) && AtMostOneLimit(d'.calls.queued)
    requires |d'.calls.queued| <= |d.calls.queued|
    requires forall q :: q in d'.calls.queued ==> q in d.calls.queued
    ensures Coalesced(d', capacity)
  {
    SubsequenceTrans(d'.calls.queued, d.calls.queued, d.taken);
  }

  lemma TakeOneConserves(d: Desk, capacity: nat)
    requires Conserved(d) && d.inbox != []
    ensures Conserved(TakeOne(d, capacity))
  {
    var r := d.inbox[0];
    var displaced := Displaced(d.calls.queued, r, capacity);
    PushConserves(d.calls.queued, r, capacity);
    BagReport(displaced, Crowded);
    BagConcat(d.results, Report(displaced, Crowded));
    Rebalance(multiset(d.taken), Bag(d.results), multiset(d.calls.queued), FlightBag(d.calls.inFlight),
              multiset{r}, multiset(Pushed(d.calls.queued, r, capacity)), multiset(displaced));
    assert multiset(d.taken + [r]) == multiset(d.taken) + multiset{r};
  }

  lemma Rebalance<T>(taken: multiset<T>, reported: multiset<T>, queued: multiset<T>, flying: multiset<T>,
                     one: multiset<T>, queued': multiset<T>, displaced: multiset<T>)
    requires taken == reported + queued + flying && queued + one == queued' + displaced
    ensures taken + one == reported + displaced + queued' + flying
  {
    assert taken + one == reported + (queued + one) + flying;
  }

  lemma TakeOneCoalesces(d: Desk, capacity: nat)
    requires Coalesced(d, capacity) && d.inbox != [] && capacity > 0
    ensures Coalesced(TakeOne(d, capacity), capacity)
  {
    var r := d.inbox[0];
    var queued := d.calls.queued;
    PushCoalesces(queued, r, capacity);
    SubsequenceKeep(queued, d.taken, r);
    SubsequenceTrans(Pushed(queued, r, capacity), queued + [r], d.taken + [r]);
    NewestLimitOfSnoc(d.taken, r);
    PushedMembers(queued, r, capacity);
  }

  lemma PushedMembers(queued: seq<Request>, r: Request, capacity: nat)
    ensures forall q :: q in Pushed(queued, r, capacity) ==> q == r || (q in queued && (IsLimit(r) ==> NotLimit(q)))
  {
    var kept := Kept(queued, r);
    assert forall q :: q in kept[Overflow(kept, capacity)..] ==> q in kept;
  }

  lemma AttributedWithReports(d: Desk, d': Desk)
    requires Attributed(d) && d'.sent == d.sent
    requires d'.calls.inFlight == d.calls.inFlight || d'.calls.inFlight.None?
    requires forall o :: o in d'.results ==> o in d.results || o.answerTo.None?
    ensures Attributed(d')
  {}

  lemma TakenInOrder(taken: seq<Request>, inbox: seq<Request>)
    requires inbox != []
    ensures (taken + [inbox[0]]) + inbox[1..] == taken + inbox
  {}

  lemma TakeOneAttributes(d: Desk, capacity: nat)
    requires Attributed(d) && d.inbox != []
    ensures Attributed(TakeOne(d, capacity))
  {
    AttributedWithReports(d, TakeOne(d, capacity));
  }

  lemma TakeOneKeeps(d: Desk, capacity: nat)
    requires DeskInv(d, capacity) && d.inbox != [] && capacity > 0
    ensures DeskInv(TakeOne(d, capacity), capacity)
  {
    TakenInOrder(d.taken, d.inbox);
    TakeOneConserves(d, capacity);
    TakeOneCoalesces(d, capacity);
    NumberedAfterTaking(d, TakeOne(d, capacity), [d.inbox[0]]);
    TakeOneAttributes(d, capacity);
  }

  lemma AnswerKeeps(d: Desk, capacity: nat, messageType: MessageType)
    requires DeskInv(d, capacity) && d.calls.inFlight.Some?
    ensures DeskInv(Answer(d, messageType), capacity)
  {
    var d' := Answer(d, messageType);
    BagOne(d.results, d'.results[|d.results|]);
    NumberedAfterTaking(d, d', []);
  }

  lemma ExpireConservesDesk(d: Desk, now: real, timeout: real)
    requires Conserved(d)
    ensures Conserved(ExpireDesk(d, now, timeout))
  {
    var expired := Report(Expired(d.calls, now, timeout), Stale);
    var late := if Overdue(d.calls.inFlight, now, timeout) then d.calls.inFlight else None;
    ExpireConserves(d.calls, now, timeout);
    BagReport(Expired(d.calls, now, timeout), Stale);
    BagLapsed(late);
    BagConcat(d.results, expired);
    BagConcat(d.results + expired, Lapsed(late));
  }

  lemma ExpireCoalesces(d: Desk, capacity: nat, now: real, timeout: real)
    requires Coalesced(d, capacity)
    ensures Coalesced(ExpireDesk(d, now, timeout), capacity)
  {
    ExpireConserves(d.calls, now, timeout);
    FilterKeepsOneLimit(YoungerThan(now, timeout), d.calls.queued);
    CoalescedAfterRemoval(d, ExpireDesk(d, now, timeout), capacity);
  }

  lemma ExpireKeeps(d: Desk, capacity: nat, now: real, timeout: real)
    requires DeskInv(d, capacity)
    ensures DeskInv(ExpireDesk(d, now, timeout), capacity)
  {
    var d' := ExpireDesk(d, now, timeout);
    ExpireConservesDesk(d, now, timeout);
    ExpireCoalesces(d, capacity, now, timeout);
    NumberedAfterTaking(d, d', []);
    AttributedWithReports(d, d');
  }

  lemma CloseKeeps(d: Desk, capacity: nat)
    requires DeskInv(d, capacity)
    ensures DeskInv(Close(d), capacity)
    ensures Bag(Close(d).results) == multiset(d.arrived) && Close(d).inbox == []
  {
    var d' := Close(d);
    var a, b, c := Report(d.calls.queued, Over), Lapsed(d.calls.inFlight), Report(d.inbox, Over);
    BagReport(d.calls.queued, Over);
    BagLapsed(d.calls.inFlight);
    BagReport(d.inbox, Over);
    BagConcat(d.results, a);
    BagConcat(d.results + a, b);
    BagConcat(d.results + a + b, c);
    NumberedAfterTaking(d, d', d.inbox);
    assert d'.taken + d'.inbox == d.arrived;
  }

  /** Popping the head of the queue into a result. */
  function Popped(d: Desk, status: Status): Desk
    requires d.calls.queued != []
  {
    d.(calls := d.calls.(queued := d.calls.queued[1..], sequence := d.calls.sequence + 1),
       results := d.results + [Outcome(d.calls.queued[0], status, None)])
  }

  lemma PoppedConserves(d: Desk, status: Status)
    requires Conserved(d) && d.calls.queued != []
    ensures Conserved(Popped(d, status))
  {
    assert d.calls.queued == [d.calls.queued[0]] + d.calls.queued[1..];
    BagOne(d.results, Outcome(d.calls.queued[0], status, None));
  }

  lemma PoppedKeeps(d: Desk, status: Status, capacity: nat)
    requires DeskInv(d, capacity) && d.calls.queued != []
    ensures DeskInv(Popped(d, status), capacity)
  {
    var d' := Popped(d, status);
    PoppedConserves(d, status);
    TailIsSubsequence(d.calls.queued);
    CoalescedAfterRemoval(d, d', capacity);
    NumberedAfterTaking(d, d', []);
    AttributedWithReports(d, d');
  }

  /** The desk with its oldest queued request on the wire. */
  function SentOut(d: Desk, prepared: PreparedCall, now: real): Desk
    requires d.calls.queued != []
  {
    var r, n := d.calls.queued[0], d.calls.sequence + 1;
    d.(calls := Calls(d.calls.queued[1..], Some(InFlight(r, prepared, now)), n),
       sent := d.sent + [Sent(prepared.uniqueId, r, Millis(now), n, |d.taken|)])
  }

  function NextId(d: Desk, now: real): string {
    UniqueId(Millis(now), d.calls.sequence + 1)
  }

  /** The three ways a pump goes on. */
  lemma PumpOnce(charging: Charging, d: Desk, now: real, alive: bool)
    requires d.calls.queued != []
    ensures var call := PrepareCall(charging, d.calls.queued[0], NextId(d, now));
            Pump(charging, d, now, alive) ==
              if call.None? then Pump(charging, Popped(d, Invalid), now, alive)
              else if alive then Sending(SentOut(d, call.value, now), false)
              else Sending(Popped(d, NotConnected), true)
  {}

  lemma {:induction false} PumpKeeps(charging: Charging, d: Desk, now: real, alive: bool, capacity: nat)
    requires DeskInv(d, capacity) && d.calls.inFlight.None?
    ensures DeskInv(Pump(charging, d, now, alive).desk, capacity)
    decreases |d.calls.queued|
  {
    if d.calls.queued != [] {
      PumpOnce(charging, d, now, alive);
      var call := PrepareCall(charging, d.calls.queued[0], NextId(d, now));
      if call.None? {
        PoppedKeeps(d, Invalid, capacity);
        PumpKeeps(charging, Popped(d, Invalid), now, alive, capacity);
      } else if alive {
        SentOutKeeps(d, call.value, now, capacity);
      } else {
        PoppedKeeps(d, NotConnected, capacity);
      }
    }
  }

  lemma SentOutKeeps(d: Desk, prepared: PreparedCall, now: real, capacity: nat)
    requires DeskInv(d, capacity) && d.calls.inFlight.None? && d.calls.queued != []
    requires prepared.uniqueId == NextId(d, now)
    ensures DeskInv(SentOut(d, prepared, now), capacity)
  {
    var d' := SentOut(d, prepared, now);
    assert d.calls.queued == [d.calls.queued[0]] + d'.calls.queued;
    TailIsSubsequence(d.calls.queued);
    CoalescedAfterRemoval(d, d', capacity);
    SentOutIsNumbered(d, prepared, now, capacity);
    SentOutIsAttributed(d, prepared, now);
  }

  lemma SentOutIsNumbered(d: Desk, prepared: PreparedCall, now: real, capacity: nat)
    requires Numbered(d) && Coalesced(d, capacity) && d.calls.queued != []
    requires prepared.uniqueId == NextId(d, now)
    ensures Numbered(SentOut(d, prepared, now))
  {
    var d' := SentOut(d, prepared, now);
    var x := d'.sent[|d.sent|];
    assert d.calls.queued[0] in d.calls.queued && d.taken[..|d.taken|] == d.taken;
    assert WellSent(x, d'.taken);
    forall i | 0 <= i < |d.sent| ensures WellSent(d'.sent[i], d'.taken) && d'.sent[i].number < x.number {
      assert WellSent(d.sent[i], d.taken);
    }
  }

  lemma SentOutIsAttributed(d: Desk, prepared: PreparedCall, now: real)
    requires Attributed(d) && d.calls.queued != []
    ensures Attributed(SentOut(d, prepared, now))
  {
    var d' := SentOut(d, prepared, now);
    assert d'.sent[|d.sent|].request == d.calls.queued[0];
    assert WasSent(d'.sent, prepared.uniqueId, d.calls.queued[0]);
    forall o | o in d'.results && o.answerTo.Some? ensures WasSent(d'.sent, o.answerTo.value, o.request) {
      assert WasSent(d.sent, o.answerTo.value, o.request);
      var i :| 0 <= i < |d.sent| && d.sent[i].uniqueId == o.answerTo.value && d.sent[i].request == o.request;
      assert d'.sent[i] == d.sent[i];
    }
  }

  lemma SendLocalKeeps(charging: Charging, d: Desk, held: bool, now: real, alive: bool, capacity: nat)
    requires DeskInv(d, capacity)
    ensures DeskInv(SendLocal(charging, d, held, now, alive).desk, capacity)
  {
    if d.calls.inFlight.None? {
      PumpKeeps(charging, d, now, alive, capacity);
    }
  }

  /** At most one Call goes out per attempt, and only that leaves one in flight. */
  lemma {:induction false} PumpSendsAtMostOne(charging: Charging, d: Desk, now: real, alive: bool)
    requires d.calls.inFlight.None?
    ensures var d' := Pump(charging, d, now, alive).desk;
            || (d'.sent == d.sent && d'.calls.inFlight.None?)
            || (&& |d'.sent| == |d.sent| + 1 && d'.sent[..|d.sent|] == d.sent
                && d'.calls.inFlight.Some? && d'.calls.inFlight.value.sentAt == now
                && d'.calls.inFlight.value.prepared.uniqueId == d'.sent[|d.sent|].uniqueId
                && d'.calls.queued != d.calls.queued && alive)
    ensures Pump(charging, d, now, alive).lost ==> !alive
    decreases |d.calls.queued|
  {
    if d.calls.queued != [] {
      if PrepareCall(charging, d.calls.queued[0], UniqueId(Millis(now), d.calls.sequence + 1)).None? {
        PumpSendsAtMostOne(charging, Popped(d, Invalid), now, alive);
        PumpShrinks(charging, Popped(d, Invalid), now, alive);
      } else {
        assert |d.calls.queued[1..]| != |d.calls.queued|;
      }
    }
  }

  lemma {:induction false} PumpShrinks(charging: Charging, d: Desk, now: real, alive: bool)
    ensures |Pump(charging, d, now, alive).desk.calls.queued| <= |d.calls.queued|
    decreases |d.calls.queued|
  {
    if d.calls.queued != [] {
      PumpShrinks(charging, Popped(d, Invalid), now, alive);
    }
  }

  /** A result that came from an answer reports the one request whose own Call
      carried the id the answer named. */
  lemma AnswersAreAttributed(d: Desk, capacity: nat, o: Outcome)
    requires DeskInv(d, capacity) && o in d.results && o.answerTo.Some?
    ensures exists i :: 0 <= i < |d.sent| && d.sent[i].uniqueId == o.answerTo.value
    ensures forall i :: 0 <= i < |d.sent| && d.sent[i].uniqueId == o.answerTo.value
                    ==> d.sent[i].request == o.request
  {
    assert WasSent(d.sent, o.answerTo.value, o.request);
    var k :| 0 <= k < |d.sent| && d.sent[k].uniqueId == o.answerTo.value && d.sent[k].request == o.request;
    forall i | 0 <= i < |d.sent| && d.sent[i].uniqueId == o.answerTo.value
      ensures d.sent[i].request == o.request
    {
      if i != k {
        SentIdsDiffer(d, capacity, MinNat(i, k), if i < k then k else i);
        assert false;
      }
    }
  }

  lemma SentIdsDiffer(d: Desk, capacity: nat, i: nat, j: nat)
    requires DeskInv(d, capacity) && i < j < |d.sent|
    ensures d.sent[i].uniqueId != d.sent[j].uniqueId
  {
    var x, y := d.sent[i], d.sent[j];
    assert WellSent(x, d.taken) && WellSent(y, d.taken);
    if x.uniqueId == y.uniqueId {
      UniqueIdsDiffer(x.millis, x.number, y.millis, y.number);
      assert false;
    }
  }
}
