/** The retained charge point snapshot (`ChargePointState` in `src/mqtt.rs`):
    the incremental fold, and what it means in terms of the whole history. */
module Snapshot {
  import opened Prelude
  import opened Commands
  import opened LimitPolicy

  /** The fields the fold reads from a frame's argument object; a field of the
      wrong JSON type reads as absent. */
  datatype Args = Args(
    status: Option<string>, errorCode: Option<string>, idTag: Option<string>,
    reason: Option<string>, timestamp: Option<string>,
    meterStart: Option<int>, meterStop: Option<int>, transactionId: Option<int>)

  datatype Topical = StatusNotification | StartTransaction | StopTransaction | OtherAction

  datatype Shape = AsCall | AsResult | AsError

  /** One thing folded in: a forwarded message (its arguments absent when they
      are not an object) or the outcome of a proxy command. */
  datatype Entry =
    | Message(action: Topical, shape: Shape, args: Option<Args>, at: string)
    | Result(command: Action, status: Status, applied: Option<real>, at: string)

  datatype Connector = Connector(status: Option<string>, errorCode: Option<string>)

  /** The transaction under way. */
  datatype Open = Open(transactionId: Option<int>, idTag: Option<string>, meterStart: Option<int>)

  /** The transaction that most recently ended. */
  datatype Last = Last(meterStop: Option<int>, energy: Option<int>, transactionId: Option<int>,
                       reason: Option<string>, time: Option<string>)

  datatype Limit = Limit(amps: Option<real>, status: Option<Status>)

  /** The snapshot without its two timestamps. */
  datatype Body = Body(connector: Connector, open: Open, last: Last, limit: Limit)

  datatype ChargePoint = ChargePoint(body: Body, limitUpdated: Option<string>, updated: Option<string>)

  const NOTHING_OPEN := Open(None, None, None)
  const EMPTY_BODY := Body(Connector(None, None), NOTHING_OPEN, Last(None, None, None, None, None), Limit(None, None))
  const NO_SNAPSHOT := ChargePoint(EMPTY_BODY, None, None)

  // ---- the fold ----

  function Energy(stop: Option<int>, start: Option<int>): Option<int> {
    if stop.Some? && start.Some? then Some(stop.value - start.value) else None
  }

  function OrElse<T>(a: Option<T>, b: Option<T>): Option<T> {
    if a.Some? then a else b
  }

  predicate IsLimitResult(e: Entry) {
    e.Result? && (e.command.SetChargingProfile? || e.command.ClearChargingProfile?)
  }

  function FoldConnector(c: Connector, e: Entry): Connector {
    if IsStatus(e) then Connector(OrElse(e.args.value.status, c.status), OrElse(e.args.value.errorCode, c.errorCode))
    else c
  }

  function FoldOpen(o: Open, e: Entry): Open {
    if IsStart(e) then o.(meterStart := e.args.value.meterStart, idTag := e.args.value.idTag)
    else if IsStarted(e) then o.(transactionId := e.args.value.transactionId)
    else if IsStop(e) then NOTHING_OPEN
    else o
  }

  function Ended(o: Open, a: Args): Last {
    Last(a.meterStop, Energy(a.meterStop, o.meterStart), OrElse(a.transactionId, o.transactionId),
         a.reason, a.timestamp)
  }

  function FoldLimit(l: Limit, e: Entry): Limit {
    if !IsLimitResult(e) then l
    else Limit(if !e.status.Accepted? then l.amps
               else if e.command.SetChargingProfile? then e.applied else None,
               Some(e.status))
  }

  function FoldBody(b: Body, e: Entry): Body {
    Body(FoldConnector(b.connector, e), FoldOpen(b.open, e),
         if IsStop(e) then Ended(b.open, e.args.value) else b.last,
         FoldLimit(b.limit, e))
  }

  /** What one entry makes of a snapshot: the times move only if a field did. */
  function Fold(s: ChargePoint, e: Entry): ChargePoint {
    var body := FoldBody(s.body, e);
    if body == s.body then s
    else ChargePoint(body, if IsLimitResult(e) then Some(e.at) else s.limitUpdated, Some(e.at))
  }

  function Folded(h: seq<Entry>, n: nat): ChargePoint
    requires n <= |h|
  {
    if n == 0 then NO_SNAPSHOT else Fold(Folded(h, n - 1), h[n - 1])
  }

  // ---- the meaning of a history ----

  predicate IsStatus(e: Entry) {
    e.Message? && e.args.Some? && e.action.StatusNotification? && e.shape.AsCall?
  }

  predicate HasStatus(e: Entry) {
    IsStatus(e) && e.args.value.status.Some?
  }

  predicate HasErrorCode(e: Entry) {
    IsStatus(e) && e.args.value.errorCode.Some?
  }

  predicate IsStart(e: Entry) {
    e.Message? && e.args.Some? && e.action.StartTransaction? && e.shape.AsCall?
  }

  /** The Central System's answer, which carries the transaction id. */
  predicate IsStarted(e: Entry) {
    e.Message? && e.args.Some? && e.action.StartTransaction? && e.shape.AsResult?
  }

  predicate IsStop(e: Entry) {
    e.Message? && e.args.Some? && e.action.StopTransaction? && e.shape.AsCall?
  }

  predicate IsAcceptedLimit(e: Entry) {
    IsLimitResult(e) && e.status.Accepted?
  }

  /** The latest of the first `n` entries that satisfies `p`. */
  function Latest(h: seq<Entry>, p: Entry -> bool, n: nat): (r: Option<nat>)
    requires n <= |h|
    ensures r.Some? ==> r.value < n && p(h[r.value]) && forall k :: r.value < k < n ==> !p(h[k])
    ensures r.None? ==> forall k :: 0 <= k < n ==> !p(h[k])
  {
    if n == 0 then None
    else if p(h[n - 1]) then Some(n - 1)
    else Latest(h, p, n - 1)
  }

  /** The latest such entry, provided no transaction stopped after it. */
  function SinceStop(h: seq<Entry>, p: Entry -> bool, n: nat): (r: Option<nat>)
    requires n <= |h|
    ensures r.Some? ==> r.value < n && p(h[r.value])
  {
    var found, stop := Latest(h, p, n), Latest(h, IsStop, n);
    if found.Some? && (stop.None? || stop.value < found.value) then found else None
  }

  /** What is open: the id comes from the Central System's answer, the meter
      reading and the tag from the charger's Call. */
  function DeclaredOpen(h: seq<Entry>, n: nat): Open
    requires n <= |h|
  {
    var started, start := SinceStop(h, IsStarted, n), SinceStop(h, IsStart, n);
    Open(if started.Some? then h[started.value].args.value.transactionId else None,
         if start.Some? then h[start.value].args.value.idTag else None,
         if start.Some? then h[start.value].args.value.meterStart else None)
  }

  function DeclaredConnector(h: seq<Entry>, n: nat): Connector
    requires n <= |h|
  {
    var status, error := Latest(h, HasStatus, n), Latest(h, HasErrorCode, n);
    Connector(if status.Some? then h[status.value].args.value.status else None,
              if error.Some? then h[error.value].args.value.errorCode else None)
  }

  function DeclaredLimit(h: seq<Entry>, n: nat): Limit
    requires n <= |h|
  {
    var accepted, any := Latest(h, IsAcceptedLimit, n), Latest(h, IsLimitResult, n);
    Limit(if accepted.Some? && h[accepted.value].command.SetChargingProfile? then h[accepted.value].applied else None,
          if any.Some? then Some(h[any.value].status) else None)
  }

  /** The last session: the latest stop and what was open just before it. */
  function DeclaredLast(h: seq<Entry>, n: nat): Last
    requires n <= |h|
  {
    match Latest(h, IsStop, n)
    case None => Last(None, None, None, None, None)
    case Some(k) =>
      var a, open := h[k].args.value, DeclaredOpen(h, k);
      Last(a.meterStop,
           if a.meterStop.Some? && open.meterStart.Some? then Some(a.meterStop.value - open.meterStart.value) else None,
           if a.transactionId.Some? then a.transactionId else open.transactionId,
           a.reason, a.timestamp)
  }

  /** The snapshot the first `n` entries stand for, read off the history. */
  function Declared(h: seq<Entry>, n: nat): Body
    requires n <= |h|
  {
    Body(DeclaredConnector(h, n), DeclaredOpen(h, n), DeclaredLast(h, n), DeclaredLimit(h, n))
  }

  /** Entry `k` moved a field. */
  predicate Moves(h: seq<Entry>, k: nat)
    requires k < |h|
  {
    Folded(h, k + 1).body != Folded(h, k).body
  }

  /** The latest of the first `n` entries that moved a field and satisfies `p`. */
  function LatestMove(h: seq<Entry>, p: Entry -> bool, n: nat): (r: Option<nat>)
    requires n <= |h|
    ensures r.Some? ==> r.value < n
  {
    if n == 0 then None
    else if p(h[n - 1]) && Moves(h, n - 1) then Some(n - 1)
    else LatestMove(h, p, n - 1)
  }

  predicate AnyEntry(e: Entry) {
    true
  }

  function TimeOf(h: seq<Entry>, i: Option<nat>): Option<string>
    requires i.Some? ==> i.value < |h|
  {
    if i.Some? then Some(h[i.value].at) else None
  }

  lemma OpenOneMore(h: seq<Entry>, n: nat)
    requires 0 < n <= |h|
    ensures DeclaredOpen(h, n) == FoldOpen(DeclaredOpen(h, n - 1), h[n - 1])
  {}

  lemma LastOneMore(h: seq<Entry>, n: nat)
    requires 0 < n <= |h|
    ensures DeclaredLast(h, n) ==
            if IsStop(h[n - 1]) then Ended(DeclaredOpen(h, n - 1), h[n - 1].args.value) else DeclaredLast(h, n - 1)
  {}

  lemma LimitOneMore(h: seq<Entry>, n: nat)
    requires 0 < n <= |h|
    ensures DeclaredLimit(h, n) == FoldLimit(DeclaredLimit(h, n - 1), h[n - 1])
  {}

  lemma ConnectorOneMore(h: seq<Entry>, n: nat)
    requires 0 < n <= |h|
    ensures DeclaredConnector(h, n) == FoldConnector(DeclaredConnector(h, n - 1), h[n - 1])
  {}

  lemma MeaningOfOneMore(h: seq<Entry>, n: nat)
    requires 0 < n <= |h|
    ensures Declared(h, n) == FoldBody(Declared(h, n - 1), h[n - 1])
  {
    OpenOneMore(h, n);
    LastOneMore(h, n);
    LimitOneMore(h, n);
    ConnectorOneMore(h, n);
  }

  lemma NothingDeclared(h: seq<Entry>)
    ensures Declared(h, 0) == EMPTY_BODY
  {}

  function BodyAfter(h: seq<Entry>, n: nat): Body
    requires n <= |h|
  {
    if n == 0 then EMPTY_BODY else FoldBody(BodyAfter(h, n - 1), h[n - 1])
  }

  lemma {:induction false} FoldedBody(h: seq<Entry>, n: nat)
    requires n <= |h|
    ensures Folded(h, n).body == BodyAfter(h, n)
  {
    if n > 0 {
      FoldedBody(h, n - 1);
    }
  }

  lemma {:induction false} BodyEqualsHistory(h: seq<Entry>, n: nat)
    requires n <= |h|
    ensures BodyAfter(h, n) == Declared(h, n)
  {
    if n == 0 {
      NothingDeclared(h);
    } else {
      BodyEqualsHistory(h, n - 1);
      MeaningOfOneMore(h, n);
    }
  }

  /** After any history the folded snapshot is the one the history stands for. */
  lemma SnapshotEqualsHistory(h: seq<Entry>, n: nat)
    requires n <= |h|
    ensures Folded(h, n).body == Declared(h, n)
  {
    FoldedBody(h, n);
    BodyEqualsHistory(h, n);
  }

  lemma FoldStamps(s: ChargePoint, e: Entry)
    ensures var s' := Fold(s, e);
            && s'.updated == (if s'.body != s.body then Some(e.at) else s.updated)
            && s'.limitUpdated == (if s'.body != s.body && IsLimitResult(e) then Some(e.at) else s.limitUpdated)
  {}

  /** Its time is that of the latest entry that moved a field. */
  lemma {:induction false} TimeMarksTheLatestMove(h: seq<Entry>, n: nat)
    requires n <= |h|
    ensures Folded(h, n).updated == TimeOf(h, LatestMove(h, AnyEntry, n))
  {
    if n > 0 {
      TimeMarksTheLatestMove(h, n - 1);
      FoldStamps(Folded(h, n - 1), h[n - 1]);
    }
  }

  /** Its limit time is that of the latest limit result that moved a field. */
  lemma {:induction false} LimitTimeMarksTheLatestMove(h: seq<Entry>, n: nat)
    requires n <= |h|
    ensures Folded(h, n).limitUpdated == TimeOf(h, LatestMove(h, IsLimitResult, n))
  {
    if n > 0 {
      LimitTimeMarksTheLatestMove(h, n - 1);
      FoldStamps(Folded(h, n - 1), h[n - 1]);
    }
  }

  lemma MovesIffHistoryDoes(h: seq<Entry>, k: nat)
    requires k < |h|
    ensures Moves(h, k) <==> Declared(h, k + 1) != Declared(h, k)
  {
    SnapshotEqualsHistory(h, k);
    SnapshotEqualsHistory(h, k + 1);
  }

  /** The delivered energy is known exactly when the stop carries a reading and a
      StartTransaction Call since the previous stop carried one too. A stop that
      is sent twice therefore resets it. */
  lemma EnergyIsKnownIffBothReadingsAre(h: seq<Entry>, k: nat)
    requires k < |h| && IsStop(h[k])
    ensures var energy := Folded(h, k + 1).body.last.energy;
            var start := SinceStop(h, IsStart, k);
            && (energy.Some? <==> && h[k].args.value.meterStop.Some?
                                  && start.Some? && h[start.value].args.value.meterStart.Some?)
            && (energy.Some? ==> energy.value == h[k].args.value.meterStop.value
                                               - h[start.value].args.value.meterStart.value)
    ensures k > 0 && IsStop(h[k - 1]) ==> Folded(h, k + 1).body.last.energy.None?
  {
    SnapshotEqualsHistory(h, k + 1);
    assert Latest(h, IsStop, k + 1) == Some(k);
    if k > 0 && IsStop(h[k - 1]) {
      assert Latest(h, IsStop, k) == Some(k - 1);
    }
  }

  const NO_ARGS := Args(None, None, None, None, None, None, None, None)

  /** A session of 500 Wh whose StopTransaction is sent twice: the first leaves the
      energy, the second forgets it. */
  lemma SecondStopForgetsTheEnergy(at: string)
    ensures var stop := Message(StopTransaction, AsCall, Some(NO_ARGS.(meterStop := Some(600))), at);
            var h := [Message(StartTransaction, AsCall, Some(NO_ARGS.(meterStart := Some(100))), at), stop, stop];
            Folded(h, 2).body.last.energy == Some(500) && Folded(h, 3).body.last.energy == None
  {
    var stop := Message(StopTransaction, AsCall, Some(NO_ARGS.(meterStop := Some(600))), at);
    var h := [Message(StartTransaction, AsCall, Some(NO_ARGS.(meterStart := Some(100))), at), stop, stop];
    assert Folded(h, 1) == Fold(Folded(h, 0), h[0]);
    assert Folded(h, 2) == Fold(Folded(h, 1), h[1]);
  }

  // ---- folding into what was there ----

  function FoldAll(s: ChargePoint, h: seq<Entry>): ChargePoint {
    if h == [] then s else Fold(FoldAll(s, h[..|h| - 1]), h[|h| - 1])
  }

  lemma FoldAllSnoc(s: ChargePoint, h: seq<Entry>, says: seq<Entry>)
    requires |says| <= 1
    ensures FoldAll(s, h + says) == if says == [] then FoldAll(s, h) else Fold(FoldAll(s, h), says[0])
  {
    if says == [] {
      assert h + says == h;
    } else {
      assert (h + says)[..|h|] == h;
    }
  }

  lemma {:induction false} FoldAllIsFolded(h: seq<Entry>, n: nat)
    requires n <= |h|
    ensures FoldAll(NO_SNAPSHOT, h[..n]) == Folded(h, n)
  {
    if n > 0 {
      FoldAllIsFolded(h, n - 1);
      assert h[..n][..n - 1] == h[..n - 1];
    }
  }

  // ---- re-applying the standing limit ----

  /** The limit a new connection re-sends, if any. */
  function Standing(s: ChargePoint): Option<real> {
    if s.body.limit.status == Some(Accepted) then s.body.limit.amps else None
  }

  /** A limit is re-sent exactly when the very latest limit result was an accepted
      set: a later command that was refused, lost or expired suspends it although
      the charger still applies the older limit. */
  lemma StandingIffLatestResultAccepted(h: seq<Entry>)
    ensures var i := Latest(h, IsLimitResult, |h|);
            Standing(Folded(h, |h|)) ==
              if i.Some? && h[i.value].status.Accepted? && h[i.value].command.SetChargingProfile?
              then h[i.value].applied else None
  {
    SnapshotEqualsHistory(h, |h|);
    var i, j := Latest(h, IsLimitResult, |h|), Latest(h, IsAcceptedLimit, |h|);
    if i.Some? && h[i.value].status.Accepted? {
      assert IsAcceptedLimit(h[i.value]);
      assert j.Some? && IsLimitResult(h[j.value]);
      assert i == j;
    }
  }

  /** A limit of 10 A is accepted, and a later one refused: the snapshot still shows
      10 A, and nothing is re-sent any more. */
  lemma RefusalSuspendsTheStandingLimit(at: string)
    ensures var h := [Result(SetChargingProfile, Accepted, Some(10.0), at),
                      Result(SetChargingProfile, Rejected, Some(16.0), at)];
            && Standing(Folded(h, 1)) == Some(10.0)
            && Folded(h, 2).body.limit.amps == Some(10.0) && Standing(Folded(h, 2)) == None
  {
    var h := [Result(SetChargingProfile, Accepted, Some(10.0), at),
              Result(SetChargingProfile, Rejected, Some(16.0), at)];
    assert Folded(h, 1) == Fold(Folded(h, 0), h[0]);
    assert Folded(h, 2) == Fold(Folded(h, 1), h[1]);
  }

  /** The result of re-sending a standing limit that the charger accepts. */
  function ReapplyAccepted(charging: Charging, s: ChargePoint, at: string): ChargePoint {
    var standing := Standing(s);
    if standing.None? then s
    else
      var call := PrepareCall(charging, Request("reapply", SetCurrentLimit(Finite(standing.value)), Reapply, 0.0), "");
      if call.None? then s else Fold(s, Result(SetChargingProfile, Accepted, call.value.applied, at))
  }

  function Reapplies(charging: Charging, s: ChargePoint, times: seq<string>): ChargePoint {
    if times == [] then s
    else ReapplyAccepted(charging, Reapplies(charging, s, times[..|times| - 1]), times[|times| - 1])
  }

  /** Any number of accepted re-applies of a limit the policy produced leaves the
      whole snapshot alone, times included. */
  lemma {:induction false} ReappliesChangeNothing(charging: Charging, s: ChargePoint, requested: real,
                                                  times: seq<string>)
    requires var p := charging.policy; 0.0 <= p.minLimit <= p.maxLimit && IsTenth(p.minLimit)
    requires requested >= 0.0 && Standing(s) == Some(Applied(charging.policy, requested))
    ensures Reapplies(charging, s, times) == s
  {
    if times != [] {
      var p := charging.policy;
      ReappliesChangeNothing(charging, s, requested, times[..|times| - 1]);
      RoundOfTenth(p.minLimit);
      FloorSurvives(p, requested);
      assert ResolveLimit(p, Finite(Applied(p, requested))) == Some(Applied(p, requested));
    }
  }

  // ---- the snapshot object ----

  lemma {:induction false} FoldedPrefix(h: seq<Entry>, e: Entry, n: nat)
    requires n <= |h|
    ensures Folded(h + [e], n) == Folded(h, n)
  {
    if n > 0 {
      FoldedPrefix(h, e, n - 1);
    }
  }

  class ChargePointState {
    var connectorStatus: Option<string>
    var errorCode: Option<string>
    var transactionId: Option<int>
    var idTag: Option<string>
    var meterStart: Option<int>
    var last: Last
    var limit: Option<real>
    var limitStatus: Option<Status>
    var limitUpdated: Option<string>
    var updated: Option<string>
    ghost var history: seq<Entry>

    function BodyView(): Body
      reads this
    {
      Body(Connector(connectorStatus, errorCode), Open(transactionId, idTag, meterStart), last,
           Limit(limit, limitStatus))
    }

    function View(): ChargePoint
      reads this
    {
      ChargePoint(BodyView(), limitUpdated, updated)
    }

    ghost predicate Valid()
      reads this
    {
      View() == Folded(history, |history|)
    }

    constructor ()
      ensures Valid() && history == [] && View() == NO_SNAPSHOT
    {
      connectorStatus, errorCode, transactionId, idTag, meterStart := None, None, None, None, None;
      last := Last(None, None, None, None, None);
      limit, limitStatus, limitUpdated, updated := None, None, None, None;
      history := [];
    }

    method Assign(e: Entry)
      requires e.Message? && e.args.Some?
      modifies this
      ensures BodyView() == FoldBody(old(BodyView()), e)
      ensures limitUpdated == old(limitUpdated) && updated == old(updated) && history == old(history)
    {
      var args := e.args.value;
      if e.action.StatusNotification? && e.shape.AsCall? {
        if args.status.Some? { connectorStatus := args.status; }
        if args.errorCode.Some? { errorCode := args.errorCode; }
      } else if e.action.StartTransaction? && e.shape.AsCall? {
        meterStart := args.meterStart;
        idTag := args.idTag;
      } else if e.action.StartTransaction? && e.shape.AsResult? {
        transactionId := args.transactionId;
      } else if e.action.StopTransaction? && e.shape.AsCall? {
        // The delta needs the start reading, so it is taken before the clear.
        last := Last(args.meterStop, Energy(args.meterStop, meterStart),
                     if args.transactionId.Some? then args.transactionId else transactionId,
                     args.reason, args.timestamp);
        transactionId, idTag, meterStart := None, None, None;
      }
    }

    /** Fold one forwarded message in; `changed` says whether a field moved. */
    method Apply(e: Entry) returns (changed: bool)
      requires Valid() && e.Message?
      modifies this
      ensures Valid() && history == old(history) + [e]
      ensures View() == Fold(old(View()), e)
      ensures changed <==> BodyView() != old(BodyView())
    {
      var before := BodyView();
      FoldedPrefix(history, e, |history|);
      history := history + [e];
      changed := false;
      if e.args.Some? {
        Assign(e);
        if BodyView() != before {
          updated := Some(e.at);
          changed := true;
        }
      }
    }

    /** Fold in the outcome of a command; only limit commands matter. */
    method ApplyCommandResult(e: Entry) returns (changed: bool)
      requires Valid() && e.Result?
      modifies this
      ensures Valid() && history == old(history) + [e]
      ensures View() == Fold(old(View()), e)
      ensures changed <==> BodyView() != old(BodyView())
    {
      var before := BodyView();
      FoldedPrefix(history, e, |history|);
      history := history + [e];
      changed := false;
      if e.command.SetChargingProfile? || e.command.ClearChargingProfile? {
        limitStatus := Some(e.status);
        if e.status.Accepted? {
          limit := if e.command.SetChargingProfile? then e.applied else None;
        }
        if BodyView() != before {
          limitUpdated, updated := Some(e.at), Some(e.at);
          changed := true;
        }
      }
    }
  }
}
