/** Line discipline: when the proxy may put a Call of its own on the charger's
    line (section 4.1.1 of OCPP-J 1.6). */
module SessionLine {
  import opened Prelude
  import opened Commands
  import opened LocalCalls
  import opened CommandDesk
  import opened Forwarding
  import opened Session

  // ---- one proxy Call at a time ----

  /** Where the proxy Call that is open before position `n` was sent. */
  function OpenAt(line: seq<LineEvent>, n: nat): (r: Option<nat>)
    requires n <= |line|
    ensures r.Some? ==> r.value < n && line[r.value].ProxySent?
  {
    if n == 0 then None
    else
      match line[n - 1]
      case ProxySent(_, _) => Some(n - 1)
      case ProxyAnswered(_, _) | ProxyTimedOut(_, _) => None
      case _ => OpenAt(line, n - 1)
  }

  /** An event that may close the Call opened by `sent`. */
  predicate Closes(e: LineEvent, sent: LineEvent, timeout: real) {
    || (e.ProxyAnswered? && e.id == sent.id)
    || (e.ProxyTimedOut? && e.id == sent.id && e.at - sent.at >= timeout)
  }

  /** `e` may follow on `line`: a Call only if none is open, a close only of the one
      that is. */
  predicate Fits(line: seq<LineEvent>, open: Option<nat>, e: LineEvent, timeout: real)
    requires open.Some? ==> open.value < |line|
  {
    && (e.ProxySent? ==> open.None?)
    && (e.ProxyAnswered? || e.ProxyTimedOut? ==> open.Some? && Closes(e, line[open.value], timeout))
  }

  predicate InTurn(line: seq<LineEvent>, j: nat, timeout: real) {
    j < |line| ==> Fits(line, OpenAt(line, j), line[j], timeout)
  }

  predicate Turns(line: seq<LineEvent>, timeout: real) {
    forall j: nat :: j < |line| ==> InTurn(line, j, timeout)
  }

  predicate FlightMatches(line: seq<LineEvent>, inFlight: Option<InFlight>) {
    var open := OpenAt(line, |line|);
    && (open.Some? <==> inFlight.Some?)
    && (open.Some? ==> line[open.value] == ProxySent(inFlight.value.prepared.uniqueId, inFlight.value.sentAt))
  }

  lemma {:induction false} OpenAtPrefix(line: seq<LineEvent>, e: LineEvent, n: nat)
    requires n <= |line|
    ensures OpenAt(line + [e], n) == OpenAt(line, n)
  {
    if n > 0 {
      OpenAtPrefix(line, e, n - 1);
    }
  }

  lemma TurnsAppend(line: seq<LineEvent>, e: LineEvent, timeout: real)
    requires Turns(line, timeout) && Fits(line, OpenAt(line, |line|), e, timeout)
    ensures Turns(line + [e], timeout)
  {
    var more := line + [e];
    forall j: nat | j < |more| ensures InTurn(more, j, timeout) {
      OpenAtPrefix(line, e, j);
      assert j < |line| ==> more[j] == line[j] && InTurn(line, j, timeout);
    }
  }

  lemma OpenAfter(line: seq<LineEvent>, e: LineEvent)
    ensures OpenAt(line + [e], |line| + 1) ==
            if e.ProxySent? then Some(|line|)
            else if e.ProxyAnswered? || e.ProxyTimedOut? then None
            else OpenAt(line, |line|)
  {
    OpenAtPrefix(line, e, |line|);
  }

  lemma {:induction false} OpenIsLatest(line: seq<LineEvent>, p: nat, n: nat)
    requires p < n <= |line| && OpenAt(line, n).Some? && line[p].ProxySent?
    ensures p <= OpenAt(line, n).value
  {
    if p < n - 1 && !line[n - 1].ProxySent? {
      OpenIsLatest(line, p, n - 1);
    }
  }

  /** A Call that is no longer open at `j` was closed before `j`. */
  lemma {:induction false} ClosedInBetween(line: seq<LineEvent>, timeout: real, i: nat, j: nat)
    requires Turns(line, timeout) && i < j <= |line|
    requires line[i].ProxySent? && OpenAt(line, j).None?
    ensures exists k :: i < k < j && Closes(line[k], line[i], timeout)
    decreases j
  {
    assert InTurn(line, j - 1, timeout);
    if OpenAt(line, j - 1).None? {
      ClosedInBetween(line, timeout, i, j - 1);
    } else {
      var m := OpenAt(line, j - 1).value;
      OpenIsLatest(line, i, j - 1);
      if i < m {
        assert InTurn(line, m, timeout);
        ClosedInBetween(line, timeout, i, m);
      }
    }
  }

  // ---- no proxy Call while the Central System waits ----

  /** A forwarded frame that makes the tracker forget the Call with this id. */
  predicate Clears(e: LineEvent, id: string) {
    (e.Response? || e.ChargerCall?) && e.id == id
  }

  predicate ClearedBetween(line: seq<LineEvent>, i: nat, j: nat)
    requires i < j <= |line|
  {
    exists k :: i < k < j && Clears(line[k], line[i].id)
  }

  /** A Central System Call still waiting, as far as the line shows. */
  predicate Waiting(line: seq<LineEvent>, i: nat)
    requires i < |line|
  {
    line[i].CentralCall? && !ClearedBetween(line, i, |line|)
  }

  predicate TrackedSince(tracker: Tracker, id: string, at: real) {
    id in tracker && tracker[id].direction.CentralToCharger? && tracker[id].sentAt >= at
  }

  /** Every waiting Call is tracked or past the tracker's age limit. */
  predicate Tracked(line: seq<LineEvent>, tracker: Tracker, now: real, age: real) {
    forall i {:trigger Waiting(line, i)} :: 0 <= i < |line| && Waiting(line, i)
            ==> TrackedSince(tracker, line[i].id, line[i].at) || now - line[i].at >= age
  }

  predicate Explains(line: seq<LineEvent>, i: nat, id: string, at: real) {
    i < |line| && line[i] == CentralCall(id, at) && Waiting(line, i)
  }

  predicate Explained(line: seq<LineEvent>, id: string, at: real) {
    exists i :: 0 <= i < |line| && Explains(line, i, id, at)
  }

  /** Every tracked Central System Call is a waiting one. */
  predicate Justified(line: seq<LineEvent>, tracker: Tracker) {
    forall id :: id in tracker && tracker[id].direction.CentralToCharger?
             ==> Explained(line, id, tracker[id].sentAt)
  }

  /** No Call at `j` jumped a Central System Call younger than `grace`. */
  predicate Polite(line: seq<LineEvent>, j: nat, grace: real)
    requires j < |line|
  {
    forall i {:trigger ClearedBetween(line, i, j)} ::
      0 <= i < j && line[i].CentralCall? && line[j].at - line[i].at < grace ==> ClearedBetween(line, i, j)
  }

  predicate Quiet(line: seq<LineEvent>, grace: real) {
    forall j {:trigger Polite(line, j, grace)} :: 0 <= j < |line| && line[j].ProxySent? ==> Polite(line, j, grace)
  }

  lemma ClearedAppend(line: seq<LineEvent>, e: LineEvent, i: nat)
    requires i < |line|
    ensures ClearedBetween(line + [e], i, |line| + 1)
       <==> ClearedBetween(line, i, |line|) || Clears(e, line[i].id)
  {
    var more := line + [e];
    if ClearedBetween(more, i, |more|) {
      var k :| i < k < |more| && Clears(more[k], more[i].id);
      assert k < |line| ==> more[k] == line[k];
    }
    if ClearedBetween(line, i, |line|) {
      var k :| i < k < |line| && Clears(line[k], line[i].id);
      assert Clears(more[k], more[i].id);
    }
    if Clears(e, line[i].id) {
      assert Clears(more[|line|], more[i].id);
    }
  }

  lemma ClearedStays(line: seq<LineEvent>, e: LineEvent, i: nat, j: nat)
    requires i < j <= |line|
    ensures ClearedBetween(line, i, j) ==> ClearedBetween(line + [e], i, j)
  {
    if ClearedBetween(line, i, j) {
      var k :| i < k < j && Clears(line[k], line[i].id);
      assert (line + [e])[k] == line[k];
    }
  }

  lemma QuietAppend(line: seq<LineEvent>, e: LineEvent, grace: real)
    requires Quiet(line, grace)
    requires e.ProxySent? ==> forall i :: 0 <= i < |line| && Waiting(line, i) ==> e.at - line[i].at >= grace
    ensures Quiet(line + [e], grace)
  {
    var more := line + [e];
    forall j | 0 <= j < |more| && more[j].ProxySent? ensures Polite(more, j, grace) {
      forall i | 0 <= i < j && more[i].CentralCall? && more[j].at - more[i].at < grace
        ensures ClearedBetween(more, i, j)
      {
        if j < |line| {
          assert line[j] == more[j] && Polite(line, j, grace) && line[i] == more[i];
          ClearedStays(line, e, i, j);
        } else {
          assert !Waiting(line, i);
          ClearedStays(line, e, i, |line|);
        }
      }
    }
  }

  /** Events that say nothing about Central System Calls. */
  lemma TrackedAppendOther(line: seq<LineEvent>, e: LineEvent, tracker: Tracker, now: real, age: real)
    requires Tracked(line, tracker, now, age) && Justified(line, tracker)
    requires !e.CentralCall? && !e.ChargerCall? && !e.Response?
    ensures Tracked(line + [e], tracker, now, age) && Justified(line + [e], tracker)
  {
    var more := line + [e];
    forall i | 0 <= i < |more| && Waiting(more, i)
      ensures TrackedSince(tracker, more[i].id, more[i].at) || now - more[i].at >= age
    {
      ClearedAppend(line, e, i);
      assert Waiting(line, i);
    }
    forall id | id in tracker && tracker[id].direction.CentralToCharger?
      ensures Explained(more, id, tracker[id].sentAt)
    {
      assert Explained(line, id, tracker[id].sentAt);
      var i :| 0 <= i < |line| && Explains(line, i, id, tracker[id].sentAt);
      ClearedAppend(line, e, i);
      assert Explains(more, i, id, tracker[id].sentAt);
    }
  }

  /** Forwarding a parsed frame, in either direction. */
  lemma TrackedAppendFrame(line: seq<LineEvent>, tracker: Tracker, f: Frame, direction: Direction, now: real, age: real)
    requires Tracked(line, tracker, now, age) && Justified(line, tracker) && Past(line, now)
    ensures Tracked(line + [LineOf(f, direction, now)], Observe(tracker, f, direction, now), now, age)
    ensures Justified(line + [LineOf(f, direction, now)], Observe(tracker, f, direction, now))
  {
    var e := LineOf(f, direction, now);
    var more := line + [e];
    var tracker' := Observe(tracker, f, direction, now);
    forall i | 0 <= i < |more| && Waiting(more, i)
      ensures TrackedSince(tracker', more[i].id, more[i].at) || now - more[i].at >= age
    {
      if i < |line| {
        ClearedAppend(line, e, i);
        assert Waiting(line, i);
        assert !Clears(e, line[i].id);
      }
    }
    forall id | id in tracker' && tracker'[id].direction.CentralToCharger?
      ensures Explained(more, id, tracker'[id].sentAt)
    {
      if id == f.uniqueId {
        assert Waiting(more, |line|);
        assert Explains(more, |line|, id, now);
      } else {
        assert Explained(line, id, tracker[id].sentAt);
        var i :| 0 <= i < |line| && Explains(line, i, id, tracker[id].sentAt);
        ClearedAppend(line, e, i);
        assert Explains(more, i, id, tracker[id].sentAt);
      }
    }
  }

  predicate Past(line: seq<LineEvent>, now: real) {
    forall i :: 0 <= i < |line| ==> line[i].at <= now
  }

  /** The tracker drops what is past its age. */
  lemma TrackedAfterCleanup(line: seq<LineEvent>, tracker: Tracker, now: real, age: real)
    requires Tracked(line, tracker, now, age) && Justified(line, tracker)
    ensures Tracked(line, Cleanup(tracker, now, age), now, age) && Justified(line, Cleanup(tracker, now, age))
  {
    var tracker' := Cleanup(tracker, now, age);
    forall i | 0 <= i < |line| && Waiting(line, i)
      ensures TrackedSince(tracker', line[i].id, line[i].at) || now - line[i].at >= age
    {
    }
  }

  // ---- the invariant ----

  function Grace(cfg: Config): real {
    MinReal(CENTRAL_CALL_GRACE, cfg.trackerAge)
  }

  ghost predicate LineInv(cfg: Config, s: State) {
    && Past(s.line, s.now)
    && Turns(s.line, cfg.charging.commandTimeout)
    && FlightMatches(s.line, s.desk.calls.inFlight)
    && Tracked(s.line, s.pipe.tracker, s.now, cfg.trackerAge)
    && Justified(s.line, s.pipe.tracker)
    && Quiet(s.line, Grace(cfg))
  }

  /** A line that is not held has no waiting Call younger than the grace. */
  lemma NotHeldMeansQuiet(cfg: Config, s: State, i: nat)
    requires LineInv(cfg, s) && !Held(s) && i < |s.line| && Waiting(s.line, i)
    ensures s.now - s.line[i].at >= Grace(cfg)
  {
    if TrackedSince(s.pipe.tracker, s.line[i].id, s.line[i].at) {
      assert s.now - s.pipe.tracker[s.line[i].id].sentAt >= CENTRAL_CALL_GRACE;
    }
  }

  lemma SendKeepsLine(cfg: Config, s: State, alive: bool)
    requires LineInv(cfg, s)
    ensures LineInv(cfg, Send(cfg, s, alive))
  {
    var s' := Send(cfg, s, alive);
    if s.desk.calls.inFlight.None? && !Held(s) {
      PumpSendsAtMostOne(cfg.charging, s.desk, s.now, alive);
      if |s'.desk.sent| > |s.desk.sent| {
        var e := ProxySent(s'.desk.sent[|s.desk.sent|].uniqueId, s.now);
        assert s'.line == s.line + [e];
        TurnsAppend(s.line, e, cfg.charging.commandTimeout);
        OpenAfter(s.line, e);
        forall i | 0 <= i < |s.line| && Waiting(s.line, i) ensures e.at - s.line[i].at >= Grace(cfg) {
          NotHeldMeansQuiet(cfg, s, i);
        }
        QuietAppend(s.line, e, Grace(cfg));
        TrackedAppendOther(s.line, e, s.pipe.tracker, s.now, cfg.trackerAge);
      } else {
        assert s'.line == s.line;
      }
    } else {
      assert s'.line == s.line;
    }
  }

  /** Closing the Call in flight, by answer or by timeout. */
  lemma CloseCallKeepsLine(cfg: Config, s: State, s': State, e: LineEvent)
    requires LineInv(cfg, s) && s.desk.calls.inFlight.Some?
    requires var f := s.desk.calls.inFlight.value;
             || e == ProxyAnswered(f.prepared.uniqueId, s.now)
             || (e == ProxyTimedOut(f.prepared.uniqueId, s.now) && s.now - f.sentAt >= cfg.charging.commandTimeout)
    requires s'.line == s.line + [e] && s'.now == s.now && s'.pipe.tracker == s.pipe.tracker
    requires s'.desk.calls.inFlight.None?
    ensures LineInv(cfg, s')
  {
    TurnsAppend(s.line, e, cfg.charging.commandTimeout);
    OpenAfter(s.line, e);
    QuietAppend(s.line, e, Grace(cfg));
    TrackedAppendOther(s.line, e, s.pipe.tracker, s.now, cfg.trackerAge);
  }

  lemma FrameKeepsLine(cfg: Config, s: State, s': State, f: Frame, direction: Direction)
    requires LineInv(cfg, s)
    requires s'.line == s.line + [LineOf(f, direction, s.now)] && s'.now == s.now
    requires s'.pipe.tracker == Observe(s.pipe.tracker, f, direction, s.now)
    requires s'.desk.calls.inFlight == s.desk.calls.inFlight
    ensures LineInv(cfg, s')
  {
    var e := LineOf(f, direction, s.now);
    TurnsAppend(s.line, e, cfg.charging.commandTimeout);
    OpenAfter(s.line, e);
    QuietAppend(s.line, e, Grace(cfg));
    TrackedAppendFrame(s.line, s.pipe.tracker, f, direction, s.now, cfg.trackerAge);
  }

  lemma LineInvCarries(cfg: Config, s: State, s': State)
    requires LineInv(cfg, s)
    requires s'.line == s.line && s.now <= s'.now && s'.pipe.tracker == s.pipe.tracker
    requires s'.desk.calls.inFlight == s.desk.calls.inFlight
    ensures LineInv(cfg, s')
  {}

  lemma ChargerTextKeepsLine(cfg: Config, s: State, text: Text, upOk: bool, alive: bool)
    requires LineInv(cfg, s)
    ensures LineInv(cfg, OnChargerText(cfg, s, text, upOk, alive))
  {
    if AnswersProxy(s, text) {
      CloseCallKeepsLine(cfg, s, Consume(s, text.frame), ProxyAnswered(text.frame.uniqueId, s.now));
      SendKeepsLine(cfg, Consume(s, text.frame), alive);
    } else if upOk && text.Parsed? {
      FrameKeepsLine(cfg, s, RelayFrame(s, text.frame), text.frame, ChargerToCentral);
      SendKeepsLine(cfg, RelayFrame(s, text.frame), alive);
    } else {
      LineInvCarries(cfg, s, OnChargerText(cfg, s, text, upOk, alive));
    }
  }

  lemma TickKeepsLine(cfg: Config, s: State, alive: bool)
    requires LineInv(cfg, s)
    ensures LineInv(cfg, OnCommandTick(cfg, s, alive))
  {
    var timeout := cfg.charging.commandTimeout;
    var late := Overdue(s.desk.calls.inFlight, s.now, timeout);
    var swept := s.(desk := ExpireDesk(s.desk, s.now, timeout),
                    line := s.line + TimedOut(s, timeout));
    if late {
      CloseCallKeepsLine(cfg, s, swept, ProxyTimedOut(s.desk.calls.inFlight.value.prepared.uniqueId, s.now));
    } else {
      assert swept.line == s.line;
      LineInvCarries(cfg, s, swept);
    }
    SendKeepsLine(cfg, swept, alive);
  }

  predicate MovesLine(e: Event) {
    e.ChargerText? || e.CentralText? || e.TakeCommand? || e.CommandTick? || e.Housekeeping? || e.Teardown?
  }

  lemma OthersLeaveTheLine(cfg: Config, s: State, e: Event)
    requires !MovesLine(e)
    ensures var s' := Act(cfg, s, e);
            && s'.line == s.line && s'.now == s.now && s'.pipe.tracker == s.pipe.tracker
            && s'.desk.calls == s.desk.calls
  {}

  /** The line discipline covers the life of the main loop; the drain only
      reports what was still open. */
  lemma StepKeepsLine(cfg: Config, s: State, i: Input)
    requires LineKept(cfg, s)
    ensures LineKept(cfg, Step(cfg, s, i))
  {
    if Enabled(cfg, s, i) && !s.phase.Drained? {
      var t := s.(now := i.at);
      LineInvCarries(cfg, s, t);
      if !MovesLine(i.event) {
        OthersLeaveTheLine(cfg, t, i.event);
        LineInvCarries(cfg, t, Act(cfg, t, i.event));
      } else {
        MovingEventKeepsLine(cfg, t, i.event);
      }
    }
  }

  /** The drain only reports; until then the line is kept in order. */
  ghost predicate LineKept(cfg: Config, s: State) {
    s.phase.Drained? || LineInv(cfg, s)
  }

  lemma MovingEventKeepsLine(cfg: Config, s: State, e: Event)
    requires LineInv(cfg, s) && MovesLine(e)
    ensures LineKept(cfg, Act(cfg, s, e))
  {
    if e.ChargerText? {
      ChargerTextEventKeepsLine(cfg, s, e);
    } else if e.CentralText? {
      CentralTextKeepsLine(cfg, s, e);
    } else if e.TakeCommand? {
      TakeCommandKeepsLine(cfg, s, e);
    } else if e.CommandTick? {
      TickEventKeepsLine(cfg, s, e);
    } else {
      UpkeepKeepsLine(cfg, s, e);
    }
  }

  lemma ChargerTextEventKeepsLine(cfg: Config, s: State, e: Event)
    requires LineInv(cfg, s) && e.ChargerText?
    ensures LineKept(cfg, Act(cfg, s, e))
  {
    if s.phase.Forwarding? {
      ChargerTextKeepsLine(cfg, s, e.text, e.upOk, e.alive);
    } else {
      LineInvCarries(cfg, s, OnIdleText(s, e.text));
    }
  }

  lemma CentralTextKeepsLine(cfg: Config, s: State, e: Event)
    requires LineInv(cfg, s) && e.CentralText?
    ensures LineKept(cfg, Act(cfg, s, e))
  {
    if e.alive && e.text.Parsed? {
      FrameKeepsLine(cfg, s, OnCentralText(s, e.text, e.alive), e.text.frame, CentralToCharger);
    } else {
      LineInvCarries(cfg, s, OnCentralText(s, e.text, e.alive));
    }
  }

  lemma TakeCommandKeepsLine(cfg: Config, s: State, e: Event)
    requires LineInv(cfg, s) && e.TakeCommand?
    ensures LineKept(cfg, Act(cfg, s, e))
  {
    if s.desk.inbox != [] {
      var taken := s.(desk := TakeOne(s.desk, cfg.capacity));
      LineInvCarries(cfg, s, taken);
      SendKeepsLine(cfg, taken, e.alive);
    }
  }

  lemma TickEventKeepsLine(cfg: Config, s: State, e: Event)
    requires LineInv(cfg, s) && e.CommandTick?
    ensures LineKept(cfg, Act(cfg, s, e))
  {
    TickKeepsLine(cfg, s, e.alive);
  }

  lemma UpkeepKeepsLine(cfg: Config, s: State, e: Event)
    requires LineInv(cfg, s) && (e.Housekeeping? || e.Teardown?)
    ensures LineKept(cfg, Act(cfg, s, e))
  {
    if e.Housekeeping? {
      TrackedAfterCleanup(s.line, s.pipe.tracker, s.now, cfg.trackerAge);
    }
  }

  lemma {:induction false} RunKeepsLine(cfg: Config, start: real, inputs: seq<Input>)
    ensures LineKept(cfg, Run(cfg, Init(cfg, start), inputs))
  {
    if inputs != [] {
      RunKeepsLine(cfg, start, inputs[..|inputs| - 1]);
      StepKeepsLine(cfg, Run(cfg, Init(cfg, start), inputs[..|inputs| - 1]), inputs[|inputs| - 1]);
    }
  }

  // ---- main results ----

  /** The line as it stands is disciplined in every reachable state, the drained
      one included. */
  ghost predicate Disciplined(cfg: Config, s: State) {
    Turns(s.line, cfg.charging.commandTimeout) && Quiet(s.line, Grace(cfg))
  }

  lemma StepKeepsDiscipline(cfg: Config, s: State, i: Input)
    requires LineKept(cfg, s)
    requires Disciplined(cfg, s)
    ensures Disciplined(cfg, Step(cfg, s, i))
  {
    StepKeepsLine(cfg, s, i);
    if Step(cfg, s, i).phase.Drained? {
      OnlyTeardownDrains(cfg, s, i);
    }
  }

  lemma OnlyTeardownDrains(cfg: Config, s: State, i: Input)
    requires Step(cfg, s, i).phase.Drained?
    ensures Step(cfg, s, i).line == s.line
  {
    if Enabled(cfg, s, i) && !s.phase.Drained? && !i.event.Teardown? {
      NothingElseDrains(cfg, s.(now := i.at), i.event);
      assert false;
    }
  }

  lemma NothingElseDrains(cfg: Config, s: State, e: Event)
    requires !s.phase.Drained? && !e.Teardown?
    ensures !Act(cfg, s, e).phase.Drained?
  {}

  lemma {:induction false} RunKeepsDiscipline(cfg: Config, start: real, inputs: seq<Input>)
    ensures Disciplined(cfg, Run(cfg, Init(cfg, start), inputs))
  {
    if inputs != [] {
      RunKeepsDiscipline(cfg, start, inputs[..|inputs| - 1]);
      RunKeepsLine(cfg, start, inputs[..|inputs| - 1]);
      StepKeepsDiscipline(cfg, Run(cfg, Init(cfg, start), inputs[..|inputs| - 1]), inputs[|inputs| - 1]);
    }
  }

  /** Two proxy Calls are separated by the first one's answer, or by its timeout
      no sooner than the configured time after it was sent. */
  lemma ProxyCallsTakeTurns(cfg: Config, start: real, inputs: seq<Input>, i: nat, j: nat)
    requires var line := Run(cfg, Init(cfg, start), inputs).line;
             i < j < |line| && line[i].ProxySent? && line[j].ProxySent?
    ensures var line := Run(cfg, Init(cfg, start), inputs).line;
            exists k :: i < k < j && Closes(line[k], line[i], cfg.charging.commandTimeout)
  {
    RunKeepsDiscipline(cfg, start, inputs);
    var line := Run(cfg, Init(cfg, start), inputs).line;
    assert InTurn(line, j, cfg.charging.commandTimeout);
    ClosedInBetween(line, cfg.charging.commandTimeout, i, j);
  }

  /** No proxy Call goes out within the grace after a Central System Call was
      forwarded to the charger, unless a response with that Call's id has been
      forwarded since, or the charger itself reused the id for a Call. */
  lemma CentralCallsGoFirst(cfg: Config, start: real, inputs: seq<Input>, i: nat, j: nat)
    requires var line := Run(cfg, Init(cfg, start), inputs).line;
             && i < j < |line| && line[i].CentralCall? && line[j].ProxySent?
             && line[j].at - line[i].at < MinReal(CENTRAL_CALL_GRACE, cfg.trackerAge)
    ensures var line := Run(cfg, Init(cfg, start), inputs).line;
            exists k :: i < k < j && (line[k].Response? || line[k].ChargerCall?) && line[k].id == line[i].id
  {
    RunKeepsDiscipline(cfg, start, inputs);
    var line := Run(cfg, Init(cfg, start), inputs).line;
    assert Polite(line, j, Grace(cfg)) && ClearedBetween(line, i, j);
    var k :| i < k < j && Clears(line[k], line[i].id);
  }

  /** Exactly when the proxy holds back: some forwarded Central System Call is
      younger than the grace and its id has appeared neither in a response nor
      in a Call of the charger's since. */
  lemma HeldExactlyWhileCentralWaits(cfg: Config, start: real, inputs: seq<Input>)
    requires cfg.trackerAge >= CENTRAL_CALL_GRACE
    requires !Run(cfg, Init(cfg, start), inputs).phase.Drained?
    ensures var s := Run(cfg, Init(cfg, start), inputs);
            Held(s) <==>
              exists i :: 0 <= i < |s.line| && Waiting(s.line, i) && s.now - s.line[i].at < CENTRAL_CALL_GRACE
  {
    RunKeepsLine(cfg, start, inputs);
    var s := Run(cfg, Init(cfg, start), inputs);
    if Held(s) {
      var id :| id in s.pipe.tracker && s.pipe.tracker[id].direction.CentralToCharger?
                && s.now - s.pipe.tracker[id].sentAt < CENTRAL_CALL_GRACE;
      assert Explained(s.line, id, s.pipe.tracker[id].sentAt);
      var i :| 0 <= i < |s.line| && Explains(s.line, i, id, s.pipe.tracker[id].sentAt);
      assert Waiting(s.line, i);
    } else {
      forall i | 0 <= i < |s.line| && Waiting(s.line, i) ensures s.now - s.line[i].at >= CENTRAL_CALL_GRACE {
        NotHeldMeansQuiet(cfg, s, i);
      }
    }
  }
}
