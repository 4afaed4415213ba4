/** When a queued command must go out, and which: the counterpart of the line
    discipline, which says when none may. */
module SessionSending {
  import opened Prelude
  import opened Commands
  import opened LocalCalls
  import opened CommandDesk
  import opened Session
  import opened SessionPolicy
  import opened SessionLine

  // ---- one attempt ----

  /** How many requests at the head of the queue the configuration does not permit. */
  function Unfit(charging: Charging, queued: seq<Request>): (n: nat)
    ensures n <= |queued|
    ensures forall k :: 0 <= k < n ==> !Permitted(charging, queued[k])
    ensures n < |queued| ==> Permitted(charging, queued[n])
  {
    if queued == [] || Permitted(charging, queued[0]) then 0 else 1 + Unfit(charging, queued[1..])
  }

  function Invalids(rs: seq<Request>): seq<Outcome> {
    seq(|rs|, i requires 0 <= i < |rs| => Outcome(rs[i], Invalid, None))
  }

  /** What one attempt reports: the unfit requests, and the fit one if the charger is
      gone. */
  function Reports(charging: Charging, queued: seq<Request>, alive: bool): seq<Outcome> {
    var n := Unfit(charging, queued);
    Invalids(queued[..n]) + (if n < |queued| && !alive then [Outcome(queued[n], NotConnected, None)] else [])
  }

  /** `sent` gained the request `r` and nothing else, and it is in flight since `now`. */
  predicate Sends(d: Desk, d': Desk, r: Request, now: real) {
    && |d'.sent| == |d.sent| + 1 && d.sent <= d'.sent && d'.sent[|d.sent|].request == r
    && d'.calls.inFlight.Some? && d'.calls.inFlight.value.request == r && d'.calls.inFlight.value.sentAt == now
  }

  /** The first permitted request leaves the queue, with the unfit ones before it. */
  predicate Attempted(charging: Charging, d: Desk, d': Desk, now: real, alive: bool) {
    var queued := d.calls.queued;
    var n := Unfit(charging, queued);
    && d'.results == d.results + Reports(charging, queued, alive)
    && d'.calls.queued == (if n < |queued| then queued[n + 1..] else [])
    && (if n < |queued| && alive then Sends(d, d', queued[n], now)
        else d'.sent == d.sent && d'.calls.inFlight == d.calls.inFlight)
  }

  lemma ReportsOneMore(charging: Charging, queued: seq<Request>, alive: bool)
    requires queued != [] && !Permitted(charging, queued[0])
    ensures Reports(charging, queued, alive)
         == [Outcome(queued[0], Invalid, None)] + Reports(charging, queued[1..], alive)
  {
    var n := Unfit(charging, queued);
    assert queued[..n] == [queued[0]] + queued[1..][..n - 1];
    assert Invalids(queued[..n]) == [Outcome(queued[0], Invalid, None)] + Invalids(queued[1..][..n - 1]);
  }

  lemma {:induction false} PumpAttempts(charging: Charging, d: Desk, now: real, alive: bool)
    requires d.calls.inFlight.None?
    ensures var out := Pump(charging, d, now, alive);
            && Attempted(charging, d, out.desk, now, alive)
            && (out.lost <==> Unfit(charging, d.calls.queued) < |d.calls.queued| && !alive)
    decreases |d.calls.queued|
  {
    if d.calls.queued != [] {
      PumpOnce(charging, d, now, alive);
      PreparedIffPermitted(charging, d.calls.queued[0], NextId(d, now));
      if !Permitted(charging, d.calls.queued[0]) {
        PumpAttempts(charging, Popped(d, Invalid), now, alive);
        AttemptedAfterPop(charging, d, Pump(charging, Popped(d, Invalid), now, alive).desk, now, alive);
      } else {
        assert Invalids([]) == [];
      }
    } else {
      assert Invalids([]) == [];
    }
  }

  /** Popping an unfit request and attempting the rest is attempting the whole. */
  lemma AttemptedAfterPop(charging: Charging, d: Desk, d': Desk, now: real, alive: bool)
    requires d.calls.queued != [] && !Permitted(charging, d.calls.queued[0])
    requires Attempted(charging, Popped(d, Invalid), d', now, alive)
    ensures Attempted(charging, d, d', now, alive)
  {
    var queued := d.calls.queued;
    ReportsOneMore(charging, queued, alive);
    ConcatAssociates(d.results, [Outcome(queued[0], Invalid, None)], Reports(charging, queued[1..], alive));
    RestOfRest(queued, Unfit(charging, queued[1..]));
  }

  lemma RestOfRest(queued: seq<Request>, n: nat)
    requires n < |queued|
    ensures n + 1 < |queued| ==> queued[1..][n] == queued[n + 1] && queued[1..][n + 1..] == queued[n + 2..]
  {}

  // ---- the arms that attempt ----

  /** The inputs after which the session tries to send. */
  predicate Tries(cfg: Config, s: State, i: Input) {
    && Enabled(cfg, s, i)
    && (|| i.event.CommandTick? || i.event.TakeCommand?
        || (&& i.event.ChargerText? && s.phase.Forwarding? && i.event.text.Parsed?
            && (AnswersProxy(s, i.event.text) || i.event.upOk)))
  }

  function Alive(e: Event): bool
    requires e.CommandTick? || e.TakeCommand? || e.ChargerText?
  {
    e.alive
  }

  /** The queue there is to send from: a tick drops what is too old, and a command
      taken is queued first. */
  function ToSend(cfg: Config, s: State, i: Input): seq<Request>
    requires Tries(cfg, s, i)
  {
    if i.event.CommandTick? then Filter(YoungerThan(i.at, cfg.charging.commandTimeout), s.desk.calls.queued)
    else if i.event.TakeCommand? then Pushed(s.desk.calls.queued, s.desk.inbox[0], cfg.capacity)
    else s.desk.calls.queued
  }

  /** The session when it comes to sending. */
  function Ready(cfg: Config, s: State, i: Input): State
    requires Tries(cfg, s, i)
  {
    var u := s.(now := i.at);
    match i.event
    case CommandTick(_) =>
      u.(desk := ExpireDesk(u.desk, u.now, cfg.charging.commandTimeout),
         line := u.line + TimedOut(u, cfg.charging.commandTimeout))
    case TakeCommand(_) => u.(desk := TakeOne(u.desk, cfg.capacity))
    case ChargerText(text, _, _) => if AnswersProxy(u, text) then Consume(u, text.frame) else RelayFrame(u, text.frame)
    case _ => u
  }

  lemma TryingIsSending(cfg: Config, s: State, i: Input)
    requires Tries(cfg, s, i)
    ensures Step(cfg, s, i) == Send(cfg, Ready(cfg, s, i), Alive(i.event))
    ensures Ready(cfg, s, i).desk.calls.queued == ToSend(cfg, s, i)
    ensures Ready(cfg, s, i).desk.sent == s.desk.sent && Ready(cfg, s, i).phase.Forwarding?
    ensures Ready(cfg, s, i).now == i.at
  {}

  lemma ReadyKeepsLine(cfg: Config, s: State, i: Input)
    requires Tries(cfg, s, i) && LineInv(cfg, s)
    ensures LineInv(cfg, Ready(cfg, s, i))
  {
    var u := s.(now := i.at);
    LineInvCarries(cfg, s, u);
    if i.event.CommandTick? {
      SweptKeepsLine(cfg, u);
    } else if i.event.TakeCommand? {
      LineInvCarries(cfg, u, Ready(cfg, s, i));
    } else {
      TextReadKeepsLine(cfg, u, i.event.text);
    }
  }

  lemma SweptKeepsLine(cfg: Config, u: State)
    requires LineInv(cfg, u)
    ensures LineInv(cfg, u.(desk := ExpireDesk(u.desk, u.now, cfg.charging.commandTimeout),
                            line := u.line + TimedOut(u, cfg.charging.commandTimeout)))
  {
    var timeout := cfg.charging.commandTimeout;
    var swept := u.(desk := ExpireDesk(u.desk, u.now, timeout), line := u.line + TimedOut(u, timeout));
    if Overdue(u.desk.calls.inFlight, u.now, timeout) {
      CloseCallKeepsLine(cfg, u, swept, ProxyTimedOut(u.desk.calls.inFlight.value.prepared.uniqueId, u.now));
    } else {
      assert swept.line == u.line;
      LineInvCarries(cfg, u, swept);
    }
  }

  lemma TextReadKeepsLine(cfg: Config, u: State, text: Text)
    requires LineInv(cfg, u) && text.Parsed?
    ensures LineInv(cfg, if AnswersProxy(u, text) then Consume(u, text.frame) else RelayFrame(u, text.frame))
  {
    if AnswersProxy(u, text) {
      CloseCallKeepsLine(cfg, u, Consume(u, text.frame), ProxyAnswered(text.frame.uniqueId, u.now));
    } else {
      FrameKeepsLine(cfg, u, RelayFrame(u, text.frame), text.frame, ChargerToCentral);
    }
  }

  /** A Call of the proxy's is open, or a Central System Call younger than the grace
      is waiting for its answer. */
  predicate Taken(s: State) {
    || s.desk.calls.inFlight.Some?
    || exists w :: 0 <= w < |s.line| && Waiting(s.line, w) && s.now - s.line[w].at < CENTRAL_CALL_GRACE
  }

  lemma HeldIsTaken(cfg: Config, s: State)
    requires LineInv(cfg, s) && Held(s)
    ensures Taken(s)
  {
    var id :| id in s.pipe.tracker && s.pipe.tracker[id].direction.CentralToCharger?
              && s.now - s.pipe.tracker[id].sentAt < CENTRAL_CALL_GRACE;
    assert Explained(s.line, id, s.pipe.tracker[id].sentAt);
    var w :| 0 <= w < |s.line| && Explains(s.line, w, id, s.pipe.tracker[id].sentAt);
    assert Waiting(s.line, w);
  }

  lemma SendAttempts(cfg: Config, s: State, alive: bool)
    requires LineInv(cfg, s) && s.phase.Forwarding?
    ensures var t := Send(cfg, s, alive);
            || (Taken(t) && t.desk == s.desk && t.phase == s.phase)
            || (&& Attempted(cfg.charging, s.desk, t.desk, s.now, alive)
                && (t.phase.Closing? <==> Unfit(cfg.charging, s.desk.calls.queued) < |s.desk.calls.queued| && !alive))
  {
    if s.desk.calls.inFlight.Some? || Held(s) {
      assert Send(cfg, s, alive) == s.(line := s.line + []);
      assert s.line + [] == s.line;
      if Held(s) {
        HeldIsTaken(cfg, s);
      }
    } else {
      PumpAttempts(cfg.charging, s.desk, s.now, alive);
    }
  }

  lemma TrySends(cfg: Config, start: real, inputs: seq<Input>, i: Input)
    requires Tries(cfg, Run(cfg, Init(cfg, start), inputs), i)
    ensures var s := Run(cfg, Init(cfg, start), inputs);
            var u, t := Ready(cfg, s, i), Step(cfg, s, i);
            || (Taken(t) && t.desk == u.desk && t.phase == u.phase)
            || (&& Attempted(cfg.charging, u.desk, t.desk, i.at, Alive(i.event))
                && (t.phase.Closing? <==> Unfit(cfg.charging, u.desk.calls.queued) < |u.desk.calls.queued|
                                          && !Alive(i.event)))
  {
    var s := Run(cfg, Init(cfg, start), inputs);
    RunKeepsLine(cfg, start, inputs);
    ReadyKeepsLine(cfg, s, i);
    TryingIsSending(cfg, s, i);
    SendAttempts(cfg, Ready(cfg, s, i), Alive(i.event));
  }

  // ---- main results ----

  /** No command waits on a clear line: after each input that frees the line, queues a
      command or lets time pass, the session is closing, the line is taken or the queue
      is empty. */
  lemma NothingWaitsOnAClearLine(cfg: Config, start: real, inputs: seq<Input>, i: Input)
    requires Tries(cfg, Run(cfg, Init(cfg, start), inputs), i)
    ensures var t := Step(cfg, Run(cfg, Init(cfg, start), inputs), i);
            t.phase.Closing? || Taken(t) || t.desk.calls.queued == []
  {
    TrySends(cfg, start, inputs, i);
    TryingIsSending(cfg, Run(cfg, Init(cfg, start), inputs), i);
  }

  /** And what goes out is the first permitted request of the queue, those before it
      being reported invalid; if the charger is gone it is reported instead, and the
      session closes. If nothing is permitted, nothing goes out. */
  lemma FirstPermittedGoesOut(cfg: Config, start: real, inputs: seq<Input>, i: Input)
    requires Tries(cfg, Run(cfg, Init(cfg, start), inputs), i)
    ensures var s := Run(cfg, Init(cfg, start), inputs);
            var t := Step(cfg, s, i);
            var queued, alive := ToSend(cfg, s, i), Alive(i.event);
            var n, reports := Unfit(cfg.charging, queued), Reports(cfg.charging, queued, alive);
            || (Taken(t) && t.desk.calls.queued == queued && t.desk.sent == s.desk.sent && t.phase.Forwarding?)
            || (&& |reports| <= |t.desk.results| && t.desk.results[|t.desk.results| - |reports|..] == reports
                && t.desk.calls.queued == (if n < |queued| then queued[n + 1..] else [])
                && (if n < |queued| && alive then Sends(s.desk, t.desk, queued[n], i.at)
                    else t.desk.sent == s.desk.sent)
                && (t.phase.Closing? <==> n < |queued| && !alive))
  {
    var s := Run(cfg, Init(cfg, start), inputs);
    TrySends(cfg, start, inputs, i);
    TryingIsSending(cfg, s, i);
    var u, t := Ready(cfg, s, i), Step(cfg, s, i);
    if Attempted(cfg.charging, u.desk, t.desk, i.at, Alive(i.event)) {
      EndsWithAdded(u.desk.results, Reports(cfg.charging, u.desk.calls.queued, Alive(i.event)));
    }
  }

  lemma EndsWithAdded(a: seq<Outcome>, b: seq<Outcome>)
    ensures |b| <= |a + b| && (a + b)[|a + b| - |b|..] == b
  {}
}
