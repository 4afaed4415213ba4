/** How long a charger is kept waiting while the Central System is unreachable. */
module SessionWindow {
  import opened Prelude
  import opened Session
  import Backoff

  predicate Positive(cfg: Config, connectTimeout: real) {
    cfg.initialBackoff > 0.0 && cfg.maxBackoff > 0.0 && cfg.window >= 0.0 && connectTimeout >= 0.0
  }

  /** The delay before the first attempt after losing an established upstream. */
  function FirstDelay(cfg: Config): real {
    MinReal(cfg.initialBackoff, cfg.maxBackoff)
  }

  /** No sleep between attempts is shorter than this. */
  function ShortestDelay(cfg: Config): real {
    MinReal(FirstDelay(cfg), 1.0)
  }

  /** The promised bound, counted from the moment the upstream went down. */
  function LatestClose(cfg: Config, connectTimeout: real): real {
    MaxReal(cfg.window, FirstDelay(cfg)) + connectTimeout + 1.0
  }

  /** An outage as the promise assumes it: no attempt succeeds, the charger stays
      connected, nothing is cancelled, sleeps are exact, attempts are bounded. */
  predicate OutageInput(cfg: Config, connectTimeout: real, s: State, i: Input) {
    && Enabled(cfg, s, i)
    && !i.event.ConnectOk? && !i.event.ChargerClosed? && !i.event.Cancelled?
    && match s.phase {
         case Connecting(started) => i.at <= started + connectTimeout
         case Retrying(until) => i.at <= until && (i.event.SleepOver? ==> i.at == until)
         case Pausing(until) => i.at <= until && (i.event.SleepOver? ==> i.at == until)
         case _ => true
       }
  }

  predicate Outage(cfg: Config, connectTimeout: real, s: State, inputs: seq<Input>) {
    inputs == [] ||
    var n := |inputs| - 1;
    Outage(cfg, connectTimeout, s, inputs[..n]) && OutageInput(cfg, connectTimeout, Run(cfg, s, inputs[..n]), inputs[n])
  }

  function Attempts(inputs: seq<Input>): nat {
    if inputs == [] then 0
    else Attempts(inputs[..|inputs| - 1]) + (if inputs[|inputs| - 1].event.ConnectFailed? then 1 else 0)
  }

  /** Messages of any kind from the charger. */
  function ChargerMessages(inputs: seq<Input>): nat {
    if inputs == [] then 0
    else
      var e := inputs[|inputs| - 1].event;
      ChargerMessages(inputs[..|inputs| - 1]) + (if e.ChargerText? || e.ChargerOther? then 1 else 0)
  }

  /** `n` delays of length `d`, one after the other. */
  function Repeated(n: nat, d: real): real {
    if n == 0 then 0.0 else Repeated(n - 1, d) + d
  }

  // ---- what holds before an outage ----

  /** An established or fresh session starts an outage with the initial delay. */
  predicate Rested(cfg: Config, s: State) {
    && (s.since.None? ==> s.backoff == cfg.initialBackoff)
    && (s.phase.Forwarding? ==> s.since.None?)
    && (s.phase.Retrying? || s.phase.Pausing? ==> s.since.Some?)
  }

  lemma StepKeepsRested(cfg: Config, s: State, i: Input)
    requires Rested(cfg, s)
    ensures Rested(cfg, Step(cfg, s, i))
  {}

  lemma {:induction false} RunKeepsRested(cfg: Config, start: real, inputs: seq<Input>)
    ensures Rested(cfg, Run(cfg, Init(cfg, start), inputs))
  {
    if inputs != [] {
      RunKeepsRested(cfg, start, inputs[..|inputs| - 1]);
      StepKeepsRested(cfg, Run(cfg, Init(cfg, start), inputs[..|inputs| - 1]), inputs[|inputs| - 1]);
    }
  }

  // ---- during an outage that began at `down` ----

  /** `full` counts the sleeps that ran to their end. */
  predicate Down(cfg: Config, connectTimeout: real, s: State, down: real, full: nat) {
    && s.since == Some(down)
    && s.backoff >= FirstDelay(cfg)
    && var d := ShortestDelay(cfg);
       var slack := MaxReal(cfg.window, FirstDelay(cfg)) + 1.0;
       match s.phase {
         case Connecting(started) =>
           started <= s.now <= started + connectTimeout && Repeated(full, d) <= started - down <= slack
         case Retrying(until) =>
           && s.now <= until && Repeated(full, d) <= s.now - down
           && Repeated(full + 1, d) <= until - down <= slack
         case Pausing(until) =>
           && s.now <= until && Repeated(full, d) <= s.now - down
           && Repeated(full + 1, d) <= until - down <= slack
         case _ => false
       }
  }

  predicate Over(s: State) {
    s.phase.Closing? || s.phase.Drained?
  }

  /** Losing the upstream, or the first failed attempt, starts the clock. */
  lemma OutageBegins(cfg: Config, connectTimeout: real, s: State, i: Input)
    requires Positive(cfg, connectTimeout) && Rested(cfg, s) && s.since.None?
    requires Step(cfg, s, i).since.Some? && !Over(Step(cfg, s, i))
    ensures Down(cfg, connectTimeout, Step(cfg, s, i), i.at, 0)
  {
    var s' := Step(cfg, s, i);
    assert Repeated(1, ShortestDelay(cfg)) == ShortestDelay(cfg);
    DelayBounds(cfg, s.backoff);
  }

  lemma DelayBounds(cfg: Config, backoff: real)
    requires cfg.initialBackoff > 0.0 && cfg.maxBackoff > 0.0 && backoff >= FirstDelay(cfg)
    ensures Backoff.Delay(backoff, cfg.maxBackoff) >= FirstDelay(cfg) > 0.0
    ensures Backoff.Advance(backoff, BACKOFF_MULTIPLIER, cfg.maxBackoff) >= FirstDelay(cfg)
  {
    assert backoff * BACKOFF_MULTIPLIER == backoff + backoff;
  }

  /** One step of an outage: still down, or closed with 1001 inside the bounds. */
  lemma OutageStep(cfg: Config, connectTimeout: real, s: State, i: Input, down: real, full: nat)
    requires Positive(cfg, connectTimeout)
    requires Down(cfg, connectTimeout, s, down, full) && OutageInput(cfg, connectTimeout, s, i)
    ensures var s' := Step(cfg, s, i);
            if Over(s') then
              && s'.phase.Closing? && s'.closeCode == CLOSE_GOING_AWAY && i.event.ConnectFailed?
              && cfg.window <= i.at - down <= LatestClose(cfg, connectTimeout)
            else
              Down(cfg, connectTimeout, s', down, full + (if i.event.SleepOver? then 1 else 0))
  {
    DelayBounds(cfg, s.backoff);
    if i.event.ConnectFailed? {
      FailedAttempt(cfg, connectTimeout, s.(now := i.at), down, full);
    }
  }

  lemma FailedAttempt(cfg: Config, connectTimeout: real, s: State, down: real, full: nat)
    requires Positive(cfg, connectTimeout)
    requires Down(cfg, connectTimeout, s, down, full) && s.phase.Connecting?
    ensures var s' := OnConnectFailed(cfg, s);
            if s.now - down >= cfg.window then
              s'.phase.Closing? && s'.closeCode == CLOSE_GOING_AWAY && s.now - down <= LatestClose(cfg, connectTimeout)
            else
              s'.phase.Retrying? && Down(cfg, connectTimeout, s', down, full)
  {
    DelayBounds(cfg, s.backoff);
    assert Repeated(full + 1, ShortestDelay(cfg)) == Repeated(full, ShortestDelay(cfg)) + ShortestDelay(cfg);
  }

  function Trying(s: State): nat {
    if s.phase.Connecting? then 1 else 0
  }

  /** Every attempt but the one under way is accounted for by a full sleep or a
      message from the charger. */
  predicate OnTime(cfg: Config, connectTimeout: real, s: State, down: real, full: nat, attempts: nat, messages: nat) {
    Down(cfg, connectTimeout, s, down, full) && attempts + Trying(s) <= full + messages
  }

  lemma OutageStaysOnTime(cfg: Config, connectTimeout: real, s: State, i: Input, down: real,
                          full: nat, attempts: nat, messages: nat)
    requires Positive(cfg, connectTimeout) && OutageInput(cfg, connectTimeout, s, i)
    requires OnTime(cfg, connectTimeout, s, down, full, attempts, messages) && !Over(Step(cfg, s, i))
    ensures var e := i.event;
            OnTime(cfg, connectTimeout, Step(cfg, s, i), down, full + (if e.SleepOver? then 1 else 0),
                   attempts + (if e.ConnectFailed? then 1 else 0),
                   messages + (if e.ChargerText? || e.ChargerOther? then 1 else 0))
  {
    OutageStep(cfg, connectTimeout, s, i, down, full);
    CountsStep(cfg, connectTimeout, s, i);
  }

  function FullSleeps(inputs: seq<Input>): nat {
    if inputs == [] then 0
    else FullSleeps(inputs[..|inputs| - 1]) + (if inputs[|inputs| - 1].event.SleepOver? then 1 else 0)
  }

  lemma {:induction false} OutageSoFar(cfg: Config, connectTimeout: real, s: State, inputs: seq<Input>, down: real)
    requires Positive(cfg, connectTimeout) && Down(cfg, connectTimeout, s, down, 0) && !s.phase.Connecting?
    requires Outage(cfg, connectTimeout, s, inputs) && !Over(Run(cfg, s, inputs))
    ensures OnTime(cfg, connectTimeout, Run(cfg, s, inputs), down,
                   FullSleeps(inputs), Attempts(inputs), ChargerMessages(inputs))
  {
    if inputs != [] {
      var n := |inputs| - 1;
      OverStays(cfg, Run(cfg, s, inputs[..n]), inputs[n]);
      OutageSoFar(cfg, connectTimeout, s, inputs[..n], down);
      OutageStaysOnTime(cfg, connectTimeout, Run(cfg, s, inputs[..n]), inputs[n], down,
                        FullSleeps(inputs[..n]), Attempts(inputs[..n]), ChargerMessages(inputs[..n]));
    }
  }

  lemma OverStays(cfg: Config, s: State, i: Input)
    ensures Over(s) ==> Over(Step(cfg, s, i))
  {}

  /** How one input moves the session between trying and sleeping. */
  lemma CountsStep(cfg: Config, connectTimeout: real, s: State, i: Input)
    requires s.phase.Connecting? || s.phase.Retrying? || s.phase.Pausing?
    requires OutageInput(cfg, connectTimeout, s, i) && !Over(Step(cfg, s, i))
    ensures var e := i.event;
            (if e.ConnectFailed? then 1 else 0) + Trying(Step(cfg, s, i))
              <= Trying(s) + (if e.SleepOver? then 1 else 0) + (if e.ChargerText? || e.ChargerOther? then 1 else 0)
  {}

  lemma {:induction false} RepeatedCovers(n: nat, k: nat, d: real)
    requires n <= k && d >= 0.0
    ensures Repeated(n, d) <= Repeated(k, d)
    decreases k
  {
    if n < k {
      RepeatedCovers(n, k - 1, d);
    }
  }

  lemma SleepsFirst(cfg: Config, s: State, i: Input)
    requires Rested(cfg, s) && s.since.None? && Step(cfg, s, i).since.Some? && !Over(Step(cfg, s, i))
    ensures !Step(cfg, s, i).phase.Connecting?
  {}

  /** The session right after it has lost the upstream. */
  function AfterLoss(cfg: Config, start: real, history: seq<Input>, loss: Input): State {
    Step(cfg, Run(cfg, Init(cfg, start), history), loss)
  }

  /** The input that starts the clock, and does not close the session at once. */
  predicate StartsOutage(cfg: Config, start: real, history: seq<Input>, loss: Input) {
    && Run(cfg, Init(cfg, start), history).since.None?
    && AfterLoss(cfg, start, history, loss).since.Some? && !Over(AfterLoss(cfg, start, history, loss))
  }

  lemma LossStartsOutage(cfg: Config, start: real, history: seq<Input>, loss: Input, connectTimeout: real)
    requires Positive(cfg, connectTimeout) && StartsOutage(cfg, start, history, loss)
    ensures var s := AfterLoss(cfg, start, history, loss);
            Down(cfg, connectTimeout, s, loss.at, 0) && !s.phase.Connecting?
  {
    RunKeepsRested(cfg, start, history);
    OutageBegins(cfg, connectTimeout, Run(cfg, Init(cfg, start), history), loss);
    SleepsFirst(cfg, Run(cfg, Init(cfg, start), history), loss);
  }

  lemma OutageIsBounded(cfg: Config, connectTimeout: real, s: State, outage: seq<Input>, down: real)
    requires Positive(cfg, connectTimeout) && Down(cfg, connectTimeout, s, down, 0) && !s.phase.Connecting?
    requires Outage(cfg, connectTimeout, s, outage) && !Over(Run(cfg, s, outage))
    ensures Run(cfg, s, outage).now - down <= LatestClose(cfg, connectTimeout)
    ensures Attempts(outage) > ChargerMessages(outage)
        ==> Repeated(Attempts(outage) - ChargerMessages(outage), ShortestDelay(cfg)) <= LatestClose(cfg, connectTimeout)
  {
    OutageSoFar(cfg, connectTimeout, s, outage, down);
    OnTimeIsBounded(cfg, connectTimeout, Run(cfg, s, outage), down,
                    FullSleeps(outage), Attempts(outage), ChargerMessages(outage));
  }

  lemma OutageCloses(cfg: Config, connectTimeout: real, s: State, outage: seq<Input>, last: Input, down: real)
    requires Positive(cfg, connectTimeout) && Down(cfg, connectTimeout, s, down, 0) && !s.phase.Connecting?
    requires Outage(cfg, connectTimeout, s, outage) && !Over(Run(cfg, s, outage))
    requires OutageInput(cfg, connectTimeout, Run(cfg, s, outage), last) && Over(Step(cfg, Run(cfg, s, outage), last))
    ensures Step(cfg, Run(cfg, s, outage), last).closeCode == CLOSE_GOING_AWAY
    ensures cfg.window <= last.at - down <= LatestClose(cfg, connectTimeout)
  {
    OutageSoFar(cfg, connectTimeout, s, outage, down);
    OutageStep(cfg, connectTimeout, Run(cfg, s, outage), last, down, FullSleeps(outage));
  }

  lemma OnTimeIsBounded(cfg: Config, connectTimeout: real, s: State, down: real,
                        full: nat, attempts: nat, messages: nat)
    requires Positive(cfg, connectTimeout) && OnTime(cfg, connectTimeout, s, down, full, attempts, messages)
    ensures s.now - down <= LatestClose(cfg, connectTimeout)
    ensures attempts > messages ==>
              Repeated(attempts - messages, ShortestDelay(cfg)) <= LatestClose(cfg, connectTimeout)
  {
    if attempts > messages {
      RepeatedCovers(attempts - messages, full, ShortestDelay(cfg));
      RepeatedCovers(full, full + 1, ShortestDelay(cfg));
    }
  }

  // ---- main results ----

  /** From the moment the upstream goes down, if no attempt succeeds, a charger
      that stays connected is closed with 1001 no earlier than the window and no
      later than max(window, first delay) + connect timeout + 1 ms. */
  lemma ClosesWithinTheWindow(cfg: Config, start: real, history: seq<Input>, loss: Input,
                              connectTimeout: real, outage: seq<Input>, last: Input)
    requires Positive(cfg, connectTimeout) && StartsOutage(cfg, start, history, loss)
    requires var s := AfterLoss(cfg, start, history, loss);
             && Outage(cfg, connectTimeout, s, outage) && !Over(Run(cfg, s, outage))
             && OutageInput(cfg, connectTimeout, Run(cfg, s, outage), last)
             && Over(Step(cfg, Run(cfg, s, outage), last))
    ensures var s := AfterLoss(cfg, start, history, loss);
            && Step(cfg, Run(cfg, s, outage), last).closeCode == CLOSE_GOING_AWAY
            && cfg.window <= last.at - loss.at <= LatestClose(cfg, connectTimeout)
  {
    LossStartsOutage(cfg, start, history, loss, connectTimeout);
    OutageCloses(cfg, connectTimeout, AfterLoss(cfg, start, history, loss), outage, last, loss.at);
  }

  /** And it cannot stay open: the clock of a session that is still trying has not
      passed the same bound, and the attempts made are at most the charger's
      messages plus as many as fit the bound at the shortest delay. */
  lemma AttemptsAreFinite(cfg: Config, start: real, history: seq<Input>, loss: Input,
                          connectTimeout: real, outage: seq<Input>)
    requires Positive(cfg, connectTimeout) && StartsOutage(cfg, start, history, loss)
    requires var s := AfterLoss(cfg, start, history, loss);
             Outage(cfg, connectTimeout, s, outage) && !Over(Run(cfg, s, outage))
    ensures Run(cfg, AfterLoss(cfg, start, history, loss), outage).now - loss.at <= LatestClose(cfg, connectTimeout)
    ensures Attempts(outage) > ChargerMessages(outage)
        ==> Repeated(Attempts(outage) - ChargerMessages(outage), ShortestDelay(cfg)) <= LatestClose(cfg, connectTimeout)
  {
    LossStartsOutage(cfg, start, history, loss, connectTimeout);
    OutageIsBounded(cfg, connectTimeout, AfterLoss(cfg, start, history, loss), outage, loss.at);
  }
}
