/** What the call tracker knows, read off what passed between the two sides. */
module SessionTracker {
  import opened Prelude
  import opened Commands
  import opened Forwarding
  import opened Session
  import opened SessionReasons

  /** Something the tracker sees: a frame that was passed on, or a sweep. */
  datatype Moment = Passed(frame: Frame, direction: Direction, at: real) | Swept(at: real)

  function Tracked(h: seq<Moment>, n: nat, maxAge: real): Tracker
    requires n <= |h|
  {
    if n == 0 then map[] else See(Tracked(h, n - 1, maxAge), h[n - 1], maxAge)
  }

  function See(t: Tracker, x: Moment, maxAge: real): Tracker {
    match x
    case Passed(frame, direction, at) => Observe(t, frame, direction, at)
    case Swept(at) => Cleanup(t, at, maxAge)
  }

  predicate PassesId(x: Moment, id: string) {
    x.Passed? && x.frame.uniqueId == id
  }

  /** The latest frame that carried `id`, among the first `n` moments. */
  function LatestPass(h: seq<Moment>, id: string, n: nat): (r: Option<nat>)
    requires n <= |h|
    ensures r.Some? ==> r.value < n && PassesId(h[r.value], id)
  {
    if n == 0 then None
    else if PassesId(h[n - 1], id) then Some(n - 1)
    else LatestPass(h, id, n - 1)
  }

  /** A sweep came when the frame passed at `k` was `maxAge` old or more. */
  predicate SweptAway(h: seq<Moment>, k: nat, n: nat, maxAge: real)
    requires k < n <= |h|
  {
    exists j :: k < j < n && h[j].Swept? && h[j].at - h[k].at >= maxAge
  }

  /** The Call that is open under `id`: the latest frame with it, if that is a Call no
      sweep has removed. */
  function OpenCall(h: seq<Moment>, id: string, n: nat, maxAge: real): Option<nat>
    requires n <= |h|
  {
    match LatestPass(h, id, n)
    case None => None
    case Some(k) => if h[k].frame.messageType.Call? && !SweptAway(h, k, n, maxAge) then Some(k) else None
  }

  function EntryOf(x: Moment): Pending
    requires x.Passed? && x.frame.messageType.Call?
  {
    Pending(x.frame.messageType.action, x.direction, x.at)
  }

  lemma SweptOneMore(h: seq<Moment>, k: nat, n: nat, maxAge: real)
    requires k < n < |h|
    ensures SweptAway(h, k, n + 1, maxAge) <==>
            SweptAway(h, k, n, maxAge) || (h[n].Swept? && h[n].at - h[k].at >= maxAge)
  {}

  /** The tracker holds exactly the open Calls, each with its action, its direction and
      its time. */
  lemma {:induction false} TrackerHoldsTheOpenCalls(h: seq<Moment>, id: string, n: nat, maxAge: real)
    requires n <= |h|
    ensures var open := OpenCall(h, id, n, maxAge);
            && (id in Tracked(h, n, maxAge) <==> open.Some?)
            && (open.Some? ==> open.value < n && h[open.value].Passed? && h[open.value].frame.messageType.Call?
                               && Tracked(h, n, maxAge)[id] == EntryOf(h[open.value]))
  {
    if n > 0 {
      TrackerHoldsTheOpenCalls(h, id, n - 1, maxAge);
      var before := LatestPass(h, id, n - 1);
      if !PassesId(h[n - 1], id) && before.Some? {
        SweptOneMore(h, before.value, n - 1, maxAge);
      }
    }
  }

  /** The action published for a response is that of the Call it answers, whichever side
      sent it, and "Unknown" if none is open. */
  lemma AnswersResolveToTheirCall(h: seq<Moment>, f: Frame, maxAge: real)
    ensures var open := OpenCall(h, f.uniqueId, |h|, maxAge);
            ResolvedAction(Tracked(h, |h|, maxAge), f) ==
              match f.messageType
              case Call(action) => action
              case _ => if open.Some? then h[open.value].frame.messageType.action else "Unknown"
  {
    TrackerHoldsTheOpenCalls(h, f.uniqueId, |h|, maxAge);
  }

  // ---- the session's tracker ----

  /** What an input shows the tracker: only frames that were passed on count. */
  function Shows(cfg: Config, s: State, i: Input): seq<Moment> {
    if !Enabled(cfg, s, i) then []
    else
      match i.event
      case ChargerText(Parsed(f), upOk, _) =>
        if s.phase.Forwarding? && upOk && !Answers(cfg, s, i) then [Passed(f, ChargerToCentral, i.at)] else []
      case CentralText(Parsed(f), alive) => if alive then [Passed(f, CentralToCharger, i.at)] else []
      case Housekeeping => [Swept(i.at)]
      case _ => []
  }

  function Moments(cfg: Config, start: real, inputs: seq<Input>): seq<Moment> {
    if inputs == [] then []
    else
      var n := |inputs| - 1;
      Moments(cfg, start, inputs[..n]) + Shows(cfg, Run(cfg, Init(cfg, start), inputs[..n]), inputs[n])
  }

  lemma StepTracks(cfg: Config, s: State, i: Input)
    ensures var shows := Shows(cfg, s, i);
            && |shows| <= 1
            && Step(cfg, s, i).pipe.tracker ==
                 (if shows == [] then s.pipe.tracker else See(s.pipe.tracker, shows[0], cfg.trackerAge))
  {}

  lemma TrackedOneMore(h: seq<Moment>, shows: seq<Moment>, maxAge: real)
    requires |shows| <= 1
    ensures Tracked(h + shows, |h + shows|, maxAge) ==
            if shows == [] then Tracked(h, |h|, maxAge) else See(Tracked(h, |h|, maxAge), shows[0], maxAge)
  {
    if shows == [] {
      assert h + shows == h;
    } else {
      assert shows == [shows[0]];
      TrackedPrefix(h, shows[0], |h|, maxAge);
    }
  }

  lemma {:induction false} TrackedPrefix(h: seq<Moment>, x: Moment, n: nat, maxAge: real)
    requires n <= |h|
    ensures Tracked(h + [x], n, maxAge) == Tracked(h, n, maxAge)
  {
    if n > 0 {
      TrackedPrefix(h, x, n - 1, maxAge);
    }
  }

  /** In every run the session tracks exactly what it passed on and swept. */
  lemma {:induction false} SessionTracksWhatItPasses(cfg: Config, start: real, inputs: seq<Input>)
    ensures var h := Moments(cfg, start, inputs);
            Run(cfg, Init(cfg, start), inputs).pipe.tracker == Tracked(h, |h|, cfg.trackerAge)
  {
    if inputs != [] {
      var n := |inputs| - 1;
      var s, h := Run(cfg, Init(cfg, start), inputs[..n]), Moments(cfg, start, inputs[..n]);
      SessionTracksWhatItPasses(cfg, start, inputs[..n]);
      StepTracks(cfg, s, inputs[n]);
      TrackedOneMore(h, Shows(cfg, s, inputs[n]), cfg.trackerAge);
    }
  }
}
