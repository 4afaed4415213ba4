/** What the Central System receives of what the charger says, across any number
    of reconnects. */
module SessionUpstream {
  import opened Prelude
  import opened Commands
  import opened LocalCalls
  import opened Forwarding
  import opened Session

  function DeliveredSources(delivered: seq<Delivery>): seq<nat> {
    seq(|delivered|, i requires 0 <= i < |delivered| => delivered[i].source)
  }

  function BufferedSources(buffer: seq<Buffered>): seq<nat> {
    seq(|buffer|, i requires 0 <= i < |buffer| => buffer[i].source)
  }

  /** Positions, among the texts read, of what was delivered and then of what
      waits to be. */
  function Order(p: Pipe): seq<nat> {
    DeliveredSources(p.delivered) + BufferedSources(p.buffer)
  }

  predicate Ascending(s: seq<nat>) {
    forall i, j :: 0 <= i < j < |s| ==> s[i] < s[j]
  }

  predicate Faithful(p: Pipe) {
    && (forall i :: 0 <= i < |p.delivered| ==>
          var d := p.delivered[i];
          d.source < |p.read| && d.raw == p.read[d.source].Raw() && d.counted == p.read[d.source].Parsed?)
    && (forall i :: 0 <= i < |p.buffer| ==>
          p.buffer[i].source < |p.read| && p.read[p.buffer[i].source] == Parsed(p.buffer[i].frame))
  }

  predicate Undelivered(p: Pipe, k: nat) {
    k in p.answers || k in p.idle || k in p.failed
  }

  predicate Below(s: set<nat>, n: nat) {
    forall k :: k in s ==> k < n
  }

  /** Every text read has exactly one fate. */
  predicate Accounted(p: Pipe) {
    && (forall k :: 0 <= k < |p.read| ==> (k in Order(p) <==> !Undelivered(p, k)))
    && Below(p.answers, |p.read|) && Below(p.idle, |p.read|) && Below(p.failed, |p.read|)
    && p.answers !! p.idle && p.answers !! p.failed && p.idle !! p.failed
    && (forall k :: k in p.failed && k < |p.read| ==> p.read[k].Malformed?)
  }

  predicate IsCounted(d: Delivery) {
    d.counted
  }

  predicate PipeInv(p: Pipe) {
    && Ascending(Order(p))
    && Faithful(p)
    && Accounted(p)
    && |p.buffer| <= 1
    && p.counter == |Filter(IsCounted, p.delivered)|
  }

  predicate UpstreamInv(s: State) {
    PipeInv(s.pipe) && (s.phase.Forwarding? ==> s.pipe.buffer == [])
  }

  lemma CountAppend(delivered: seq<Delivery>, d: Delivery)
    ensures |Filter(IsCounted, delivered + [d])| == |Filter(IsCounted, delivered)| + (if d.counted then 1 else 0)
  {
    assert (delivered + [d])[..|delivered|] == delivered;
  }

  /** A text was read and set aside for one of the three reasons. */
  lemma SetAsideKeeps(p: Pipe, p': Pipe, text: Text)
    requires PipeInv(p)
    requires p'.read == p.read + [text] && p'.buffer == p.buffer
    requires p'.delivered == p.delivered && p'.counter == p.counter
    requires var k := |p.read|;
             || (p'.answers == p.answers + {k} && p'.idle == p.idle && p'.failed == p.failed)
             || (p'.answers == p.answers && p'.idle == p.idle + {k} && p'.failed == p.failed)
             || (p'.answers == p.answers && p'.idle == p.idle && p'.failed == p.failed + {k} && text.Malformed?)
    ensures PipeInv(p')
  {
    assert Order(p') == Order(p);
    OrderBelow(p);
    forall k | 0 <= k < |p'.read| ensures k in Order(p') <==> !Undelivered(p', k) {
      assert k < |p.read| ==> (k in Order(p) <==> !Undelivered(p, k));
    }
  }

  lemma OrderBelow(p: Pipe)
    requires Faithful(p)
    ensures forall k :: k in Order(p) ==> k < |p.read|
  {}

  /** A text was read and its position put at the end of the order. */
  lemma AppendedIsAccounted(p: Pipe, p': Pipe, text: Text)
    requires Accounted(p) && Faithful(p) && Ascending(Order(p))
    requires p'.read == p.read + [text] && Order(p') == Order(p) + [|p.read|]
    requires p'.answers == p.answers && p'.idle == p.idle && p'.failed == p.failed
    ensures Accounted(p') && Ascending(Order(p'))
  {
    OrderBelow(p);
    assert Order(p')[|Order(p)|] == |p.read|;
    forall k | 0 <= k < |p'.read| ensures k in Order(p') <==> !Undelivered(p', k) {
      assert k < |p.read| ==> (k in Order(p) <==> !Undelivered(p, k));
    }
  }

  /** A text was read and delivered; nothing was waiting. */
  lemma DeliveredKeeps(p: Pipe, p': Pipe, text: Text)
    requires PipeInv(p) && p.buffer == [] && p'.buffer == []
    requires p'.read == p.read + [text]
    requires p'.answers == p.answers && p'.idle == p.idle && p'.failed == p.failed
    requires p'.delivered == p.delivered + [Delivery(text.Raw(), |p.read|, text.Parsed?)]
    requires p'.counter == p.counter + (if text.Parsed? then 1 else 0)
    ensures PipeInv(p')
  {
    assert Order(p') == Order(p) + [|p.read|];
    AppendedIsAccounted(p, p', text);
    CountAppend(p.delivered, Delivery(text.Raw(), |p.read|, text.Parsed?));
    DeliveredIsFaithful(p, p', text);
  }

  lemma DeliveredIsFaithful(p: Pipe, p': Pipe, text: Text)
    requires Faithful(p) && p'.buffer == [] && p'.read == p.read + [text]
    requires p'.delivered == p.delivered + [Delivery(text.Raw(), |p.read|, text.Parsed?)]
    ensures Faithful(p')
  {
    forall i | 0 <= i < |p'.delivered|
      ensures var d := p'.delivered[i];
              d.source < |p'.read| && d.raw == p'.read[d.source].Raw() && d.counted == p'.read[d.source].Parsed?
    {
      assert i < |p.delivered| ==> p'.delivered[i] == p.delivered[i];
    }
  }

  /** A frame was read and buffered; nothing was waiting. */
  lemma BufferedKeeps(p: Pipe, p': Pipe, text: Text)
    requires PipeInv(p) && p.buffer == [] && text.Parsed?
    requires p'.read == p.read + [text]
    requires p'.answers == p.answers && p'.idle == p.idle && p'.failed == p.failed
    requires p'.delivered == p.delivered && p'.counter == p.counter
    requires |p'.buffer| == 1 && p'.buffer[0].frame == text.frame && p'.buffer[0].source == |p.read|
    ensures PipeInv(p')
  {
    assert Order(p') == Order(p) + [|p.read|];
    AppendedIsAccounted(p, p', text);
  }

  /** Replaying a prefix of the buffer moves it across without reordering. A
      buffer of one frame is replayed whole or not at all. */
  lemma ConnectKeeps(cfg: Config, s: State, accepts: nat)
    requires UpstreamInv(s)
    ensures UpstreamInv(OnConnectOk(cfg, s, accepts))
  {
    var p, p' := s.pipe, OnConnectOk(cfg, s, accepts).pipe;
    if |p.buffer| == 1 && accepts > 0 {
      assert Replayed(p.buffer[..1]) == [Delivery(p.buffer[0].frame.raw, p.buffer[0].source, true)];
      ReplayKeeps(p, p');
    } else {
      assert p'.delivered == p.delivered && p'.buffer == p.buffer;
      CarriedOver(p, p');
    }
  }

  lemma ReplayKeeps(p: Pipe, p': Pipe)
    requires PipeInv(p) && |p.buffer| == 1
    requires p' == p.(buffer := [], counter := p.counter + 1,
                      delivered := p.delivered + [Delivery(p.buffer[0].frame.raw, p.buffer[0].source, true)])
    ensures PipeInv(p')
  {
    assert Order(p') == Order(p);
    CountAppend(p.delivered, Delivery(p.buffer[0].frame.raw, p.buffer[0].source, true));
    forall k | 0 <= k < |p'.read| ensures k in Order(p') <==> !Undelivered(p', k) {
      assert k in Order(p) <==> !Undelivered(p, k);
    }
  }

  lemma CarriedOver(p: Pipe, p': Pipe)
    requires PipeInv(p)
    requires p'.read == p.read && p'.buffer == p.buffer && p'.delivered == p.delivered && p'.counter == p.counter
    requires p'.answers == p.answers && p'.idle == p.idle && p'.failed == p.failed
    ensures PipeInv(p')
  {
    assert Order(p') == Order(p);
    forall k | 0 <= k < |p'.read| ensures k in Order(p') <==> !Undelivered(p', k) {
      assert k in Order(p) <==> !Undelivered(p, k);
    }
  }

  lemma ChargerTextKeeps(cfg: Config, s: State, text: Text, upOk: bool, alive: bool)
    requires UpstreamInv(s) && s.phase.Forwarding?
    ensures UpstreamInv(OnChargerText(cfg, s, text, upOk, alive))
  {
    var p, p' := s.pipe, OnChargerText(cfg, s, text, upOk, alive).pipe;
    if AnswersProxy(s, text) || (!upOk && text.Malformed?) {
      SetAsideKeeps(p, p', text);
    } else if upOk {
      DeliveredKeeps(p, p', text);
    } else {
      BufferedKeeps(p, p', text);
    }
  }

  predicate MovesTexts(e: Event) {
    e.ChargerText? || e.ConnectOk? || e.Housekeeping?
  }

  lemma OthersMoveNothing(cfg: Config, s: State, e: Event)
    requires !MovesTexts(e)
    ensures var s' := Act(cfg, s, e);
            && s'.pipe == s.pipe.(tracker := s'.pipe.tracker)
            && (s'.phase.Forwarding? ==> s.phase.Forwarding?)
  {}

  lemma StepKeepsUpstream(cfg: Config, s: State, i: Input)
    requires UpstreamInv(s)
    ensures UpstreamInv(Step(cfg, s, i))
  {
    if Enabled(cfg, s, i) {
      var t := s.(now := i.at);
      if MovesTexts(i.event) {
        MovingTextsKeeps(cfg, t, i.event);
      } else {
        OthersMoveNothing(cfg, t, i.event);
        CarriedOver(t.pipe, Act(cfg, t, i.event).pipe);
      }
    }
  }

  lemma MovingTextsKeeps(cfg: Config, s: State, e: Event)
    requires UpstreamInv(s) && MovesTexts(e) && (e.Housekeeping? ==> s.phase.Forwarding?)
    ensures UpstreamInv(Act(cfg, s, e))
  {
    match e
    case ChargerText(text, upOk, alive) =>
      if s.phase.Forwarding? {
        ChargerTextKeeps(cfg, s, text, upOk, alive);
      } else {
        SetAsideKeeps(s.pipe, OnIdleText(s, text).pipe, text);
      }
    case ConnectOk(accepts) => ConnectKeeps(cfg, s, accepts);
    case Housekeeping => CarriedOver(s.pipe, OnHousekeeping(cfg, s).pipe);
  }

  lemma {:induction false} RunKeepsUpstream(cfg: Config, start: real, inputs: seq<Input>)
    ensures UpstreamInv(Run(cfg, Init(cfg, start), inputs))
  {
    if inputs != [] {
      RunKeepsUpstream(cfg, start, inputs[..|inputs| - 1]);
      StepKeepsUpstream(cfg, Run(cfg, Init(cfg, start), inputs[..|inputs| - 1]), inputs[|inputs| - 1]);
    }
  }

  // ---- main results ----

  /** Whatever the Central System receives is, byte for byte, a text read from the
      charger, and none that answered a proxy Call when it was read. */
  lemma DeliveryIsVerbatim(cfg: Config, start: real, inputs: seq<Input>, a: nat)
    requires a < |Run(cfg, Init(cfg, start), inputs).pipe.delivered|
    ensures var p := Run(cfg, Init(cfg, start), inputs).pipe;
            && p.delivered[a].source < |p.read|
            && p.delivered[a].raw == p.read[p.delivered[a].source].Raw()
            && p.delivered[a].source !in p.answers
  {
    RunKeepsUpstream(cfg, start, inputs);
    var p := Run(cfg, Init(cfg, start), inputs).pipe;
    assert Order(p)[a] == p.delivered[a].source;
    assert p.delivered[a].source in Order(p);
    assert !Undelivered(p, p.delivered[a].source);
  }

  /** Across all reconnects the deliveries keep the order of reading, and no text
      is delivered twice. */
  lemma DeliveryKeepsOrder(cfg: Config, start: real, inputs: seq<Input>, a: nat, b: nat)
    requires a < b < |Run(cfg, Init(cfg, start), inputs).pipe.delivered|
    ensures var p := Run(cfg, Init(cfg, start), inputs).pipe;
            p.delivered[a].source < p.delivered[b].source
  {
    RunKeepsUpstream(cfg, start, inputs);
    var p := Run(cfg, Init(cfg, start), inputs).pipe;
    assert Order(p)[a] == p.delivered[a].source && Order(p)[b] == p.delivered[b].source;
  }

  function ReadTexts(read: seq<Text>): seq<string> {
    seq(|read|, i requires 0 <= i < |read| => read[i].Raw())
  }

  function DeliveredTexts(delivered: seq<Delivery>): seq<string> {
    seq(|delivered|, i requires 0 <= i < |delivered| => delivered[i].raw)
  }

  lemma {:induction false} AscendingPicksSubsequence(all: seq<string>, sources: seq<nat>, picked: seq<string>)
    requires Ascending(sources) && |picked| == |sources|
    requires forall i :: 0 <= i < |sources| ==> sources[i] < |all| && picked[i] == all[sources[i]]
    ensures Subsequence(picked, all)
    decreases |all|
  {
    if |picked| > 0 {
      var n, m := |all| - 1, |picked| - 1;
      if sources[m] == n {
        AscendingPicksSubsequence(all[..n], sources[..m], picked[..m]);
      } else {
        forall i | 0 <= i < |sources| ensures sources[i] < n {
          assert i < m ==> sources[i] < sources[m];
        }
        AscendingPicksSubsequence(all[..n], sources, picked);
      }
    }
  }

  lemma PipeInvPicks(p: Pipe)
    requires PipeInv(p)
    ensures Subsequence(DeliveredTexts(p.delivered), ReadTexts(p.read))
  {
    var sources := DeliveredSources(p.delivered);
    forall i, j | 0 <= i < j < |sources| ensures sources[i] < sources[j] {
      assert Order(p)[i] == sources[i] && Order(p)[j] == sources[j];
    }
    AscendingPicksSubsequence(ReadTexts(p.read), sources, DeliveredTexts(p.delivered));
  }

  /** The same without positions: what is delivered is a subsequence of what was
      read, as plain texts. */
  lemma DeliveredIsSubsequenceOfRead(cfg: Config, start: real, inputs: seq<Input>)
    ensures var p := Run(cfg, Init(cfg, start), inputs).pipe;
            Subsequence(DeliveredTexts(p.delivered), ReadTexts(p.read))
  {
    RunKeepsUpstream(cfg, start, inputs);
    PipeInvPicks(Run(cfg, Init(cfg, start), inputs).pipe);
  }

  /** What no later input can change about a text already read. */
  predicate SameFates(p: Pipe, p': Pipe) {
    && |p.read| <= |p'.read|
    && forall k :: 0 <= k < |p.read| ==>
         && (k in p'.answers <==> k in p.answers) && (k in p'.idle <==> k in p.idle)
         && (k in p'.failed <==> k in p.failed)
  }

  lemma StepKeepsFates(cfg: Config, s: State, i: Input)
    ensures SameFates(s.pipe, Step(cfg, s, i).pipe)
  {
    if Enabled(cfg, s, i) && !MovesTexts(i.event) {
      OthersMoveNothing(cfg, s.(now := i.at), i.event);
    }
  }

  lemma {:induction false} RunKeepsFates(cfg: Config, s: State, inputs: seq<Input>)
    ensures SameFates(s.pipe, Run(cfg, s, inputs).pipe)
  {
    if inputs != [] {
      RunKeepsFates(cfg, s, inputs[..|inputs| - 1]);
      StepKeepsFates(cfg, Run(cfg, s, inputs[..|inputs| - 1]), inputs[|inputs| - 1]);
    }
  }

  lemma {:induction false} RunKeepsUpstreamFrom(cfg: Config, s: State, inputs: seq<Input>)
    requires UpstreamInv(s)
    ensures UpstreamInv(Run(cfg, s, inputs))
  {
    if inputs != [] {
      RunKeepsUpstreamFrom(cfg, s, inputs[..|inputs| - 1]);
      StepKeepsUpstream(cfg, Run(cfg, s, inputs[..|inputs| - 1]), inputs[|inputs| - 1]);
    }
  }

  /** How one text read decides the four fates. */
  lemma TextDecidesItsFate(cfg: Config, s: State, text: Text, upOk: bool, alive: bool)
    requires UpstreamInv(s) && (s.phase.Forwarding? || s.phase.Retrying?)
    ensures var k, p := |s.pipe.read|, Act(cfg, s, ChargerText(text, upOk, alive)).pipe;
            && |p.read| == k + 1
            && (k in p.idle <==> !s.phase.Forwarding?)
            && (k in p.answers <==> s.phase.Forwarding? && AnswersProxy(s, text))
            && (k in p.failed <==> s.phase.Forwarding? && !AnswersProxy(s, text) && text.Malformed? && !upOk)
  {
    var k := |s.pipe.read|;
    assert k !in s.pipe.answers && k !in s.pipe.idle && k !in s.pipe.failed;
  }

  /** Whether a text is kept is decided the moment it is read, by what a bystander
      could see: it is delivered, or buffered for the next connection, exactly if
      the session was forwarding, the text was not the answer to the proxy Call in
      flight, and it was a frame or its send succeeded. No later input undoes it. */
  lemma FateIsDecidedOnReading(cfg: Config, start: real, inputs: seq<Input>, i: Input, later: seq<Input>)
    requires i.event.ChargerText? && Enabled(cfg, Run(cfg, Init(cfg, start), inputs), i)
    ensures var s := Run(cfg, Init(cfg, start), inputs);
            var p := Run(cfg, Step(cfg, s, i), later).pipe;
            var text := i.event.text;
            && |s.pipe.read| < |p.read|
            && (|s.pipe.read| in Order(p) <==>
                  s.phase.Forwarding? && !AnswersProxy(s, text) && (i.event.upOk || text.Parsed?))
  {
    RunKeepsUpstream(cfg, start, inputs);
    var s := Run(cfg, Init(cfg, start), inputs);
    FateAfter(cfg, s, i, later);
  }

  lemma FateAfter(cfg: Config, s: State, i: Input, later: seq<Input>)
    requires UpstreamInv(s) && i.event.ChargerText? && Enabled(cfg, s, i)
    ensures var p := Run(cfg, Step(cfg, s, i), later).pipe;
            && |s.pipe.read| < |p.read|
            && (|s.pipe.read| in Order(p) <==>
                  s.phase.Forwarding? && !AnswersProxy(s, i.event.text) && (i.event.upOk || i.event.text.Parsed?))
  {
    TextDecidesItsFate(cfg, s.(now := i.at), i.event.text, i.event.upOk, i.event.alive);
    StepKeepsUpstream(cfg, s, i);
    RunKeepsUpstreamFrom(cfg, Step(cfg, s, i), later);
    RunKeepsFates(cfg, Step(cfg, s, i), later);
    assert |s.pipe.read| in Order(Run(cfg, Step(cfg, s, i), later).pipe)
      <==> !Undelivered(Run(cfg, Step(cfg, s, i), later).pipe, |s.pipe.read|);
  }

  /** The upstream buffer never holds more than one frame and none while
      forwarding, and the charger-to-central count is exactly the number of
      parsed frames delivered, replays included. */
  lemma ForwardedCountIsExact(cfg: Config, start: real, inputs: seq<Input>)
    ensures var s := Run(cfg, Init(cfg, start), inputs);
            && |s.pipe.buffer| <= 1
            && (s.phase.Forwarding? ==> s.pipe.buffer == [])
            && s.pipe.counter == |Filter(IsCounted, s.pipe.delivered)|
            && forall d :: d in s.pipe.delivered
                 ==> d.source < |s.pipe.read| && (d.counted <==> s.pipe.read[d.source].Parsed?)
  {
    RunKeepsUpstream(cfg, start, inputs);
  }

  /** A charger's answer to a Call the proxy sent is consumed exactly while that
      Call is in flight. Once it has timed out, its answer is passed on like any
      other frame, although the id carries the proxy's own prefix. */
  lemma LateAnswersReachTheCentralSystem(cfg: Config, start: real, inputs: seq<Input>, i: Input, k: nat)
    requires i.event.ChargerText? && i.event.text.Parsed? && !i.event.text.frame.messageType.Call? && i.event.upOk
    requires var s := Run(cfg, Init(cfg, start), inputs);
             && s.phase.Forwarding? && Enabled(cfg, s, i)
             && k < |s.desk.sent| && s.desk.sent[k].uniqueId == i.event.text.frame.uniqueId
    ensures var s := Run(cfg, Init(cfg, start), inputs);
            var p := Run(cfg, Init(cfg, start), inputs + [i]).pipe;
            && (|s.pipe.read| in p.answers <==> Ours(s.desk.calls, s.desk.sent[k].uniqueId))
            && p.delivered == s.pipe.delivered
                 + (if |s.pipe.read| in p.answers then [] else [Delivery(i.event.text.Raw(), |s.pipe.read|, true)])
  {
    RunKeepsUpstream(cfg, start, inputs);
    assert (inputs + [i])[..|inputs|] == inputs;
    assert |Run(cfg, Init(cfg, start), inputs).pipe.read| !in Run(cfg, Init(cfg, start), inputs).pipe.answers;
  }
}
