/** What the charger receives of what the Central System says. */
module SessionDownstream {
  import opened Session

  /** A text from the Central System that the charger connection takes. */
  predicate Takes(cfg: Config, s: State, i: Input) {
    Enabled(cfg, s, i) && i.event.CentralText? && i.event.alive
  }

  /** The texts the Central System sent while the charger was there, in order. */
  function Said(cfg: Config, s: State, inputs: seq<Input>): seq<string> {
    if inputs == [] then []
    else
      var n := |inputs| - 1;
      var i := inputs[n];
      Said(cfg, s, inputs[..n]) + (if Takes(cfg, Run(cfg, s, inputs[..n]), i) then [i.event.text.Raw()] else [])
  }

  lemma StepHears(cfg: Config, s: State, i: Input)
    ensures Step(cfg, s, i).heard == s.heard + (if Takes(cfg, s, i) then [i.event.text.Raw()] else [])
  {}

  /** The charger hears everything the Central System says while connected, byte for
      byte, in order and once, parseable or not, whatever the proxy does on its own. */
  lemma {:induction false} ChargerHearsWhatIsSaid(cfg: Config, start: real, inputs: seq<Input>)
    ensures Run(cfg, Init(cfg, start), inputs).heard == Said(cfg, Init(cfg, start), inputs)
  {
    if inputs != [] {
      var n := |inputs| - 1;
      ChargerHearsWhatIsSaid(cfg, start, inputs[..n]);
      StepHears(cfg, Run(cfg, Init(cfg, start), inputs[..n]), inputs[n]);
    }
  }
}
