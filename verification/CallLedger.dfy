/**
 A whole call, from the recorder's numbering to the server's ledger: every drain is accounted for.
 */
module CallLedger {
  import opened Wrappers
  import opened RecorderModel
  import T = TransportModel
  import opened TransportLedger
  import opened TransportShape
  import opened GapFree
  import opened DeliveryGuarantees
  import opened SilentLoss
  import opened EndToEnd

  /** What the events of a call feed to the transport. */
  function Inputs(config: Config, limits: T.Limits, events: seq<Event>): seq<T.Input> {
    if events == [] then []
    else
      var before := events[..|events| - 1];
      var fed := Fed(Session(config, limits, before), events[|events| - 1]);
      Inputs(config, limits, before) + if fed.Some? then [fed.value] else []
  }

  /** The recorder's numbering makes every call a disciplined run of the transport. */
  lemma {:induction false} CallIsRun(config: Config, limits: T.Limits, events: seq<Event>)
    requires limits.Positive()
    ensures Session(config, limits, events).transport == T.Run(limits, Inputs(config, limits, events))
    ensures DisciplinedRun(limits, Inputs(config, limits, events))
  {
    hide Next, Good, Agreed, Unnumbered, Disciplined, Fed, T.Step;
    if events != [] {
      var before, event := events[..|events| - 1], events[|events| - 1];
      var s := Session(config, limits, before);
      CallIsRun(config, limits, before);
      LossIsConserved(config, limits, before);
      SessionIsGapFree(config, limits, before, "");
      NextAgrees(s, event);
      var inputs := Inputs(config, limits, before);
      if Fed(s, event).Some? {
        assert (inputs + [Fed(s, event).value])[..|inputs|] == inputs;
      } else {
        assert inputs + [] == inputs;
      }
    }
  }

  /**
   In every call, each of the recorder's drains up to the newest acknowledged one is acknowledged
   or declared missing, and never both, unless its only `send` was refused for its authorization context.
   */
  lemma EveryDrainAccountedFor(config: Config, limits: T.Limits, events: seq<Event>, q: int)
    requires limits.Positive()
    requires 1 <= q <= Top(Session(config, limits, events).transport.log.accepted, config.session)
    requires !LostAtSend(limits, Inputs(config, limits, events), config.session, q)
    ensures var accepted := Session(config, limits, events).transport.log.accepted;
            Acknowledged(accepted, config.session, q) != DeclaredMissing(accepted, config.session, q)
  {
    CallIsRun(config, limits, events);
    hide Session, T.Run, Acknowledged, DeclaredMissing, LostAtSend, Inputs;
    NoSilentLossButMismatch(limits, Inputs(config, limits, events), config.session, q);
  }
}
