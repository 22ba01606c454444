/** The bus and the projector give the same answers. */
module Agreement {
  import MessageBus
  import opened Reachability
  import opened StateProjector

  /** Asked about two different units, the bus's search and the projector's cached one answer alike, whatever has been
      asked and evicted before, as long as the bus's units mirror the engine's and no other topology has its
      fingerprint. */
  method AskBoth(bus: MessageBus.MessageBus, projector: Projector, engine: nat, topology: Topology, sender: string,
                 recipient: string, stateRevision: nat)
    returns (byBus: bool, byProjector: bool)
    requires projector.Valid() && Mirrors(bus.units, topology) && projector.Distinguished(topology)
    requires sender != "" && recipient != "" && sender != recipient
    modifies projector
    ensures projector.Valid()
    ensures byBus == byProjector == Connected(GraphOf(topology), sender, recipient)
  {
    byBus := bus.CanCommunicate(sender, recipient);
    byProjector := projector.DirectedReachable(engine, topology, sender, recipient, stateRevision);
    ImplementationsAgree(bus.units, topology, sender, recipient);
  }
}
