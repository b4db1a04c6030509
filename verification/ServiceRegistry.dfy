/** registry.rs: `service -> entry`, with a generation counter behind its own lock. */
module ServiceRegistry {
  import opened Prelude
  import opened Frames

  /** One registered connection; `tx` identifies the outbound channel of that connection. */
  datatype ServiceEntry = ServiceEntry(
    service: string,
    generation: nat,
    tx: nat,
    methods: seq<MethodDecl>,
    pid: nat,
    dataPlane: Option<DataPlaneSocket>)

  datatype RegistryState = RegistryState(entries: map<string, ServiceEntry>, nextGen: nat)

  const EMPTY_REGISTRY := RegistryState(map[], 0)

  /** First half of `insert`: the counter moves under its lock, which is then released. */
  function TakeGeneration(r: RegistryState): RegistryState {
    r.(nextGen := r.nextGen + 1)
  }

  /** Second half of `insert`: the map write, replacing whatever entry the service had. */
  function PutEntry(r: RegistryState, e: ServiceEntry): RegistryState {
    r.(entries := r.entries[e.service := e])
  }

  predicate IsCurrent(r: RegistryState, service: string, generation: nat) {
    service in r.entries && r.entries[service].generation == generation
  }

  function RemoveIf(r: RegistryState, service: string, generation: nat): RegistryState {
    if IsCurrent(r, service, generation) then r.(entries := r.entries - {service}) else r
  }

  // ----- the registry itself --------------------------------------------------------------------------

  /** `insert` is two operations under two locks, so that another task may run between them. */
  class Registry {
    var entries: map<string, ServiceEntry>
    var nextGen: nat

    ghost function State(): RegistryState
      reads this
    {
      RegistryState(entries, nextGen)
    }

    constructor ()
      ensures State() == EMPTY_REGISTRY
    {
      entries, nextGen := map[], 0;
    }

    method DrawGeneration() returns (generation: nat)
      modifies this`nextGen
      ensures State() == TakeGeneration(old(State())) && generation == nextGen
    {
      nextGen := nextGen + 1;
      generation := nextGen;
    }

    method Store(e: ServiceEntry)
      modifies this`entries
      ensures State() == PutEntry(old(State()), e)
    {
      entries := entries[e.service := e];
    }

    /** `insert`, when nothing runs in between. */
    method Insert(e: ServiceEntry) returns (generation: nat)
      modifies this
      ensures State() == PutEntry(TakeGeneration(old(State())), e.(generation := generation))
      ensures generation == old(nextGen) + 1 && IsCurrent(State(), e.service, generation)
    {
      generation := DrawGeneration();
      Store(e.(generation := generation));
    }

    method Get(service: string) returns (r: Option<ServiceEntry>)
      ensures r == if service in entries then Some(entries[service]) else None
    {
      r := if service in entries then Some(entries[service]) else None;
    }

    /** Removes the entry only while it still carries the given generation. */
    method RemoveEntryIf(service: string, generation: nat) returns (removed: bool)
      modifies this`entries
      ensures removed == IsCurrent(old(State()), service, generation)
      ensures State() == RemoveIf(old(State()), service, generation)
    {
      removed := service in entries && entries[service].generation == generation;
      if removed {
        entries := entries - {service};
      }
    }
  }
}
