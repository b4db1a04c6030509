/** broker.rs: the broker object. Every method is a short sequence of the map operations the bus interleaves. */
module BrokerOps {
  import opened Prelude
  import opened Frames
  import opened ServiceRegistry
  import opened BrokerTables
  import opened Tokens

  /** Where the next step of a call leads: to an in-process handler, or over the wire to a session. */
  datatype Route = Local | Remote(entry: ServiceEntry, session: nat)

  /** The checks of `call_with_timeout` before anything is sent. */
  function Resolve(b: Tables, r: RegistryState, service: string, methodName: string, caller: CallerCtx)
    : (route: Result<Route, BusError>)
  {
    if service in b.localServices then
      if service in b.localMethods && !Admissible(b.localMethods[service], methodName, caller)
      then Err(GateError(service, b.localMethods[service], methodName))
      else Ok(Local)
    else if service !in r.entries then Err(ServiceNotFound(service))
    else
      var e := r.entries[service];
      if !Admissible(e.methods, methodName, caller) then Err(GateError(service, e.methods, methodName))
      else if SessionKey(service, e.generation) !in b.sessions then Err(ServiceNotFound(service))
      else Ok(Remote(e, b.sessions[SessionKey(service, e.generation)]))
  }

  /** The sends of one fan-out: the connection of every target that is registered when its turn comes, in order. */
  function Sends(r: RegistryState, order: seq<string>): (txs: seq<nat>) {
    if order == [] then []
    else (if order[0] in r.entries then [r.entries[order[0]].tx] else []) + Sends(r, order[1..])
  }

  // ----- which answer a call must get -----------------------------------------------------------------------

  /** The catalog that decides about calls of the service: the local one before the registered one. */
  function Catalog(b: Tables, r: RegistryState, service: string): Option<seq<MethodDecl>> {
    if service in b.localServices then
      if service in b.localMethods then Some(b.localMethods[service]) else None
    else if service in r.entries then Some(r.entries[service].methods)
    else None
  }

  /** A service that is neither local nor registered. */
  predicate Unknown(b: Tables, r: RegistryState, service: string) {
    service !in b.localServices && service !in r.entries
  }

  /** A registered, not local, service has no session under the generation of its entry. */
  predicate Detached(b: Tables, r: RegistryState, service: string) {
    && service !in b.localServices && service in r.entries
    && SessionKey(service, r.entries[service].generation) !in b.sessions
  }

  /**
   * An undeclared method is `MethodNotFound`, a missing user `Unauthorized`, an unknown service or one without a
   * session `ServiceNotFound`; any other call goes to the local handler or to the session of the registered generation.
   */
  ghost predicate Answers(b: Tables, r: RegistryState, service: string, methodName: string, caller: CallerCtx,
                          route: Result<Route, BusError>) {
    var ms := Catalog(b, r, service);
    && (route == Err(MethodNotFound(service, methodName)) <==> ms.Some? && !Declares(ms.value, methodName))
    && (route == Err(Unauthorized(service, methodName)) <==>
          ms.Some? && NeedsUser(ms.value, methodName) && caller.userId.None?)
    && (route == Err(ServiceNotFound(service)) <==>
          || Unknown(b, r, service)
          || (Detached(b, r, service) && Admits(r.entries[service].methods, methodName, caller)))
    && (route == Ok(Local) <==>
          service in b.localServices && (ms.Some? ==> Admits(ms.value, methodName, caller)))
    && (route.Ok? && route.value.Remote? <==>
          && service !in b.localServices && service in r.entries && !Detached(b, r, service)
          && Admits(r.entries[service].methods, methodName, caller))
    && (route.Ok? && route.value.Remote? ==>
          && route.value.entry == r.entries[service]
          && route.value.session == b.sessions[SessionKey(service, r.entries[service].generation)])
  }

  lemma ResolveExactly(b: Tables, r: RegistryState, service: string, methodName: string, caller: CallerCtx)
    ensures Answers(b, r, service, methodName, caller, Resolve(b, r, service, methodName, caller))
  {
    var ms := Catalog(b, r, service);
    if ms.Some? {
      GateExactly(service, ms.value, methodName, caller);
      NeedsDeclaration(ms.value, methodName);
    }
  }

  lemma NeedsDeclaration(methods: seq<MethodDecl>, name: string)
    ensures NeedsUser(methods, name) ==> Declares(methods, name)
  {
  }

  class Broker {
    const registry: Registry
    var tokens: map<string, string>
    var sessions: map<SessionKey, nat>
    var subscriptions: map<string, set<string>>
    var capabilities: map<string, Cached>
    var localServices: set<string>
    var localMethods: map<string, seq<MethodDecl>>
    var nextClientId: nat
    var tokenCounter: nat

    ghost function State(): Tables
      reads this
    {
      Tables(tokens, sessions, subscriptions, capabilities, localServices, localMethods, nextClientId)
    }

    constructor ()
      ensures State() == EMPTY_TABLES && fresh(registry) && registry.State() == EMPTY_REGISTRY && tokenCounter == 0
    {
      registry := new Registry();
      tokens, sessions, subscriptions, capabilities := map[], map[], map[], map[];
      localServices, localMethods, nextClientId, tokenCounter := {}, map[], 1, 0;
    }

    /** `issue_token`: the newest token of a service replaces the one before. */
    method IssueToken(service: string, ns: nat, pid: nat) returns (token: string)
      modifies this`tokens, this`tokenCounter
      ensures token == TokenString(ns, pid, old(tokenCounter)) && tokenCounter == old(tokenCounter) + 1
      ensures State() == old(State()).(tokens := old(tokens)[service := token]) && TokenMatches(State(), service, token)
    {
      token := TokenString(ns, pid, tokenCounter);
      tokenCounter := tokenCounter + 1;
      tokens := tokens[service := token];
    }

    /** `consume_token`: whatever was stored is gone afterwards, matching or not. */
    method ConsumeToken(service: string, token: string) returns (ok: bool)
      modifies this`tokens
      ensures ok == TokenMatches(old(State()), service, token) && State() == SpendToken(old(State()), service)
      ensures service !in tokens
    {
      ok := service in tokens && tokens[service] == token;
      tokens := tokens - {service};
    }

    method DrawClientId() returns (id: nat)
      modifies this`nextClientId
      ensures id == old(nextClientId) && State() == old(State()).(nextClientId := id + 1)
    {
      id := nextClientId;
      nextClientId := nextClientId + 1;
    }

    /** The catalog goes in first, so that a visible handler always has one. */
    method RegisterLocalService(service: string, methods: seq<MethodDecl>)
      requires localServices <= localMethods.Keys
      modifies this`localMethods, this`localServices
      ensures State() == old(State()).(localMethods := old(localMethods)[service := methods],
                                       localServices := old(localServices) + {service})
      ensures localServices <= localMethods.Keys
    {
      localMethods := localMethods[service := methods];
      localServices := localServices + {service};
    }

    method AttachSession(service: string, generation: nat, pendingOut: nat)
      modifies this`sessions
      ensures State() == old(State()).(sessions := old(sessions)[SessionKey(service, generation) := pendingOut])
    {
      sessions := sessions[SessionKey(service, generation) := pendingOut];
    }

    /** `detach_session`: the capabilities go too, unless another generation has been registered meanwhile. */
    method DetachSession(service: string, generation: nat)
      modifies this`sessions, this`capabilities
      ensures sessions == old(sessions) - {SessionKey(service, generation)}
      ensures capabilities == if service in registry.entries && !IsCurrent(registry.State(), service, generation)
                              then old(capabilities) else old(capabilities) - {service}
    {
      sessions := sessions - {SessionKey(service, generation)};
      var entry := registry.Get(service);
      if entry.None? || entry.value.generation == generation {
        capabilities := capabilities - {service};
      }
    }

    /** The end of a capability probe. */
    method StoreCapabilities(service: string, generation: nat, caps: Capabilities, probe: nat)
      modifies this`capabilities
      ensures capabilities == if IsCurrent(registry.State(), service, generation)
                              then old(capabilities)[service := Cached(caps, probe)] else old(capabilities)
    {
      var entry := registry.Get(service);
      if entry.Some? && entry.value.generation == generation {
        capabilities := capabilities[service := Cached(caps, probe)];
      }
    }

    method Subscribe(service: string, prefix: string)
      modifies this`subscriptions
      ensures State() == AddSubscription(old(State()), service, prefix)
    {
      var held := if service in subscriptions then subscriptions[service] else {};
      subscriptions := subscriptions[service := held + {prefix}];
    }

    method Unsubscribe(service: string, prefix: string)
      modifies this`subscriptions
      ensures State() == DropSubscription(old(State()), service, prefix)
    {
      if service in subscriptions {
        subscriptions := subscriptions[service := subscriptions[service] - {prefix}];
      }
    }

    /** `prefixes.iter().any(..)`. */
    method AnyPrefix(prefixes: set<string>, topic: string) returns (found: bool)
      ensures found == Wants(prefixes, topic)
    {
      var rest := prefixes;
      found := false;
      while rest != {} && !found
        invariant rest <= prefixes && (found ==> Wants(prefixes, topic))
        invariant forall p :: p in prefixes && p <= topic ==> p in rest || found
        decreases rest, !found
      {
        var p :| p in rest;
        if p <= topic {
          found := true;
        } else {
          rest := rest - {p};
        }
      }
    }

    /** First half of `fanout`: the targets, each once, in some order of the map. */
    method CollectTargets(from: string, topic: string) returns (order: seq<string>)
      ensures forall svc :: svc in order <==> svc in Targets(State(), from, topic)
      ensures forall a, b :: 0 <= a < b < |order| ==> order[a] != order[b]
    {
      var rest := subscriptions.Keys;
      order := [];
      while rest != {}
        invariant rest <= subscriptions.Keys
        invariant forall svc :: svc in order <==> svc in Targets(State(), from, topic) && svc !in rest
        invariant forall a, b :: 0 <= a < b < |order| ==> order[a] != order[b]
        decreases rest
      {
        var svc :| svc in rest;
        var wanted := AnyPrefix(subscriptions[svc], topic);
        if svc != from && wanted {
          order := order + [svc];
        }
        rest := rest - {svc};
      }
    }

    /** `fanout`: returns the connections the stamped event was sent to, in order. */
    method Fanout(from: string, event: Event) returns (stamped: Event, order: seq<string>, txs: seq<nat>)
      ensures stamped == event.(from := Some(from))
      ensures forall svc :: svc in order <==> svc in Targets(State(), from, event.topic)
      ensures forall a, b :: 0 <= a < b < |order| ==> order[a] != order[b]
      ensures txs == Sends(registry.State(), order)
    {
      stamped := event.(from := Some(from));
      order := CollectTargets(from, event.topic);
      txs := [];
      for i := 0 to |order|
        invariant txs + Sends(registry.State(), order[i..]) == Sends(registry.State(), order)
      {
        ghost var rest := Sends(registry.State(), order[i..]);
        assert order[i..][1..] == order[i + 1..];
        var entry := registry.Get(order[i]);
        if entry.Some? {
          assert txs + rest == (txs + [entry.value.tx]) + rest[1..];
          txs := txs + [entry.value.tx];
        }
      }
    }

    /** The checks of `call_with_timeout`, in its order. */
    method ResolveCall(service: string, methodName: string, caller: CallerCtx) returns (route: Result<Route, BusError>)
      ensures route == Resolve(State(), registry.State(), service, methodName, caller)
      ensures Answers(State(), registry.State(), service, methodName, caller, route)
    {
      ResolveExactly(State(), registry.State(), service, methodName, caller);
      if service in localServices {
        if service in localMethods {
          var decl := FindDecl(localMethods[service], methodName);
          if decl.None? {
            return Err(MethodNotFound(service, methodName));
          }
          if decl.value.requiresAuth && caller.userId.None? {
            return Err(Unauthorized(service, methodName));
          }
        }
        return Ok(Local);
      }
      var entry := registry.Get(service);
      if entry.None? {
        return Err(ServiceNotFound(service));
      }
      var decl := FindDecl(entry.value.methods, methodName);
      if decl.None? {
        return Err(MethodNotFound(service, methodName));
      }
      if decl.value.requiresAuth && caller.userId.None? {
        return Err(Unauthorized(service, methodName));
      }
      var key := SessionKey(service, entry.value.generation);
      if key !in sessions {
        return Err(ServiceNotFound(service));
      }
      route := Ok(Remote(entry.value, sessions[key]));
    }
  }

  // ----- what these operations mean together ---------------------------------------------------------------

  /** Subscribing adds exactly the topics that start with the prefix; unsubscribing takes back one prefix. */
  lemma SubscriptionChanges(b: Tables, service: string, prefix: string, from: string, topic: string)
    requires from != service
    ensures service in Targets(AddSubscription(b, service, prefix), from, topic)
       <==> prefix <= topic || service in Targets(b, from, topic)
    ensures service in Targets(DropSubscription(b, service, prefix), from, topic)
       <==> service in b.subscriptions && Wants(b.subscriptions[service] - {prefix}, topic)
    ensures forall svc :: svc != service ==>
              (svc in Targets(AddSubscription(b, service, prefix), from, topic) <==> svc in Targets(b, from, topic))
  {
  }

  /** A fan-out over distinct targets sends once for every registered one and to nobody else. */
  lemma {:induction false} SendsAreRegistered(r: RegistryState, order: seq<string>)
    requires forall a, b :: 0 <= a < b < |order| ==> order[a] != order[b]
    ensures |Sends(r, order)| == |set svc | svc in order && svc in r.entries|
    ensures forall tx :: tx in Sends(r, order) <==>
              exists svc :: svc in order && svc in r.entries && r.entries[svc].tx == tx
  {
    if order != [] {
      var first, rest := order[0], order[1..];
      SendsAreRegistered(r, rest);
      assert forall svc :: svc in order <==> svc == first || svc in rest;
      var before, after := set svc | svc in rest && svc in r.entries, set svc | svc in order && svc in r.entries;
      assert after == if first in r.entries then before + {first} else before;
    }
  }
}
