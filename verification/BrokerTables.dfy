/** broker.rs: the broker's tables and the single map operations on them. */
module BrokerTables {
  import opened Prelude
  import opened Frames
  import opened ServiceRegistry

  /** Capability set parsed from a probe's answer. */
  datatype Capabilities = Capabilities(version: string, methods: set<string>)

  /** A cached capability set; `storedBy` names the probe call that stored it and is never consulted by a step. */
  datatype Cached = Cached(caps: Capabilities, storedBy: nat)

  datatype SessionKey = SessionKey(service: string, generation: nat)

  /** `sessions` maps a (service, generation) key to the connection whose `pending_out` the handle shares. */
  datatype Tables = Tables(
    tokens: map<string, string>,
    sessions: map<SessionKey, nat>,
    subscriptions: map<string, set<string>>,
    capabilities: map<string, Cached>,
    localServices: set<string>,
    localMethods: map<string, seq<MethodDecl>>,
    nextClientId: nat)

  const EMPTY_TABLES := Tables(map[], map[], map[], map[], {}, map[], 1)

  /** Whether a token check succeeds. */
  predicate TokenMatches(b: Tables, service: string, token: string) {
    service in b.tokens && b.tokens[service] == token
  }

  /** The removal happens before the comparison, so a wrong token spends the stored one too. */
  function SpendToken(b: Tables, service: string): Tables {
    b.(tokens := b.tokens - {service})
  }

  function AddSubscription(b: Tables, service: string, prefix: string): Tables {
    var held := if service in b.subscriptions then b.subscriptions[service] else {};
    b.(subscriptions := b.subscriptions[service := held + {prefix}])
  }

  function DropSubscription(b: Tables, service: string, prefix: string): Tables {
    if service in b.subscriptions
    then b.(subscriptions := b.subscriptions[service := b.subscriptions[service] - {prefix}])
    else b
  }

  /** Plain string prefix, not a match on dotted segments. */
  predicate Wants(prefixes: set<string>, topic: string) {
    exists p :: p in prefixes && p <= topic
  }

  /** The services a publication by `from` on `topic` is addressed to at this moment. */
  function Targets(b: Tables, from: string, topic: string): set<string> {
    set svc | svc in b.subscriptions && svc != from && Wants(b.subscriptions[svc], topic)
  }
}
