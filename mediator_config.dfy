/**
 * The mediator configuration: where the core API is and how to reach it, the routing table,
 * the registration content, the heartbeat settings and the dynamic configuration map that
 * registration defaults and heartbeat replies from the core are merged into.
 */
module Config {
  import opened Wrappers
  import opened Routing

  /** A dynamic configuration value, as the JSON text of the value. */
  datatype ConfigValue = ConfigValue(json: string)

  /** A key store, read from a named file or from a stream, with an optional password. */
  datatype KeyStore =
    | FileKeyStore(filename: string, password: Option<string>)
    | StreamKeyStore(stream: nat, password: Option<string>)

  /** TLS settings for the HTTP connector. */
  datatype SSLContext = SSLContext(keyStore: Option<KeyStore>, trustStores: seq<KeyStore>, trustAll: bool)

  /** `SSLContext(keyStore, trustStores)`: certificates are checked. */
  function SSLContextOf(keyStore: Option<KeyStore>, trustStores: seq<KeyStore>): (c: SSLContext)
    ensures c.keyStore == keyStore && c.trustStores == trustStores && !c.trustAll
  {
    SSLContext(keyStore, trustStores, false)
  }

  /** `SSLContext(keyStore, trustStore)`: a single trust store. */
  function SSLContextWithTrustStore(keyStore: Option<KeyStore>, trustStore: KeyStore): (c: SSLContext)
    ensures c.keyStore == keyStore && c.trustStores == [trustStore] && !c.trustAll
  {
    SSLContextOf(keyStore, [trustStore])
  }

  /** `SSLContext(trustStores)`: no key store. */
  function TrustStoresContext(trustStores: seq<KeyStore>): (c: SSLContext)
    ensures c.keyStore.None? && c.trustStores == trustStores && !c.trustAll
  {
    SSLContextOf(None, trustStores)
  }

  /** `SSLContext(trustStore)`: no key store and a single trust store. */
  function TrustStoreContext(trustStore: KeyStore): (c: SSLContext)
    ensures c.keyStore.None? && c.trustStores == [trustStore] && !c.trustAll
  {
    SSLContextWithTrustStore(None, trustStore)
  }

  /** `SSLContext(keyStore, trustAll)`: no trust stores. */
  function KeyStoreContext(keyStore: Option<KeyStore>, trustAll: bool): (c: SSLContext)
    ensures c.keyStore == keyStore && c.trustStores == [] && c.trustAll == trustAll
  {
    SSLContext(keyStore, [], trustAll)
  }

  /** `SSLContext(trustAll)`: no key store and no trust stores. */
  function TrustAllContext(trustAll: bool): (c: SSLContext)
    ensures c.keyStore.None? && c.trustStores == [] && c.trustAll == trustAll
  {
    KeyStoreContext(None, trustAll)
  }

  /**
   * The registration settings: the core API path, method and content type to register with,
   * the JSON registration content, and what the content declares (the mediator URN and the
   * default configuration), which the JSON parser extracts when the settings are created.
   */
  datatype RegistrationConfig = RegistrationConfig(
    path: string,
    httpMethod: string,
    contentType: string,
    content: string,
    urn: Option<string>,
    defaultConfig: Option<map<string, ConfigValue>>)

  /** Registration settings for some content: POST to /mediators as application/json. */
  function NewRegistrationConfig(content: string, urn: Option<string>, defaultConfig: Option<map<string, ConfigValue>>): (r: RegistrationConfig)
    ensures r.path == "/mediators" && r.httpMethod == "POST" && r.contentType == "application/json"
    ensures r.content == content && r.urn == urn && r.defaultConfig == defaultConfig
  {
    RegistrationConfig("/mediators", "POST", "application/json", content, urn, defaultConfig)
  }

  /** `base` with every entry of `updates` put into it: updated keys take the new values, others stay. */
  function MergeConfig(base: map<string, ConfigValue>, updates: map<string, ConfigValue>): (r: map<string, ConfigValue>)
    ensures r.Keys == base.Keys + updates.Keys
    ensures forall k :: k in updates ==> r[k] == updates[k]
    ensures forall k :: k in base && k !in updates ==> r[k] == base[k]
  {
    base + updates
  }

  /** A map that agrees with the merge key by key is the merge. */
  lemma MergeFromPointwise(base: map<string, ConfigValue>, updates: map<string, ConfigValue>, merged: map<string, ConfigValue>)
    requires forall k :: k in merged <==> k in base || k in updates
    requires forall k :: k in updates ==> merged[k] == updates[k]
    requires forall k :: k in base && k !in updates ==> merged[k] == base[k]
    ensures merged == MergeConfig(base, updates)
  {
  }

  /** The loop that puts each entry of `updates` into a copy of `base`, one key at a time. */
  method PutEach(base: map<string, ConfigValue>, updates: map<string, ConfigValue>) returns (merged: map<string, ConfigValue>)
    ensures merged == MergeConfig(base, updates)
  {
    merged := base;
    var keys := updates.Keys;
    ghost var done: set<string> := {};
    while keys != {}
      invariant keys !! done && keys + done == updates.Keys
      invariant forall k :: k in merged <==> k in base || k in done
      invariant forall k :: k in done ==> merged[k] == updates[k]
      invariant forall k :: k in base && k !in done ==> merged[k] == base[k]
      decreases |keys|
    {
      var k :| k in keys;
      merged := merged[k := updates[k]];
      keys := keys - {k};
      done := done + {k};
    }
    MergeFromPointwise(base, updates, merged);
  }

  /** Java's rendering of a possibly null string in a concatenation. */
  function JavaString(s: Option<string>): string {
    if s.Some? then s.value else "null"
  }

  class MediatorConfig {
    var name: Option<string>
    var serverHost: Option<string>
    var serverPort: Option<int>
    var coreHost: Option<string>
    var coreAPIPort: Option<int>
    var coreAPIScheme: string
    var coreAPIUsername: Option<string>
    var coreAPIPassword: Option<string>
    var routingTable: RoutingTable?
    var registrationConfig: Option<RegistrationConfig>
    var sslContext: Option<SSLContext>
    var heartbeatsEnabled: bool
    var heartbeatPeriodSeconds: int
    var dynamicConfig: map<string, ConfigValue>

    /** The defaults: core API on port 8080 over https, heartbeats off every 10 seconds, empty dynamic config. */
    constructor (name: Option<string>, serverHost: Option<string>, serverPort: Option<int>, routingTable: RoutingTable?)
      ensures this.name == name && this.serverHost == serverHost && this.serverPort == serverPort
      ensures this.routingTable == routingTable
      ensures coreHost.None? && coreAPIUsername.None? && coreAPIPassword.None?
      ensures coreAPIPort == Some(8080) && coreAPIScheme == "https"
      ensures registrationConfig.None? && sslContext.None?
      ensures !heartbeatsEnabled && heartbeatPeriodSeconds == 10
      ensures dynamicConfig == map[]
    {
      this.name := name;
      this.serverHost := serverHost;
      this.serverPort := serverPort;
      this.routingTable := routingTable;
      coreHost := None;
      coreAPIPort := Some(8080);
      coreAPIScheme := "https";
      coreAPIUsername := None;
      coreAPIPassword := None;
      registrationConfig := None;
      sslContext := None;
      heartbeatsEnabled := false;
      heartbeatPeriodSeconds := 10;
      dynamicConfig := map[];
    }

    /** The path of a top-level actor of this mediator: "/user/", the mediator name, "/", the actor. */
    function UserPathFor(actor: string): (p: string)
      reads this
      ensures var n := JavaString(name);
        |p| == 7 + |n| + |actor| && p[..6] == "/user/" && p[6..6 + |n|] == n &&
        p[6 + |n|] == '/' && p[7 + |n|..] == actor
    {
      "/user/" + JavaString(name) + "/" + actor
    }

    /** Stores the registration settings and puts every default-config entry into the dynamic config. */
    method SetRegistrationConfig(rc: RegistrationConfig)
      modifies this`registrationConfig, this`dynamicConfig
      ensures registrationConfig == Some(rc)
      ensures dynamicConfig ==
        if rc.defaultConfig.Some? then MergeConfig(old(dynamicConfig), rc.defaultConfig.value) else old(dynamicConfig)
    {
      registrationConfig := Some(rc);
      if rc.defaultConfig.Some? {
        dynamicConfig := PutEach(dynamicConfig, rc.defaultConfig.value);
      }
    }
  }
}
