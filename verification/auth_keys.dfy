/**
 * API-key authentication of `src/auth/keys.js` over in-memory tenant and
 * key tables. Only a key's hash and its first twelve characters are
 * stored; the hash function, fresh ids and the clock are supplied by the
 * caller, and environment variables arrive as optional strings.
 */
module AuthKeys {
  import opened Base

  datatype Tenant = Tenant(id: string, name: string, active: bool, createdAt: nat)

  datatype KeyRecord = KeyRecord(
    id: string,
    tenantId: string,
    name: string,
    keyHash: string,
    keyPrefix: string,
    scopes: seq<string>,
    active: bool,
    createdAt: nat)

  /** The two tables, oldest row first. */
  datatype Store = Store(tenants: seq<Tenant>, keys: seq<KeyRecord>)

  /** The characters a key is looked up by. */
  const PrefixLength: nat := 12

  /** `keyPrefix`: the first twelve characters, or the whole key when it is shorter. */
  function KeyPrefix(raw: string): (p: string)
    ensures |p| == (if |raw| < PrefixLength then |raw| else PrefixLength)
    ensures p <= raw
  {
    if |raw| < PrefixLength then raw else raw[..PrefixLength]
  }

  /** Keys that agree on their first twelve characters share a prefix. */
  lemma SharedPrefix(a: string, b: string)
    requires |a| >= PrefixLength && |b| >= PrefixLength && a[..PrefixLength] == b[..PrefixLength]
    ensures KeyPrefix(a) == KeyPrefix(b)
  {
  }

  /** `isAuthRequired`: authentication is off only when the setting is exactly `false`. */
  predicate AuthRequired(requireAuthEnv: Option<string>) {
    requireAuthEnv != Some("false")
  }

  predicate HasTenant(store: Store, id: string) {
    exists i :: 0 <= i < |store.tenants| && store.tenants[i].id == id
  }

  /** `ensureTenant`: inserts an active tenant unless one with that id exists. */
  function EnsureTenant(store: Store, id: string, name: string, now: nat): (r: Store)
    ensures r.keys == store.keys
    ensures HasTenant(r, id)
    ensures HasTenant(store, id) ==> r == store
    ensures !HasTenant(store, id) ==> r.tenants == store.tenants + [Tenant(id, name, true, now)]
  {
    if HasTenant(store, id) then store
    else
      var r := Store(store.tenants + [Tenant(id, name, true, now)], store.keys);
      assert r.tenants[|store.tenants|].id == id;
      r
  }

  /** A key row of the tenant with that prefix exists. */
  predicate HasKeyWithPrefix(store: Store, tenantId: string, prefix: string) {
    exists i :: 0 <= i < |store.keys| && store.keys[i].tenantId == tenantId && store.keys[i].keyPrefix == prefix
  }

  /** The bootstrap settings read from the environment. */
  datatype BootstrapEnv = BootstrapEnv(
    apiKey: Option<string>,
    tenantId: Option<string>,
    tenantName: Option<string>,
    keyName: Option<string>)

  /** `bootstrapAuthFromEnv`: seeds one all-scopes key for the configured tenant. */
  function Bootstrap(store: Store, env: BootstrapEnv, hash: string -> string, freshId: string, now: nat): (r: Store)
    ensures env.apiKey.None? || env.apiKey.value == "" ==> r == store
    ensures env.apiKey.Some? && env.apiKey.value != "" ==>
      var tenantId := env.tenantId.GetOr("default");
      HasTenant(r, tenantId) && HasKeyWithPrefix(r, tenantId, KeyPrefix(env.apiKey.value)) &&
      store.keys <= r.keys && |r.keys| <= |store.keys| + 1
    ensures env.apiKey.Some? && env.apiKey.value != "" ==>
      var key := env.apiKey.value;
      var tenantId := env.tenantId.GetOr("default");
      if HasKeyWithPrefix(store, tenantId, KeyPrefix(key)) then r.keys == store.keys
      else
        |r.keys| == |store.keys| + 1 &&
        r.keys[|store.keys|] == KeyRecord(freshId, tenantId, env.keyName.GetOr("bootstrap"), hash(key), KeyPrefix(key), ["*"], true, now)
  {
    if env.apiKey.None? || env.apiKey.value == "" then store
    else
      var key := env.apiKey.value;
      var tenantId := env.tenantId.GetOr("default");
      var withTenant := EnsureTenant(store, tenantId, env.tenantName.GetOr("Default Tenant"), now);
      var prefix := KeyPrefix(key);
      if HasKeyWithPrefix(withTenant, tenantId, prefix) then withTenant
      else
        var record := KeyRecord(freshId, tenantId, env.keyName.GetOr("bootstrap"), hash(key), prefix, ["*"], true, now);
        var r := Store(withTenant.tenants, withTenant.keys + [record]);
        assert r.keys[|withTenant.keys|] == record;
        r
  }

  /** Bootstrapping twice from the same settings changes nothing the second time. */
  lemma BootstrapIdempotent(store: Store, env: BootstrapEnv, hash: string -> string,
                            id1: string, now1: nat, id2: string, now2: nat)
    ensures var once := Bootstrap(store, env, hash, id1, now1);
      Bootstrap(once, env, hash, id2, now2) == once
  {
  }

  /** `createTenantApiKey`: ensures the tenant, then stores the key's hash and prefix (all scopes by default). */
  function CreateTenantApiKey(store: Store, tenantId: string, tenantName: Option<string>, keyName: string,
                              rawKey: string, scopes: Option<seq<string>>, hash: string -> string,
                              freshId: string, now: nat): (r: Store)
    ensures HasTenant(r, tenantId)
    ensures |r.keys| == |store.keys| + 1 && r.keys[..|store.keys|] == store.keys
    ensures r.keys[|store.keys|] ==
      KeyRecord(freshId, tenantId, keyName, hash(rawKey), KeyPrefix(rawKey), scopes.GetOr(["*"]), true, now)
  {
    var withTenant := EnsureTenant(store, tenantId, tenantName.GetOr(tenantId), now);
    Store(withTenant.tenants, withTenant.keys +
      [KeyRecord(freshId, tenantId, keyName, hash(rawKey), KeyPrefix(rawKey), scopes.GetOr(["*"]), true, now)])
  }

  // ---------------------------------------------------------------------------
  // Authentication
  // ---------------------------------------------------------------------------

  /** Request headers after normalisation: lower-case names, one string value each. */
  type Headers = map<string, string>

  /** `headers[name]`, if present. */
  function Header(headers: Headers, name: string): Option<string> {
    if name in headers then Some(headers[name]) else None
  }

  /** The key a request presents: `x-api-key`, else the token of a `Bearer ` authorization header, else "". */
  function PresentedKey(headers: Headers): (key: string)
    ensures "x-api-key" in headers ==> key == headers["x-api-key"]
    ensures "x-api-key" !in headers && "authorization" in headers && StartsWith(headers["authorization"], "Bearer ") ==>
      key == headers["authorization"][7..]
    ensures "x-api-key" !in headers && ("authorization" !in headers || !StartsWith(headers["authorization"], "Bearer ")) ==>
      key == ""
  {
    var authHeader := Header(headers, "authorization").GetOr("");
    var bearer := if StartsWith(authHeader, "Bearer ") then authHeader[7..] else "";
    Header(headers, "x-api-key").GetOr(bearer)
  }

  /** Who a request acts for. */
  datatype Principal = Principal(tenantId: string, scopes: seq<string>, keyName: string)

  predicate KeyMatches(k: KeyRecord, tenantId: string, prefix: string) {
    k.tenantId == tenantId && k.keyPrefix == prefix
  }

  /** The position of the first key row of the tenant with that prefix (`LIMIT 1` over rows in insertion order). */
  function FindKey(keys: seq<KeyRecord>, tenantId: string, prefix: string): (r: Option<nat>)
    ensures r.None? ==> forall i :: 0 <= i < |keys| ==> !KeyMatches(keys[i], tenantId, prefix)
    ensures r.Some? ==> r.value < |keys| && KeyMatches(keys[r.value], tenantId, prefix)
    ensures r.Some? ==> forall i :: 0 <= i < r.value ==> !KeyMatches(keys[i], tenantId, prefix)
    decreases |keys|
  {
    if |keys| == 0 then None
    else if KeyMatches(keys[|keys| - 1], tenantId, prefix) && FindKey(keys[..|keys| - 1], tenantId, prefix).None? then
      Some(|keys| - 1)
    else
      FindKey(keys[..|keys| - 1], tenantId, prefix)
  }

  /**
   * `authenticateRequest`: with authentication off, everyone acts for the
   * `x-tenant-id` tenant (or `default`) with all scopes. Otherwise the
   * presented key and the tenant header must both be non-empty, the
   * tenant's first key row with the key's prefix must be active, and its
   * stored hash must equal the key's hash.
   */
  function Authenticate(store: Store, requireAuthEnv: Option<string>, headers: Headers,
                        hash: string -> string): (r: Option<Principal>)
    ensures !AuthRequired(requireAuthEnv) ==>
      r == Some(Principal(Header(headers, "x-tenant-id").GetOr("default"), ["*"], "auth-disabled"))
    ensures AuthRequired(requireAuthEnv) && (PresentedKey(headers) == "" || Header(headers, "x-tenant-id").GetOr("") == "") ==>
      r.None?
    ensures AuthRequired(requireAuthEnv) && r.Some? ==>
      var key := PresentedKey(headers);
      r.value.tenantId == headers["x-tenant-id"] &&
      exists k :: k in store.keys && k.tenantId == r.value.tenantId && k.keyPrefix == KeyPrefix(key) &&
        k.active && k.keyHash == hash(key) && k.scopes == r.value.scopes && k.name == r.value.keyName
    ensures AuthRequired(requireAuthEnv) && PresentedKey(headers) != "" && Header(headers, "x-tenant-id").GetOr("") != "" ==>
      var key := PresentedKey(headers);
      var f := FindKey(store.keys, headers["x-tenant-id"], KeyPrefix(key));
      (r.Some? <==> f.Some? && store.keys[f.value].active && store.keys[f.value].keyHash == hash(key)) &&
      (r.Some? ==> r.value == Principal(headers["x-tenant-id"], store.keys[f.value].scopes, store.keys[f.value].name))
  {
    if !AuthRequired(requireAuthEnv) then
      Some(Principal(Header(headers, "x-tenant-id").GetOr("default"), ["*"], "auth-disabled"))
    else
      var apiKey := PresentedKey(headers);
      var tenantId := Header(headers, "x-tenant-id").GetOr("");
      if apiKey == "" || tenantId == "" then None
      else
        var found := FindKey(store.keys, tenantId, KeyPrefix(apiKey));
        if found.None? then None
        else
          var record := store.keys[found.value];
          if !record.active || record.keyHash != hash(apiKey) then None
          else Some(Principal(tenantId, record.scopes, record.name))
  }

  /** An inactive first match refuses the key, even when a later row would accept it. */
  lemma InactiveKeyRefused(store: Store, requireAuthEnv: Option<string>, headers: Headers, hash: string -> string)
    requires AuthRequired(requireAuthEnv)
    requires "x-tenant-id" in headers
    requires var f := FindKey(store.keys, headers["x-tenant-id"], KeyPrefix(PresentedKey(headers)));
      f.Some? && !store.keys[f.value].active
    ensures Authenticate(store, requireAuthEnv, headers, hash).None?
  {
  }

  /**
   * A freshly created key authenticates its tenant with its scopes, when
   * no earlier key of that tenant shares its prefix.
   */
  lemma CreatedKeyAuthenticates(store: Store, tenantId: string, tenantName: Option<string>, keyName: string,
                                rawKey: string, scopes: Option<seq<string>>, hash: string -> string,
                                freshId: string, now: nat, requireAuthEnv: Option<string>)
    requires rawKey != "" && tenantId != ""
    requires AuthRequired(requireAuthEnv)
    requires !HasKeyWithPrefix(store, tenantId, KeyPrefix(rawKey))
    ensures var s := CreateTenantApiKey(store, tenantId, tenantName, keyName, rawKey, scopes, hash, freshId, now);
      Authenticate(s, requireAuthEnv, map["x-api-key" := rawKey, "x-tenant-id" := tenantId], hash)
        == Some(Principal(tenantId, scopes.GetOr(["*"]), keyName))
  {
    var s := CreateTenantApiKey(store, tenantId, tenantName, keyName, rawKey, scopes, hash, freshId, now);
    var headers := map["x-api-key" := rawKey, "x-tenant-id" := tenantId];
    assert PresentedKey(headers) == rawKey;
    var n := |store.keys|;
    assert s.keys[..n] == store.keys;
    assert FindKey(store.keys, tenantId, KeyPrefix(rawKey)).None?;
    assert FindKey(s.keys, tenantId, KeyPrefix(rawKey)) == Some(n);
  }
}
