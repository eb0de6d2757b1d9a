// The service resolver: a cache in front of the Consul catalog, with a static table behind it.
// The Consul HTTP call is an oracle: the caller passes the reply the catalog would give.
module Registry {
  import opened Wrappers
  import opened Strings
  import opened Json

  /** One entry of the catalog's JSON list; an absent key reads as None. */
  datatype CatalogEntry = CatalogEntry(serviceAddress: Option<string>, address: Option<string>, servicePort: Option<int>)

  /** What GET /v1/catalog/service/<name> gives: an exception, or a status and the decoded list. */
  datatype CatalogReply = CatalogDown | Reply(status: int, services: seq<CatalogEntry>)

  /** The hard-coded mesh: every agent on localhost, ports 9001 to 9009. */
  const StaticMesh: map<string, (string, int)> := map[
    "human-intake-agent" := ("localhost", 9001),
    "dispatch-agent" := ("localhost", 9002),
    "fire-chief-agent" := ("localhost", 9003),
    "civic-alert-agent" := ("localhost", 9004),
    "medical-agent" := ("localhost", 9005),
    "police-chief-agent" := ("localhost", 9006),
    "utility-agent" := ("localhost", 9007),
    "iot-sensor-agent" := ("localhost", 9008),
    "camera-agent" := ("localhost", 9009)
  ]

  /** f"{x}" of a value that may be None. */
  function Show(o: Option<string>): string {
    if o.Some? then o.value else "None"
  }

  /** `svc.get("ServiceAddress") or svc.get("Address")`: an empty or missing service address falls back. */
  function EntryAddress(e: CatalogEntry): string {
    if e.serviceAddress.Some? && e.serviceAddress.value != "" then e.serviceAddress.value
    else Show(e.address)
  }

  function EntryUrl(e: CatalogEntry): string {
    var port := if e.servicePort.Some? then IntToString(e.servicePort.value) else "None";
    "http://" + EntryAddress(e) + ":" + port
  }

  /** The URL the catalog yields: the first entry of a non-empty 200 reply, nothing otherwise. */
  function ConsulUrl(reply: CatalogReply): (r: Option<string>)
    ensures r.Some? <==> reply.Reply? && reply.status == 200 && |reply.services| > 0
    ensures r.Some? ==> r.value == EntryUrl(reply.services[0]) && StartsWith(r.value, "http://")
  {
    if reply.Reply? && reply.status == 200 && |reply.services| > 0 then
      Some(EntryUrl(reply.services[0]))
    else None
  }

  /** The static-table URL of a name. */
  function StaticUrl(name: string): (r: Option<string>)
    ensures r.Some? <==> name in StaticMesh
  {
    if name in StaticMesh then
      Some("http://" + StaticMesh[name].0 + ":" + IntToString(StaticMesh[name].1))
    else None
  }

  /** The URL get_service_url returns for a name that is not cached. */
  function Lookup(name: string, reply: CatalogReply): Option<string> {
    var url := ConsulUrl(reply);
    if url.None? then StaticUrl(name) else url
  }

  /** The value get_service_url returns. */
  function Resolve(cache: map<string, string>, name: string, reply: CatalogReply): Option<string> {
    if name in cache then Some(cache[name]) else Lookup(name, reply)
  }

  /** The cache after get_service_url: a found URL is stored, a miss stores nothing. */
  function CacheAfter(cache: map<string, string>, name: string, reply: CatalogReply): map<string, string> {
    var r := Resolve(cache, name, reply);
    if name !in cache && r.Some? then cache[name := r.value] else cache
  }

  /** A cached name is answered from the cache: the catalog reply does not matter. */
  lemma CacheHitIgnoresConsul(cache: map<string, string>, name: string, r1: CatalogReply, r2: CatalogReply)
    requires name in cache
    ensures Resolve(cache, name, r1) == Resolve(cache, name, r2) == Some(cache[name])
    ensures CacheAfter(cache, name, r1) == cache
  {
  }

  /** Lookup order: a catalog hit wins; the static table answers only when the catalog gave nothing. */
  lemma {:induction false} LookupOrder(name: string, reply: CatalogReply)
    ensures ConsulUrl(reply).Some? ==> Lookup(name, reply) == ConsulUrl(reply)
    ensures ConsulUrl(reply).None? ==> Lookup(name, reply) == StaticUrl(name)
    ensures Lookup(name, reply).None? <==> ConsulUrl(reply).None? && name !in StaticMesh
  {
  }

  /** Every result is cached and nothing else: the cache afterwards maps `name` exactly when a URL came back. */
  lemma CachesOnlySuccess(cache: map<string, string>, name: string, reply: CatalogReply)
    ensures var after := CacheAfter(cache, name, reply);
      (name in after <==> Resolve(cache, name, reply).Some?)
      && (name in after ==> Resolve(cache, name, reply) == Some(after[name]))
      && (forall n :: n != name ==> (n in after <==> n in cache))
      && (forall n :: n != name && n in cache ==> after[n] == cache[n])
  {
  }

  /** Every static entry resolves to http://localhost:<port>. */
  lemma StaticMeshLocal(name: string)
    requires name in StaticMesh
    ensures StaticMesh[name].0 == "localhost"
    ensures 9001 <= StaticMesh[name].1 <= 9009
  {
  }

  /** `{service}-{hostname}`: the id used both to register and to deregister. */
  function ServiceId(service: string, hostname: string): (r: string)
    ensures StartsWith(r, service + "-") && EndsWith(r, hostname)
  {
    var r := service + "-" + hostname;
    assert r[..|service + "-"|] == service + "-";
    assert r[|r| - |hostname|..] == hostname;
    r
  }

  /** `tags or []` as a JSON list. */
  function TagList(tags: Option<seq<string>>): Json {
    var t := if tags.Some? then tags.value else [];
    Arr(seq(|t|, i requires 0 <= i < |t| => Str(t[i])))
  }

  /** The health check Consul runs against the service's own port. */
  function HealthCheck(port: int): Json {
    Obj([
      ("HTTP", Str("http://localhost:" + IntToString(port) + "/health")),
      ("Interval", Str("10s")),
      ("Timeout", Str("5s")),
      ("DeregisterCriticalServiceAfter", Str("1m"))
    ])
  }

  /** The registration body: id, name, tags (empty when none are given), address, port and a health check. */
  function RegistrationPayload(service: string, port: int, tags: Option<seq<string>>, hostname: string): Json {
    Obj([
      ("ID", Str(ServiceId(service, hostname))),
      ("Name", Str(service)),
      ("Tags", TagList(tags)),
      ("Address", Str("localhost")),
      ("Port", Int(port)),
      ("Check", HealthCheck(port))
    ])
  }

  /** The path deregister_service calls. */
  function DeregisterPath(service: string, hostname: string): string {
    "/v1/agent/service/deregister/" + ServiceId(service, hostname)
  }

  /** Deregistration names the service by the id its registration carried. */
  lemma RegisterDeregisterSameId(service: string, port: int, tags: Option<seq<string>>, hostname: string)
    ensures Get(RegistrationPayload(service, port, tags, hostname), "ID") == Some(Str(ServiceId(service, hostname)))
    ensures EndsWith(DeregisterPath(service, hostname), ServiceId(service, hostname))
  {
    GetAt(RegistrationPayload(service, port, tags, hostname), "ID", 0);
    var p, id := DeregisterPath(service, hostname), ServiceId(service, hostname);
    assert p[|p| - |id|..] == id;
  }

  /** ConsulRegistry with its URL cache `_cache`. */
  class ConsulRegistry {
    var cache: map<string, string>

    constructor ()
      ensures cache == map[]
    {
      cache := map[];
    }

    /** get_service_url: cache, then the catalog, then the static table; only a found URL is cached. */
    method GetServiceUrl(name: string, reply: CatalogReply) returns (url: Option<string>)
      modifies this
      ensures url == Resolve(old(cache), name, reply)
      ensures cache == CacheAfter(old(cache), name, reply)
    {
      if name in cache {
        return Some(cache[name]);
      }
      url := None;
      if reply.Reply? && reply.status == 200 {
        var services := reply.services;
        if |services| > 0 {
          url := Some(EntryUrl(services[0]));
        }
      }
      if url.None? && name in StaticMesh {
        var (host, port) := StaticMesh[name];
        url := Some("http://" + host + ":" + IntToString(port));
      }
      if url.Some? {
        cache := cache[name := url.value];
        return url;
      }
      return None;
    }

    /** invalidate_cache: drops one name; an absent name leaves the cache as it was. */
    method InvalidateCache(name: string)
      modifies this
      ensures cache == old(cache) - {name}
      ensures name !in old(cache) ==> cache == old(cache)
    {
      if name in cache {
        cache := cache - {name};
      }
    }
  }
}
