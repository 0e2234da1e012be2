/**
 Traefik's dynamic configuration: the part of it that the deploy engine reads, with the pointers
 where the source has them (HTTP and LoadBalancer) and values where it has values (routers,
 services, servers). `rest` stands for the fields the engine never looks at.
 */
module Traefik {
  import opened Wrappers

  datatype Server = Server(url: string, rest: int)

  datatype Router = Router(service: string, rest: int)

  class LoadBalancer {
    var servers: seq<Server>
    var healthPath: string
  }

  datatype Service = Service(loadBalancer: LoadBalancer?, rest: int)

  class HTTPConfiguration {
    var routers: map<string, Router>
    var services: Option<map<string, Service>>

    function LoadBalancers(): set<LoadBalancer?>
      reads this
    {
      if services.None? then {} else set k | k in services.value :: services.value[k].loadBalancer
    }

    function Value(): HTTPValue
      reads this, LoadBalancers()
    {
      HTTPValue(routers,
                if services.None? then None
                else Some(map k | k in services.value :: ServiceValueOf(services.value[k])))
    }
  }

  function ServiceValueOf(s: Service): ServiceValue
    reads s.loadBalancer
  {
    ServiceValue(if s.loadBalancer == null then None
                 else Some(LoadBalancerValue(s.loadBalancer.servers, s.loadBalancer.healthPath)),
                 s.rest)
  }

  // What a file holds: the configuration with every pointer followed.
  datatype LoadBalancerValue = LoadBalancerValue(servers: seq<Server>, healthPath: string)
  datatype ServiceValue = ServiceValue(loadBalancer: Option<LoadBalancerValue>, rest: int)
  datatype HTTPValue = HTTPValue(routers: map<string, Router>, services: Option<map<string, ServiceValue>>)
  datatype ConfigValue = ConfigValue(http: Option<HTTPValue>, rest: int)

  predicate IsPart(o: object?) {
    o is DynamicConfiguration || o is HTTPConfiguration? || o is LoadBalancer?
  }

  class DynamicConfiguration {
    var http: HTTPConfiguration?
    var rest: int

    function Footprint(): (objects: set<object?>)
      reads this, http
      ensures this in objects && http in objects
      ensures forall o | o in objects :: IsPart(o)
    {
      {this, http} + if http == null then {} else http.LoadBalancers()
    }

    function Value(): ConfigValue
      reads this, http, Footprint()
    {
      ConfigValue(if http == null then None else Some(http.Value()), rest)
    }

    constructor (http: HTTPConfiguration?, rest: int)
      ensures this.http == http && this.rest == rest
    {
      this.http := http;
      this.rest := rest;
    }

    // A shallow copy: a new struct that shares the HTTP pointer.
    method Copy() returns (copy: DynamicConfiguration)
      ensures fresh(copy) && copy.http == http && copy.Value() == Value()
    {
      copy := new DynamicConfiguration(http, rest);
    }
  }

  // Reading a file: new objects throughout, which hold what the file holds.

  method ParseService(value: ServiceValue) returns (service: Service)
    ensures service.loadBalancer != null ==> fresh(service.loadBalancer)
    ensures ServiceValueOf(service) == value
  {
    match value.loadBalancer
    case None => return Service(null, value.rest);
    case Some(parsed) =>
      var loadBalancer := new LoadBalancer;
      loadBalancer.servers, loadBalancer.healthPath := parsed.servers, parsed.healthPath;
      return Service(loadBalancer, value.rest);
  }

  method ParseHTTP(value: HTTPValue) returns (http: HTTPConfiguration)
    ensures fresh(http) && forall o | o in http.LoadBalancers() && o != null :: fresh(o)
    ensures http.Value() == value
  {
    http := new HTTPConfiguration;
    http.routers, http.services := value.routers, None;
    if value.services.Some? {
      var services: map<string, Service> := map[];
      var remaining := value.services.value.Keys;
      while remaining != {}
        invariant remaining <= value.services.value.Keys && services.Keys == value.services.value.Keys - remaining
        invariant fresh(http) && http.routers == value.routers
        invariant forall k | k in services ::
                    (services[k].loadBalancer != null ==> fresh(services[k].loadBalancer)) &&
                    ServiceValueOf(services[k]) == value.services.value[k]
        decreases remaining
      {
        var k :| k in remaining;
        remaining := remaining - {k};
        var service := ParseService(value.services.value[k]);
        services := services[k := service];
      }
      http.services := Some(services);
      assert http.Value().services.value == value.services.value;
    }
  }

  method Parse(value: ConfigValue) returns (config: DynamicConfiguration)
    ensures forall o: object? | o in config.Footprint() && o != null :: fresh(o)
    ensures config.Value() == value
  {
    var http: HTTPConfiguration? := null;
    if value.http.Some? { http := ParseHTTP(value.http.value); }
    config := new DynamicConfiguration(http, value.rest);
  }

  // The checks that the HTTP health gate runs: one for each server of each load balancer with a
  // health path. services is in the order the map happened to yield them.
  function HealthTargets(services: seq<ServiceValue>): seq<string> {
    if services == [] then []
    else HealthTargets(services[..|services| - 1]) + TargetsOf(services[|services| - 1])
  }

  function TargetsOf(service: ServiceValue): seq<string> {
    match service.loadBalancer
    case Some(lb) => if lb.healthPath == "" then [] else Targets(lb.servers, lb.healthPath)
    case None => []
  }

  function Targets(servers: seq<Server>, path: string): seq<string> {
    if servers == [] then []
    else Targets(servers[..|servers| - 1], path) + [servers[|servers| - 1].url + path]
  }

  lemma {:induction false} TargetsHas(servers: seq<Server>, path: string, t: string)
    ensures t in Targets(servers, path) <==> exists server :: server in servers && t == server.url + path
  {
    if servers != [] {
      var front, last := servers[..|servers| - 1], servers[|servers| - 1];
      TargetsHas(front, path, t);
      assert servers == front + [last];
    }
  }

  predicate IsTarget(service: ServiceValue, t: string) {
    && service.loadBalancer.Some? && service.loadBalancer.value.healthPath != ""
    && exists server ::
         server in service.loadBalancer.value.servers && t == server.url + service.loadBalancer.value.healthPath
  }

  // Exactly the servers with a health path are checked.
  lemma {:induction false} HealthTargetsHas(services: seq<ServiceValue>, t: string)
    ensures t in HealthTargets(services) <==> exists service :: service in services && IsTarget(service, t)
  {
    if services != [] {
      var front, last := services[..|services| - 1], services[|services| - 1];
      HealthTargetsHas(front, t);
      if last.loadBalancer.Some? {
        TargetsHas(last.loadBalancer.value.servers, last.loadBalancer.value.healthPath, t);
      }
      assert t in TargetsOf(last) <==> IsTarget(last, t);
      assert services == front + [last];
    }
  }

  lemma {:induction false} NoTargets(services: seq<ServiceValue>)
    ensures HealthTargets(services) == [] <==> forall s | s in services :: TargetsOf(s) == []
  {
    if services != [] {
      NoTargets(services[..|services| - 1]);
      assert services == services[..|services| - 1] + [services[|services| - 1]];
    }
  }

  // With nothing to check the gate reports healthy at once; otherwise it starts a gate over
  // these targets.
  method WaitForHTTPHealthChecks(services: seq<ServiceValue>) returns (immediate: bool, targets: seq<string>)
    ensures targets == HealthTargets(services)
    ensures immediate <==> forall s | s in services :: TargetsOf(s) == []
  {
    targets := [];
    for i := 0 to |services|
      invariant targets == HealthTargets(services[..i])
    {
      assert services[..i + 1][..i] == services[..i];
      var service := services[i];
      ghost var before := targets;
      if service.loadBalancer.Some? && service.loadBalancer.value.healthPath != "" {
        var servers := service.loadBalancer.value.servers;
        var path := service.loadBalancer.value.healthPath;
        for j := 0 to |servers|
          invariant targets == before + Targets(servers[..j], path)
        {
          assert servers[..j + 1][..j] == servers[..j];
          targets := targets + [servers[j].url + path];
        }
        assert servers[..|servers|] == servers;
      }
      assert targets == before + TargetsOf(service);
    }
    assert services[..|services|] == services;
    NoTargets(services);
    immediate := |targets| == 0;
  }
}
