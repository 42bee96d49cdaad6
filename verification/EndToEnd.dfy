// From the ingresses and the endpoints of their services to the gateway.
module EndToEnd {
  import opened Entities
  import opened Store
  import opened Parsing
  import opened Stable
  import opened Building
  import opened Target
  import opened TargetLaws
  import opened TargetBuilds
  import opened TargetRetry
  import opened Pipeline
  import opened Assembly
  import Endpoints
  import Sync
  import SyncFrame

  // ---- The servers of a service -----------------------------------------------------------

  // The Kubernetes services behind a service, in the order they are listed, and
  // the port its routes ask for.
  datatype Backend = Backend(services: seq<Endpoints.Service>, port: string)

  function Addresses(servers: seq<Entity>): seq<string> {
    seq(|servers|, i requires 0 <= i < |servers| => servers[i].Name())
  }

  // The servers are those getServiceEndpoints returns.
  ghost predicate ServedBy(servers: seq<Entity>, backend: Backend) {
    && (forall s | s in servers :: s.Server? && s.id == 0)
    && (forall a :: multiset(Addresses(servers))[a] == Endpoints.Copies(backend.services, backend.port, a))
  }

  ghost predicate Backed(src: Source, backends: string -> Backend) {
    forall name | name in src.services :: ServedBy(src.servers(name), backends(name))
  }

  // Two Kubernetes services that are reached give the address.
  ghost predicate GivenTwice(backend: Backend, addr: string) {
    exists i: nat, j: nat :: i < j && Endpoints.Gives(backend.services, backend.port, addr, i)
                          && Endpoints.Gives(backend.services, backend.port, addr, j)
  }

  // ---- Addresses ------------------------------------------------------------------------------

  // Whatever endpoint a service has, its port is a number.
  lemma ServedPort(s: Endpoints.Service, port: Endpoints.ServicePort, e: Endpoints.Endpoint)
    requires Endpoints.Serves(s, port, e)
    ensures EndsInDigit(e.port)
  {
    if s.externalName.Some? {
      FormatEnds(Endpoints.IntValue(port.targetPort));
    } else {
      var ss :| ss in s.subsets.value && Endpoints.Offers(ss, port, e);
      var p :| p in ss.ports && Endpoints.Fits(p, port) && e.port == Endpoints.PortText(p.port)
               && e.address in ss.addresses;
      FormatEnds(p.port);
    }
  }

  lemma GivenIsAddress(backend: Backend, addr: string)
    requires Endpoints.Copies(backend.services, backend.port, addr) >= 1
    ensures IsAddress(addr)
  {
    Endpoints.CopiesAtLeastTwo(backend.services, backend.port, addr);
    var i: nat :| Endpoints.Gives(backend.services, backend.port, addr, i);
    var s := backend.services[i];
    var port := Endpoints.PortFor(s, backend.port);
    var e :| Endpoints.Serves(s, port, e) && e.port == backend.port && e.Text() == addr;
    ServedPort(s, port, e);
    assert addr[|e.address|] == ':' && addr[|addr| - 1] == e.port[|e.port| - 1];
  }

  lemma ServerIsAddressed(servers: seq<Entity>, backend: Backend, s: Entity)
    requires ServedBy(servers, backend) && s in servers
    ensures s.Server? && s.id == 0 && IsAddress(s.addr)
  {
    var i :| 0 <= i < |servers| && servers[i] == s;
    assert Addresses(servers)[i] == s.addr;
    assert s.addr in multiset(Addresses(servers));
    GivenIsAddress(backend, s.addr);
  }

  lemma BackedIsAddressed(src: Source, backends: string -> Backend)
    requires Backed(src, backends)
    ensures ServersAddressed(src)
  {
    forall name, s | name in src.services && s in src.servers(name)
      ensures s.Server? && s.id == 0 && IsAddress(s.addr)
    {
      ServerIsAddressed(src.servers(name), backends(name), s);
    }
  }

  // ---- Clusters ---------------------------------------------------------------------------------

  function ClusterObject(src: Source, name: string): ParserCluster {
    ParserCluster(Cluster(0, name, src.clusters(name), ""), src.servers(name))
  }

  // Build keeps the cluster of every service,
  lemma ClusterKept(src: Source, store: ClusterStore, order: seq<string>, name: string)
    requires FromParser(src, store) && WellNamed(src) && Ranged(src, order) && name in src.services
    ensures ClusterObject(src, name) in BuiltFrom(src, store, order).clusters
  {
    var items, item := Candidates(src, store, order), ClusterItem(ClusterObject(src, name));
    ParserIsGrounded(src, store);
    ClusterOffered(src, order, name);
    RestKept(src, store, order, item);
    InStateIff(Sift(items), item);
  }

  lemma ClusterOffered(src: Source, order: seq<string>, name: string)
    requires Grounded(src) && Ranged(src, order) && name in src.services
    ensures ClusterItem(ClusterObject(src, name)) in ItemsOf(Assemble(src, order))
  {
    var item := ClusterItem(ClusterObject(src, name));
    var k :| 0 <= k < |order| && order[k] == name;
    assert item in ServiceItems()(Assemble(src, order)[k]);
    FlatMapHas(Assemble(src, order), ServiceItems(), k, item);
  }

  // and has no other.
  lemma ClusterStems(src: Source, store: ClusterStore, order: seq<string>, c: ParserCluster)
    requires FromParser(src, store) && Ranged(src, order) && c in BuiltFrom(src, store, order).clusters
    ensures c.cluster.Cluster? && c.cluster.name in src.services && c == ClusterObject(src, c.cluster.name)
  {
    ParserIsGrounded(src, store);
    ClusterWasOffered(Candidates(src, store, order), c);
    ItemStems(src, order, ClusterItem(c));
  }

  lemma ClusterWasOffered(items: seq<Item>, c: ParserCluster)
    requires c in StateOf(Sift(items)).clusters
    ensures ClusterItem(c) in items
  {
    var k := InFlatMap(Sift(items), AsCluster(), c);
    SiftIsPart(items, Sift(items)[k]);
  }

  // ---- Servers -----------------------------------------------------------------------------------

  lemma ListsAddressIff(servers: seq<Entity>, backend: Backend, addr: string)
    requires ServedBy(servers, backend)
    ensures (exists x :: x in servers && x.Name() == addr) <==>
              Endpoints.Copies(backend.services, backend.port, addr) >= 1
  {
    var addrs := Addresses(servers);
    assert multiset(addrs)[addr] >= 1 <==> addr in addrs;
    if addr in addrs {
      var i :| 0 <= i < |addrs| && addrs[i] == addr;
      assert servers[i] in servers;
    }
    if x :| x in servers && x.Name() == addr {
      var i :| 0 <= i < |servers| && servers[i] == x;
      assert addrs[i] == addr;
    }
  }

  lemma ServerOffered(src: Source, store: ClusterStore, order: seq<string>, name: string, x: Entity)
    requires FromParser(src, store) && Ranged(src, order) && name in src.services && x in src.servers(name)
    ensures ServerItem(x) in Candidates(src, store, order)
  {
    ParserIsGrounded(src, store);
    var k :| 0 <= k < |order| && order[k] == name;
    var services := Assemble(src, order);
    assert services[k] in services && x in services[k].servers;
    OfferedIff(services, ServerItem(x));
  }

  // Whatever else takes the key of a server is a server.
  lemma ServerKept(src: Source, store: ClusterStore, order: seq<string>, name: string, x: Entity) returns (y: Entity)
    requires FromParser(src, store) && WellNamed(src) && Ranged(src, order)
    requires name in src.services && x in src.servers(name)
    ensures y in BuiltFrom(src, store, order).servers && y.Name() == x.Name()
  {
    var items := Candidates(src, store, order);
    ServerOffered(src, store, order, name, x);
    var kept := Survivor(items, ServerItem(x));
    InStateIff(Sift(items), kept);
    SiftIsPart(items, kept);
    ParserIsGrounded(src, store);
    ParserNamesServices(src, store);
    ItemStems(src, order, kept);
    ItemStems(src, order, ServerItem(x));
    SameKeySameKind(src, kept, ServerItem(x));
    y := kept.server;
  }

  lemma ServerStems(src: Source, store: ClusterStore, order: seq<string>, y: Entity) returns (name: string)
    requires FromParser(src, store) && Ranged(src, order) && y in BuiltFrom(src, store, order).servers
    ensures name in src.services && y in src.servers(name)
  {
    var items := Candidates(src, store, order);
    InStateIff(Sift(items), ServerItem(y));
    SiftIsPart(items, ServerItem(y));
    ParserIsGrounded(src, store);
    ItemStems(src, order, ServerItem(y));
    name :| name in src.services && y in src.servers(name);
  }

  // Some Kubernetes service of this service gives the address.
  ghost predicate Given(src: Source, backends: string -> Backend, name: string, addr: string) {
    name in src.services && Endpoints.Copies(backends(name).services, backends(name).port, addr) >= 1
  }

  // Build makes a server of every address some service is given, and of no other.
  lemma ServersBuiltIff(src: Source, store: ClusterStore, order: seq<string>, backends: string -> Backend,
                        addr: string)
    requires FromParser(src, store) && WellNamed(src) && Ranged(src, order) && Backed(src, backends)
    ensures (exists y :: y in BuiltFrom(src, store, order).servers && y.Name() == addr) <==>
              exists name :: Given(src, backends, name, addr)
  {
    if y :| y in BuiltFrom(src, store, order).servers && y.Name() == addr {
      var name := ServerStems(src, store, order, y);
      ListsAddressIff(src.servers(name), backends(name), addr);
      assert Given(src, backends, name, addr);
    }
    if name :| Given(src, backends, name, addr) {
      ListsAddressIff(src.servers(name), backends(name), addr);
      var x :| x in src.servers(name) && x.Name() == addr;
      var y := ServerKept(src, store, order, name, x);
    }
  }

  // ---- Repeated addresses ------------------------------------------------------------------------

  ghost predicate ListedAt(servers: seq<Entity>, i: nat, j: nat, addr: string) {
    i < j < |servers| && servers[i].Name() == addr && servers[j].Name() == addr
  }

  // A service lists an address twice exactly when two Kubernetes services that
  // are reached give it.
  lemma GivenIsListed(servers: seq<Entity>, backend: Backend, addr: string) returns (i: nat, j: nat)
    requires ServedBy(servers, backend) && GivenTwice(backend, addr)
    ensures ListedAt(servers, i, j, addr)
  {
    Endpoints.CopiesAtLeastTwo(backend.services, backend.port, addr);
    i, j := TwoPlaces(Addresses(servers), addr);
  }

  lemma ListedIsGiven(servers: seq<Entity>, backend: Backend, addr: string, i: nat, j: nat)
    requires ServedBy(servers, backend) && ListedAt(servers, i, j, addr)
    ensures GivenTwice(backend, addr)
  {
    var addrs := Addresses(servers);
    assert addrs[i] == addr && addrs[j] == addr;
    TwiceCounted(addrs, i, j);
    Endpoints.CopiesAtLeastTwo(backend.services, backend.port, addr);
  }

  lemma KeptOnceIff(out: RawState, src: Source, name: string, backend: Backend)
    requires ServedBy(src.servers(name), backend)
    ensures KeptOnce(out, ClusterObject(src, name)) <==>
              forall addr | Survives(out, name, addr) :: !GivenTwice(backend, addr)
  {
    var c := ClusterObject(src, name);
    if addr :| Survives(out, name, addr) && GivenTwice(backend, addr) {
      var i, j := GivenIsListed(c.servers, backend, addr);
    }
    if !KeptOnce(out, c) {
      var i, j :| 0 <= i < j < |c.servers| && c.servers[i].Name() == c.servers[j].Name()
                  && Survives(out, name, c.servers[i].Name());
      ListedIsGiven(c.servers, backend, c.servers[i].Name(), i, j);
    }
  }

  // No cluster and server that both survive are given by two Kubernetes services.
  ghost predicate NoneGivenTwice(src: Source, backends: string -> Backend, out: RawState) {
    forall name, addr | name in src.services && Survives(out, name, addr) :: !GivenTwice(backends(name), addr)
  }

  lemma AllKeptOnceIff(src: Source, store: ClusterStore, order: seq<string>, backends: string -> Backend,
                       out: RawState)
    requires FromParser(src, store) && WellNamed(src) && Ranged(src, order) && Backed(src, backends)
    ensures
      var clusters := BuiltFrom(src, store, order).clusters;
      (forall k | 0 <= k < |clusters| :: KeptOnce(out, clusters[k])) <==> NoneGivenTwice(src, backends, out)
  {
    var clusters := BuiltFrom(src, store, order).clusters;
    if NoneGivenTwice(src, backends, out) {
      forall k | 0 <= k < |clusters|
        ensures KeptOnce(out, clusters[k])
      {
        ClusterStems(src, store, order, clusters[k]);
        var name := clusters[k].cluster.name;
        KeptOnceIff(out, src, name, backends(name));
      }
    }
    if forall k | 0 <= k < |clusters| :: KeptOnce(out, clusters[k]) {
      forall name, addr | name in src.services && Survives(out, name, addr)
        ensures !GivenTwice(backends(name), addr)
      {
        ClusterKept(src, store, order, name);
        var k :| 0 <= k < |clusters| && clusters[k] == ClusterObject(src, name);
        KeptOnceIff(out, src, name, backends(name));
      }
    }
  }

  // ---- End to end ----------------------------------------------------------------------------------

  // The target made of any ingresses builds exactly when no cluster and server
  // that both survive are given by two Kubernetes services that are reached.
  lemma IngressesBuildIff(src: Source, store: ClusterStore, order: seq<string>, backends: string -> Backend,
                          raw: RawState, db: DB, snow: nat -> Id, valid: Entity -> bool)
    requires FromParser(src, store) && Ranged(src, order) && Backed(src, backends)
    requires NamesClean(src) && NamesUnique(src) && FewRoutings(src)
    requires IsStable(BuiltFrom(src, store, order), raw) && Ordinary(db) && Fresh(db, snow, Draws(raw))
    ensures Presentable(raw) && Prepared(db, snow, raw, valid).Ok?
    ensures Builds(db, snow, raw, valid) <==> NoneGivenTwice(src, backends, Prepared(db, snow, raw, valid).value)
  {
    BackedIsAddressed(src, backends);
    BuiltIsParsed(src, store, order);
    StableIsPresentable(BuiltFrom(src, store, order), raw);
    ParserToGateway(BuiltFrom(src, store, order), raw, db, snow, valid, 1, []);
    AllKeptOnceIff(src, store, order, backends, Prepared(db, snow, raw, valid).value);
  }

  // When it builds, every clean run puts all of it into the gateway, whatever was
  // there before, and leaves nothing else exactly when there was no orphan.
  lemma IngressesToGateway(src: Source, store: ClusterStore, order: seq<string>, backends: string -> Backend,
                           raw: RawState, gateway: Gateway, db: DB, snow: nat -> Id, valid: Entity -> bool, n: nat,
                           run: seq<Sync.Label>)
    requires FromParser(src, store) && Ranged(src, order) && Backed(src, backends)
    requires NamesClean(src) && NamesUnique(src) && FewRoutings(src)
    requires IsStable(BuiltFrom(src, store, order), raw)
    requires Habitable(gateway) && db.ids == TargetRetry.Listed(gateway) && Ordinary(db)
    requires Fresh(db, snow, Draws(raw)) && FreshFor(gateway, snow, Draws(raw))
    requires Prepared(db, snow, raw, valid).Ok?
    requires NoneGivenTwice(src, backends, Prepared(db, snow, raw, valid).value)
    ensures Builds(db, snow, raw, valid)
    ensures
      var end := SyncFrame.ExecuteFrom(TargetConfig(db, snow, raw, valid, n), gateway, run);
      var rows := TargetRows(Prepared(db, snow, raw, valid).value);
      end.Some? && Sync.Clean(end.value) ==>
        && (forall x | x in rows :: x.Row() in end.value.remote && Same(end.value.remote[x.Row()], x))
        && (Carries(end.value.remote, rows) <==> NoOrphans(gateway))
  {
    IngressesBuildIff(src, store, order, backends, raw, db, snow, valid);
    var c := TargetConfig(db, snow, raw, valid, n);
    var end := SyncFrame.ExecuteFrom(c, gateway, run);
    if end.Some? && Sync.Clean(end.value) {
      UpdateCarriesIff(gateway, raw, valid, c, snow, run);
    }
  }
}
