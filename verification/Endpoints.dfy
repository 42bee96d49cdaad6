// Endpoints of Kubernetes services, the servers made of them and the share of
// the traffic quota each server gets.
module Endpoints {
  import opened Entities
  import opened Decimal
  import opened Naming

  datatype Protocol = TCP | UDP | SCTP

  datatype EndpointPort = EndpointPort(name: string, port: int, protocol: Protocol)
  datatype Subset = Subset(ports: seq<EndpointPort>, addresses: seq<string>)

  datatype ServicePort = ServicePort(name: string, port: int, targetPort: string)

  // `subsets` is None when the endpoints could not be fetched.
  datatype Service = Service(
    externalName: Option<string>,
    ports: seq<ServicePort>,
    subsets: Option<seq<Subset>>)

  datatype Endpoint = Endpoint(address: string, port: string) {
    function Text(): string { address + ":" + port }
  }

  // ---- Numbers in texts -----------------------------------------------------------------

  predicate Numeric(s: string) {
    s != "" && forall c | c in s :: IsDigit(c)
  }

  const MAX_INT: int := 0x7FFF_FFFF_FFFF_FFFF

  // An optional sign and a run of digits.
  function Signed(s: string): Option<int> {
    if Numeric(s) then Some(Parse(s))
    else if s != "" && s[0] == '+' && Numeric(s[1..]) then Some(Parse(s[1..]))
    else if s != "" && s[0] == '-' && Numeric(s[1..]) then var n: int := Parse(s[1..]); Some(-n)
    else None
  }

  // strconv.Atoi: no value out of the range of int.
  function Atoi(s: string): Option<int> {
    match Signed(s)
    case None => None
    case Some(n) => if -MAX_INT - 1 <= n <= MAX_INT then Some(n) else None
  }

  // IntOrString.IntValue of a text ignores the error: zero for no number, and
  // the nearest int for one out of range.
  function IntValue(s: string): int {
    match Signed(s)
    case None => 0
    case Some(n) => if n > MAX_INT then MAX_INT else if n < -MAX_INT - 1 then -MAX_INT - 1 else n
  }

  // strconv.Itoa
  function Itoa(n: int): string {
    if n < 0 then "-" + Format(-n) else Format(n)
  }

  lemma SignedOfItoa(n: int)
    ensures Signed(Itoa(n)) == Some(n)
  {
    if n < 0 {
      ParseFormat(-n);
      var s := Itoa(n);
      assert s[0] == '-' && s[0] in s && s[1..] == Format(-n);
    } else {
      ParseFormat(n);
    }
  }

  // The texts of numbers are read back, those of no int are refused, and IntValue
  // of these is the nearest int.
  lemma AtoiOfItoa(n: int)
    ensures -MAX_INT - 1 <= n <= MAX_INT ==> Atoi(Itoa(n)) == Some(n) && IntValue(Itoa(n)) == n
    ensures n > MAX_INT ==> Atoi(Itoa(n)) == None && IntValue(Itoa(n)) == MAX_INT
    ensures n < -MAX_INT - 1 ==> Atoi(Itoa(n)) == None && IntValue(Itoa(n)) == -MAX_INT - 1
  {
    SignedOfItoa(n);
  }

  // The signs and digits a number is made of.
  predicate Spells(s: string) {
    && s != "" && IsDigit(s[|s| - 1])
    && forall i | 0 <= i < |s| :: IsDigit(s[i]) || (i == 0 && (s[0] == '+' || s[0] == '-'))
  }

  // Other texts are refused, and read as zero by IntValue.
  lemma NumberIffSpelled(s: string)
    ensures Signed(s).Some? <==> Spells(s)
    ensures !Spells(s) ==> Atoi(s) == None && IntValue(s) == 0
  {
    if Spells(s) && !Numeric(s) {
      assert s[0] == '+' || s[0] == '-';
      assert |s| > 1 && s[1..] != "";
      assert forall c | c in s[1..] :: IsDigit(c);
    }
  }

  // "%v" of a positive port.
  function PortText(n: int): string
    requires n > 0
  {
    Format(n)
  }

  // ---- getEndpoints ---------------------------------------------------------------------------

  // A TCP port with a valid number, of the service port's name if that has one.
  predicate Fits(p: EndpointPort, port: ServicePort) {
    p.protocol.TCP? && (port.name == "" || port.name == p.name) && p.port > 0
  }

  ghost predicate Offers(subset: Subset, port: ServicePort, e: Endpoint) {
    exists p :: p in subset.ports && Fits(p, port) && e.port == PortText(p.port) && e.address in subset.addresses
  }

  // Port texts have no colon, so ip:port texts tell endpoints apart even when
  // the address is an IPv6 one.
  lemma TextInjective(e: Endpoint, f: Endpoint)
    requires ':' !in e.port && ':' !in f.port
    ensures e.Text() == f.Text() <==> e == f
  {
    if e.Text() == f.Text() {
      SplitAtLast(e.address, e.port, f.address, f.port, ':');
    }
  }

  ghost predicate DistinctEndpoints(es: seq<Endpoint>) {
    forall i, j | 0 <= i < j < |es| :: es[i] != es[j]
  }

  // What the two collections of getEndpoints agree on.
  ghost predicate Recorded(found: seq<Endpoint>, seen: set<string>) {
    && DistinctEndpoints(found)
    && (forall e | e in found :: ':' !in e.port && e.Text() in seen)
    && (forall t | t in seen :: exists e :: e in found && e.Text() == t)
  }

  // The innermost loop: one endpoint port over all addresses of its subset.
  method CollectAddresses(addresses: seq<string>, targetPort: int, found0: seq<Endpoint>, seen0: set<string>)
    returns (found: seq<Endpoint>, seen: set<string>)
    requires targetPort > 0 && Recorded(found0, seen0)
    ensures Recorded(found, seen)
    ensures forall e :: e in found <==> e in found0 || (e.port == PortText(targetPort) && e.address in addresses)
  {
    found, seen := found0, seen0;
    for i := 0 to |addresses|
      invariant Recorded(found, seen)
      invariant forall e ::
                  e in found <==> e in found0 || (e.port == PortText(targetPort) && e.address in addresses[..i])
    {
      var e := Endpoint(addresses[i], PortText(targetPort));
      assert addresses[..i + 1] == addresses[..i] + [addresses[i]];
      SeenIff(found, seen, e);
      if e.Text() !in seen {
        RecordOne(found, seen, e);
        found, seen := found + [e], seen + {e.Text()};
      }
    }
    assert addresses[..|addresses|] == addresses;
  }

  lemma SeenIff(found: seq<Endpoint>, seen: set<string>, e: Endpoint)
    requires Recorded(found, seen) && ':' !in e.port
    ensures e.Text() in seen <==> e in found
  {
    if e.Text() in seen {
      var f :| f in found && f.Text() == e.Text();
      TextInjective(e, f);
    }
  }

  lemma RecordOne(found: seq<Endpoint>, seen: set<string>, e: Endpoint)
    requires Recorded(found, seen) && ':' !in e.port && e !in found
    ensures Recorded(found + [e], seen + {e.Text()})
  {
  }

  ghost predicate OffersBy(ports: seq<EndpointPort>, addresses: seq<string>, port: ServicePort, e: Endpoint) {
    Offers(Subset(ports, addresses), port, e)
  }

  method CollectSubset(subset: Subset, port: ServicePort, found0: seq<Endpoint>, seen0: set<string>)
    returns (found: seq<Endpoint>, seen: set<string>)
    requires Recorded(found0, seen0)
    ensures Recorded(found, seen)
    ensures forall e :: e in found <==> e in found0 || Offers(subset, port, e)
  {
    found, seen := found0, seen0;
    for i := 0 to |subset.ports|
      invariant Recorded(found, seen)
      invariant forall e :: e in found <==> e in found0 || OffersBy(subset.ports[..i], subset.addresses, port, e)
    {
      ghost var before := found;
      var p := subset.ports[i];
      var target := 0;
      if p.protocol == TCP {
        if port.name == "" {
          target := p.port;
        } else if port.name == p.name {
          target := p.port;
        }
      }
      if target > 0 {
        found, seen := CollectAddresses(subset.addresses, target, found, seen);
      }
      forall e
        ensures e in found <==> e in found0 || OffersBy(subset.ports[..i + 1], subset.addresses, port, e)
      {
        OffersNext(subset, port, i, e);
      }
    }
    assert subset.ports[..|subset.ports|] == subset.ports;
  }

  lemma OffersNext(subset: Subset, port: ServicePort, i: nat, e: Endpoint)
    requires i < |subset.ports|
    ensures OffersBy(subset.ports[..i + 1], subset.addresses, port, e) <==>
              || OffersBy(subset.ports[..i], subset.addresses, port, e)
              || (Fits(subset.ports[i], port) && e.port == PortText(subset.ports[i].port)
                  && e.address in subset.addresses)
  {
  }

  // What getEndpoints is to return: for an ExternalName service the name under
  // a positive numeric target port, otherwise what some subset offers.
  ghost predicate Serves(s: Service, port: ServicePort, e: Endpoint) {
    match s.externalName
    case Some(host) => IntValue(port.targetPort) > 0 && e == Endpoint(host, PortText(IntValue(port.targetPort)))
    case None => s.subsets.Some? && exists ss :: ss in s.subsets.value && Offers(ss, port, e)
  }

  // Each endpoint the service has under that port, once.
  method GetEndpoints(s: Service, port: ServicePort) returns (found: seq<Endpoint>)
    ensures DistinctEndpoints(found)
    ensures forall e :: e in found <==> Serves(s, port, e)
  {
    found := [];
    if s.externalName.Some? {
      var targetPort := IntValue(port.targetPort);
      if targetPort <= 0 {
        return;
      }
      return [Endpoint(s.externalName.value, PortText(targetPort))];
    }
    if s.subsets.None? {
      return;
    }
    var subsets := s.subsets.value;
    var seen := {};
    for i := 0 to |subsets|
      invariant Recorded(found, seen)
      invariant forall e :: e in found <==> exists ss :: ss in subsets[..i] && Offers(ss, port, e)
    {
      assert subsets[..i + 1] == subsets[..i] + [subsets[i]];
      found, seen := CollectSubset(subsets[i], port, found, seen);
    }
    assert subsets[..|subsets|] == subsets;
  }

  // ---- getServiceEndpoints ------------------------------------------------------------------------

  // A service port without a name whose target port is the number zero.
  const NO_PORT := ServicePort("", 0, "0")

  predicate Matches(p: ServicePort, backendPort: string) {
    Itoa(p.port) == backendPort || p.targetPort == backendPort || p.name == backendPort
  }

  function FirstMatch(ports: seq<ServicePort>, backendPort: string): ServicePort {
    if ports == [] then NO_PORT
    else if Matches(ports[0], backendPort) then ports[0]
    else FirstMatch(ports[1..], backendPort)
  }

  predicate Portless(s: Service) {
    s.ports == [] && s.externalName.Some?
  }

  // An ExternalName service without ports needs a numeric backend port; meeting
  // one that does not have it ends the search.
  predicate Stops(s: Service, backendPort: string) {
    Portless(s) && Atoi(backendPort).None?
  }

  // int32(n)
  function AsInt32(n: int): (r: int)
    ensures -0x8000_0000 <= r < 0x8000_0000 && (r - n) % 0x1_0000_0000 == 0
  {
    (n + 0x8000_0000) % 0x1_0000_0000 - 0x8000_0000
  }

  function PortFor(s: Service, backendPort: string): ServicePort {
    if Portless(s) && Atoi(backendPort).Some? then ServicePort("", AsInt32(Atoi(backendPort).value), backendPort)
    else FirstMatch(s.ports, backendPort)
  }

  // The first port whose number, target or name reads like the backend port.
  lemma {:induction false} FirstMatchIs(ports: seq<ServicePort>, backendPort: string) returns (i: nat)
    ensures i <= |ports| && forall k | 0 <= k < i ::
              Itoa(ports[k].port) != backendPort && ports[k].targetPort != backendPort && ports[k].name != backendPort
    ensures i == |ports| ==> FirstMatch(ports, backendPort) == NO_PORT
    ensures i < |ports| ==>
              && FirstMatch(ports, backendPort) == ports[i]
              && (Itoa(ports[i].port) == backendPort || ports[i].targetPort == backendPort
                  || ports[i].name == backendPort)
  {
    i := 0;
    if ports != [] && !Matches(ports[0], backendPort) {
      i := FirstMatchIs(ports[1..], backendPort);
      forall k | 0 <= k < i + 1
        ensures Itoa(ports[k].port) != backendPort && ports[k].targetPort != backendPort
                && ports[k].name != backendPort
      {
        assert k == 0 || ports[k] == ports[1..][k - 1];
      }
      i := i + 1;
    }
  }

  // The service contributes a server at this address.
  ghost predicate Contributes(s: Service, backendPort: string, addr: string) {
    exists e :: Serves(s, PortFor(s, backendPort), e) && e.port == backendPort && e.Text() == addr
  }

  // How many services contribute the address before the search ends.
  ghost function Copies(services: seq<Service>, backendPort: string, addr: string): nat {
    if services == [] || Stops(services[0], backendPort) then 0
    else (if Contributes(services[0], backendPort, addr) then 1 else 0) + Copies(services[1..], backendPort, addr)
  }

  // An external service without ports gives its name under the backend port, if
  // that is the plain text of a positive int;
  lemma PortlessContributesIff(s: Service, backendPort: string, addr: string)
    requires Portless(s)
    ensures Contributes(s, backendPort, addr) <==>
              && (exists n: nat :: 0 < n <= MAX_INT && backendPort == Format(n))
              && addr == s.externalName.value + ":" + backendPort
  {
    var port := PortFor(s, backendPort);
    if Contributes(s, backendPort, addr) {
      var e :| Serves(s, port, e) && e.port == backendPort && e.Text() == addr;
      NoPortIsZero();
      assert Atoi(backendPort).Some? && backendPort == Format(IntValue(backendPort));
      assert addr == e.address + ":" + backendPort;
    }
    if n: nat :| 0 < n <= MAX_INT && backendPort == Format(n) {
      AtoiOfItoa(n);
      var e := Endpoint(s.externalName.value, backendPort);
      assert Serves(s, port, e) && e.Text() == s.externalName.value + ":" + backendPort;
    }
  }

  lemma NoPortIsZero()
    ensures IntValue(NO_PORT.targetPort) == 0
  {
    AtoiOfItoa(0);
    assert Itoa(0) == "0";
  }

  // one with ports gives it under the number its matching port targets, if that is
  // the backend port;
  lemma ExternalContributesIff(s: Service, backendPort: string, addr: string)
    requires s.externalName.Some? && s.ports != []
    ensures
      var target := IntValue(FirstMatch(s.ports, backendPort).targetPort);
      Contributes(s, backendPort, addr) <==>
        target > 0 && backendPort == Format(target) && addr == s.externalName.value + ":" + backendPort
  {
    var target := IntValue(FirstMatch(s.ports, backendPort).targetPort);
    var e := Endpoint(s.externalName.value, backendPort);
    if target > 0 && backendPort == Format(target) && addr == s.externalName.value + ":" + backendPort {
      assert Serves(s, PortFor(s, backendPort), e) && e.Text() == addr;
    }
  }

  // a service with endpoints gives each address of a subset that has the backend
  // port among its TCP ports, of the name of the service's port if that has one.
  lemma ContributesIff(s: Service, backendPort: string, addr: string)
    requires s.externalName.None?
    ensures
      var port := FirstMatch(s.ports, backendPort);
      Contributes(s, backendPort, addr) <==>
        && s.subsets.Some?
        && exists ss, p, host :: ss in s.subsets.value && p in ss.ports && host in ss.addresses
             && p.protocol.TCP? && (port.name == "" || port.name == p.name) && p.port > 0
             && backendPort == Format(p.port) && addr == host + ":" + backendPort
  {
    var port := FirstMatch(s.ports, backendPort);
    assert PortFor(s, backendPort) == port;
    if Contributes(s, backendPort, addr) {
      var e :| Serves(s, port, e) && e.port == backendPort && e.Text() == addr;
      var ss :| ss in s.subsets.value && Offers(ss, port, e);
      assert addr == e.address + ":" + backendPort;
    }
    if s.subsets.Some? {
      forall ss, p, host | ss in s.subsets.value && p in ss.ports && host in ss.addresses
             && p.protocol.TCP? && (port.name == "" || port.name == p.name) && p.port > 0
             && backendPort == Format(p.port) && addr == host + ":" + backendPort
        ensures Contributes(s, backendPort, addr)
      {
        var e := Endpoint(host, backendPort);
        assert Offers(ss, port, e);
        assert Serves(s, port, e) && e.Text() == addr;
      }
    }
  }

  method SelectPort(ports: seq<ServicePort>, backendPort: string) returns (port: ServicePort)
    ensures port == FirstMatch(ports, backendPort)
  {
    for i := 0 to |ports|
      invariant FirstMatch(ports, backendPort) == FirstMatch(ports[i..], backendPort)
    {
      if Itoa(ports[i].port) == backendPort || ports[i].targetPort == backendPort || ports[i].name == backendPort {
        return ports[i];
      }
    }
    port := NO_PORT;
  }

  ghost predicate Addressed(endpoints: seq<Endpoint>, backendPort: string, addr: string) {
    exists e :: e in endpoints && e.port == backendPort && e.Text() == addr
  }

  method KeepBackendPort(endpoints: seq<Endpoint>, backendPort: string) returns (addrs: seq<string>)
    requires DistinctEndpoints(endpoints)
    ensures forall i, j | 0 <= i < j < |addrs| :: addrs[i] != addrs[j]
    ensures forall a :: a in addrs <==> Addressed(endpoints, backendPort, a)
  {
    addrs := [];
    for i := 0 to |endpoints|
      invariant forall i, j | 0 <= i < j < |addrs| :: addrs[i] != addrs[j]
      invariant forall a :: a in addrs <==> Addressed(endpoints[..i], backendPort, a)
    {
      forall a
        ensures Addressed(endpoints[..i + 1], backendPort, a) <==>
                  || Addressed(endpoints[..i], backendPort, a)
                  || (endpoints[i].port == backendPort && endpoints[i].Text() == a)
      {
        AddressedNext(endpoints, i, backendPort, a);
      }
      if endpoints[i].port == backendPort {
        NewAddress(endpoints, i);
        addrs := addrs + [endpoints[i].Text()];
      }
    }
    assert endpoints[..|endpoints|] == endpoints;
  }

  lemma AddressedNext(endpoints: seq<Endpoint>, i: nat, backendPort: string, a: string)
    requires i < |endpoints|
    ensures Addressed(endpoints[..i + 1], backendPort, a) <==>
              || Addressed(endpoints[..i], backendPort, a)
              || (endpoints[i].port == backendPort && endpoints[i].Text() == a)
  {
  }

  lemma NewAddress(endpoints: seq<Endpoint>, i: nat)
    requires i < |endpoints| && DistinctEndpoints(endpoints)
    ensures !Addressed(endpoints[..i], endpoints[i].port, endpoints[i].Text())
  {
    forall e | e in endpoints[..i] && e.port == endpoints[i].port
      ensures e.Text() != endpoints[i].Text()
    {
      SamePortText(e, endpoints[i]);
    }
  }

  lemma SamePortText(e: Endpoint, f: Endpoint)
    requires e.port == f.port
    ensures e.Text() == f.Text() <==> e == f
  {
    assert e.address == e.Text()[..|e.Text()| - |e.port| - 1];
    assert f.address == f.Text()[..|f.Text()| - |f.port| - 1];
  }

  // Every address comes out once for each service that contributes it.
  method GetServiceEndpoints(services: seq<Service>, backendPort: string) returns (addrs: seq<string>)
    ensures forall a :: multiset(addrs)[a] == Copies(services, backendPort, a)
  {
    addrs := [];
    for i := 0 to |services|
      invariant forall a ::
                  multiset(addrs)[a] + Copies(services[i..], backendPort, a) == Copies(services, backendPort, a)
    {
      if Portless(services[i]) && Atoi(backendPort).None? {
        return;
      }
      var port: ServicePort;
      if Portless(services[i]) {
        port := PortFor(services[i], backendPort);
      } else {
        port := SelectPort(services[i].ports, backendPort);
      }
      var endpoints := GetEndpoints(services[i], port);
      var more := KeepBackendPort(endpoints, backendPort);
      forall a
        ensures multiset(more)[a] == if Contributes(services[i], backendPort, a) then 1 else 0
      {
        OnceEach(more, a);
        assert Addressed(endpoints, backendPort, a) <==> Contributes(services[i], backendPort, a);
      }
      addrs := addrs + more;
    }
  }

  lemma {:induction false} OnceEach(xs: seq<string>, a: string)
    requires forall i, j | 0 <= i < j < |xs| :: xs[i] != xs[j]
    ensures multiset(xs)[a] == if a in xs then 1 else 0
  {
    if xs != [] {
      var init, last := xs[..|xs| - 1], xs[|xs| - 1];
      assert xs == init + [last];
      OnceEach(init, a);
    }
  }

  // The service is reached: no service up to it ends the search.
  ghost predicate Reached(services: seq<Service>, backendPort: string, i: nat) {
    i < |services| && forall k | 0 <= k <= i :: !Stops(services[k], backendPort)
  }

  ghost predicate Gives(services: seq<Service>, backendPort: string, addr: string, i: nat) {
    Reached(services, backendPort, i) && Contributes(services[i], backendPort, addr)
  }

  // What a service means for the search: it ends it, or it gives the address.
  datatype Flag = Flag(stop: bool, give: bool)

  ghost function FlagOf(s: Service, backendPort: string, addr: string): Flag {
    Flag(Stops(s, backendPort), Contributes(s, backendPort, addr))
  }

  ghost function Flags(services: seq<Service>, backendPort: string, addr: string): (flags: seq<Flag>)
    ensures |flags| == |services|
    ensures forall i | 0 <= i < |services| :: flags[i] == FlagOf(services[i], backendPort, addr)
  {
    seq(|services|, i requires 0 <= i < |services| => FlagOf(services[i], backendPort, addr))
  }

  function Count(flags: seq<Flag>): nat {
    if flags == [] || flags[0].stop then 0 else (if flags[0].give then 1 else 0) + Count(flags[1..])
  }

  ghost predicate Raised(flags: seq<Flag>, i: nat) {
    i < |flags| && flags[i].give && forall k | 0 <= k <= i :: !flags[k].stop
  }

  lemma RaisedShift(flags: seq<Flag>, i: nat)
    requires flags != [] && !flags[0].stop
    ensures Raised(flags, i + 1) <==> Raised(flags[1..], i)
  {
    if Raised(flags[1..], i) {
      forall k | 0 <= k <= i + 1
        ensures !flags[k].stop
      {
        assert k == 0 || flags[k] == flags[1..][k - 1];
      }
    }
    if Raised(flags, i + 1) {
      assert forall k | 0 <= k <= i :: flags[1..][k] == flags[k + 1];
    }
  }

  lemma {:induction false} OneRaised(flags: seq<Flag>) returns (i: nat)
    requires Count(flags) >= 1
    ensures Raised(flags, i)
  {
    if flags[0].give {
      i := 0;
    } else {
      i := OneRaised(flags[1..]);
      RaisedShift(flags, i);
      i := i + 1;
    }
  }

  lemma {:induction false} TwoRaised(flags: seq<Flag>) returns (i: nat, j: nat)
    requires Count(flags) >= 2
    ensures i < j && Raised(flags, i) && Raised(flags, j)
  {
    if flags[0].give {
      j := OneRaised(flags[1..]);
      RaisedShift(flags, j);
      i, j := 0, j + 1;
    } else {
      i, j := TwoRaised(flags[1..]);
      RaisedShift(flags, i);
      RaisedShift(flags, j);
      i, j := i + 1, j + 1;
    }
  }

  lemma {:induction false} RaisedCounts(flags: seq<Flag>, i: nat)
    requires Raised(flags, i)
    ensures Count(flags) >= 1
  {
    assert !flags[0].stop;
    if i > 0 {
      RaisedShift(flags, i - 1);
      RaisedCounts(flags[1..], i - 1);
    }
  }

  lemma {:induction false} RaisedCountTwice(flags: seq<Flag>, i: nat, j: nat)
    requires i < j && Raised(flags, i) && Raised(flags, j)
    ensures Count(flags) >= 2
  {
    assert !flags[0].stop;
    RaisedShift(flags, j - 1);
    if i == 0 {
      RaisedCounts(flags[1..], j - 1);
    } else {
      RaisedShift(flags, i - 1);
      RaisedCountTwice(flags[1..], i - 1, j - 1);
    }
  }

  lemma {:induction false} CopiesIsCount(services: seq<Service>, backendPort: string, addr: string)
    ensures Copies(services, backendPort, addr) == Count(Flags(services, backendPort, addr))
  {
    if services != [] {
      CopiesIsCount(services[1..], backendPort, addr);
      assert Flags(services, backendPort, addr)[1..] == Flags(services[1..], backendPort, addr);
    }
  }

  lemma GivesIsRaised(services: seq<Service>, backendPort: string, addr: string, i: nat)
    ensures Gives(services, backendPort, addr, i) <==> Raised(Flags(services, backendPort, addr), i)
  {
  }

  // So a cluster lists an address twice exactly when two services that are
  // reached have the endpoint.
  lemma CopiesAtLeastTwo(services: seq<Service>, backendPort: string, addr: string)
    ensures Copies(services, backendPort, addr) >= 1 <==> exists i: nat :: Gives(services, backendPort, addr, i)
    ensures Copies(services, backendPort, addr) >= 2 <==>
              exists i: nat, j: nat ::
                i < j && Gives(services, backendPort, addr, i) && Gives(services, backendPort, addr, j)
  {
    var flags := Flags(services, backendPort, addr);
    CopiesIsCount(services, backendPort, addr);
    forall i: nat
      ensures Gives(services, backendPort, addr, i) <==> Raised(flags, i)
    {
      GivesIsRaised(services, backendPort, addr, i);
    }
    CountsIff(flags);
  }

  lemma CountsIff(flags: seq<Flag>)
    ensures Count(flags) >= 1 <==> exists i: nat :: Raised(flags, i)
    ensures Count(flags) >= 2 <==> exists i: nat, j: nat :: i < j && Raised(flags, i) && Raised(flags, j)
  {
    if Count(flags) >= 1 {
      var i := OneRaised(flags);
    }
    if Count(flags) >= 2 {
      var i, j := TwoRaised(flags);
    }
    if i: nat :| Raised(flags, i) {
      RaisedCounts(flags, i);
    }
    if i: nat, j: nat :| i < j && Raised(flags, i) && Raised(flags, j) {
      RaisedCountTwice(flags, i, j);
    }
  }

  // An external service without ports ends the search when the backend port is no
  // number: nothing that comes after it gives a server.
  lemma {:induction false} SearchEndsThere(services: seq<Service>, backendPort: string, addr: string, i: nat)
    requires i < |services| && services[i].ports == [] && services[i].externalName.Some?
    requires Atoi(backendPort).None?
    ensures Copies(services, backendPort, addr) == Copies(services[..i], backendPort, addr)
  {
    if i > 0 && !Stops(services[0], backendPort) {
      assert services[1..][..i - 1] == services[..i][1..];
      SearchEndsThere(services[1..], backendPort, addr, i - 1);
    }
  }

  // A named backend port finds no server at all, because servers are compared
  // with it by number.
  lemma {:induction false} NamedPortFindsNothing(services: seq<Service>, backendPort: string, addr: string)
    requires !Numeric(backendPort)
    ensures Copies(services, backendPort, addr) == 0
  {
    if services != [] && !Stops(services[0], backendPort) {
      NamedPortFindsNothing(services[1..], backendPort, addr);
    }
  }

  // ---- Quotas ---------------------------------------------------------------------------------------

  type UInt64 = n: int | 0 <= n < 0x1_0000_0000_0000_0000

  datatype Share = Share(addr: string, maxQPS: int, breaker: string)
  datatype Traffic = Traffic(maxQPS: UInt64, breaker: string)

  // int(x) of a uint64
  function AsInt(x: UInt64): int {
    if x < 0x8000_0000_0000_0000 then x else x - 0x1_0000_0000_0000_0000
  }

  // Go's integer division, which truncates toward zero.
  function Quotient(a: int, n: nat): (q: int)
    requires n > 0
    ensures if a >= 0 then 0 <= a - n * q < n else 0 <= n * q - a < n
  {
    if a >= 0 then a / n else -(-a / n)
  }

  function Total(shares: seq<Share>): int {
    if shares == [] then 0 else Total(shares[..|shares| - 1]) + shares[|shares| - 1].maxQPS
  }

  lemma {:induction false} TotalOfEqual(shares: seq<Share>, qps: int)
    requires forall i | 0 <= i < |shares| :: shares[i].maxQPS == qps
    ensures Total(shares) == |shares| * qps
  {
    if shares != [] {
      TotalOfEqual(shares[..|shares| - 1], qps);
      assert |shares| * qps == (|shares| - 1) * qps + qps;
    }
  }

  // The part of fillOverride that hands out the quota.
  method FillQuota(servers: seq<string>, traffic: Option<Traffic>) returns (shares: seq<Share>)
    ensures |shares| == |servers| && forall i | 0 <= i < |servers| :: shares[i].addr == servers[i]
    ensures traffic.None? ==> forall i | 0 <= i < |shares| :: shares[i].maxQPS == 0 && shares[i].breaker == ""
    ensures traffic.Some? && servers != [] ==>
              Total(shares) == |servers| * Quotient(AsInt(traffic.value.maxQPS), |servers|)
    ensures traffic.Some? ==> forall i, j | 0 <= i < |shares| && 0 <= j < |shares| ::
              shares[i].maxQPS == shares[j].maxQPS && shares[i].breaker == traffic.value.breaker
  {
    var qps, breaker := 0, "";
    if servers != [] && traffic.Some? {
      qps, breaker := Quotient(AsInt(traffic.value.maxQPS), |servers|), traffic.value.breaker;
    }
    shares := [];
    for i := 0 to |servers|
      invariant |shares| == i
      invariant forall k | 0 <= k < i :: shares[k] == Share(servers[k], qps, breaker)
    {
      shares := shares + [Share(servers[i], qps, breaker)];
    }
    TotalOfEqual(shares, qps);
  }

  // The shares add up to the policy's quota, up to rounding, exactly when the
  // quota is below 2^63; from there on the conversion to int makes it negative.
  lemma QuotaConservedIff(maxQPS: UInt64, n: nat)
    requires 0 < n < 0x8000_0000_0000_0000
    ensures n * Quotient(AsInt(maxQPS), n) <= maxQPS
    ensures maxQPS - n < n * Quotient(AsInt(maxQPS), n) <==> maxQPS < 0x8000_0000_0000_0000
  {
  }
}
