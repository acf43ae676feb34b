/** router_test.go's two tests, and further scenarios of the same shape:
    each method builds a router, registers handlers, serves requests and
    states the outcomes it must get. Requests carry the host in the Host
    header with an empty URL host, as a server sees them. */
module RouterTest {
  import opened Http
  import opened Strings
  import opened Routes
  import opened Utf8
  import opened Vhost

  /** Router.Handler for a single host that StripStrict accepts. */
  method Register(router: Router, h: HttpHandler, host: string) returns (route: Route)
    requires !Faults(router.Strict, host)
    modifies router
    ensures router.routes == old(router.routes)[host := route]
    ensures fresh(route) && route.Get() == h && NamedBy(router.Strict, host, route.name)
    ensures router.Strict == old(router.Strict) && router.NotFound == old(router.NotFound)
  {
    var _, _, made := router.Handler(h, [host]);
    assert [host][..1] == [host];
    WrittenRoute(old(router.routes), router.Strict, h, [host], made, host);
    route := router.routes[host];
  }

  /** Dispatch on a Host header holding a plain name, with or without a port:
      the route stored under the normalised name, or the fallback. */
  lemma Serves(router: Router, host: string, port: string, key: string)
    requires host != "" && ':' !in host && StripStrict(router.Strict, host) == Ok(key)
    ensures router.ServeHTTP(Request("", host + ":" + port)) == router.ServeHTTP(Request("", host))
    ensures key in router.routes && router.routes[key].Get() != NilHandler ==>
      router.ServeHTTP(Request("", host)) == Routed(router.routes[key].Get())
    ensures key in router.routes && router.routes[key].Get() == NilHandler ==>
      router.ServeHTTP(Request("", host)) == Panic(NilHandlerInvoked)
    ensures key !in router.routes ==> router.ServeHTTP(Request("", host)) == Fallback(router.NotFound)
  {
    router.PortIsIgnored(host, port);
    SplitNoSep(host, ':');
  }

  /** The names router_test.go binds: at least 4 characters, no "www."
      prefix, no port separator. */
  lemma TestHostsArePlain()
    ensures |"localhost"| >= 4 && "localhost"[..4] != WwwPrefix && ':' !in "localhost"
    ensures |"127.0.0.1"| >= 4 && "127.0.0.1"[..4] != WwwPrefix && ':' !in "127.0.0.1"
  {
    assert "localhost"[..4] == "loca";
    assert "127.0.0.1"[..4] == "127.";
  }

  /** The example names below: at least 4 characters, no "www." prefix, no
      port separator. */
  lemma ExampleHostsArePlain()
    ensures |"a.com"| >= 4 && "a.com"[..4] != WwwPrefix && ':' !in "a.com"
    ensures |"c.com"| >= 4 && "c.com"[..4] != WwwPrefix && ':' !in "c.com"
    ensures "a.com" != "c.com"
  {
    assert "a.com"[..4] == "a.co";
    assert "c.com"[..4] == "c.co";
  }

  /** Binding `h` to a host that is its own normalised form, then serving
      that host on any port, reaches `h`. */
  method RegisterThenServe(router: Router, h: HttpHandler, host: string, port: string) returns (o: Outcome)
    requires h != NilHandler && host != "" && ':' !in host
    requires StripStrict(router.Strict, host) == Ok(host)
    modifies router
    ensures o == Routed(h)
    ensures router.ServeHTTP(Request("", host + ":" + port)) == Routed(h)
  {
    var route := Register(router, h, host);
    Serves(router, host, port, host);
    o := router.ServeHTTP(Request("", host + ":" + port));
  }

  /** TestNew: handler A bound to "localhost" and B to "127.0.0.1"; requests
      to either name on a port (12345 in the test) reach A and B respectively. */
  method TestNew(a: FuncId, b: FuncId, port: string) returns (viaName: Outcome, viaAddress: Outcome)
    ensures viaName == Routed(FromFunc(a))
    ensures viaAddress == Routed(FromFunc(b))
  {
    var name, address := "localhost", "127.0.0.1";
    TestHostsArePlain();
    PlainHost(false, name);
    PlainHost(false, address);
    var router := new Router.New();
    var routeA := Register(router, FromFunc(a), name);
    var routeB := Register(router, FromFunc(b), address);
    Serves(router, name, port, name);
    Serves(router, address, port, address);
    viaName := router.ServeHTTP(Request("", name + ":" + port));
    viaAddress := router.ServeHTTP(Request("", address + ":" + port));
  }

  /** TestRouter_stripStrict: "www.localhost" loses its prefix on a new
      router and keeps it once Strict is set. */
  method TestStripStrict() returns (loose: Result<string>, strict: Result<string>)
    ensures loose == Ok("localhost")
    ensures strict == Ok("www.localhost")
  {
    var router := new Router.New();
    var url := WwwPrefix + "localhost";
    StripsOnePrefix("localhost");
    assert url == "www.localhost";
    loose := StripStrict(router.Strict, url);
    router.Strict := true;
    strict := StripStrict(router.Strict, url);
  }

  /** Outside strict mode a route registered as "www.a.com" is stored under
      that raw string but every lookup strips the prefix first: neither
      "www.a.com" nor "a.com" reaches it, "www.www.a.com" does. */
  method WwwRegistration(h: HandlerId) returns (viaWww: Outcome, viaBare: Outcome, viaDoubled: Outcome)
    ensures viaWww == Default404
    ensures viaBare == Default404
    ensures viaDoubled == Routed(Opaque(h))
  {
    var bare := "a.com";
    var www := WwwPrefix + bare;
    var doubled := WwwPrefix + www;
    ExampleHostsArePlain();
    PlainHost(false, bare);
    StripsOnePrefix(bare);
    StripsOnePrefix(www);
    var router := new Router.New();
    var route := Register(router, Opaque(h), www);
    assert bare != www;
    Serves(router, www, "", bare);
    Serves(router, bare, "", bare);
    Serves(router, doubled, "", www);
    viaWww := router.ServeHTTP(Request("", www));
    viaBare := router.ServeHTTP(Request("", bare));
    viaDoubled := router.ServeHTTP(Request("", doubled));
  }

  /** A host bound twice routes to the handler bound last. */
  method LastWriteWins(first: HandlerId, second: HandlerId) returns (o: Outcome)
    ensures o == Routed(Opaque(second))
  {
    var host := "a.com";
    ExampleHostsArePlain();
    PlainHost(false, host);
    var router := new Router.New();
    var earlier := Register(router, Opaque(first), host);
    var later := Register(router, Opaque(second), host);
    Serves(router, host, "", host);
    o := router.ServeHTTP(Request("", host));
  }

  /** GetRoute hands out the stored Route itself: rebinding it with
      Route.Handler changes what the router dispatches to. */
  method RebindThroughGetRoute(first: HandlerId, second: HandlerId) returns (o: Outcome)
    ensures o == Routed(Opaque(second))
  {
    var host := "a.com";
    ExampleHostsArePlain();
    PlainHost(false, host);
    var router := new Router.New();
    var stored := Register(router, Opaque(first), host);
    var found := router.GetRoute(host);
    var route := found.value;
    var _ := route.Handler(Opaque(second));
    Serves(router, host, "", host);
    o := router.ServeHTTP(Request("", host));
  }

  /** Each host of one Handler call gets its own Route, even where two hosts
      share a name ("www.a.com" and "a.com" outside strict mode): rebinding
      the route of one leaves dispatch through the other alone. */
  method SameNameRoutesAreSeparate(h: HandlerId, x: HandlerId) returns (o: Outcome)
    ensures o == Routed(Opaque(h))
  {
    var bare := "a.com";
    var www := WwwPrefix + bare;
    ExampleHostsArePlain();
    PlainHost(false, bare);
    var hosts := [www, bare];
    var router := new Router.New();
    var self, panicked;
    ghost var made;
    self, panicked, made := router.Handler(Opaque(h), hosts);
    assert FirstFault(false, hosts) == 2;
    assert www != bare;
    StoreLastWins(map[], hosts, made, 0);
    StoreLastWins(map[], hosts, made, 1);
    var _ := router.routes[www].Handler(Opaque(x));
    Serves(router, bare, "", bare);
    o := router.ServeHTTP(Request("", bare));
  }

  /** Outside strict mode a host shorter than 4 bytes panics in the middle
      of a registration: the hosts before it stay bound, those after it are
      never written. */
  method ShortHostStopsRegistration(h: HandlerId)
    returns (panicked: bool, before: Outcome, after: Outcome)
    ensures panicked
    ensures before == Routed(Opaque(h))
    ensures after == Default404
  {
    var first, short, last := "a.com", "ab", "c.com";
    var hosts := [first, short, last];
    ExampleHostsArePlain();
    PlainHost(false, first);
    PlainHost(false, last);
    AsciiFaults(false, short);
    var router := new Router.New();
    var self;
    ghost var made;
    self, panicked, made := router.Handler(Opaque(h), hosts);
    assert FirstFault(false, hosts) == 1;
    assert hosts[..1] == [first] && last != first;
    WrittenRoute(map[], false, Opaque(h), hosts, made, first);
    StoreKeys(map[], hosts, made, last);
    Serves(router, first, "", first);
    Serves(router, last, "", last);
    before := router.ServeHTTP(Request("", first));
    after := router.ServeHTTP(Request("", last));
  }

  /** In strict mode nothing is sliced, so a short host registers and routes. */
  method StrictShortHost(h: HandlerId) returns (o: Outcome)
    ensures o == Routed(Opaque(h))
  {
    var host := "ab";
    var router := new Router.New();
    router.Strict := true;
    var route := Register(router, Opaque(h), host);
    Serves(router, host, "", host);
    o := router.ServeHTTP(Request("", host));
  }

  /** Go's host[0:4] counts bytes: outside strict mode a 2-character host
      of 4 UTF-8 bytes is sliced without a panic, registers and routes. */
  method MultiByteShortHost(h: HandlerId) returns (o: Outcome)
    ensures o == Routed(Opaque(h))
  {
    var host := "\U{e9}\U{e9}";
    assert ByteLen(host) == 4;
    var router := new Router.New();
    var route := Register(router, Opaque(h), host);
    Serves(router, host, "", host);
    o := router.ServeHTTP(Request("", host));
  }

  /** With NotFound set, an unknown host and an empty Host header both go
      to it instead of http.NotFound. */
  method CustomNotFoundHandler(nf: HandlerId) returns (unknown: Outcome, noHost: Outcome)
    ensures unknown == CustomNotFound(Opaque(nf))
    ensures noHost == CustomNotFound(Opaque(nf))
  {
    var host := "a.com";
    ExampleHostsArePlain();
    PlainHost(false, host);
    var router := new Router.New();
    router.NotFound := Opaque(nf);
    Serves(router, host, "", host);
    unknown := router.ServeHTTP(Request("", host));
    noHost := router.ServeHTTP(Request("", ""));
  }

  /** A route bound to a nil handler is found, and invoking it panics. */
  method NilHandlerPanics() returns (o: Outcome)
    ensures o == Panic(NilHandlerInvoked)
  {
    var host := "a.com";
    ExampleHostsArePlain();
    PlainHost(false, host);
    var router := new Router.New();
    var route := Register(router, NilHandler, host);
    Serves(router, host, "", host);
    o := router.ServeHTTP(Request("", host));
  }
}
