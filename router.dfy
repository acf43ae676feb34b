/** router.go: the virtual-host Router. It keeps a table from hostname to
    Route, and on each request picks the request's host, normalises it and
    dispatches to the matching route's handler or to the fallback. */
module Vhost {
  import opened Http
  import opened Strings
  import opened Routes
  import opened Utf8

  /** The run-time panics the router can raise. */
  datatype Fault =
    | SliceOutOfRange    // host[0:4] on a host shorter than 4 bytes
    | NilHandlerInvoked  // ServeHTTP called on a nil http.Handler

  /** A value, or the panic that prevented it. */
  datatype Result<T> = Ok(value: T) | Panicked(fault: Fault)

  /** What serving one request amounts to. */
  datatype Outcome =
    | Routed(handler: HttpHandler)          // the matched route's handler ran
    | CustomNotFound(handler: HttpHandler)  // no match; the configured NotFound ran
    | Default404                            // no match and no NotFound: http.NotFound
    | Panic(fault: Fault)

  const WwwPrefix: string := "www."

  /** stripStrict: outside strict mode a leading "www." is removed. The
      prefix test slices the first 4 bytes, host[0:4], before comparing, so
      outside strict mode a host of fewer than 4 UTF-8 bytes panics (Faults);
      in strict mode the `&&` short-circuits and nothing is sliced. */
  function StripStrict(strict: bool, host: string): (r: Result<string>)
    ensures r.Panicked? <==> Faults(strict, host)
    ensures r.Panicked? ==> r.fault == SliceOutOfRange
    ensures r.Ok? ==> (r.value != host <==> !strict && |host| >= 4 && host[..4] == WwwPrefix)
    ensures r.Ok? && r.value != host ==> host == WwwPrefix + r.value
  {
    if Faults(strict, host) then Panicked(SliceOutOfRange) else Ok(Stripped(strict, host))
  }

  /** The host stripStrict returns when it does not panic. Go compares the
      first 4 bytes with "www."; since "www." is ASCII those bytes match
      exactly when the first 4 characters do (PrefixTestIsByteTest), and
      host[4:] is then the characters after them. */
  function Stripped(strict: bool, host: string): (r: string)
  {
    if !strict && |host| >= 4 && host[..4] == WwwPrefix then host[4..] else host
  }

  /** The bytes of "www.". */
  const WwwBytes: seq<byte> := [0x77, 0x77, 0x77, 0x2E]

  lemma WwwPrefixIsAscii()
    ensures IsAscii(WwwPrefix) && |WwwPrefix| == 4 && Encode(WwwPrefix) == WwwBytes
  {
  }

  /** The character test of Stripped is Go's byte test host[0:4] == "www.". */
  lemma PrefixTestIsByteTest(host: string)
    requires |Encode(host)| >= 4
    ensures Encode(host)[..4] == WwwBytes <==> |host| >= 4 && host[..4] == WwwPrefix
  {
    WwwPrefixIsAscii();
    AsciiPrefix(host, WwwPrefix);
  }

  /** The normalised host is the tail of the host it came from. */
  lemma StripStrictIsSuffix(strict: bool, host: string)
    requires StripStrict(strict, host).Ok?
    ensures var stripped := StripStrict(strict, host).value;
      |stripped| <= |host| && stripped == host[|host| - |stripped|..]
  {
  }

  /** Stripping is not idempotent: one call removes one "www." only, so a
      host carrying it twice keeps one, and a second call removes that. */
  lemma StripStrictNotIdempotent(name: string)
    ensures StripStrict(false, WwwPrefix + (WwwPrefix + name)) == Ok(WwwPrefix + name)
    ensures StripStrict(false, WwwPrefix + name) == Ok(name)
  {
    StripsOnePrefix(WwwPrefix + name);
    StripsOnePrefix(name);
  }

  /** Outside strict mode one leading "www." goes. */
  lemma StripsOnePrefix(name: string)
    ensures StripStrict(false, WwwPrefix + name) == Ok(name)
  {
    assert (WwwPrefix + name)[..4] == WwwPrefix;
    assert (WwwPrefix + name)[4..] == name;
  }

  /** A host of 4 or more characters that does not start with "www."
      is its own normalised form in either mode. */
  lemma PlainHost(strict: bool, host: string)
    requires |host| >= 4 && host[..4] != WwwPrefix
    ensures StripStrict(strict, host) == Ok(host)
  {
  }

  /** A route name is its key, or its key without the "www." prefix: what
      StripStrict yields in one mode or the other. */
  predicate NameFits(key: string, name: string)
  {
    name == key || key == WwwPrefix + name
  }

  /** Every route in `table` is named after its key. */
  ghost predicate NamesFit(table: map<string, Route>)
  {
    forall k :: k in table ==> NameFits(k, table[k].name)
  }

  /** `name` is what registration derives from `key` in mode `strict`
      (for a key it does not panic on). */
  predicate NamedBy(strict: bool, key: string, name: string)
  {
    name == Stripped(strict, key)
  }

  /** Whatever the mode, a normalised key fits the key it came from. */
  lemma StrippedFits(strict: bool, key: string)
    ensures NameFits(key, Stripped(strict, key))
  {
  }

  /** StripStrict panics on `host` in mode `strict`: outside strict mode,
      Go's len(host), a count of bytes, is below 4 (FaultsIsByteLength).
      Every character takes at least one byte, so only a host of fewer than
      4 characters can fault, and the byte count is consulted for those
      alone. */
  predicate Faults(strict: bool, host: string)
    ensures Faults(strict, host) ==> !strict && |host| < 4
  {
    !strict && |host| < 4 && ByteLen(host) < 4
  }

  /** Faults is Go's test: not strict, and len(host) < 4 in bytes. */
  lemma FaultsIsByteLength(strict: bool, host: string)
    ensures Faults(strict, host) <==> !strict && ByteLen(host) < 4
  {
  }

  /** For an ASCII host, bytes are characters: it faults outside strict
      mode exactly when it is shorter than 4. */
  lemma AsciiFaults(strict: bool, host: string)
    requires IsAscii(host)
    ensures Faults(strict, host) <==> !strict && |host| < 4
  {
    AsciiByteLen(host);
  }

  /** The number of hosts a registration loop stores before StripStrict
      panics on one of them (all of them when none panics). */
  function FirstFault(strict: bool, hosts: seq<string>): (n: nat)
    ensures n <= |hosts|
    ensures forall j :: 0 <= j < n ==> !Faults(strict, hosts[j])
    ensures n < |hosts| ==> Faults(strict, hosts[n])
    decreases |hosts|
  {
    if |hosts| == 0 || Faults(strict, hosts[0]) then 0
    else
      var n := 1 + FirstFault(strict, hosts[1..]);
      assert forall j :: 1 <= j < n ==> hosts[j] == hosts[1..][j - 1];
      n
  }

  /** Up to the first fault, a host faults exactly at that position. */
  lemma FaultsAtFirstFault(strict: bool, hosts: seq<string>, i: nat)
    requires i <= FirstFault(strict, hosts) && i < |hosts|
    ensures Faults(strict, hosts[i]) <==> i == FirstFault(strict, hosts)
  {
  }

  /** The table after `table[keys[j]] = vals[j]` for j = 0 .. |vals| - 1 in
      turn: the writes of a registration loop that stored |vals| hosts. */
  function Store<V>(table: map<string, V>, keys: seq<string>, vals: seq<V>): (r: map<string, V>)
    requires |vals| <= |keys|
    ensures table.Keys <= r.Keys
    decreases |vals|
  {
    if |vals| == 0 then table
    else
      var m := |vals| - 1;
      Store(table, keys, vals[..m])[keys[m] := vals[m]]
  }

  /** Storing adds exactly the keys written. */
  lemma {:induction false} StoreKeys<V>(table: map<string, V>, keys: seq<string>, vals: seq<V>, k: string)
    requires |vals| <= |keys|
    ensures k in Store(table, keys, vals) <==> k in table || k in keys[..|vals|]
    decreases |vals|
  {
    if |vals| > 0 {
      var m := |vals| - 1;
      StoreKeys(table, keys, vals[..m], k);
      assert keys[..m + 1] == keys[..m] + [keys[m]];
    }
  }

  /** A key that is not written keeps its old entry. */
  lemma {:induction false} StoreUntouched<V>(table: map<string, V>, keys: seq<string>, vals: seq<V>, k: string)
    requires |vals| <= |keys| && k in table && k !in keys[..|vals|]
    ensures k in Store(table, keys, vals) && Store(table, keys, vals)[k] == table[k]
    decreases |vals|
  {
    if |vals| > 0 {
      var m := |vals| - 1;
      assert keys[..m + 1] == keys[..m] + [keys[m]];
      StoreUntouched(table, keys, vals[..m], k);
    }
  }

  /** Last write wins: a written key holds the value of its last write. */
  lemma {:induction false} StoreLastWins<V>(table: map<string, V>, keys: seq<string>, vals: seq<V>, j: nat)
    requires j < |vals| <= |keys|
    requires forall i :: j < i < |vals| ==> keys[i] != keys[j]
    ensures keys[j] in Store(table, keys, vals) && Store(table, keys, vals)[keys[j]] == vals[j]
    decreases |vals|
  {
    var m := |vals| - 1;
    if j < m {
      assert keys[m] != keys[j];
      StoreLastWins(table, keys, vals[..m], j);
    }
  }

  /** Storing routes named by StripStrict keeps every name fitting its key. */
  lemma {:induction false} StoreKeepsNamesFit(table: map<string, Route>, strict: bool, keys: seq<string>, vals: seq<Route>)
    requires |vals| <= |keys| && NamesFit(table)
    requires forall j :: 0 <= j < |vals| ==> NamedBy(strict, keys[j], vals[j].name)
    ensures NamesFit(Store(table, keys, vals))
    decreases |vals|
  {
    if |vals| > 0 {
      var m := |vals| - 1;
      StoreKeepsNamesFit(table, strict, keys, vals[..m]);
      StrippedFits(strict, keys[m]);
    }
  }

  /** The position of the last write of `k` among the first `n` keys. */
  function LastIndex(keys: seq<string>, n: nat, k: string): (j: nat)
    requires n <= |keys| && k in keys[..n]
    ensures j < n && keys[j] == k
    ensures forall i :: j < i < n ==> keys[i] != k
    decreases n
  {
    if keys[n - 1] == k then n - 1
    else
      assert keys[..n] == keys[..n - 1] + [keys[n - 1]];
      LastIndex(keys, n - 1, k)
  }

  /** Every host a registration loop wrote maps to a route named by
      StripStrict of that host and bound to the registered handler. */
  lemma {:induction false} WrittenRoute(start: map<string, Route>, strict: bool, h: HttpHandler,
                                        hosts: seq<string>, made: seq<Route>, k: string)
    requires |made| <= |hosts| && k in hosts[..|made|]
    requires forall j :: 0 <= j < |made| ==> NamedBy(strict, hosts[j], made[j].name) && made[j].Get() == h
    ensures k in Store(start, hosts, made)
    ensures NamedBy(strict, k, Store(start, hosts, made)[k].name)
    ensures Store(start, hosts, made)[k].Get() == h
  {
    var j := LastIndex(hosts, |made|, k);
    StoreLastWins(start, hosts, made, j);
  }

  /** Outside strict mode a looked-up key that itself starts with "www."
      comes only from a host carrying the prefix twice: a route stored under
      "www.x" is reached through "www.www.x", never through "www.x". */
  lemma WwwKeyNeedsDoubledPrefix(host: string, key: string)
    requires StripStrict(false, host) == Ok(key) && |key| >= 4 && key[..4] == WwwPrefix
    ensures host == WwwPrefix + key
  {
  }

  /** The host ServeHTTP routes on: rq.URL.Host verbatim when present,
      otherwise rq.Host cut at its first ':' (the "uri-host [':' port]"
      shape of the Host field in section 7.2 of RFC 9110). */
  function SelectHost(rq: Request): (host: string)
    ensures rq.urlHost != "" ==> host == rq.urlHost
    ensures rq.urlHost == "" ==> host <= rq.host && ':' !in host
    ensures rq.urlHost == "" && |host| < |rq.host| ==> rq.host[|host|] == ':'
  {
    if |rq.urlHost| == 0 && |rq.host| != 0 then
      SplitHead(rq.host, ':');
      Split(rq.host, ':')[0]
    else
      rq.urlHost
  }

  /** fallback: the configured NotFound handler, or http.NotFound when it is nil. */
  function Fallback(notFound: HttpHandler): (o: Outcome)
    ensures o == Default404 <==> notFound == NilHandler
    ensures notFound != NilHandler ==> o == CustomNotFound(notFound)
    ensures !o.Routed? && !o.Panic?
  {
    if notFound == NilHandler then Default404 else CustomNotFound(notFound)
  }

  /** No object occurs twice in `s`. */
  ghost predicate Distinct<T>(s: seq<T>)
  {
    forall a, b :: 0 <= a < b < |s| ==> s[a] != s[b]
  }

  /** Appending an object not yet present keeps the objects distinct. */
  lemma AppendKeepsDistinct<T>(s: seq<T>, x: T)
    requires Distinct(s) && x !in s
    ensures Distinct(s + [x])
  {
  }

  /** The loop of Router.Handler: `start` with `h` bound to each host in
      turn, up to the first host StripStrict panics on. `made` lists the
      routes created, in order. */
  method Bind(strict: bool, h: HttpHandler, hosts: seq<string>, start: map<string, Route>)
    returns (table: map<string, Route>, panicked: bool, ghost made: seq<Route>)
    ensures var n := FirstFault(strict, hosts);
      && panicked == (n < |hosts|)
      && |made| == n
      && table == Store(start, hosts, made)
    ensures forall j :: 0 <= j < |made| ==>
      && fresh(made[j])
      && NamedBy(strict, hosts[j], made[j].name)
      && made[j].Get() == h
    ensures Distinct(made)
  {
    panicked := false;
    made := [];
    ghost var n := FirstFault(strict, hosts);
    table := start;
    var i := 0;
    while i < |hosts|
      invariant 0 <= i <= n && |made| == i
      invariant table == Store(start, hosts, made)
      invariant forall j :: 0 <= j < i ==>
        fresh(made[j]) && NamedBy(strict, hosts[j], made[j].name) && made[j].handler == h
      invariant Distinct(made)
    {
      var host := hosts[i];
      var stripped := StripStrict(strict, host);
      FaultsAtFirstFault(strict, hosts, i);
      if stripped.Panicked? {
        panicked := true;
        break;
      }
      var route := new Route(stripped.value, h);
      assert NamedBy(strict, host, route.name);
      table := table[host := route];
      ghost var made' := made + [route];
      assert made'[..i] == made && made'[i] == route;
      AppendKeepsDistinct(made, route);
      made := made';
      i := i + 1;
    }
  }

  class Router {
    /** Registered routes, keyed by the host string given at registration. */
    var routes: map<string, Route>
    /** When set, "www." is not stripped. */
    var Strict: bool
    /** Catch-all handler; NilHandler selects http.NotFound. */
    var NotFound: HttpHandler

    /** Every stored route carries its key, or its key without "www.", as
        name. New establishes it and Handler preserves it; it is a fact about
        the informational `name` field only, which dispatch never reads. */
    ghost predicate Valid()
      reads this
    {
      NamesFit(routes)
    }

    /** New: an empty table, not strict, no NotFound handler. */
    constructor New()
      ensures routes == map[] && !Strict && NotFound == NilHandler
      ensures Valid()
    {
      routes := map[];
      Strict := false;
      NotFound := NilHandler;
    }

    /** GetRoute: the route stored under exactly `name` (no normalisation),
        None (Go's nil) when there is none. */
    function GetRoute(name: string): (route: Option<Route>)
      reads this
      ensures route.Some? <==> name in routes
      ensures route.Some? ==> route.value == routes[name]
    {
      if name in routes then Some(routes[name]) else None
    }

    /** ServeHTTP: what serving `rq` does. Only a non-empty selected host is
        normalised and looked up; a route found runs its handler; anything
        else goes to the fallback. */
    function ServeHTTP(rq: Request): (o: Outcome)
      reads this, routes.Values
      ensures var host := SelectHost(rq);
              var key := StripStrict(Strict, host);
        && (o.Routed? <==>
              host != "" && key.Ok? && key.value in routes && routes[key.value].Get() != NilHandler)
        && (o.Routed? ==> o.handler == routes[key.value].Get())
        && (o.Panic? <==>
              host != "" && (key.Panicked? || (key.value in routes && routes[key.value].Get() == NilHandler)))
        && (o.Panic? && key.Panicked? ==> o == Panic(SliceOutOfRange))
        && (o.Panic? && key.Ok? ==> o == Panic(NilHandlerInvoked))
        && (!o.Routed? && !o.Panic? ==> o == Fallback(NotFound))
        && (host == "" ==> o == Fallback(NotFound))
    {
      var host := SelectHost(rq);
      if |host| == 0 then Fallback(NotFound)
      else match StripStrict(Strict, host)
        case Panicked(f) => Panic(f)
        case Ok(key) =>
          match GetRoute(key)
          case None => Fallback(NotFound)
          case Some(route) =>
            assert route in routes.Values;
            if route.Get() == NilHandler then Panic(NilHandlerInvoked) else Routed(route.Get())
    }

    /** A port after the first ':' of the Host header does not change dispatch. */
    lemma PortIsIgnored(name: string, port: string)
      requires ':' !in name
      ensures ServeHTTP(Request("", name + ":" + port)) == ServeHTTP(Request("", name))
    {
      SplitHeadBeforeSep(name, port, ':');
      SplitNoSep(name, ':');
      assert SelectHost(Request("", name + ":" + port)) == SelectHost(Request("", name));
    }

    /** A non-empty URL host decides dispatch alone; the Host header is ignored. */
    lemma UrlHostWins(urlHost: string, host: string)
      requires urlHost != ""
      ensures ServeHTTP(Request(urlHost, host)) == ServeHTTP(Request(urlHost, ""))
    {
    }

    /** The first-':' cut mangles a bracketed IPv6 literal to "[", which a
        non-strict router then slices out of range. */
    lemma Ipv6LiteralMangled()
      ensures SelectHost(Request("", "[::1]:8080")) == "["
      ensures !Strict ==> ServeHTTP(Request("", "[::1]:8080")) == Panic(SliceOutOfRange)
    {
    }

    /** Handler: binds `h` to every host in turn and returns the router for
        chaining. The loop stops at the first host StripStrict panics on; the
        hosts before it are stored under their raw string, each as a fresh
        Route whose name is the normalised host and whose handler is `h`.
        `made` lists those routes in order. */
    method Handler(h: HttpHandler, hosts: seq<string>) returns (self: Router, panicked: bool, ghost made: seq<Route>)
      modifies this
      ensures self == this
      ensures Strict == old(Strict) && NotFound == old(NotFound)
      ensures var n := FirstFault(Strict, hosts);
        && panicked == (n < |hosts|)
        && |made| == n
        && routes == Store(old(routes), hosts, made)
      ensures forall j :: 0 <= j < |made| ==>
        && fresh(made[j])
        && NamedBy(Strict, hosts[j], made[j].name)
        && made[j].Get() == h
      ensures Distinct(made)
      ensures old(Valid()) ==> Valid()
    {
      self := this;
      panicked := false;
      var table;
      table, panicked, made := Bind(Strict, h, hosts, routes);
      if Valid() {
        StoreKeepsNamesFit(routes, Strict, hosts, made);
      }
      routes := table;
    }

    /** HandlerFunc: Handler with the http.HandlerFunc adapter around `f`. */
    method HandlerFunc(f: FuncId, hosts: seq<string>) returns (self: Router, panicked: bool, ghost made: seq<Route>)
      modifies this
      ensures self == this
      ensures Strict == old(Strict) && NotFound == old(NotFound)
      ensures var n := FirstFault(Strict, hosts);
        && panicked == (n < |hosts|)
        && |made| == n
        && routes == Store(old(routes), hosts, made)
      ensures forall j :: 0 <= j < |made| ==>
        && fresh(made[j])
        && NamedBy(Strict, hosts[j], made[j].name)
        && made[j].Get() == FromFunc(f)
      ensures Distinct(made)
      ensures old(Valid()) ==> Valid()
    {
      self, panicked, made := Handler(FromFunc(f), hosts);
    }
  }
}
