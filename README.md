# go-vhost in Dafny

A model of the `vhost` package (router.go, route.go), a virtual-host
dispatcher for Go's `net/http`.

- A `Router` keeps a table from hostname to `*Route`, a `Strict` flag and an
  optional `NotFound` handler.
- `Handler(h, hosts...)` stores a fresh `Route` for every host.
- `ServeHTTP` picks the request's host, normalises it with `stripStrict` and
  runs the matching route's handler, or falls back to `NotFound`.
- A `fallback` with no `NotFound` set serves `http.NotFound`.

Modules:

- `Http` (http.dfy) stands in for the parts of `net/http` the router touches:
  - handlers are opaque ids (`NilHandler`, `Opaque`, `FromFunc` for the
    `http.HandlerFunc` adapter);
  - a request is the pair (`rq.URL.Host`, `rq.Host`).
- `Strings` (strings.dfy) is `strings.Split` on a one-character separator,
  with its inverse `Join`.
- `Utf8` (utf8.dfy) gives the UTF-8 bytes of a string (`Encode`) and their
  count (`ByteLen`, Go's `len`). Hosts are Dafny strings of characters, but
  Go's `host[0:4]` counts bytes.
- `Routes` (route.dfy) is the `Route` class. Its `handler` field is updated
  in place by its setters.
- `Vhost` (router.dfy) holds:
  - the pure parts of router.go: `StripStrict`, `SelectHost`, `Fallback`;
  - the `Router` class, with `ServeHTTP` and `GetRoute` as functions of its
    state and `Handler`/`HandlerFunc` as methods that update `routes`;
  - the registration loop `Bind`, proved against the specification function
    `Store`.
- `RouterTest` (scenarios.dfy) holds router_test.go's two tests and further
  scenarios. Each one is a method whose postcondition fixes the outcomes.

Go panics are values here:

- `StripStrict` returns `Panicked(SliceOutOfRange)` where `host[0:4]` is out
  of range: outside strict mode, when the host has fewer than 4 UTF-8 bytes.
  A 2-character host such as "éé" has 4 bytes and does not panic.
- `Handler` returns a `panicked` flag. Hosts before the faulting one stay
  stored, because Go evaluates `stripStrict(host)` before the map store.
- `ServeHTTP` returns `Panic(...)` for a short host, or for a route whose
  handler is nil.

The model follows the code where a reader might expect otherwise:

- Routes are stored under the host exactly as given (router.go:93), but
  lookup uses the normalised host (router.go:61). Outside strict mode a route
  registered as "www.x" is not reached by "www.x" or "x", only by
  "www.www.x" (`WwwKeyNeedsDoubledPrefix`, `RouterTest.WwwRegistration`).
- The stored `name` is the normalised host (router.go:94). Dispatch never
  reads it.
- `len(pos) > 0` at router.go:50 always holds, because `strings.Split` never
  returns an empty slice. The model takes the first piece directly.

## Model

| member | source | states |
|---|---|---|
| Vhost.StripStrict | router.go:110-117 | panics (slice out of range) exactly when Faults; otherwise the result differs from host iff the mode is not strict and host starts with "www.", and then host is "www." + result |
| Vhost.Faults | router.go:112 | only a host of fewer than 4 characters, outside strict mode, can fault |
| Vhost.FaultsIsByteLength | router.go:112 | faulting is Go's condition: not strict and len(host) < 4 counted in UTF-8 bytes |
| Vhost.AsciiFaults | router.go:112 | for an ASCII host the byte and character counts agree: faults iff not strict and shorter than 4 |
| Vhost.PrefixTestIsByteTest | router.go:112 | comparing the first 4 bytes with "www." is comparing the first 4 characters |
| Vhost.StripStrictIsSuffix | router.go:112-113 | the normalised host is a suffix of the input and never longer |
| Vhost.StripsOnePrefix | router.go:112-113 | outside strict mode "www." + name normalises to name |
| Vhost.StripStrictNotIdempotent | router.go:112-113 | for every name, "www.www." + name normalises to "www." + name, which normalises to name: one call removes one prefix |
| Vhost.PlainHost | router.go:112-116 | a host of at least 4 characters not starting with "www." normalises to itself in either mode |
| Vhost.StrippedFits | router.go:93-94 | a normalised name is its key, or its key without "www." |
| Vhost.FirstFault | router.go:91-96 | the count of hosts stored before the first host stripStrict panics on: all hosts before it are safe, and the one at it faults |
| Vhost.FaultsAtFirstFault | router.go:91-94 | among the hosts up to the first fault, a host faults exactly at that position |
| Vhost.Store | router.go:91-97 | the reference definition of the loop's map writes in order; the writes never remove a key |
| Vhost.StoreKeys | router.go:91-97 | after the loop's writes, a key is present iff it was present before or was one of the hosts written |
| Vhost.StoreUntouched | router.go:91-97 | a key not among the hosts written keeps its old route |
| Vhost.StoreLastWins | router.go:91-97 | a host written several times holds the value of its last write |
| Vhost.StoreKeepsNamesFit | router.go:93-94 | storing routes named by stripStrict keeps every stored name fitting its key |
| Vhost.LastIndex | router.go:91-93 | a written host has a last write: a position holding it with no later occurrence |
| Vhost.WrittenRoute | router.go:91-96 | every host written maps to a route named stripStrict(host) whose handler is h |
| Vhost.WwwKeyNeedsDoubledPrefix | router.go:61 | outside strict mode a looked-up key starting with "www." comes only from the host "www." + key |
| Vhost.SelectHost | router.go:46-53 | URL host verbatim when non-empty; otherwise a prefix of the Host header with no ':', ending where the header has its first ':' |
| Vhost.Fallback | router.go:78-85 | the default 404 iff NotFound is nil, otherwise NotFound; never a route or a panic |
| Vhost.Bind | router.go:91-97 | the loop stops at the first faulting host, reporting the panic iff there is one; the table is `start` with a fresh route per host stored (Store), each named stripStrict(host) and bound to h; the routes made are pairwise distinct objects, one per host |
| Vhost.Router.constructor | router.go:34-39 | New: empty table, Strict false, no NotFound handler |
| Vhost.Router.GetRoute | router.go:72-74 | the route stored under exactly that name, nil iff there is none |
| Vhost.Router.ServeHTTP | router.go:44-68 | Routed iff the selected host is non-empty, normalises, and its key holds a route with a non-nil handler, and then that handler; panics iff the host is short (then with the slice fault) or the route's handler is nil (then with the nil-handler fault); an empty host and every other case go to fallback |
| Vhost.Router.PortIsIgnored | router.go:48-52 | a port after the first ':' of the Host header does not change dispatch |
| Vhost.Router.UrlHostWins | router.go:46-48 | a non-empty URL host decides dispatch and the Host header is ignored |
| Vhost.Router.Ipv6LiteralMangled | router.go:49-51 | the Host header "[::1]:8080" is cut to "[", and outside strict mode that panics |
| Vhost.Router.Handler | router.go:89-100 | returns the same router; Strict and NotFound unchanged; panics iff some host faults; routes become old routes plus the hosts before the first fault, each a fresh route named stripStrict(host) whose Get is h, and no two of them the same object; stored names keep fitting their keys |
| Vhost.Router.HandlerFunc | router.go:104-106 | the same effect and result as Handler with the http.HandlerFunc adapter around f |
| Strings.Split | router.go:49 | at least one piece; no piece contains the separator; joining the pieces with it gives back the input |
| Strings.SplitHead | router.go:49-51 | the first piece is the text before the first separator, or all of it when there is none |
| Strings.SplitHeadBeforeSep | router.go:49-51 | "name:rest" with no ':' in name has first piece name |
| Strings.SplitNoSep | router.go:49-51 | a string without the separator splits into itself alone |
| Utf8.EncodeRune | router.go:112 | one to four bytes per character; a single byte, equal to it, exactly for ASCII; otherwise a lead byte of at least 0xC0 and continuation bytes 0x80 .. 0xBF |
| Utf8.Encode | router.go:112 | between one and four bytes per character, exactly one for ASCII text |
| Utf8.RuneLen | router.go:112 | one to four bytes, one exactly for ASCII |
| Utf8.ByteLen | router.go:112 | Go's len: between the character count and four times it |
| Utf8.ByteLenIsEncodedLength | router.go:112 | ByteLen counts exactly the bytes Encode writes |
| Utf8.AsciiByteLen | router.go:112 | ASCII text has one byte per character |
| Utf8.AsciiPrefix | router.go:112 | for an ASCII pattern, the leading bytes match it iff the leading characters do |
| Routes.Route.constructor | router.go:93-96 | the composite literal: the given name and handler |
| Routes.Route.Get | route.go:25-27 | the handler currently bound to the route (the one set by the constructor or the last Handler call) |
| Routes.Route.Handler | route.go:12-15 | returns the same route, and Get then gives the new handler |
| Routes.Route.HandlerFunc | route.go:19-21 | the same as Handler with the http.HandlerFunc adapter around f |
| RouterTest.Register | router.go:89-100 | Handler with one safe host: the table gains exactly that host, mapped to a fresh route bound to h |
| RouterTest.Serves | router.go:44-68 | for a plain Host header with or without a port: the route under its normalised key, a panic for a nil handler, or fallback |
| RouterTest.TestHostsArePlain | router_test.go:19-25 | "localhost" and "127.0.0.1" have at least 4 characters, no "www." prefix and no ':' |
| RouterTest.RegisterThenServe | router.go:44-100 | for every router, non-nil handler and host that is its own normalised form with no ':': after Handler(h, host), a request for host on any port reaches h, and the router's ServeHTTP for that request is Routed(h) in the new state |
| RouterTest.TestNew | router_test.go:12-81 | after binding A to "localhost" and B to "127.0.0.1", "localhost:port" reaches A and "127.0.0.1:port" reaches B |
| RouterTest.TestStripStrict | router_test.go:83-98 | "www.localhost" gives "localhost" on a new router, and itself once Strict is set |
| RouterTest.WwwRegistration | router.go:61-96 | a route bound to "www.a.com" outside strict mode is missed through "www.a.com" and "a.com" and reached through "www.www.a.com" |
| RouterTest.LastWriteWins | router.go:91-97 | a host bound twice routes to the handler bound last |
| RouterTest.SameNameRoutesAreSeparate | router.go:91-97 | outside strict mode, "www.a.com" and "a.com" bound in one call get separate routes: rebinding the first leaves a request for "a.com" routed to the original handler |
| RouterTest.RebindThroughGetRoute | router.go:72-74 | GetRoute returns the stored route itself: rebinding it with Route.Handler changes dispatch |
| RouterTest.ShortHostStopsRegistration | router.go:91-96 | a short host in the middle of a registration panics; the host before it is routed and the host after it is not stored |
| RouterTest.StrictShortHost | router.go:112 | in strict mode a 2-byte host registers and routes without a panic |
| RouterTest.MultiByteShortHost | router.go:112 | outside strict mode the 2-character, 4-byte host "éé" registers and routes without a panic |
| RouterTest.CustomNotFoundHandler | router.go:55-64 | with NotFound set, an unknown host and an empty Host header both reach it |
| RouterTest.NilHandlerPanics | router.go:67 | a route bound to a nil handler is found, and invoking it panics |

## Left out

- net/http transport, `ResponseWriter` writes, and the status, headers and body that `http.NotFound` and the handlers produce. Handlers are opaque ids and a response is an `Outcome` tag.
- The internals of the `http.HandlerFunc` adapter. It is the constructor `FromFunc`, and a nil function passed to it is not distinguished from any other.
- A typed-nil pointer inside a non-nil `http.Handler` interface. Only the nil interface (`NilHandler`) is modelled.
- The zero-value `Router{}`, whose nil map would panic on the first `Handler` call. Routers are built by `New` only.
- Concurrency. The comment at router.go:22 assumes no concurrent mutation, so the router is single-threaded here.
- The httptest server, listener and HTTP client of router_test.go:47-60. `TestNew` keeps only the request/response pairs, and takes the port 12345 as any port.
- `TestNew` registers through `Router.Handler` applied to `FromFunc(f)`. `Router.HandlerFunc` is proved to have the same contract.
- Host strings that are not valid UTF-8. Go strings may hold any bytes; here a host is a sequence of Unicode characters, measured through its UTF-8 encoding.
- Host parsing beyond the first-':' cut the code performs. There is no validation, case folding or IPv6 bracket handling, as in the source.
- Vhost.Bind: builds the new table in a local map, which `Router.Handler` assigns to `routes` once the loop ends, rather than writing `r.routes[host]` on each pass. Nothing can observe the table between passes, and the hosts stored before a panic are kept.
- Routes.Route.Handler: does not state that `name` is unchanged, because `name` is a `const`. Nothing in the package writes it after construction.
