/** Stand-ins for the parts of Go's net/http that the router touches.
    Handlers are opaque: the router only stores, compares and selects them. */
module Http {

  /** Identifies a handler value the caller built (any non-nil http.Handler). */
  type HandlerId = nat

  /** Identifies a plain function `func(http.ResponseWriter, *http.Request)`. */
  type FuncId = nat

  /** An http.Handler interface value: nil, an opaque handler, or the
      http.HandlerFunc adapter wrapped around a function. */
  datatype HttpHandler = NilHandler | Opaque(id: HandlerId) | FromFunc(fn: FuncId)

  /** The two fields of *http.Request that routing reads:
      `urlHost` is rq.URL.Host (non-empty for absolute-form targets),
      `host` is rq.Host (the Host header, possibly with a port). */
  datatype Request = Request(urlHost: string, host: string)

  /** A Go pointer that may be nil. */
  datatype Option<+T> = None | Some(value: T)
}
