/** route.go: a Route binds one name to one handler. */
module Routes {
  import opened Http

  class Route {
    /** The hostname the route was registered under, as normalised at
        registration. Nothing in the package writes it afterwards. */
    const name: string
    /** The handler dispatched to; replaced only through Handler/HandlerFunc. */
    var handler: HttpHandler

    /** The composite literal `&Route{name: ..., handler: ...}`. */
    constructor (name: string, handler: HttpHandler)
      ensures this.name == name && this.handler == handler
    {
      this.name := name;
      this.handler := handler;
    }

    /** Get: the handler currently bound to the route. */
    function Get(): (h: HttpHandler)
      reads this
      ensures h == handler
    {
      handler
    }

    /** Handler: rebinds the route to `h` and returns the same route for chaining. */
    method Handler(h: HttpHandler) returns (self: Route)
      modifies this
      ensures self == this
      ensures Get() == h
    {
      handler := h;
      self := this;
    }

    /** HandlerFunc: Handler applied to the http.HandlerFunc adapter around `f`. */
    method HandlerFunc(f: FuncId) returns (self: Route)
      modifies this
      ensures self == this
      ensures Get() == FromFunc(f)
    {
      self := Handler(FromFunc(f));
    }
  }
}
