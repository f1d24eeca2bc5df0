/**
 * Server construction of Custom_RoundTrippers_Middlewares/.../server:
 * defaulting the address and the mux, then wrapping the mux by the custom
 * middlewares, the basic-auth layer and the logging layer. A handler is
 * modelled by the chain of layers it consists of; a mux and a custom
 * middleware are known by an identity, since what they do is not visible.
 */
module Server {
  import opened Wrappers
  import opened BasicAuth
  import opened Sequences

  /** An `http.Handler` built by `NewServer`. */
  datatype HttpHandler =
    | Mux(mux: nat)
    | Custom(middleware: nat, inner: HttpHandler)
    | Auth(cred: Credentials, inner: HttpHandler)
    | Logging(inner: HttpHandler)

  /** `Config`; a nil `*http.ServeMux` is `None`. */
  datatype Config = Config(addr: string, mux: Option<nat>, log: bool, cred: Credentials)

  /** The fields of `http.Server` that `NewServer` sets. */
  datatype HttpServer = HttpServer(addr: string, handler: HttpHandler)

  datatype Layer = LogLayer | AuthLayer(cred: Credentials) | CustomLayer(middleware: nat)

  /** The layers a request meets before the mux, outermost first. */
  function Layers(h: HttpHandler): seq<Layer>
  {
    match h
    case Mux(_) => []
    case Custom(m, inner) => [CustomLayer(m)] + Layers(inner)
    case Auth(c, inner) => [AuthLayer(c)] + Layers(inner)
    case Logging(inner) => [LogLayer] + Layers(inner)
  }

  /** The mux at the core of a handler. */
  function Innermost(h: HttpHandler): nat
  {
    match h
    case Mux(m) => m
    case Custom(_, inner) => Innermost(inner)
    case Auth(_, inner) => Innermost(inner)
    case Logging(inner) => Innermost(inner)
  }

  /** The handler with the given layers around the given mux. */
  function Build(layers: seq<Layer>, mux: nat): HttpHandler
  {
    if layers == [] then Mux(mux)
    else match layers[0]
      case LogLayer => Logging(Build(layers[1..], mux))
      case AuthLayer(c) => Auth(c, Build(layers[1..], mux))
      case CustomLayer(m) => Custom(m, Build(layers[1..], mux))
  }

  /** A handler is determined by its layers and its mux. */
  lemma {:induction false} LayersDetermineHandler(h: HttpHandler)
    ensures Build(Layers(h), Innermost(h)) == h
  {
    match h
    case Mux(_) =>
    case Custom(_, inner) =>
      LayersDetermineHandler(inner);
    case Auth(_, inner) =>
      LayersDetermineHandler(inner);
    case Logging(inner) =>
      LayersDetermineHandler(inner);
  }

  /** The custom middlewares applied in argument order: the last is outermost. */
  function Wrap(h: HttpHandler, middlewares: seq<nat>): HttpHandler
  {
    if middlewares == [] then h
    else Custom(middlewares[|middlewares| - 1], Wrap(h, middlewares[..|middlewares| - 1]))
  }

  /** The layers `Wrap` adds, outermost first. */
  function CustomLayers(middlewares: seq<nat>): seq<Layer>
  {
    if middlewares == [] then []
    else [CustomLayer(middlewares[|middlewares| - 1])] + CustomLayers(middlewares[..|middlewares| - 1])
  }

  /** The custom layers are the middlewares in reverse: the k-th layer from outside is the k-th middleware from the end. */
  lemma {:induction false} CustomLayersReversed(middlewares: seq<nat>)
    ensures |CustomLayers(middlewares)| == |middlewares|
    ensures forall k :: 0 <= k < |middlewares| ==>
      CustomLayers(middlewares)[k] == CustomLayer(middlewares[|middlewares| - 1 - k])
  {
    if middlewares != [] {
      var front := middlewares[..|middlewares| - 1];
      CustomLayersReversed(front);
      var layers := CustomLayers(middlewares);
      assert layers == [CustomLayer(middlewares[|middlewares| - 1])] + CustomLayers(front);
      forall k | 0 < k < |middlewares|
        ensures CustomLayers(middlewares)[k] == CustomLayer(middlewares[|middlewares| - 1 - k])
      {
        assert layers[k] == CustomLayers(front)[k - 1];
      }
    }
  }

  /** Wrapping adds exactly the custom layers outside and keeps the mux. */
  lemma {:induction false} WrapLayers(h: HttpHandler, middlewares: seq<nat>)
    ensures Layers(Wrap(h, middlewares)) == CustomLayers(middlewares) + Layers(h)
    ensures Innermost(Wrap(h, middlewares)) == Innermost(h)
  {
    if middlewares != [] {
      WrapLayers(h, middlewares[..|middlewares| - 1]);
    }
  }

  /** Basic auth is configured when both the username and the password are non-empty. */
  predicate AuthWanted(cred: Credentials)
  {
    cred.password != "" && cred.username != ""
  }

  /**
   * Whether a request, given what `Request.BasicAuth` finds in it, gets
   * past every layer to the mux, the custom middlewares taken to forward
   * every request.
   */
  function ReachesMux(h: HttpHandler, user: string, pass: string, ok: bool): bool
  {
    match h
    case Mux(_) => true
    case Custom(_, inner) => ReachesMux(inner, user, pass, ok)
    case Auth(c, inner) => BasicAuthMiddleware(c, user, pass, ok) == Delegate && ReachesMux(inner, user, pass, ok)
    case Logging(inner) => ReachesMux(inner, user, pass, ok)
  }

  /** Forwarding custom middlewares let every request through to the mux. */
  lemma {:induction false} CustomsForward(mux: nat, middlewares: seq<nat>, user: string, pass: string, ok: bool)
    ensures ReachesMux(Wrap(Mux(mux), middlewares), user, pass, ok)
  {
    if middlewares != [] {
      CustomsForward(mux, middlewares[..|middlewares| - 1], user, pass, ok);
    }
  }

  /**
   * `NewServer`: an empty address becomes ":8080" and a nil mux a fresh one
   * (`freshMux`). The mux is innermost; around it the custom middlewares,
   * the last one given outermost among them; around those the basic-auth
   * layer iff both credentials are non-empty; outermost the logging layer
   * iff logging is on. With basic auth, exactly the requests carrying the
   * configured credentials reach the mux; without it, all do.
   */
  method NewServer(cfg: Config, middlewares: seq<nat>, freshMux: nat) returns (s: HttpServer)
    ensures s.addr == (if cfg.addr == "" then ":8080" else cfg.addr)
    ensures Innermost(s.handler) == (if cfg.mux.Some? then cfg.mux.value else freshMux)
    ensures Layers(s.handler) ==
      (if cfg.log then [LogLayer] else []) + (if AuthWanted(cfg.cred) then [AuthLayer(cfg.cred)] else []) +
      CustomLayers(middlewares)
    ensures middlewares == [] && !AuthWanted(cfg.cred) && !cfg.log ==> s.handler == Mux(Innermost(s.handler))
    ensures AuthWanted(cfg.cred) ==> forall user, pass, ok :: ReachesMux(s.handler, user, pass, ok) <==>
      ok && user == cfg.cred.username && pass == cfg.cred.password
    ensures !AuthWanted(cfg.cred) ==> forall user, pass, ok :: ReachesMux(s.handler, user, pass, ok)
  {
    var c := cfg;
    if c.addr == "" {
      c := c.(addr := ":8080");
    }
    if c.mux == None {
      c := c.(mux := Some(freshMux));
    }

    var handler := Mux(c.mux.value);

    var i := 0;
    while i < |middlewares|
      invariant 0 <= i <= |middlewares|
      invariant handler == Wrap(Mux(c.mux.value), middlewares[..i])
    {
      assert middlewares[..i + 1][..i] == middlewares[..i];
      handler := Custom(middlewares[i], handler);
      i := i + 1;
    }
    assert middlewares[..i] == middlewares;
    WrapLayers(Mux(c.mux.value), middlewares);
    forall user, pass, ok
      ensures ReachesMux(handler, user, pass, ok)
    {
      CustomsForward(c.mux.value, middlewares, user, pass, ok);
    }

    ghost var inner := handler;
    if c.cred.password != "" && c.cred.username != "" {
      handler := Auth(c.cred, handler);
      forall user, pass, ok
        ensures ReachesMux(handler, user, pass, ok) <==> ok && user == c.cred.username && pass == c.cred.password
      {
        assert ReachesMux(inner, user, pass, ok);
      }
    }
    ghost var authLayers := if AuthWanted(cfg.cred) then [AuthLayer(cfg.cred)] else [];
    assert Layers(handler) == authLayers + CustomLayers(middlewares);

    if c.log {
      handler := Logging(handler);
      AppendAssoc([LogLayer], authLayers, CustomLayers(middlewares));
    }
    return HttpServer(c.addr, handler);
  }
}
