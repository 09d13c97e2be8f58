/**
  The simplified ServerX: options that build the server's configuration
  in argument order, the JWT and logger modules whose interceptors the
  options install, and the routing predicate that splits one port between
  the gRPC server and the HTTP gateway.
 */
module ServerXDemo {
  import opened Rpc

  const DefaultAddress: string := "0.0.0.0:8080"

  datatype JWTModule = JWTModule(enabled: bool, secret: string)
  datatype LoggerModule = LoggerModule(enabled: bool, level: string)

  /** Registration callbacks and interceptors supplied by the user are
      code this model does not see; they are known by identity only. */
  datatype GrpcRegister = GrpcRegister(id: nat)
  datatype HttpRegister = HttpRegister(id: nat)
  datatype StreamInterceptor = StreamInterceptor(id: nat)

  /** A unary interceptor: one a module produced, or one the user passed in. */
  datatype UnaryInterceptor =
    | JwtInterceptor(jwt: JWTModule)
    | LoggerInterceptor(logger: LoggerModule)
    | UserInterceptor(id: nat)

  /** The options `NewServerX` accepts. */
  datatype ServerOption =
    | WithGrpcRegisters(grpcRegs: seq<GrpcRegister>)
    | WithHttpRegisters(httpRegs: seq<HttpRegister>)
    | WithUnaryInterceptors(unary: seq<UnaryInterceptor>)
    | WithJWTAuth(secret: string)
    | WithLogging(level: string)

  /** The fields of a ServerX, as one value. */
  datatype Config = Config(
    address: string,
    protobufFiles: seq<string>,
    grpcRegisters: seq<GrpcRegister>,
    httpRegisters: seq<HttpRegister>,
    unaryInterceptors: seq<UnaryInterceptor>,
    streamInterceptors: seq<StreamInterceptor>,
    jwtModule: Option<JWTModule>,
    loggerModule: Option<LoggerModule>)

  /** The server `NewServerX` starts from before any option runs. */
  function Defaults(): Config
  {
    Config(DefaultAddress, [], [], [], [], [], None, None)
  }

  /** What one option does to the configuration. */
  function ApplyOption(cfg: Config, opt: ServerOption): Config
  {
    match opt
    case WithGrpcRegisters(regs) => cfg.(grpcRegisters := cfg.grpcRegisters + regs)
    case WithHttpRegisters(regs) => cfg.(httpRegisters := cfg.httpRegisters + regs)
    case WithUnaryInterceptors(ics) => cfg.(unaryInterceptors := cfg.unaryInterceptors + ics)
    case WithJWTAuth(secret) =>
      var m := JWTModule(true, secret);
      cfg.(jwtModule := Some(m), unaryInterceptors := cfg.unaryInterceptors + [JwtInterceptor(m)])
    case WithLogging(level) =>
      var m := LoggerModule(true, level);
      cfg.(loggerModule := Some(m), unaryInterceptors := cfg.unaryInterceptors + [LoggerInterceptor(m)])
  }

  /** The defaults with the options applied one after another, first to last. */
  function Build(opts: seq<ServerOption>): Config
  {
    if |opts| == 0 then Defaults() else ApplyOption(Build(opts[..|opts| - 1]), opts[|opts| - 1])
  }

  // ---------------------------------------------------------------------
  // What each option adds, read off the option list from its head; the
  // lemmas below tie these views to Build.

  /** The interceptors one option appends. */
  function UnaryAdded(opt: ServerOption): seq<UnaryInterceptor>
  {
    match opt
    case WithUnaryInterceptors(ics) => ics
    case WithJWTAuth(secret) => [JwtInterceptor(JWTModule(true, secret))]
    case WithLogging(level) => [LoggerInterceptor(LoggerModule(true, level))]
    case _ => []
  }

  /** All interceptors the options append, in option order. */
  function AllUnary(opts: seq<ServerOption>): seq<UnaryInterceptor>
  {
    if opts == [] then [] else UnaryAdded(opts[0]) + AllUnary(opts[1..])
  }

  function AllGrpcRegisters(opts: seq<ServerOption>): seq<GrpcRegister>
  {
    if opts == [] then [] else (if opts[0].WithGrpcRegisters? then opts[0].grpcRegs else []) + AllGrpcRegisters(opts[1..])
  }

  function AllHttpRegisters(opts: seq<ServerOption>): seq<HttpRegister>
  {
    if opts == [] then [] else (if opts[0].WithHttpRegisters? then opts[0].httpRegs else []) + AllHttpRegisters(opts[1..])
  }

  /** The module of the last WithJWTAuth, if any. */
  function LastJwt(opts: seq<ServerOption>): Option<JWTModule>
  {
    if opts == [] then None
    else match LastJwt(opts[1..])
      case Some(m) => Some(m)
      case None => if opts[0].WithJWTAuth? then Some(JWTModule(true, opts[0].secret)) else None
  }

  /** The module of the last WithLogging, if any. */
  function LastLogger(opts: seq<ServerOption>): Option<LoggerModule>
  {
    if opts == [] then None
    else match LastLogger(opts[1..])
      case Some(m) => Some(m)
      case None => if opts[0].WithLogging? then Some(LoggerModule(true, opts[0].level)) else None
  }

  lemma {:induction false} AllUnarySnoc(opts: seq<ServerOption>, o: ServerOption)
    ensures AllUnary(opts + [o]) == AllUnary(opts) + UnaryAdded(o)
  {
    if opts != [] {
      assert (opts + [o])[1..] == opts[1..] + [o];
      AllUnarySnoc(opts[1..], o);
    }
  }

  lemma {:induction false} AllGrpcRegistersSnoc(opts: seq<ServerOption>, o: ServerOption)
    ensures AllGrpcRegisters(opts + [o]) == AllGrpcRegisters(opts) + (if o.WithGrpcRegisters? then o.grpcRegs else [])
  {
    if opts != [] {
      assert (opts + [o])[1..] == opts[1..] + [o];
      AllGrpcRegistersSnoc(opts[1..], o);
    }
  }

  lemma {:induction false} AllHttpRegistersSnoc(opts: seq<ServerOption>, o: ServerOption)
    ensures AllHttpRegisters(opts + [o]) == AllHttpRegisters(opts) + (if o.WithHttpRegisters? then o.httpRegs else [])
  {
    if opts != [] {
      assert (opts + [o])[1..] == opts[1..] + [o];
      AllHttpRegistersSnoc(opts[1..], o);
    }
  }

  lemma {:induction false} LastModulesSnoc(opts: seq<ServerOption>, o: ServerOption)
    ensures LastJwt(opts + [o]) == if o.WithJWTAuth? then Some(JWTModule(true, o.secret)) else LastJwt(opts)
    ensures LastLogger(opts + [o]) == if o.WithLogging? then Some(LoggerModule(true, o.level)) else LastLogger(opts)
  {
    if opts != [] {
      assert (opts + [o])[1..] == opts[1..] + [o];
      LastModulesSnoc(opts[1..], o);
    }
  }

  /** The lists only ever grow: the registers and unary interceptors of the
      built server are everything the options passed or installed, in
      option order, after the (empty) defaults. Applying WithJWTAuth or
      WithLogging twice installs two interceptors. The address and the
      stream interceptors stay at their defaults, since no option sets them. */
  lemma {:induction false} BuildAccumulates(opts: seq<ServerOption>)
    ensures Build(opts).unaryInterceptors == AllUnary(opts)
    ensures Build(opts).grpcRegisters == AllGrpcRegisters(opts)
    ensures Build(opts).httpRegisters == AllHttpRegisters(opts)
    ensures Build(opts).address == DefaultAddress
    ensures Build(opts).protobufFiles == [] && Build(opts).streamInterceptors == []
  {
    if opts != [] {
      var init, o := opts[..|opts| - 1], opts[|opts| - 1];
      assert opts == init + [o];
      BuildAccumulates(init);
      AllUnarySnoc(init, o);
      AllGrpcRegistersSnoc(init, o);
      AllHttpRegistersSnoc(init, o);
    }
  }

  /** The module fields are last-write-wins: the built server holds the
      module of the last WithJWTAuth and of the last WithLogging, or none. */
  lemma {:induction false} BuildLastModuleWins(opts: seq<ServerOption>)
    ensures Build(opts).jwtModule == LastJwt(opts)
    ensures Build(opts).loggerModule == LastLogger(opts)
  {
    if opts != [] {
      var init, o := opts[..|opts| - 1], opts[|opts| - 1];
      assert opts == init + [o];
      BuildLastModuleWins(init);
      LastModulesSnoc(init, o);
    }
  }

  /** The server being configured. */
  class ServerX {
    var address: string
    var protobufFiles: seq<string>
    var grpcRegisters: seq<GrpcRegister>
    var httpRegisters: seq<HttpRegister>
    var unaryInterceptors: seq<UnaryInterceptor>
    var streamInterceptors: seq<StreamInterceptor>
    var jwtModule: Option<JWTModule>
    var loggerModule: Option<LoggerModule>

    function Snapshot(): Config
      reads this
    {
      Config(address, protobufFiles, grpcRegisters, httpRegisters,
             unaryInterceptors, streamInterceptors, jwtModule, loggerModule)
    }

    /** `NewServerX(options...)`: the defaults, then every option in
        argument order. */
    constructor (options: seq<ServerOption>)
      ensures Snapshot() == Build(options)
      ensures options == [] ==> address == DefaultAddress && unaryInterceptors == [] && streamInterceptors == []
    {
      address := DefaultAddress;
      protobufFiles := [];
      grpcRegisters := [];
      httpRegisters := [];
      unaryInterceptors := [];
      streamInterceptors := [];
      jwtModule := None;
      loggerModule := None;
      new;
      var i := 0;
      while i < |options|
        invariant 0 <= i <= |options|
        invariant Snapshot() == Build(options[..i])
      {
        Apply(options[i]);
        assert options[..i + 1][..i] == options[..i];
        i := i + 1;
      }
      assert options[..|options|] == options;
    }

    /** Runs one option closure on this server. */
    method Apply(opt: ServerOption)
      modifies this
      ensures Snapshot() == ApplyOption(old(Snapshot()), opt)
    {
      match opt
      case WithGrpcRegisters(regs) =>
        grpcRegisters := grpcRegisters + regs;
      case WithHttpRegisters(regs) =>
        httpRegisters := httpRegisters + regs;
      case WithUnaryInterceptors(ics) =>
        unaryInterceptors := unaryInterceptors + ics;
      case WithJWTAuth(secret) =>
        jwtModule := Some(JWTModule(true, secret));
        unaryInterceptors := unaryInterceptors + [JwtInterceptor(jwtModule.value)];
      case WithLogging(level) =>
        loggerModule := Some(LoggerModule(true, level));
        unaryInterceptors := unaryInterceptors + [LoggerInterceptor(loggerModule.value)];
    }
  }

  // ---------------------------------------------------------------------
  // The module interceptors.

  /** The credential an enabled JWT module accepts as the first
      `authorization` value. */
  function Bearer(secret: string): string
  {
    "Bearer " + secret
  }

  /** The check inside `JWTModule.Interceptor`. A disabled module lets
      every call through. An enabled one refuses a call without metadata,
      panics (index out of range) on metadata without an `authorization`
      value, and otherwise lets the call through exactly when the first
      value is `Bearer <secret>`. */
  function JwtDecision(m: JWTModule, ctx: Ctx): (d: Decision)
    ensures !m.enabled ==> d == Proceed
    ensures m.enabled && ctx.incoming.None? ==> d == Reject(Plain("缺少认证信息"))
    ensures d.Crash? <==> m.enabled && ctx.incoming.Some? && MdGet(ctx.incoming.value, "authorization") == []
    ensures (m.enabled && ctx.incoming.Some? && |MdGet(ctx.incoming.value, "authorization")| > 0
             && MdGet(ctx.incoming.value, "authorization")[0] != Bearer(m.secret))
            ==> d == Reject(Plain("无效的Token"))
    ensures d.Proceed? <==> !m.enabled || (ctx.incoming.Some? && |MdGet(ctx.incoming.value, "authorization")| > 0
                                          && MdGet(ctx.incoming.value, "authorization")[0] == Bearer(m.secret))
    ensures d.Reject? ==> d.err.Plain?
  {
    if !m.enabled then Proceed
    else match ctx.incoming
      case None => Reject(Plain("缺少认证信息"))
      case Some(md) =>
        var tokens := MdGet(md, "authorization");
        if |tokens| == 0 then Crash("index out of range [0] with length 0")
        else if tokens[0] != Bearer(m.secret) then Reject(Plain("无效的Token"))
        else Proceed
  }

  /** The check inside `LoggerModule.Interceptor`: enabled or not, it goes on. */
  function LoggerDecision(m: LoggerModule, ctx: Ctx): Decision
  {
    Proceed
  }

  /** A module interceptor called on its own, with `h` as its handler.
      Whenever the handler runs, its reply comes back unchanged; only an
      enabled JWT module ever keeps the handler from running. */
  function Intercept(u: UnaryInterceptor, ctx: Ctx, req: Value, h: Handler): (r: Run)
    requires !u.UserInterceptor?
    ensures Handled in r.trace ==> r == Run(Returned(h(ctx, req)), [Enter(0), Handled, Exit(0)])
    ensures Handled !in r.trace ==> u.JwtInterceptor? && u.jwt.enabled
  {
    var d := match u
      case JwtInterceptor(m) => JwtDecision(m, ctx)
      case LoggerInterceptor(m) => LoggerDecision(m, ctx);
    Invoke(d, 0, ctx, req, (c, q) => Terminal(h, c, q))
  }

  /** A disabled JWT module and every logger module are pure pass-throughs:
      the handler runs exactly once and its reply is returned unchanged. */
  lemma PassThroughModules(u: UnaryInterceptor, ctx: Ctx, req: Value, h: Handler)
    requires u.LoggerInterceptor? || (u.JwtInterceptor? && !u.jwt.enabled)
    ensures Intercept(u, ctx, req, h) == Run(Returned(h(ctx, req)), [Enter(0), Handled, Exit(0)])
  {
    ProceedIsPassThrough(0, ctx, req, h);
  }

  /** An enabled JWT interceptor reaches the handler iff the first
      `authorization` value is `Bearer <secret>`; otherwise the handler is
      not called and the call fails or panics. */
  lemma JwtGuards(secret: string, ctx: Ctx, req: Value, h: Handler)
    ensures var r := Intercept(JwtInterceptor(JWTModule(true, secret)), ctx, req, h);
      && (Handled in r.trace <==> ctx.incoming.Some? && |MdGet(ctx.incoming.value, "authorization")| > 0
                                  && MdGet(ctx.incoming.value, "authorization")[0] == Bearer(secret))
      && (Handled in r.trace ==> r.outcome == Returned(h(ctx, req)))
      && (r.outcome.Panicked? <==> ctx.incoming.Some? && MdGet(ctx.incoming.value, "authorization") == [])
      && (Handled !in r.trace && !r.outcome.Panicked? ==> r.outcome.reply.resp == Nil && r.outcome.reply.err.Some?)
  {
  }

  /** Bearer credentials of different secrets differ. */
  lemma {:induction false} BearerInjective(s: string, t: string)
    requires Bearer(s) == Bearer(t)
    ensures s == t
  {
    assert s == Bearer(s)[7..];
    assert t == Bearer(t)[7..];
  }

  /** Two WithJWTAuth options with different secrets install two enabled
      JWT interceptors, each holding its own module; no call passes both. */
  lemma {:induction false} TwoSecretsRejectEveryCall(s: string, t: string, ctx: Ctx)
    requires s != t
    ensures Build([WithJWTAuth(s), WithJWTAuth(t)]).unaryInterceptors
         == [JwtInterceptor(JWTModule(true, s)), JwtInterceptor(JWTModule(true, t))]
    ensures Build([WithJWTAuth(s), WithJWTAuth(t)]).jwtModule == Some(JWTModule(true, t))
    ensures !(JwtDecision(JWTModule(true, s), ctx).Proceed? && JwtDecision(JWTModule(true, t), ctx).Proceed?)
  {
    assert [WithJWTAuth(s), WithJWTAuth(t)][..1] == [WithJWTAuth(s)];
    assert [WithJWTAuth(s)][..0] == [];
    assert Build([WithJWTAuth(s)]).unaryInterceptors == [JwtInterceptor(JWTModule(true, s))];
    if JwtDecision(JWTModule(true, s), ctx).Proceed? && JwtDecision(JWTModule(true, t), ctx).Proceed? {
      BearerInjective(s, t);
    }
  }

  // ---------------------------------------------------------------------
  // The dual-protocol handler's routing decision.

  /** Where `createDualProtocolHandler` sends a request: to the gRPC server
      iff it came over HTTP/2 and its Content-Type contains
      `application/grpc`; everything else goes to the gateway. */
  function Route(r: Request): (b: Backend)
    ensures b == GrpcBackend
        <==> r.protoMajor == 2 && exists i :: OccursAt(HeaderGet(r.header, "Content-Type"), "application/grpc", i)
  {
    if r.protoMajor == 2 && Contains(HeaderGet(r.header, "Content-Type"), "application/grpc") then GrpcBackend
    else GatewayBackend
  }

  /** The routing reads nothing but the protocol version and the first
      Content-Type value: setting any other header, or appending further
      Content-Type values, never moves a request to the other server. */
  lemma RouteReadsOnlyFirstContentType(r: Request, key: string, vs: seq<string>, more: seq<string>)
    ensures key != "Content-Type" ==> Route(Request(r.protoMajor, r.header[key := vs])) == Route(r)
    ensures "Content-Type" in r.header && |r.header["Content-Type"]| > 0 ==>
      Route(Request(r.protoMajor, r.header["Content-Type" := r.header["Content-Type"] + more])) == Route(r)
  {
    if "Content-Type" in r.header && |r.header["Content-Type"]| > 0 {
      var ct := r.header["Content-Type"];
      assert (ct + more)[0] == ct[0];
    }
  }

  /** The routing on typical requests: gRPC content types over HTTP/2 go to
      gRPC; HTTP/1.x with any headers, JSON over HTTP/2, and a request
      without Content-Type go to the gateway. */
  lemma RouteExamples()
    ensures Route(Request(2, map["Content-Type" := ["application/grpc"]])) == GrpcBackend
    ensures Route(Request(2, map["Content-Type" := ["application/grpc+proto"]])) == GrpcBackend
    ensures forall header :: Route(Request(1, header)) == GatewayBackend
    ensures Route(Request(2, map["Content-Type" := ["application/json"]])) == GatewayBackend
    ensures Route(Request(2, map[])) == GatewayBackend
  {
    assert OccursAt("application/grpc+proto", "application/grpc", 0);
    var json, grpc := "application/json", "application/grpc";
    assert json[..|grpc|][12] != grpc[12];
    assert !Contains(json[1..], grpc);
  }
}
