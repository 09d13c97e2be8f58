/**
  The standalone gRPC server of the learning project: its token check
  interceptor and the handler that shares one port between the gRPC
  server and the HTTP gateway.
 */
module GrpcServer {
  import opened Rpc
  import ServerXDemo

  const ExpectedToken: string := "my-secret-token-12345"

  /** The first value sent for `key`, or "" when the key has none: read
      only after checking the length, so it never indexes out of range. */
  function FirstOrEmpty(md: Metadata, key: string): string
  {
    if |MdGet(md, key)| > 0 then MdGet(md, key)[0] else ""
  }

  /** The check inside `authInterceptor`. A call without metadata is
      refused; otherwise the token is the first `token` value ("" when
      there is none) and the call goes on exactly when it is the expected
      token. The request id is read for the log only. Every refusal is
      Unauthenticated. */
  function AuthDecision(ctx: Ctx): (d: Decision)
    ensures ctx.incoming.None? ==> d == Reject(Status(Unauthenticated, "请求中缺少凭证信息(metadata)"))
    ensures d.Proceed? <==> ctx.incoming.Some? && FirstOrEmpty(ctx.incoming.value, "token") == ExpectedToken
    ensures !d.Proceed? ==> d.Reject? && d.err.Status? && d.err.code == Unauthenticated
  {
    match ctx.incoming
    case None => Reject(Status(Unauthenticated, "请求中缺少凭证信息(metadata)"))
    case Some(md) =>
      var token := FirstOrEmpty(md, "token");
      // The request id is read only for the log line (main.go:75-78).
      var reqID := FirstOrEmpty(md, "x-request-id");
      if token != ExpectedToken then Reject(Status(Unauthenticated, "无效的 Token"))
      else Proceed
  }

  /** `authInterceptor(ctx, req, info, handler)`. It never panics, and the
      caller gets either the handler's own reply or an Unauthenticated
      error with a nil response. */
  function AuthInterceptor(ctx: Ctx, req: Value, h: Handler): (r: Run)
    ensures r.outcome.Returned?
    ensures r.outcome.reply == h(ctx, req)
         || (r.outcome.reply.resp == Nil && r.outcome.reply.err.Some?
             && r.outcome.reply.err.value.Status? && r.outcome.reply.err.value.code == Unauthenticated)
  {
    Invoke(AuthDecision(ctx), 0, ctx, req, (c, q) => Terminal(h, c, q))
  }

  /** The handler runs iff the metadata carries the expected token, and then
      exactly once with its reply returned unchanged; otherwise the caller
      gets Unauthenticated with a nil response and the handler never runs. */
  lemma AuthInterceptorOutcome(ctx: Ctx, req: Value, h: Handler)
    ensures var r := AuthInterceptor(ctx, req, h);
      && (Handled in r.trace <==> ctx.incoming.Some? && FirstOrEmpty(ctx.incoming.value, "token") == ExpectedToken)
      && (Handled in r.trace ==> r == Run(Returned(h(ctx, req)), [Enter(0), Handled, Exit(0)]))
      && (Handled !in r.trace ==> r.outcome.Returned? && r.outcome.reply.resp == Nil
                                  && r.outcome.reply.err.Some? && r.outcome.reply.err.value.Status?
                                  && r.outcome.reply.err.value.code == Unauthenticated)
  {
    if AuthDecision(ctx).Proceed? {
      ProceedIsPassThrough(0, ctx, req, h);
    }
  }

  /** A missing `token` key counts as the empty token, which is refused. */
  lemma MissingTokenRefused(md: Metadata)
    requires MdGet(md, "token") == []
    ensures AuthDecision(Ctx(Some(md))) == Reject(Status(Unauthenticated, "无效的 Token"))
  {
  }

  /** The request id never affects the decision. */
  lemma RequestIdIgnored(md: Metadata, ids: seq<string>)
    ensures AuthDecision(Ctx(Some(md["x-request-id" := ids]))) == AuthDecision(Ctx(Some(md)))
  {
    assert MdGet(md["x-request-id" := ids], "token") == MdGet(md, "token");
  }

  /** The top-level handler's routing: gRPC iff HTTP/2 and a Content-Type
      containing `application/grpc`, the gateway otherwise. */
  function Route(r: Request): (b: Backend)
    ensures b == GrpcBackend
        <==> r.protoMajor == 2 && exists i :: OccursAt(HeaderGet(r.header, "Content-Type"), "application/grpc", i)
  {
    if r.protoMajor == 2 && Contains(HeaderGet(r.header, "Content-Type"), "application/grpc") then GrpcBackend
    else GatewayBackend
  }

  /** This server and ServerX route every request the same way. */
  lemma RoutesAgree(r: Request)
    ensures Route(r) == ServerXDemo.Route(r)
  {
  }
}
