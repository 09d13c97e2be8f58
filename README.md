# Request pipeline of the frame_study demos, in Dafny

This project models the request pipeline that the `frame_study` demos build
by hand around gRPC:

- **Interceptor chain and mini dispatcher** (`frame_demo/mini-framework`).
  Interceptors are nested around a terminal handler so that the first one
  registered is outermost. `MiniServer` registers interceptors and handlers
  and dispatches a call by method name. The stock interceptors are Auth,
  Logging and RateLimit.
- **ServerX** (`frame_demo/serverx-simplified`). Options build the server
  configuration in argument order. `WithJWTAuth` and `WithLogging` install a
  module and append its interceptor. The JWT interceptor checks
  `Bearer <secret>`; the logger passes calls through. The dual-protocol
  handler sends HTTP/2 requests whose Content-Type contains
  `application/grpc` to the gRPC server and everything else to the HTTP
  gateway.
- **Options pattern** (`frame_demo/options-pattern`). The configuration
  starts from defaults and then applies options: scalar fields are
  last-write-wins and the interceptor list accumulates. It also covers the
  Redis settings, the missing-secret warning and `maskSecret`.
- **Standalone gRPC server** (`grpc-learning/server`). Its `token` check
  interceptor and its routing predicate.

Modules, one per program plus a shared one:

- `Rpc` (rpc.dfy) holds the shared gRPC vocabulary:
  - metadata, context, status errors, replies, handlers;
  - `strings.Contains` and `Header.Get`;
  - `Invoke`, the single shape shared by every interceptor in these
    programs: check the call, then either refuse it (or panic) or call the
    next handler once and return its reply unchanged.
- `MiniFramework` (mini_framework.dfy)
- `ServerXDemo` (serverx.dfy)
- `OptionsDemo` (options.dfy)
- `GrpcServer` (grpc_server.dfy)

A call's result is a `Run`: how it ended (a reply, or a Go panic) and its
event trace. The trace records `Enter(pos)` and `Exit(pos)` for the
interceptor at chain position `pos`, and `Handled` for the terminal
handler. Order, short-circuiting and "the handler ran exactly once" are all
stated on this trace.

State the source updates in place is modelled as a class:

- `MiniServer` (its interceptor list and handler map);
- `ServerX` (option closures run on `*ServerX`);
- `ServerConfig` (option closures run on `*ServerConfig`).

`ServerX` and `ServerConfig` methods are specified against a snapshot
value of their fields, through the pure functions `ApplyOption` and
`Build`; `MiniServer`'s methods are specified directly on its fields, and
its `Call` through the pure chain function `Exec`. The lemmas about those
functions carry the properties.

Two behaviours of the code worth knowing:

- ServerX's JWT interceptor indexes `md.Get("authorization")[0]` without a
  length check (frame_demo/serverx-simplified/serverx_simplified.go:114),
  so metadata with no `authorization` value panics.
  `ServerXDemo.JwtDecision` models this as a `Crash`. That a panic unwinds
  through every outer interceptor without any of them returning is proved
  for MiniFramework chains (`MiniFramework.PanicUnwinds`); for ServerX's
  interceptor list, whose nesting is not modelled, it is plain Go behaviour.
- In the options demo (frame_demo/options-pattern/options_demo.go:66-71)
  `WithLogging` only sets `EnableLogging` and `LogLevel`. In ServerX
  (frame_demo/serverx-simplified/serverx_simplified.go:83-90) it also
  appends the logger interceptor.

## Model

| member | source | states |
|---|---|---|
| `Rpc.Invoke` | frame_demo/mini-framework/mini_framework.go:24-74 | an interceptor always enters; on proceed, the next handler's outcome is returned unchanged; a refusal returns a nil response with the error and exits at once; a panic leaves without an exit |
| `Rpc.ProceedIsPassThrough` | frame_demo/mini-framework/mini_framework.go:49-74 | an interceptor that goes on calls the handler exactly once and returns its `(resp, err)` unchanged, as Logging and RateLimit do |
| `Rpc.Contains` | frame_demo/serverx-simplified/serverx_simplified.go:210 | `strings.Contains(s, sub)` holds iff `sub` occurs at some position of `s` |
| `MiniFramework.AuthDecision` | frame_demo/mini-framework/mini_framework.go:24-46 | Auth proceeds iff metadata is present and the first `authorization` value is `valid-token-123`; otherwise it refuses with Unauthenticated, with the message for missing metadata or a missing header |
| `MiniFramework.Decide` | frame_demo/mini-framework/mini_framework.go:49-74 | Logging and RateLimit always go on; Auth goes on iff the token is valid |
| `MiniFramework.Chain` | frame_demo/mini-framework/mini_framework.go:79-93 | the loop that wraps the handler from the last interceptor to the first yields exactly the nested chain `Exec`, with `ics[0]` outermost; an empty chain returns exactly `h(ctx, req)` |
| `MiniFramework.AllProceedTrace` | frame_demo/mini-framework/mini_framework.go:79-93 | when every interceptor proceeds, the trace is `Enter(0) … Enter(n-1), Handled, Exit(n-1) … Exit(0)` and the reply is the handler's |
| `MiniFramework.ShortCircuit` | frame_demo/mini-framework/mini_framework.go:28-44 | if interceptors before k proceed and k refuses, the chain returns that refusal with trace `Enter(0..k)`, `Exit(k..0)` |
| `MiniFramework.PanicUnwinds` | frame_demo/mini-framework/mini_framework.go:82-91 | if interceptor k panics, the panic leaves the chain after `Enter(0..k)` with no exit events |
| `MiniFramework.ShortCircuitSkipsTheRest` | frame_demo/mini-framework/mini_framework.go:84-88 | after a refusal or panic at k, neither the handler nor any interceptor after k leaves an event |
| `MiniFramework.HandlerRunsIffAllProceed` | frame_demo/mini-framework/mini_framework.go:82-91 | the terminal handler runs iff every interceptor in the chain proceeds |
| `MiniFramework.StockChainAuth` | frame_demo/mini-framework/mini_framework.go:24-46 | in a chain of stock interceptors holding Auth, the handler is reached and its reply returned iff the token is valid; otherwise the caller gets Auth's Unauthenticated error |
| `MiniFramework.MiniServer.constructor` | frame_demo/mini-framework/mini_framework.go:102-106 | a new server has no interceptors and no handlers |
| `MiniFramework.MiniServer.Use` | frame_demo/mini-framework/mini_framework.go:109-111 | the new interceptor list is the old one followed by the arguments in order; handlers unchanged |
| `MiniFramework.MiniServer.Handle` | frame_demo/mini-framework/mini_framework.go:114-116 | `name` now maps to `h`, replacing any earlier handler; every other name keeps its handler; interceptors unchanged |
| `MiniFramework.MiniServer.Call` | frame_demo/mini-framework/mini_framework.go:119-128 | an unknown method returns NotFound with an empty trace (no interceptor runs); a known one returns the chain over the current interceptors round its handler |
| `ServerXDemo.BuildAccumulates` | frame_demo/serverx-simplified/serverx_simplified.go:50-91 | registers and unary interceptors are exactly what the options passed or installed, in option order (JWT or logging twice gives two interceptors); address stays `0.0.0.0:8080` and stream interceptors stay empty |
| `ServerXDemo.BuildLastModuleWins` | frame_demo/serverx-simplified/serverx_simplified.go:71-91 | the JWT and logger module fields hold the module of the last `WithJWTAuth` / `WithLogging`, or none |
| `ServerXDemo.ServerX.constructor` | frame_demo/serverx-simplified/serverx_simplified.go:148-162 | `NewServerX` yields the defaults with every option applied in argument order; with no options, address `0.0.0.0:8080` and empty interceptor lists |
| `ServerXDemo.ServerX.Apply` | frame_demo/serverx-simplified/serverx_simplified.go:50-91 | running one option closure changes the server exactly as `ApplyOption` says (appends, or module set plus one appended interceptor) |
| `ServerXDemo.JwtDecision` | frame_demo/serverx-simplified/serverx_simplified.go:101-121 | disabled: proceed; enabled: no metadata refuses with "缺少认证信息", it panics exactly when the metadata has no `authorization` value, a first value other than `Bearer <secret>` refuses with "无效的Token", and otherwise it proceeds |
| `ServerXDemo.Intercept` | frame_demo/serverx-simplified/serverx_simplified.go:101-145 | a module interceptor that lets the handler run returns the handler's reply unchanged, with one enter, one handler call and one exit; only an enabled JWT module ever keeps the handler from running |
| `ServerXDemo.PassThroughModules` | frame_demo/serverx-simplified/serverx_simplified.go:101-145 | a disabled JWT module and any logger module call the handler exactly once and return its reply unchanged |
| `ServerXDemo.JwtGuards` | frame_demo/serverx-simplified/serverx_simplified.go:109-119 | an enabled JWT interceptor reaches the handler iff the first `authorization` value is `Bearer <secret>`; otherwise the handler is not called, the call panics exactly when the metadata has no `authorization` value, and in every other case it returns a nil response with an error |
| `ServerXDemo.TwoSecretsRejectEveryCall` | frame_demo/serverx-simplified/serverx_simplified.go:71-80 | two `WithJWTAuth` options install two interceptors each holding its own secret, the module field keeps the last; with different secrets no call passes both |
| `ServerXDemo.Route` | frame_demo/serverx-simplified/serverx_simplified.go:210-218 | a request goes to gRPC iff it is HTTP/2 and `application/grpc` occurs at some position of its first Content-Type value; every other request goes to the gateway |
| `ServerXDemo.RouteReadsOnlyFirstContentType` | frame_demo/serverx-simplified/serverx_simplified.go:210-218 | setting any header other than Content-Type, or appending further Content-Type values, never changes where a request goes |
| `ServerXDemo.RouteExamples` | frame_demo/serverx-simplified/serverx_simplified.go:210-218 | `application/grpc` and `application/grpc+proto` over HTTP/2 go to gRPC; HTTP/1, JSON over HTTP/2 and a missing Content-Type go to the gateway |
| `OptionsDemo.BuildFields` | frame_demo/options-pattern/options_demo.go:50-77 | secret and TTLs come from the last JWT option (`WithJWTAuth` resets to 24h/168h, the advanced one sets its own), else ""/24h/168h; logging is on iff some `WithLogging` ran, at its last level, else off at "info"; interceptors are all names in option order; Redis is the last `WithRedis`, else unset |
| `OptionsDemo.LoggingTouchesOnlyLogging` | frame_demo/options-pattern/options_demo.go:66-71 | `WithLogging(l)` turns logging on at level `l` and leaves every other field unchanged |
| `OptionsDemo.ServerConfig.Default` | frame_demo/options-pattern/options_demo.go:86-92 | the default configuration: no secret, 24h/168h, logging off at "info", no interceptors, no Redis |
| `OptionsDemo.ServerConfig.SetRedis` | frame_demo/options-pattern/options_demo.go:148-150 | stores the given Redis settings, which `GetRedis` then returns; nothing else changes |
| `OptionsDemo.ServerConfig.GetRedis` | frame_demo/options-pattern/options_demo.go:152-154 | reads back the Redis settings the configuration holds: after `SetRedis(rc)` it is `rc`, and for a configuration built from options it is the last `WithRedis` (`BuildFields`) |
| `OptionsDemo.LastRedisNoneIffNoOption` | frame_demo/options-pattern/options_demo.go:156-164 | the Redis settings stay unset (a nil pointer) exactly when no option is a `WithRedis` |
| `OptionsDemo.ServerConfig.Apply` | frame_demo/options-pattern/options_demo.go:50-77 | running one option closure changes the configuration exactly as `ApplyOption` says |
| `OptionsDemo.NewServer` | frame_demo/options-pattern/options_demo.go:84-105 | the result is the defaults with every option applied in order; it warns iff the secret is empty and interceptors are configured; with no options it is exactly the defaults and there is no warning |
| `OptionsDemo.MaskSecret` | frame_demo/options-pattern/options_demo.go:128-136 | "未设置" for an empty secret, "****" for 1–4 bytes, otherwise first two bytes, "****", last two bytes (8 bytes) |
| `OptionsDemo.MaskHidesMiddle` | frame_demo/options-pattern/options_demo.go:128-136 | secrets sharing their first and last two bytes mask alike, and all 1–4 byte secrets mask alike: the middle is never revealed |
| `OptionsDemo.MaskShape` | frame_demo/options-pattern/options_demo.go:128-136 | a non-empty secret is never shown as "not set" and its mask has at most 8 bytes |
| `GrpcServer.AuthDecision` | grpc-learning/server/main.go:59-89 | no metadata refuses; otherwise proceed iff the first `token` value (or "") is `my-secret-token-12345`; every refusal is Unauthenticated |
| `GrpcServer.AuthInterceptor` | grpc-learning/server/main.go:59-89 | the interceptor never panics; the caller gets either the handler's own reply or an Unauthenticated error with a nil response |
| `GrpcServer.AuthInterceptorOutcome` | grpc-learning/server/main.go:59-89 | the handler runs iff the token is right, then exactly once with its reply unchanged; otherwise Unauthenticated with a nil response and no handler call |
| `GrpcServer.MissingTokenRefused` | grpc-learning/server/main.go:70-84 | metadata without a `token` value is refused as an invalid (empty) token |
| `GrpcServer.RequestIdIgnored` | grpc-learning/server/main.go:75-78 | the `x-request-id` values never change the decision |
| `GrpcServer.Route` | grpc-learning/server/main.go:117-125 | gRPC iff the request is HTTP/2 and `application/grpc` occurs at some position of its first Content-Type value; the gateway otherwise |
| `GrpcServer.RoutesAgree` | grpc-learning/server/main.go:119 | this server and ServerX route every request the same way |

## Left out

- MiniFramework.Custom: a user interceptor is modelled only as a gate -- a check of the context that either refuses, panics, or calls `next` once on the same `(ctx, req)` and returns its reply unchanged. The source's `Interceptor` type (frame_demo/mini-framework/mini_framework.go:19) admits any function, so an interceptor that rewrites the reply or error after `next` returns, calls `next` twice or not on the same request, or fails after `next` succeeded is not modelled; `Chain`'s equality with `Exec` and the trace lemmas (`AllProceedTrace`, `ShortCircuit`, `PanicUnwinds`, `HandlerRunsIffAllProceed`, `StockChainAuth`) are proved for gate-shaped interceptors only. Every interceptor the programs themselves define is a gate.

- Server start-up is not modelled: `ServerX.Run`, grpc-learning `main`, `net.Listen`, `http.Serve`/`ListenAndServe`, `h2c.NewHandler`, `grpc.NewServer` and gateway registration are network I/O and library plumbing. Only the routing predicate is modelled, and what happens inside the gRPC server or the gateway is not.
- `grpc.ChainUnaryInterceptor` is library code that is not part of this model. ServerX's interceptor list is therefore modelled as a list, and each module interceptor is modelled on its own. The nesting of that list is not modelled.
- User-supplied registration callbacks and interceptors (`WithGrpcRegisters`, `WithHttpRegisters`, `WithUnaryInterceptors`) are code the model cannot see. They are known by identity only.
- Printing, `log`, `time.Now`/`time.Since` and the sleep in RateLimit are left out. They have no effect on a call's outcome, so they leave no event in the trace. The logging record of duration and error is therefore not modelled.
- `PrintConfig`, the `main` functions and the demo functions (`originalImplementation`, `serverXImplementation`) are demonstration output and are left out.
- `原始Server.SayHello` duplicates the Auth check with side effects and is left out. The business handlers are opaque terminal handlers (`Rpc.Handler`). Handlers that panic are not modelled.
- The context is never changed by these interceptors, so metadata added by an interceptor is not modelled. Concurrency, cancellation and deadlines are left out; the code has no logic for them.
- `MiniFramework.Chain` assumes per-iteration loop variables (Go 1.22 or later). Each wrapper uses the index of its own iteration. With the older shared loop variable, every wrapper would read `i == -1` when called and index out of range. This is not modelled.
- `MiniFramework.Chain` takes the handler, context and request together and returns the call's result. It does not return an `Interceptor` closure. This is the same computation, because the source's returned closure builds the chain on every call.
- `md.Get` lower-cases its key. The model assumes metadata keys are already stored lower-case, as gRPC stores incoming keys. `Header.Get` canonicalises its key, and the model looks up `Content-Type` as written.
- `strings.Contains` works on bytes and the model works on characters. The two agree on well-formed UTF-8.
- The JWT and logger modules are held by pointer. Nothing changes them after creation, so they are modelled as values. Pointer identity is not modelled.
- The `info *grpc.UnaryServerInfo` argument is only printed and is left out.
- The `interface{}` request and response are an opaque `Value`.
- Status codes: only Unauthenticated and NotFound occur in this code. A plain `fmt.Errorf` error is kept as `Plain`, and its mapping to a wire status by gRPC is not modelled.
- `maskSecret` is modelled on bytes, which is how Go measures and slices strings. The secret fields of the configuration are characters, and no conversion between the two is modelled.
