/**
  The hand-built interceptor framework: three stock interceptors, the
  chain builder that nests them round a handler (first registered is
  outermost), and a small server that registers interceptors and
  handlers and dispatches calls by method name.
 */
module MiniFramework {
  import opened Rpc

  const ValidToken: string := "valid-token-123"

  /** The stock interceptors, and any other gate-shaped interceptor
      given by its check. */
  datatype Interceptor =
    | Auth
    | Logging
    | RateLimit
    | Custom(name: string, check: Ctx -> Decision)

  /** The credential the Auth interceptor accepts: metadata is present and
      the first `authorization` value is the valid token. */
  ghost predicate HasValidToken(ctx: Ctx)
  {
    && ctx.incoming.Some?
    && |MdGet(ctx.incoming.value, "authorization")| > 0
    && MdGet(ctx.incoming.value, "authorization")[0] == ValidToken
  }

  /** The check inside `AuthInterceptor`. It lets the call through exactly
      when the credential is valid, and otherwise refuses it with
      Unauthenticated and a message naming what was wrong. */
  function AuthDecision(ctx: Ctx): (d: Decision)
    ensures d.Proceed? <==> HasValidToken(ctx)
    ensures !d.Proceed? ==> d.Reject? && d.err.Status? && d.err.code == Unauthenticated
    ensures ctx.incoming.None? ==> d == Reject(Status(Unauthenticated, "缺少认证信息"))
    ensures ctx.incoming.Some? && MdGet(ctx.incoming.value, "authorization") == []
            ==> d == Reject(Status(Unauthenticated, "缺少authorization头"))
  {
    match ctx.incoming
    case None => Reject(Status(Unauthenticated, "缺少认证信息"))
    case Some(md) =>
      var tokens := MdGet(md, "authorization");
      if |tokens| == 0 then Reject(Status(Unauthenticated, "缺少authorization头"))
      else if tokens[0] != ValidToken then Reject(Status(Unauthenticated, "无效的Token"))
      else Proceed
  }

  /** What an interceptor decides for a call. Logging and RateLimit always
      go on: their timing, printing and sleeping have no effect on the call. */
  function Decide(ic: Interceptor, ctx: Ctx): (d: Decision)
    ensures ic.Logging? || ic.RateLimit? ==> d == Proceed
    ensures ic.Auth? ==> (d.Proceed? <==> HasValidToken(ctx))
  {
    match ic
    case Auth => AuthDecision(ctx)
    case Logging => Proceed
    case RateLimit => Proceed
    case Custom(_, check) => check(ctx)
  }

  /** The chain from position `from` on, round the terminal handler `h`:
      `ics[from]` runs first and its `next` is the chain from `from + 1`. */
  function Exec(ics: seq<Interceptor>, from: nat, ctx: Ctx, req: Value, h: Handler): Run
    requires from <= |ics|
    decreases |ics| - from
  {
    if from == |ics| then Terminal(h, ctx, req)
    else Invoke(Decide(ics[from], ctx), from, ctx, req, (c, q) => Exec(ics, from + 1, c, q, h))
  }

  /** `Chain(ics...)` applied to `(ctx, req, h)`: the loop walks the list
      from the last interceptor to the first, each time wrapping the
      handler built so far, and then calls the outermost wrapper. Each
      wrapper uses the index of its own iteration (per-iteration loop
      variables). With no interceptors the result is exactly `h(ctx, req)`. */
  method Chain(ics: seq<Interceptor>, ctx: Ctx, req: Value, h: Handler) returns (r: Run)
    ensures r == Exec(ics, 0, ctx, req, h)
    ensures ics == [] ==> r == Run(Returned(h(ctx, req)), [Handled])
  {
    var current: Traced := (c, q) => Terminal(h, c, q);
    var i := |ics| - 1;
    while i >= 0
      invariant -1 <= i < |ics|
      invariant forall c, q :: current(c, q) == Exec(ics, i + 1, c, q, h)
    {
      var ic, pos: nat, next := ics[i], i, current;
      current := (c, q) => Invoke(Decide(ic, c), pos, c, q, next);
      forall c, q ensures current(c, q) == Exec(ics, i, c, q, h) {
        InvokeCongruent(Decide(ic, c), pos, c, q, next, (c', q') => Exec(ics, i + 1, c', q', h));
      }
      i := i - 1;
    }
    r := current(ctx, req);
  }

  /** `Enter(lo), ..., Enter(hi - 1)`: the way in. */
  function Enters(lo: nat, hi: nat): (es: seq<Event>)
    ensures |es| == if lo < hi then hi - lo else 0
    decreases hi - lo
  {
    if lo < hi then [Enter(lo)] + Enters(lo + 1, hi) else []
  }

  /** `Exit(hi - 1), ..., Exit(lo)`: the way out. */
  function Exits(lo: nat, hi: nat): (es: seq<Event>)
    ensures |es| == if lo < hi then hi - lo else 0
    decreases hi - lo
  {
    if lo < hi then Exits(lo + 1, hi) + [Exit(lo)] else []
  }

  /** The way in holds the entries of exactly the positions `lo..hi-1`,
      and nothing else. */
  lemma {:induction false} EntersHolds(lo: nat, hi: nat, e: Event)
    ensures e in Enters(lo, hi) <==> e.Enter? && lo <= e.pos < hi
    decreases hi - lo
  {
    if lo < hi {
      EntersHolds(lo + 1, hi, e);
    }
  }

  /** The way out holds only exits. */
  lemma {:induction false} ExitsHolds(lo: nat, hi: nat, e: Event)
    ensures e in Exits(lo, hi) <==> e.Exit? && lo <= e.pos < hi
    decreases hi - lo
  {
    if lo < hi {
      ExitsHolds(lo + 1, hi, e);
    }
  }

  /** One step of the chain: an interceptor that goes on wraps the events
      of the rest of the chain, and returns (exits) unless it panicked. */
  lemma ProceedStep(ics: seq<Interceptor>, from: nat, ctx: Ctx, req: Value, h: Handler)
    requires from < |ics| && Decide(ics[from], ctx) == Proceed
    ensures var inner := Exec(ics, from + 1, ctx, req, h);
      Exec(ics, from, ctx, req, h)
        == Run(inner.outcome, [Enter(from)] + inner.trace + (if inner.outcome.Panicked? then [] else [Exit(from)]))
  {
  }

  /** The interceptor that refuses ends the chain there. */
  lemma RejectStep(ics: seq<Interceptor>, k: nat, ctx: Ctx, req: Value, h: Handler, e: Error)
    requires k < |ics| && Decide(ics[k], ctx) == Reject(e)
    ensures Exec(ics, k, ctx, req, h) == Run(Returned(Reply(Nil, Some(e))), [Enter(k), Exit(k)])
  {
  }

  /** Regrouping the events around one more wrapper. The two lemmas below
      only reassociate concatenation; they are kept apart so that the
      inductions using them stay small for the solver. */
  lemma Regroup(a: Event, ins: seq<Event>, mid: seq<Event>, outs: seq<Event>, z: Event)
    ensures [a] + (ins + mid + outs) + [z] == ([a] + ins) + mid + (outs + [z])
  {
  }

  lemma RegroupAround(a: Event, ins: seq<Event>, outs: seq<Event>, z: Event)
    ensures [a] + (ins + outs) + [z] == ([a] + ins) + (outs + [z])
  {
  }

  /** Chain order: when every interceptor from `from` on goes on, they are
      entered in registration order, the handler runs once, they return in
      reverse order, and the handler's reply is the chain's reply. */
  lemma {:induction false} AllProceedTrace(ics: seq<Interceptor>, from: nat, ctx: Ctx, req: Value, h: Handler)
    requires from <= |ics|
    requires forall j :: from <= j < |ics| ==> Decide(ics[j], ctx) == Proceed
    ensures Exec(ics, from, ctx, req, h)
         == Run(Returned(h(ctx, req)), Enters(from, |ics|) + [Handled] + Exits(from, |ics|))
    decreases |ics| - from
  {
    if from < |ics| {
      AllProceedTrace(ics, from + 1, ctx, req, h);
      ProceedStep(ics, from, ctx, req, h);
      Regroup(Enter(from), Enters(from + 1, |ics|), [Handled], Exits(from + 1, |ics|), Exit(from));
    }
  }

  /** Short-circuit: when the interceptors before position `k` go on and
      `ics[k]` refuses with `e`, the chain returns that refusal; only
      positions up to `k` are entered and return, and neither a later
      interceptor nor the handler runs. */
  lemma {:induction false} ShortCircuit(ics: seq<Interceptor>, from: nat, k: nat, ctx: Ctx, req: Value, h: Handler, e: Error)
    requires from <= k < |ics|
    requires forall j :: from <= j < k ==> Decide(ics[j], ctx) == Proceed
    requires Decide(ics[k], ctx) == Reject(e)
    ensures Exec(ics, from, ctx, req, h) == Run(Returned(Reply(Nil, Some(e))), Enters(from, k + 1) + Exits(from, k + 1))
    decreases k - from
  {
    if from < k {
      ShortCircuit(ics, from + 1, k, ctx, req, h, e);
      ProceedStep(ics, from, ctx, req, h);
      RegroupAround(Enter(from), Enters(from + 1, k + 1), Exits(from + 1, k + 1), Exit(from));
    } else {
      RejectStep(ics, k, ctx, req, h, e);
      assert Enters(k, k + 1) == [Enter(k)];
      assert Exits(k, k + 1) == [Exit(k)];
    }
  }

  /** When `ics[k]` panics instead, the panic unwinds out of the chain:
      positions up to `k` are entered, none of them returns, and neither a
      later interceptor nor the handler runs. */
  lemma {:induction false} PanicUnwinds(ics: seq<Interceptor>, from: nat, k: nat, ctx: Ctx, req: Value, h: Handler, m: string)
    requires from <= k < |ics|
    requires forall j :: from <= j < k ==> Decide(ics[j], ctx) == Proceed
    requires Decide(ics[k], ctx) == Crash(m)
    ensures Exec(ics, from, ctx, req, h) == Run(Panicked(m), Enters(from, k + 1))
    decreases k - from
  {
    if from < k {
      PanicUnwinds(ics, from + 1, k, ctx, req, h, m);
      ProceedStep(ics, from, ctx, req, h);
      assert Enters(from, k + 1) == [Enter(from)] + Enters(from + 1, k + 1);
    } else {
      assert Enters(k, k + 1) == [Enter(k)];
    }
  }

  /** No event of a refused call comes from the handler or from any
      interceptor after the one that refused. */
  lemma ShortCircuitSkipsTheRest(ics: seq<Interceptor>, k: nat, ctx: Ctx, req: Value, h: Handler, e: Event)
    requires k < |ics|
    requires forall j :: 0 <= j < k ==> Decide(ics[j], ctx) == Proceed
    requires !Decide(ics[k], ctx).Proceed?
    requires e == Handled || (e.Enter? && e.pos > k) || (e.Exit? && e.pos > k)
    ensures e !in Exec(ics, 0, ctx, req, h).trace
  {
    match Decide(ics[k], ctx) {
      case Reject(err) => ShortCircuit(ics, 0, k, ctx, req, h, err);
      case Crash(m) => PanicUnwinds(ics, 0, k, ctx, req, h, m);
    }
    EntersHolds(0, k + 1, e);
    ExitsHolds(0, k + 1, e);
  }

  /** The handler runs iff every interceptor goes on; otherwise the chain
      never returns the handler's reply. */
  lemma {:induction false} HandlerRunsIffAllProceed(ics: seq<Interceptor>, from: nat, ctx: Ctx, req: Value, h: Handler)
    requires from <= |ics|
    ensures Handled in Exec(ics, from, ctx, req, h).trace
        <==> forall j :: from <= j < |ics| ==> Decide(ics[j], ctx) == Proceed
    decreases |ics| - from
  {
    if from < |ics| {
      HandlerRunsIffAllProceed(ics, from + 1, ctx, req, h);
    }
  }

  /** End to end for chains of the stock interceptors: the handler is
      reached, and its reply returned, exactly when no Auth is in the chain
      or the credential is valid; otherwise the caller gets the Auth
      refusal (Unauthenticated) and the handler never runs. */
  lemma {:induction false} StockChainAuth(ics: seq<Interceptor>, from: nat, ctx: Ctx, req: Value, h: Handler)
    requires from <= |ics|
    requires forall j :: 0 <= j < |ics| ==> !ics[j].Custom?
    ensures var r := Exec(ics, from, ctx, req, h);
      if Auth in ics[from..] && !HasValidToken(ctx) then
        && r.outcome == Returned(Reply(Nil, Some(AuthDecision(ctx).err)))
        && AuthDecision(ctx).err.code == Unauthenticated
        && Handled !in r.trace
      else
        r.outcome == Returned(h(ctx, req)) && Handled in r.trace
    decreases |ics| - from
  {
    if from < |ics| {
      StockChainAuth(ics, from + 1, ctx, req, h);
      assert ics[from..] == [ics[from]] + ics[from + 1..];
    }
  }

  /** The framework's server: the interceptors in registration order and
      the handlers by method name. */
  class MiniServer {
    var interceptors: seq<Interceptor>
    var handlers: map<string, Handler>

    /** `NewMiniServer()`: no interceptors, no handlers. */
    constructor ()
      ensures interceptors == [] && handlers == map[]
    {
      interceptors := [];
      handlers := map[];
    }

    /** Appends the given interceptors, in order, after those already there. */
    method Use(more: seq<Interceptor>)
      modifies this
      ensures interceptors == old(interceptors) + more
      ensures handlers == old(handlers)
    {
      interceptors := interceptors + more;
    }

    /** Registers `h` under `name`, silently replacing an earlier handler of
      that name; every other name keeps its handler. */
    method Handle(name: string, h: Handler)
      modifies this
      ensures handlers == old(handlers)[name := h]
      ensures interceptors == old(interceptors)
    {
      handlers := handlers[name := h];
    }

    /** Dispatches a call: an unknown method name fails with NotFound before
      any interceptor runs; a known one runs the chain of the current
      interceptors round its handler and returns what the chain returns. */
    method Call(ctx: Ctx, name: string, req: Value) returns (r: Run)
      ensures name !in handlers
              ==> r == Run(Returned(Reply(Nil, Some(Status(NotFound, "方法不存在: " + name)))), [])
      ensures name in handlers ==> r == Exec(interceptors, 0, ctx, req, handlers[name])
    {
      if name !in handlers {
        return Run(Returned(Reply(Nil, Some(Status(NotFound, "方法不存在: " + name)))), []);
      }
      var handler := handlers[name];
      r := Chain(interceptors, ctx, req, handler);
    }
  }
}
