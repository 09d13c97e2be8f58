/**
  The vocabulary shared by the demo programs: what a unary call carries
  (incoming metadata, an opaque request), what a handler returns, the
  status errors of gRPC, and the one shape every interceptor in these
  programs has -- check the call, then either refuse it or hand it to the
  next handler and return that handler's result unchanged.
 */
module Rpc {

  datatype Option<T> = None | Some(value: T)

  /** Incoming metadata: a key maps to the values sent for it, in order.
      Keys are held lower-case, as gRPC stores them. */
  type Metadata = map<string, seq<string>>

  /** `md.Get(key)`: the values for `key`, or none when the key is absent. */
  function MdGet(md: Metadata, key: string): seq<string>
  {
    if key in md then md[key] else []
  }

  /** The call context; `incoming` is None when `metadata.FromIncomingContext`
      reports that the call carries no metadata at all. */
  datatype Ctx = Ctx(incoming: Option<Metadata>)

  /** Requests and responses are `interface{}` to the framework: opaque. */
  datatype Value = Nil | Val(data: string)

  datatype Code = Unauthenticated | NotFound

  /** `status.Errorf(code, msg)` or a plain `fmt.Errorf(msg)`. */
  datatype Error = Status(code: Code, msg: string) | Plain(msg: string)

  /** The `(resp, err)` pair a handler returns. */
  datatype Reply = Reply(resp: Value, err: Option<Error>)

  /** A terminal business handler. */
  type Handler = (Ctx, Value) -> Reply

  /** How a call ended: it returned, or a Go panic unwound out of it. */
  datatype Outcome = Returned(reply: Reply) | Panicked(msg: string)

  /** Markers of one call: interceptor at chain position `pos` starts or
      returns, or the terminal handler runs. */
  datatype Event = Enter(pos: nat) | Exit(pos: nat) | Handled

  /** A call's outcome together with the events it produced, in order. */
  datatype Run = Run(outcome: Outcome, trace: seq<Event>)

  /** A handler as seen from inside a chain: it also yields its events. */
  type Traced = (Ctx, Value) -> Run

  /** What an interceptor decides before its `return handler(ctx, req)`:
      go on, return an error without calling the handler, or panic. */
  datatype Decision = Proceed | Reject(err: Error) | Crash(msg: string)

  /** Running the terminal handler: it is called once and its reply returned. */
  function Terminal(h: Handler, ctx: Ctx, req: Value): Run
  {
    Run(Returned(h(ctx, req)), [Handled])
  }

  /** An interceptor at position `pos` whose check gave `d`, with `next`
      the rest of the chain. On Proceed `next` runs exactly once, on this
      very `(ctx, req)`, and its outcome passes through unchanged; on
      Reject the error is returned with a nil response; a panic unwinds
      without the interceptor ever returning. */
  function Invoke(d: Decision, pos: nat, ctx: Ctx, req: Value, next: Traced): (r: Run)
    ensures |r.trace| > 0 && r.trace[0] == Enter(pos)
    ensures d.Proceed? ==> r.outcome == next(ctx, req).outcome
    ensures d.Reject? ==> r == Run(Returned(Reply(Nil, Some(d.err))), [Enter(pos), Exit(pos)])
    ensures d.Crash? ==> r == Run(Panicked(d.msg), [Enter(pos)])
  {
    match d
    case Proceed =>
      var inner := next(ctx, req);
      if inner.outcome.Panicked? then Run(inner.outcome, [Enter(pos)] + inner.trace)
      else Run(inner.outcome, [Enter(pos)] + inner.trace + [Exit(pos)])
    case Reject(e) => Run(Returned(Reply(Nil, Some(e))), [Enter(pos), Exit(pos)])
    case Crash(m) => Run(Panicked(m), [Enter(pos)])
  }

  /** Invoke looks at `next` only at `(ctx, req)`. */
  lemma InvokeCongruent(d: Decision, pos: nat, ctx: Ctx, req: Value, f: Traced, g: Traced)
    requires f(ctx, req) == g(ctx, req)
    ensures Invoke(d, pos, ctx, req, f) == Invoke(d, pos, ctx, req, g)
  {
  }

  /** An interceptor that proceeds, wrapped round the terminal handler: the
      handler runs exactly once and its `(resp, err)` comes back unchanged. */
  lemma {:induction false} ProceedIsPassThrough(pos: nat, ctx: Ctx, req: Value, h: Handler)
    ensures Invoke(Proceed, pos, ctx, req, (c, q) => Terminal(h, c, q))
         == Run(Returned(h(ctx, req)), [Enter(pos), Handled, Exit(pos)])
  {
  }

  // ---------------------------------------------------------------------
  // Strings and HTTP requests, as far as the routing predicates need them.

  ghost predicate OccursAt(s: string, sub: string, i: int)
  {
    0 <= i && i + |sub| <= |s| && s[i..i + |sub|] == sub
  }

  /** `strings.Contains(s, sub)`: `sub` occurs somewhere in `s`. */
  function Contains(s: string, sub: string): (r: bool)
    ensures r <==> exists i :: OccursAt(s, sub, i)
    decreases |s|
  {
    if |s| < |sub| then false
    else if s[..|sub|] == sub then
      assert OccursAt(s, sub, 0);
      true
    else
      var r := Contains(s[1..], sub);
      assert r ==> exists i :: OccursAt(s, sub, i) by {
        if r {
          var i :| OccursAt(s[1..], sub, i);
          assert s[1..][i..i + |sub|] == s[i + 1..i + 1 + |sub|];
          assert OccursAt(s, sub, i + 1);
        }
      }
      assert (exists i :: OccursAt(s, sub, i)) ==> r by {
        if exists i :: OccursAt(s, sub, i) {
          var i :| OccursAt(s, sub, i);
          assert i != 0;
          assert s[1..][i - 1..i - 1 + |sub|] == s[i..i + |sub|];
          assert OccursAt(s[1..], sub, i - 1);
        }
      }
      r
  }

  /** An HTTP request as the multiplexer sees it: the major protocol
      version and the header map (keys in canonical form). */
  datatype Request = Request(protoMajor: int, header: map<string, seq<string>>)

  /** `r.Header.Get(key)`: the first value for `key`, or "" when there is none. */
  function HeaderGet(header: map<string, seq<string>>, key: string): string
  {
    if key in header && |header[key]| > 0 then header[key][0] else ""
  }

  /** The two sub-servers sharing the port. */
  datatype Backend = GrpcBackend | GatewayBackend
}
