/** `doBalancing` of internal/app/nginless/do_balancing.go: one of the listed
    addresses, picked at random, is handed to the proxy step. The random draw
    `rand.Intn(len(parameters))` is the `pick` argument. */
module Balancing {
  import opened Common
  import opened Http
  import opened Context
  import opened Proxy

  /** `doBalancing` on values. */
  function BalancingSpec(req: Request, c: Ctx, parameters: seq<string>, pick: nat, world: ProxyWorld): ProxyResult
    requires |parameters| > 0 ==> pick < |parameters|
  {
    if |parameters| == 0 then ProxyResult(InternalServerError(c), Normal, None)
    else ProxySpec(req, c, [parameters[pick]], world)
  }

  method DoBalancing(d: D, parameters: seq<string>, pick: nat, world: ProxyWorld) returns (r: D, flow: Flow, sent: Option<Outbound>)
    requires |parameters| > 0 ==> pick < |parameters|
    modifies d, d.res
    ensures r == d
    ensures ProxyResult(d.Snapshot(), flow, sent) == BalancingSpec(d.req, old(d.Snapshot()), parameters, pick, world)
  {
    if |parameters| == 0 {
      r := d.ReturnInternalServerError();
      return r, Normal, None;
    }
    r, flow, sent := DoProxy(d, [parameters[pick]], world);
  }

  /** No address: a 500, and the proxy is not consulted, so nothing is sent. */
  lemma BalancingNeedsAnAddress(req: Request, c: Ctx, pick: nat, world: ProxyWorld)
    ensures var r := BalancingSpec(req, c, [], pick, world);
            r.sent.None? && r.flow == Normal && r.ctx.done &&
            r.ctx.res.header == c.res.header && r.ctx.res.body == c.res.body
  {
    InternalServerErrorOnce(c);
  }

  /** Otherwise the step is exactly a proxy step given the one drawn address: the
      request, if one goes out, goes to that address, and whichever address is drawn
      is one of those listed. */
  lemma {:induction false} BalancingProxiesOne(req: Request, c: Ctx, parameters: seq<string>, pick: nat, world: ProxyWorld)
    requires |parameters| > 0 && pick < |parameters|
    ensures var r := BalancingSpec(req, c, parameters, pick, world);
            r == ProxySpec(req, c, [parameters[pick]], world) &&
            (r.sent.Some? ==>
               exists k :: 0 <= k < |parameters| && world.parse(parameters[k]).Some? &&
                 r.sent.value.uri == world.parse(parameters[k]).value.scheme + "://" +
                                     world.parse(parameters[k]).value.host + req.requestURI)
  {
    ProxyTarget(req, c, [parameters[pick]], world);
    assert [parameters[pick]][0] == parameters[pick];
  }

  /** A single address is always the one drawn: balancing over one address is a
      proxy step to it. */
  lemma BalancingOverOne(req: Request, c: Ctx, address: string, world: ProxyWorld)
    ensures BalancingSpec(req, c, [address], 0, world) == ProxySpec(req, c, [address], world)
  {
  }

  /** Balancing never touches the sentinel header, whichever address is drawn. */
  lemma BalancingKeepsSentinel(req: Request, c: Ctx, parameters: seq<string>, pick: nat, world: ProxyWorld)
    requires |parameters| > 0 ==> pick < |parameters|
    ensures var r := BalancingSpec(req, c, parameters, pick, world);
            (Sentinel in r.ctx.res.header <==> Sentinel in c.res.header) &&
            (Sentinel in c.res.header ==> r.ctx.res.header[Sentinel] == c.res.header[Sentinel])
  {
    if |parameters| > 0 {
      ProxyKeepsSentinel(req, c, [parameters[pick]], world);
    }
  }
}
