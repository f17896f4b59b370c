/** The gateway itself (internal/app/nginless/nginless.go and the dispatch of
    internal/app/nginless/do.go): the listening ports, and the pipeline every
    request goes through — route it, stamp the version header, then run the matched
    handler's steps one after another on the same context. */
module Pipeline {
  import opened Common
  import opened Http
  import opened Context
  import opened Router
  import opened Proxy
  import opened Call

  /** What the outside world does during one request: the regular-expression
      matcher, and for each step by position what the proxy and script steps meet. */
  datatype World = World(
    matches: (string, string) -> bool,
    proxy: nat -> ProxyWorld,
    call: nat -> CallWorld)

  /** `n.do(d, step)` on values: only `proxy` and `call` are wired in; every other
      action, `json` and `balancing` among them, leaves the context as it is. */
  function DoSpec(req: Request, c: Ctx, actions: string, step: Step, pw: ProxyWorld, cw: CallWorld): Outcome
  {
    if step.action == "proxy" then
      var r := ProxySpec(req, c, step.parameters, pw);
      Outcome(r.ctx, r.flow)
    else if step.action == "call" then
      var r := CallSpec(req, c, actions, step.parameters, cw);
      Outcome(r.ctx, r.flow)
    else Outcome(c, Normal)
  }

  /** The steps from `i` on. A panic abandons the rest of the request; a finished
      context does not. */
  function RunSteps(req: Request, o: Outcome, actions: string, steps: seq<Step>, i: nat, world: World): Outcome
    requires i <= |steps|
    decreases |steps| - i
  {
    if i == |steps| || o.flow.Panicked? then o
    else RunSteps(req, DoSpec(req, o.ctx, actions, steps[i], world.proxy(i), world.call(i)), actions, steps, i + 1, world)
  }

  /** The context a request starts from: the version header set, not done. */
  function Initial(res: Response, version: string): Ctx
  {
    Ctx(false, res.Set(Sentinel, version))
  }

  /** `handleTraffic` on values. */
  function TrafficSpec(version: string, actions: string, handlers: seq<Handler>, req: Request, res: Response, world: World): Outcome
  {
    var c := Initial(res, version);
    match Lookup(handlers, req, world.matches)
    case None => Outcome(InternalServerError(c), Normal)
    case Some(h) => RunSteps(req, Outcome(c, Normal), actions, h.steps, 0, world)
  }

  class Nginless {
    const version: string
    const ports: seq<string>
    const router: Router
    const actions: string

    /** The part of `New` that is not flag and I/O plumbing: the `-p` value is split
        at every comma. */
    constructor (version: string, portsFlag: string, router: Router, actions: string)
      ensures this.version == version && this.router == router && this.actions == actions
      ensures ports == Split(portsFlag, ',')
    {
      this.version := version;
      ports := Split(portsFlag, ',');
      this.router := router;
      this.actions := actions;
    }

    /** `do`: the step's parameters go unchanged to the action it names. */
    method Do(d: D, step: Step, pw: ProxyWorld, cw: CallWorld) returns (r: D, flow: Flow)
      modifies d, d.res
      ensures r == d
      ensures Outcome(d.Snapshot(), flow) == DoSpec(d.req, old(d.Snapshot()), actions, step, pw, cw)
    {
      if step.action == "proxy" {
        var sent;
        r, flow, sent := DoProxy(d, step.parameters, pw);
        return;
      } else if step.action == "call" {
        var fetched;
        r, flow, fetched := DoCall(d, actions, step.parameters, cw);
        return;
      }
      return d, Normal;
    }

    /** `handleTraffic(w, req)`. `done` is the context's flag when the handler
        returns, `flow` whether a step panicked. */
    method HandleTraffic(w: ResponseWriter, req: Request, world: World) returns (done: bool, flow: Flow)
      modifies w
      ensures Outcome(Ctx(done, w.State()), flow) ==
              TrafficSpec(version, actions, router.handlers, req, old(w.State()), world)
    {
      var matched, handler := router.Match(req, world.matches);
      w.Set(Sentinel, version);
      var d := new D(req, w);
      if !matched {
        var _ := d.ReturnInternalServerError();
        return d.done, Normal;
      }
      ghost var start := Outcome(d.Snapshot(), Normal);
      assert start.ctx == Initial(old(w.State()), version);
      flow := Normal;
      var i := 0;
      while i < |handler.steps| && flow.Normal?
        invariant 0 <= i <= |handler.steps|
        invariant d.res == w
        invariant RunSteps(req, Outcome(d.Snapshot(), flow), actions, handler.steps, i, world) ==
                  RunSteps(req, start, actions, handler.steps, 0, world)
        decreases |handler.steps| - i
      {
        ghost var before := Outcome(d.Snapshot(), flow);
        var r;
        r, flow := Do(d, handler.steps[i], world.proxy(i), world.call(i));
        assert Outcome(d.Snapshot(), flow) == DoSpec(req, before.ctx, actions, handler.steps[i], world.proxy(i), world.call(i));
        i := i + 1;
      }
      return d.done, flow;
    }
  }

  // ---------------------------------------------------------------------------
  // What the pipeline promises

  /** The ports are the pieces of the `-p` value between commas, in order: there is
      one more than there are commas, none holds a comma, and joined again with commas
      they give the value back. */
  lemma PortList(portsFlag: string)
    ensures var ports := Split(portsFlag, ',');
            |ports| == Count(portsFlag, ',') + 1 &&
            (forall k :: 0 <= k < |ports| ==> ',' !in ports[k]) &&
            Join(ports, ',') == portsFlag
  {
    SplitPieces(portsFlag, ',');
    JoinSplit(portsFlag, ',');
  }

  /** An unmatched request on a fresh writer gets exactly one 500 with an empty body
      and only the version header, and no step runs. */
  lemma UnmatchedRequest(version: string, actions: string, handlers: seq<Handler>, req: Request, world: World)
    requires forall k :: 0 <= k < |handlers| ==> !HandlerMatches(handlers[k], req, world.matches)
    ensures var r := TrafficSpec(version, actions, handlers, req, FreshResponse, world);
            r.flow == Normal && r.ctx.done &&
            r.ctx.res.status == Some(500) && r.ctx.res.writeHeaderCalls == 1 && r.ctx.res.body == "" &&
            r.ctx.res.header == map[Sentinel := [version]] && r.ctx.res.sent == r.ctx.res.header
  {
    LookupNone(handlers, req, world.matches);
    SentinelIsCanonical();
  }

  /** A matched request runs the handler's steps, starting from a context that is not
      done and already carries the version header. */
  lemma MatchedRequest(version: string, actions: string, handlers: seq<Handler>, req: Request, res: Response, world: World, k: nat)
    requires k < |handlers| && HandlerMatches(handlers[k], req, world.matches)
    requires forall j :: 0 <= j < k ==> !HandlerMatches(handlers[j], req, world.matches)
    ensures var c := Initial(res, version);
            TrafficSpec(version, actions, handlers, req, res, world) ==
              RunSteps(req, Outcome(c, Normal), actions, handlers[k].steps, 0, world) &&
            !c.done && c.res.header == res.header[Sentinel := [version]]
  {
    LookupFirst(handlers, req, world.matches, k);
    SentinelIsCanonical();
  }

  lemma SentinelIsCanonical()
    ensures CanonicalKey(Sentinel) == Sentinel
  {
    LowerCaseFixpoint(Sentinel);
  }

  /** The steps run in order, one dispatch each: running a list followed by one more
      step is running the list, then dispatching that step to what the list left —
      whether or not the list finished the response. Only a panic stops the run. */
  lemma {:induction false} StepsRunInOrder(req: Request, o: Outcome, actions: string, steps: seq<Step>, s: Step, world: World)
    ensures var before := RunSteps(req, o, actions, steps, 0, world);
            RunSteps(req, o, actions, steps + [s], 0, world) ==
              if before.flow.Panicked? then before
              else DoSpec(req, before.ctx, actions, s, world.proxy(|steps|), world.call(|steps|))
  {
    StepsRunInOrderFrom(req, o, actions, steps, s, 0, world);
  }

  lemma {:induction false} StepsRunInOrderFrom(req: Request, o: Outcome, actions: string, steps: seq<Step>, s: Step, i: nat, world: World)
    requires i <= |steps|
    ensures var before := RunSteps(req, o, actions, steps, i, world);
            RunSteps(req, o, actions, steps + [s], i, world) ==
              if before.flow.Panicked? then before
              else DoSpec(req, before.ctx, actions, s, world.proxy(|steps|), world.call(|steps|))
    decreases |steps| - i
  {
    var all := steps + [s];
    if i == |steps| {
      assert all[i] == s;
      if o.flow.Normal? {
        var next := DoSpec(req, o.ctx, actions, s, world.proxy(i), world.call(i));
        assert RunSteps(req, next, actions, all, i + 1, world) == next;
      }
    } else if o.flow.Normal? {
      assert all[i] == steps[i];
      var next := DoSpec(req, o.ctx, actions, steps[i], world.proxy(i), world.call(i));
      StepsRunInOrderFrom(req, next, actions, steps, s, i + 1, world);
    }
  }

  /** A step after one that finished the response is still dispatched: a proxy step
      that reaches its upstream writes its status code (the count of `WriteHeader`
      calls grows) even though the response was already done. */
  lemma DoneDoesNotStop(req: Request, c: Ctx, actions: string, step: Step, pw: ProxyWorld, cw: CallWorld)
    requires c.done && step.action == "proxy" && |step.parameters| >= 1
    requires pw.parse(step.parameters[0]).Some?
    requires var remote := pw.parse(step.parameters[0]).value;
             var uri := remote.scheme + "://" + remote.host + req.requestURI;
             pw.newRequestOk(req.httpMethod, uri) &&
             pw.send(Outbound(req.httpMethod, uri, NonEmpty(req.header))).Reply?
    ensures DoSpec(req, c, actions, step, pw, cw).ctx.res.writeHeaderCalls == c.res.writeHeaderCalls + 1
  {
    ProxyAnswer(req, c, step.parameters, pw);
  }

  /** Every action but `proxy` and `call` passes the context through untouched. */
  lemma OtherActionsPassThrough(req: Request, c: Ctx, actions: string, step: Step, pw: ProxyWorld, cw: CallWorld)
    requires step.action != "proxy" && step.action != "call"
    ensures DoSpec(req, c, actions, step, pw, cw) == Outcome(c, Normal)
  {
  }

  /** The version header holds exactly the gateway's version. */
  predicate Stamped(h: Fields, version: string)
  {
    Sentinel in h && h[Sentinel] == [version]
  }

  /** No step touches the version header. */
  lemma DoKeepsStamp(req: Request, c: Ctx, actions: string, step: Step, pw: ProxyWorld, cw: CallWorld, version: string)
    requires Stamped(c.res.header, version)
    ensures Stamped(DoSpec(req, c, actions, step, pw, cw).ctx.res.header, version)
  {
    if step.action == "proxy" {
      ProxyKeepsSentinel(req, c, step.parameters, pw);
    } else if step.action == "call" {
      CallKeepsOtherNames(req, c, actions, step.parameters, cw);
      var h := CallSpec(req, c, actions, step.parameters, cw).ctx.res.header;
      LowerCaseFixpoint("Content-Type");
      assert Sentinel != CanonicalKey("Content-Type");
      assert Sentinel in Others(c.res.header);
      assert Sentinel in Others(h) && Others(h)[Sentinel] == h[Sentinel];
    }
  }

  lemma {:induction false} RunKeepsStamp(req: Request, o: Outcome, actions: string, steps: seq<Step>, i: nat, world: World, version: string)
    requires i <= |steps|
    requires Stamped(o.ctx.res.header, version)
    ensures Stamped(RunSteps(req, o, actions, steps, i, world).ctx.res.header, version)
    decreases |steps| - i
  {
    if i < |steps| && o.flow.Normal? {
      var next := DoSpec(req, o.ctx, actions, steps[i], world.proxy(i), world.call(i));
      DoKeepsStamp(req, o.ctx, actions, steps[i], world.proxy(i), world.call(i), version);
      RunKeepsStamp(req, next, actions, steps, i + 1, world, version);
    }
  }

  /** Every response carries the gateway's version header with exactly the version
      as its value, whatever the steps do. */
  lemma EveryResponseStamped(version: string, actions: string, handlers: seq<Handler>, req: Request, res: Response, world: World)
    ensures Stamped(TrafficSpec(version, actions, handlers, req, res, world).ctx.res.header, version)
  {
    SentinelIsCanonical();
    var c := Initial(res, version);
    assert Stamped(c.res.header, version);
    match Lookup(handlers, req, world.matches)
    case None =>
      InternalServerErrorOnce(c);
    case Some(h) =>
      RunKeepsStamp(req, Outcome(c, Normal), actions, h.steps, 0, world, version);
  }

  /** The stamp is in the live header, and once a status is committed it was in the
      header sent with it too. */
  predicate StampedOnWire(r: Response, version: string)
  {
    Stamped(r.header, version) && (r.status.Some? ==> Stamped(r.sent, version))
  }

  /** A header that keeps the stamp, committed now or earlier, keeps it on the wire. */
  lemma {:induction false} WriteAllKeepsWireStamp(r: Response, chunks: seq<string>, version: string)
    requires StampedOnWire(r, version)
    ensures StampedOnWire(WriteAll(r, chunks), version)
  {
    WriteAllAppends(r, chunks);
  }

  lemma PerformKeepsWireStamp(run: Run, call: Invocation, rt: Runtime, version: string)
    requires StampedOnWire(run.ctx.res, version)
    ensures StampedOnWire(Perform(run, call, rt).ctx.res, version)
  {
  }

  lemma {:induction false} RunKeepsWireStamp(run: Run, calls: seq<Invocation>, i: nat, rt: Runtime, version: string)
    requires i <= |calls|
    requires StampedOnWire(run.ctx.res, version)
    ensures StampedOnWire(RunFrom(run, calls, i, rt).ctx.res, version)
    decreases |calls| - i
  {
    if i < |calls| && run.err.None? {
      PerformKeepsWireStamp(run, calls[i], rt, version);
      RunKeepsWireStamp(Perform(run, calls[i], rt), calls, i + 1, rt, version);
    }
  }

  lemma DoKeepsWireStamp(req: Request, c: Ctx, actions: string, step: Step, pw: ProxyWorld, cw: CallWorld, version: string)
    requires StampedOnWire(c.res, version)
    ensures StampedOnWire(DoSpec(req, c, actions, step, pw, cw).ctx.res, version)
  {
    if step.action == "proxy" {
      var ps := step.parameters;
      if |ps| >= 1 && pw.parse(ps[0]).Some? {
        var remote := pw.parse(ps[0]).value;
        var uri := remote.scheme + "://" + remote.host + req.requestURI;
        var out := Outbound(req.httpMethod, uri, NonEmpty(req.header));
        if pw.newRequestOk(req.httpMethod, uri) && pw.send(out).Reply? {
          var up := pw.send(out);
          MergeKeepsSentinel(c.res.header, up.header);
          var answered := c.res.(header := MergeUpstream(c.res.header, up.header)).WriteHeader(up.status);
          assert StampedOnWire(answered, version);
          WriteAllKeepsWireStamp(answered, CopyAll(up.body, pw.writes, DefaultBufferSize).chunks, version);
        }
      }
    } else if step.action == "call" {
      var ps := step.parameters;
      if |ps| > 0 && cw.read(ScriptPath(actions, ps[0])).Some? {
        var script := cw.read(ScriptPath(actions, ps[0])).value;
        var plan := script(ReqModule(req.httpMethod, req.host, req.path, FirstValues(req.query), FirstValues(req.header)));
        RunKeepsWireStamp(Run(c, None, []), plan.calls, 0, cw.rt, version);
      }
    }
  }

  lemma {:induction false} RunKeepsWireStampSteps(req: Request, o: Outcome, actions: string, steps: seq<Step>, i: nat, world: World, version: string)
    requires i <= |steps|
    requires StampedOnWire(o.ctx.res, version)
    ensures StampedOnWire(RunSteps(req, o, actions, steps, i, world).ctx.res, version)
    decreases |steps| - i
  {
    if i < |steps| && o.flow.Normal? {
      DoKeepsWireStamp(req, o.ctx, actions, steps[i], world.proxy(i), world.call(i), version);
      RunKeepsWireStampSteps(req, DoSpec(req, o.ctx, actions, steps[i], world.proxy(i), world.call(i)), actions, steps, i + 1, world, version);
    }
  }

  /** On a writer nothing has been committed to yet, as the server hands it over,
      the header the client receives with the status carries the version stamp,
      and so does the header left in the writer. */
  lemma ClientSeesStamp(version: string, actions: string, handlers: seq<Handler>, req: Request, res: Response, world: World)
    requires res.status.None?
    ensures var r := TrafficSpec(version, actions, handlers, req, res, world).ctx.res;
            Stamped(r.header, version) && (r.status.Some? ==> Stamped(r.sent, version))
  {
    SentinelIsCanonical();
    var c := Initial(res, version);
    assert StampedOnWire(c.res, version);
    match Lookup(handlers, req, world.matches)
    case None =>
    case Some(h) =>
      RunKeepsWireStampSteps(req, Outcome(c, Normal), actions, h.steps, 0, world, version);
  }
}
