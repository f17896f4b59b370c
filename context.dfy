/** The per-request context `D` of internal/app/nginless/do.go: the inbound
    request, the response writer and the `done` flag. */
module Context {
  import opened Common
  import opened Http

  /** How a step ends: normally, or with a Go panic that net/http recovers
      (the rest of that request's pipeline is abandoned). */
  datatype Flow = Normal | Panicked(reason: string)

  /** The observable part of a context: the flag and the response state. */
  datatype Ctx = Ctx(done: bool, res: Response)

  /** The context after a step, and how the step ended. */
  datatype Outcome = Outcome(ctx: Ctx, flow: Flow)

  /** `returnInternalServerError` on values: a 500 written only while not done. */
  function InternalServerError(c: Ctx): Ctx
  {
    if c.done then c else Ctx(true, c.res.WriteHeader(500))
  }

  /** On an unfinished context it writes status 500 exactly once and finishes it;
      repeating it changes nothing. */
  lemma InternalServerErrorOnce(c: Ctx)
    ensures var r := InternalServerError(c);
            r.done &&
            (c.done ==> r == c) &&
            (!c.done ==> r.res.writeHeaderCalls == c.res.writeHeaderCalls + 1 &&
                         r.res.header == c.res.header && r.res.body == c.res.body &&
                         (c.res.status.None? ==> r.res.status == Some(500)))
    ensures InternalServerError(InternalServerError(c)) == InternalServerError(c)
  {
  }

  class D {
    const req: Request
    const res: ResponseWriter
    var done: bool

    function Snapshot(): Ctx
      reads this, res
    {
      Ctx(done, res.State())
    }

    /** `&D{req, w, false}` */
    constructor (req: Request, res: ResponseWriter)
      ensures this.req == req && this.res == res && !done
    {
      this.req := req;
      this.res := res;
      done := false;
    }

    method ReturnInternalServerError() returns (r: D)
      modifies this, res
      ensures r == this
      ensures Snapshot() == InternalServerError(old(Snapshot()))
    {
      if !done {
        res.WriteHeader(500);
        done := true;
      }
      r := this;
    }
  }
}
