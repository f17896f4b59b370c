/** `doJSON` of internal/app/nginless/do_json.go: the first parameter is written
    as the body, after a `Content-Type: application/json` header is added. */
module Json {
  import opened Common
  import opened Http
  import opened Context

  const JsonType := "application/json"

  /** `doJSON` on values. With no parameter, `parameters[0]` is out of range and the
      step panics before anything is written. */
  function JsonSpec(c: Ctx, parameters: seq<string>): Outcome
  {
    if |parameters| == 0 then Outcome(c, Panicked("index out of range"))
    else Outcome(c.(res := c.res.Add("Content-Type", JsonType).Write(parameters[0])), Normal)
  }

  method DoJSON(d: D, parameters: seq<string>) returns (r: D, flow: Flow)
    modifies d.res
    ensures r == d
    ensures Outcome(d.Snapshot(), flow) == JsonSpec(old(d.Snapshot()), parameters)
  {
    if |parameters| == 0 {
      return d, Panicked("index out of range");
    }
    var s := parameters[0];
    d.res.Add("Content-Type", JsonType);
    d.res.Write(s);
    return d, Normal;
  }

  /** The content type is appended to any value already there, the first parameter
      is appended to the body verbatim, a status of 200 is committed unless one was
      already, and `done` is left as it was. */
  lemma JsonResponse(c: Ctx, parameters: seq<string>)
    requires |parameters| > 0
    ensures var r := JsonSpec(c, parameters).ctx;
            var name := CanonicalKey("Content-Type");
            var before := if name in c.res.header then c.res.header[name] else [];
            JsonSpec(c, parameters).flow == Normal && r.done == c.done &&
            r.res.header == c.res.header[name := before + [JsonType]] &&
            r.res.body == c.res.body + parameters[0] &&
            r.res.status == (if c.res.status.Some? then c.res.status else Some(200)) &&
            r.res.writeHeaderCalls == c.res.writeHeaderCalls
  {
    var added := c.res.Add("Content-Type", JsonType);
    assert added.header == HeaderAdd(c.res.header, "Content-Type", JsonType);
    assert JsonSpec(c, parameters).ctx.res == added.Write(parameters[0]);
  }

  /** Because the header is added rather than set, an earlier content type stays the
      one `Header.Get` reports. */
  lemma JsonKeepsEarlierType(c: Ctx, parameters: seq<string>, earlier: string)
    requires |parameters| > 0 && HeaderGet(c.res.header, "Content-Type") == earlier && earlier != ""
    ensures HeaderGet(JsonSpec(c, parameters).ctx.res.header, "Content-Type") == earlier
  {
    HeaderAddKeeps(c.res.header, "Content-Type", JsonType);
  }

  /** No parameter: a panic, with the context as it was. */
  lemma JsonNeedsAParameter(c: Ctx)
    ensures JsonSpec(c, []).ctx == c && JsonSpec(c, []).flow.Panicked?
  {
  }
}
