/** The `call` action of internal/app/nginless/do_call.go: a tengo script named by
    the step runs with three bindings, the request (`BUILDIN_REQ`), the response
    (`BUILDIN_RES`: `html`, `text`, `json`) and `fetch`.

    The script language is not modelled. A script is what it does with the
    bindings: given the request binding it makes a list of binding calls, in order,
    and may end in an error of its own. Reading the script file, tengo's `String()`
    and `json.Marshal`, `http.NewRequest`'s validation and the HTTP client are
    parameters (`CallWorld`, `Runtime`). */
module Call {
  import opened Common
  import opened Http
  import opened Context

  /** A tengo object as the bindings look at it: a string, a bool, a map, or any
      other type (int, float, array, ...). */
  datatype Value = Str(s: string) | Bool(b: bool) | Map(m: map<string, Value>) | Other(typeName: string)

  /** A fetch request as it leaves the gateway. */
  datatype FetchRequest = FetchRequest(httpMethod: string, uri: string, body: string, header: Fields)

  /** What the script runtime and the libraries do. `show` is tengo's `String()`,
      `marshal` is `json.Marshal` of a map's Go form, `newRequestOk` says whether
      `http.NewRequest` accepts a method and URL, `order` is the order in which a Go
      `range` visits a map's keys, and `send` is the HTTP client: the response body,
      or `None` when the request fails. */
  datatype Libraries = Libraries(
    show: Value -> string,
    marshal: map<string, Value> -> string,
    newRequestOk: (string, string) -> bool,
    order: map<string, string> -> seq<string>,
    send: FetchRequest -> Option<string>)

  /** A Go `range` over a map visits each of its keys exactly once, in some order. */
  ghost predicate VisitsEachKeyOnce(order: map<string, string> -> seq<string>)
  {
    forall m: map<string, string> :: multiset(order(m)) == multiset(m.Keys)
  }

  /** The keys of a set in some order, each once. */
  ghost function Enumerate(s: set<string>): (r: seq<string>)
    ensures multiset(r) == multiset(s)
    decreases |s|
  {
    if s == {} then []
    else
      var k :| k in s;
      [k] + Enumerate(s - {k})
  }

  /** The runtimes a Go program can have: map visits are permutations of the keys. */
  type Runtime = rt: Libraries | VisitsEachKeyOnce(rt.order)
    ghost witness Libraries(
      (v: Value) => "", (m: map<string, Value>) => "", (a: string, b: string) => true,
      (m: map<string, string>) => Enumerate(m.Keys), (q: FetchRequest) => None)

  const JsonType := "application/json"

  // ---------------------------------------------------------------------------
  // BUILDIN_REQ

  /** The request binding: method, host, path, and the first value of every query
      parameter and header field. */
  datatype ReqModule = ReqModule(
    httpMethod: string,
    host: string,
    path: string,
    queries: map<string, string>,
    headers: map<string, string>)

  /** Each name with at least one value, mapped to its first value. */
  function FirstValues(m: map<string, seq<string>>): map<string, string>
  {
    map k | k in m && |m[k]| > 0 :: m[k][0]
  }

  /** `Values.Get`: the first value of a name, "" when it has none. */
  function FirstValue(m: map<string, seq<string>>, k: string): string
  {
    if k in m && |m[k]| > 0 then m[k][0] else ""
  }

  /** `out` holds the first values of the names in `seen`. */
  ghost predicate FirstOfSeen(out: map<string, string>, m: map<string, seq<string>>, seen: set<string>)
  {
    (forall j :: j in out <==> j in seen && j in m && |m[j]| > 0) &&
    (forall j :: j in out ==> j in m && |m[j]| > 0 && out[j] == m[j][0])
  }

  lemma FirstOfSeenStep(out: map<string, string>, m: map<string, seq<string>>, seen: set<string>, k: string)
    requires FirstOfSeen(out, m, seen) && k in m && k !in seen
    ensures FirstOfSeen(if |m[k]| > 0 then out[k := m[k][0]] else out, m, seen + {k})
  {
  }

  lemma FirstOfSeenAll(out: map<string, string>, m: map<string, seq<string>>)
    requires FirstOfSeen(out, m, m.Keys)
    ensures out == FirstValues(m)
  {
    assert forall j :: j in out <==> j in FirstValues(m);
  }

  /** The two loops of `createReqModule`: for every name, the first of its values
      (the inner loop stops after one). */
  method FirstOfEach(m: map<string, seq<string>>) returns (out: map<string, string>)
    ensures out == FirstValues(m)
  {
    out := map[];
    var names := m.Keys;
    while names != {}
      invariant names <= m.Keys
      invariant FirstOfSeen(out, m, m.Keys - names)
      decreases |names|
    {
      var k :| k in names;
      FirstOfSeenStep(out, m, m.Keys - names, k);
      var values := m[k];
      if |values| > 0 {
        out := out[k := values[0]];
      }
      assert (m.Keys - names) + {k} == m.Keys - (names - {k});
      names := names - {k};
    }
    assert m.Keys - names == m.Keys;
    FirstOfSeenAll(out, m);
  }

  method CreateReqModule(req: Request) returns (r: ReqModule)
    ensures r == ReqModule(req.httpMethod, req.host, req.path, FirstValues(req.query), FirstValues(req.header))
  {
    var queries := FirstOfEach(req.query);
    var headers := FirstOfEach(req.header);
    r := ReqModule(req.httpMethod, req.host, req.path, queries, headers);
  }

  /** A script sees exactly what `Get` would return: the first value of a name,
      and no entry for a name without values. */
  lemma FirstValuesAgreeWithGet(m: map<string, seq<string>>, k: string)
    ensures k in FirstValues(m) <==> FirstValue(m, k) != "" || (k in m && |m[k]| > 0)
    ensures FirstValue(m, k) == if k in FirstValues(m) then FirstValues(m)[k] else ""
  {
  }

  /** For headers, the lookup is case-insensitive as `Header.Get` is, once the name
      is put in canonical form. */
  lemma ReqHeadersAgreeWithHeaderGet(req: Request, k: string)
    ensures var headers := FirstValues(req.header);
            HeaderGet(req.header, k) == if CanonicalKey(k) in headers then headers[CanonicalKey(k)] else ""
  {
  }

  // ---------------------------------------------------------------------------
  // BUILDIN_RES

  datatype Binding = Html | Text | JsonBody

  function MediaType(b: Binding): string
  {
    match b
    case Html => "text/html"
    case Text => "text/plain"
    case JsonBody => JsonType
  }

  /** What a binding writes for its argument: `html` and `text` write a string
      verbatim and anything else in its `String()` form; `json` writes the encoded map. */
  function Payload(b: Binding, arg: Value, rt: Runtime): string
    requires b == JsonBody ==> arg.Map?
  {
    if b == JsonBody then rt.marshal(arg.m)
    else if arg.Str? then arg.s
    else rt.show(arg)
  }

  datatype BindingResult = BindingResult(ctx: Ctx, err: Option<string>)

  const EmptyArgument := "Parameter cannot be empty"
  const NotAMap := "Parameter should be a map"

  /** One call of a response binding, on values. */
  function RespondSpec(b: Binding, c: Ctx, args: seq<Value>, rt: Runtime): BindingResult
  {
    if |args| == 0 then BindingResult(InternalServerError(c), Some(EmptyArgument))
    else if b == JsonBody && !args[0].Map? then BindingResult(InternalServerError(c), Some(NotAMap))
    else BindingResult(Ctx(true, c.res.Set("Content-Type", MediaType(b)).Write(Payload(b, args[0], rt))), None)
  }

  /** The success path shared by the three closures: the content type is set, the
      payload written and the context finished. */
  method Answer(d: D, mediaType: string, payload: string)
    modifies d, d.res
    ensures d.Snapshot() == Ctx(true, old(d.res.State()).Set("Content-Type", mediaType).Write(payload))
  {
    d.res.Set("Content-Type", mediaType);
    d.done := true;
    d.res.Write(payload);
  }

  /** The `html`, `text` and `json` closures of `createResModule`. The error paths
      set `done` once more after `returnInternalServerError` has set it. */
  method Respond(d: D, b: Binding, args: seq<Value>, rt: Runtime) returns (err: Option<string>)
    modifies d, d.res
    ensures BindingResult(d.Snapshot(), err) == RespondSpec(b, old(d.Snapshot()), args, rt)
  {
    if |args| == 0 {
      var _ := d.ReturnInternalServerError();
      d.done := true;
      return Some(EmptyArgument);
    }
    var arg := args[0];
    if b == JsonBody && !arg.Map? {
      var _ := d.ReturnInternalServerError();
      d.done := true;
      return Some(NotAMap);
    }
    var payload;
    if b == JsonBody {
      payload := rt.marshal(arg.m);
    } else if arg.Str? {
      payload := arg.s;
    } else {
      payload := rt.show(arg);
    }
    Answer(d, MediaType(b), payload);
    return None;
  }

  /** A binding called without an argument answers 500 unless the response is
      already finished, finishes it, and reports an error; header and body stay. */
  lemma RespondWithoutArgument(b: Binding, c: Ctx, rt: Runtime)
    ensures var r := RespondSpec(b, c, [], rt);
            r.err == Some(EmptyArgument) && r.ctx.done &&
            r.ctx.res.header == c.res.header && r.ctx.res.body == c.res.body &&
            (c.done ==> r.ctx == c) &&
            (!c.done ==> r.ctx.res.writeHeaderCalls == c.res.writeHeaderCalls + 1)
  {
    InternalServerErrorOnce(c);
  }

  /** `json` refuses anything but a map the same way. */
  lemma JsonBindingNeedsAMap(c: Ctx, arg: Value, rest: seq<Value>, rt: Runtime)
    requires !arg.Map?
    ensures var r := RespondSpec(JsonBody, c, [arg] + rest, rt);
            r.err == Some(NotAMap) && r.ctx == InternalServerError(c)
  {
  }

  /** A successful call sets the content type to the binding's media type alone and
      leaves every other header name as it was. */
  lemma RespondSetsType(b: Binding, c: Ctx, args: seq<Value>, rt: Runtime)
    requires |args| > 0 && (b == JsonBody ==> args[0].Map?)
    ensures var h := RespondSpec(b, c, args, rt).ctx.res.header;
            var name := CanonicalKey("Content-Type");
            name in h && h[name] == [MediaType(b)] && HeaderGet(h, "Content-Type") == MediaType(b) &&
            Others(h) == Others(c.res.header)
  {
    var updated := c.res.Set("Content-Type", MediaType(b));
    HeaderSetOnly(c.res.header, "Content-Type", MediaType(b));
    assert RespondSpec(b, c, args, rt).ctx.res.header == updated.header;
  }

  /** A successful call finishes the response and appends the payload to the body;
      a string given to `html` or `text` is written verbatim. */
  lemma RespondWrites(b: Binding, c: Ctx, args: seq<Value>, rt: Runtime)
    requires |args| > 0 && (b == JsonBody ==> args[0].Map?)
    ensures var r := RespondSpec(b, c, args, rt);
            r.err.None? && r.ctx.done &&
            r.ctx.res.body == c.res.body + Payload(b, args[0], rt) &&
            (b != JsonBody && args[0].Str? ==> r.ctx.res.body == c.res.body + args[0].s) &&
            r.ctx.res.status == (if c.res.status.Some? then c.res.status else Some(200))
  {
    var updated := c.res.Set("Content-Type", MediaType(b));
    assert updated.body == c.res.body && updated.status == c.res.status;
  }

  /** The bindings never look at `done`: on a finished response a second call
      writes its payload again. */
  lemma RespondIgnoresDone(b: Binding, c: Ctx, arg: Value, rt: Runtime)
    requires b == JsonBody ==> arg.Map?
    ensures var once := RespondSpec(b, c, [arg], rt).ctx;
            var twice := RespondSpec(b, once, [arg], rt).ctx;
            once.done && twice.res.body == c.res.body + Payload(b, arg, rt) + Payload(b, arg, rt)
  {
  }

  // ---------------------------------------------------------------------------
  // fetch

  /** The options `fetch` assembles before building its request. `data` is the
      request body reader, `None` while it is still the nil interface. `headers` is
      the local Go map, keyed as the script spelled the names. */
  datatype FetchOptions = FetchOptions(httpMethod: string, uri: string, data: Option<string>, headers: map<string, string>)

  /** The outcome of reading the first argument: the options, or the panic of a
      failed type assertion (a `url` or `method` that is not a string). */
  datatype Parsed = Parsed(options: FetchOptions) | Failed(reason: string)

  const NotAString := "interface conversion: tengo.Object is not *tengo.String"
  const NilReader := "interface conversion: interface is nil, not io.Reader"

  /** A header option value: a string verbatim, anything else in `String()` form. */
  function AsText(v: Value, rt: Runtime): string
  {
    if v.Str? then v.s else rt.show(v)
  }

  function Stringified(m: map<string, Value>, rt: Runtime): map<string, string>
  {
    map k | k in m :: AsText(m[k], rt)
  }

  /** The body reader given by a `data` option: a string as is, a map JSON-encoded,
      any other value nothing. */
  function DataOf(m: map<string, Value>, rt: Runtime): Option<string>
  {
    if "data" !in m then None
    else match m["data"]
      case Str(s) => Some(s)
      case Map(dm) => Some(rt.marshal(dm))
      case _ => None
  }

  function HeadersOf(m: map<string, Value>, rt: Runtime): map<string, string>
  {
    var given := if "headers" in m && m["headers"].Map? then Stringified(m["headers"].m, rt) else map[];
    if "json" in m && m["json"] == Bool(true) then given["Content-Type" := JsonType] else given
  }

  /** `fetch`'s reading of its first argument, on values. */
  function OptionsOf(arg: Value, rt: Runtime): Parsed
  {
    match arg
    case Str(s) => Parsed(FetchOptions("GET", s, None, map[]))
    case Map(m) =>
      if "url" in m && !m["url"].Str? then Failed(NotAString)
      else if "method" in m && !m["method"].Str? then Failed(NotAString)
      else Parsed(FetchOptions(
        if "method" in m then ToUpper(m["method"].s) else "GET",
        if "url" in m then m["url"].s else "",
        DataOf(m, rt),
        HeadersOf(m, rt)))
    case _ => Parsed(FetchOptions("GET", "", None, map[]))
  }

  ghost predicate StringifiedSeen(out: map<string, string>, m: map<string, Value>, rt: Runtime, seen: set<string>)
  {
    (forall j :: j in out <==> j in seen && j in m) &&
    (forall j :: j in out ==> j in m && out[j] == AsText(m[j], rt))
  }

  lemma StringifiedStep(out: map<string, string>, m: map<string, Value>, rt: Runtime, seen: set<string>, k: string)
    requires StringifiedSeen(out, m, rt, seen) && k in m && k !in seen
    ensures StringifiedSeen(out[k := AsText(m[k], rt)], m, rt, seen + {k})
  {
  }

  lemma StringifiedAll(out: map<string, string>, m: map<string, Value>, rt: Runtime)
    requires StringifiedSeen(out, m, rt, m.Keys)
    ensures out == Stringified(m, rt)
  {
    assert forall j :: j in out <==> j in Stringified(m, rt);
  }

  /** The `headers` option loop: every entry, stringified unless it is a string. */
  method StringifyHeaders(m: map<string, Value>, rt: Runtime) returns (out: map<string, string>)
    ensures out == Stringified(m, rt)
  {
    out := map[];
    var names := m.Keys;
    while names != {}
      invariant names <= m.Keys
      invariant StringifiedSeen(out, m, rt, m.Keys - names)
      decreases |names|
    {
      var k :| k in names;
      StringifiedStep(out, m, rt, m.Keys - names, k);
      var item := m[k];
      if item.Str? {
        out := out[k := item.s];
      } else {
        out := out[k := rt.show(item)];
      }
      assert (m.Keys - names) + {k} == m.Keys - (names - {k});
      names := names - {k};
    }
    assert m.Keys - names == m.Keys;
    StringifiedAll(out, m, rt);
  }

  /** The option parsing of `fetchFunc`, changing its locals one option at a time. */
  method ParseOptions(arg: Value, rt: Runtime) returns (p: Parsed)
    ensures p == OptionsOf(arg, rt)
  {
    var uri := "";
    var httpMethod := "GET";
    var data: Option<string> := None;
    var headers: map<string, string> := map[];
    if arg.Str? {
      uri := arg.s;
    } else if arg.Map? {
      var m := arg.m;
      if "url" in m {
        if !m["url"].Str? {
          return Failed(NotAString);
        }
        uri := m["url"].s;
      }
      if "method" in m {
        if !m["method"].Str? {
          return Failed(NotAString);
        }
        httpMethod := ToUpper(m["method"].s);
      }
      if "data" in m {
        var o := m["data"];
        if o.Str? {
          data := Some(o.s);
        } else if o.Map? {
          data := Some(rt.marshal(o.m));
        }
      }
      if "headers" in m {
        var o := m["headers"];
        if o.Map? {
          headers := StringifyHeaders(o.m, rt);
        }
      }
      if "json" in m {
        var v := m["json"];
        if v.Bool? && v.b {
          headers := headers["Content-Type" := JsonType];
        }
      }
    }
    return Parsed(FetchOptions(httpMethod, uri, data, headers));
  }

  /** The header of the outbound request: `Add` of every option, in `keys` order. */
  function AddEach(h: Fields, headers: map<string, string>, keys: seq<string>): Fields
    decreases |keys|
  {
    if keys == [] then h
    else
      var before := AddEach(h, headers, keys[..|keys| - 1]);
      var k := keys[|keys| - 1];
      if k in headers then HeaderAdd(before, k, headers[k]) else before
  }

  /** The loop copying the options into the request header. */
  method AddHeaders(headers: map<string, string>, keys: seq<string>) returns (h: Fields)
    ensures h == AddEach(map[], headers, keys)
  {
    h := map[];
    for i := 0 to |keys|
      invariant h == AddEach(map[], headers, keys[..i])
    {
      assert keys[..i + 1][..i] == keys[..i];
      var k := keys[i];
      if k in headers {
        h := HeaderAdd(h, k, headers[k]);
      }
    }
    assert keys[..|keys|] == keys;
  }

  /** Values already in the header stay, and each visited option is added under its
      canonical name: when the visit order covers every option, every option value
      reaches the request. */
  lemma {:induction false} AddEachDelivers(h: Fields, headers: map<string, string>, keys: seq<string>)
    ensures forall c :: c in h ==> c in AddEach(h, headers, keys) && h[c] <= AddEach(h, headers, keys)[c]
    ensures forall i :: 0 <= i < |keys| && keys[i] in headers ==>
              CanonicalKey(keys[i]) in AddEach(h, headers, keys) &&
              headers[keys[i]] in AddEach(h, headers, keys)[CanonicalKey(keys[i])]
    decreases |keys|
  {
    if keys != [] {
      var prefix := keys[..|keys| - 1];
      AddEachDelivers(h, headers, prefix);
      var before := AddEach(h, headers, prefix);
      var k := keys[|keys| - 1];
      if k in headers {
        HeaderAddKeeps(before, k, headers[k]);
        forall c | c in before
          ensures c in HeaderAdd(before, k, headers[k]) && before[c] <= HeaderAdd(before, k, headers[k])[c]
        {
        }
      }
      forall i | 0 <= i < |keys| - 1 && keys[i] in headers
        ensures CanonicalKey(keys[i]) in AddEach(h, headers, keys) &&
                headers[keys[i]] in AddEach(h, headers, keys)[CanonicalKey(keys[i])]
      {
        assert keys[i] == prefix[i];
        var c := CanonicalKey(keys[i]);
        assert c in before && headers[keys[i]] in before[c];
      }
    }
  }

  /** What one call of `fetch` does: the value it hands back to the script, the
      error it raises, and the request it sends, if any. */
  datatype FetchResult = FetchResult(ret: Option<Value>, err: Option<string>, sent: Option<FetchRequest>)

  const BadRequest := "http.NewRequest failed"
  const TransportFailed := "client.Do failed"

  /** `fetchFunc` on values. Without a body reader the assertion `reader.(io.Reader)`
      panics before any request is built. */
  function FetchSpec(args: seq<Value>, rt: Runtime): FetchResult
  {
    if |args| == 0 then FetchResult(None, None, None)
    else
      match OptionsOf(args[0], rt)
      case Failed(reason) => FetchResult(None, Some(reason), None)
      case Parsed(o) =>
        if o.data.None? then FetchResult(None, Some(NilReader), None)
        else if !rt.newRequestOk(o.httpMethod, o.uri) then FetchResult(None, Some(BadRequest), None)
        else
          var out := FetchRequest(o.httpMethod, o.uri, o.data.value, AddEach(map[], o.headers, rt.order(o.headers)));
          match rt.send(out)
          case None => FetchResult(None, Some(TransportFailed), Some(out))
          case Some(body) => FetchResult(Some(Map(map["body" := Str(body)])), None, Some(out))
  }

  method Fetch(args: seq<Value>, rt: Runtime) returns (r: FetchResult)
    ensures r == FetchSpec(args, rt)
  {
    if |args| == 0 {
      return FetchResult(None, None, None);
    }
    var p := ParseOptions(args[0], rt);
    if p.Failed? {
      return FetchResult(None, Some(p.reason), None);
    }
    var o := p.options;
    if o.data.None? {
      return FetchResult(None, Some(NilReader), None);
    }
    if !rt.newRequestOk(o.httpMethod, o.uri) {
      return FetchResult(None, Some(BadRequest), None);
    }
    var header := AddHeaders(o.headers, rt.order(o.headers));
    var out := FetchRequest(o.httpMethod, o.uri, o.data.value, header);
    var res := rt.send(out);
    if res.None? {
      return FetchResult(None, Some(TransportFailed), Some(out));
    }
    return FetchResult(Some(Map(map["body" := Str(res.value)])), None, Some(out));
  }

  /** No argument: nothing is sent and nothing is returned. */
  lemma FetchWithoutArgument(rt: Runtime)
    ensures FetchSpec([], rt) == FetchResult(None, None, None)
  {
  }

  /** Nothing is ever sent without a `data` option holding a string or a map: a bare
      URL string, or options without a body, end in the nil-reader panic. */
  lemma FetchNeedsData(arg: Value, rest: seq<Value>, rt: Runtime)
    requires !arg.Map? || DataOf(arg.m, rt).None?
    ensures var r := FetchSpec([arg] + rest, rt);
            r.sent.None? && r.ret.None? && r.err.Some?
  {
  }

  /** The method defaults to GET; a given method is upper-cased, so the request
      never carries a lower-case letter in it. */
  lemma FetchMethod(m: map<string, Value>, rt: Runtime)
    requires OptionsOf(Map(m), rt).Parsed?
    ensures var o := OptionsOf(Map(m), rt).options;
            ("method" !in m ==> o.httpMethod == "GET") &&
            ("method" in m ==> o.httpMethod == ToUpper(m["method"].s)) &&
            (forall i :: 0 <= i < |o.httpMethod| ==> !('a' <= o.httpMethod[i] <= 'z'))
  {
  }

  /** `json: true` makes the content type `application/json` whatever the `headers`
      option said under that spelling; every other header option is kept, stringified. */
  lemma FetchJsonOption(m: map<string, Value>, rt: Runtime)
    requires OptionsOf(Map(m), rt).Parsed?
    requires "json" in m && m["json"] == Bool(true)
    ensures var h := OptionsOf(Map(m), rt).options.headers;
            "Content-Type" in h && h["Content-Type"] == JsonType &&
            ("headers" in m && m["headers"].Map? ==>
               forall k :: k in m["headers"].m && k != "Content-Type" ==>
                 k in h && h[k] == AsText(m["headers"].m[k], rt))
  {
  }

  /** A string header option reaches the options verbatim. */
  lemma FetchHeaderOption(m: map<string, Value>, rt: Runtime, k: string, v: string)
    requires OptionsOf(Map(m), rt).Parsed?
    requires "headers" in m && m["headers"].Map? && k in m["headers"].m && m["headers"].m[k] == Str(v)
    requires !("json" in m && m["json"] == Bool(true) && k == "Content-Type")
    ensures var h := OptionsOf(Map(m), rt).options.headers;
            k in h && h[k] == v
  {
  }

  /** A sent request carries the options' method, URL and body, and every header
      option reaches its header with its value, under the option's canonical name. */
  lemma FetchSendsHeaders(args: seq<Value>, rt: Runtime)
    requires FetchSpec(args, rt).sent.Some?
    ensures var o := OptionsOf(args[0], rt).options;
            var sent := FetchSpec(args, rt).sent.value;
            sent.httpMethod == o.httpMethod && sent.uri == o.uri && Some(sent.body) == o.data &&
            forall k :: k in o.headers ==>
              CanonicalKey(k) in sent.header && o.headers[k] in sent.header[CanonicalKey(k)]
  {
    var o := OptionsOf(args[0], rt).options;
    var keys := rt.order(o.headers);
    AddEachDelivers(map[], o.headers, keys);
    forall k | k in o.headers
      ensures exists i :: 0 <= i < |keys| && keys[i] == k
    {
      assert multiset(keys)[k] == multiset(o.headers.Keys)[k] == 1;
      assert k in keys;
    }
  }

  // ---------------------------------------------------------------------------
  // doCall

  /** One call a script makes. */
  datatype Invocation = Respond(binding: Binding, args: seq<Value>) | Fetch(fetchArgs: seq<Value>)

  /** What a script does: its binding calls in order, and whether it ends in an
      error of its own (a compile error has no calls before it). */
  datatype Plan = Plan(calls: seq<Invocation>, fails: bool)

  /** `read` gives the script stored under a path, as a function of the request
      binding, or `None` when the file cannot be read. */
  datatype CallWorld = CallWorld(read: string -> Option<ReqModule -> Plan>, rt: Runtime)

  function ScriptPath(actions: string, name: string): string
  {
    actions + "/" + name + ".tengo"
  }

  /** The state of a script run: the context, the error that stopped it, the fetch
      requests sent so far. */
  datatype Run = Run(ctx: Ctx, err: Option<string>, fetched: seq<FetchRequest>)

  function Perform(run: Run, call: Invocation, rt: Runtime): Run
  {
    match call
    case Respond(b, args) =>
      var r := RespondSpec(b, run.ctx, args, rt);
      Run(r.ctx, r.err, run.fetched)
    case Fetch(args) =>
      var f := FetchSpec(args, rt);
      Run(run.ctx, f.err, run.fetched + if f.sent.Some? then [f.sent.value] else [])
  }

  /** The calls from `i` on, stopping at the first one that returns an error. */
  function RunFrom(run: Run, calls: seq<Invocation>, i: nat, rt: Runtime): Run
    requires i <= |calls|
    decreases |calls| - i
  {
    if i == |calls| || run.err.Some? then run
    else RunFrom(Perform(run, calls[i], rt), calls, i + 1, rt)
  }

  datatype CallResult = CallResult(ctx: Ctx, flow: Flow, fetched: seq<FetchRequest>)

  /** `doCall` on values; `actions` is the script directory given with `-a`. With no
      parameter, `parameters[0]` is out of range and the step panics. */
  function CallSpec(req: Request, c: Ctx, actions: string, parameters: seq<string>, world: CallWorld): CallResult
  {
    if |parameters| == 0 then CallResult(c, Panicked("index out of range"), [])
    else
      match world.read(ScriptPath(actions, parameters[0]))
      case None => CallResult(InternalServerError(c), Normal, [])
      case Some(script) =>
        var plan := script(ReqModule(req.httpMethod, req.host, req.path, FirstValues(req.query), FirstValues(req.header)));
        var run := RunFrom(Run(c, None, []), plan.calls, 0, world.rt);
        CallResult(if run.err.Some? || plan.fails then InternalServerError(run.ctx) else run.ctx, Normal, run.fetched)
  }

  /** One binding call made by the script. */
  method Invoke(d: D, call: Invocation, fetched: seq<FetchRequest>, rt: Runtime) returns (err: Option<string>, fetched': seq<FetchRequest>)
    modifies d, d.res
    ensures Run(d.Snapshot(), err, fetched') == Perform(Run(old(d.Snapshot()), None, fetched), call, rt)
  {
    fetched' := fetched;
    match call {
      case Respond(b, args) =>
        err := Respond(d, b, args, rt);
      case Fetch(args) =>
        var f := Fetch(args, rt);
        err := f.err;
        if f.sent.Some? {
          fetched' := fetched + [f.sent.value];
        }
    }
  }

  method DoCall(d: D, actions: string, parameters: seq<string>, world: CallWorld) returns (r: D, flow: Flow, fetched: seq<FetchRequest>)
    modifies d, d.res
    ensures r == d
    ensures CallResult(d.Snapshot(), flow, fetched) == CallSpec(d.req, old(d.Snapshot()), actions, parameters, world)
  {
    if |parameters| == 0 {
      return d, Panicked("index out of range"), [];
    }
    var file := world.read(ScriptPath(actions, parameters[0]));
    if file.None? {
      r := d.ReturnInternalServerError();
      return r, Normal, [];
    }
    var reqModule := CreateReqModule(d.req);
    var plan := file.value(reqModule);
    ghost var start := Run(d.Snapshot(), None, []);
    var err: Option<string> := None;
    fetched := [];
    var i := 0;
    while i < |plan.calls| && err.None?
      invariant 0 <= i <= |plan.calls|
      invariant RunFrom(Run(d.Snapshot(), err, fetched), plan.calls, i, world.rt) == RunFrom(start, plan.calls, 0, world.rt)
      decreases |plan.calls| - i
    {
      err, fetched := Invoke(d, plan.calls[i], fetched, world.rt);
      i := i + 1;
    }
    if err.Some? || plan.fails {
      r := d.ReturnInternalServerError();
    }
    return d, Normal, fetched;
  }

  /** An unreadable script: a 500, and no binding runs. */
  lemma CallWithoutScript(req: Request, c: Ctx, actions: string, parameters: seq<string>, world: CallWorld)
    requires |parameters| > 0 && world.read(ScriptPath(actions, parameters[0])).None?
    ensures CallSpec(req, c, actions, parameters, world) == CallResult(InternalServerError(c), Normal, [])
  {
  }

  /** A script that fails, on its own or through a binding, leaves a finished
      response. */
  lemma CallFailureFinishes(req: Request, c: Ctx, actions: string, parameters: seq<string>, world: CallWorld)
    requires |parameters| > 0 && world.read(ScriptPath(actions, parameters[0])).Some?
    ensures var script := world.read(ScriptPath(actions, parameters[0])).value;
            var plan := script(ReqModule(req.httpMethod, req.host, req.path, FirstValues(req.query), FirstValues(req.header)));
            var run := RunFrom(Run(c, None, []), plan.calls, 0, world.rt);
            var r := CallSpec(req, c, actions, parameters, world);
            r.flow == Normal && (run.err.Some? || plan.fails ==> r.ctx.done)
  {
  }

  /** Only the content-type name of the header is ever changed by a script: with
      that name removed, the header is as it was. */
  function Others(h: Fields): Fields
  {
    h - {CanonicalKey("Content-Type")}
  }

  lemma PerformKeepsOtherNames(run: Run, call: Invocation, rt: Runtime)
    ensures Others(Perform(run, call, rt).ctx.res.header) == Others(run.ctx.res.header)
  {
    if call.Respond? {
      var b, args := call.binding, call.args;
      if |args| > 0 && (b == JsonBody ==> args[0].Map?) {
        RespondSetsType(b, run.ctx, args, rt);
      } else {
        InternalServerErrorOnce(run.ctx);
      }
    }
  }

  lemma {:induction false} RunKeepsOtherNames(run: Run, calls: seq<Invocation>, i: nat, rt: Runtime)
    requires i <= |calls|
    ensures Others(RunFrom(run, calls, i, rt).ctx.res.header) == Others(run.ctx.res.header)
    decreases |calls| - i
  {
    if i < |calls| && run.err.None? {
      var next := Perform(run, calls[i], rt);
      PerformKeepsOtherNames(run, calls[i], rt);
      RunKeepsOtherNames(next, calls, i + 1, rt);
    }
  }

  lemma CallKeepsOtherNames(req: Request, c: Ctx, actions: string, parameters: seq<string>, world: CallWorld)
    ensures Others(CallSpec(req, c, actions, parameters, world).ctx.res.header) == Others(c.res.header)
  {
    var r := CallSpec(req, c, actions, parameters, world);
    if |parameters| > 0 && world.read(ScriptPath(actions, parameters[0])).Some? {
      var script := world.read(ScriptPath(actions, parameters[0])).value;
      var plan := script(ReqModule(req.httpMethod, req.host, req.path, FirstValues(req.query), FirstValues(req.header)));
      var run := RunFrom(Run(c, None, []), plan.calls, 0, world.rt);
      RunKeepsOtherNames(Run(c, None, []), plan.calls, 0, world.rt);
      InternalServerErrorOnce(run.ctx);
    } else {
      InternalServerErrorOnce(c);
    }
  }

  /** Fetch calls never touch the response: a script that only fetches leaves it as it was. */
  lemma {:induction false} FetchesLeaveResponse(run: Run, calls: seq<Invocation>, i: nat, rt: Runtime)
    requires i <= |calls|
    requires forall j :: i <= j < |calls| ==> calls[j].Fetch?
    ensures RunFrom(run, calls, i, rt).ctx == run.ctx
    decreases |calls| - i
  {
    if i < |calls| && run.err.None? {
      FetchesLeaveResponse(Perform(run, calls[i], rt), calls, i + 1, rt);
    }
  }
}
