/** internal/app/nginless/do_proxy.go: `doProxy` forwards the inbound request to
    the address in its first parameter and copies the upstream answer back;
    `copyBuffer` is the body-copy loop. `url.Parse`, `http.NewRequest`, the HTTP
    client and the client connection are the world a call runs in. */
module Proxy {
  import opened Common
  import opened Http
  import opened Context

  /** The gateway's own response header, which an upstream may not overwrite. */
  const Sentinel := "x-nginless-version"

  /** `copyBuffer` replaces an empty buffer with one of 32 KiB. */
  const DefaultBufferSize: nat := 32 * 1024

  datatype Url = Url(scheme: string, host: string)

  /** What one `Read` returns: the bytes read and the error, if any. */
  datatype ReadResult = ReadResult(data: string, err: Option<IoError>)

  /** The request sent upstream. */
  datatype Outbound = Outbound(httpMethod: string, uri: string, header: Fields)

  /** What `client.Do` gives back: an error, or the upstream status, header and body. */
  datatype Upstream = TransportError(message: string) | Reply(status: int, header: Header, body: seq<ReadResult>)

  /** The world one proxy step runs in: `url.Parse`, whether `http.NewRequest`
      accepts the method and URI, the upstream server, and how the client connection
      takes each write of the copied body. */
  datatype ProxyWorld = ProxyWorld(
    parse: string -> Option<Url>,
    newRequestOk: (string, string) -> bool,
    send: Outbound -> Upstream,
    writes: seq<WriteResult>)

  // ---------------------------------------------------------------------------
  // copyBuffer

  /** The outcome of a body copy: what each write delivered, the count returned, the error. */
  datatype Copy = Copy(chunks: seq<string>, written: nat, err: Option<IoError>)

  /** The copy loop's variables between two iterations: the next read and write, what
      the writes delivered, the count, and the result once the loop has returned. */
  datatype Progress = Progress(ri: nat, wi: nat, chunks: seq<string>, written: nat, stop: Option<Option<IoError>>)

  /** EOF ends a copy without error. */
  function EndOfRead(e: Option<IoError>): Option<IoError>
  {
    if e == Some(EOF) then None else e
  }

  /** The `ri`-th read: a source that has run out reads EOF. */
  function ReadAt(source: seq<ReadResult>, ri: nat): ReadResult
  {
    if ri < |source| then source[ri] else ReadResult("", Some(EOF))
  }

  /** One iteration of `copyBuffer`: a read never returns more than the buffer holds,
      and a writer with no scripted outcome left accepts everything. */
  function CopyStep(source: seq<ReadResult>, writes: seq<WriteResult>, size: nat, p: Progress): (q: Progress)
    requires p.ri <= |source| && p.wi <= |writes|
    ensures q.ri <= |source| && q.wi <= |writes|
    ensures q.stop.None? ==> q.ri == p.ri + 1
  {
    var rd := ReadAt(source, p.ri);
    var nr := Min(|rd.data|, size);
    if nr > 0 then
      var w := if p.wi < |writes| then writes[p.wi] else WriteResult(nr, None);
      var nw := Min(w.n, nr);
      var q := p.(wi := if p.wi < |writes| then p.wi + 1 else p.wi,
                  chunks := p.chunks + [rd.data[..nr][..nw]], written := p.written + nw);
      if w.err.Some? then q.(stop := Some(w.err))
      else if nw != nr then q.(stop := Some(Some(ShortWrite)))
      else if rd.err.Some? then q.(stop := Some(EndOfRead(rd.err)))
      else q.(ri := p.ri + 1)
    else if rd.err.Some? then p.(stop := Some(EndOfRead(rd.err)))
    else p.(ri := p.ri + 1)
  }

  /** The loop from `p` on, to the iteration that returns. */
  function CopyRun(source: seq<ReadResult>, writes: seq<WriteResult>, size: nat, p: Progress): (q: Progress)
    requires p.ri <= |source| && p.wi <= |writes| && p.stop.None?
    ensures q.stop.Some?
    decreases |source| - p.ri
  {
    var q := CopyStep(source, writes, size, p);
    if q.stop.Some? then q else CopyRun(source, writes, size, q)
  }

  /** `copyBuffer` on values. */
  function CopyAll(source: seq<ReadResult>, writes: seq<WriteResult>, size: nat): Copy
  {
    var q := CopyRun(source, writes, size, Progress(0, 0, [], 0, None));
    Copy(q.chunks, q.written, q.stop.value)
  }

  function BufferSize(bufLen: nat): nat
  {
    if bufLen == 0 then DefaultBufferSize else bufLen
  }

  /** `copyBuffer(dst, src, buf)`: read into the buffer, write what was read, stop at
      the first write error, short write or read error. */
  method CopyBuffer(dst: ResponseWriter, source: seq<ReadResult>, writes: seq<WriteResult>, bufLen: nat)
    returns (written: nat, err: Option<IoError>)
    modifies dst
    ensures var c := CopyAll(source, writes, BufferSize(bufLen));
            written == c.written && err == c.err && dst.State() == WriteAll(old(dst.State()), c.chunks)
  {
    var size := bufLen;
    if size == 0 {
      size := DefaultBufferSize;
    }
    written := 0;
    ghost var chunks: seq<string> := [];
    ghost var last := CopyRun(source, writes, size, Progress(0, 0, [], 0, None));
    var ri, wi := 0, 0;
    while true
      invariant ri <= |source| && wi <= |writes|
      invariant last == CopyRun(source, writes, size, Progress(ri, wi, chunks, written, None))
      invariant dst.State() == WriteAll(old(dst.State()), chunks)
      decreases |source| - ri
    {
      ghost var next := CopyStep(source, writes, size, Progress(ri, wi, chunks, written, None));
      var rd := if ri < |source| then source[ri] else ReadResult("", Some(EOF));
      var nr := Min(|rd.data|, size);
      if nr > 0 {
        var w := if wi < |writes| then writes[wi] else WriteResult(nr, None);
        var nw, werr := dst.WriteSome(rd.data[..nr], w);
        WriteAllSnoc(old(dst.State()), chunks, rd.data[..nr][..nw]);
        chunks := chunks + [rd.data[..nr][..nw]];
        if wi < |writes| {
          wi := wi + 1;
        }
        if nw > 0 {
          written := written + nw;
        }
        if werr.Some? {
          return written, werr;
        }
        if nr != nw {
          return written, Some(ShortWrite);
        }
      }
      if rd.err.Some? {
        var rerr := rd.err;
        if rerr == Some(EOF) {
          rerr := None;
        }
        return written, rerr;
      }
      ri := ri + 1;
      assert next == Progress(ri, wi, chunks, written, None);
    }
  }

  /** The count the copy returns is the number of bytes it delivered. */
  lemma {:induction false} CopyCountsBytes(source: seq<ReadResult>, writes: seq<WriteResult>, size: nat, p: Progress)
    requires p.ri <= |source| && p.wi <= |writes| && p.stop.None?
    requires p.written == |Concat(p.chunks)|
    ensures var q := CopyRun(source, writes, size, p);
            q.written == |Concat(q.chunks)| && |q.chunks| >= |p.chunks| && q.chunks[..|p.chunks|] == p.chunks
    decreases |source| - p.ri
  {
    var q := CopyStep(source, writes, size, p);
    if |q.chunks| > |p.chunks| {
      ConcatAppend(p.chunks, q.chunks[|p.chunks|]);
      assert q.chunks == p.chunks + [q.chunks[|p.chunks|]];
    }
    if q.stop.None? {
      CopyCountsBytes(source, writes, size, q);
      var r := CopyRun(source, writes, size, q);
      assert r.chunks[..|p.chunks|] == r.chunks[..|q.chunks|][..|p.chunks|];
    }
  }

  /** `copyBuffer`'s count is the length of what reached the client. */
  lemma CopyAllCountsBytes(source: seq<ReadResult>, writes: seq<WriteResult>, size: nat)
    ensures CopyAll(source, writes, size).written == |Concat(CopyAll(source, writes, size).chunks)|
  {
    CopyCountsBytes(source, writes, size, Progress(0, 0, [], 0, None));
  }

  /** The pieces a source yields up to its first error, empty reads left out. */
  function Received(source: seq<ReadResult>, size: nat): seq<string>
    decreases |source|
  {
    if source == [] then []
    else
      var d := source[0].data[..Min(|source[0].data|, size)];
      var here := if d == "" then [] else [d];
      if source[0].err.Some? then here else here + Received(source[1..], size)
  }

  /** How a source ends: the first read error, EOF counting as none. */
  function ReadOutcome(source: seq<ReadResult>): Option<IoError>
    decreases |source|
  {
    if source == [] then None
    else if source[0].err.Some? then EndOfRead(source[0].err)
    else ReadOutcome(source[1..])
  }

  /** With a client that takes every write in full, the copy delivers everything the
      source yields before its first error, in order, and returns that error (none for EOF). */
  lemma CopyToPerfectWriter(source: seq<ReadResult>, size: nat)
    ensures CopyAll(source, [], size).chunks == Received(source, size)
    ensures CopyAll(source, [], size).err == ReadOutcome(source)
  {
    PerfectWriterFrom(source, size, 0, [], 0);
    assert source[0..] == source;
    assert [] + Received(source, size) == Received(source, size);
  }

  lemma {:induction false} PerfectWriterFrom(source: seq<ReadResult>, size: nat, ri: nat, chunks: seq<string>, written: nat)
    requires ri <= |source|
    ensures var q := CopyRun(source, [], size, Progress(ri, 0, chunks, written, None));
            q.chunks == chunks + Received(source[ri..], size) && q.stop.value == ReadOutcome(source[ri..])
    decreases |source| - ri
  {
    var q := CopyStep(source, [], size, Progress(ri, 0, chunks, written, None));
    if ri < |source| {
      assert source[ri..][0] == source[ri] && source[ri..][1..] == source[ri + 1..];
      PerfectStep(source, size, ri, chunks, written);
      var d := source[ri].data[..Min(|source[ri].data|, size)];
      var here := if d == "" then [] else [d];
      if q.stop.None? {
        PerfectWriterFrom(source, size, ri + 1, q.chunks, q.written);
        assert q.chunks + Received(source[ri + 1..], size) == chunks + (here + Received(source[ri + 1..], size));
      } else {
        assert chunks + here == q.chunks;
      }
    } else {
      assert source[ri..] == [];
      assert chunks + [] == chunks;
    }
  }

  /** One iteration with a client that takes every write in full. */
  lemma PerfectStep(source: seq<ReadResult>, size: nat, ri: nat, chunks: seq<string>, written: nat)
    requires ri < |source|
    ensures var d := source[ri].data[..Min(|source[ri].data|, size)];
            var q := CopyStep(source, [], size, Progress(ri, 0, chunks, written, None));
            q.wi == 0 && q.chunks == chunks + (if d == "" then [] else [d]) &&
            (source[ri].err.Some? ==> q.stop == Some(EndOfRead(source[ri].err))) &&
            (source[ri].err.None? ==> q.stop.None? && q.ri == ri + 1)
  {
    var d := source[ri].data[..Min(|source[ri].data|, size)];
    assert d[..|d|] == d;
    if d == "" {
      assert chunks + [] == chunks;
    }
  }

  /** At any iteration, a write error or a short write ends the copy there: the
      accepted bytes are the last chunk and are counted, and the error is the
      writer's own or `ErrShortWrite`. Every state the loop reaches runs on as
      `CopyRun` from it, so this covers each iteration of the copy. */
  lemma CopyStopsAtFailedWriteFrom(source: seq<ReadResult>, writes: seq<WriteResult>, size: nat, p: Progress)
    requires p.ri < |source| && p.wi < |writes| && p.stop.None?
    requires Min(|source[p.ri].data|, size) > 0
    requires writes[p.wi].err.Some? || writes[p.wi].n < Min(|source[p.ri].data|, size)
    ensures var nr := Min(|source[p.ri].data|, size);
            var nw := Min(writes[p.wi].n, nr);
            CopyRun(source, writes, size, p) ==
              Progress(p.ri, p.wi + 1, p.chunks + [source[p.ri].data[..nr][..nw]], p.written + nw,
                       Some(if writes[p.wi].err.Some? then writes[p.wi].err else Some(ShortWrite)))
  {
  }

  /** A write error or a short write on the first chunk ends the copy there. */
  lemma CopyStopsAtFailedWrite(source: seq<ReadResult>, writes: seq<WriteResult>, size: nat)
    requires source != [] && writes != []
    requires Min(|source[0].data|, size) > 0
    requires writes[0].err.Some? || writes[0].n < Min(|source[0].data|, size)
    ensures var c := CopyAll(source, writes, size);
            |c.chunks| == 1 && c.written == Min(writes[0].n, Min(|source[0].data|, size)) &&
            c.err == if writes[0].err.Some? then writes[0].err else Some(ShortWrite)
  {
  }

  /** A read's bytes are written before its error is looked at. */
  lemma CopyWritesBeforeReadError(source: seq<ReadResult>, size: nat)
    requires source != [] && source[0].err.Some?
    requires Min(|source[0].data|, size) > 0
    ensures var c := CopyAll(source, [], size);
            c.chunks == [source[0].data[..Min(|source[0].data|, size)]] && c.err == EndOfRead(source[0].err)
  {
    var nr := Min(|source[0].data|, size);
    assert source[0].data[..nr][..nr] == source[0].data[..nr];
  }

  // ---------------------------------------------------------------------------
  // Header copies

  /** The values of a header, names without values left out. */
  function NonEmpty(h: Fields): Fields
  {
    map k | k in h && |h[k]| > 0 :: h[k]
  }

  /** An upstream name whose last value is copied into the response. */
  predicate Copied(up: Fields, k: string)
  {
    k in up && k != Sentinel && |up[k]| > 0
  }

  /** The response header after the upstream header is copied in with `Set`: every
      upstream name but the sentinel now holds only its last value. */
  function MergeUpstream(h: Fields, up: Fields): Fields
  {
    map k | k in h.Keys + up.Keys && (k in h || Copied(up, k)) :: if Copied(up, k) then [up[k][|up[k]| - 1]] else h[k]
  }

  /** `out` holds the values of the names in `seen` that have any. */
  ghost predicate Gathered(out: Fields, h: Fields, seen: set<string>)
  {
    (forall j :: j in out <==> j in seen && j in h && |h[j]| > 0) &&
    (forall j :: j in out ==> j in h && out[j] == h[j])
  }

  lemma GatheredStep(out: Fields, h: Fields, seen: set<string>, k: string)
    requires Gathered(out, h, seen) && k in h && k !in seen
    ensures k !in out
    ensures Gathered(if |h[k]| > 0 then out[k := h[k]] else out, h, seen + {k})
  {
  }

  lemma GatheredAll(out: Fields, h: Fields)
    requires Gathered(out, h, h.Keys)
    ensures out == NonEmpty(h)
  {
    assert forall j :: j in out <==> j in NonEmpty(h);
  }

  /** `h` is `base` with the last value of every copied name in `seen` set. */
  ghost predicate Merged(h: Fields, base: Fields, up: Fields, seen: set<string>)
  {
    (forall j :: j in h <==> j in base || (j in seen && Copied(up, j))) &&
    (forall j :: j in h ==> h[j] == if j in seen && Copied(up, j) then [up[j][|up[j]| - 1]] else base[j])
  }

  lemma MergedStep(h: Fields, base: Fields, up: Fields, seen: set<string>, k: string)
    requires Merged(h, base, up, seen) && k in up && k !in seen
    ensures Merged(if Copied(up, k) then h[k := [up[k][|up[k]| - 1]]] else h, base, up, seen + {k})
  {
  }

  lemma MergedAll(h: Fields, base: Fields, up: Fields)
    requires Merged(h, base, up, up.Keys)
    ensures h == MergeUpstream(base, up)
  {
    assert forall j :: j in h <==> j in MergeUpstream(base, up);
  }

  /** The inner loop of the request header copy: `Add` for each value of one name. */
  method AddValues(h: Fields, k: string, values: seq<string>) returns (out: Fields)
    requires ToLower(k) == k
    ensures |values| == 0 ==> out == h
    ensures |values| > 0 ==> out == h[k := (if k in h then h[k] else []) + values]
  {
    out := h;
    var x := 0;
    while x < |values|
      invariant 0 <= x <= |values|
      invariant x == 0 ==> out == h
      invariant x > 0 ==> out == h[k := (if k in h then h[k] else []) + values[..x]]
    {
      assert values[..x + 1] == values[..x] + [values[x]];
      assert CanonicalKey(k) == k;
      var base := if k in h then h[k] else [];
      var now := if k in out then out[k] else [];
      assert now == if x == 0 then base else base + values[..x];
      assert now + [values[x]] == base + values[..x + 1];
      assert HeaderAdd(out, k, values[x]) == out[k := now + [values[x]]];
      out := HeaderAdd(out, k, values[x]);
      x := x + 1;
    }
    assert values[..|values|] == values;
  }

  /** The header copy into the outbound request: `Add` for every value of every name. */
  method CopyRequestHeader(h: Header) returns (out: Fields)
    ensures out == NonEmpty(h)
  {
    out := map[];
    var names := h.Keys;
    while names != {}
      invariant names <= h.Keys
      invariant Gathered(out, h, h.Keys - names)
      decreases |names|
    {
      var k :| k in names;
      GatheredStep(out, h, h.Keys - names, k);
      StoredNameIsCanonical(h, k);
      out := AddValues(out, k, h[k]);
      assert [] + h[k] == h[k];
      assert (h.Keys - names) + {k} == h.Keys - (names - {k});
      names := names - {k};
    }
    assert h.Keys - names == h.Keys;
    GatheredAll(out, h);
  }

  /** The inner loop of the response header copy: `Set` for each value of one name,
      so the last one stays. */
  method SetValues(w: ResponseWriter, k: string, values: seq<string>)
    modifies w
    ensures w.status == old(w.status) && w.sent == old(w.sent)
    ensures w.body == old(w.body) && w.writeHeaderCalls == old(w.writeHeaderCalls)
    ensures w.header == if |values| == 0 then old(w.header) else old(w.header)[CanonicalKey(k) := [values[|values| - 1]]]
  {
    var x := 0;
    while x < |values|
      invariant 0 <= x <= |values|
      invariant w.status == old(w.status) && w.sent == old(w.sent)
      invariant w.body == old(w.body) && w.writeHeaderCalls == old(w.writeHeaderCalls)
      invariant w.header == if x == 0 then old(w.header) else old(w.header)[CanonicalKey(k) := [values[x - 1]]]
    {
      w.Set(k, values[x]);
      x := x + 1;
    }
  }

  /** One iteration of the response header copy: the sentinel is skipped, any other
      name is `Set` to each of its values in turn. */
  method CopyName(w: ResponseWriter, up: Header, k: string)
    requires k in up
    modifies w
    ensures w.status == old(w.status) && w.sent == old(w.sent)
    ensures w.body == old(w.body) && w.writeHeaderCalls == old(w.writeHeaderCalls)
    ensures w.header == if Copied(up, k) then old(w.header)[k := [up[k][|up[k]| - 1]]] else old(w.header)
  {
    StoredNameIsCanonical(up, k);
    var name := ToLower(k);
    if name == Sentinel {
      assert !Copied(up, k);
      return;
    }
    assert CanonicalKey(k) == k;
    SetValues(w, k, up[k]);
    assert Copied(up, k) <==> |up[k]| > 0;
  }

  /** The upstream header copy into the response: the sentinel is skipped, every other
      value is `Set`, so a name ends up holding its last value. */
  method CopyResponseHeader(w: ResponseWriter, up: Header)
    modifies w
    ensures w.State() == old(w.State()).(header := MergeUpstream(old(w.header), up))
  {
    var names := up.Keys;
    while names != {}
      invariant names <= up.Keys
      invariant Merged(w.header, old(w.header), up, up.Keys - names)
      invariant w.State() == old(w.State()).(header := w.header)
      decreases |names|
    {
      var k :| k in names;
      MergedStep(w.header, old(w.header), up, up.Keys - names, k);
      CopyName(w, up, k);
      assert (up.Keys - names) + {k} == up.Keys - (names - {k});
      names := names - {k};
    }
    assert up.Keys - names == up.Keys;
    MergedAll(w.header, old(w.header), up);
  }

  /** The sentinel survives any upstream header; every other upstream name with a
      value holds its last value; names the upstream does not send are unchanged. */
  lemma MergeKeepsSentinel(h: Fields, up: Header)
    ensures var m := MergeUpstream(h, up);
            (Sentinel in m <==> Sentinel in h) && (Sentinel in h ==> m[Sentinel] == h[Sentinel]) &&
            (forall k :: k in up && k != Sentinel && |up[k]| > 0 ==> m[k] == [up[k][|up[k]| - 1]]) &&
            (forall k :: k in h && (k !in up || |up[k]| == 0) ==> m[k] == h[k])
  {
  }

  // ---------------------------------------------------------------------------
  // doProxy

  datatype ProxyResult = ProxyResult(ctx: Ctx, flow: Flow, sent: Option<Outbound>)

  /** `doProxy` on values. */
  function ProxySpec(req: Request, c: Ctx, parameters: seq<string>, world: ProxyWorld): ProxyResult
  {
    if |parameters| == 0 then ProxyResult(InternalServerError(c), Normal, None)
    else
      match world.parse(parameters[0])
      case None => ProxyResult(InternalServerError(c), Normal, None)
      case Some(remote) =>
        var uri := remote.scheme + "://" + remote.host + req.requestURI;
        if !world.newRequestOk(req.httpMethod, uri) then ProxyResult(c, Panicked("nil request"), None)
        else
          var out := Outbound(req.httpMethod, uri, NonEmpty(req.header));
          match world.send(out)
          case TransportError(_) => ProxyResult(InternalServerError(c), Normal, Some(out))
          case Reply(status, header, body) =>
            var answered := c.res.(header := MergeUpstream(c.res.header, header)).WriteHeader(status);
            var copied := CopyAll(body, world.writes, DefaultBufferSize);
            ProxyResult(Ctx(true, WriteAll(answered, copied.chunks)), Normal, Some(out))
  }

  /** `doProxy(d, parameters)`. A failed `http.NewRequest` is only logged; the nil
      request is then dereferenced, which panics. */
  method DoProxy(d: D, parameters: seq<string>, world: ProxyWorld) returns (r: D, flow: Flow, sent: Option<Outbound>)
    modifies d, d.res
    ensures r == d
    ensures ProxyResult(d.Snapshot(), flow, sent) == ProxySpec(d.req, old(d.Snapshot()), parameters, world)
  {
    if |parameters| == 0 {
      r := d.ReturnInternalServerError();
      return r, Normal, None;
    }
    var remote := world.parse(parameters[0]);
    if remote.None? {
      r := d.ReturnInternalServerError();
      return r, Normal, None;
    }
    var uri := remote.value.scheme + "://" + remote.value.host + d.req.requestURI;
    if !world.newRequestOk(d.req.httpMethod, uri) {
      return d, Panicked("nil request"), None;
    }
    var header := CopyRequestHeader(d.req.header);
    var out := Outbound(d.req.httpMethod, uri, header);
    sent := Some(out);
    var res := world.send(out);
    if res.TransportError? {
      r := d.ReturnInternalServerError();
      return r, Normal, sent;
    }
    CopyResponseHeader(d.res, res.header);
    d.res.WriteHeader(res.status);
    var written, copyErr := CopyBuffer(d.res, res.body, world.writes, 0);
    // The error checked after the copy is the one `client.Do` returned, which is nil
    // here, so the copy's own error never turns into a 500.
    d.done := true;
    return d, Normal, sent;
  }

  // ---------------------------------------------------------------------------
  // What a proxy step promises

  /** No parameters: a 500 and no outbound request. */
  lemma ProxyNeedsAnAddress(req: Request, c: Ctx, world: ProxyWorld)
    ensures ProxySpec(req, c, [], world) == ProxyResult(InternalServerError(c), Normal, None)
  {
  }

  /** Only the first parameter is used; the request goes to its scheme and host with
      the inbound request-target unchanged, with the inbound method and every inbound
      header value. */
  lemma ProxyTarget(req: Request, c: Ctx, parameters: seq<string>, world: ProxyWorld)
    requires |parameters| >= 1
    ensures ProxySpec(req, c, parameters, world) == ProxySpec(req, c, parameters[..1], world)
    ensures var r := ProxySpec(req, c, parameters, world);
            r.sent.Some? ==>
              world.parse(parameters[0]).Some? &&
              r.sent.value.uri == world.parse(parameters[0]).value.scheme + "://" +
                                  world.parse(parameters[0]).value.host + req.requestURI &&
              r.sent.value.httpMethod == req.httpMethod &&
              (forall k :: k in req.header && |req.header[k]| > 0 <==> k in r.sent.value.header) &&
              (forall k :: k in r.sent.value.header ==> r.sent.value.header[k] == req.header[k])
  {
    assert parameters[..1][0] == parameters[0];
  }

  /** An upstream that cannot be reached gives a 500; no upstream header or body is copied. */
  lemma ProxyTransportFailure(req: Request, c: Ctx, parameters: seq<string>, world: ProxyWorld)
    requires |parameters| >= 1 && world.parse(parameters[0]).Some?
    requires var remote := world.parse(parameters[0]).value;
             var uri := remote.scheme + "://" + remote.host + req.requestURI;
             world.newRequestOk(req.httpMethod, uri) &&
             world.send(Outbound(req.httpMethod, uri, NonEmpty(req.header))).TransportError?
    ensures var r := ProxySpec(req, c, parameters, world);
            r.ctx == InternalServerError(c) && r.flow == Normal &&
            r.ctx.res.header == c.res.header && r.ctx.res.body == c.res.body
  {
  }

  /** An answer from upstream: its status is written before the body, the context is
      finished whatever the body copy did, and the sentinel header is left as it was. */
  lemma ProxyAnswer(req: Request, c: Ctx, parameters: seq<string>, world: ProxyWorld)
    requires |parameters| >= 1 && world.parse(parameters[0]).Some?
    requires var remote := world.parse(parameters[0]).value;
             var uri := remote.scheme + "://" + remote.host + req.requestURI;
             world.newRequestOk(req.httpMethod, uri) &&
             world.send(Outbound(req.httpMethod, uri, NonEmpty(req.header))).Reply?
    ensures var remote := world.parse(parameters[0]).value;
            var uri := remote.scheme + "://" + remote.host + req.requestURI;
            var up := world.send(Outbound(req.httpMethod, uri, NonEmpty(req.header)));
            var copied := CopyAll(up.body, world.writes, DefaultBufferSize);
            var r := ProxySpec(req, c, parameters, world);
            r.flow == Normal && r.ctx.done &&
            r.ctx.res.header == MergeUpstream(c.res.header, up.header) &&
            (c.res.status.None? ==> r.ctx.res.status == Some(up.status)) &&
            (c.res.status.Some? ==> r.ctx.res.status == c.res.status) &&
            r.ctx.res.body == c.res.body + Concat(copied.chunks) &&
            r.ctx.res.writeHeaderCalls == c.res.writeHeaderCalls + 1 &&
            (Sentinel in r.ctx.res.header <==> Sentinel in c.res.header) &&
            (Sentinel in c.res.header ==> r.ctx.res.header[Sentinel] == c.res.header[Sentinel])
  {
    var remote := world.parse(parameters[0]).value;
    var uri := remote.scheme + "://" + remote.host + req.requestURI;
    var up := world.send(Outbound(req.httpMethod, uri, NonEmpty(req.header)));
    var answered := c.res.(header := MergeUpstream(c.res.header, up.header)).WriteHeader(up.status);
    WriteAllAppends(answered, CopyAll(up.body, world.writes, DefaultBufferSize).chunks);
    MergeKeepsSentinel(c.res.header, up.header);
  }

  /** A step that does not reach upstream leaves the header alone, so in every case
      the sentinel header keeps its value. */
  lemma ProxyKeepsSentinel(req: Request, c: Ctx, parameters: seq<string>, world: ProxyWorld)
    ensures var r := ProxySpec(req, c, parameters, world);
            (Sentinel in r.ctx.res.header <==> Sentinel in c.res.header) &&
            (Sentinel in c.res.header ==> r.ctx.res.header[Sentinel] == c.res.header[Sentinel])
  {
    if |parameters| >= 1 && world.parse(parameters[0]).Some? {
      var remote := world.parse(parameters[0]).value;
      var uri := remote.scheme + "://" + remote.host + req.requestURI;
      if world.newRequestOk(req.httpMethod, uri) &&
         world.send(Outbound(req.httpMethod, uri, NonEmpty(req.header))).Reply? {
        ProxyAnswer(req, c, parameters, world);
      }
    }
  }
}
