/** The slice of Go's net/http that the gateway touches: header maps with
    case-insensitive field names (RFC 9110 section 5.1), the inbound request, and
    the response writer whose status, header and body the actions change. */
module Http {
  import opened Common

  /** A header map keyed by canonical field names. net/http canonicalises every
      key it stores; the model's canonical form is the lower-case spelling, the
      names that lower-casing leaves unchanged. */
  type Header = h: map<string, seq<string>> | forall k :: k in h ==> IsLowerCase(k) witness map[]

  /** Header fields as a response writer holds them. `Set` and `Add` store only
      canonical names, but nothing else is promised about the map. */
  type Fields = map<string, seq<string>>

  /** Every name stored in a header is already in canonical form. */
  lemma StoredNameIsCanonical(h: Header, k: string)
    requires k in h
    ensures ToLower(k) == k
  {
    LowerCaseFixpoint(k);
  }

  function CanonicalKey(k: string): string
  {
    ToLower(k)
  }

  /** `Header.Get`: the first value stored under the name, "" when there is none. */
  function HeaderGet(h: Fields, k: string): string
  {
    var c := CanonicalKey(k);
    if c in h && |h[c]| > 0 then h[c][0] else ""
  }

  /** `Header.Set`: the name now holds exactly one value. */
  function HeaderSet(h: Fields, k: string, v: string): Fields
  {
    LowerCaseFixpoint(k);
    h[CanonicalKey(k) := [v]]
  }

  /** `Header.Add`: the value is appended to those already under the name. */
  function HeaderAdd(h: Fields, k: string, v: string): Fields
  {
    LowerCaseFixpoint(k);
    var c := CanonicalKey(k);
    h[c := (if c in h then h[c] else []) + [v]]
  }

  /** Lookups ignore the case of the name: a Set under one spelling is seen by
      a Get under any other, and no other name is affected. */
  lemma HeaderSetGet(h: Fields, k: string, v: string, k': string)
    ensures HeaderGet(HeaderSet(h, k, v), k') ==
            if ToLower(k') == ToLower(k) then v else HeaderGet(h, k')
  {
  }

  /** Set replaces the values of one name and touches no other name. */
  lemma HeaderSetOnly(h: Fields, k: string, v: string)
    ensures var r := HeaderSet(h, k, v);
            CanonicalKey(k) in r && r[CanonicalKey(k)] == [v] && HeaderGet(r, k) == v &&
            r - {CanonicalKey(k)} == h - {CanonicalKey(k)}
  {
  }

  /** Add keeps every earlier value of the name, in order, and puts the new one last. */
  lemma HeaderAddKeeps(h: Fields, k: string, v: string)
    ensures var c := CanonicalKey(k);
            var r := HeaderAdd(h, k, v);
            c in r && |r[c]| >= 1 && r[c][|r[c]| - 1] == v &&
            (c in h ==> r[c][..|r[c]| - 1] == h[c]) &&
            (HeaderGet(h, k) != "" ==> HeaderGet(r, k) == HeaderGet(h, k))
  {
  }

  /** The parts of an inbound request the gateway reads. `url` is `URL.String()`,
      `requestURI` the unmodified request-target, `query` the parsed query string. */
  datatype Request = Request(
    httpMethod: string,
    host: string,
    requestURI: string,
    url: string,
    path: string,
    query: map<string, seq<string>>,
    header: Header)

  datatype IoError = EOF | Canceled | ShortWrite | Broken(message: string)

  /** What the client connection does with one `Write`: how many bytes it takes
      and the error it reports. */
  datatype WriteResult = WriteResult(n: nat, err: Option<IoError>)

  function Min(a: nat, b: nat): nat
  {
    if a <= b then a else b
  }

  /** The observable state of a response writer. `status` is the committed status
      (the first `WriteHeader`, or 200 on the first `Write`); `sent` is the header as
      it was when the status was committed (later header changes are not sent);
      `writeHeaderCalls` counts the explicit `WriteHeader` calls. */
  datatype Response = Response(
    header: Fields,
    status: Option<int>,
    sent: Fields,
    body: string,
    writeHeaderCalls: nat)
  {
    function WriteHeader(code: int): Response
    {
      if status.None? then this.(status := Some(code), sent := header, writeHeaderCalls := writeHeaderCalls + 1)
      else this.(writeHeaderCalls := writeHeaderCalls + 1)
    }

    function Write(p: string): Response
    {
      if status.None? then this.(status := Some(200), sent := header, body := body + p)
      else this.(body := body + p)
    }

    function Set(k: string, v: string): Response
    {
      this.(header := HeaderSet(header, k, v))
    }

    function Add(k: string, v: string): Response
    {
      this.(header := HeaderAdd(header, k, v))
    }
  }

  const FreshResponse := Response(map[], None, map[], "", 0)

  /** One `Write` per chunk, in order. */
  function WriteAll(r: Response, chunks: seq<string>): Response
    decreases |chunks|
  {
    if chunks == [] then r else WriteAll(r.Write(chunks[0]), chunks[1..])
  }

  /** Writing chunk by chunk appends their concatenation to the body and leaves the
      header alone; a status already committed stays, otherwise any write commits 200. */
  lemma {:induction false} WriteAllAppends(r: Response, chunks: seq<string>)
    ensures var w := WriteAll(r, chunks);
            w.body == r.body + Concat(chunks) && w.header == r.header &&
            w.writeHeaderCalls == r.writeHeaderCalls &&
            (r.status.Some? ==> w.status == r.status && w.sent == r.sent) &&
            (r.status.None? && chunks != [] ==> w.status == Some(200) && w.sent == r.header) &&
            (chunks == [] ==> w == r)
    decreases |chunks|
  {
    if chunks != [] {
      WriteAllAppends(r.Write(chunks[0]), chunks[1..]);
      assert r.body + chunks[0] + Concat(chunks[1..]) == r.body + Concat(chunks);
    }
  }

  lemma {:induction false} WriteAllSnoc(r: Response, chunks: seq<string>, c: string)
    ensures WriteAll(r, chunks + [c]) == WriteAll(r, chunks).Write(c)
    decreases |chunks|
  {
    if chunks == [] {
      assert chunks + [c] == [c];
      assert [c][1..] == [];
    } else {
      assert (chunks + [c])[0] == chunks[0] && (chunks + [c])[1..] == chunks[1..] + [c];
      WriteAllSnoc(r.Write(chunks[0]), chunks[1..], c);
    }
  }

  /** The first status written is the one the client sees; later calls are only counted. */
  lemma FirstStatusWins(r: Response, a: int, b: int)
    ensures r.status.None? ==> r.WriteHeader(a).WriteHeader(b).status == Some(a)
    ensures r.WriteHeader(a).WriteHeader(b).writeHeaderCalls == r.writeHeaderCalls + 2
    ensures r.WriteHeader(a).WriteHeader(b).sent == r.WriteHeader(a).sent
  {
  }

  /** The `http.ResponseWriter` of one request. */
  class ResponseWriter {
    var header: Fields
    var status: Option<int>
    var sent: Fields
    var body: string
    var writeHeaderCalls: nat

    function State(): Response
      reads this
    {
      Response(header, status, sent, body, writeHeaderCalls)
    }

    constructor ()
      ensures State() == FreshResponse
    {
      header, status, sent, body, writeHeaderCalls := map[], None, map[], "", 0;
    }

    /** `w.Header().Set(k, v)` */
    method Set(k: string, v: string)
      modifies this
      ensures State() == old(State()).Set(k, v)
    {
      header := HeaderSet(header, k, v);
    }

    /** `w.Header().Add(k, v)` */
    method Add(k: string, v: string)
      modifies this
      ensures State() == old(State()).Add(k, v)
    {
      header := HeaderAdd(header, k, v);
    }

    method WriteHeader(code: int)
      modifies this
      ensures State() == old(State()).WriteHeader(code)
    {
      if status.None? {
        status := Some(code);
        sent := header;
      }
      writeHeaderCalls := writeHeaderCalls + 1;
    }

    /** A write the connection takes in full. */
    method Write(p: string)
      modifies this
      ensures State() == old(State()).Write(p)
    {
      if status.None? {
        status := Some(200);
        sent := header;
      }
      body := body + p;
    }

    /** A write whose outcome the client connection decides: the first `outcome.n`
        bytes (at most all of them) reach the body, and that count is returned. */
    method WriteSome(p: string, outcome: WriteResult) returns (n: nat, err: Option<IoError>)
      modifies this
      ensures n == Min(outcome.n, |p|) && err == outcome.err
      ensures State() == old(State()).Write(p[..n])
    {
      n := Min(outcome.n, |p|);
      Write(p[..n]);
      err := outcome.err;
    }
  }
}
