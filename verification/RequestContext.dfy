/** From decoded headers to the request handed to the dispatcher. */
module RequestContext {
  import opened Wrappers
  import opened Bytes
  import opened Frames
  import opened Text
  import opened HeaderBlock

  datatype Method = GET | POST | PUT | DELETE | HEAD

  /** `Method::from_str`. */
  function FromStr(s: string): Option<Method> {
    var u := Upper(s);
    if u == "GET" then Some(GET)
    else if u == "POST" then Some(POST)
    else if u == "DELETE" then Some(DELETE)
    else if u == "PUT" then Some(PUT)
    else if u == "HEAD" then Some(HEAD)
    else None
  }

  /** The string names the method, in letters of any case. */
  predicate Spells(m: string, verb: Method) {
    match verb
    case GET => EqIgnoreCase(m, "GET")
    case POST => EqIgnoreCase(m, "POST")
    case PUT => EqIgnoreCase(m, "PUT")
    case DELETE => EqIgnoreCase(m, "DELETE")
    case HEAD => EqIgnoreCase(m, "HEAD")
  }

  /** The parser reads each method from exactly the strings that name it. */
  lemma ParsesAsSpelled(m: string, verb: Method)
    ensures FromStr(m) == Some(verb) <==> Spells(m, verb)
  {
    UpperCaseEquality(m, "GET");
    UpperCaseEquality(m, "POST");
    UpperCaseEquality(m, "PUT");
    UpperCaseEquality(m, "DELETE");
    UpperCaseEquality(m, "HEAD");
  }

  lemma SpellsOne(m: string, verb: Method, other: Method)
    requires Spells(m, verb) && Spells(m, other)
    ensures verb == other
  {
    ParsesAsSpelled(m, verb);
    ParsesAsSpelled(m, other);
  }

  datatype Context = Context(verb: Method, path: string, scheme: string, host: string, headers: Headers, body: Option<seq<Byte>>)

  /** `Http2RequestContext::try_from`: a chain of lookups, each of which can fail. */
  function TryFrom(headers: Headers, body: Option<seq<Byte>>): Result<Context, Error> {
    if ":method" !in headers then Err(OtherError)
    else if FromStr(headers[":method"]).None? then Err(OtherError)
    else if ":path" !in headers || ":authority" !in headers || ":scheme" !in headers then Err(OtherError)
    else Ok(Context(FromStr(headers[":method"]).value, headers[":path"], headers[":scheme"], headers[":authority"], headers, body))
  }

  /** Exactly what `TryFrom` needs of a header map. */
  predicate Dispatchable(headers: Headers) {
    && PSEUDO <= headers.Keys
    && FromStr(headers[":method"]).Some?
  }

  lemma DispatchableIffBuilt(headers: Headers, body: Option<seq<Byte>>)
    ensures TryFrom(headers, body).Ok? <==> Dispatchable(headers)
  {}

  /** The method check of the decoder and the parser of the request agree on every string, and on what it names. */
  lemma KnownMethodParses(m: string)
    ensures KnownMethod(m) <==> FromStr(m).Some?
    ensures forall verb :: FromStr(m) == Some(verb) <==> Spells(m, verb)
  {
    hide EqIgnoreCase, FromStr;
    forall verb ensures FromStr(m) == Some(verb) <==> Spells(m, verb) {
      ParsesAsSpelled(m, verb);
    }
    var read := FromStr(m);
    assert read.Some? ==> Spells(m, read.value);
    assert forall verb :: Spells(m, verb) ==> read == Some(verb);
    assert KnownMethod(m) <==> Spells(m, POST) || Spells(m, PUT) || Spells(m, DELETE) || Spells(m, HEAD) || Spells(m, GET);
  }

  lemma WellFormedIsDispatchable(ps: seq<Pair>)
    requires WellFormed(ps)
    ensures Dispatchable(HeaderMap(ps))
  {
    KnownMethodParses(Lookup(ps, ":method").value);
  }

  /** Trailers can neither remove a key nor touch a pseudo-header. */
  lemma TrailersAreHarmless(headers: Headers, ts: seq<Pair>, declared: set<string>)
    requires TrailersOk(ts)
    ensures forall name :: name in TrailerMap(ts, declared) ==> name in declared && !IsPseudoName(name)
    ensures Dispatchable(headers) ==> Dispatchable(headers + TrailerMap(ts, declared))
  {
    forall name | name in TrailerMap(ts, declared) ensures name in declared && !IsPseudoName(name) {
      RegularIsLastWins(ts, name);
    }
    SmallNamesAreLower();
  }

  /** Accepted headers and accepted trailers always build a request, with the header block's target. */
  lemma RequestAlwaysBuilds(sid: U32, ps: seq<Pair>, ts: seq<Pair>, body: Option<seq<Byte>>)
    requires Decoded(sid, ps).Ok? && DecodedTrailers(sid, ts, Decoded(sid, ps).value.trailers).Ok?
    ensures
      var request := Decoded(sid, ps).value;
      var late := DecodedTrailers(sid, ts, request.trailers).value;
      var r := TryFrom(request.headers + late, body);
      && r.Ok?
      && Lookup(ps, ":method").Some? && Spells(Lookup(ps, ":method").value, r.value.verb)
      && Some(r.value.path) == Lookup(ps, ":path")
      && Some(r.value.scheme) == Lookup(ps, ":scheme")
      && Some(r.value.host) == Lookup(ps, ":authority")
      && r.value.headers.Keys <= request.headers.Keys + request.trailers
      && (forall name :: name in request.headers && name !in late ==> r.value.headers[name] == request.headers[name])
  {
    var request := Decoded(sid, ps).value;
    WellFormedIsDispatchable(ps);
    TrailersAreHarmless(request.headers, ts, request.trailers);
    SmallNamesAreLower();
    HeaderMapIsLastWins(ps, ":method");
    HeaderMapIsLastWins(ps, ":path");
    HeaderMapIsLastWins(ps, ":scheme");
    HeaderMapIsLastWins(ps, ":authority");
    DispatchableIffBuilt(request.headers + TrailerMap(ts, request.trailers), body);
    KnownMethodParses(Lookup(ps, ":method").value);
  }
}
