/** Validation of a decoded header list (RFC 7540 section 8.1.2), after HPACK has produced the pairs. */
module HeaderBlock {
  import opened Wrappers
  import opened Frames
  import opened Bytes
  import opened Text

  datatype Pair = Pair(name: string, value: string)

  type Headers = map<string, string>

  datatype Request = Request(headers: Headers, trailers: set<string>)

  const PSEUDO: set<string> := {":method", ":scheme", ":authority", ":path"}

  predicate IsPseudoName(name: string) {
    name != "" && name[0] == ':'
  }

  /** The last value a name is given, if any. */
  function Lookup(ps: seq<Pair>, name: string): Option<string> {
    if ps == [] then None
    else if ps[|ps| - 1].name == name then Some(ps[|ps| - 1].value)
    else Lookup(ps[..|ps| - 1], name)
  }

  /** Regular headers, later values replacing earlier ones. */
  function Regular(ps: seq<Pair>): Headers {
    if ps == [] then map[]
    else
      var p := ps[|ps| - 1];
      var m := Regular(ps[..|ps| - 1]);
      if IsPseudoName(p.name) then m else m[p.name := p.value]
  }

  function DeclaredTrailers(ps: seq<Pair>): set<string> {
    match Lookup(ps, "trailer")
    case None => {}
    case Some(v) => set s | s in Split(v)
  }

  predicate KnownMethod(m: string) {
    EqIgnoreCase(m, "POST") || EqIgnoreCase(m, "PUT") || EqIgnoreCase(m, "DELETE")
    || EqIgnoreCase(m, "HEAD") || EqIgnoreCase(m, "GET")
  }

  predicate StartsWithHttp(s: string) {
    "http" <= s
  }

  // ---- the declarative rules ----

  /** One field on its own: lower case, a known pseudo-header or a permitted regular header. */
  predicate FieldOk(p: Pair) {
    && !HasUpper(p.name)
    && (if IsPseudoName(p.name) then p.name in PSEUDO
        else && p.name != "content-length"
             && p.name != "connection"
             && (p.name == "te" ==> EqIgnoreCase(p.value, "trailers")))
  }

  /** Pseudo-headers come first. */
  predicate Ordered(ps: seq<Pair>) {
    forall i, j :: 0 <= i < j < |ps| && IsPseudoName(ps[j].name) ==> IsPseudoName(ps[i].name)
  }

  /** No pseudo-header twice. */
  predicate Unrepeated(ps: seq<Pair>) {
    forall i, j :: 0 <= i < j < |ps| && IsPseudoName(ps[i].name) ==> ps[i].name != ps[j].name
  }

  predicate FieldsOk(ps: seq<Pair>) {
    (forall i :: 0 <= i < |ps| ==> FieldOk(ps[i])) && Ordered(ps) && Unrepeated(ps)
  }

  predicate Mentions(ps: seq<Pair>, name: string) {
    exists i :: 0 <= i < |ps| && ps[i].name == name
  }

  predicate Complete(ps: seq<Pair>) {
    Mentions(ps, ":method") && Mentions(ps, ":scheme") && Mentions(ps, ":authority") && Mentions(ps, ":path")
  }

  predicate Holds(v: Option<string>, p: string -> bool) {
    v.Some? && p(v.value)
  }

  /** Sections 8.1.2.1 to 8.1.2.6 as one condition on the list. */
  predicate WellFormed(ps: seq<Pair>) {
    && FieldsOk(ps)
    && Complete(ps)
    && Holds(Lookup(ps, ":method"), KnownMethod)
    && (Lookup(ps, ":path") == Some("") ==> !Holds(Lookup(ps, ":scheme"), StartsWithHttp))
  }

  lemma {:induction false} LookupMentions(ps: seq<Pair>, name: string)
    ensures Lookup(ps, name).Some? <==> Mentions(ps, name)
    ensures Lookup(ps, name).Some? ==>
      exists i :: 0 <= i < |ps| && ps[i] == Pair(name, Lookup(ps, name).value) && forall j :: i < j < |ps| ==> ps[j].name != name
  {
    if ps != [] {
      var n := |ps| - 1;
      LookupMentions(ps[..n], name);
      if ps[n].name == name {
        assert ps[n] == Pair(name, ps[n].value);
      } else if Mentions(ps, name) {
        var i :| 0 <= i < |ps| && ps[i].name == name;
        assert ps[..n][i] == ps[i];
        assert Mentions(ps[..n], name);
      }
    }
  }

  /** The regular map holds the last value of every regular name and nothing else. */
  lemma {:induction false} RegularIsLastWins(ps: seq<Pair>, name: string)
    ensures name in Regular(ps) <==> !IsPseudoName(name) && Mentions(ps, name)
    ensures name in Regular(ps) ==> Lookup(ps, name) == Some(Regular(ps)[name])
  {
    if ps != [] {
      var n := |ps| - 1;
      RegularIsLastWins(ps[..n], name);
      LookupMentions(ps[..n], name);
      LookupMentions(ps, name);
    }
  }

  /** The map handed to the stream: regular headers plus the four pseudo-headers. */
  function HeaderMap(ps: seq<Pair>): Headers
    requires Complete(ps)
  {
    LookupMentions(ps, ":path");
    LookupMentions(ps, ":authority");
    LookupMentions(ps, ":scheme");
    LookupMentions(ps, ":method");
    Regular(ps)
      [":path" := Lookup(ps, ":path").value]
      [":authority" := Lookup(ps, ":authority").value]
      [":scheme" := Lookup(ps, ":scheme").value]
      [":method" := Lookup(ps, ":method").value]
  }

  /** Of an accepted block, the map holds the last value of every name the block mentions and nothing else. */
  lemma HeaderMapIsLastWins(ps: seq<Pair>, name: string)
    requires WellFormed(ps)
    ensures name in HeaderMap(ps) <==> Mentions(ps, name)
    ensures name in HeaderMap(ps) ==> Lookup(ps, name) == Some(HeaderMap(ps)[name])
  {
    SmallNamesAreLower();
    LookupMentions(ps, name);
    RegularIsLastWins(ps, name);
    if IsPseudoName(name) && Mentions(ps, name) {
      var i :| 0 <= i < |ps| && ps[i].name == name;
      assert FieldOk(ps[i]);
    }
  }

  function Decoded(sid: U32, ps: seq<Pair>): Result<Request, Error> {
    if WellFormed(ps) then Ok(Request(HeaderMap(ps), DeclaredTrailers(ps)))
    else Err(StreamError(sid, ProtocolError))
  }

  // ---- the loop ----

  datatype HeaderState = Initial | Pseudo | General

  /** `Http2HeaderStateMachine`. */
  class HeaderStateMachine {
    var state: HeaderState

    constructor ()
      ensures state == Initial
    {
      state := Initial;
    }

    /** Refuses to leave the order Initial, Pseudo, General, and to skip Pseudo. */
    method MaybeNextState(next: HeaderState) returns (ok: bool)
      modifies this
      ensures ok <==> (old(state), next) in {(Initial, Initial), (Initial, Pseudo), (Pseudo, Pseudo), (Pseudo, General), (General, General)}
      ensures state == if ok then next else old(state)
    {
      match (state, next) {
        case (Initial, Initial) => state := next; return true;
        case (Initial, Pseudo) => state := next; return true;
        case (Initial, General) => return false;
        case (Pseudo, Initial) => return false;
        case (Pseudo, Pseudo) => state := next; return true;
        case (Pseudo, General) => state := next; return true;
        case (General, Initial) => return false;
        case (General, Pseudo) => return false;
        case (General, General) => state := next; return true;
      }
    }
  }

  /** What the state machine has seen after a prefix. */
  predicate StateAfter(ps: seq<Pair>, state: HeaderState) {
    match state
    case Initial => ps == []
    case Pseudo => ps != [] && forall i :: 0 <= i < |ps| ==> IsPseudoName(ps[i].name)
    case General => ps != [] && IsPseudoName(ps[0].name) && !IsPseudoName(ps[|ps| - 1].name)
  }

  lemma SmallNamesAreLower()
    ensures forall n :: n in PSEUDO ==> !HasUpper(n) && IsPseudoName(n)
    ensures !HasUpper("te") && !HasUpper("connection") && !HasUpper("trailer") && !HasUpper("content-length")
    ensures !IsPseudoName("te") && !IsPseudoName("connection") && !IsPseudoName("trailer") && !IsPseudoName("content-length")
  {}

  lemma SmallNamesExactly(name: string)
    requires !HasUpper(name)
    ensures EqIgnoreCase(name, ":method") <==> name == ":method"
    ensures EqIgnoreCase(name, ":scheme") <==> name == ":scheme"
    ensures EqIgnoreCase(name, ":authority") <==> name == ":authority"
    ensures EqIgnoreCase(name, ":path") <==> name == ":path"
    ensures EqIgnoreCase(name, "te") <==> name == "te"
    ensures EqIgnoreCase(name, "connection") <==> name == "connection"
    ensures EqIgnoreCase(name, "trailer") <==> name == "trailer"
    ensures EqIgnoreCase(name, "content-length") <==> name == "content-length"
  {
    SmallNamesAreLower();
    LowerCaseEquality(name, ":method");
    LowerCaseEquality(name, ":scheme");
    LowerCaseEquality(name, ":authority");
    LowerCaseEquality(name, ":path");
    LowerCaseEquality(name, "te");
    LowerCaseEquality(name, "connection");
    LowerCaseEquality(name, "trailer");
    LowerCaseEquality(name, "content-length");
  }

  /** Accepting one more field. */
  lemma ExtendFields(q: seq<Pair>, p: Pair, state: HeaderState)
    requires FieldsOk(q) && StateAfter(q, state) && FieldOk(p)
    requires IsPseudoName(p.name) ==> !state.General? && Lookup(q, p.name) == None
    ensures FieldsOk(q + [p])
  {
    LookupMentions(q, p.name);
    assert IsPseudoName(p.name) ==> forall i :: 0 <= i < |q| ==> q[i].name != p.name;
  }

  /** A field the loop refuses makes the whole list malformed. */
  lemma BadFieldRefuted(ps: seq<Pair>, i: nat, state: HeaderState)
    requires i < |ps| && StateAfter(ps[..i], state)
    requires
      || !FieldOk(ps[i])
      || (state.General? && IsPseudoName(ps[i].name))
      || (state.Initial? && !IsPseudoName(ps[i].name))
      || (IsPseudoName(ps[i].name) && Lookup(ps[..i], ps[i].name).Some?)
    ensures !WellFormed(ps)
  {
    if !FieldOk(ps[i]) {
    } else if state.Initial? && !IsPseudoName(ps[i].name) {
      if Mentions(ps, ":path") {
        var j :| 0 <= j < |ps| && ps[j].name == ":path";
        assert IsPseudoName(ps[j].name) && !IsPseudoName(ps[0].name);
      }
    } else if state.General? && IsPseudoName(ps[i].name) {
      assert ps[..i][i - 1] == ps[i - 1];
    } else {
      LookupMentions(ps[..i], ps[i].name);
      var j :| 0 <= j < i && ps[..i][j].name == ps[i].name;
      assert ps[j].name == ps[i].name;
    }
  }

  /** The slots and maps the loop has filled after a prefix. */
  datatype Slots = Slots(method_: Option<string>, scheme: Option<string>, authority: Option<string>, path: Option<string>)

  function SlotsOf(ps: seq<Pair>): Slots {
    Slots(Lookup(ps, ":method"), Lookup(ps, ":scheme"), Lookup(ps, ":authority"), Lookup(ps, ":path"))
  }

  function Fill(s: Slots, p: Pair): Slots {
    if p.name == ":method" then s.(method_ := Some(p.value))
    else if p.name == ":scheme" then s.(scheme := Some(p.value))
    else if p.name == ":authority" then s.(authority := Some(p.value))
    else if p.name == ":path" then s.(path := Some(p.value))
    else s
  }

  lemma SlotsStep(q: seq<Pair>, p: Pair)
    ensures SlotsOf(q + [p]) == Fill(SlotsOf(q), p)
  {
    LookupStep(q, p, ":method");
    LookupStep(q, p, ":scheme");
    LookupStep(q, p, ":authority");
    LookupStep(q, p, ":path");
  }

  lemma DeclaredStep(q: seq<Pair>, p: Pair)
    ensures DeclaredTrailers(q + [p]) == if p.name == "trailer" then (set s | s in Split(p.value)) else DeclaredTrailers(q)
  {
    LookupStep(q, p, "trailer");
  }

  lemma LookupStep(q: seq<Pair>, p: Pair, name: string)
    ensures Lookup(q + [p], name) == if p.name == name then Some(p.value) else Lookup(q, name)
  {
    assert (q + [p])[..|q|] == q;
  }

  lemma RegularStep(q: seq<Pair>, p: Pair)
    ensures Regular(q + [p]) == if IsPseudoName(p.name) then Regular(q) else Regular(q)[p.name := p.value]
  {
    assert (q + [p])[..|q|] == q;
  }

  function Slot(s: Slots, name: string): Option<string> {
    if name == ":method" then s.method_
    else if name == ":scheme" then s.scheme
    else if name == ":authority" then s.authority
    else if name == ":path" then s.path
    else None
  }

  /** One turn of the `decode_headers` loop: false is an early return with an error. */
  method TakeField(machine: HeaderStateMachine, p: Pair, slots: Slots, headers: Headers, trailers: set<string>)
    returns (ok: bool, slots': Slots, headers': Headers, trailers': set<string>)
    modifies machine
    ensures ok <==> FieldOk(p) && (if IsPseudoName(p.name) then !old(machine.state).General? && Slot(slots, p.name) == None else !old(machine.state).Initial?)
    ensures ok ==> machine.state == if IsPseudoName(p.name) then Pseudo else General
    ensures ok ==> slots' == Fill(slots, p)
    ensures ok ==> headers' == if IsPseudoName(p.name) then headers else headers[p.name := p.value]
    ensures ok ==> trailers' == if p.name == "trailer" then (set s | s in Split(p.value)) else trailers
  {
    var Pair(name, value) := p;
    slots', headers', trailers' := slots, headers, trailers;
    SmallNamesAreLower();
    if EqIgnoreCase(name, "content-length") {
      ContentLengthRefused(p);
      return false, slots', headers', trailers';
    }
    if HasUpper(name) {
      return false, slots', headers', trailers';
    }
    SmallNamesExactly(name);
    ok := machine.MaybeNextState(if IsPseudoName(name) then Pseudo else General);
    if !ok {
      return;
    }
    if IsPseudoName(name) {
      if !EqIgnoreCase(name, ":method") && !EqIgnoreCase(name, ":scheme")
         && !EqIgnoreCase(name, ":authority") && !EqIgnoreCase(name, ":path")
      {
        return false, slots', headers', trailers';
      }
      if Slot(slots, name).Some? {
        return false, slots', headers', trailers';
      }
      slots' := Fill(slots, p);
    } else {
      if EqIgnoreCase(name, "te") && !EqIgnoreCase(value, "trailers") {
        return false, slots', headers', trailers';
      }
      if EqIgnoreCase(name, "connection") {
        return false, slots', headers', trailers';
      }
      if EqIgnoreCase(name, "trailer") {
        trailers' := set s | s in Split(value);
      }
      headers' := headers[name := value];
    }
  }

  /** The condition under which `TakeField` takes a field. */
  predicate Takes(state: HeaderState, slots: Slots, p: Pair) {
    FieldOk(p) && (if IsPseudoName(p.name) then !state.General? && Slot(slots, p.name) == None else !state.Initial?)
  }

  /** Taking a field keeps what the loop knows of the prefix; refusing one settles the verdict. */
  lemma FieldTaken(ps: seq<Pair>, i: nat, state: HeaderState)
    requires i < |ps| && FieldsOk(ps[..i]) && StateAfter(ps[..i], state)
    ensures !Takes(state, SlotsOf(ps[..i]), ps[i]) ==> !WellFormed(ps)
    ensures Takes(state, SlotsOf(ps[..i]), ps[i]) ==>
      && FieldsOk(ps[..i + 1])
      && StateAfter(ps[..i + 1], if IsPseudoName(ps[i].name) then Pseudo else General)
    ensures SlotsOf(ps[..i + 1]) == Fill(SlotsOf(ps[..i]), ps[i])
    ensures Regular(ps[..i + 1]) == if IsPseudoName(ps[i].name) then Regular(ps[..i]) else Regular(ps[..i])[ps[i].name := ps[i].value]
    ensures DeclaredTrailers(ps[..i + 1]) == if ps[i].name == "trailer" then (set s | s in Split(ps[i].value)) else DeclaredTrailers(ps[..i])
  {
    hide FieldOk, WellFormed, Regular, DeclaredTrailers, Lookup, FieldsOk, SlotsOf;
    var q, p := ps[..i], ps[i];
    assert ps[..i + 1] == q + [p];
    SlotIsLookup(q, p);
    SlotsStep(q, p);
    DeclaredStep(q, p);
    RegularStep(q, p);
    if Takes(state, SlotsOf(q), p) {
      ExtendFields(q, p, state);
    } else {
      BadFieldRefuted(ps, i, state);
    }
  }

  /** `decode_headers` after HPACK: one pass with early exits equals the declarative rules. */
  method DecodeHeaders(sid: U32, ps: seq<Pair>) returns (r: Result<Request, Error>)
    ensures r == Decoded(sid, ps)
  {
    var bad := Err(StreamError(sid, ProtocolError));
    var headers: Headers := map[];
    var trailers: set<string> := {};
    var machine := new HeaderStateMachine();
    var slots := Slots(None, None, None, None);
    assert FieldsOk([]) && StateAfter([], machine.state) && slots == SlotsOf([]) && headers == Regular([]) && trailers == DeclaredTrailers([]);
    assert ps[..0] == [];
    hide FieldsOk, StateAfter, Regular, DeclaredTrailers, KnownMethod, StartsWithHttp, Fill, SlotsOf, WellFormed, Mentions, FieldOk, Split;
    for i := 0 to |ps|
      invariant FieldsOk(ps[..i]) && StateAfter(ps[..i], machine.state)
      invariant slots == SlotsOf(ps[..i]) && headers == Regular(ps[..i]) && trailers == DeclaredTrailers(ps[..i])
    {
      ghost var state := machine.state;
      var ok;
      ok, slots, headers, trailers := TakeField(machine, ps[i], slots, headers, trailers);
      FieldTaken(ps, i, state);
      if !ok {
        return bad;
      }
    }
    assert ps[..|ps|] == ps;
    DecodedBySlots(sid, ps);
    if slots.path == Some("") && slots.scheme.Some? && StartsWithHttp(slots.scheme.value) {
      return bad;
    }
    if slots.method_.Some? && !KnownMethod(slots.method_.value) {
      return bad;
    }
    if slots.scheme.None? || slots.method_.None? || slots.path.None? || slots.authority.None? {
      return bad;
    }
    headers := headers[":path" := slots.path.value];
    headers := headers[":authority" := slots.authority.value];
    headers := headers[":scheme" := slots.scheme.value];
    headers := headers[":method" := slots.method_.value];
    return Ok(Request(headers, trailers));
  }

  /** What is left to check once every field has been taken. */
  lemma DecodedBySlots(sid: U32, ps: seq<Pair>)
    requires FieldsOk(ps)
    ensures var s := SlotsOf(ps);
      Decoded(sid, ps) ==
        if s.path == Some("") && s.scheme.Some? && StartsWithHttp(s.scheme.value) then Err(StreamError(sid, ProtocolError))
        else if s.method_.Some? && !KnownMethod(s.method_.value) then Err(StreamError(sid, ProtocolError))
        else if s.scheme.None? || s.method_.None? || s.path.None? || s.authority.None? then Err(StreamError(sid, ProtocolError))
        else Ok(Request(Regular(ps)[":path" := s.path.value][":authority" := s.authority.value]
                          [":scheme" := s.scheme.value][":method" := s.method_.value], DeclaredTrailers(ps)))
  {
    LookupMentions(ps, ":path");
    LookupMentions(ps, ":authority");
    LookupMentions(ps, ":scheme");
    LookupMentions(ps, ":method");
    hide FieldsOk, Mentions, Regular, DeclaredTrailers, KnownMethod, StartsWithHttp, Lookup;
  }

  lemma SlotIsLookup(q: seq<Pair>, p: Pair)
    ensures FieldOk(p) && IsPseudoName(p.name) ==> Slot(SlotsOf(q), p.name) == Lookup(q, p.name)
  {}

  /** Any spelling of content-length is refused: the exact one by name, the others by letter case. */
  lemma ContentLengthRefused(p: Pair)
    requires EqIgnoreCase(p.name, "content-length")
    ensures !FieldOk(p)
  {
    if !HasUpper(p.name) {
      SmallNamesExactly(p.name);
    }
  }

  // ---- trailers ----

  predicate TrailerOk(p: Pair) {
    !HasUpper(p.name) && !IsPseudoName(p.name) && p.name != "connection" && p.name != "trailers"
  }

  predicate TrailersOk(ps: seq<Pair>) {
    forall i :: 0 <= i < |ps| ==> TrailerOk(ps[i])
  }

  /** Declared trailers only, later values replacing earlier ones. */
  function TrailerMap(ps: seq<Pair>, declared: set<string>): Headers {
    map name | name in Regular(ps) && name in declared :: Regular(ps)[name]
  }

  function DecodedTrailers(sid: U32, ps: seq<Pair>, declared: set<string>): Result<Headers, Error> {
    if TrailersOk(ps) then Ok(TrailerMap(ps, declared)) else Err(StreamError(sid, ProtocolError))
  }

  /** A pair of the list has a declared name. */
  predicate NamesDeclared(ps: seq<Pair>, declared: set<string>) {
    exists i :: 0 <= i < |ps| && ps[i].name in declared
  }

  lemma NothingDeclared(ps: seq<Pair>, declared: set<string>)
    requires TrailersOk(ps)
    ensures TrailerMap(ps, declared) != map[] <==> NamesDeclared(ps, declared)
  {
    hide Regular;
    var late := TrailerMap(ps, declared);
    if late != map[] {
      var name :| name in late;
      RegularIsLastWins(ps, name);
    }
    if NamesDeclared(ps, declared) {
      var i :| 0 <= i < |ps| && ps[i].name in declared;
      RegularIsLastWins(ps, ps[i].name);
      assert TrailerOk(ps[i]) && ps[i].name in late;
    }
  }

  /** One more trailer. */
  lemma TrailerTaken(ps: seq<Pair>, i: nat, declared: set<string>)
    requires i < |ps|
    ensures TrailersOk(ps[..i]) && TrailerOk(ps[i]) ==> TrailersOk(ps[..i + 1])
    ensures TrailerOk(ps[i]) ==>
      TrailerMap(ps[..i + 1], declared)
      == if ps[i].name in declared then TrailerMap(ps[..i], declared)[ps[i].name := ps[i].value] else TrailerMap(ps[..i], declared)
  {
    hide Regular;
    assert ps[..i + 1] == ps[..i] + [ps[i]];
    RegularStep(ps[..i], ps[i]);
  }

  /** `decode_trailers` after HPACK. */
  method DecodeTrailers(sid: U32, ps: seq<Pair>, declared: set<string>) returns (r: Result<Headers, Error>)
    ensures r == DecodedTrailers(sid, ps, declared)
  {
    var bad := Err(StreamError(sid, ProtocolError));
    var headers: Headers := map[];
    assert ps[..0] == [];
    hide Regular;
    for i := 0 to |ps|
      invariant TrailersOk(ps[..i]) && headers == TrailerMap(ps[..i], declared)
    {
      var Pair(name, value) := ps[i];
      TrailerTaken(ps, i, declared);
      if HasUpper(name) {
        return bad;
      }
      if IsPseudoName(name) {
        return bad;
      }
      SmallNamesExactly(name);
      LowerCaseEquality(name, "trailers");
      if EqIgnoreCase(name, "connection") || EqIgnoreCase(name, "trailers") {
        return bad;
      }
      if name in declared {
        headers := headers[name := value];
      }
    }
    assert ps[..|ps|] == ps;
    return Ok(headers);
  }

  // ---- the order of the pseudo-headers does not matter ----

  lemma MultisetIndex<T>(s: seq<T>, x: T)
    ensures x in multiset(s) <==> exists i :: 0 <= i < |s| && s[i] == x
  {}

  /** Two positions holding the same element give it multiplicity two, and conversely. */
  lemma MultisetTwice<T>(s: seq<T>, i: nat, j: nat)
    requires i < j < |s| && s[i] == s[j]
    ensures multiset(s)[s[i]] >= 2
  {
    assert s == s[..j] + [s[j]] + s[j + 1..];
    assert s[i] in s[..j];
  }

  lemma MultisetTwoPlaces<T>(s: seq<T>, x: T) returns (i: nat, j: nat)
    requires multiset(s)[x] >= 2
    ensures i < j < |s| && s[i] == x && s[j] == x
  {
    assert x in multiset(s);
    i :| i < |s| && s[i] == x;
    var rest := s[..i] + s[i + 1..];
    assert s == s[..i] + [s[i]] + s[i + 1..];
    assert multiset(s) == multiset(rest) + multiset{x};
    assert x in multiset(rest);
    var k: nat :| k < |rest| && rest[k] == x;
    if k < i {
      i, j := k, i;
    } else {
      j := k + 1;
    }
  }

  /** A block split at the end of its pseudo-headers. */
  predicate PseudoPrefix(a: seq<Pair>, r: seq<Pair>) {
    (forall i :: 0 <= i < |a| ==> IsPseudoName(a[i].name)) && (forall i :: 0 <= i < |r| ==> !IsPseudoName(r[i].name))
  }

  lemma RepeatedPermutes(a: seq<Pair>, b: seq<Pair>)
    requires multiset(a) == multiset(b)
    requires forall i :: 0 <= i < |b| ==> IsPseudoName(b[i].name)
    requires !Unrepeated(b)
    ensures !Unrepeated(a)
  {
    var i, j :| 0 <= i < j < |b| && b[i].name == b[j].name;
    if b[i] == b[j] {
      MultisetTwice(b, i, j);
      var k, l := MultisetTwoPlaces(a, b[i]);
      assert a[k].name == a[l].name;
    } else {
      assert b[i] in multiset(b) && b[j] in multiset(b);
      MultisetIndex(a, b[i]);
      MultisetIndex(a, b[j]);
      var k :| 0 <= k < |a| && a[k] == b[i];
      var l :| 0 <= l < |a| && a[l] == b[j];
      assert a[k].name == a[l].name && k != l;
    }
  }

  lemma UnrepeatedPermutes(a: seq<Pair>, b: seq<Pair>)
    requires multiset(a) == multiset(b)
    requires forall i :: 0 <= i < |b| ==> IsPseudoName(b[i].name)
    requires Unrepeated(a)
    ensures Unrepeated(b)
  {
    if !Unrepeated(b) {
      RepeatedPermutes(a, b);
    }
  }

  /** With no repetition, a name's value is fixed by the pairs present, not by their order. */
  lemma LookupPermutes(a: seq<Pair>, b: seq<Pair>, r: seq<Pair>, name: string)
    requires multiset(a) == multiset(b) && PseudoPrefix(a, r) && PseudoPrefix(b, r)
    requires Unrepeated(a)
    ensures Lookup(a + r, name) == Lookup(b + r, name)
  {
    LookupMentions(a + r, name);
    LookupMentions(b + r, name);
    if IsPseudoName(name) {
      UnrepeatedPermutes(a, b);
      forall v ensures Pair(name, v) in a + r <==> Pair(name, v) in b + r {
        assert Pair(name, v) in a <==> Pair(name, v) in multiset(a);
        assert Pair(name, v) in b <==> Pair(name, v) in multiset(b);
        assert Pair(name, v) !in r;
      }
      if Lookup(a + r, name).Some? {
        assert Pair(name, Lookup(a + r, name).value) in b + r;
        assert Mentions(b + r, name);
      }
      if Lookup(b + r, name).Some? {
        var v := Lookup(b + r, name).value;
        assert Pair(name, v) in a + r;
        assert Pair(name, v) in a && Pair(name, Lookup(a + r, name).value) in a;
      }
    } else {
      LookupTail(a, r, name);
      LookupTail(b, r, name);
    }
  }

  lemma {:induction false} LookupTail(a: seq<Pair>, r: seq<Pair>, name: string)
    requires forall i :: 0 <= i < |a| ==> a[i].name != name
    ensures Lookup(a + r, name) == Lookup(r, name)
  {
    if r == [] {
      assert a + r == a;
      LookupMentions(a, name);
    } else {
      assert (a + r)[..|a + r| - 1] == a + r[..|r| - 1];
      LookupTail(a, r[..|r| - 1], name);
    }
  }

  lemma {:induction false} RegularTail(a: seq<Pair>, r: seq<Pair>)
    requires forall i :: 0 <= i < |a| ==> IsPseudoName(a[i].name)
    ensures Regular(a + r) == Regular(r)
  {
    if r != [] {
      assert (a + r)[..|a + r| - 1] == a + r[..|r| - 1];
      RegularTail(a, r[..|r| - 1]);
    } else if a != [] {
      assert a + r == a;
      assert a[..|a| - 1] + [] == a[..|a| - 1];
      RegularTail(a[..|a| - 1], []);
    }
  }

  lemma FieldsPermute(a: seq<Pair>, b: seq<Pair>, r: seq<Pair>)
    requires multiset(a) == multiset(b)
    requires forall i :: 0 <= i < |a + r| ==> FieldOk((a + r)[i])
    ensures forall i :: 0 <= i < |b + r| ==> FieldOk((b + r)[i])
  {
    hide FieldOk;
    forall i | 0 <= i < |b + r| ensures FieldOk((b + r)[i]) {
      if i < |b| {
        assert b[i] in multiset(b);
        assert b[i] in a;
        var k :| 0 <= k < |a| && a[k] == b[i];
        assert FieldOk((a + r)[k]);
      } else {
        assert (b + r)[i] == (a + r)[|a| + (i - |b|)];
      }
    }
  }

  lemma OrderPermutes(a: seq<Pair>, b: seq<Pair>, r: seq<Pair>)
    requires multiset(a) == multiset(b) && PseudoPrefix(a, r) && PseudoPrefix(b, r)
    requires Ordered(a + r) && Unrepeated(a + r)
    ensures Ordered(b + r) && Unrepeated(b + r) && Unrepeated(a)
  {
    hide IsPseudoName;
    assert forall i :: 0 <= i < |a| ==> (a + r)[i] == a[i];
    assert Unrepeated(a);
    UnrepeatedPermutes(a, b);
  }

  lemma WellFormedPermutes(a: seq<Pair>, b: seq<Pair>, r: seq<Pair>)
    requires multiset(a) == multiset(b) && PseudoPrefix(a, r) && PseudoPrefix(b, r)
    requires WellFormed(a + r)
    ensures WellFormed(b + r)
  {
    hide FieldOk, Ordered, Unrepeated, Lookup, Mentions;
    FieldsPermute(a, b, r);
    OrderPermutes(a, b, r);
    forall name | name in PSEUDO ensures Lookup(a + r, name) == Lookup(b + r, name) && (Mentions(a + r, name) <==> Mentions(b + r, name)) {
      LookupPermutes(a, b, r, name);
      LookupMentions(a + r, name);
      LookupMentions(b + r, name);
    }
  }

  /** Permuting the pseudo-header prefix changes neither the verdict nor the result. */
  lemma PseudoOrderIrrelevant(sid: U32, a: seq<Pair>, b: seq<Pair>, r: seq<Pair>)
    requires multiset(a) == multiset(b) && PseudoPrefix(a, r)
    ensures Decoded(sid, a + r) == Decoded(sid, b + r)
  {
    forall i | 0 <= i < |b| ensures IsPseudoName(b[i].name) {
      assert b[i] in multiset(b);
      assert b[i] in a;
    }
    if WellFormed(a + r) {
      WellFormedPermutes(a, b, r);
      UnrepeatedHead(a, r);
      hide WellFormed, Mentions, Lookup, Regular, Unrepeated, IsPseudoName;
      forall name ensures Lookup(a + r, name) == Lookup(b + r, name) {
        LookupPermutes(a, b, r, name);
      }
      RegularTail(a, r);
      RegularTail(b, r);
    } else if WellFormed(b + r) {
      WellFormedPermutes(b, a, r);
    }
  }

  lemma UnrepeatedHead(a: seq<Pair>, r: seq<Pair>)
    requires WellFormed(a + r)
    ensures Unrepeated(a)
  {
    assert forall i :: 0 <= i < |a| ==> (a + r)[i] == a[i];
  }
}
