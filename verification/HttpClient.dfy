// The signing HTTP client: header and query assembly, and the body that survives signing.
module HttpClient {
  import opened Wrappers
  import opened Api

  const GET := "GET"
  const POST := "POST"
  const DELETE := "DELETE"

  // A parsed address: everything before the query, and the query as written.
  datatype ParsedUrl = ParsedUrl(location: string, rawQuery: string)

  type Values = map<string, seq<string>>

  // The parts of Go's net libraries whose results the client uses but does not compute.
  datatype NetLibrary = NetLibrary(
    parse: (string, string) -> Option<ParsedUrl>,  // http.NewRequest on a method and an address
    canonical: string -> string,                 // http.CanonicalHeaderKey
    values: string -> Values,                    // URL.Query
    encode: Values -> string,                    // Values.Encode
    signed: set<string>,                         // the headers that SignHTTP writes
    signQuery: string -> string,                 // what SignHTTP makes of a raw query
    refuses: (string, ParsedUrl) -> bool)        // whether SignHTTP returns an error

  datatype SignCertificate = SignCertificate(accessKeyId: string, secretAccessKey: string)

  datatype Outcome = NotSent | SendFailed | Received(code: int, body: Bytes)

  // A request as it is handed to the transport, with the body that the transport reads.
  datatype Wire = Wire(
    verb: string,
    address: ParsedUrl,
    header: map<string, string>,
    body: Option<Bytes>,
    closed: bool)  // whether the connection is closed afterwards

  // A request as a caller asks for it, with the headers the client held at that time.
  datatype Call = Call(
    verb: string,
    url: string,
    header: map<string, string>,
    data: Option<Bytes>,
    outcome: Outcome)

  // An io.Reader over bytes in memory.
  class Reader {
    const data: Bytes
    var pos: nat

    constructor (data: Bytes)
      ensures this.data == data && pos == 0
    {
      this.data, pos := data, 0;
    }

    ghost predicate Valid()
      reads this
    {
      pos <= |data|
    }

    method ReadAll() returns (rest: Bytes)
      requires Valid()
      modifies this
      ensures Valid() && pos == |data|
      ensures rest == data[old(pos)..]
    {
      rest := data[pos..];
      pos := |data|;
    }
  }

  class HttpRequest {
    const verb: string
    var address: ParsedUrl
    var header: map<string, string>
    var body: Reader?
    var closed: bool

    constructor (verb: string, address: ParsedUrl, body: Reader?)
      ensures this.verb == verb && this.address == address && this.body == body
      ensures header == map[] && !closed
    {
      this.verb, this.address, this.body := verb, address, body;
      header, closed := map[], false;
    }

    // What is left to be read of the body.
    ghost function Unread(): Option<Bytes>
      reads this, body
    {
      if body == null then None
      else if body.pos <= |body.data| then Some(body.data[body.pos..])
      else Some([])
    }
  }

  // The network: what was sent, and what came of each request. Nothing is known about the replies.
  class Transport {
    var sent: seq<Wire>
    var replied: seq<Outcome>

    constructor ()
      ensures sent == [] && replied == []
    {
      sent, replied := [], [];
    }

    method Do(req: HttpRequest) returns (outcome: Outcome)
      requires req.body != null ==> req.body.Valid()
      modifies this, req.body
      ensures sent == old(sent) + [Wire(req.verb, req.address, req.header, old(req.Unread()), req.closed)]
      ensures replied == old(replied) + [outcome] && !outcome.NotSent?
    {
      var body: Option<Bytes> := None;
      if req.body != null {
        var rest := req.body.ReadAll();
        body := Some(rest);
      }
      sent := sent + [Wire(req.verb, req.address, req.header, body, req.closed)];
      var broken: bool := *;
      var code: int := *;
      var reply: Bytes := *;
      outcome := if broken then SendFailed else Received(code, reply);
      replied := replied + [outcome];
    }
  }

  /******* Map order *******/

  // An order in which Go may range over a map: every key once.
  ghost predicate RangeOrder(order: seq<string>, m: map<string, string>) {
    && (forall i, j :: 0 <= i < j < |order| ==> order[i] != order[j])
    && (forall k :: k in order <==> k in m)
  }

  // Header.Set for each key of an order.
  ghost function SetInOrder(canonical: string -> string, m: map<string, string>, order: seq<string>): map<string, string>
    requires forall k :: k in order ==> k in m
  {
    if order == [] then map[]
    else
      var last := order[|order| - 1];
      SetInOrder(canonical, m, order[..|order| - 1])[canonical(last) := m[last]]
  }

  // Keys that denote one header agree on its value.
  ghost predicate Coherent(canonical: string -> string, m: map<string, string>) {
    forall k, k' :: k in m && k' in m && canonical(k) == canonical(k') ==> m[k] == m[k']
  }

  // Every header comes from some key, and every key sets its header.
  lemma {:induction false} SetInOrderEntries(canonical: string -> string, m: map<string, string>, order: seq<string>)
    requires forall k :: k in order ==> k in m
    ensures var h := SetInOrder(canonical, m, order);
            && (forall k :: k in order ==> canonical(k) in h)
            && (forall c :: c in h ==> exists k :: k in order && canonical(k) == c && h[c] == m[k])
  {
    if order != [] {
      var last := order[|order| - 1];
      var front := order[..|order| - 1];
      SetInOrderEntries(canonical, m, front);
      var h := SetInOrder(canonical, m, order);
      assert order == front + [last];
      forall c | c in h ensures exists k :: k in order && canonical(k) == c && h[c] == m[k] {
        if c == canonical(last) {
          assert last in order;
        } else {
          var k :| k in front && canonical(k) == c && SetInOrder(canonical, m, front)[c] == m[k];
          assert k in order;
        }
      }
    }
  }

  // For coherent headers any order gives, for each key, that key's own value and no other header.
  lemma CoherentHeaders(canonical: string -> string, m: map<string, string>, order: seq<string>)
    requires RangeOrder(order, m) && Coherent(canonical, m)
    ensures var h := SetInOrder(canonical, m, order);
            && (forall k :: k in m ==> canonical(k) in h && h[canonical(k)] == m[k])
            && (forall c :: c in h ==> exists k :: k in m && canonical(k) == c)
  {
    SetInOrderEntries(canonical, m, order);
    var h := SetInOrder(canonical, m, order);
    forall k | k in m ensures canonical(k) in h && h[canonical(k)] == m[k] {
      assert k in order;
    }
  }

  // A set can be listed without repetition.
  lemma {:induction false} Listing(keys: set<string>) returns (list: seq<string>)
    ensures forall i, j :: 0 <= i < j < |list| ==> list[i] != list[j]
    ensures forall k :: k in list <==> k in keys
  {
    list := [];
    if keys != {} {
      var k :| k in keys;
      list := Listing(keys - {k});
      list := [k] + list;
    }
  }

  // Any two keys can come last in an order.
  lemma OrderEndingIn(m: map<string, string>, k: string, k': string) returns (order: seq<string>)
    requires k in m && k' in m && k != k'
    ensures RangeOrder(order, m)
    ensures |order| >= 2 && order[|order| - 2] == k && order[|order| - 1] == k'
  {
    var list := Listing(m.Keys - {k, k'});
    order := list + [k, k'];
    forall x ensures x in order <==> x in m {
      assert x in order <==> x in list || x == k || x == k';
    }
  }

  // Request headers are independent of the order in which the map is ranged over exactly when
  // keys that denote one header carry one value.
  lemma HeadersIndependentOfOrderIff(canonical: string -> string, m: map<string, string>)
    ensures Coherent(canonical, m) <==>
            forall o, o' :: RangeOrder(o, m) && RangeOrder(o', m) ==>
              SetInOrder(canonical, m, o) == SetInOrder(canonical, m, o')
  {
    if Coherent(canonical, m) {
      forall o, o' | RangeOrder(o, m) && RangeOrder(o', m)
        ensures SetInOrder(canonical, m, o) == SetInOrder(canonical, m, o')
      {
        CoherentOrdersAgree(canonical, m, o, o');
      }
    } else {
      var o, o' := OrdersThatDiffer(canonical, m);
    }
  }

  lemma CoherentOrdersAgree(canonical: string -> string, m: map<string, string>, o: seq<string>, o': seq<string>)
    requires Coherent(canonical, m) && RangeOrder(o, m) && RangeOrder(o', m)
    ensures SetInOrder(canonical, m, o) == SetInOrder(canonical, m, o')
  {
    CoherentIncluded(canonical, m, o, o');
    CoherentIncluded(canonical, m, o', o);
  }

  lemma CoherentIncluded(canonical: string -> string, m: map<string, string>, o: seq<string>, o': seq<string>)
    requires Coherent(canonical, m) && RangeOrder(o, m) && RangeOrder(o', m)
    ensures var h, h' := SetInOrder(canonical, m, o), SetInOrder(canonical, m, o');
            forall c :: c in h ==> c in h' && h[c] == h'[c]
  {
    CoherentHeaders(canonical, m, o);
    CoherentHeaders(canonical, m, o');
  }

  lemma OrdersThatDiffer(canonical: string -> string, m: map<string, string>) returns (o: seq<string>, o': seq<string>)
    requires !Coherent(canonical, m)
    ensures RangeOrder(o, m) && RangeOrder(o', m)
    ensures SetInOrder(canonical, m, o) != SetInOrder(canonical, m, o')
  {
    var k, k' :| k in m && k' in m && canonical(k) == canonical(k') && m[k] != m[k'];
    o := OrderEndingIn(m, k, k');
    o' := OrderEndingIn(m, k', k);
    assert SetInOrder(canonical, m, o)[canonical(k')] == m[k'];
    assert SetInOrder(canonical, m, o')[canonical(k)] == m[k];
  }

  // Values.Add for every entry: each client entry adds one value after the address's own.
  ghost function MergedQuery(own: Values, query: map<string, string>): Values {
    map k | k in own.Keys + query.Keys ::
      (if k in own then own[k] else []) + (if k in query then [query[k]] else [])
  }

  // Values of the address come first, then the client's; there are no other keys.
  lemma MergedQueryEntries(own: Values, query: map<string, string>, k: string)
    ensures k in MergedQuery(own, query) <==> k in own || k in query
    ensures k in own && k in query ==> MergedQuery(own, query)[k] == own[k] + [query[k]]
    ensures k in own && k !in query ==> MergedQuery(own, query)[k] == own[k]
    ensures k !in own && k in query ==> MergedQuery(own, query)[k] == [query[k]]
  {
    if k in own && k !in query {
      assert own[k] + [] == own[k];
    }
  }

  lemma NothingMerged(own: Values)
    ensures MergedQuery(own, map[]) == own
  {
    forall k | k in own ensures MergedQuery(own, map[])[k] == own[k] {
      assert own[k] + [] == own[k];
    }
  }

  // Headers that agree except for some names.
  ghost predicate AgreeOff(names: set<string>, h: map<string, string>, h': map<string, string>) {
    forall c :: c !in names ==> (c in h <==> c in h') && (c in h ==> h[c] == h'[c])
  }

  /******* The client *******/

  class Client {
    const library: NetLibrary
    const certificate: SignCertificate
    const transport: Transport
    var header: map<string, string>
    var query: map<string, string>
    ghost var calls: seq<Call>

    constructor (library: NetLibrary, certificate: SignCertificate, transport: Transport)
      ensures this.library == library && this.certificate == certificate && this.transport == transport
      ensures header == map[] && query == map[] && calls == []
    {
      this.library, this.certificate, this.transport := library, certificate, transport;
      header, query, calls := map[], map[], [];
    }

    method SetHeader(key: string, value: string)
      modifies this`header
      ensures header == old(header)[key := value]
    {
      header := header[key := value];
    }

    method SetQuery(key: string, value: string)
      modifies this`query
      ensures query == old(query)[key := value]
    {
      query := query[key := value];
    }

    // The query a request is given to the signer with.
    ghost function RequestQuery(verb: string, address: ParsedUrl): (raw: string)
      reads this`query
      ensures verb == POST || verb == DELETE ==> raw == address.rawQuery
    {
      if verb == "GET" then library.encode(MergedQuery(library.values(address.rawQuery), query))
      else address.rawQuery
    }

    // The request that leaves for a call, but for its headers. Its query is as the signer leaves it.
    ghost predicate IsFor(wire: Wire, verb: string, url: string, data: Option<Bytes>)
      reads this`query
    {
      && library.parse(verb, url).Some?
      && var address := library.parse(verb, url).value;
      && wire.verb == verb
      && wire.address == address.(rawQuery := library.signQuery(RequestQuery(verb, address)))
      && wire.body == data && wire.closed
    }

    // The same, and it has the client's headers, set in some order of the map, besides those the
    // signer writes.
    ghost predicate Carries(wire: Wire, verb: string, url: string, data: Option<Bytes>)
      reads this
    {
      && IsFor(wire, verb, url, data)
      && (exists order :: RangeOrder(order, header)
                          && AgreeOff(library.signed, wire.header, SetInOrder(library.canonical, header, order)))
    }

    // A call leads to a request: it can be parsed, there are credentials, and the signer does not
    // refuse it.
    ghost predicate Leaves(verb: string, url: string)
      reads this`query
    {
      && certificate.accessKeyId != "" && certificate.secretAccessKey != ""
      && library.parse(verb, url).Some?
      && var address := library.parse(verb, url).value;
      && !library.refuses(verb, address.(rawQuery := RequestQuery(verb, address)))
    }

    // One call was recorded. If it leads to a request, exactly one left, the one asked for, and its
    // outcome is the outcome. Otherwise none did.
    twostate predicate Requested(verb: string, url: string, data: Option<Bytes>, outcome: Outcome)
      reads this, transport
    {
      && calls == old(calls) + [Call(verb, url, header, data, outcome)]
      && (outcome.NotSent? <==> !Leaves(verb, url))
      && if outcome.NotSent? then transport.sent == old(transport.sent) && transport.replied == old(transport.replied)
         else
           && transport.replied == old(transport.replied) + [outcome]
           && |transport.sent| == |old(transport.sent)| + 1
           && transport.sent[..|old(transport.sent)|] == old(transport.sent)
           && Carries(transport.sent[|old(transport.sent)|], verb, url, data)
    }

    twostate predicate Silent()
      reads this, transport
    {
      calls == old(calls) && transport.sent == old(transport.sent) && transport.replied == old(transport.replied)
    }

    method Get(url: string, data: Option<Bytes>) returns (outcome: Outcome)
      modifies this`calls, transport
      ensures Requested("GET", url, data, outcome)
    {
      outcome := Request(url, GET, data);
    }

    method Post(url: string, data: Option<Bytes>) returns (outcome: Outcome)
      modifies this`calls, transport
      ensures Requested("POST", url, data, outcome)
    {
      outcome := Request(url, POST, data);
    }

    method Delete(url: string, data: Option<Bytes>) returns (outcome: Outcome)
      modifies this`calls, transport
      ensures Requested("DELETE", url, data, outcome)
    {
      outcome := Request(url, DELETE, data);
    }

    method Request(url: string, verb: string, data: Option<Bytes>) returns (outcome: Outcome)
      modifies this`calls, transport
      ensures Requested(verb, url, data, outcome)
    {
      outcome := NotSent;
      var req := NewRequest(url, verb, data);
      if req != null {
        req.closed := true;
        ApplyHeaders(req);
        if verb == GET {
          ApplyQuery(req);
        }
        var signed := Sign(req);
        if signed {
          outcome := transport.Do(req);
        }
      }
      calls := calls + [Call(verb, url, header, data, outcome)];
    }

    method NewRequest(url: string, verb: string, data: Option<Bytes>) returns (req: HttpRequest?)
      ensures req == null <==> library.parse(verb, url).None?
      ensures req != null ==>
                && fresh(req)
                && req.verb == verb
                && req.address == library.parse(verb, url).value
                && req.header == map[]
                && req.Unread() == data
                && (req.body != null ==> fresh(req.body) && req.body.Valid())
    {
      var address := library.parse(verb, url);
      if address.None? {
        return null;
      }
      var body: Reader? := null;
      if data.Some? {
        body := new Reader(data.value);
      }
      req := new HttpRequest(verb, address.value, body);
    }

    method ApplyHeaders(req: HttpRequest)
      requires req.header == map[]
      modifies req`header
      ensures exists order :: RangeOrder(order, header) && req.header == SetInOrder(library.canonical, header, order)
    {
      var todo := header.Keys;
      ghost var order := [];
      while todo != {}
        invariant todo <= header.Keys
        invariant forall i, j :: 0 <= i < j < |order| ==> order[i] != order[j]
        invariant forall k :: k in order <==> k in header.Keys - todo
        invariant req.header == SetInOrder(library.canonical, header, order)
      {
        var key :| key in todo;
        assert key !in order;
        req.header := req.header[library.canonical(key) := header[key]];
        ghost var longer := order + [key];
        assert longer[..|longer| - 1] == order;
        order := longer;
        todo := todo - {key};
      }
    }

    method ApplyQuery(req: HttpRequest)
      modifies req`address
      ensures req.address ==
              old(req.address).(rawQuery := library.encode(MergedQuery(library.values(old(req.address.rawQuery)), query)))
    {
      var own := library.values(req.address.rawQuery);
      var q := own;
      var todo := query.Keys;
      NothingMerged(own);
      assert (map k | k in query && k !in todo :: query[k]) == map[];
      while todo != {}
        invariant todo <= query.Keys
        invariant q == MergedQuery(own, map k | k in query && k !in todo :: query[k])
      {
        var key :| key in todo;
        q := q[key := (if key in q then q[key] else []) + [query[key]]];
        todo := todo - {key};
      }
      assert query == map k | k in query && k !in todo :: query[k];
      req.address := req.address.(rawQuery := library.encode(q));
    }

    // Signing reads the whole body to hash it, leaves a new reader over the same bytes, and
    // writes the signer's headers and nothing else.
    method Sign(req: HttpRequest) returns (ok: bool)
      requires req.body != null ==> req.body.Valid()
      modifies req`body, req`header, req`address, req.body
      ensures ok <==> certificate.accessKeyId != "" && certificate.secretAccessKey != ""
                      && !library.refuses(req.verb, old(req.address))
      ensures req.Unread() == old(req.Unread())
      ensures req.body != null ==> req.body.Valid() && (req.body == old(req.body) || fresh(req.body))
      ensures ok && req.body != null ==> fresh(req.body) && req.body.pos == 0
      ensures AgreeOff(library.signed, req.header, old(req.header))
      ensures ok ==> req.address == old(req.address).(rawQuery := library.signQuery(old(req.address.rawQuery)))
    {
      if certificate.accessKeyId == "" || certificate.secretAccessKey == "" {
        return false;
      }
      if req.body != null {
        var bytes := req.body.ReadAll();
        req.body := new Reader(bytes);
      }
      ok := SignHttp(req);
    }

    // The signer, of which nothing is known but what it may write and what it refuses.
    method SignHttp(req: HttpRequest) returns (ok: bool)
      modifies req`header, req`address
      ensures ok <==> !library.refuses(req.verb, old(req.address))
      ensures AgreeOff(library.signed, req.header, old(req.header))
      ensures ok ==> req.address == old(req.address).(rawQuery := library.signQuery(old(req.address.rawQuery)))
    {
      ok := !library.refuses(req.verb, req.address);
      var written: map<string, string> := *;
      req.header := req.header + (map name | name in written && name in library.signed :: written[name]);
      req.address := req.address.(rawQuery := library.signQuery(req.address.rawQuery));
    }
  }
}
