/**
 * The routing layer (flight_sql_router): a fixed list of backend locations,
 * the index of the one that answers describe calls, a lazily filled cache of
 * backend clients keyed by location string, and the `<location>|<rest>`
 * ticket format that lets a fetch call name the backend to forward to.
 *
 * The backend calls (Location::Parse, FlightClient::Connect, Execute, DoGet
 * and CreateStatementQueryTicket) are parameters of the model: a `Flight`
 * value holds them as functions.
 */
module Routing {
  import opened ArrowStatus
  import opened ArrowTypes

  newtype uint8 = x: int | 0 <= x < 256

  /** A backend location; its ToString() is its URI. */
  datatype Location = Location(uri: string)

  /** A connected backend client. */
  datatype Client = Client(handle: nat)

  datatype Endpoint = Endpoint(ticket: string, locations: seq<Location>)

  datatype FlightInfo = FlightInfo(
    schema: Schema,
    descriptor: string,
    endpoints: seq<Endpoint>,
    totalRecords: int,
    totalBytes: int,
    ordered: bool)

  /** A backend's record batch stream, forwarded as it is. */
  datatype Stream = Stream(handle: nat)

  /** The backend calls the router makes. */
  datatype Flight = Flight(
    parse: string -> Result<Location>,
    connect: Location -> Result<Client>,
    execute: (Client, string) -> Result<FlightInfo>,
    doGet: (Client, string) -> Result<Stream>,
    encodeQuery: string -> Result<string>)

  /** A router call's result, the client cache after it, and the locations it connected to. */
  datatype Outcome<T> = Outcome(result: Result<T>, cache: map<string, Client>, dialed: seq<Location>)

  // ---------------------------------------------------------------------
  // Tickets

  /** std::string::find: the index of the first occurrence of c, None for npos. */
  function FirstIndex(s: string, c: char): (r: Option<nat>)
    ensures r.None? <==> c !in s
    ensures r.Some? ==> r.value < |s| && s[r.value] == c && c !in s[..r.value]
  {
    if |s| == 0 then None
    else if s[0] == c then Some(0)
    else
      match FirstIndex(s[1..], c)
      case None => None
      case Some(i) =>
        assert s[..i + 1] == [s[0]] + s[1..][..i];
        Some(i + 1)
  }

  /** make_ticket: the location's string, a '|', then the query's statement ticket. */
  function MakeTicket(flight: Flight, loc: Location, query: string): Result<string> {
    match flight.encodeQuery(query)
    case Err(s) => Err(s)
    case Ok(encoded) => Ok(loc.uri + "|" + encoded)
  }

  /**
   * DoGetStatement's decoding: the text before the first '|' names the
   * location, everything after it is the ticket to forward.
   */
  function SplitTicket(payload: string): (r: Result<(string, string)>)
    ensures r.Err? <==> '|' !in payload
    ensures r.Err? ==> r.status == Invalid("Invalid ticket format")
    ensures r.Ok? ==> payload == r.value.0 + "|" + r.value.1 && '|' !in r.value.0
  {
    match FirstIndex(payload, '|')
    case None => Err(Invalid("Invalid ticket format"))
    case Some(d) =>
      assert payload == payload[..d] + "|" + payload[d + 1..];
      Ok((payload[..d], payload[d + 1..]))
  }

  /** Decoding a ticket gives back the location and the forwarded part it was made from, whatever '|' the latter holds. */
  lemma {:induction false} TicketRoundTrip(loc: string, rest: string)
    requires '|' !in loc
    ensures SplitTicket(loc + "|" + rest) == Ok((loc, rest))
  {
    var payload := loc + "|" + rest;
    assert payload[|loc|] == '|';
    assert payload[..|loc|] == loc;
    FirstIndexAt(payload, '|', |loc|);
    assert payload[|loc| + 1..] == rest;
  }

  lemma FirstIndexAt(s: string, c: char, i: nat)
    requires i < |s| && s[i] == c && c !in s[..i]
    ensures FirstIndex(s, c) == Some(i)
  {
  }

  /** The tickets make_ticket builds decode to the location they name and the encoded query. */
  lemma MakeTicketDecodes(flight: Flight, loc: Location, query: string)
    requires '|' !in loc.uri && flight.encodeQuery(query).Ok?
    ensures MakeTicket(flight, loc, query).Ok?
    ensures SplitTicket(MakeTicket(flight, loc, query).value) == Ok((loc.uri, flight.encodeQuery(query).value))
  {
    TicketRoundTrip(loc.uri, flight.encodeQuery(query).value);
  }

  /** A location string holding '|' is cut at its own first '|': such a ticket names another location. */
  lemma SplitTicketCutsLocationAtBar(loc: string, rest: string, k: nat)
    requires k < |loc| && loc[k] == '|' && '|' !in loc[..k]
    ensures SplitTicket(loc + "|" + rest) == Ok((loc[..k], loc[k + 1..] + "|" + rest))
  {
    var payload := loc + "|" + rest;
    assert payload[..k] == loc[..k];
    FirstIndexAt(payload, '|', k);
    assert payload[k + 1..] == loc[k + 1..] + "|" + rest;
  }

  /** "host:1234|SELECT 1" names location host:1234 and forwards SELECT 1 verbatim. */
  lemma TicketExample()
    ensures SplitTicket("host:1234|SELECT 1") == Ok(("host:1234", "SELECT 1"))
  {
    TicketRoundTrip("host:1234", "SELECT 1");
    assert "host:1234" + "|" + "SELECT 1" == "host:1234|SELECT 1";
  }

  /** Only the first '|' separates: the rest of the ticket is forwarded with its own '|'. */
  lemma TicketExampleWithBar()
    ensures SplitTicket("h:1|a|b") == Ok(("h:1", "a|b"))
  {
    TicketRoundTrip("h:1", "a|b");
    assert "h:1" + "|" + "a|b" == "h:1|a|b";
  }

  // ---------------------------------------------------------------------
  // The client cache

  /** get_or_create_client: the cached client for the location, or a new connection that is cached when it succeeds. */
  function GetOrCreate(flight: Flight, cache: map<string, Client>, loc: Location): Outcome<Client> {
    if loc.uri in cache then Outcome(Ok(cache[loc.uri]), cache, [])
    else
      match flight.connect(loc)
      case Err(s) => Outcome(Err(s), cache, [loc])
      case Ok(c) => Outcome(Ok(c), cache[loc.uri := c], [loc])
  }

  /** A hit returns the cached client, connects to nothing and leaves the cache as it was. */
  lemma CacheHit(flight: Flight, cache: map<string, Client>, loc: Location)
    requires loc.uri in cache
    ensures GetOrCreate(flight, cache, loc) == Outcome(Ok(cache[loc.uri]), cache, [])
  {
  }

  /** A miss connects once to the location; a client it gets is cached under the location's string, a failure leaves the cache as it was. */
  lemma CacheMiss(flight: Flight, cache: map<string, Client>, loc: Location)
    requires loc.uri !in cache
    ensures var o := GetOrCreate(flight, cache, loc);
      && o.dialed == [loc]
      && o.result == flight.connect(loc)
      && (o.result.Ok? ==> o.cache == cache[loc.uri := o.result.value])
      && (o.result.Err? ==> o.cache == cache)
  {
  }

  /** Entries under other keys are never changed or removed, and no entry is ever removed. */
  lemma CacheKeepsOtherEntries(flight: Flight, cache: map<string, Client>, loc: Location)
    ensures var o := GetOrCreate(flight, cache, loc);
      && cache.Keys <= o.cache.Keys
      && o.cache.Keys <= cache.Keys + {loc.uri}
      && (forall k :: k in cache && k != loc.uri ==> o.cache[k] == cache[k])
      && (loc.uri in cache ==> o.cache[loc.uri] == cache[loc.uri])
  {
  }

  /**
   * What the cache promises over a run of calls: every cached client is
   * what connecting to its location returned, every successful connection
   * was cached, and a location is connected to again only after a failed
   * connection to it.
   */
  ghost predicate CacheInvariant(flight: Flight, cache: map<string, Client>, dialed: seq<Location>) {
    && (forall k :: k in cache ==> flight.connect(Location(k)) == Ok(cache[k]))
    && (forall i :: 0 <= i < |dialed| && flight.connect(dialed[i]).Ok? ==> dialed[i].uri in cache)
    && (forall i, j :: 0 <= i < j < |dialed| && dialed[i] == dialed[j] ==> flight.connect(dialed[i]).Err?)
  }

  lemma {:induction false} GetOrCreateKeepsInvariant(flight: Flight, cache: map<string, Client>, dialed: seq<Location>, loc: Location)
    requires CacheInvariant(flight, cache, dialed)
    ensures var o := GetOrCreate(flight, cache, loc);
      && CacheInvariant(flight, o.cache, dialed + o.dialed)
      && (o.result.Ok? ==> o.result == flight.connect(loc))
  {
    var o := GetOrCreate(flight, cache, loc);
    var log := dialed + o.dialed;
    if loc.uri in cache {
      assert Location(loc.uri) == loc;
      assert log == dialed;
    } else {
      forall i | 0 <= i < |dialed| && dialed[i] == loc
        ensures flight.connect(dialed[i]).Err?
      {
      }
      forall i, j | 0 <= i < j < |log| && log[i] == log[j]
        ensures flight.connect(log[i]).Err?
      {
        if j < |dialed| {
          assert log[i] == dialed[i] && log[j] == dialed[j];
        } else {
          assert log[j] == loc && log[i] == dialed[i];
        }
      }
      forall i | 0 <= i < |log| && flight.connect(log[i]).Ok?
        ensures log[i].uri in o.cache
      {
        if i < |dialed| {
          assert log[i] == dialed[i];
        }
      }
      forall k | k in o.cache
        ensures flight.connect(Location(k)) == Ok(o.cache[k])
      {
        if k == loc.uri {
          assert Location(k) == loc;
        }
      }
    }
  }

  /** Under the invariant, a lookup right after a successful one connects to nothing and returns the same client. */
  lemma SecondLookupHits(flight: Flight, cache: map<string, Client>, loc: Location)
    requires GetOrCreate(flight, cache, loc).result.Ok?
    ensures var o := GetOrCreate(flight, cache, loc);
      GetOrCreate(flight, o.cache, loc) == Outcome(o.result, o.cache, [])
  {
  }

  // ---------------------------------------------------------------------
  // Describe and fetch

  /**
   * GetFlightInfoStatement: check the receiver index, get a client for the
   * receiving node, have it describe the query, compute (and drop) the
   * routing ticket, and answer with an empty schema and the backend's
   * endpoints, totals and ordering.
   */
  function Describe(flight: Flight, nodes: seq<Location>, receiver: uint8, cache: map<string, Client>,
                    query: string, descriptor: string): Outcome<FlightInfo> {
    if |nodes| == 0 || receiver as int >= |nodes| then Outcome(Err(Invalid("Invalid receiver index")), cache, [])
    else
      var loc := nodes[receiver];
      var got := GetOrCreate(flight, cache, loc);
      match got.result
      case Err(s) => Outcome(Err(s), got.cache, got.dialed)
      case Ok(client) =>
        match flight.execute(client, query)
        case Err(s) => Outcome(Err(s), got.cache, got.dialed)
        case Ok(info) =>
          match MakeTicket(flight, loc, query)
          case Err(s) => Outcome(Err(s), got.cache, got.dialed)
          case Ok(_) =>
            Outcome(Ok(FlightInfo([], descriptor, info.endpoints, info.totalRecords, info.totalBytes, info.ordered)),
                    got.cache, got.dialed)
  }

  /** An out-of-range receiver fails before any lookup: the cache is unchanged and nothing is connected. */
  lemma DescribeRejectsBadReceiver(flight: Flight, nodes: seq<Location>, receiver: uint8, cache: map<string, Client>,
                                   query: string, descriptor: string)
    requires receiver as int >= |nodes|
    ensures Describe(flight, nodes, receiver, cache, query, descriptor) ==
      Outcome(Err(Invalid("Invalid receiver index")), cache, [])
  {
  }

  /**
   * With a receiver in range, describe looks up nodes[receiver] whatever
   * the query is, and on success answers with an empty schema, the
   * caller's descriptor and the backend's endpoints, totals and ordering;
   * the routing ticket only decides whether the call succeeds.
   */
  lemma DescribeForwardsToReceiver(flight: Flight, nodes: seq<Location>, receiver: uint8, cache: map<string, Client>,
                                   query: string, descriptor: string)
    requires receiver as int < |nodes|
    ensures var o := Describe(flight, nodes, receiver, cache, query, descriptor);
      var got := GetOrCreate(flight, cache, nodes[receiver]);
      && o.cache == got.cache && o.dialed == got.dialed
      && (o.result.Ok? <==>
            got.result.Ok? && flight.execute(got.result.value, query).Ok? && flight.encodeQuery(query).Ok?)
      && (o.result.Ok? ==>
            var info := flight.execute(got.result.value, query).value;
            o.result.value == FlightInfo([], descriptor, info.endpoints, info.totalRecords, info.totalBytes, info.ordered))
  {
  }

  /** Describe keeps the cache invariant. */
  lemma DescribeKeepsInvariant(flight: Flight, nodes: seq<Location>, receiver: uint8, cache: map<string, Client>,
                               dialed: seq<Location>, query: string, descriptor: string)
    requires CacheInvariant(flight, cache, dialed)
    ensures var o := Describe(flight, nodes, receiver, cache, query, descriptor);
      CacheInvariant(flight, o.cache, dialed + o.dialed)
  {
    if receiver as int < |nodes| {
      GetOrCreateKeepsInvariant(flight, cache, dialed, nodes[receiver]);
    } else {
      assert dialed + [] == dialed;
    }
  }

  /**
   * DoGetStatement: split the ticket, parse the location, get a client for
   * it and forward the part after the first '|' as the backend ticket.
   */
  function Fetch(flight: Flight, cache: map<string, Client>, payload: string): Outcome<Stream> {
    match SplitTicket(payload)
    case Err(s) => Outcome(Err(s), cache, [])
    case Ok((locText, forwarded)) =>
      match flight.parse(locText)
      case Err(s) => Outcome(Err(s), cache, [])
      case Ok(loc) =>
        var got := GetOrCreate(flight, cache, loc);
        match got.result
        case Err(s) => Outcome(Err(s), got.cache, got.dialed)
        case Ok(client) => Outcome(flight.doGet(client, forwarded), got.cache, got.dialed)
  }

  /** A payload without '|' fails with "Invalid ticket format" and touches nothing. */
  lemma FetchRejectsMalformedTicket(flight: Flight, cache: map<string, Client>, payload: string)
    requires '|' !in payload
    ensures Fetch(flight, cache, payload) == Outcome(Err(Invalid("Invalid ticket format")), cache, [])
  {
  }

  /**
   * A ticket `loc|rest` is forwarded to the location loc parses to, with
   * exactly rest as the backend ticket, '|' characters and all.
   */
  lemma FetchForwardsRest(flight: Flight, cache: map<string, Client>, loc: string, rest: string)
    requires '|' !in loc
    ensures var o := Fetch(flight, cache, loc + "|" + rest);
      && (flight.parse(loc).Err? ==> o == Outcome(Err(flight.parse(loc).status), cache, []))
      && (flight.parse(loc).Ok? ==>
            var got := GetOrCreate(flight, cache, flight.parse(loc).value);
            && o.cache == got.cache && o.dialed == got.dialed
            && (got.result.Err? ==> o.result == Err(got.result.status))
            && (got.result.Ok? ==> o.result == flight.doGet(got.result.value, rest)))
  {
    TicketRoundTrip(loc, rest);
  }

  /** Fetch keeps the cache invariant. */
  lemma FetchKeepsInvariant(flight: Flight, cache: map<string, Client>, dialed: seq<Location>, payload: string)
    requires CacheInvariant(flight, cache, dialed)
    ensures var o := Fetch(flight, cache, payload);
      CacheInvariant(flight, o.cache, dialed + o.dialed)
  {
    match SplitTicket(payload)
    case Err(_) =>
      assert dialed + [] == dialed;
    case Ok((locText, _)) =>
      match flight.parse(locText)
      case Err(_) =>
        assert dialed + [] == dialed;
      case Ok(loc) =>
        GetOrCreateKeepsInvariant(flight, cache, dialed, loc);
  }

  /**
   * After a successful describe, a fetch whose ticket names the receiving
   * node (a location string that parses back to it) reuses the cached
   * client: it connects to nothing and leaves the cache unchanged.
   */
  lemma FetchAfterDescribeReusesClient(flight: Flight, nodes: seq<Location>, receiver: uint8, cache: map<string, Client>,
                                       query: string, descriptor: string, rest: string)
    requires receiver as int < |nodes|
    requires '|' !in nodes[receiver].uri && flight.parse(nodes[receiver].uri) == Ok(nodes[receiver])
    requires Describe(flight, nodes, receiver, cache, query, descriptor).result.Ok?
    ensures var d := Describe(flight, nodes, receiver, cache, query, descriptor);
      var f := Fetch(flight, d.cache, nodes[receiver].uri + "|" + rest);
      && f.cache == d.cache && f.dialed == []
      && f.result == flight.doGet(d.cache[nodes[receiver].uri], rest)
  {
    var loc := nodes[receiver];
    var d := Describe(flight, nodes, receiver, cache, query, descriptor);
    assert loc.uri in d.cache;
    FetchForwardsRest(flight, d.cache, loc.uri, rest);
  }

  // ---------------------------------------------------------------------
  // The router object

  class Router {
    const nodes: seq<Location>
    const receiver: uint8
    const flight: Flight
    var clientCache: map<string, Client>
    /** Every location connected to so far, in order. */
    ghost var dialed: seq<Location>

    ghost predicate Valid()
      reads this
    {
      CacheInvariant(flight, clientCache, dialed)
    }

    constructor (nodes: seq<Location>, receiver: uint8, flight: Flight)
      ensures this.nodes == nodes && this.receiver == receiver && this.flight == flight
      ensures clientCache == map[] && dialed == []
      ensures Valid()
    {
      this.nodes := nodes;
      this.receiver := receiver;
      this.flight := flight;
      clientCache := map[];
      dialed := [];
    }

    /** flight_sql_router::make: refuses an empty node list, keeps the nodes in list order, and accepts any receiver. */
    static method Make(nodes: seq<Location>, receiver: uint8, flight: Flight) returns (r: Result<Router>)
      ensures r.Err? <==> |nodes| == 0
      ensures r.Err? ==> r.status == Invalid("No nodes provided")
      ensures r.Ok? ==> fresh(r.value) && r.value.Valid()
      ensures r.Ok? ==> r.value.nodes == nodes && r.value.receiver == receiver && r.value.flight == flight
      ensures r.Ok? ==> r.value.clientCache == map[] && r.value.dialed == []
    {
      if |nodes| == 0 {
        return Err(Invalid("No nodes provided"));
      }
      var router := new Router(nodes, receiver, flight);
      return Ok(router);
    }

    method GetOrCreateClient(loc: Location) returns (r: Result<Client>)
      requires Valid()
      modifies this
      ensures var o := GetOrCreate(flight, old(clientCache), loc);
        r == o.result && clientCache == o.cache && dialed == old(dialed) + o.dialed
      ensures Valid()
    {
      GetOrCreateKeepsInvariant(flight, clientCache, dialed, loc);
      var key := loc.uri;
      if key in clientCache {
        return Ok(clientCache[key]);
      }
      dialed := dialed + [loc];
      var client := flight.connect(loc);
      if client.Err? {
        return Err(client.status);
      }
      clientCache := clientCache[key := client.value];
      return Ok(client.value);
    }

    method GetFlightInfoStatement(query: string, descriptor: string) returns (r: Result<FlightInfo>)
      requires Valid()
      modifies this
      ensures var o := Describe(flight, nodes, receiver, old(clientCache), query, descriptor);
        r == o.result && clientCache == o.cache && dialed == old(dialed) + o.dialed
      ensures Valid()
    {
      if |nodes| == 0 || receiver as int >= |nodes| {
        assert dialed + [] == dialed;
        return Err(Invalid("Invalid receiver index"));
      }
      var location := nodes[receiver];
      var client :- GetOrCreateClient(location);
      var info :- flight.execute(client, query);
      var ticket :- MakeTicket(flight, location, query);
      r := Ok(FlightInfo([], descriptor, info.endpoints, info.totalRecords, info.totalBytes, info.ordered));
    }

    method DoGetStatement(payload: string) returns (r: Result<Stream>)
      requires Valid()
      modifies this
      ensures var o := Fetch(flight, old(clientCache), payload);
        r == o.result && clientCache == o.cache && dialed == old(dialed) + o.dialed
      ensures Valid()
    {
      var delimiter := FirstIndex(payload, '|');
      if delimiter.None? {
        assert dialed + [] == dialed;
        return Err(Invalid("Invalid ticket format"));
      }
      var d := delimiter.value;
      var locationText := payload[..d];
      var query := payload[d + 1..];
      assert SplitTicket(payload) == Ok((locationText, query));
      assert dialed + [] == dialed;
      var location :- flight.parse(locationText);
      var client :- GetOrCreateClient(location);
      r := flight.doGet(client, query);
    }
  }
}
