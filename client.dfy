/**
 * The REST side: an abstract SumoLogic API holding the sources of each
 * collector, and the client whose accessors issue one request each against it
 * (`DestroySource`, `GetSourceName`, and the cloud-syslog create, get and update).
 * Every request is recorded in the client's call log, so that a lifecycle
 * operation's contract can say which requests it made and in what order.
 */
module Client {
  import opened Outcomes
  import opened Text
  import opened Sources

  /** A cloud-syslog source as the API holds it: the shared record and the server-issued token. */
  datatype CloudSyslogSource = CloudSyslogSource(source: Source, token: string)

  /** One REST request. */
  datatype Call =
    | HttpGet(path: string)
    | HttpPost(path: string, body: Source)
    | HttpPut(path: string, body: Source)
    | HttpDelete(path: string)

  /** The steps whose failure the API's fault plan decides. */
  datatype Endpoint = ListSources | DecodeListing | GetSource | CreateSource | UpdateSource | DeleteSource

  /** A source's identity: (collector id, source id). */
  type SourceKey = (GoInt, GoInt)

  /**
   * The remote API: every source by its key, each collector's sources in listing
   * order, the id the next create will issue, the token every create issues,
   * and which steps fail with which error.
   */
  datatype Store = Store(
    sources: map<SourceKey, CloudSyslogSource>,
    order: map<GoInt, seq<GoInt>>,
    nextId: int,
    nextToken: string,
    faults: map<Endpoint, Error>)

  /** The listing and the sources agree, each source carries its own id, and ids below `nextId` are taken. */
  predicate ValidStore(s: Store)
  {
    && (forall k :: k in s.sources ==> k.0 in s.order && k.1 in s.order[k.0])
    && (forall c, i :: c in s.order && i in s.order[c] ==> (c, i) in s.sources)
    && (forall k :: k in s.sources ==> s.sources[k].source.id == k.1 && k.1 < s.nextId)
  }

  // ----- paths -----

  /** `collectors/{collectorID}/sources` */
  function CollectionPath(collectorID: GoInt): (p: string)
    ensures Split(p, '/') == ["collectors", Itoa(collectorID), "sources"]
  {
    PathSegments("collectors", Itoa(collectorID), "sources");
    SplitWithoutSeparator("sources", '/');
    "collectors" + "/" + Itoa(collectorID) + "/" + "sources"
  }

  /** `collectors/{collectorID}/sources/{sourceID}` */
  function SourcePath(collectorID: GoInt, sourceID: GoInt): (p: string)
    ensures Split(p, '/') == ["collectors", Itoa(collectorID), "sources", Itoa(sourceID)]
  {
    var tail := "sources" + "/" + Itoa(sourceID);
    PathSegments("collectors", Itoa(collectorID), tail);
    SplitJoined("sources", Itoa(sourceID), '/');
    "collectors" + "/" + Itoa(collectorID) + "/" + tail
  }

  /** `a/b/c` with slash-free `a` and `b` splits into `a`, `b` and the pieces of `c`. */
  lemma PathSegments(a: string, b: string, c: string)
    requires '/' !in a && '/' !in b
    ensures Split(a + "/" + b + "/" + c, '/') == [a, b] + Split(c, '/')
    ensures a + "/" + b + "/" + c == a + ['/'] + (b + ['/'] + c)
  {
    assert a + "/" + b + "/" + c == a + ['/'] + (b + ['/'] + c);
    SplitAfter(a, b + ['/'] + c, '/');
    SplitAfter(b, c, '/');
  }

  /** A slash-free text followed by a slash-led rest is recovered from the concatenation. */
  lemma SameSegment(a1: string, r1: string, a2: string, r2: string)
    requires '/' !in a1 && '/' !in a2
    requires |r1| > 0 && |r2| > 0 && r1[0] == '/' && r2[0] == '/'
    requires a1 + r1 == a2 + r2
    ensures a1 == a2 && r1 == r2
  {
    SplitHead(a1, r1, '/');
    SplitHead(a2, r2, '/');
    assert r1 == (a1 + r1)[|a1|..];
    assert r2 == (a2 + r2)[|a2|..];
  }

  /** A source path names exactly one (collector, source) pair. */
  lemma SourcePathInjective(c1: GoInt, s1: GoInt, c2: GoInt, s2: GoInt)
    requires SourcePath(c1, s1) == SourcePath(c2, s2)
    ensures c1 == c2 && s1 == s2
  {
    PathParts("collectors/", Itoa(c1), "/sources/", Itoa(s1), Itoa(c2), Itoa(s2));
    ItoaInjective(c1, c2);
    ItoaInjective(s1, s2);
  }

  /** `p + a + q + b` determines slash-free `a` and then `b`, when `q` begins with a slash. */
  lemma PathParts(p: string, a1: string, q: string, b1: string, a2: string, b2: string)
    requires '/' !in a1 && '/' !in a2 && |q| > 0 && q[0] == '/'
    requires p + a1 + q + b1 == p + a2 + q + b2
    ensures a1 == a2 && b1 == b2
  {
    assert p + a1 + q + b1 == p + (a1 + (q + b1));
    assert p + a2 + q + b2 == p + (a2 + (q + b2));
    StripPrefix(p, a1 + (q + b1), a2 + (q + b2));
    SameSegment(a1, q + b1, a2, q + b2);
    StripPrefix(q, b1, b2);
  }

  lemma StripPrefix(p: string, x: string, y: string)
    requires p + x == p + y
    ensures x == y
  {
    assert x == (p + x)[|p|..];
    assert y == (p + y)[|p|..];
  }

  // ----- what the API answers -----

  /** The sources of `collectorID` in listing order. */
  function ListingOf(sources: map<SourceKey, CloudSyslogSource>, collectorID: GoInt, ids: seq<GoInt>): seq<Source>
  {
    if |ids| == 0 then []
    else
      var head := if (collectorID, ids[0]) in sources then [sources[(collectorID, ids[0])].source] else [];
      head + ListingOf(sources, collectorID, ids[1..])
  }

  /**
   * The list request and its decoding: a transport error, no body for an
   * unknown collector, a decoding error, or the decoded list.
   */
  function ListResponse(s: Store, collectorID: GoInt): (r: Result<Option<seq<Source>>>)
    ensures r.Failure? ==> r.error in s.faults.Values
    ensures r == Success(None) <==> ListSources !in s.faults && collectorID !in s.order
  {
    if ListSources in s.faults then Failure(s.faults[ListSources])
    else if collectorID !in s.order then Success(None)
    else if DecodeListing in s.faults then Failure(s.faults[DecodeListing])
    else Success(Some(ListingOf(s.sources, collectorID, s.order[collectorID])))
  }

  /** The first source in list order whose name is exactly `name`. */
  function FirstNamed(ls: seq<Source>, name: string): (r: Option<Source>)
    ensures r.Some? ==> r.value in ls && r.value.name == name
  {
    if |ls| == 0 then None
    else if ls[0].name == name then Some(ls[0])
    else FirstNamed(ls[1..], name)
  }

  /** FirstNamed finds nothing iff no name matches, and otherwise the earliest match. */
  lemma {:induction false} FirstNamedSpec(ls: seq<Source>, name: string)
    ensures FirstNamed(ls, name).None? <==> forall i :: 0 <= i < |ls| ==> ls[i].name != name
    ensures FirstNamed(ls, name).Some? ==>
      exists i :: 0 <= i < |ls| && ls[i] == FirstNamed(ls, name).value && ls[i].name == name
        && forall j :: 0 <= j < i ==> ls[j].name != name
  {
    if |ls| > 0 && ls[0].name != name {
      FirstNamedSpec(ls[1..], name);
      if FirstNamed(ls[1..], name).Some? {
        var i :| 0 <= i < |ls[1..]| && ls[1..][i] == FirstNamed(ls[1..], name).value
          && ls[1..][i].name == name && forall j :: 0 <= j < i ==> ls[1..][j].name != name;
        assert ls[i + 1] == FirstNamed(ls, name).value;
        assert forall j :: 0 <= j < i + 1 ==> ls[j].name != name by {
          forall j | 0 <= j < i + 1
            ensures ls[j].name != name
          {
            if j > 0 { assert ls[j] == ls[1..][j - 1]; }
          }
        }
      }
    }
  }

  /** What `GetSourceName` returns: errors unchanged, no match (not an error) on no body. */
  function SourceNamed(s: Store, collectorID: GoInt, name: string): (r: Result<Option<Source>>)
    ensures r.Failure? <==> ListResponse(s, collectorID).Failure?
    ensures r.Success? && r.value.Some? ==> r.value.value.name == name
  {
    match ListResponse(s, collectorID)
    case Failure(e) => Failure(e)
    case Success(None) => Success(None)
    case Success(Some(ls)) => Success(FirstNamed(ls, name))
  }

  /** The answer to a get: an error, none (not found), or the stored source. */
  function FetchResponse(s: Store, collectorID: GoInt, sourceID: GoInt): Result<Option<CloudSyslogSource>>
  {
    if GetSource in s.faults then Failure(s.faults[GetSource])
    else if (collectorID, sourceID) in s.sources then Success(Some(s.sources[(collectorID, sourceID)]))
    else Success(None)
  }

  /** The answer to a create: an error, or the id the API assigns (one that fits a Go int). */
  function CreateResponse(s: Store): Result<GoInt>
  {
    if CreateSource in s.faults then Failure(s.faults[CreateSource])
    else if !(MinInt <= s.nextId <= MaxInt) then Failure(Api("created source id does not fit an int"))
    else Success(s.nextId)
  }

  function IdsOf(s: Store, collectorID: GoInt): seq<GoInt>
  {
    if collectorID in s.order then s.order[collectorID] else []
  }

  /** The API after a successful create: the body stored under the new id, listed last. */
  function Created(s: Store, collectorID: GoInt, body: Source): Store
    requires CreateResponse(s).Success?
  {
    var id := CreateResponse(s).value;
    s.(sources := s.sources[(collectorID, id) := CloudSyslogSource(body.(id := id), s.nextToken)],
       order := s.order[collectorID := IdsOf(s, collectorID) + [id]],
       nextId := s.nextId + 1)
  }

  /** The answer to an update: an error, or none when the source was replaced. */
  function UpdateResponse(s: Store, collectorID: GoInt, body: Source): Option<Error>
  {
    if UpdateSource in s.faults then Some(s.faults[UpdateSource])
    else if (collectorID, body.id) !in s.sources then Some(NotFound(SourcePath(collectorID, body.id)))
    else None
  }

  /** The API after a successful update: the body replaces the stored record; the token stays. */
  function Updated(s: Store, collectorID: GoInt, body: Source): Store
    requires UpdateResponse(s, collectorID, body).None?
  {
    var key := (collectorID, body.id);
    s.(sources := s.sources[key := CloudSyslogSource(body, s.sources[key].token)])
  }

  /** The answer to a delete: an error, or none when the source was removed. */
  function DeleteResponse(s: Store, collectorID: GoInt, sourceID: GoInt): Option<Error>
  {
    if DeleteSource in s.faults then Some(s.faults[DeleteSource])
    else if (collectorID, sourceID) !in s.sources then Some(NotFound(SourcePath(collectorID, sourceID)))
    else None
  }

  /** `xs` without any occurrence of `x`, order kept. */
  function Without(xs: seq<GoInt>, x: GoInt): (r: seq<GoInt>)
    ensures forall y :: y in r <==> y in xs && y != x
  {
    if |xs| == 0 then []
    else (if xs[0] == x then [] else [xs[0]]) + Without(xs[1..], x)
  }

  /** The API after a successful delete. */
  function Deleted(s: Store, collectorID: GoInt, sourceID: GoInt): Store
  {
    s.(sources := s.sources - {(collectorID, sourceID)},
       order := s.order[collectorID := Without(IdsOf(s, collectorID), sourceID)])
  }

  /** A create adds exactly one source, under a fresh key, and keeps the API consistent. */
  lemma CreatedAddsOne(s: Store, collectorID: GoInt, body: Source)
    requires ValidStore(s) && CreateResponse(s).Success?
    ensures var id := CreateResponse(s).value; var t := Created(s, collectorID, body);
      && ValidStore(t)
      && (collectorID, id) !in s.sources
      && t.sources.Keys == s.sources.Keys + {(collectorID, id)}
      && (forall k :: k in s.sources ==> t.sources[k] == s.sources[k])
      && (GetSource !in s.faults ==>
            FetchResponse(t, collectorID, id) == Success(Some(CloudSyslogSource(body.(id := id), s.nextToken))))
  {
  }

  /** An update replaces exactly the addressed source, keeping its token. */
  lemma UpdatedReplacesOne(s: Store, collectorID: GoInt, body: Source)
    requires ValidStore(s) && UpdateResponse(s, collectorID, body).None?
    ensures var t := Updated(s, collectorID, body);
      && ValidStore(t)
      && t.sources.Keys == s.sources.Keys
      && (forall k :: k in s.sources && k != (collectorID, body.id) ==> t.sources[k] == s.sources[k])
      && (GetSource !in s.faults ==>
            FetchResponse(t, collectorID, body.id)
              == Success(Some(CloudSyslogSource(body, s.sources[(collectorID, body.id)].token))))
  {
  }

  /** A delete removes exactly the addressed source and keeps the API consistent. */
  lemma DeletedRemovesOne(s: Store, collectorID: GoInt, sourceID: GoInt)
    requires ValidStore(s) && DeleteResponse(s, collectorID, sourceID).None?
    ensures var t := Deleted(s, collectorID, sourceID);
      && ValidStore(t)
      && t.sources == s.sources - {(collectorID, sourceID)}
      && (GetSource !in s.faults ==> FetchResponse(t, collectorID, sourceID) == Success(None))
  {
  }

  // ----- the client -----

  /** The API client: the remote API it talks to and the requests issued so far. */
  class Client {
    var data: Store
    var calls: seq<Call>

    ghost predicate Valid()
      reads this
    {
      ValidStore(data)
    }

    constructor (initial: Store)
      requires ValidStore(initial)
      ensures Valid() && data == initial && calls == []
    {
      data := initial;
      calls := [];
    }

    /**
     * `GetSourceName`: one list request, then a linear scan for the first
     * source whose name equals `sourceName` exactly.
     */
    method GetSourceName(collectorID: GoInt, sourceName: string) returns (r: Result<Option<Source>>)
      modifies this
      ensures data == old(data)
      ensures calls == old(calls) + [HttpGet(CollectionPath(collectorID))]
      ensures r == SourceNamed(data, collectorID, sourceName)
    {
      calls := calls + [HttpGet(CollectionPath(collectorID))];
      var response := ListResponse(data, collectorID);
      if response.Failure? {
        return Failure(response.error);
      }
      if response.value.None? {
        return Success(None);
      }
      var sources := response.value.value;
      var i := 0;
      while i < |sources|
        invariant 0 <= i <= |sources|
        invariant FirstNamed(sources[i..], sourceName) == FirstNamed(sources, sourceName)
      {
        if sources[i].name == sourceName {
          return Success(Some(sources[i]));
        }
        assert sources[i..][1..] == sources[i + 1..];
        i := i + 1;
      }
      return Success(None);
    }

    /** `DestroySource(sourceID, collectorID)`: one DELETE of the source's path. */
    method DestroySource(sourceID: GoInt, collectorID: GoInt) returns (err: Option<Error>)
      requires Valid()
      modifies this
      ensures Valid()
      ensures calls == old(calls) + [HttpDelete(SourcePath(collectorID, sourceID))]
      ensures err == DeleteResponse(old(data), collectorID, sourceID)
      ensures data == if err.None? then Deleted(old(data), collectorID, sourceID) else old(data)
    {
      calls := calls + [HttpDelete(SourcePath(collectorID, sourceID))];
      err := DeleteResponse(data, collectorID, sourceID);
      if err.None? {
        DeletedRemovesOne(data, collectorID, sourceID);
        data := Deleted(data, collectorID, sourceID);
      }
    }

    /** `GetCloudSyslogSource`: one GET of the source's path; none when it does not exist. */
    method GetCloudSyslogSource(collectorID: GoInt, sourceID: GoInt) returns (r: Result<Option<CloudSyslogSource>>)
      modifies this
      ensures data == old(data)
      ensures calls == old(calls) + [HttpGet(SourcePath(collectorID, sourceID))]
      ensures r == FetchResponse(data, collectorID, sourceID)
    {
      calls := calls + [HttpGet(SourcePath(collectorID, sourceID))];
      r := FetchResponse(data, collectorID, sourceID);
    }

    /** `CreateCloudsyslogSource`: one POST to the collector's sources; the new id. */
    method CreateCloudsyslogSource(source: Source, collectorID: GoInt) returns (r: Result<GoInt>)
      requires Valid()
      modifies this
      ensures Valid()
      ensures calls == old(calls) + [HttpPost(CollectionPath(collectorID), source)]
      ensures r == CreateResponse(old(data))
      ensures data == if r.Success? then Created(old(data), collectorID, source) else old(data)
    {
      calls := calls + [HttpPost(CollectionPath(collectorID), source)];
      r := CreateResponse(data);
      if r.Success? {
        CreatedAddsOne(data, collectorID, source);
        data := Created(data, collectorID, source);
      }
    }

    /** `UpdateCloudSyslogSource`: one PUT of the full record to the source's path. */
    method UpdateCloudSyslogSource(source: Source, collectorID: GoInt) returns (err: Option<Error>)
      requires Valid()
      modifies this
      ensures Valid()
      ensures calls == old(calls) + [HttpPut(SourcePath(collectorID, source.id), source)]
      ensures err == UpdateResponse(old(data), collectorID, source)
      ensures data == if err.None? then Updated(old(data), collectorID, source) else old(data)
    {
      calls := calls + [HttpPut(SourcePath(collectorID, source.id), source)];
      err := UpdateResponse(data, collectorID, source);
      if err.None? {
        UpdatedReplacesOne(data, collectorID, source);
        data := Updated(data, collectorID, source);
      }
    }
  }
}
