/**
 * The cloud-syslog source resource as Terraform drives it: a resource id and a
 * state map, changed step by step by the Create, Read, Update, Delete and
 * Import handlers, each of which talks to the API through a `Client`.
 */
module Lifecycle {
  import opened Outcomes
  import opened Text
  import opened Sources
  import opened Client

  /** How Read leaves the resource for a given answer to its fetch. */
  predicate ReadEffect(response: Result<Option<CloudSyslogSource>>, id0: string, st0: State,
                       err: Option<Error>, id1: string, st1: State)
    ensures ReadEffect(response, id0, st0, err, id1, st1) ==> (err.None? <==> response.Success?)
  {
    match response
    case Failure(e) => err == Some(e) && id1 == id0 && st1 == st0
    case Success(None) => err == None && id1 == "" && st1 == st0
    case Success(Some(r)) => err == None && id1 == id0 && st1 == ReadState(st0, r)
  }

  /** The state after Read found `r`: the shared write-back, then the token. */
  function ReadState(st: State, r: CloudSyslogSource): (st1: State)
    ensures st1.Keys == st.Keys + WriteBackFields + {Token}
    ensures GetString(st1, Token) == r.token
  {
    WrittenBack(st, r.source)[Token := Str(r.token)]
  }

  /** The state Read leaves behind is well typed when the one before it was. */
  lemma ReadStateWellTyped(st: State, r: CloudSyslogSource)
    requires WellTyped(st)
    ensures WellTyped(ReadState(st, r))
  {
    WriteBackWellTyped(st, r.source);
  }

  /** `token` is not part of the shared record. */
  lemma ToSourceIgnoresToken(id: string, st: State, v: Value)
    ensures ResourceToSource(id, st[Token := v]) == ResourceToSource(id, st)
  {
  }

  /**
   * After Read found `r`, the state describes exactly the remote record (but
   * for the id, taken from the resource id, and the type), holds its token,
   * and keeps `collector_id`, `lookup_by_name` and `destroy`.
   */
  lemma ReadStateMirrorsRemote(id: string, st: State, r: CloudSyslogSource)
    ensures ResourceToSource(id, ReadState(st, r)) == r.source.(id := Atoi(id), sourceType := "")
    ensures GetString(ReadState(st, r), Token) == r.token
    ensures forall f :: f in st && (f.CollectorId? || f.LookupByName? || f.Destroy?) ==>
      f in ReadState(st, r) && ReadState(st, r)[f] == st[f]
  {
    ToSourceIgnoresToken(id, WrittenBack(st, r.source), Str(r.token));
    ReadBackRoundTrip(id, st, r.source);
    WriteBackScope(st, r.source);
  }

  /**
   * Update after Read: when nothing changed remotely since a Read, the record
   * Update sends is the stored one, so the update leaves the API as it was.
   */
  lemma UpdateAfterReadChangesNothing(s: Store, collector: GoInt, id: string, st: State)
    requires ValidStore(s) && (collector, Atoi(id)) in s.sources
    requires s.sources[(collector, Atoi(id))].source.sourceType == CloudSyslogType
    requires UpdateSource !in s.faults
    ensures var body := ResourceToCloudSyslogSource(id, ReadState(st, s.sources[(collector, Atoi(id))]));
      && body == s.sources[(collector, Atoi(id))].source
      && UpdateResponse(s, collector, body).None?
      && Updated(s, collector, body) == s
  {
    var r := s.sources[(collector, Atoi(id))];
    ReadStateMirrorsRemote(id, st, r);
    var body := ResourceToCloudSyslogSource(id, ReadState(st, r));
    assert body == r.source;
    assert s.sources[(collector, body.id) := CloudSyslogSource(body, r.token)] == s.sources;
  }

  /**
   * A successful create is found by the Read that follows it (unless the get
   * itself fails): the id stays the new one and the state takes the stored
   * record and the issued token, so it describes the record that was sent.
   */
  lemma CreatedSourceIsRead(s: Store, collector: GoInt, st0: State, err: Option<Error>, id1: string, st1: State)
    requires ValidStore(s) && CreateResponse(s).Success? && GetSource !in s.faults
    requires var newId := CreateResponse(s).value;
      ReadEffect(FetchResponse(Created(s, collector, ResourceToCloudSyslogSource("", st0)), collector, newId),
                 Itoa(newId), st0, err, id1, st1)
    ensures var newId := CreateResponse(s).value;
      && err == None && id1 == Itoa(newId)
      && GetString(st1, Token) == s.nextToken
      && ResourceToSource(id1, st1) == ResourceToSource("", st0).(id := newId)
  {
    var newId := CreateResponse(s).value;
    var body := ResourceToCloudSyslogSource("", st0);
    CreatedAddsOne(s, collector, body);
    var r := CloudSyslogSource(body.(id := newId), s.nextToken);
    ReadStateMirrorsRemote(Itoa(newId), st0, r);
    AtoiItoa(newId);
  }

  /** A successful delete is followed by a Read that clears the id and changes nothing else. */
  lemma DeletedSourceIsForgotten(s: Store, collector: GoInt, source: GoInt, id0: string, st0: State,
                                 err: Option<Error>, id1: string, st1: State)
    requires ValidStore(s) && DeleteResponse(s, collector, source).None? && GetSource !in s.faults
    requires ReadEffect(FetchResponse(Deleted(s, collector, source), collector, source), id0, st0, err, id1, st1)
    ensures err == None && id1 == "" && st1 == st0
  {
    DeletedRemovesOne(s, collector, source);
  }

  /** What Create's optional lookup yields; no lookup counts as no match. */
  function LookupOutcome(s: Store, st: State): (r: Result<Option<Source>>)
    ensures !GetBool(st, LookupByName) ==> r == Success(None)
    ensures r.Success? && r.value.Some? ==> r.value.value.name == GetString(st, Name)
  {
    if GetBool(st, LookupByName) then SourceNamed(s, GetInt(st, CollectorId), GetString(st, Name))
    else Success(None)
  }

  /** The requests the optional lookup makes. */
  function LookupCalls(st: State): seq<Call>
  {
    if GetBool(st, LookupByName) then [HttpGet(CollectionPath(GetInt(st, CollectorId)))] else []
  }

  /** The resource id after the lookup: the matched source's id, or the one it had. */
  function AdoptedId(id: string, found: Option<Source>): (adopted: string)
    ensures found.Some? ==> Atoi(adopted) == found.value.id
    ensures found.None? ==> adopted == id
  {
    if found.Some? then AtoiItoa(found.value.id); Itoa(found.value.id) else id
  }

  /** One cloud-syslog source resource: `d.Id()` and the keys `d.Get` and `d.Set` work on. */
  class Resource {
    var id: string
    var state: State

    ghost predicate Valid()
      reads this
    {
      WellTyped(state)
    }

    /** A resource about to be created: no id yet, the configuration with the schema defaults. */
    constructor (config: State)
      requires ValidConfig(config)
      ensures Valid() && id == "" && state == WithDefaults(config)
    {
      id := "";
      state := WithDefaults(config);
    }

    /** `resourceSumologicSourceRead(d, source)`: the fourteen `d.Set` calls. */
    method WriteBack(src: Source)
      requires Valid()
      modifies this
      ensures Valid()
      ensures id == old(id) && state == WrittenBack(old(state), src)
    {
      WriteBackWellTyped(state, src);
      state := WrittenBack(state, src);
    }

    /** `getDefaultDateFormats(d)`: one rule per configured block, appended in order. */
    method GetDefaultDateFormats() returns (formats: seq<DefaultDateFormat>)
      ensures |formats| == |GetBlocks(state, DefaultDateFormats)|
      ensures forall i :: 0 <= i < |formats| ==>
        formats[i] == DateFormatFromBlock(GetBlocks(state, DefaultDateFormats)[i])
      ensures formats == ResourceToSource(id, state).defaultDateFormats
    {
      var blocks := GetBlocks(state, DefaultDateFormats);
      formats := [];
      var i := 0;
      while i < |blocks|
        invariant 0 <= i <= |blocks|
        invariant |formats| == i
        invariant forall j :: 0 <= j < i ==> formats[j] == DateFormatFromBlock(blocks[j])
      {
        formats := formats + [DateFormatFromBlock(blocks[i])];
        i := i + 1;
      }
      DateFormatsFromBlocksAt(blocks);
    }

    /** `getFilters(d)`: one filter per configured block, appended in order. */
    method GetFilters() returns (filters: seq<Filter>)
      ensures |filters| == |GetBlocks(state, Filters)|
      ensures forall i :: 0 <= i < |filters| ==> filters[i] == FilterFromBlock(GetBlocks(state, Filters)[i])
      ensures filters == ResourceToSource(id, state).filters
    {
      var blocks := GetBlocks(state, Filters);
      filters := [];
      var i := 0;
      while i < |blocks|
        invariant 0 <= i <= |blocks|
        invariant |filters| == i
        invariant forall j :: 0 <= j < i ==> filters[j] == FilterFromBlock(blocks[j])
      {
        filters := filters + [FilterFromBlock(blocks[i])];
        i := i + 1;
      }
      FiltersFromBlocksAt(blocks);
    }

    /**
     * `resourceSumologicSourceImport`: the id must be `collector/source`; the
     * second part becomes the id and the parsed first part `collector_id`.
     */
    method Import() returns (err: Option<Error>)
      requires Valid()
      modifies this
      ensures Valid()
      ensures ParseImportId(old(id)).Failure? ==>
        err == Some(ImportFormat(old(id))) && id == old(id) && state == old(state)
      ensures ParseImportId(old(id)).Success? ==>
        && err == None
        && id == ParseImportId(old(id)).value.1
        && state == old(state)[CollectorId := Int(ParseImportId(old(id)).value.0)]
    {
      var ids := Split(id, '/');
      if |ids| != 2 {
        return Some(ImportFormat(id));
      }
      id := ids[1];
      var collectorID := Atoi(ids[0]);
      state := state[CollectorId := Int(collectorID)];
      return None;
    }

    /**
     * `resourceSumologicSourceDelete`: nothing when `destroy` is off; otherwise
     * one delete of this source (source id first, collector id second).
     */
    method Delete(c: Client) returns (err: Option<Error>)
      requires Valid() && c.Valid()
      modifies c
      ensures c.Valid()
      ensures !GetBool(state, Destroy) ==> err == None && c.calls == old(c.calls) && c.data == old(c.data)
      ensures GetBool(state, Destroy) ==>
        var collector, source := GetInt(state, CollectorId), Atoi(id);
        && c.calls == old(c.calls) + [HttpDelete(SourcePath(collector, source))]
        && err == DeleteResponse(old(c.data), collector, source)
        && c.data == if err.None? then Deleted(old(c.data), collector, source) else old(c.data)
    {
      if GetBool(state, Destroy) {
        var sourceID := Atoi(id);
        var collectorID := GetInt(state, CollectorId);
        err := c.DestroySource(sourceID, collectorID);
        return;
      }
      return None;
    }

    /**
     * `resourceSumologicCloudSyslogSourceRead`: fetch the source; an error
     * changes nothing, a missing source clears the id, a found one is written
     * back together with its token.
     */
    method Read(c: Client) returns (err: Option<Error>)
      requires Valid() && c.Valid()
      modifies this, c
      ensures Valid() && c.Valid()
      ensures c.data == old(c.data)
      ensures c.calls == old(c.calls) + [HttpGet(SourcePath(GetInt(old(state), CollectorId), Atoi(old(id))))]
      ensures ReadEffect(FetchResponse(old(c.data), GetInt(old(state), CollectorId), Atoi(old(id))),
                         old(id), old(state), err, id, state)
    {
      var sourceID := Atoi(id);
      var response := c.GetCloudSyslogSource(GetInt(state, CollectorId), sourceID);
      match response
      case Failure(e) =>
        err := Some(e);
      case Success(None) =>
        id := "";
        err := None;
      case Success(Some(found)) =>
        ReadStateWellTyped(state, found);
        WriteBack(found.source);
        state := state[Token := Str(found.token)];
        err := None;
    }

    /**
     * `resourceSumologicCloudSyslogSourceCreate`: with `lookup_by_name`, adopt
     * the first source of that name; if there is still no id, create one; then Read.
     */
    method Create(c: Client) returns (err: Option<Error>)
      requires Valid() && c.Valid()
      modifies this, c
      ensures Valid() && c.Valid()
      ensures var lookup := LookupOutcome(old(c.data), old(state));
        lookup.Failure? ==>
          && err == Some(lookup.error) && id == old(id) && state == old(state)
          && c.data == old(c.data) && c.calls == old(c.calls) + LookupCalls(old(state))
      ensures var lookup := LookupOutcome(old(c.data), old(state));
        var collector := GetInt(old(state), CollectorId);
        lookup.Success? && AdoptedId(old(id), lookup.value) != "" ==>
          var adopted := AdoptedId(old(id), lookup.value);
          && c.data == old(c.data)
          && c.calls == old(c.calls) + LookupCalls(old(state)) + [HttpGet(SourcePath(collector, Atoi(adopted)))]
          && ReadEffect(FetchResponse(old(c.data), collector, Atoi(adopted)), adopted, old(state), err, id, state)
      ensures var lookup := LookupOutcome(old(c.data), old(state));
        var collector := GetInt(old(state), CollectorId);
        var body := ResourceToCloudSyslogSource("", old(state));
        var created := CreateResponse(old(c.data));
        lookup.Success? && AdoptedId(old(id), lookup.value) == "" ==>
          && (created.Failure? ==>
                && err == Some(created.error) && id == "" && state == old(state) && c.data == old(c.data)
                && c.calls == old(c.calls) + LookupCalls(old(state)) + [HttpPost(CollectionPath(collector), body)])
          && (created.Success? ==>
                && c.data == Created(old(c.data), collector, body)
                && c.calls == old(c.calls) + LookupCalls(old(state))
                     + [HttpPost(CollectionPath(collector), body), HttpGet(SourcePath(collector, created.value))]
                && ReadEffect(FetchResponse(c.data, collector, created.value), Itoa(created.value),
                              old(state), err, id, state))
    {
      err := AdoptByName(c);
      if err.Some? {
        return;
      }
      if id == "" {
        var source := ResourceToCloudSyslogSource(id, state);
        var created := c.CreateCloudsyslogSource(source, GetInt(state, CollectorId));
        if created.Failure? {
          return Some(created.error);
        }
        id := Itoa(created.value);
        AtoiItoa(created.value);
      }
      err := Read(c);
    }

    /** The first step of Create: with `lookup_by_name`, take the id of the first source of that name. */
    method AdoptByName(c: Client) returns (err: Option<Error>)
      requires Valid() && c.Valid()
      modifies this, c
      ensures Valid() && c.Valid()
      ensures state == old(state) && c.data == old(c.data)
      ensures c.calls == old(c.calls) + LookupCalls(old(state))
      ensures var lookup := LookupOutcome(old(c.data), old(state));
        && (lookup.Failure? ==> err == Some(lookup.error) && id == old(id))
        && (lookup.Success? ==> err == None && id == AdoptedId(old(id), lookup.value))
    {
      if GetBool(state, LookupByName) {
        var lookup := c.GetSourceName(GetInt(state, CollectorId), GetString(state, Name));
        if lookup.Failure? {
          return Some(lookup.error);
        }
        if lookup.value.Some? {
          id := Itoa(lookup.value.value.id);
        }
      }
      return None;
    }

    /**
     * `resourceSumologicCloudSyslogSourceUpdate`: send the whole local record,
     * typed `Cloudsyslog`; on success, Read.
     */
    method Update(c: Client) returns (err: Option<Error>)
      requires Valid() && c.Valid()
      modifies this, c
      ensures Valid() && c.Valid()
      ensures var collector := GetInt(old(state), CollectorId);
        var body := ResourceToCloudSyslogSource(old(id), old(state));
        var result := UpdateResponse(old(c.data), collector, body);
        && (result.Some? ==>
              && err == result && id == old(id) && state == old(state) && c.data == old(c.data)
              && c.calls == old(c.calls) + [HttpPut(SourcePath(collector, body.id), body)])
        && (result.None? ==>
              && c.data == Updated(old(c.data), collector, body)
              && c.calls == old(c.calls) + [HttpPut(SourcePath(collector, body.id), body),
                                             HttpGet(SourcePath(collector, body.id))]
              && ReadEffect(FetchResponse(c.data, collector, body.id), old(id), old(state), err, id, state))
    {
      var source := ResourceToCloudSyslogSource(id, state);
      err := c.UpdateCloudSyslogSource(source, GetInt(state, CollectorId));
      if err.Some? {
        return;
      }
      err := Read(c);
    }
  }
}
