/**
 * The shared part of every SumoLogic source resource: the `Source` record sent
 * to and received from the REST API, the Terraform resource state it is mapped
 * from and back to, the schema's kinds and defaults, and the import identifier.
 */
module Sources {
  import opened Outcomes
  import opened Text

  /** One custom date-parsing rule; rules are tried in order. */
  datatype DefaultDateFormat = DefaultDateFormat(format: string, locator: string)

  /** One processing rule applied to ingested lines; rules apply in order. */
  datatype Filter = Filter(name: string, filterType: string, regexp: string, mask: string)

  /** The API's source object (`Source` in the Go code), field for field. */
  datatype Source = Source(
    id: GoInt,
    sourceType: string,
    name: string,
    description: string,
    category: string,
    hostName: string,
    timeZone: string,
    automaticDateParsing: bool,
    multilineProcessingEnabled: bool,
    useAutolineMatching: bool,
    manualPrefixRegexp: string,
    forceTimeZone: bool,
    defaultDateFormats: seq<DefaultDateFormat>,
    filters: seq<Filter>,
    cutoffTimestamp: GoInt,
    cutoffRelativeTime: string)

  /** The discriminator a cloud-syslog source is sent with. */
  const CloudSyslogType: string := "Cloudsyslog"

  // ----- resource state -----

  /** A top-level key of the resource schema; the schema key is given beside each. */
  datatype Field =
    | Name                        // "name"
    | Description                 // "description"
    | Category                    // "category"
    | HostName                    // "host_name"
    | TimeZone                    // "timezone"
    | AutomaticDateParsing        // "automatic_date_parsing"
    | MultilineProcessingEnabled  // "multiline_processing_enabled"
    | UseAutolineMatching         // "use_autoline_matching"
    | ManualPrefixRegexp          // "manual_prefix_regexp"
    | ForceTimeZone               // "force_timezone"
    | DefaultDateFormats          // "default_date_formats"
    | Filters                     // "filters"
    | CutoffTimestamp             // "cutoff_timestamp"
    | CutoffRelativeTime          // "cutoff_relative_time"
    | CollectorId                 // "collector_id"
    | LookupByName                // "lookup_by_name"
    | Destroy                     // "destroy"
    | Token                       // "token" (cloud-syslog only, computed)

  /** A key of a nested block: date formats use the first two, filters the last four. */
  datatype Attr =
    | Format      // "format"
    | Locator     // "locator"
    | FilterName  // "name"
    | FilterType  // "filter_type"
    | Regexp      // "regexp"
    | Mask        // "mask"

  type Block = map<Attr, string>

  /** A value held in resource state. */
  datatype Value = Str(s: string) | Int(i: GoInt) | Bool(b: bool) | Blocks(items: seq<Block>)

  /** The resource state: what `d.Get` reads and `d.Set` writes. */
  type State = map<Field, Value>

  datatype Kind = StringKind | IntKind | BoolKind | ListKind(attrs: set<Attr>)

  const DateFormatAttrs: set<Attr> := {Format, Locator}
  const FilterAttrs: set<Attr> := {FilterName, FilterType, Regexp, Mask}

  /** The schema type of each key. */
  function KindOf(f: Field): Kind
  {
    match f
    case Name | Description | Category | HostName | TimeZone | ManualPrefixRegexp
      | CutoffRelativeTime | Token => StringKind
    case AutomaticDateParsing | MultilineProcessingEnabled | UseAutolineMatching
      | ForceTimeZone | LookupByName | Destroy => BoolKind
    case CutoffTimestamp | CollectorId => IntKind
    case DefaultDateFormats => ListKind(DateFormatAttrs)
    case Filters => ListKind(FilterAttrs)
  }

  predicate HasKind(v: Value, k: Kind)
  {
    match k
    case StringKind => v.Str?
    case IntKind => v.Int?
    case BoolKind => v.Bool?
    case ListKind(attrs) => v.Blocks? && forall i :: 0 <= i < |v.items| ==> v.items[i].Keys == attrs
  }

  /** Every key holds a value of its schema type; nested blocks carry exactly their attributes. */
  predicate WellTyped(st: State)
  {
    forall f :: f in st ==> HasKind(st[f], KindOf(f))
  }

  /** The schema default of a key, if it declares one. */
  function Default(f: Field): (d: Option<Value>)
    ensures d.Some? ==> HasKind(d.value, KindOf(f))
    ensures d.Some? ==> !(f.Name? || f.CollectorId? || f.Token? || f.DefaultDateFormats? || f.Filters?)
  {
    match f
    case Description | Category | HostName => Some(Str(""))
    case TimeZone => Some(Str("Etc/UTC"))
    case AutomaticDateParsing | MultilineProcessingEnabled | UseAutolineMatching => Some(Bool(true))
    case ForceTimeZone | LookupByName => Some(Bool(false))
    case Destroy => Some(Bool(true))
    case CutoffTimestamp => Some(Int(0))
    case _ => None
  }

  /** The filter types the schema accepts; the comparison is exact, so case matters. */
  const FilterTypes: seq<string> := ["Exclude", "Include", "Hash", "Mask", "Forward"]

  predicate ValidFilterType(t: string)
    ensures |t| > 0 && 'a' <= t[0] <= 'z' ==> !ValidFilterType(t)
  {
    t in FilterTypes
  }

  /**
   * A configuration the schema accepts: well typed, the required `name` and
   * `collector_id` present, the computed `token` absent, and every filter's
   * type one of the five.
   */
  predicate ValidConfig(config: State)
    ensures ValidConfig(config) ==>
      forall b :: b in GetBlocks(config, Filters) ==> ValidFilterType(FilterFromBlock(b).filterType)
  {
    && WellTyped(config)
    && Name in config && CollectorId in config && Token !in config
    && (Filters in config ==>
          forall i :: 0 <= i < |config[Filters].items| ==>
            ValidFilterType(config[Filters].items[i][FilterType]))
  }

  /** The state a configuration yields once the schema defaults fill the keys it leaves unset. */
  function WithDefaults(config: State): (st: State)
    ensures WellTyped(config) ==> WellTyped(st)
    ensures forall f :: f in config ==> f in st && st[f] == config[f]
  {
    map f: Field | f in config || Default(f).Some? ::
      if f in config then config[f] else Default(f).value
  }

  // ----- reading state: d.Get -----

  /** `d.Get(key).(string)`: the zero value "" when the key is unset. */
  function GetString(st: State, f: Field): string
  {
    if f in st && st[f].Str? then st[f].s else ""
  }

  function GetBool(st: State, f: Field): bool
  {
    f in st && st[f].Bool? && st[f].b
  }

  function GetInt(st: State, f: Field): GoInt
  {
    if f in st && st[f].Int? then st[f].i else 0
  }

  function GetBlocks(st: State, f: Field): seq<Block>
  {
    if f in st && st[f].Blocks? then st[f].items else []
  }

  /** `config[attr].(string)` on one nested block. */
  function AttrValue(b: Block, a: Attr): string
  {
    if a in b then b[a] else ""
  }

  /** The schema defaults are what `d.Get` reads for a key the configuration leaves out. */
  lemma DefaultsApplied(config: State)
    requires TimeZone !in config && AutomaticDateParsing !in config
    requires MultilineProcessingEnabled !in config && UseAutolineMatching !in config
    requires ForceTimeZone !in config && LookupByName !in config && Destroy !in config
    ensures var st := WithDefaults(config);
      && GetString(st, TimeZone) == "Etc/UTC"
      && GetBool(st, AutomaticDateParsing) && GetBool(st, MultilineProcessingEnabled)
      && GetBool(st, UseAutolineMatching)
      && !GetBool(st, ForceTimeZone) && !GetBool(st, LookupByName)
      && GetBool(st, Destroy)
  {
    DefaultAt(config, TimeZone);
    DefaultAt(config, AutomaticDateParsing);
    DefaultAt(config, MultilineProcessingEnabled);
    DefaultAt(config, UseAutolineMatching);
    DefaultAt(config, ForceTimeZone);
    DefaultAt(config, LookupByName);
    DefaultAt(config, Destroy);
  }

  /** An unset key with a default holds that default. */
  lemma DefaultAt(config: State, f: Field)
    requires f !in config && Default(f).Some?
    ensures f in WithDefaults(config) && WithDefaults(config)[f] == Default(f).value
  {
  }

  /** Filter types are matched exactly: the lower-case spelling is refused. */
  lemma FilterTypeIsCaseSensitive()
    ensures ValidFilterType("Exclude") && !ValidFilterType("exclude")
    ensures ValidFilterType("Forward") && !ValidFilterType("FORWARD")
  {
  }

  // ----- nested blocks <-> records -----

  function DateFormatFromBlock(b: Block): (d: DefaultDateFormat)
    ensures b.Keys == DateFormatAttrs ==> DateFormatToBlock(d) == b
  {
    DefaultDateFormat(AttrValue(b, Format), AttrValue(b, Locator))
  }

  function DateFormatToBlock(d: DefaultDateFormat): (b: Block)
    ensures b.Keys == DateFormatAttrs
  {
    map[Format := d.format, Locator := d.locator]
  }

  function FilterFromBlock(b: Block): (f: Filter)
    ensures b.Keys == FilterAttrs ==> FilterToBlock(f) == b
  {
    Filter(AttrValue(b, FilterName), AttrValue(b, FilterType), AttrValue(b, Regexp), AttrValue(b, Mask))
  }

  function FilterToBlock(f: Filter): (b: Block)
    ensures b.Keys == FilterAttrs
  {
    map[FilterName := f.name, FilterType := f.filterType, Regexp := f.regexp, Mask := f.mask]
  }

  /** The list `getDefaultDateFormats` builds by appending one rule per block. */
  function DateFormatsFromBlocks(bs: seq<Block>): (ds: seq<DefaultDateFormat>)
    ensures |ds| == |bs|
  {
    if |bs| == 0 then [] else [DateFormatFromBlock(bs[0])] + DateFormatsFromBlocks(bs[1..])
  }

  /** The list `getFilters` builds by appending one filter per block. */
  function FiltersFromBlocks(bs: seq<Block>): (fs: seq<Filter>)
    ensures |fs| == |bs|
  {
    if |bs| == 0 then [] else [FilterFromBlock(bs[0])] + FiltersFromBlocks(bs[1..])
  }

  /** The blocks `d.Set("default_date_formats", ...)` stores. */
  function DateFormatsToBlocks(ds: seq<DefaultDateFormat>): (bs: seq<Block>)
    ensures |bs| == |ds|
    ensures forall i :: 0 <= i < |bs| ==> bs[i].Keys == DateFormatAttrs
  {
    if |ds| == 0 then [] else [DateFormatToBlock(ds[0])] + DateFormatsToBlocks(ds[1..])
  }

  /** The blocks `d.Set("filters", ...)` stores. */
  function FiltersToBlocks(fs: seq<Filter>): (bs: seq<Block>)
    ensures |bs| == |fs|
    ensures forall i :: 0 <= i < |bs| ==> bs[i].Keys == FilterAttrs
  {
    if |fs| == 0 then [] else [FilterToBlock(fs[0])] + FiltersToBlocks(fs[1..])
  }

  /** Date formats keep the length and order of the blocks; rule i is built from block i. */
  lemma {:induction false} DateFormatsFromBlocksAt(bs: seq<Block>)
    ensures |DateFormatsFromBlocks(bs)| == |bs|
    ensures forall i :: 0 <= i < |bs| ==> DateFormatsFromBlocks(bs)[i] == DateFormatFromBlock(bs[i])
  {
    if |bs| > 0 {
      DateFormatsFromBlocksAt(bs[1..]);
    }
  }

  /** Filters keep the length and order of the blocks; filter i is built from block i. */
  lemma {:induction false} FiltersFromBlocksAt(bs: seq<Block>)
    ensures |FiltersFromBlocks(bs)| == |bs|
    ensures forall i :: 0 <= i < |bs| ==> FiltersFromBlocks(bs)[i] == FilterFromBlock(bs[i])
  {
    if |bs| > 0 {
      FiltersFromBlocksAt(bs[1..]);
    }
  }

  lemma {:induction false} DateFormatsRoundTrip(ds: seq<DefaultDateFormat>)
    ensures DateFormatsFromBlocks(DateFormatsToBlocks(ds)) == ds
  {
    if |ds| > 0 {
      DateFormatsRoundTrip(ds[1..]);
      assert DateFormatsToBlocks(ds)[1..] == DateFormatsToBlocks(ds[1..]);
    }
  }

  lemma {:induction false} FiltersRoundTrip(fs: seq<Filter>)
    ensures FiltersFromBlocks(FiltersToBlocks(fs)) == fs
  {
    if |fs| > 0 {
      FiltersRoundTrip(fs[1..]);
      assert FiltersToBlocks(fs)[1..] == FiltersToBlocks(fs[1..]);
    }
  }

  lemma {:induction false} DateFormatBlocksRoundTrip(bs: seq<Block>)
    requires forall i :: 0 <= i < |bs| ==> bs[i].Keys == DateFormatAttrs
    ensures DateFormatsToBlocks(DateFormatsFromBlocks(bs)) == bs
  {
    if |bs| > 0 {
      DateFormatBlocksRoundTrip(bs[1..]);
      assert DateFormatToBlock(DateFormatFromBlock(bs[0])) == bs[0];
      assert [bs[0]] + bs[1..] == bs;
    }
  }

  lemma {:induction false} FilterBlocksRoundTrip(bs: seq<Block>)
    requires forall i :: 0 <= i < |bs| ==> bs[i].Keys == FilterAttrs
    ensures FiltersToBlocks(FiltersFromBlocks(bs)) == bs
  {
    if |bs| > 0 {
      FilterBlocksRoundTrip(bs[1..]);
      assert FilterToBlock(FilterFromBlock(bs[0])) == bs[0];
      assert [bs[0]] + bs[1..] == bs;
    }
  }

  // ----- state -> Source: resourceToSource -----

  /**
   * `resourceToSource`: the record the state describes. The id is the integer
   * parse of the resource id (0 if it does not parse); the type is left empty.
   */
  function ResourceToSource(id: string, st: State): (src: Source)
    ensures |src.defaultDateFormats| == |GetBlocks(st, DefaultDateFormats)|
    ensures |src.filters| == |GetBlocks(st, Filters)|
  {
    DateFormatsFromBlocksAt(GetBlocks(st, DefaultDateFormats));
    FiltersFromBlocksAt(GetBlocks(st, Filters));
    Source(
      Atoi(id), "",
      GetString(st, Name), GetString(st, Description), GetString(st, Category),
      GetString(st, HostName), GetString(st, TimeZone),
      GetBool(st, AutomaticDateParsing), GetBool(st, MultilineProcessingEnabled),
      GetBool(st, UseAutolineMatching), GetString(st, ManualPrefixRegexp),
      GetBool(st, ForceTimeZone),
      DateFormatsFromBlocks(GetBlocks(st, DefaultDateFormats)),
      FiltersFromBlocks(GetBlocks(st, Filters)),
      GetInt(st, CutoffTimestamp), GetString(st, CutoffRelativeTime))
  }

  /** `resourceToCloudSyslogSource`: the shared record, typed as a cloud-syslog source. */
  function ResourceToCloudSyslogSource(id: string, st: State): (src: Source)
    ensures src.sourceType == CloudSyslogType
    ensures src.(sourceType := "") == ResourceToSource(id, st)
  {
    ResourceToSource(id, st).(sourceType := CloudSyslogType)
  }

  // ----- Source -> state: resourceSumologicSourceRead -----

  /** The fourteen keys the write-back sets: all but the id-like and control keys. */
  predicate WrittenByRead(f: Field)
  {
    !(f.CollectorId? || f.LookupByName? || f.Destroy? || f.Token?)
  }

  const WriteBackFields: set<Field> := set f: Field | WrittenByRead(f)

  /** The state holds every key the write-back sets. */
  predicate HasWriteBackKeys(st: State)
  {
    && Name in st && Description in st && Category in st && HostName in st && TimeZone in st
    && AutomaticDateParsing in st && MultilineProcessingEnabled in st && UseAutolineMatching in st
    && ManualPrefixRegexp in st && ForceTimeZone in st && DefaultDateFormats in st && Filters in st
    && CutoffTimestamp in st && CutoffRelativeTime in st
  }

  /** The value `resourceSumologicSourceRead` sets for key `f`, if it sets one. */
  function SetByRead(f: Field, src: Source): (v: Option<Value>)
    ensures v.Some? <==> WrittenByRead(f)
    ensures v.Some? ==> HasKind(v.value, KindOf(f))
  {
    match f
    case Name => Some(Str(src.name))
    case Description => Some(Str(src.description))
    case Category => Some(Str(src.category))
    case HostName => Some(Str(src.hostName))
    case TimeZone => Some(Str(src.timeZone))
    case AutomaticDateParsing => Some(Bool(src.automaticDateParsing))
    case MultilineProcessingEnabled => Some(Bool(src.multilineProcessingEnabled))
    case UseAutolineMatching => Some(Bool(src.useAutolineMatching))
    case ManualPrefixRegexp => Some(Str(src.manualPrefixRegexp))
    case ForceTimeZone => Some(Bool(src.forceTimeZone))
    case DefaultDateFormats => Some(Blocks(DateFormatsToBlocks(src.defaultDateFormats)))
    case Filters => Some(Blocks(FiltersToBlocks(src.filters)))
    case CutoffTimestamp => Some(Int(src.cutoffTimestamp))
    case CutoffRelativeTime => Some(Str(src.cutoffRelativeTime))
    case CollectorId | LookupByName | Destroy | Token => None
  }

  /** The state after `resourceSumologicSourceRead(d, src)`: one `d.Set` per key it sets. */
  function WrittenBack(st: State, src: Source): (wb: State)
    ensures wb.Keys == st.Keys + WriteBackFields
  {
    map f: Field | f in st || SetByRead(f, src).Some? ::
      if SetByRead(f, src).Some? then SetByRead(f, src).value else st[f]
  }

  /**
   * The write-back sets exactly fourteen keys and leaves every other key,
   * among them `collector_id`, `lookup_by_name`, `destroy` and `token`, as it was.
   */
  lemma WriteBackScope(st: State, src: Source)
    ensures WrittenBack(st, src).Keys == st.Keys + WriteBackFields
    ensures forall f :: f in st && f !in WriteBackFields ==> WrittenBack(st, src)[f] == st[f]
    ensures CollectorId !in WriteBackFields && LookupByName !in WriteBackFields
    ensures Destroy !in WriteBackFields && Token !in WriteBackFields
  {
  }

  /** The keys the write-back sets are the fourteen of `resourceSumologicSourceRead`. */
  lemma WriteBackFieldsListed()
    ensures WriteBackFields == {Name, Description, Category, HostName, TimeZone, AutomaticDateParsing,
      MultilineProcessingEnabled, UseAutolineMatching, ManualPrefixRegexp, ForceTimeZone,
      DefaultDateFormats, Filters, CutoffTimestamp, CutoffRelativeTime}
  {
    var listed := {Name, Description, Category, HostName, TimeZone, AutomaticDateParsing,
      MultilineProcessingEnabled, UseAutolineMatching, ManualPrefixRegexp, ForceTimeZone,
      DefaultDateFormats, Filters, CutoffTimestamp, CutoffRelativeTime};
    forall f
      ensures f in WriteBackFields <==> f in listed
    {
      match f
      case CollectorId | LookupByName | Destroy | Token =>
      case _ =>
    }
  }

  /** The write-back keeps the state well typed. */
  lemma WriteBackWellTyped(st: State, src: Source)
    requires WellTyped(st)
    ensures WellTyped(WrittenBack(st, src))
  {
  }

  /**
   * Writing a source back and reading it again gives the same record, except
   * the id (taken from the resource id) and the type (left empty).
   */
  lemma ReadBackRoundTrip(id: string, st: State, src: Source)
    ensures ResourceToSource(id, WrittenBack(st, src)) == src.(id := Atoi(id), sourceType := "")
  {
    ReadBackText(st, src);
    ReadBackSettings(st, src);
    ReadBackValues(st, src);
    DateFormatsRoundTrip(src.defaultDateFormats);
    FiltersRoundTrip(src.filters);
  }

  lemma ReadBackText(st: State, src: Source)
    ensures var wb := WrittenBack(st, src);
      && GetString(wb, Name) == src.name && GetString(wb, Description) == src.description
      && GetString(wb, Category) == src.category && GetString(wb, HostName) == src.hostName
      && GetString(wb, TimeZone) == src.timeZone
      && GetString(wb, ManualPrefixRegexp) == src.manualPrefixRegexp
      && GetString(wb, CutoffRelativeTime) == src.cutoffRelativeTime
  {
    WrittenBackAt(st, src, Name);
    WrittenBackAt(st, src, Description);
    WrittenBackAt(st, src, Category);
    WrittenBackAt(st, src, HostName);
    WrittenBackAt(st, src, TimeZone);
    WrittenBackAt(st, src, ManualPrefixRegexp);
    WrittenBackAt(st, src, CutoffRelativeTime);
  }

  lemma ReadBackSettings(st: State, src: Source)
    ensures var wb := WrittenBack(st, src);
      && GetBool(wb, AutomaticDateParsing) == src.automaticDateParsing
      && GetBool(wb, MultilineProcessingEnabled) == src.multilineProcessingEnabled
      && GetBool(wb, UseAutolineMatching) == src.useAutolineMatching
      && GetBool(wb, ForceTimeZone) == src.forceTimeZone
  {
    WrittenBackAt(st, src, AutomaticDateParsing);
    WrittenBackAt(st, src, MultilineProcessingEnabled);
    WrittenBackAt(st, src, UseAutolineMatching);
    WrittenBackAt(st, src, ForceTimeZone);
  }

  lemma ReadBackValues(st: State, src: Source)
    ensures var wb := WrittenBack(st, src);
      && GetInt(wb, CutoffTimestamp) == src.cutoffTimestamp
      && GetBlocks(wb, DefaultDateFormats) == DateFormatsToBlocks(src.defaultDateFormats)
      && GetBlocks(wb, Filters) == FiltersToBlocks(src.filters)
  {
    WrittenBackAt(st, src, CutoffTimestamp);
    WrittenBackAt(st, src, DefaultDateFormats);
    WrittenBackAt(st, src, Filters);
  }

  /** A key the write-back sets holds the value it sets. */
  lemma WrittenBackAt(st: State, src: Source, f: Field)
    requires WrittenByRead(f)
    ensures f in WrittenBack(st, src) && WrittenBack(st, src)[f] == SetByRead(f, src).value
  {
  }

  /**
   * The other direction: writing back the record a well-typed state describes
   * leaves that state unchanged.
   */
  lemma WriteBackOfOwnSource(id: string, st: State)
    requires WellTyped(st) && HasWriteBackKeys(st)
    ensures WrittenBack(st, ResourceToSource(id, st)) == st
  {
    var src := ResourceToSource(id, st);
    forall f | f in st && WrittenByRead(f)
      ensures SetByRead(f, src) == Some(st[f])
    {
      OwnValueWrittenBack(id, st, f);
    }
    WriteBackOfHeldValues(st, src);
  }

  /** A write-back that only sets keys to the values they hold changes nothing. */
  lemma WriteBackOfHeldValues(st: State, src: Source)
    requires HasWriteBackKeys(st)
    requires forall f :: f in st && WrittenByRead(f) ==> SetByRead(f, src) == Some(st[f])
    ensures WrittenBack(st, src) == st
  {
    WriteBackKeepsKeys(st, src);
  }

  lemma WriteBackKeepsKeys(st: State, src: Source)
    requires HasWriteBackKeys(st)
    ensures WrittenBack(st, src).Keys == st.Keys
  {
    forall f | f in WriteBackFields
      ensures f in st
    {
    }
    assert st.Keys + WriteBackFields == st.Keys;
  }

  /** The write-back reads neither the id nor the type of the record. */
  lemma WriteBackIgnoresIdAndType(st: State, src: Source, id: GoInt, sourceType: string)
    ensures WrittenBack(st, src.(id := id, sourceType := sourceType)) == WrittenBack(st, src)
  {
  }

  /** Each key the write-back sets receives the value the state already held. */
  lemma OwnValueWrittenBack(id: string, st: State, f: Field)
    requires f in st && HasKind(st[f], KindOf(f)) && WrittenByRead(f)
    ensures SetByRead(f, ResourceToSource(id, st)) == Some(st[f])
  {
    if f == DefaultDateFormats {
      DateFormatBlocksRoundTrip(st[f].items);
    } else if f == Filters {
      FilterBlocksRoundTrip(st[f].items);
    }
  }

  // ----- import identifier: resourceSumologicSourceImport -----

  /**
   * The import identifier `collector_id/source_id`: the integer parse of the
   * first part (0 if it does not parse) and the second part as the new id.
   */
  function ParseImportId(s: string): (r: Result<(GoInt, string)>)
    ensures r.Failure? ==> r.error == ImportFormat(s)
    ensures r.Success? ==> '/' !in r.value.1
  {
    var parts := Split(s, '/');
    SplitShape(s, '/');
    if |parts| != 2 then Failure(ImportFormat(s))
    else Success((Atoi(parts[0]), parts[1]))
  }

  /** Import succeeds iff the identifier holds exactly one slash. */
  lemma ImportArity(s: string)
    ensures ParseImportId(s).Success? <==> Count(s, '/') == 1
    ensures ParseImportId(s).Failure? ==> ParseImportId(s).error == ImportFormat(s)
  {
    SplitShape(s, '/');
  }

  /** On success the identifier is the first part, a slash, and the new resource id. */
  lemma ImportParts(s: string)
    requires ParseImportId(s).Success?
    ensures exists first ::
      s == first + "/" + ParseImportId(s).value.1 && Atoi(first) == ParseImportId(s).value.0
    ensures '/' !in ParseImportId(s).value.1
  {
    SplitShape(s, '/');
    SplitInTwo(s, '/');
    var parts := Split(s, '/');
    assert s == parts[0] + "/" + parts[1];
  }

  /** Formatting a collector id and a slash-free source id is undone by the import parse. */
  lemma ImportRoundTrip(collector: GoInt, sourceId: string)
    requires '/' !in sourceId
    ensures ParseImportId(Itoa(collector) + "/" + sourceId) == Success((collector, sourceId))
  {
    SplitJoined(Itoa(collector), sourceId, '/');
    AtoiItoa(collector);
  }

  /** "12" and "12/34/56" do not hold exactly one slash and are refused. */
  lemma ImportRefusesOtherArities()
    ensures ParseImportId("12") == Failure(ImportFormat("12"))
    ensures ParseImportId("12/34/56") == Failure(ImportFormat("12/34/56"))
  {
    ImportArity("12");
    ImportArity("12/34/56");
  }

  /** "12/" is accepted: collector 12 and an empty id. */
  lemma ImportAcceptsEmptyId()
    ensures ParseImportId("12/") == Success((12, ""))
  {
    SplitJoined("12", "", '/');
    assert "12" + ['/'] + "" == "12/";
    assert DecimalValue("12") == 12 by {
      assert "12"[..1] == "1";
    }
  }

  /** A first part that is not a number is not an error: the collector id is 0. */
  lemma ImportIgnoresBadCollector()
    ensures ParseImportId("x/34") == Success((0, "34"))
  {
    SplitJoined("x", "34", '/');
    assert "x" + ['/'] + "34" == "x/34";
  }

  /** A collector part whose digits overflow before a bad character is no error: the collector saturates. */
  lemma ImportSaturatesCollector()
    ensures ParseImportId(seq(20, _ => '9') + "x/5") == Success((MaxInt, "5"))
  {
    var first := seq(20, _ => '9') + "x";
    assert '/' !in first;
    SplitJoined(first, "5", '/');
    assert first + ['/'] + "5" == seq(20, _ => '9') + "x/5";
    AtoiTwentyNinesThenLetter();
  }
}
