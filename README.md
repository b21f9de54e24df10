# SumoLogic source resources: state mapping and cloud-syslog lifecycle

This project models the core of the SumoLogic Terraform provider's source
resources:

- the shared `Source` record the REST API exchanges, and how the
  Terraform resource state maps to it (`resourceToSource`, `getFilters`,
  `getDefaultDateFormats`) and back (`resourceSumologicSourceRead`);
- the schema's kinds, defaults and filter-type whitelist;
- the import identifier `collector_id/source_id`;
- the client calls `DestroySource` and `GetSourceName`;
- the cloud-syslog resource's Create, Read, Update and Delete handlers.

Files:

- `outcomes.dfy` (`Outcomes`): `Option`, `Result` and the errors returned to Terraform.
- `text.dfy` (`Text`): the Go library behaviour the code relies on. This is
  `strings.Split` on `/`, `strconv.Atoi` with its error ignored and
  `strconv.Itoa` / `%d`. `Atoi` gives 0 on a syntax error, and a decimal
  outside the signed 64-bit range saturates at the nearest bound. A leading
  digit run above 2^64 - 1 also saturates by its sign, even when a non-digit
  follows it, because the unsigned range error comes before the syntax error.
  A run that is only above the signed range, followed by a non-digit, gives 0.
- `sources.dfy` (`Sources`): the records and the resource state. The state is
  a map from schema key to a typed value. The file also holds the defaults,
  the state-to-record mapping, the write-back as a function of the old state
  and the record, and the import-identifier parse.
- `client.dfy` (`Client`): an abstract model of the remote API. It holds
  every source by (collector id, source id), each collector's listing order,
  the id the next create issues, the token every create issues, and a fault
  plan saying which steps fail. A `Client` class keeps that API and a log of the requests
  issued, in order.
- `lifecycle.dfy` (`Lifecycle`): the class `Resource`, with the resource id
  and state that the handlers change step by step.

Lifecycle contracts name the requests each handler issues (the call log),
the state each one leaves behind, and the error it returns on every path.

## Model

| member | source | states |
|---|---|---|
| Text.Split | sumologic/sumologic_sources.go:201 | `strings.Split` on one separator always yields at least one piece |
| Text.SplitShape | sumologic/sumologic_sources.go:201 | the number of pieces is the number of separators plus one, and no piece contains the separator |
| Text.SplitInTwo | sumologic/sumologic_sources.go:201-203 | when there are exactly two pieces, the input is the first piece, the separator and the second piece |
| Text.SplitJoined | sumologic/sumologic_sources.go:201 | joining two separator-free strings with the separator splits back into exactly those two |
| Text.SplitAfter | sumologic/sumologic_sources.go:201 | a separator-free piece, the separator and a rest split into that piece followed by the pieces of the rest; the path lemma Client.PathSegments reads paths back with it |
| Text.Atoi | sumologic/sumologic_sources.go:209 | definition of `strconv.Atoi` with its error ignored: a string that starts with neither a sign nor a digit gives 0; its properties are AtoiSpec, AtoiItoa and AtoiOverflowBeforeBadCharacter |
| Text.AtoiSpec | sumologic/sumologic_sources.go:191 | sums up the definition of Atoi by cases: an in-range decimal integer gives its value; a decimal above the signed 64-bit range gives the maximum and one below it the minimum; a leading digit run above 2^64 - 1 saturates by its sign, whatever follows it; any other string gives 0 |
| Text.AtoiOverflowBeforeBadCharacter | sumologic/sumologic_sources.go:209 | a digit run beyond 64 bits followed by a non-digit gives the maximum int, and with a leading `-` the minimum |
| Text.AtoiTwentyNinesThenLetter | sumologic/sumologic_sources.go:209 | twenty nines followed by `x` give 9223372036854775807 |
| Text.AtoiShortRunThenLetter | sumologic/sumologic_sources.go:209 | `12x` gives 0: a short run followed by a letter is a syntax error |
| Text.AtoiItoa | sumologic/resource_sumologic_cloudsyslog_source.go:48 | parsing the decimal an id was printed as gives back that id |
| Text.Itoa | sumologic/resource_sumologic_cloudsyslog_source.go:35 | a printed id is never empty and holds no slash |
| Text.ItoaInjective | sumologic/sumologic_sources.go:291 | distinct integers print as distinct decimals |
| Sources.WithDefaults | sumologic/sumologic_sources.go:51-184 | applying the schema defaults keeps every configured key and keeps a well-typed configuration well typed |
| Sources.DefaultsApplied | sumologic/sumologic_sources.go:75-182 | unset keys read as their defaults: timezone `Etc/UTC`, the three parsing flags true, `force_timezone`, `lookup_by_name` false and `destroy` true |
| Sources.Default | sumologic/sumologic_sources.go:57-182 | definition of the schema's `Default:` entries: a default has its key's schema type, and the required `name` and `collector_id`, the computed `token` and the two block lists have none; its properties are DefaultsApplied and WithDefaults |
| Sources.ValidFilterType | sumologic/sumologic_sources.go:141 | definition of the filter-type whitelist: a type starting with a lower-case letter is refused; its properties are FilterTypeIsCaseSensitive |
| Sources.ValidConfig | sumologic/sumologic_sources.go:54-168 | definition of what the schema accepts: in an accepted configuration, every filter the state yields has an accepted type |
| Sources.FilterTypeIsCaseSensitive | sumologic/sumologic_sources.go:141 | the filter-type whitelist matches exactly: `Exclude` and `Forward` are accepted, `exclude` and `FORWARD` refused |
| Sources.DateFormatFromBlock | sumologic/sumologic_sources.go:261-264 | definition of one loop step: a block holding exactly `format` and `locator` is rebuilt by writing the rule back; its properties are DateFormatBlocksRoundTrip |
| Sources.FilterFromBlock | sumologic/sumologic_sources.go:277-282 | definition of one loop step: a block holding exactly the four filter keys is rebuilt by writing the filter back; its properties are FilterBlocksRoundTrip |
| Sources.DateFormatsFromBlocksAt | sumologic/sumologic_sources.go:255-269 | the date-format list has one rule per block, and rule i is built from block i |
| Sources.FiltersFromBlocksAt | sumologic/sumologic_sources.go:271-287 | the filter list has one filter per block, and filter i is built from block i |
| Sources.DateFormatsToBlocks | sumologic/sumologic_sources.go:249 | writing date formats back yields one block per rule, each with exactly the `format` and `locator` keys |
| Sources.FiltersToBlocks | sumologic/sumologic_sources.go:250 | writing filters back yields one block per filter, each with exactly the four filter keys |
| Sources.DateFormatsRoundTrip | sumologic/sumologic_sources.go:249-269 | reading back written date formats gives the same rules in the same order |
| Sources.FiltersRoundTrip | sumologic/sumologic_sources.go:250-287 | reading back written filters gives the same filters in the same order |
| Sources.DateFormatBlocksRoundTrip | sumologic/sumologic_sources.go:249-269 | well-formed date-format blocks survive being read and written back unchanged |
| Sources.FilterBlocksRoundTrip | sumologic/sumologic_sources.go:250-287 | well-formed filter blocks survive being read and written back unchanged |
| Sources.ResourceToSource | sumologic/sumologic_sources.go:215-236 | definition: the record's two lists are as long as the configured block lists; its properties are ReadBackRoundTrip and WriteBackOfOwnSource |
| Sources.ResourceToCloudSyslogSource | sumologic/resource_sumologic_cloudsyslog_source.go:68-77 | the record is typed `Cloudsyslog` and otherwise equals the shared record |
| Sources.DateFormatsFromBlocks | sumologic/sumologic_sources.go:255-269 | definition: one rule per block; its element-wise property is DateFormatsFromBlocksAt |
| Sources.FiltersFromBlocks | sumologic/sumologic_sources.go:271-287 | definition: one filter per block; its element-wise property is FiltersFromBlocksAt |
| Sources.WrittenBack | sumologic/sumologic_sources.go:238-253 | definition: the keys afterwards are the old keys plus the fourteen it sets; its properties are WriteBackScope, ReadBackRoundTrip and WriteBackOfOwnSource |
| Sources.SetByRead | sumologic/sumologic_sources.go:238-253 | the write-back sets a value exactly for the keys other than `collector_id`, `lookup_by_name`, `destroy` and `token`, and each value has the key's schema type |
| Sources.WriteBackFieldsListed | sumologic/sumologic_sources.go:239-252 | the keys the write-back sets are exactly the fourteen keys of the `d.Set` calls |
| Sources.WriteBackScope | sumologic/sumologic_sources.go:238-253 | afterwards the keys are the old keys plus the fourteen; every other key keeps its value; `collector_id`, `lookup_by_name`, `destroy` and `token` are not among the fourteen |
| Sources.WriteBackWellTyped | sumologic/sumologic_sources.go:238-253 | the write-back keeps the state well typed |
| Sources.ReadBackRoundTrip | sumologic/sumologic_sources.go:215-253 | writing a record back and converting the state again gives the same record, except the id (the parse of the resource id) and the type (empty) |
| Sources.WriteBackOfOwnSource | sumologic/sumologic_sources.go:215-253 | writing back the record described by a well-typed state that holds the fourteen keys leaves that state unchanged |
| Sources.WriteBackIgnoresIdAndType | sumologic/sumologic_sources.go:238-253 | the write-back does not depend on the record's id or type |
| Sources.ParseImportId | sumologic/sumologic_sources.go:201-210 | definition: a failure carries the format error naming the identifier, and a new id has no slash; its properties are ImportArity, ImportParts and ImportRoundTrip |
| Sources.ImportArity | sumologic/sumologic_sources.go:201-205 | the import parse succeeds exactly when the identifier contains one slash; otherwise the error carries the identifier |
| Sources.ImportParts | sumologic/sumologic_sources.go:207-210 | on success the identifier is a first part, a slash and the new id; the collector id is `Atoi` of the first part; the new id has no slash |
| Sources.ImportRoundTrip | sumologic/sumologic_sources.go:200-212 | `collector/source` made from an integer and a slash-free id parses back to exactly that pair |
| Sources.ImportRefusesOtherArities | sumologic/sumologic_sources.go:201-205 | `12` and `12/34/56` are refused with the format error naming the identifier |
| Sources.ImportAcceptsEmptyId | sumologic/sumologic_sources.go:207-210 | `12/` is accepted: collector 12 and an empty resource id |
| Sources.ImportIgnoresBadCollector | sumologic/sumologic_sources.go:209-210 | a first part that is not a number is no error: `x/34` gives collector 0 and id `34` |
| Sources.ImportSaturatesCollector | sumologic/sumologic_sources.go:209-210 | twenty nines, `x`, a slash and `5` import as collector 9223372036854775807 and id `5` |
| Client.CollectionPath | sumologic/sumologic_sources.go:299 | definition: the path splits on `/` into `collectors`, the printed collector id and `sources` |
| Client.SourcePath | sumologic/sumologic_sources.go:291 | definition: the path splits on `/` into `collectors`, the printed collector id, `sources` and the printed source id; its property is SourcePathInjective |
| Client.ListResponse | sumologic/sumologic_sources.go:298-316 | definition: an error is one the fault plan raised; there is no body exactly when the request succeeds and the collector is unknown |
| Client.FirstNamed | sumologic/sumologic_sources.go:317-323 | definition: a match is a listed source with exactly that name; its full property is FirstNamedSpec |
| Client.SourceNamed | sumologic/sumologic_sources.go:296-324 | definition: it fails exactly when the list request or its decoding fails, and a found source has exactly that name |
| Client.SourcePathInjective | sumologic/sumologic_sources.go:289-294 | a source path determines both the collector id and the source id |
| Client.FirstNamedSpec | sumologic/sumologic_sources.go:317-323 | the scan finds nothing exactly when no name is equal; otherwise it returns the earliest source with that exact name |
| Client.CreatedAddsOne | sumologic/resource_sumologic_cloudsyslog_source.go:42 | a create stores one source under a fresh key, keeps the others and keeps the API consistent; a later get returns the sent record with the new id and the issued token |
| Client.UpdatedReplacesOne | sumologic/resource_sumologic_cloudsyslog_source.go:59 | an update replaces only the addressed source, keeps its token and keeps the API consistent |
| Client.DeletedRemovesOne | sumologic/sumologic_sources.go:289-294 | a delete removes only the addressed source, keeps the API consistent, and a later get finds nothing |
| Client.Client.GetSourceName | sumologic/sumologic_sources.go:296-324 | one list request; transport and decode errors are returned unchanged; a nil body or no match gives none without error; otherwise the first exact name match |
| Client.Client.DestroySource | sumologic/sumologic_sources.go:289-294 | one DELETE of `collectors/{collector}/sources/{source}`, with the source id as first argument; the API's answer is returned, and the source is removed on success |
| Client.Client.GetCloudSyslogSource | sumologic/resource_sumologic_cloudsyslog_source.go:83 | one GET of the source path; the API is unchanged; the answer is an error, none, or the stored source |
| Client.Client.CreateCloudsyslogSource | sumologic/resource_sumologic_cloudsyslog_source.go:42 | one POST of the record to the collector's sources; the new id is returned, or the error and nothing is stored |
| Client.Client.UpdateCloudSyslogSource | sumologic/resource_sumologic_cloudsyslog_source.go:59 | one PUT of the whole record to its path; on success the stored record is replaced |
| Lifecycle.ReadEffect | sumologic/resource_sumologic_cloudsyslog_source.go:83-98 | definition of Read's three outcomes: Read returns an error exactly when the fetch failed; its properties are DeletedSourceIsForgotten and CreatedSourceIsRead |
| Lifecycle.ReadState | sumologic/resource_sumologic_cloudsyslog_source.go:95-96 | definition of the state a found source leaves: the keys grow by the fourteen written keys and `token`, and `token` holds the source's token; its properties are ReadStateMirrorsRemote and ReadStateWellTyped |
| Lifecycle.LookupOutcome | sumologic/resource_sumologic_cloudsyslog_source.go:27-32 | definition of Create's optional lookup: with `lookup_by_name` off it finds nothing without error, and a found source has the configured name |
| Lifecycle.AdoptedId | sumologic/resource_sumologic_cloudsyslog_source.go:34-36 | definition of the id after the lookup: a match's id parses back to the match's ID; with no match the id is kept |
| Lifecycle.ReadStateWellTyped | sumologic/resource_sumologic_cloudsyslog_source.go:95-96 | the state Read leaves behind is well typed when the one before was |
| Lifecycle.ReadStateMirrorsRemote | sumologic/resource_sumologic_cloudsyslog_source.go:95-96 | after Read found a source, the state describes the remote record (id and type aside), holds its token, and keeps `collector_id`, `lookup_by_name` and `destroy` |
| Lifecycle.UpdateAfterReadChangesNothing | sumologic/resource_sumologic_cloudsyslog_source.go:54-77 | an Update right after a Read sends exactly the stored record, so the API is left as it was |
| Lifecycle.CreatedSourceIsRead | sumologic/resource_sumologic_cloudsyslog_source.go:39-51 | after a successful create, the Read that follows finds the source, keeps the new id, stores the issued token, and the state describes the record that was sent |
| Lifecycle.DeletedSourceIsForgotten | sumologic/resource_sumologic_cloudsyslog_source.go:88-93 | a Read after a successful delete clears the id, returns no error and changes no other state |
| Lifecycle.Resource.constructor | sumologic/sumologic_sources.go:51-184 | a new resource has no id and holds the configuration with the schema defaults |
| Lifecycle.Resource.WriteBack | sumologic/sumologic_sources.go:238-253 | the state becomes the write-back of the record; the id is unchanged |
| Lifecycle.Resource.GetDefaultDateFormats | sumologic/sumologic_sources.go:255-269 | the loop returns one rule per block, rule i built from block i; this is the list `resourceToSource` uses |
| Lifecycle.Resource.GetFilters | sumologic/sumologic_sources.go:271-287 | the loop returns one filter per block, filter i built from block i; this is the list `resourceToSource` uses |
| Lifecycle.Resource.Import | sumologic/sumologic_sources.go:200-212 | a malformed identifier returns the format error and changes nothing; otherwise the id becomes the second part and `collector_id` the parse of the first |
| Lifecycle.Resource.Delete | sumologic/sumologic_sources.go:187-198 | with `destroy` off: no request, no error, nothing changed; with it on: one delete of this source and the API's answer returned |
| Lifecycle.Resource.Read | sumologic/resource_sumologic_cloudsyslog_source.go:79-99 | one GET; an error is returned with nothing changed; a missing source clears the id only; a found one is written back with its token |
| Lifecycle.Resource.AdoptByName | sumologic/resource_sumologic_cloudsyslog_source.go:27-37 | with `lookup_by_name`, one list request; an error is returned; a match sets the id to the matched source's id; no match leaves the id |
| Lifecycle.Resource.Create | sumologic/resource_sumologic_cloudsyslog_source.go:24-52 | a lookup error is returned with no further request; an adopted id leads straight to Read, with no create; otherwise exactly one POST, whose error is returned or whose id becomes the resource id before Read |
| Lifecycle.Resource.Update | sumologic/resource_sumologic_cloudsyslog_source.go:54-66 | one PUT of the full `Cloudsyslog` record; an error is returned without Read; otherwise Read follows |

## Left out

- The HTTP transport and the client's `Get`, `Post`, `Put` and `Delete` verbs are not modelled. Each request is a call-log entry answered by the abstract API.
- The client's cloud-syslog create, get and update functions and the `CloudSyslogSource` type are defined outside `sumologic/sumologic_sources.go` and `resource_sumologic_cloudsyslog_source.go`, so they are not part of this model. They are modelled as the abstract API's answers. A get of a missing source answers none. A PUT or DELETE of a missing source answers a not-found error. New ids are issued in sequence, and an id beyond the 64-bit range is an error.
- JSON encoding, `omitempty` and the struct tags are left out. Decoding the list response is a step that may fail, decided by the fault plan.
- Terraform framework internals are left out: diff planning, `ForceNew`, `Computed`, and the framework step that validates a configuration and reports its errors. What that step accepts is modelled as the precondition `ValidConfig` on a new resource. Defaults are the function `WithDefaults`.
- `d.Set` of the `[]Filter` and `[]DefaultDateFormat` slices stores blocks keyed by the schema's attribute names. The framework's own conversion of Go structs, and any error it returns, are not modelled. The code ignores the errors of `d.Set` in any case.
- Lifecycle.Resource.WriteBack: the fourteen `d.Set` calls are one state update. They write distinct keys, so their order does not matter.
- Lifecycle.Resource.Import: the returned `[]*schema.ResourceData{d}` is the resource itself, changed in place.
- Lifecycle.Resource.Delete: the framework clears the id after a successful delete; that step is not modelled.
- `log.Printf` in Read is left out.
- Concurrency is left out: resources share no state.
- Text.AtoiSpec: only decimal digits after an optional sign are modelled. Go's `Atoi` accepts nothing else at base 10 either.
- Client.Created: the abstract API issues the same token for every create. It does not model per-source token generation, so issued tokens are not unique.
