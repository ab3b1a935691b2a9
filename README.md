# EPİAŞ transparency client — a Dafny model

This project models the core of a Python client for the EPİAŞ electricity
transparency service (the Turkish energy exchange's public data API):

- **Settings** (`config/settings.py`): the defaults, the environment validator,
  the choice of login address, and the token lifetime and refresh margin.
- **Auth** (`src/api/auth.py`): `TGTManager`. It fetches a ticket-granting
  ticket (TGT) from the CAS login server and caches it until one minute before
  its two-hour lifetime ends. The wall clock and the login server are oracle
  objects that log each question they are asked.
- **Epias** (`src/api/epias.py`): `EPIASClient`. Every data call carries the
  ticket. When the answer is 401 or 406, the client forces one refresh and
  sends the same request once more. The HTTP session is an oracle object that
  logs every request.
- **Endpoints** (`src/api/endpoints.py`): the endpoint enumeration, their paths
  and the `/data/` to `/export/` rewrite (with **Paths** and **Strings**
  supporting it), and the method table.
- **Models** (`src/data/models.py`): the request models with their date-range
  validator, the response envelope, and the organisation, power plant and
  UEVCB (generation unit) models.
- **Processors** and **Bilateral** (`src/data/processors.py`): the
  normalisation of service responses into tables. **Normalize** holds the
  shared content extraction and record collection. **Json** holds the
  Python-level operations on decoded JSON: `in`, `[]`, iteration, `.get`, `or`,
  `float()` and `int()`. **Timestamps** holds the datetime operations.
- **Fetchers** (`src/data/fetchers.py`): `DataFetcher`. It builds each request,
  calls the client and processes the answer. The dashboard and
  organisation-overview batches turn a failing call into an empty result.
  The client is an oracle `ApiClient` that logs its calls.

The classes are imperative Dafny: `TgtManager`, `EpiasClient`, `DataFetcher`
and the oracles `Clock`, `CasServer`, `Session` and `ApiClient`. Each method is
proved against a pure function that states the whole step: `CurrentStep`,
`Transact`, `RequestFetch`, `DashboardTables` and `OverviewFetch`. Lemmas about
those functions then state what the source promises. The processors are pure
functions whose loops are methods (`CollectRecords`,
`CollectHourlyRecords`, `CollectList`, `ProcessPtf`, …). Each such method is
proved equal to its function.

Python and pandas behaviour is written out where it matters:

- A decoded JSON object is a list of members with distinct keys, and `dict.get`
  finds the member with that key. (`json.loads` keeps the last of duplicate
  keys; the model does not meet duplicates, see "## Left out".)
- `a or b` uses Python truthiness.
- `int()` truncates a number toward zero, `float()` keeps it exactly, and a
  string is parsed by an oracle `Parsers`.
- `in` and `[]` raise TypeError or KeyError on the wrong type or a missing key.
- `sort_values` is unstable: its contract is "sorted, with NaT last, and a
  permutation".
- `pivot_table` computes a per-cell mean over the grouped records.

Timestamps are integers of microseconds since the epoch, and `None` stands
for NaT. They are wall-clock readings: the oracle `Parsers.parseIso` returns
the local time a string states (for the service's "+03:00" strings, Turkish
local time), so `HourOf` is the local hour pandas reports as `.hour`.

## Model

| member | source | states |
|---|---|---|
| Settings.ValidateEnvironment | config/settings.py:59-64 | accepts exactly "production", "test" and "development", unchanged; anything else is ValueError |
| Settings.Load | config/settings.py:32 | building the settings succeeds exactly when the environment validator accepts, and keeps every field; a rejection surfaces as pydantic's ValidationError |
| Settings.AuthUrl | config/settings.py:66-71 | the login address is one of the two configured addresses |
| Settings.AuthUrlChoice | config/settings.py:66-71 | with distinct addresses, the test address is chosen exactly in "test", and production and development share the production address |
| Settings.TgtValidity | config/settings.py:73-76 | the validity timedelta is non-negative for non-negative hours |
| Settings.TgtRefreshMargin | config/settings.py:78-81 | the margin timedelta is non-negative for non-negative minutes |
| Settings.DefaultsHold | config/settings.py:14-49 | the defaults load, use the production login address, give 7200 s validity and a 600 s margin below it, and pages of 100 within the 1000 maximum |
| Settings.MarginWithinValidity | config/settings.py:73-81 | a margin of fewer minutes than the validity's hours × 60 is shorter than the validity |
| Requests.RaiseForStatus | src/api/auth.py:37 | raises HttpError exactly for statuses 400..599 |
| Auth.TicketFrom | src/api/auth.py:37-41 | succeeds iff the status is not 4xx/5xx and the stripped text starts with "TGT-"; the ticket is the stripped text; otherwise HttpError or ValueError |
| Auth.CurrentStep | src/api/auth.py:20-24 | keeps the manager's fields consistent; fetches iff forced or the clock reached the expiry; a success stores the returned ticket; a failure leaves the fields unchanged |
| Auth.FirstCallFetches | src/api/auth.py:13-24 | a fresh manager always fetches on its first call |
| Auth.CachedUntilExpiry | src/api/auth.py:21-24 | before the expiry an unforced call returns the cached ticket and changes nothing; at the expiry it fetches |
| Auth.ForceFetches | src/api/auth.py:21-22 | a forced call always fetches and returns what the login server's reply yields |
| Auth.RefreshSetsExpiry | src/api/auth.py:22-23 | after a successful fetch the expiry is the post-fetch clock reading + 7140 s |
| Auth.FreshTicketReused | src/api/auth.py:20-24 | two calls: after a successful fetch, an unforced call before that reading + 7140 s returns the same ticket without fetching |
| Auth.TgtManager.constructor | src/api/auth.py:13-17 | no ticket, expiry at the epoch |
| Auth.TgtManager.RequestNewToken | src/api/auth.py:27-41 | posts the username/password form to the CAS tickets URL once, and returns TicketFrom of the reply |
| Auth.TgtManager.Current | src/api/auth.py:20-24 | one step of CurrentStep: result and new fields as CurrentStep says; the login server is posted to iff the step fetches; the clock is read once for the expiry test when not forced and once after a successful fetch |
| Epias.HeadersFor | src/api/epias.py:23-28 | the four headers in order, the ticket under "TGT" first |
| Epias.Finish | src/api/epias.py:36-37 | a 4xx/5xx status raises HttpError; otherwise the decoded JSON body, or JsonDecodeError when the body is not JSON |
| Epias.RefusedTwiceRaises | src/api/epias.py:32-36 | a refused (401/406) reply to the resend raises HttpError with that status |
| Epias.EpiasClient.constructor | src/api/epias.py:9-11 | the client owns a fresh ticket manager in its initial state |
| Epias.TransactShape | src/api/epias.py:21-37 | a request is sent at most twice, to base + path with the same method, body and well-formed headers; nothing is sent iff the manager's unforced `current()` fails, and then the call raises its error; the first send carries the ticket that `current()` returned; a second send only follows a refused (401/406) first reply and its reply decides the result; a refused reply whose refresh fails raises the refresh's error |
| Epias.RetryTicketIssued | src/api/epias.py:33 | the refresh after a refused reply always asks the login server, and its ticket is TicketFrom of that server's next reply |
| Epias.RefusedThenRetried | src/api/epias.py:32-37 | a refused first reply followed by a successful forced refresh leads to exactly one resend, carrying the refreshed ticket, which the manager now holds; the resend's reply decides the result |
| Epias.CachedTicketSent | src/api/epias.py:23-37 | with the cached ticket still inside its lifetime and a reply that accepts it, the call is one send with the cached ticket, no login and one clock reading, and the manager is unchanged |
| Epias.EpiasClient.Get | src/api/epias.py:14-15 | a GET whose body is the keyword arguments: exactly the exchange Transact describes (requests sent, result, manager state, clock readings and login posts) |
| Epias.EpiasClient.Post | src/api/epias.py:17-18 | a POST whose body is the keyword arguments: exactly the exchange Transact describes |
| Epias.EpiasClient.FirstAttempt | src/api/epias.py:22-29 | the unforced `current()` of FirstStep, then one send carrying its ticket; a ticket failure raises with that error and sends nothing |
| Epias.EpiasClient.Resend | src/api/epias.py:32-34 | the forced `current(force_refresh=True)` of RetryStep, always one login post; on success one send with the new ticket, on failure its error and nothing sent |
| Epias.EpiasClient.Request | src/api/epias.py:21-37 | exactly the exchange Transact describes from the manager, clock, login server and session as they stand; one forced refresh iff a sent request was refused |
| Endpoints.Value | src/api/endpoints.py:11-87 | every endpoint path is absolute |
| Endpoints.ValuesDistinct | src/api/endpoints.py:11-87 | two endpoints have the same path iff they are the same member |
| Endpoints.SegmentsDetermine | src/api/endpoints.py:11-87 | the path segments determine the member |
| Endpoints.PartsDetermine | src/api/endpoints.py:11-87 | group and last segment determine the member |
| Endpoints.LeafPlain | src/api/endpoints.py:11-87 | no last segment contains a slash or is the word "data" |
| Endpoints.GroupDetermined | src/api/endpoints.py:11-87 | the leading segments of a path identify its group |
| Endpoints.SegmentsSlashFree | src/api/endpoints.py:11-87 | no path segment contains a slash |
| Endpoints.ExportEndpointShape | src/api/endpoints.py:90-92 | the export path replaces the one "/data/" segment by "/export/" and keeps the rest; paths without a data segment are unchanged |
| Endpoints.MethodOf | src/api/endpoints.py:102-165 | the method table says GET exactly for the twelve GET endpoints and POST for every other member |
| Endpoints.GetCount | src/api/endpoints.py:102-117 | exactly twelve members are configured GET |
| Endpoints.GetShape | src/api/endpoints.py:102-117 | every dashboard member is GET, and the other GET members belong to the generation, consumption and main reference groups |
| Paths.JoinInjective | src/api/endpoints.py:11-87 | joining slash-free segments with "/" is injective |
| Paths.DataPath | src/api/endpoints.py:90-92 | replacing "/data/" in group + data + leaf yields group + "/export/" + leaf |
| Paths.PlainPath | src/api/endpoints.py:90-92 | a path of plain segments has no "/data/" to replace |
| Strings.Strip | src/api/auth.py:38 | the result is a slice of the input with whitespace only around it and no whitespace at either end |
| Strings.Occurs | src/api/endpoints.py:92 | substring test iff some occurrence index exists |
| Strings.ReplaceAbsent | src/api/endpoints.py:92 | replace with an absent pattern is the identity |
| Models.ParsePageSort | src/data/models.py:10-13 | valid iff direction and field are each absent or a string; each takes the given string or its default ASC/date; the only error is ValidationError |
| Models.SortField | src/data/models.py:20 | the optional sort is accepted iff it is absent, null, or a value whose mapping (the dict itself, or dict() of any other value, as pydantic v1 converts it) has direction and field absent or strings; None when absent or null, otherwise the PageSort with its defaults |
| Models.PairsLastFirst | src/data/models.py:20 | dict() of a sequence succeeds iff every element is a pair with a string key; the members are the pairs, last first |
| Models.AsDict | src/data/models.py:20 | a dict is its own mapping; any other value is accepted iff it iterates to pairs with string keys, and its mapping is dict() of it; otherwise a ValidationError |
| Models.GetLastFirst | src/data/models.py:20 | looking a key up among members stored last first finds the last member with that key |
| Models.PairsLastWins | src/data/models.py:20 | in dict() of pairs a key takes the value of the last pair naming it, and is absent iff no pair names it |
| Models.SortFromEmptyList | src/data/models.py:10-20 | a sort given as [] validates to the default PageSort |
| Models.SortFromPair | src/data/models.py:10-20 | a sort given as [["direction", "DESC"]] gives direction DESC and the default field |
| Models.SortLastPairWins | src/data/models.py:10-20 | of two pairs for "field", the last one wins |
| Models.SortNotAMapping | src/data/models.py:20 | a number, or a pair whose key is not a string, is a ValidationError |
| Models.ParsePageConfig | src/data/models.py:16-21 | accepted iff number and size are absent or accepted by int(), sort is acceptable, and total is absent, null or accepted by int(); number and size pass through int() or default to 1 and 100; sort and total are None when absent or null, otherwise a validated PageSort (with its defaults) and int(total); a sort whose dict() conversion fails, and any rejected field, is a ValidationError |
| Models.StrField | src/data/models.py:52-75 | a string field is taken as it is, a missing one takes its default or is a ValidationError, any other type is a ValidationError |
| Models.IntField | src/data/models.py:16-19 | accepted iff absent (giving the default) or accepted by int(), whose value it takes; a rejected value is a ValidationError |
| Models.RequiredInt | src/data/models.py:52-75 | a required int field is accepted iff present and accepted by int(), whose value it takes; otherwise a ValidationError |
| Models.OptIntField | src/data/models.py:21 | an Optional[int] field is accepted iff absent, null or accepted by int(); None for absent or null |
| Models.OptStrField | src/data/models.py:52-75 | an Optional[str] field is accepted iff absent, null or a string; None for absent or null, the string otherwise |
| Models.IdAndName | src/data/models.py:52-66 | the shared required id and name are accepted iff the id is accepted by int() and the name is a string; they are int(id) and that string |
| Models.ValidateDateRange | src/data/models.py:40-44 | ok iff the start date is not after the end date; otherwise ValidationError |
| Models.Validate | src/data/models.py:35-44 | every date-range request class is validated (inherited validator); the UEVCB list request has no range and always passes |
| Models.ReversedRangeRejected | src/data/models.py:145-181 | each date-range request class rejects a reversed range |
| Models.IsSuccess | src/data/models.py:190-192 | holds iff resultCode is "200" |
| Models.Content | src/data/models.py:194-196 | the body's "content" member, or the empty list |
| Models.PageInfo | src/data/models.py:198-202 | None iff the body has no "page"; otherwise a PageConfig built from it, or an error when it is not a dict |
| Models.EmptyPageIsDefault | src/data/models.py:198-202 | an empty page dict gives the default page configuration |
| Models.ContentAgreesWithEnvelope | src/data/models.py:194-196 | for an envelope whose body holds content, the envelope's content is what extract_content yields |
| Models.ParseOrganization | src/data/models.py:61-66 | a non-dict is a TypeError; a dict is accepted iff int() accepts its id, its name is a string, and eic and status are each absent, null or a string; any rejection is a ValidationError; id is int() of the input's id, name its string, eic and status the input's strings or None when absent or null |
| Models.ParsePowerPlant | src/data/models.py:52-58 | as ParseOrganization: accepted iff the id and name are valid and eic, shortName and status are each absent, null or a string; with eic, shortName and status each the input's string or None when absent or null |
| Models.UevcbIds | src/data/models.py:69-75 | accepted iff int() accepts both id and organizationId, whose values they take; a missing or rejected one is a ValidationError |
| Models.UevcbTexts | src/data/models.py:69-75 | accepted iff name and eic are strings and organizationName is absent, null or a string; anything else is a ValidationError |
| Models.ParseUevcb | src/data/models.py:69-75 | a dict is accepted iff both ids are accepted by int(), name and eic are strings and organizationName is absent, null or a string; as ParseOrganization otherwise, with id and organizationId through int(), name and eic the input's required strings, organizationName the input's string or None |
| Json.Get | src/data/processors.py:67 | `.get` finds the first member with that key, and None iff there is none |
| Json.Alias | src/data/processors.py:67 | `get(a, 0) or get(b, 0)`: a truthy primary wins, else the fallback if present, else 0 |
| Json.ZeroPrimaryFallsThrough | src/data/processors.py:67 | a zero price falls through to the value field |
| Json.Contains | src/data/processors.py:305 | `key in d` on a dict; a TypeError on a scalar |
| Json.Subscript | src/data/processors.py:313 | `d[key]` succeeds iff d is a dict holding key |
| Json.Iterate | src/data/processors.py:62 | iterating a list gives its items, a dict its keys, a string its characters; a scalar raises |
| Json.ToFloat | src/data/processors.py:67 | `float()` of a number is itself; None, lists and dicts raise TypeError; unparsable strings raise ValueError; a parsable string gives the parser's value |
| Json.ToInt | src/data/processors.py:68 | `int()` truncates toward zero; None, lists and dicts raise TypeError; unparsable strings raise ValueError; a parsable string gives the parser's value |
| Timestamps.Split | src/data/processors.py:68 | every timestamp is day, hour (0..23) and a sub-hour rest |
| Timestamps.ReplaceHour | src/data/processors.py:136 | `replace(hour=h)` changes only the hour, NaT stays NaT, an hour outside 0..23 raises ValueError |
| Timestamps.SortByTime | src/data/processors.py:72 | the rows are sorted by time (NaT last) and are a permutation of the input |
| Normalize.ExtractContent | src/data/processors.py:19-32 | a list as it is; for a dict, body.content, then content, then items; anything else wrapped when truthy |
| Normalize.ParseDatetime | src/data/processors.py:35-44 | an ISO parse when the string holds "T", a Y-m-d parse otherwise, NaT for a non-string |
| Normalize.DictsMembers | src/data/processors.py:63 | the isinstance filter keeps exactly the dict items, in order |
| Normalize.MapAllSpec | src/data/processors.py:62-70 | the records are one per item, and the first failing item's error is raised |
| Normalize.IndexByTime | src/data/processors.py:71-74 | a non-empty table is sorted by time and indexed by it; an empty one stays empty |
| Normalize.CollectRecords | src/data/processors.py:62-70 | the record loop computes MapAll over the dict items |
| Normalize.HourlyItemRows | src/data/processors.py:128-150 | an item with hourly entries yields one row per entry; without them it yields one row from the item |
| Normalize.CollectHourlyRecords | src/data/processors.py:127-150 | the outer loop over the content's dict items computes HourlyRecords: each item's rows, concatenated in order, the first exception aborting |
| Normalize.HourlyItemAccepted | src/data/processors.py:130-141 | an item whose hourly key holds a list yields rows iff every entry does |
| Normalize.CollectItemRows | src/data/processors.py:129-150 | the per-item step computes HourlyItem: one row per hourly entry when the hourly key is present, one row from the item otherwise |
| Normalize.RecordsTable | src/data/processors.py:62-74 | the table holds exactly the records of the dict items, sorted by time |
| Processors.PtfRecord | src/data/processors.py:63-69 | a PTF row: parsed date, price under the price/value alias, the hour int() of the item's "hour" when present and the date's hour (0 for NaT) otherwise; raises iff float() or int() does |
| Processors.ProcessPtf | src/data/processors.py:46-76 | computes PtfFrame |
| Processors.PtfRows | src/data/processors.py:46-76 | one row per dict item, sorted by time, indexed by datetime with price and hour columns |
| Processors.PtfAsWrittenDiffers | src/data/processors.py:71-72 | the code as written differs from the intended frame exactly when the content is truthy but has no dict item, and then raises KeyError |
| Processors.PtfAsWrittenRaises | src/data/processors.py:71-72 | `[1]` as content: KeyError("datetime") as written, the empty PTF table as intended |
| Processors.SmfRecord | src/data/processors.py:95-102 | an SMF row: up and down prices under their aliases and the direction; raises iff a float() does |
| Processors.ProcessSmf | src/data/processors.py:78-109 | computes SmfFrame |
| Processors.SmfRows | src/data/processors.py:78-109 | one row per dict item, sorted by time, with the three SMF columns |
| Processors.SmfAsWrittenRaises | src/data/processors.py:104-105 | `[1]` as content: KeyError("datetime") as written, the empty SMF table as intended |
| Processors.GenerationEntry | src/data/processors.py:130-141 | an hourly generation row: plant name and id from the item, type and generation from the entry, and the item's day at the entry's hour |
| Processors.GenerationHourly | src/data/processors.py:130-141 | an item with a list of hourly entries yields rows iff every entry is a dict whose hour int() accepts, in 0..23 unless the date is NaT, and whose generation (default 0) float() accepts; then one row per entry, each as GenerationEntry says |
| Processors.GenerationRecord | src/data/processors.py:143-150 | without hourly data, one row at the item's date, accepted iff float() accepts the generation/value alias, whose value it takes; plant name ("" by default), plant id (None) and generation type ("") are the item's |
| Processors.ProcessGeneration | src/data/processors.py:111-158 | computes GenerationFrame |
| Processors.GenerationRows | src/data/processors.py:151-158 | the table is a time-sorted permutation of the hourly records |
| Processors.KgupEntry | src/data/processors.py:179-187 | an hourly KGÜP row: UEVCB name and id from the item, planned generation and hour from the entry |
| Processors.KgupHourly | src/data/processors.py:179-187 | an item with a list of hourly plans yields rows iff every plan is a dict whose hour int() accepts, in 0..23 unless the date is NaT, and whose plannedGeneration (default 0) float() accepts; then one row per plan, each as KgupEntry says |
| Processors.KgupRecord | src/data/processors.py:188-194 | without hourly plans, one row at the item's date, accepted iff float() accepts the plannedGeneration/value alias, whose value it takes; unit name ("" by default) and unit id (None) are the item's |
| Processors.ProcessKgup | src/data/processors.py:160-202 | computes KgupFrame |
| Processors.ConsumptionRecord | src/data/processors.py:276-285 | a consumption row with the consumption/value alias; raises iff float() does; province, district, profileGroup and subscriberType are the item's, "" by default |
| Processors.ProcessConsumption | src/data/processors.py:259-293 | computes ConsumptionFrame |
| Processors.ConsumptionRows | src/data/processors.py:275-293 | one row per dict item, sorted by time |
| Processors.SummaryRows | src/data/processors.py:312-319 | one row per summary member, in order |
| Processors.ProcessDashboard | src/data/processors.py:295-332 | computes DashboardFrame |
| Processors.DashboardRows | src/data/processors.py:305-332 | a summary gives one row per metric; otherwise a data list gives one row per dict item; neither gives the empty frame |
| Processors.DashboardWithoutBody | src/data/processors.py:305-306 | a response without body gives the empty frame |
| Bilateral.ContractRecord | src/data/processors.py:224-244 | a contract row: date, side, contract type and quantity under the quantity/value alias |
| Bilateral.ProcessBilateral | src/data/processors.py:204-257 | computes BilateralFrame |
| Bilateral.PivotShape | src/data/processors.py:249-255 | the pivot's index is the ascending distinct times of the grouped records, its columns the (side, type) pairs present, each cell the mean of its records |
| Bilateral.PivotRaises | src/data/processors.py:249-255 | the pivot raises TypeError iff some contract type is unhashable |
| Bilateral.MeanBounds | src/data/processors.py:249-255 | every cell lies between the smallest and largest quantity in it |
| Bilateral.SingleRecordCell | src/data/processors.py:249-255 | a cell whose records all carry one quantity holds that quantity |
| Bilateral.BilateralEmpty | src/data/processors.py:246-257 | two sides whose content holds no dict item (an empty list, an envelope with an empty list, a list of scalars) give the empty result |
| Bilateral.BuyAndSellApart | src/data/processors.py:229-255 | a buy and a sell record at the same time and type land in two separate columns with their own quantities |
| Bilateral.GroupedTimes | src/data/processors.py:249-255 | the grouped times are exactly those of records with a time and a type |
| Bilateral.DistinctAscending | src/data/processors.py:249-255 | the pivot index is strictly ascending and holds exactly the input times |
| Fetchers.DayRange | src/data/fetchers.py:57-60 | the range is ordered iff the start day is not after the end day |
| Fetchers.DayRangeBounds | src/data/fetchers.py:57-60 | the range runs from 00:00:00 of the start day to the last microsecond of the end day |
| Fetchers.QueriesRejectReversedRanges | src/data/fetchers.py:57-60 | every dated query is rejected iff its range is reversed; the UEVCB query never is |
| Fetchers.RequestFetch | src/data/fetchers.py:133-165 | a validation error or a client error reaches the caller unchanged; otherwise the answer is processed |
| Fetchers.CallsFor | src/data/fetchers.py:133-165 | at most one client call, and none exactly when the request is rejected |
| Fetchers.ListOfShape | src/data/fetchers.py:68-71 | no body or no list key gives the empty list; a list gives one model per element, in order, and raises iff an element is rejected |
| Fetchers.CollectList | src/data/fetchers.py:70-71 | the list loop computes MapAll |
| Fetchers.ExtractList | src/data/fetchers.py:68-71 | computes ListOf |
| Fetchers.BilateralWiring | src/data/fetchers.py:201-240 | both sides fetched and their answers processed together; a reversed range is a ValidationError |
| Fetchers.DashboardTablesOk | src/data/fetchers.py:342-352 | the batch succeeds iff every source's entry processes |
| Fetchers.DashboardTablesKeys | src/data/fetchers.py:342-352 | the batch has exactly the source names as keys |
| Fetchers.DashboardTablesEntries | src/data/fetchers.py:342-352 | each key maps to its own source's entry |
| Fetchers.DashboardTablesError | src/data/fetchers.py:342-352 | once a prefix raises, the whole batch raises the same |
| Fetchers.DashboardBatch | src/data/fetchers.py:321-356 | exactly the six keys bpm, dam, idm, consumption, generation and weighted_price; a failed call maps to the empty table |
| Fetchers.OverviewFetch | src/data/fetchers.py:397-434 | the overview has exactly the five keys |
| Fetchers.OverviewFallback | src/data/fetchers.py:418-434 | each overview part is its own sub-fetch's result, or its empty value ([] for the UEVCB list, an empty table otherwise) when that sub-fetch raises |
| Fetchers.OverviewReversedRange | src/data/fetchers.py:418-434 | a reversed range empties every dated part, while the UEVCB list is still fetched |
| Fetchers.DataFetcher.FetchOrganizations | src/data/fetchers.py:42-78 | the result is OrganizationsFetch; one POST to the organisation list unless the range is rejected |
| Fetchers.DataFetcher.FetchPowerPlants | src/data/fetchers.py:80-100 | the result is PowerPlantsFetch; exactly one GET |
| Fetchers.DataFetcher.FetchUevcbList | src/data/fetchers.py:102-130 | the result is UevcbListFetch; exactly one POST with the organisation id |
| Fetchers.DataFetcher.FetchPtfData | src/data/fetchers.py:133-165 | the result is PtfFetch; one paginated call to the market-clearing price unless the range is rejected |
| Fetchers.DataFetcher.FetchSmfData | src/data/fetchers.py:167-199 | the result is SmfFetch; one paginated call to the system marginal price unless the range is rejected |
| Fetchers.DataFetcher.FetchBilateralContracts | src/data/fetchers.py:201-240 | the result is BilateralFetch; both bid and offer calls, or none when the range is rejected |
| Fetchers.DataFetcher.FetchGenerationData | src/data/fetchers.py:243-281 | the result is GenerationFetch, with its call log |
| Fetchers.DataFetcher.FetchKgupData | src/data/fetchers.py:283-318 | the result is KgupFetch, with its call log |
| Fetchers.DataFetcher.FetchConsumptionData | src/data/fetchers.py:359-394 | the result is ConsumptionFetch, with its call log |
| Fetchers.DataFetcher.FetchDashboardData | src/data/fetchers.py:321-356 | the result is DashboardFetch; all six GETs are made in order |
| Fetchers.DataFetcher.GatherDashboard | src/data/fetchers.py:338-342 | one GET per dashboard source, in source order, every answer or failure kept |
| Fetchers.DataFetcher.DashboardTablesOf | src/data/fetchers.py:344-352 | the loop over gathered results computes DashboardTables: an empty table for a failed call, the processed answer otherwise |
| Fetchers.DataFetcher.FetchOrganizationOverview | src/data/fetchers.py:397-434 | the result is OverviewFetch; the five sub-fetches' calls, in order |

## Left out

- Floating point: prices and quantities are exact reals. The model has no NaN, no rounding in the pivot mean, and does not cover `aggregate_generation_by_type` or `calculate_price_statistics` (means, standard deviation, median, `round(2)`).
- Python's `True == 1` hash collision in dict keys and pivot columns is not modelled; contract types are compared as JSON values.
- Bilateral.PivotShape: the pivot's columns are a set; the column order pandas produces is not stated.
- Timestamps.SortByTime: the model's sort is one fixed order, in which equal timestamps come out in reverse input order; pandas' quicksort may order them differently, so contracts state only "sorted and a permutation".
- Normalize.ParseDatetime: every parsed date is one kind of wall-clock integer. pandas keeps a string with an offset ("…T…+03:00") as a time-zone-aware Timestamp and a "YYYY-MM-DD" string as a naive one. Two consequences are not modelled. First, content that mixes both kinds makes `sort_values("datetime")` raise TypeError (tz-naive against tz-aware), where the model sorts. Second, aware timestamps with different offsets sort by UTC instant in pandas, and by wall clock in the model.
- Normalize.ParseDatetime: a date value that is not a string is taken as NaT. That is what Python does for null, numbers and booleans, but pandas turns a list of date strings (and a dict of date parts) into a DatetimeIndex or Series, which a single timestamp cannot hold.
- Json.Get: JSON objects are taken to have distinct keys. For an object with a duplicated key, `Get` finds the first member, where `json.loads` keeps the last.
- Fetchers.DataFetcher.FetchPtfData: it uses the corrected `PtfFrame` of "## Findings". For content that is truthy but holds no dict item, it returns the empty PTF table, where `fetch_ptf_data` as written lets the KeyError of `process_ptf_data` reach the caller.
- Fetchers.DataFetcher.FetchSmfData: it uses the corrected `SmfFrame` of "## Findings". The same content gives the empty SMF table, where `fetch_smf_data` as written raises KeyError.
- Fetchers.DataFetcher.FetchOrganizationOverview: its "ptf" and "smf" parts use the corrected processors. For that content they are the empty PTF and SMF tables, where the code as written catches the KeyError and stores `pd.DataFrame()` without columns.
- Bilateral.BilateralFrame: no record at all gives the empty pivot, which stands for `pd.DataFrame()`.
- Processors.SummaryRows: the summary rows' timestamp is `datetime.now()`, which is left out of the row.
- String-to-number and string-to-datetime parsing (`float(str)`, `int(str)`, `pd.to_datetime`) are oracle functions, not a parser.
- Pydantic coercion is simplified: string fields accept only strings, and integer fields go through `int()`.
- Reading the environment and the `.env` file: a `Settings` value stands for their outcome.
- Auth.CurrentStep: the manager refreshes 60 s before expiry, as `auth.py` does; the ten-minute margin in the settings is not used by it.
- Requests.RaiseForStatus: `raise_for_status` raises for 400..599; statuses of 600 and above pass.
- The HTTP transport and the CAS form post are oracle objects (`Session`, `CasServer`), each answering by call count with a status and a body. A reply that is not JSON is modelled (JsonDecodeError). A raised transport exception (`requests.Timeout` after the 30-second timeout of the data calls or the 10-second timeout of the CAS post, `ConnectionError`) is not. In the source such an exception leaves `current()` with its fields unchanged and ends `_request` without a retry.
- Fetchers.ApiClient: the client of the fetchers answers each call as a fixed function of the call. This covers `get_paginated`, which `epias.py` does not define, and the `EPIASClient`/`APIError` names the fetchers import but `epias.py` does not define. Pagination is not modelled.
- Fetchers.DataFetcher.FetchDashboardData: `asyncio.gather` is modelled as the six calls in order. Fetchers.DataFetcher.FetchBilateralContracts: when both sides fail, the buy side's error is the one reported. Concurrency is not modelled.
- Logging, the async context manager and the Streamlit dashboard UI are not part of this model; `src/data/market.py` is not part of this model.

## Findings

| source | as written | input that shows it | evidently intended | confidence | as-written member | corrected member |
|---|---|---|---|---|---|---|
| src/data/processors.py:71-72 | `process_ptf_data` sorts `pd.DataFrame(records)` by "datetime" without the `df.empty` guard the other processors have | content `[1]` (truthy, no dict item): `sort_values("datetime")` on a frame without that column raises KeyError | the empty PTF table with the documented columns | not executed | Processors.PtfAsWrittenRaises, Processors.PtfAsWrittenDiffers | Processors.PtfFrame, Processors.PtfRows |
| src/data/processors.py:104-105 | `process_smf_data`: the same missing guard | content `[1]` raises KeyError("datetime") | the empty SMF table with the documented columns | not executed | Processors.SmfAsWrittenRaises | Processors.SmfFrame, Processors.SmfRows |
