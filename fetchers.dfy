/** `DataFetcher`: builds a request object for each data set, hands it to the data
    client, and turns the answer into a table or a list of models. The data client
    is an object with three operations (`post`, `get`, `get_paginated`) whose
    answers are an oracle: each call returns a decoded response or raises. Dates
    are days counted from the epoch. */
module Fetchers {
  import opened Wrappers
  import opened Json
  import opened Timestamps
  import opened Normalize
  import opened Processors
  import opened Bilateral
  import opened Models
  import opened Endpoints

  // ------------------------------------------------------------ the data client

  datatype CallKind = PostCall | GetCall | PaginatedCall

  /** One call to the data client: the operation, the endpoint, and the request
      object passed along (none for a plain GET). */
  datatype Call = Call(kind: CallKind, endpoint: Endpoint, request: Option<Request>)

  /** The data client. It records every call made to it. */
  class ApiClient {
    const respond: Call -> Result<Json>
    var calls: seq<Call>

    constructor (respond: Call -> Result<Json>)
      ensures this.respond == respond && calls == []
    {
      this.respond := respond;
      calls := [];
    }

    method Post(endpoint: Endpoint, request: Request) returns (r: Result<Json>)
      modifies this
      ensures calls == old(calls) + [Call(PostCall, endpoint, Some(request))]
      ensures r == respond(Call(PostCall, endpoint, Some(request)))
    {
      r := respond(Call(PostCall, endpoint, Some(request)));
      calls := calls + [Call(PostCall, endpoint, Some(request))];
    }

    method Get(endpoint: Endpoint) returns (r: Result<Json>)
      modifies this
      ensures calls == old(calls) + [Call(GetCall, endpoint, None)]
      ensures r == respond(Call(GetCall, endpoint, None))
    {
      r := respond(Call(GetCall, endpoint, None));
      calls := calls + [Call(GetCall, endpoint, None)];
    }

    method GetPaginated(endpoint: Endpoint, request: Request) returns (r: Result<Json>)
      modifies this
      ensures calls == old(calls) + [Call(PaginatedCall, endpoint, Some(request))]
      ensures r == respond(Call(PaginatedCall, endpoint, Some(request)))
    {
      r := respond(Call(PaginatedCall, endpoint, Some(request)));
      calls := calls + [Call(PaginatedCall, endpoint, Some(request))];
    }
  }

  // ------------------------------------------------------------ requests

  /** The instants a day range covers: from the first day at 00:00:00 to the last
      day at 23:59:59.999999. */
  function DayRange(startDay: int, endDay: int): (range: DateRange)
    ensures range.startDate <= range.endDate <==> startDay <= endDay
  {
    DateRange(startDay * MicrosPerDay, endDay * MicrosPerDay + MicrosPerDay - 1)
  }

  /** The range starts at the very beginning of its first day and ends in the last
      microsecond of its last day. */
  lemma DayRangeBounds(startDay: int, endDay: int)
    ensures var range := DayRange(startDay, endDay);
            && DayOf(range.startDate) == startDay && HourOf(range.startDate) == 0
            && WithinHour(range.startDate) == 0
            && DayOf(range.endDate) == endDay && HourOf(range.endDate) == 23
            && WithinHour(range.endDate) == MicrosPerHour - 1
  {
    var range := DayRange(startDay, endDay);
    Decompose(range.startDate, startDay, 0, 0);
    Decompose(range.endDate, endDay, 23, MicrosPerHour - 1);
  }

  function OrganizationListQuery(startDay: int, endDay: int): Request {
    OrganizationListRequest(None, DayRange(startDay, endDay))
  }

  function MarketQuery(startDay: int, endDay: int): Request {
    MarketDataRequest(None, DayRange(startDay, endDay), None)
  }

  function BilateralQuery(startDay: int, endDay: int): Request {
    BilateralContractsRequest(None, DayRange(startDay, endDay), None)
  }

  function GenerationQuery(organizationId: int, startDay: int, endDay: int, powerPlantId: Option<int>): Request {
    GenerationDataRequest(None, DayRange(startDay, endDay), organizationId, powerPlantId, None)
  }

  function KgupQuery(organizationId: int, startDay: int, endDay: int): Request {
    OrganizationRequest(None, DayRange(startDay, endDay), organizationId)
  }

  function ConsumptionQuery(startDay: int, endDay: int, provinceId: Option<int>): Request {
    ConsumptionDataRequest(None, DayRange(startDay, endDay), provinceId, None, None)
  }

  /** Every request a fetcher builds from a day range is rejected exactly when the
      last day comes before the first. */
  lemma QueriesRejectReversedRanges(organizationId: int, startDay: int, endDay: int, id: Option<int>)
    ensures Validate(OrganizationListQuery(startDay, endDay)).Err? <==> endDay < startDay
    ensures Validate(MarketQuery(startDay, endDay)).Err? <==> endDay < startDay
    ensures Validate(BilateralQuery(startDay, endDay)).Err? <==> endDay < startDay
    ensures Validate(GenerationQuery(organizationId, startDay, endDay, id)).Err? <==> endDay < startDay
    ensures Validate(KgupQuery(organizationId, startDay, endDay)).Err? <==> endDay < startDay
    ensures Validate(ConsumptionQuery(startDay, endDay, id)).Err? <==> endDay < startDay
    ensures Validate(UevcbListRequest(None, organizationId)).Ok?
  {
  }

  // ------------------------------------------------------------ single fetches

  /** A single-domain fetch: the request object is built (and validated) before the
      client is called; one call is made with it; its answer is processed. Every
      exception, the validation error and the client's own included, reaches the
      caller unchanged. */
  function RequestFetch<T>(respond: Call -> Result<Json>, kind: CallKind, endpoint: Endpoint, req: Request,
                           process: Json -> Result<T>): (r: Result<T>)
    ensures Validate(req).Err? ==> r == Err(ValidationError)
    ensures Validate(req).Ok? && respond(Call(kind, endpoint, Some(req))).Err? ==>
              r == Err(respond(Call(kind, endpoint, Some(req))).error)
    ensures Validate(req).Ok? && respond(Call(kind, endpoint, Some(req))).Ok? ==>
              r == process(respond(Call(kind, endpoint, Some(req))).value)
  {
    var valid :- Validate(req);
    var data :- respond(Call(kind, endpoint, Some(valid)));
    process(data)
  }

  /** The client calls a single-domain fetch makes: one, or none when the request
      object is rejected. */
  function CallsFor(kind: CallKind, endpoint: Endpoint, req: Request): (cs: seq<Call>)
    ensures |cs| <= 1
    ensures cs == [] <==> Validate(req).Err?
  {
    if Validate(req).Ok? then [Call(kind, endpoint, Some(req))] else []
  }

  function OrganizationOf(p: Parsers): Json -> Result<Organization> {
    d => ParseOrganization(p, d)
  }

  function PowerPlantOf(p: Parsers): Json -> Result<PowerPlant> {
    d => ParsePowerPlant(p, d)
  }

  function UevcbOf(p: Parsers): Json -> Result<Uevcb> {
    d => ParseUevcb(p, d)
  }

  /** The list extraction of the organisation, power plant and UEVCB fetchers: an
      empty list unless the response holds "body" and the body holds `key`;
      otherwise one model per element of that list, in order. */
  function ListOf<T>(response: Json, key: string, parse: Json -> Result<T>): Result<seq<T>> {
    var hasBody :- Contains("body", response);
    if !hasBody then Ok([])
    else
      var body :- Subscript(response, "body");
      var hasKey :- Contains(key, body);
      if !hasKey then Ok([])
      else
        var list :- Subscript(body, key);
        var items :- Iterate(list);
        MapAll(items, parse)
  }

  /** For a dict response: no "body", or a dict body without `key`, gives the empty
      list; a list under `key` gives exactly one model per element, in order, and
      raises exactly when some element is rejected. */
  lemma ListOfShape<T>(fields: Fields, key: string, parse: Json -> Result<T>)
    ensures Get(fields, "body").None? ==> ListOf(JObj(fields), key, parse) == Ok([])
    ensures forall body :: Get(fields, "body") == Some(JObj(body)) && Get(body, key).None? ==>
              ListOf(JObj(fields), key, parse) == Ok([])
    ensures forall body, items :: Get(fields, "body") == Some(JObj(body)) && Get(body, key) == Some(JArr(items)) ==>
              var r := ListOf(JObj(fields), key, parse);
              && (r.Ok? <==> forall k :: 0 <= k < |items| ==> parse(items[k]).Ok?)
              && (r.Ok? ==> |r.value| == |items| && forall k :: 0 <= k < |items| ==> parse(items[k]) == Ok(r.value[k]))
  {
    forall body, items | Get(fields, "body") == Some(JObj(body)) && Get(body, key) == Some(JArr(items))
      ensures var r := ListOf(JObj(fields), key, parse);
              && (r.Ok? <==> forall k :: 0 <= k < |items| ==> parse(items[k]).Ok?)
              && (r.Ok? ==> |r.value| == |items| && forall k :: 0 <= k < |items| ==> parse(items[k]) == Ok(r.value[k]))
    {
      assert ListOf(JObj(fields), key, parse) == MapAll(items, parse);
      MapAllSpec(items, parse);
    }
  }

  function OrganizationsFetch(respond: Call -> Result<Json>, p: Parsers, startDay: int, endDay: int): Result<seq<Organization>> {
    RequestFetch(respond, PostCall, GenerationOrgList, OrganizationListQuery(startDay, endDay),
                 response => ListOf(response, "organizations", OrganizationOf(p)))
  }

  function PowerPlantsFetch(respond: Call -> Result<Json>, p: Parsers): Result<seq<PowerPlant>> {
    var response :- respond(Call(GetCall, GenerationPowerplantList, None));
    ListOf(response, "powerPlantList", PowerPlantOf(p))
  }

  function UevcbListFetch(respond: Call -> Result<Json>, p: Parsers, organizationId: int): Result<seq<Uevcb>> {
    RequestFetch(respond, PostCall, GenerationUevcbList, UevcbListRequest(None, organizationId),
                 response => ListOf(response, "uevcbList", UevcbOf(p)))
  }

  function PtfFetch(respond: Call -> Result<Json>, p: Parsers, startDay: int, endDay: int): Result<Table<PtfRow>> {
    RequestFetch(respond, PaginatedCall, DamMcp, MarketQuery(startDay, endDay), data => PtfFrame(p, data))
  }

  function SmfFetch(respond: Call -> Result<Json>, p: Parsers, startDay: int, endDay: int): Result<Table<SmfRow>> {
    RequestFetch(respond, PaginatedCall, BpmSystemMarginalPrice, MarketQuery(startDay, endDay),
                 data => SmfFrame(p, data))
  }

  function GenerationFetch(respond: Call -> Result<Json>, p: Parsers, organizationId: int, startDay: int,
                           endDay: int, powerPlantId: Option<int>): Result<Table<GenerationRow>> {
    RequestFetch(respond, PaginatedCall, GenerationRealtime,
                 GenerationQuery(organizationId, startDay, endDay, powerPlantId), data => GenerationFrame(p, data))
  }

  function KgupFetch(respond: Call -> Result<Json>, p: Parsers, organizationId: int, startDay: int,
                     endDay: int): Result<Table<KgupRow>> {
    RequestFetch(respond, PaginatedCall, GenerationDpp, KgupQuery(organizationId, startDay, endDay),
                 data => KgupFrame(p, data))
  }

  function ConsumptionFetch(respond: Call -> Result<Json>, p: Parsers, startDay: int, endDay: int,
                            provinceId: Option<int>): Result<Table<ConsumptionRow>> {
    RequestFetch(respond, PaginatedCall, ConsumptionQuantity, ConsumptionQuery(startDay, endDay, provinceId),
                 data => ConsumptionFrame(p, data))
  }

  /** The bilateral fetch: both sides are asked for with the same request; the BID
      answer is the buy side and the OFFER answer the sell side. When a call fails
      its exception propagates, the buy side's first. */
  function BilateralFetch(respond: Call -> Result<Json>, p: Parsers, startDay: int, endDay: int): Result<Pivot> {
    var req :- Validate(BilateralQuery(startDay, endDay));
    var buy := respond(Call(PaginatedCall, BilateralContractsBid, Some(req)));
    var sell := respond(Call(PaginatedCall, BilateralContractsOffer, Some(req)));
    var buyData :- buy;
    var sellData :- sell;
    BilateralFrame(p, buyData, sellData)
  }

  /** BID data feeds the buy side and OFFER data the sell side, and a reversed range
      fails before either call. */
  lemma BilateralWiring(respond: Call -> Result<Json>, p: Parsers, startDay: int, endDay: int, buyData: Json,
                        sellData: Json)
    requires startDay <= endDay
    requires respond(Call(PaginatedCall, BilateralContractsBid, Some(BilateralQuery(startDay, endDay)))) == Ok(buyData)
    requires respond(Call(PaginatedCall, BilateralContractsOffer, Some(BilateralQuery(startDay, endDay)))) == Ok(sellData)
    ensures BilateralFetch(respond, p, startDay, endDay) == BilateralFrame(p, buyData, sellData)
    ensures BilateralFetch(respond, p, endDay + 1, endDay) == Err(ValidationError)
  {
  }

  // ------------------------------------------------------------ batches

  /** The dashboard data sets, by name. */
  const DashboardSources: seq<(string, Endpoint)> := [
    ("bpm", DashboardBpm),
    ("dam", DashboardDam),
    ("idm", DashboardIdm),
    ("consumption", DashboardConsumption),
    ("generation", DashboardGeneration),
    ("weighted_price", DashboardWeightedPrice)
  ]

  /** The dashboard table of one gathered result: empty for a failed call, the
      processed answer otherwise. */
  function DashboardEntry(p: Parsers, result: Result<Json>): Result<Table<DashboardRow>> {
    match result
    case Err(_) => Ok(EmptyFrame())
    case Ok(data) => DashboardFrame(p, data)
  }

  /** How one gathered result becomes a table. */
  type DashboardEntryFn = Result<Json> -> Result<Table<DashboardRow>>

  function DashboardEntryOf(p: Parsers): DashboardEntryFn {
    result => DashboardEntry(p, result)
  }

  /** The dashboard tables, from the results gathered for each source in order,
      each turned into a table by `entry`. */
  function DashboardTables(entry: DashboardEntryFn, sources: seq<(string, Endpoint)>, results: seq<Result<Json>>)
    : (r: Result<map<string, Table<DashboardRow>>>)
    requires |sources| == |results|
    decreases |sources|
  {
    if sources == [] then Ok(map[])
    else
      var n := |sources| - 1;
      var m :- DashboardTables(entry, sources[..n], results[..n]);
      var t :- entry(results[n]);
      Ok(m[sources[n].0 := t])
  }

  /** Names that occur once each. */
  predicate DistinctNames(sources: seq<(string, Endpoint)>) {
    forall i, j :: 0 <= i < j < |sources| ==> sources[i].0 != sources[j].0
  }

  /** Every gathered result yields a table. */
  predicate AllEntriesOk(entry: DashboardEntryFn, results: seq<Result<Json>>) {
    forall k :: 0 <= k < |results| ==> entry(results[k]).Ok?
  }

  lemma AllEntriesOkStep(entry: DashboardEntryFn, results: seq<Result<Json>>)
    requires results != []
    ensures AllEntriesOk(entry, results) <==>
              AllEntriesOk(entry, results[..|results| - 1]) && entry(results[|results| - 1]).Ok?
  {
    var n := |results| - 1;
    assert forall k :: 0 <= k < n ==> results[..n][k] == results[k];
  }

  /** The batch raises exactly when processing some successful answer raises; a
      failed call never does. */
  lemma {:induction false} DashboardTablesOk(entry: DashboardEntryFn, sources: seq<(string, Endpoint)>, results: seq<Result<Json>>)
    requires |sources| == |results|
    ensures DashboardTables(entry, sources, results).Ok? <==> AllEntriesOk(entry, results)
    decreases |sources|
  {
    if sources != [] {
      var n := |sources| - 1;
      DashboardTablesOk(entry, sources[..n], results[..n]);
      AllEntriesOkStep(entry, results);
    }
  }

  /** A successful batch has one key per source name. */
  lemma {:induction false} DashboardTablesKeys(entry: DashboardEntryFn, sources: seq<(string, Endpoint)>, results: seq<Result<Json>>)
    requires |sources| == |results|
    ensures DashboardTables(entry, sources, results).Ok? ==>
              DashboardTables(entry, sources, results).value.Keys == (set k | 0 <= k < |sources| :: sources[k].0)
    decreases |sources|
  {
    if sources != [] && DashboardTables(entry, sources, results).Ok? {
      var n := |sources| - 1;
      DashboardTablesKeys(entry, sources[..n], results[..n]);
      assert (set k | 0 <= k < |sources| :: sources[k].0) == (set k | 0 <= k < n :: sources[..n][k].0) + {sources[n].0};
    }
  }

  /** With distinct names, a successful batch maps each source's name to its entry:
      an empty table for a failed call, the processed answer otherwise. */
  lemma {:induction false} DashboardTablesEntries(entry: DashboardEntryFn, sources: seq<(string, Endpoint)>,
                                                  results: seq<Result<Json>>)
    requires |sources| == |results| && DistinctNames(sources)
    requires DashboardTables(entry, sources, results).Ok?
    ensures forall k :: 0 <= k < |sources| ==>
              && sources[k].0 in DashboardTables(entry, sources, results).value
              && entry(results[k]) == Ok(DashboardTables(entry, sources, results).value[sources[k].0])
    decreases |sources|
  {
    if sources != [] {
      var n := |sources| - 1;
      DashboardTablesEntries(entry, sources[..n], results[..n]);
      assert forall k :: 0 <= k < n ==> sources[..n][k] == sources[k] && results[..n][k] == results[k];
    }
  }

  /** What `fetch_dashboard_data` gathers: one GET per source. */
  function DashboardResults(respond: Call -> Result<Json>): (rs: seq<Result<Json>>)
    ensures |rs| == |DashboardSources|
  {
    seq(|DashboardSources|, k requires 0 <= k < |DashboardSources| => respond(Call(GetCall, DashboardSources[k].1, None)))
  }

  /** The GETs `fetch_dashboard_data` makes, in order. */
  function DashboardCalls(): (cs: seq<Call>)
    ensures |cs| == |DashboardSources|
  {
    seq(|DashboardSources|, k requires 0 <= k < |DashboardSources| => Call(GetCall, DashboardSources[k].1, None))
  }

  function DashboardFetch(respond: Call -> Result<Json>, p: Parsers): Result<map<string, Table<DashboardRow>>> {
    DashboardTables(DashboardEntryOf(p), DashboardSources, DashboardResults(respond))
  }

  /** The dashboard batch has exactly the six named keys; a source whose call fails
      maps to an empty table, never to an exception. */
  lemma DashboardBatch(respond: Call -> Result<Json>, p: Parsers)
    ensures var r := DashboardFetch(respond, p);
            && (r.Ok? <==> forall k :: 0 <= k < 6 ==> DashboardEntry(p, DashboardResults(respond)[k]).Ok?)
            && (r.Ok? ==> r.value.Keys == {"bpm", "dam", "idm", "consumption", "generation", "weighted_price"})
            && (r.Ok? ==> forall k :: 0 <= k < 6 && DashboardResults(respond)[k].Err? ==>
                            r.value[DashboardSources[k].0] == EmptyFrame())
  {
    var s := DashboardSources;
    var rs := DashboardResults(respond);
    DashboardTablesOk(DashboardEntryOf(p), s, rs);
    DashboardTablesKeys(DashboardEntryOf(p), s, rs);
    DashboardNames();
    if DashboardFetch(respond, p).Ok? {
      DashboardNamesDistinct();
      DashboardTablesEntries(DashboardEntryOf(p), s, rs);
    }
  }

  lemma DashboardNames()
    ensures (set k | 0 <= k < |DashboardSources| :: DashboardSources[k].0)
            == {"bpm", "dam", "idm", "consumption", "generation", "weighted_price"}
  {
    var s := DashboardSources;
    assert s[0].0 == "bpm" && s[1].0 == "dam" && s[2].0 == "idm" && s[3].0 == "consumption";
    assert s[4].0 == "generation" && s[5].0 == "weighted_price";
  }

  lemma DashboardNamesDistinct()
    ensures DistinctNames(DashboardSources)
  {
    var s := DashboardSources;
    assert s[0].0 == "bpm" && s[1].0 == "dam" && s[2].0 == "idm" && s[3].0 == "consumption";
    assert s[4].0 == "generation" && s[5].0 == "weighted_price";
  }

  /** One part of the organisation overview. */
  datatype OverviewPart =
    | UevcbPart(uevcbs: seq<Uevcb>)
    | GenerationPart(generation: Table<GenerationRow>)
    | KgupPart(kgup: Table<KgupRow>)
    | PtfPart(ptf: Table<PtfRow>)
    | SmfPart(smf: Table<SmfRow>)

  const OverviewKeys: set<string> := {"uevcb_list", "generation", "kgup", "ptf", "smf"}

  /** `fetch_organization_overview`: the five sub-fetches, each of which falls back
      to its empty value (an empty list for the UEVCBs, an empty table for the
      others) when it raises. */
  function OverviewFetch(respond: Call -> Result<Json>, p: Parsers, organizationId: int, startDay: int, endDay: int)
    : (m: map<string, OverviewPart>)
    ensures m.Keys == OverviewKeys
  {
    var u := UevcbListFetch(respond, p, organizationId);
    var g := GenerationFetch(respond, p, organizationId, startDay, endDay, None);
    var k := KgupFetch(respond, p, organizationId, startDay, endDay);
    var f := PtfFetch(respond, p, startDay, endDay);
    var s := SmfFetch(respond, p, startDay, endDay);
    map[]["uevcb_list" := UevcbPart(if u.Ok? then u.value else [])]
         ["generation" := GenerationPart(if g.Ok? then g.value else EmptyFrame())]
         ["kgup" := KgupPart(if k.Ok? then k.value else EmptyFrame())]
         ["ptf" := PtfPart(if f.Ok? then f.value else EmptyFrame())]
         ["smf" := SmfPart(if s.Ok? then s.value else EmptyFrame())]
  }

  /** Each part of the overview is its own sub-fetch's result, or that part's empty
      value when the sub-fetch raises; a failing part never affects another. */
  lemma OverviewFallback(respond: Call -> Result<Json>, p: Parsers, organizationId: int, startDay: int,
                         endDay: int)
    ensures var m := OverviewFetch(respond, p, organizationId, startDay, endDay);
            var u := UevcbListFetch(respond, p, organizationId);
            var g := GenerationFetch(respond, p, organizationId, startDay, endDay, None);
            var k := KgupFetch(respond, p, organizationId, startDay, endDay);
            var f := PtfFetch(respond, p, startDay, endDay);
            var s := SmfFetch(respond, p, startDay, endDay);
            && (u.Err? ==> m["uevcb_list"] == UevcbPart([])) && (u.Ok? ==> m["uevcb_list"] == UevcbPart(u.value))
            && (g.Err? ==> m["generation"] == GenerationPart(EmptyFrame()))
            && (g.Ok? ==> m["generation"] == GenerationPart(g.value))
            && (k.Err? ==> m["kgup"] == KgupPart(EmptyFrame())) && (k.Ok? ==> m["kgup"] == KgupPart(k.value))
            && (f.Err? ==> m["ptf"] == PtfPart(EmptyFrame())) && (f.Ok? ==> m["ptf"] == PtfPart(f.value))
            && (s.Err? ==> m["smf"] == SmfPart(EmptyFrame())) && (s.Ok? ==> m["smf"] == SmfPart(s.value))
  {
  }

  /** A reversed range makes every dated part of the overview empty while the UEVCB
      list is still fetched. */
  lemma OverviewReversedRange(respond: Call -> Result<Json>, p: Parsers, organizationId: int, startDay: int,
                              endDay: int)
    requires endDay < startDay
    ensures var m := OverviewFetch(respond, p, organizationId, startDay, endDay);
            && m["generation"] == GenerationPart(EmptyFrame())
            && m["kgup"] == KgupPart(EmptyFrame())
            && m["ptf"] == PtfPart(EmptyFrame())
            && m["smf"] == SmfPart(EmptyFrame())
            && (UevcbListFetch(respond, p, organizationId).Ok? ==>
                  m["uevcb_list"] == UevcbPart(UevcbListFetch(respond, p, organizationId).value))
  {
    QueriesRejectReversedRanges(organizationId, startDay, endDay, None);
  }

  // ------------------------------------------------------------ the fetcher

  /** The loop of the list fetchers: one model per element, in order; the first
      rejected element aborts. */
  method CollectList<T>(items: seq<Json>, parse: Json -> Result<T>) returns (r: Result<seq<T>>)
    ensures r == MapAll(items, parse)
  {
    var models: seq<T> := [];
    var i := 0;
    while i < |items|
      invariant 0 <= i <= |items|
      invariant MapAll(items[..i], parse) == Ok(models)
    {
      assert items[..i + 1] == items[..i] + [items[i]];
      MapAllStep(items[..i], items[i], parse);
      var model := parse(items[i]);
      if model.Err? {
        MapAllErrorPersists(items, i + 1, parse);
        return Err(model.error);
      }
      models := models + [model.value];
      i := i + 1;
    }
    assert items[..i] == items;
    return Ok(models);
  }

  /** The body-and-key test and the loop of the list fetchers. */
  method ExtractList<T>(response: Json, key: string, parse: Json -> Result<T>) returns (r: Result<seq<T>>)
    ensures r == ListOf(response, key, parse)
  {
    var hasBody :- Contains("body", response);
    if !hasBody {
      return Ok([]);
    }
    var body :- Subscript(response, "body");
    var hasKey :- Contains(key, body);
    if !hasKey {
      return Ok([]);
    }
    var list :- Subscript(body, key);
    var items :- Iterate(list);
    r := CollectList(items, parse);
  }

  class DataFetcher {
    const client: ApiClient
    /** The library parsers the processor relies on. */
    const parsers: Parsers

    constructor (client: ApiClient, parsers: Parsers)
      ensures this.client == client && this.parsers == parsers
    {
      this.client := client;
      this.parsers := parsers;
    }

    method FetchOrganizations(startDay: int, endDay: int) returns (r: Result<seq<Organization>>)
      modifies client
      ensures r == OrganizationsFetch(client.respond, parsers, startDay, endDay)
      ensures client.calls == old(client.calls) + CallsFor(PostCall, GenerationOrgList, OrganizationListQuery(startDay, endDay))
    {
      var request :- Validate(OrganizationListQuery(startDay, endDay));
      var response :- client.Post(GenerationOrgList, request);
      r := ExtractList(response, "organizations", OrganizationOf(parsers));
    }

    method FetchPowerPlants() returns (r: Result<seq<PowerPlant>>)
      modifies client
      ensures r == PowerPlantsFetch(client.respond, parsers)
      ensures client.calls == old(client.calls) + [Call(GetCall, GenerationPowerplantList, None)]
    {
      var response :- client.Get(GenerationPowerplantList);
      r := ExtractList(response, "powerPlantList", PowerPlantOf(parsers));
    }

    method FetchUevcbList(organizationId: int) returns (r: Result<seq<Uevcb>>)
      modifies client
      ensures r == UevcbListFetch(client.respond, parsers, organizationId)
      ensures client.calls == old(client.calls) + [Call(PostCall, GenerationUevcbList, Some(UevcbListRequest(None, organizationId)))]
    {
      var request := UevcbListRequest(None, organizationId);
      var response :- client.Post(GenerationUevcbList, request);
      r := ExtractList(response, "uevcbList", UevcbOf(parsers));
    }

    method FetchPtfData(startDay: int, endDay: int) returns (r: Result<Table<PtfRow>>)
      modifies client
      ensures r == PtfFetch(client.respond, parsers, startDay, endDay)
      ensures client.calls == old(client.calls) + CallsFor(PaginatedCall, DamMcp, MarketQuery(startDay, endDay))
    {
      var request :- Validate(MarketQuery(startDay, endDay));
      var data :- client.GetPaginated(DamMcp, request);
      r := ProcessPtf(parsers, data);
    }

    method FetchSmfData(startDay: int, endDay: int) returns (r: Result<Table<SmfRow>>)
      modifies client
      ensures r == SmfFetch(client.respond, parsers, startDay, endDay)
      ensures client.calls == old(client.calls) + CallsFor(PaginatedCall, BpmSystemMarginalPrice, MarketQuery(startDay, endDay))
    {
      var request :- Validate(MarketQuery(startDay, endDay));
      var data :- client.GetPaginated(BpmSystemMarginalPrice, request);
      r := ProcessSmf(parsers, data);
    }

    method FetchBilateralContracts(startDay: int, endDay: int) returns (r: Result<Pivot>)
      modifies client
      ensures r == BilateralFetch(client.respond, parsers, startDay, endDay)
      ensures startDay <= endDay ==>
                client.calls == old(client.calls) + [Call(PaginatedCall, BilateralContractsBid, Some(BilateralQuery(startDay, endDay))),
                                                     Call(PaginatedCall, BilateralContractsOffer, Some(BilateralQuery(startDay, endDay)))]
      ensures endDay < startDay ==> client.calls == old(client.calls)
    {
      var request :- Validate(BilateralQuery(startDay, endDay));
      var buy := client.GetPaginated(BilateralContractsBid, request);
      var sell := client.GetPaginated(BilateralContractsOffer, request);
      var buyData :- buy;
      var sellData :- sell;
      r := ProcessBilateral(parsers, buyData, sellData);
    }

    method FetchGenerationData(organizationId: int, startDay: int, endDay: int, powerPlantId: Option<int>)
      returns (r: Result<Table<GenerationRow>>)
      modifies client
      ensures r == GenerationFetch(client.respond, parsers, organizationId, startDay, endDay, powerPlantId)
      ensures client.calls == old(client.calls) +
                CallsFor(PaginatedCall, GenerationRealtime, GenerationQuery(organizationId, startDay, endDay, powerPlantId))
    {
      var request :- Validate(GenerationQuery(organizationId, startDay, endDay, powerPlantId));
      var data :- client.GetPaginated(GenerationRealtime, request);
      r := ProcessGeneration(parsers, data);
    }

    method FetchKgupData(organizationId: int, startDay: int, endDay: int) returns (r: Result<Table<KgupRow>>)
      modifies client
      ensures r == KgupFetch(client.respond, parsers, organizationId, startDay, endDay)
      ensures client.calls == old(client.calls) + CallsFor(PaginatedCall, GenerationDpp, KgupQuery(organizationId, startDay, endDay))
    {
      var request :- Validate(KgupQuery(organizationId, startDay, endDay));
      var data :- client.GetPaginated(GenerationDpp, request);
      r := ProcessKgup(parsers, data);
    }

    method FetchConsumptionData(startDay: int, endDay: int, provinceId: Option<int>) returns (r: Result<Table<ConsumptionRow>>)
      modifies client
      ensures r == ConsumptionFetch(client.respond, parsers, startDay, endDay, provinceId)
      ensures client.calls == old(client.calls) +
                CallsFor(PaginatedCall, ConsumptionQuantity, ConsumptionQuery(startDay, endDay, provinceId))
    {
      var request :- Validate(ConsumptionQuery(startDay, endDay, provinceId));
      var data :- client.GetPaginated(ConsumptionQuantity, request);
      r := ProcessConsumption(parsers, data);
    }

    /** `fetch_dashboard_data`: all six GETs are made, then the answers are turned
      into tables in order. */
    method FetchDashboardData() returns (r: Result<map<string, Table<DashboardRow>>>)
      modifies client
      ensures r == DashboardFetch(client.respond, parsers)
      ensures client.calls == old(client.calls) + DashboardCalls()
    {
      var results := GatherDashboard();
      r := DashboardTablesOf(results);
    }

    /** The six GETs, in order, each answer or failure kept. */
    method GatherDashboard() returns (results: seq<Result<Json>>)
      modifies client
      ensures results == DashboardResults(client.respond)
      ensures client.calls == old(client.calls) + DashboardCalls()
    {
      var sources := DashboardSources;
      results := [];
      var i := 0;
      while i < |sources|
        invariant 0 <= i <= |sources|
        invariant results == DashboardResults(client.respond)[..i]
        invariant client.calls == old(client.calls) + DashboardCalls()[..i]
      {
        var result := client.Get(sources[i].1);
        assert DashboardCalls()[..i + 1] == DashboardCalls()[..i] + [DashboardCalls()[i]];
        results := results + [result];
        i := i + 1;
      }
      assert DashboardCalls()[..i] == DashboardCalls();
    }

    /** One table per source: empty for a failed call, the processed answer otherwise. */
    method DashboardTablesOf(results: seq<Result<Json>>) returns (r: Result<map<string, Table<DashboardRow>>>)
      requires |results| == |DashboardSources|
      ensures r == DashboardTables(DashboardEntryOf(parsers), DashboardSources, results)
    {
      var sources := DashboardSources;
      var tables: map<string, Table<DashboardRow>> := map[];
      var i := 0;
      while i < |sources|
        invariant 0 <= i <= |sources|
        invariant DashboardTables(DashboardEntryOf(parsers), sources[..i], results[..i]) == Ok(tables)
      {
        assert sources[..i + 1][..i] == sources[..i] && results[..i + 1][..i] == results[..i];
        var table := Ok(EmptyFrame());
        if results[i].Ok? {
          table := ProcessDashboard(parsers, results[i].value);
        }
        if table.Err? {
          DashboardTablesError(DashboardEntryOf(parsers), sources, results, i + 1);
          return Err(table.error);
        }
        tables := tables[sources[i].0 := table.value];
        i := i + 1;
      }
      assert sources[..i] == sources && results[..i] == results;
      return Ok(tables);
    }

    /** `fetch_organization_overview`: the five sub-fetches in order; whichever
      raises contributes its empty value instead. */
    method FetchOrganizationOverview(organizationId: int, startDay: int, endDay: int)
      returns (m: map<string, OverviewPart>)
      modifies client
      ensures m == OverviewFetch(client.respond, parsers, organizationId, startDay, endDay)
      ensures client.calls == old(client.calls)
                + [Call(PostCall, GenerationUevcbList, Some(UevcbListRequest(None, organizationId)))]
                + CallsFor(PaginatedCall, GenerationRealtime, GenerationQuery(organizationId, startDay, endDay, None))
                + CallsFor(PaginatedCall, GenerationDpp, KgupQuery(organizationId, startDay, endDay))
                + CallsFor(PaginatedCall, DamMcp, MarketQuery(startDay, endDay))
                + CallsFor(PaginatedCall, BpmSystemMarginalPrice, MarketQuery(startDay, endDay))
    {
      var u := FetchUevcbList(organizationId);
      var g := FetchGenerationData(organizationId, startDay, endDay, None);
      var k := FetchKgupData(organizationId, startDay, endDay);
      var f := FetchPtfData(startDay, endDay);
      var s := FetchSmfData(startDay, endDay);
      m := map[];
      m := m["uevcb_list" := UevcbPart(if u.Ok? then u.value else [])];
      m := m["generation" := GenerationPart(if g.Ok? then g.value else EmptyFrame())];
      m := m["kgup" := KgupPart(if k.Ok? then k.value else EmptyFrame())];
      m := m["ptf" := PtfPart(if f.Ok? then f.value else EmptyFrame())];
      m := m["smf" := SmfPart(if s.Ok? then s.value else EmptyFrame())];
    }
  }

  /** Once a prefix of the gathered results raises, the whole batch raises the same. */
  lemma {:induction false} DashboardTablesError(entry: DashboardEntryFn, sources: seq<(string, Endpoint)>,
                                                results: seq<Result<Json>>, n: nat)
    requires |sources| == |results| && n <= |sources|
    requires DashboardTables(entry, sources[..n], results[..n]).Err?
    ensures DashboardTables(entry, sources, results) == DashboardTables(entry, sources[..n], results[..n])
    decreases |sources| - n
  {
    if n < |sources| {
      assert sources[..n + 1][..n] == sources[..n] && results[..n + 1][..n] == results[..n];
      DashboardTablesError(entry, sources, results, n + 1);
    } else {
      assert sources[..n] == sources && results[..n] == results;
    }
  }
}
