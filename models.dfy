/** The request and response models of the API client: pagination settings, the
    request classes with their date-range check, the response envelope's accessors,
    and the organisation, power plant and UEVCB records the list fetchers build.
    Timestamps are naive datetimes in microseconds since the epoch. */
module Models {
  import opened Wrappers
  import opened Json
  import Normalize

  // ------------------------------------------------------------ pagination

  datatype PageSort = PageSort(direction: string, field: string)

  datatype PageConfig = PageConfig(number: int, size: int, sort: Option<PageSort>, total: Option<int>)

  const DefaultPageSort: PageSort := PageSort("ASC", "date")

  const DefaultPageConfig: PageConfig := PageConfig(1, 100, None, None)

  /** Whether a field is present and `int()` accepts it. */
  predicate IntOk(p: Parsers, fs: Fields, key: string) {
    Get(fs, key).Some? && ToInt(p, Get(fs, key).value).Ok?
  }

  /** Whether a field with a default is absent or `int()` accepts it. */
  predicate IntOrAbsent(p: Parsers, fs: Fields, key: string) {
    Get(fs, key).None? || ToInt(p, Get(fs, key).value).Ok?
  }

  /** Whether an `Optional[int]` field is absent, null, or accepted by `int()`. */
  predicate OptIntOk(p: Parsers, fs: Fields, key: string) {
    Get(fs, key).None? || Get(fs, key) == Some(JNull) || ToInt(p, Get(fs, key).value).Ok?
  }

  /** Whether a required `str` field is present and a string. */
  predicate StrPresent(fs: Fields, key: string) {
    Get(fs, key).Some? && Get(fs, key).value.JStr?
  }

  /** Whether an `Optional[str]` field is absent, null or a string. */
  predicate OptStrOk(fs: Fields, key: string) {
    Get(fs, key).None? || Get(fs, key) == Some(JNull) || Get(fs, key).value.JStr?
  }

  /** Validation of a field declared `int`: a number or a numeric string is
      converted as `int()` converts it; anything else is rejected. */
  function IntField(p: Parsers, fs: Fields, key: string, default: int): (r: Result<int>)
    ensures Get(fs, key).None? ==> r == Ok(default)
    ensures r.Ok? <==> IntOrAbsent(p, fs, key)
    ensures Get(fs, key).Some? && r.Ok? ==> ToInt(p, Get(fs, key).value) == Ok(r.value)
    ensures Get(fs, key).Some? && Get(fs, key).value.JNum? ==> r == Ok(Truncate(Get(fs, key).value.n))
    ensures r.Err? ==> r.error == ValidationError
  {
    match Get(fs, key)
    case None => Ok(default)
    case Some(v) =>
      match ToInt(p, v)
      case Ok(i) => Ok(i)
      case Err(_) => Err(ValidationError)
  }

  /** Whether a field is present and `int()` of it is `i`. */
  predicate IntIs(p: Parsers, fs: Fields, key: string, i: int) {
    Get(fs, key).Some? && ToInt(p, Get(fs, key).value) == Ok(i)
  }

  /** Validation of a required field declared `int`: a missing field is rejected. */
  function RequiredInt(p: Parsers, fs: Fields, key: string): (r: Result<int>)
    ensures Get(fs, key).None? ==> r == Err(ValidationError)
    ensures r.Ok? <==> IntOk(p, fs, key)
    ensures r.Ok? ==> IntIs(p, fs, key, r.value)
    ensures r.Err? ==> r.error == ValidationError
  {
    match Get(fs, key)
    case None => Err(ValidationError)
    case Some(v) =>
      match ToInt(p, v)
      case Ok(i) => Ok(i)
      case Err(_) => Err(ValidationError)
  }

  /** Validation of a field declared `Optional[int]`: absent or null gives None. */
  function OptIntField(p: Parsers, fs: Fields, key: string): (r: Result<Option<int>>)
    ensures (Get(fs, key).None? || Get(fs, key) == Some(JNull)) ==> r == Ok(None)
    ensures r.Ok? <==> OptIntOk(p, fs, key)
    ensures r.Ok? && r.value.Some? ==> Get(fs, key).Some? && ToInt(p, Get(fs, key).value) == Ok(r.value.value)
    ensures r.Err? ==> r.error == ValidationError
  {
    match Get(fs, key)
    case None => Ok(None)
    case Some(JNull) => Ok(None)
    case Some(v) =>
      match ToInt(p, v)
      case Ok(i) => Ok(Some(i))
      case Err(_) => Err(ValidationError)
  }

  /** Validation of a field declared `str`: only strings are accepted. */
  function StrField(fs: Fields, key: string, default: Option<string>): (r: Result<string>)
    ensures Get(fs, key).Some? && Get(fs, key).value.JStr? ==> r == Ok(Get(fs, key).value.s)
    ensures Get(fs, key).None? ==> (r.Ok? <==> default.Some?)
    ensures Get(fs, key).None? && default.Some? ==> r == Ok(default.value)
    ensures Get(fs, key).Some? && !Get(fs, key).value.JStr? ==> r == Err(ValidationError)
    ensures r.Err? ==> r.error == ValidationError
  {
    match Get(fs, key)
    case None => if default.Some? then Ok(default.value) else Err(ValidationError)
    case Some(JStr(s)) => Ok(s)
    case Some(_) => Err(ValidationError)
  }

  /** Whether an `Optional[str]` field validates to `o`: absent or null gives None,
      a string gives itself, and any other value does not validate. */
  predicate OptStrIs(fs: Fields, key: string, o: Option<string>) {
    match Get(fs, key)
    case None => o.None?
    case Some(JNull) => o.None?
    case Some(JStr(s)) => o == Some(s)
    case Some(_) => false
  }

  /** Whether a `str` field with a default validates to `s`: absent gives the
      default, a string gives itself. */
  predicate StrOrDefaultIs(fs: Fields, key: string, default: string, s: string) {
    match Get(fs, key)
    case None => s == default
    case Some(JStr(v)) => s == v
    case Some(_) => false
  }

  /** Whether a field is absent or holds a string. */
  predicate StrOrAbsent(fs: Fields, key: string) {
    Get(fs, key).None? || Get(fs, key).value.JStr?
  }

  /** Validation of a field declared `Optional[str]`: absent or null gives None. */
  function OptStrField(fs: Fields, key: string): (r: Result<Option<string>>)
    ensures (Get(fs, key).None? || Get(fs, key) == Some(JNull)) ==> r == Ok(None)
    ensures Get(fs, key).Some? && Get(fs, key).value.JStr? ==> r == Ok(Some(Get(fs, key).value.s))
    ensures r.Ok? <==> OptStrOk(fs, key)
    ensures r.Ok? ==> OptStrIs(fs, key, r.value)
    ensures r.Err? ==> r.error == ValidationError
  {
    match Get(fs, key)
    case None => Ok(None)
    case Some(JNull) => Ok(None)
    case Some(JStr(s)) => Ok(Some(s))
    case Some(_) => Err(ValidationError)
  }

  /** `PageSort(**d)` */
  function ParsePageSort(d: Fields): (r: Result<PageSort>)
    ensures Keys(d) == [] ==> r == Ok(DefaultPageSort)
    ensures r.Ok? <==> StrOrAbsent(d, "direction") && StrOrAbsent(d, "field")
    ensures r.Ok? ==> StrOrDefaultIs(d, "direction", "ASC", r.value.direction)
                      && StrOrDefaultIs(d, "field", "date", r.value.field)
    ensures r.Err? ==> r.error == ValidationError
  {
    var direction :- StrField(d, "direction", Some("ASC"));
    var field :- StrField(d, "field", Some("date"));
    Ok(PageSort(direction, field))
  }

  /** Whether an element of a sequence handed to `dict()` is a key/value pair whose
      key can name a keyword argument: it iterates to exactly two values, the first a
      string. */
  predicate PairOk(e: Json) {
    Iterate(e).Ok? && |Iterate(e).value| == 2 && Iterate(e).value[0].JStr?
  }

  /** The member a valid pair contributes. */
  function PairOf(e: Json): (string, Json)
    requires PairOk(e)
  {
    (Iterate(e).value[0].s, Iterate(e).value[1])
  }

  /** The members `dict(es)` builds, last pair first: a later pair overrides an
      earlier one with the same key, and Get takes the first match. */
  function PairsLastFirst(es: seq<Json>): (r: Result<Fields>)
    ensures r.Ok? <==> forall k :: 0 <= k < |es| ==> PairOk(es[k])
    ensures r.Ok? ==> |r.value| == |es| && forall k :: 0 <= k < |es| ==> r.value[k] == PairOf(es[|es| - 1 - k])
    ensures r.Err? ==> r.error == ValidationError
    decreases |es|
  {
    if es == [] then Ok([])
    else if !PairOk(es[|es| - 1]) then Err(ValidationError)
    else
      var rest :- PairsLastFirst(es[..|es| - 1]);
      Ok([PairOf(es[|es| - 1])] + rest)
  }

  /** The mapping pydantic v1 validates a nested model from: a dict as it is, and
      anything else through `dict(v)`, whose TypeError or ValueError (not iterable, an
      element that is not a pair, a key that is not a string) is a ValidationError. */
  function AsDict(v: Json): (r: Result<Fields>)
    ensures v.JObj? ==> r == Ok(v.fields)
    ensures !v.JObj? ==> (r.Ok? <==> Iterate(v).Ok? && forall k :: 0 <= k < |Iterate(v).value| ==> PairOk(Iterate(v).value[k]))
    ensures !v.JObj? && r.Ok? ==> r == PairsLastFirst(Iterate(v).value)
    ensures r.Err? ==> r.error == ValidationError
  {
    match v
    case JObj(fs) => Ok(fs)
    case _ =>
      match Iterate(v)
      case Ok(es) => PairsLastFirst(es)
      case Err(_) => Err(ValidationError)
  }

  /** Get on a list of members stored last first finds the last member with the key. */
  lemma {:induction false} GetLastFirst(fs: Fields, ps: Fields, key: string)
    requires |fs| == |ps| && forall k :: 0 <= k < |ps| ==> fs[k] == ps[|ps| - 1 - k]
    ensures Get(fs, key).None? <==> forall k :: 0 <= k < |ps| ==> ps[k].0 != key
    ensures Get(fs, key).Some? ==>
              exists k :: 0 <= k < |ps| && ps[k] == (key, Get(fs, key).value)
                          && forall m :: k < m < |ps| ==> ps[m].0 != key
  {
    if Get(fs, key).Some? {
      var i :| 0 <= i < |fs| && fs[i] == (key, Get(fs, key).value) && forall k :: 0 <= k < i ==> fs[k].0 != key;
      var k := |ps| - 1 - i;
      assert ps[k] == fs[i];
      forall m | k < m < |ps|
        ensures ps[m].0 != key
      {
        assert ps[m] == fs[|ps| - 1 - m];
      }
    } else {
      forall k | 0 <= k < |ps|
        ensures ps[k].0 != key
      {
        assert ps[k] == fs[|ps| - 1 - k];
      }
    }
  }

  /** In the mapping `dict(es)` builds, a key takes the value of the last pair that
      names it, and a key no pair names is absent. */
  lemma PairsLastWins(es: seq<Json>, key: string)
    requires forall k :: 0 <= k < |es| ==> PairOk(es[k])
    ensures Get(PairsLastFirst(es).value, key).None? <==> forall k :: 0 <= k < |es| ==> PairOf(es[k]).0 != key
    ensures Get(PairsLastFirst(es).value, key).Some? ==>
              exists k :: 0 <= k < |es| && PairOf(es[k]) == (key, Get(PairsLastFirst(es).value, key).value)
                          && forall m :: k < m < |es| ==> PairOf(es[m]).0 != key
  {
    var fs := PairsLastFirst(es).value;
    var ps := seq(|es|, k requires 0 <= k < |es| => PairOf(es[k]));
    assert forall k :: 0 <= k < |ps| ==> fs[k] == ps[|ps| - 1 - k];
    GetLastFirst(fs, ps, key);
    assert forall k :: 0 <= k < |es| ==> ps[k] == PairOf(es[k]);
  }

  /** Whether the `sort` member of a page dict validates: absent, null, or a value
      whose mapping (the dict itself, or `dict()` of it) has a direction and a field
      that are each absent or a string. */
  predicate SortOk(d: Fields) {
    match Get(d, "sort")
    case None => true
    case Some(JNull) => true
    case Some(v) => AsDict(v).Ok? && StrOrAbsent(AsDict(v).value, "direction") && StrOrAbsent(AsDict(v).value, "field")
  }

  /** Validation of the field declared `Optional[PageSort]`. */
  function SortField(d: Fields): (r: Result<Option<PageSort>>)
    ensures r.Ok? <==> SortOk(d)
    ensures (Get(d, "sort").None? || Get(d, "sort") == Some(JNull)) ==> r == Ok(None)
    ensures r.Ok? && r.value.Some? ==>
              Get(d, "sort").Some? && AsDict(Get(d, "sort").value).Ok?
              && StrOrDefaultIs(AsDict(Get(d, "sort").value).value, "direction", "ASC", r.value.value.direction)
              && StrOrDefaultIs(AsDict(Get(d, "sort").value).value, "field", "date", r.value.value.field)
    ensures r.Err? ==> r.error == ValidationError
  {
    match Get(d, "sort")
    case None => Ok(None)
    case Some(JNull) => Ok(None)
    case Some(v) => (var s :- AsDict(v); var ps :- ParsePageSort(s); Ok(Some(ps)))
  }

  /** A sort given as the empty list goes through `dict()` and takes the defaults. */
  lemma SortFromEmptyList()
    ensures SortField([("sort", JArr([]))]) == Ok(Some(DefaultPageSort))
  {
  }

  /** A sort given as a list of pairs sets the fields it names. */
  lemma SortFromPair()
    ensures SortField([("sort", JArr([JArr([JStr("direction"), JStr("DESC")])]))]) == Ok(Some(PageSort("DESC", "date")))
  {
  }

  /** The last of two pairs with the same key wins. */
  lemma SortLastPairWins()
    ensures SortField([("sort", JArr([JArr([JStr("field"), JStr("a")]), JArr([JStr("field"), JStr("b")])]))])
            == Ok(Some(PageSort("ASC", "b")))
  {
  }

  /** A number is not iterable, and a pair whose key is not a string cannot name a
      keyword: both are rejected. */
  lemma SortNotAMapping()
    ensures SortField([("sort", JNum(1.0))]) == Err(ValidationError)
    ensures SortField([("sort", JArr([JArr([JNum(1.0), JStr("DESC")])]))]) == Err(ValidationError)
  {
  }

  /** `PageConfig(**d)`: each field takes its default when absent; unknown keys are
      ignored. */
  function ParsePageConfig(p: Parsers, d: Fields): (r: Result<PageConfig>)
    ensures Keys(d) == [] ==> r == Ok(DefaultPageConfig)
    ensures r.Ok? <==> IntOrAbsent(p, d, "number") && IntOrAbsent(p, d, "size") && SortOk(d)
                       && OptIntOk(p, d, "total")
    ensures r.Ok? ==> (Get(d, "size").None? ==> r.value.size == 100)
                      && (Get(d, "number").None? ==> r.value.number == 1)
    ensures r.Ok? ==> (Get(d, "number").Some? ==> ToInt(p, Get(d, "number").value) == Ok(r.value.number))
                      && (Get(d, "size").Some? ==> ToInt(p, Get(d, "size").value) == Ok(r.value.size))
    ensures r.Ok? && (Get(d, "sort").None? || Get(d, "sort") == Some(JNull)) ==> r.value.sort.None?
    ensures r.Ok? && (Get(d, "total").None? || Get(d, "total") == Some(JNull)) ==> r.value.total.None?
    ensures r.Ok? && r.value.total.Some? ==> Get(d, "total").Some? && ToInt(p, Get(d, "total").value) == Ok(r.value.total.value)
    ensures r.Ok? && r.value.sort.Some? ==>
              Get(d, "sort").Some? && AsDict(Get(d, "sort").value).Ok?
              && StrOrDefaultIs(AsDict(Get(d, "sort").value).value, "direction", "ASC", r.value.sort.value.direction)
              && StrOrDefaultIs(AsDict(Get(d, "sort").value).value, "field", "date", r.value.sort.value.field)
    ensures r.Err? ==> r.error == ValidationError
  {
    var number :- IntField(p, d, "number", 1);
    var size :- IntField(p, d, "size", 100);
    var sort :- SortField(d);
    var total :- OptIntField(p, d, "total");
    Ok(PageConfig(number, size, sort, total))
  }

  // ------------------------------------------------------------ requests

  /** A start and an end instant. */
  datatype DateRange = DateRange(startDate: int, endDate: int)

  /** The request classes. All derive from the base request with its optional page;
      all but the UEVCB list request also carry a date range. */
  datatype Request =
    | OrganizationListRequest(page: Option<PageConfig>, range: DateRange)
    | PowerPlantListRequest(page: Option<PageConfig>, range: DateRange)
    | UevcbListRequest(page: Option<PageConfig>, organizationId: int)
    | OrganizationRequest(page: Option<PageConfig>, range: DateRange, organizationId: int)
    | GenerationDataRequest(page: Option<PageConfig>, range: DateRange, organizationId: int,
                            powerPlantId: Option<int>, uevcbId: Option<int>)
    | MarketDataRequest(page: Option<PageConfig>, range: DateRange, period: Option<string>)
    | BilateralContractsRequest(page: Option<PageConfig>, range: DateRange, contractType: Option<string>)
    | ConsumptionDataRequest(page: Option<PageConfig>, range: DateRange, provinceId: Option<int>,
                             districtId: Option<int>, profileGroup: Option<string>)

  /** Whether the request class derives from the date-range request. */
  predicate HasDateRange(req: Request) {
    !req.UevcbListRequest?
  }

  /** The endDate validator: an end before the start raises; an end equal to the
      start is accepted. The validator's ValueError reaches the caller as a
      ValidationError. */
  function ValidateDateRange(range: DateRange): (r: Result<DateRange>)
    ensures r.Ok? <==> range.startDate <= range.endDate
    ensures r.Ok? ==> r.value == range
    ensures r.Err? ==> r.error == ValidationError
  {
    if range.endDate < range.startDate then Err(ValidationError) else Ok(range)
  }

  /** Constructing a request object: the date-range check runs for every class that
      inherits it. */
  function Validate(req: Request): (r: Result<Request>)
    ensures r.Ok? <==> !HasDateRange(req) || req.range.startDate <= req.range.endDate
    ensures r.Ok? ==> r.value == req
    ensures r.Err? ==> r.error == ValidationError
  {
    if HasDateRange(req) then
      var range :- ValidateDateRange(req.range);
      Ok(req.(range := range))
    else
      Ok(req)
  }

  /** Every date-range class rejects a reversed range, and the UEVCB list request,
      which has no range, is never rejected. */
  lemma ReversedRangeRejected(req: Request)
    requires HasDateRange(req) && req.range.endDate < req.range.startDate
    ensures Validate(req) == Err(ValidationError)
    ensures !req.UevcbListRequest?
  {
  }

  // ------------------------------------------------------------ responses

  /** The response envelope. */
  datatype ApiResponse = ApiResponse(body: Fields, resultCode: string, resultDescription: string)

  /** `is_success`: the result code is the string "200", whatever the body holds. */
  function IsSuccess(r: ApiResponse): (ok: bool)
    ensures ok <==> r.resultCode == "200"
  {
    r.resultCode == "200"
  }

  /** `content`: the body's "content" member, or the empty list. */
  function Content(r: ApiResponse): (c: Json)
    ensures Get(r.body, "content").Some? ==> c == Get(r.body, "content").value
    ensures Get(r.body, "content").None? ==> c == JArr([])
  {
    GetOr(r.body, "content", JArr([]))
  }

  /** `page_info`: None when the body has no "page" member; otherwise the page
      settings built from it, which raises when the member is not a dict
      (TypeError) or holds a field of the wrong type (ValidationError). */
  function PageInfo(p: Parsers, r: ApiResponse): (pi: Result<Option<PageConfig>>)
    ensures Get(r.body, "page").None? <==> pi == Ok(None)
    ensures Get(r.body, "page").Some? && !Get(r.body, "page").value.JObj? ==> pi == Err(TypeError)
    ensures Get(r.body, "page").Some? && Get(r.body, "page").value.JObj? ==>
              pi == (match ParsePageConfig(p, Get(r.body, "page").value.fields)
                     case Ok(c) => Ok(Some(c))
                     case Err(e) => Err(e))
  {
    match Get(r.body, "page")
    case None => Ok(None)
    case Some(JObj(d)) =>
      var c :- ParsePageConfig(p, d);
      Ok(Some(c))
    case Some(_) => Err(TypeError)
  }

  /** An empty "page" member gives the default page settings. */
  lemma EmptyPageIsDefault(p: Parsers, r: ApiResponse)
    requires Get(r.body, "page") == Some(JObj([]))
    ensures PageInfo(p, r) == Ok(Some(DefaultPageConfig))
  {
  }

  /** A response whose envelope is `{"body": body, ...}` with a "content" member
      gives the same list through `content` as through the normaliser's envelope
      rule, which prefers `body.content`. */
  lemma ContentAgreesWithEnvelope(r: ApiResponse, envelope: Fields)
    requires Get(envelope, "body") == Some(JObj(r.body))
    requires Get(r.body, "content").Some?
    ensures Normalize.ExtractContent(JObj(envelope)) == Ok(Content(r))
  {
    assert Normalize.BodyContent(envelope) == Get(r.body, "content");
  }

  // ------------------------------------------------------------ entities

  datatype Organization = Organization(id: int, name: string, eic: Option<string>, status: Option<string>)

  datatype PowerPlant = PowerPlant(id: int, name: string, eic: Option<string>, shortName: Option<string>,
                                   status: Option<string>)

  datatype Uevcb = Uevcb(id: int, name: string, eic: string, organizationId: int,
                         organizationName: Option<string>)

  /** The two required fields every entity shares: `id: int` and `name: str`. */
  function IdAndName(p: Parsers, fs: Fields): (r: Result<(int, string)>)
    ensures r.Ok? <==> IntOk(p, fs, "id") && StrPresent(fs, "name")
    ensures r.Ok? ==> IntIs(p, fs, "id", r.value.0) && Get(fs, "name") == Some(JStr(r.value.1))
    ensures r.Err? ==> r.error == ValidationError
  {
    var id :- RequiredInt(p, fs, "id");
    var name :- StrField(fs, "name", None);
    Ok((id, name))
  }

  /** `Organization(**d)`: `**` needs a dict (TypeError otherwise); id and name are
      required; eic and status are optional. */
  function ParseOrganization(p: Parsers, d: Json): (r: Result<Organization>)
    ensures !d.JObj? ==> r == Err(TypeError)
    ensures d.JObj? && (Get(d.fields, "id").None? || Get(d.fields, "name").None?) ==> r == Err(ValidationError)
    ensures r.Ok? ==> d.JObj? && Get(d.fields, "name") == Some(JStr(r.value.name))
                      && IntIs(p, d.fields, "id", r.value.id)
                      && OptStrIs(d.fields, "eic", r.value.eic)
                      && OptStrIs(d.fields, "status", r.value.status)
    ensures d.JObj? ==> (r.Ok? <==> IntOk(p, d.fields, "id") && StrPresent(d.fields, "name")
                                     && OptStrOk(d.fields, "eic") && OptStrOk(d.fields, "status"))
    ensures r.Err? ==> r.error == (if d.JObj? then ValidationError else TypeError)
  {
    match d
    case JObj(fs) =>
      var idName :- IdAndName(p, fs);
      var eic :- OptStrField(fs, "eic");
      var status :- OptStrField(fs, "status");
      Ok(Organization(idName.0, idName.1, eic, status))
    case _ => Err(TypeError)
  }

  /** `PowerPlant(**d)`: id and name required; eic, shortName and status optional. */
  function ParsePowerPlant(p: Parsers, d: Json): (r: Result<PowerPlant>)
    ensures !d.JObj? ==> r == Err(TypeError)
    ensures d.JObj? && (Get(d.fields, "id").None? || Get(d.fields, "name").None?) ==> r == Err(ValidationError)
    ensures r.Ok? ==> d.JObj? && Get(d.fields, "name") == Some(JStr(r.value.name))
                      && IntIs(p, d.fields, "id", r.value.id)
                      && OptStrIs(d.fields, "eic", r.value.eic)
                      && OptStrIs(d.fields, "shortName", r.value.shortName)
                      && OptStrIs(d.fields, "status", r.value.status)
    ensures d.JObj? ==> (r.Ok? <==> IntOk(p, d.fields, "id") && StrPresent(d.fields, "name")
                                     && OptStrOk(d.fields, "eic") && OptStrOk(d.fields, "shortName")
                                     && OptStrOk(d.fields, "status"))
    ensures r.Err? ==> r.error == (if d.JObj? then ValidationError else TypeError)
  {
    match d
    case JObj(fs) =>
      var idName :- IdAndName(p, fs);
      var eic :- OptStrField(fs, "eic");
      var shortName :- OptStrField(fs, "shortName");
      var status :- OptStrField(fs, "status");
      Ok(PowerPlant(idName.0, idName.1, eic, shortName, status))
    case _ => Err(TypeError)
  }

  /** The two required integer fields of a UEVCB. */
  function UevcbIds(p: Parsers, fs: Fields): (r: Result<(int, int)>)
    ensures Get(fs, "id").None? || Get(fs, "organizationId").None? ==> r == Err(ValidationError)
    ensures r.Ok? <==> IntOk(p, fs, "id") && IntOk(p, fs, "organizationId")
    ensures r.Ok? ==> IntIs(p, fs, "id", r.value.0) && IntIs(p, fs, "organizationId", r.value.1)
    ensures r.Err? ==> r.error == ValidationError
  {
    var id :- RequiredInt(p, fs, "id");
    var organizationId :- RequiredInt(p, fs, "organizationId");
    Ok((id, organizationId))
  }

  /** The string fields of a UEVCB: name and eic required, organizationName optional. */
  function UevcbTexts(fs: Fields): (r: Result<(string, string, Option<string>)>)
    ensures Get(fs, "name").None? || Get(fs, "eic").None? ==> r == Err(ValidationError)
    ensures r.Ok? <==> StrPresent(fs, "name") && StrPresent(fs, "eic") && OptStrOk(fs, "organizationName")
    ensures r.Ok? ==> Get(fs, "name") == Some(JStr(r.value.0)) && Get(fs, "eic") == Some(JStr(r.value.1))
                      && OptStrIs(fs, "organizationName", r.value.2)
    ensures r.Err? ==> r.error == ValidationError
  {
    var name :- StrField(fs, "name", None);
    var eic :- StrField(fs, "eic", None);
    var organizationName :- OptStrField(fs, "organizationName");
    Ok((name, eic, organizationName))
  }

  /** `UEVCB(**d)`: id, name, eic and organizationId required; organizationName
      optional. */
  function ParseUevcb(p: Parsers, d: Json): (r: Result<Uevcb>)
    ensures !d.JObj? ==> r == Err(TypeError)
    ensures d.JObj? && (Get(d.fields, "id").None? || Get(d.fields, "name").None?) ==> r == Err(ValidationError)
    ensures d.JObj? && (Get(d.fields, "eic").None? || Get(d.fields, "organizationId").None?) ==> r == Err(ValidationError)
    ensures r.Ok? ==> d.JObj? && Get(d.fields, "name") == Some(JStr(r.value.name))
                      && Get(d.fields, "eic") == Some(JStr(r.value.eic))
                      && IntIs(p, d.fields, "id", r.value.id)
                      && IntIs(p, d.fields, "organizationId", r.value.organizationId)
                      && OptStrIs(d.fields, "organizationName", r.value.organizationName)
    ensures d.JObj? ==> (r.Ok? <==> IntOk(p, d.fields, "id") && IntOk(p, d.fields, "organizationId")
                                     && StrPresent(d.fields, "name") && StrPresent(d.fields, "eic")
                                     && OptStrOk(d.fields, "organizationName"))
    ensures r.Err? ==> r.error == (if d.JObj? then ValidationError else TypeError)
  {
    match d
    case JObj(fs) =>
      var ids :- UevcbIds(p, fs);
      var texts :- UevcbTexts(fs);
      Ok(Uevcb(ids.0, texts.0, texts.1, ids.1, texts.2))
    case _ => Err(TypeError)
  }
}
