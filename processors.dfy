/** The `process_*` methods of `DataProcessor` for PTF (day-ahead market clearing
    price), SMF (system marginal price), real-time generation, KGÜP (finalised daily
    generation plan), consumption and the dashboard summary. */
module Processors {
  import opened Wrappers
  import opened Json
  import opened Timestamps
  import opened Normalize

  /** The hour a PTF item falls back on when it has no "hour": the hour of its date,
      or 0 when the date did not parse. */
  function DefaultHour(dt: Timestamp): (h: int)
    ensures 0 <= h < 24
    ensures dt.Some? ==> h == HourOf(dt.value)
  {
    if dt.Some? then HourOf(dt.value) else 0
  }

  /** The table `DataFrame(records)` makes, with no index: `pd.DataFrame([])` when
      there are no records. */
  function Frame<R>(rows: seq<R>, columns: seq<string>): (t: Table<R>)
    ensures t.index == RangeIndex && t.rows == rows
    ensures rows == [] ==> t == EmptyFrame()
  {
    if rows == [] then EmptyFrame() else Table(RangeIndex, columns, rows)
  }

  // ---------------------------------------------------------------- PTF

  datatype PtfRow = PtfRow(datetime: Timestamp, price: real, hour: int)

  function PtfTime(row: PtfRow): Timestamp { row.datetime }

  const PtfColumns: seq<string> := ["datetime", "price", "hour"]

  /** One PTF record: the parsed date, the price under the price/value alias, and the
      item's hour, which defaults to the hour of the date. */
  function PtfRecord(p: Parsers, item: Fields): (r: Result<PtfRow>)
    ensures r.Ok? ==> r.value.datetime == DateOf(p, item)
    ensures r.Ok? ==> ToFloat(p, Alias(item, "price", "value")) == Ok(r.value.price)
    ensures r.Ok? && Get(item, "hour").None? ==>
              0 <= r.value.hour < 24
              && r.value.hour == (if r.value.datetime.Some? then HourOf(r.value.datetime.value) else 0)
    ensures r.Ok? && Get(item, "hour").Some? ==> ToInt(p, Get(item, "hour").value) == Ok(r.value.hour)
    ensures r.Err? <==>
              ToFloat(p, Alias(item, "price", "value")).Err?
              || ToInt(p, GetOr(item, "hour", JNum(DefaultHour(DateOf(p, item)) as real))).Err?
  {
    var dt := DateOf(p, item);
    var price :- ToFloat(p, Alias(item, "price", "value"));
    var hour :- ToInt(p, GetOr(item, "hour", JNum(DefaultHour(dt) as real)));
    Ok(PtfRow(dt, price, hour))
  }

  function PtfRecordOf(p: Parsers): Fields -> Result<PtfRow> {
    item => PtfRecord(p, item)
  }

  /** `process_ptf_data` as intended: empty content gives the empty table with the
      documented columns, and so does content without a single dict item; otherwise
      one row per dict item, indexed and sorted by time. */
  function PtfFrame(p: Parsers, data: Json): Result<Table<PtfRow>> {
    var content :- ExtractContent(data);
    if !Truthy(content) then Ok(Table(RangeIndex, PtfColumns, []))
    else
      var items :- Iterate(content);
      var records :- MapAll(Dicts(items), PtfRecordOf(p));
      if records == [] then Ok(Table(RangeIndex, PtfColumns, []))
      else Ok(IndexByTime(records, PtfColumns[1..], PtfTime))
  }

  /** `process_ptf_data` as written: a truthy content list without dict items builds
      `pd.DataFrame([])`, which has no "datetime" column, so `sort_values("datetime")`
      raises KeyError. */
  function PtfFrameAsWritten(p: Parsers, data: Json): Result<Table<PtfRow>> {
    var content :- ExtractContent(data);
    if !Truthy(content) then Ok(Table(RangeIndex, PtfColumns, []))
    else
      var items :- Iterate(content);
      var records :- MapAll(Dicts(items), PtfRecordOf(p));
      if records == [] then Err(KeyError("datetime"))
      else Ok(IndexByTime(records, PtfColumns[1..], PtfTime))
  }

  method ProcessPtf(p: Parsers, data: Json) returns (r: Result<Table<PtfRow>>)
    ensures r == PtfFrame(p, data)
  {
    var content :- ExtractContent(data);
    if !Truthy(content) {
      return Ok(Table(RangeIndex, PtfColumns, []));
    }
    var items :- Iterate(content);
    var records :- CollectRecords(items, PtfRecordOf(p));
    if records == [] {
      return Ok(Table(RangeIndex, PtfColumns, []));
    }
    r := Ok(IndexByTime(records, PtfColumns[1..], PtfTime));
  }

  /** A PTF table holds exactly the records of the dict items of the content, one
      each, in time order, indexed by time under the columns price and hour. */
  lemma PtfRows(p: Parsers, data: Json, items: seq<Json>, t: Table<PtfRow>)
    requires ExtractContent(data).Ok? && Truthy(ExtractContent(data).value)
    requires Iterate(ExtractContent(data).value) == Ok(items)
    requires PtfFrame(p, data) == Ok(t)
    ensures Dicts(items) != [] ==> t.index == DatetimeIndex && t.columns == ["price", "hour"]
    ensures Dicts(items) == [] ==> t == Table(RangeIndex, PtfColumns, [])
    ensures |t.rows| == |Dicts(items)|
    ensures SortedBy(t.rows, PtfTime)
    ensures forall d :: d in Dicts(items) ==> PtfRecord(p, d).Ok? && PtfRecord(p, d).value in t.rows
    ensures forall row :: row in t.rows ==> exists d :: d in Dicts(items) && PtfRecord(p, d) == Ok(row)
  {
    var records := MapAll(Dicts(items), PtfRecordOf(p)).value;
    MapAllSpec(Dicts(items), PtfRecordOf(p));
    if records != [] {
      RecordsTable(items, PtfRecordOf(p), PtfColumns[1..], PtfTime, t);
    }
  }

  /** The two versions differ exactly where the content is truthy but holds no dict
      item: the written one raises KeyError("datetime"), the intended one returns
      the empty table; everywhere else they agree. */
  lemma PtfAsWrittenDiffers(p: Parsers, data: Json)
    ensures PtfFrameAsWritten(p, data) != PtfFrame(p, data) <==>
              (ExtractContent(data).Ok? && Truthy(ExtractContent(data).value)
               && Iterate(ExtractContent(data).value).Ok?
               && MapAll(Dicts(Iterate(ExtractContent(data).value).value), PtfRecordOf(p)) == Ok([]))
    ensures PtfFrameAsWritten(p, data) != PtfFrame(p, data) ==>
              PtfFrameAsWritten(p, data) == Err(KeyError("datetime"))
              && PtfFrame(p, data) == Ok(Table(RangeIndex, PtfColumns, []))
  {
    match ExtractContent(data)
    case Err(_) =>
    case Ok(content) =>
      if Truthy(content) {
        match Iterate(content)
        case Err(_) =>
        case Ok(items) =>
          match MapAll(Dicts(items), PtfRecordOf(p))
          case Err(_) =>
          case Ok(records) =>
            if records != [] {
              assert PtfFrameAsWritten(p, data) == PtfFrame(p, data);
            }
      }
  }

  /** The input that shows it: a content list holding one number. */
  lemma PtfAsWrittenRaises(p: Parsers)
    ensures PtfFrameAsWritten(p, JArr([JNum(1.0)])) == Err(KeyError("datetime"))
    ensures PtfFrame(p, JArr([JNum(1.0)])) == Ok(Table(RangeIndex, PtfColumns, []))
  {
    assert Dicts([JNum(1.0)]) == [] by {
      DictsStep([JNum(1.0)], 0);
      assert [JNum(1.0)][..1] == [JNum(1.0)];
    }
  }

  // ---------------------------------------------------------------- SMF

  datatype SmfRow = SmfRow(datetime: Timestamp, upPrice: real, downPrice: real, direction: Json)

  function SmfTime(row: SmfRow): Timestamp { row.datetime }

  const SmfColumns: seq<string> := ["datetime", "up_price", "down_price", "direction"]

  /** One SMF record: the up-regulation price under the upRegulationPrice/yalPrice
      alias, the down-regulation price under downRegulationPrice/yatPrice, and the
      system direction ("" when absent). */
  function SmfRecord(p: Parsers, item: Fields): (r: Result<SmfRow>)
    ensures r.Ok? ==> r.value.datetime == DateOf(p, item)
    ensures r.Ok? ==> ToFloat(p, Alias(item, "upRegulationPrice", "yalPrice")) == Ok(r.value.upPrice)
    ensures r.Ok? ==> ToFloat(p, Alias(item, "downRegulationPrice", "yatPrice")) == Ok(r.value.downPrice)
    ensures r.Ok? ==> r.value.direction == GetOr(item, "systemDirection", JStr(""))
    ensures r.Err? <==>
              ToFloat(p, Alias(item, "upRegulationPrice", "yalPrice")).Err?
              || ToFloat(p, Alias(item, "downRegulationPrice", "yatPrice")).Err?
  {
    var dt := DateOf(p, item);
    var up :- ToFloat(p, Alias(item, "upRegulationPrice", "yalPrice"));
    var down :- ToFloat(p, Alias(item, "downRegulationPrice", "yatPrice"));
    Ok(SmfRow(dt, up, down, GetOr(item, "systemDirection", JStr(""))))
  }

  function SmfRecordOf(p: Parsers): Fields -> Result<SmfRow> {
    item => SmfRecord(p, item)
  }

  /** `process_smf_data` as intended; see PtfFrame. */
  function SmfFrame(p: Parsers, data: Json): Result<Table<SmfRow>> {
    var content :- ExtractContent(data);
    if !Truthy(content) then Ok(Table(RangeIndex, SmfColumns, []))
    else
      var items :- Iterate(content);
      var records :- MapAll(Dicts(items), SmfRecordOf(p));
      if records == [] then Ok(Table(RangeIndex, SmfColumns, []))
      else Ok(IndexByTime(records, SmfColumns[1..], SmfTime))
  }

  /** `process_smf_data` as written, with the same KeyError as PtfFrameAsWritten. */
  function SmfFrameAsWritten(p: Parsers, data: Json): Result<Table<SmfRow>> {
    var content :- ExtractContent(data);
    if !Truthy(content) then Ok(Table(RangeIndex, SmfColumns, []))
    else
      var items :- Iterate(content);
      var records :- MapAll(Dicts(items), SmfRecordOf(p));
      if records == [] then Err(KeyError("datetime"))
      else Ok(IndexByTime(records, SmfColumns[1..], SmfTime))
  }

  method ProcessSmf(p: Parsers, data: Json) returns (r: Result<Table<SmfRow>>)
    ensures r == SmfFrame(p, data)
  {
    var content :- ExtractContent(data);
    if !Truthy(content) {
      return Ok(Table(RangeIndex, SmfColumns, []));
    }
    var items :- Iterate(content);
    var records :- CollectRecords(items, SmfRecordOf(p));
    if records == [] {
      return Ok(Table(RangeIndex, SmfColumns, []));
    }
    r := Ok(IndexByTime(records, SmfColumns[1..], SmfTime));
  }

  /** An SMF table holds exactly the records of the dict items, one each, in time order. */
  lemma SmfRows(p: Parsers, data: Json, items: seq<Json>, t: Table<SmfRow>)
    requires ExtractContent(data).Ok? && Truthy(ExtractContent(data).value)
    requires Iterate(ExtractContent(data).value) == Ok(items)
    requires SmfFrame(p, data) == Ok(t)
    ensures Dicts(items) != [] ==>
              t.index == DatetimeIndex && t.columns == ["up_price", "down_price", "direction"]
    ensures Dicts(items) == [] ==> t == Table(RangeIndex, SmfColumns, [])
    ensures |t.rows| == |Dicts(items)|
    ensures SortedBy(t.rows, SmfTime)
    ensures forall d :: d in Dicts(items) ==> SmfRecord(p, d).Ok? && SmfRecord(p, d).value in t.rows
    ensures forall row :: row in t.rows ==> exists d :: d in Dicts(items) && SmfRecord(p, d) == Ok(row)
  {
    var records := MapAll(Dicts(items), SmfRecordOf(p)).value;
    MapAllSpec(Dicts(items), SmfRecordOf(p));
    if records != [] {
      RecordsTable(items, SmfRecordOf(p), SmfColumns[1..], SmfTime, t);
    }
  }

  /** The input that shows it: a content list holding one number. */
  lemma SmfAsWrittenRaises(p: Parsers)
    ensures SmfFrameAsWritten(p, JArr([JNum(1.0)])) == Err(KeyError("datetime"))
    ensures SmfFrame(p, JArr([JNum(1.0)])) == Ok(Table(RangeIndex, SmfColumns, []))
  {
    assert Dicts([JNum(1.0)]) == [] by {
      DictsStep([JNum(1.0)], 0);
      assert [JNum(1.0)][..1] == [JNum(1.0)];
    }
  }

  // ---------------------------------------------------------- generation

  datatype GenerationRow =
    GenerationRow(datetime: Timestamp, powerPlant: Json, powerPlantId: Json, genType: Json, value: real)

  function GenerationTime(row: GenerationRow): Timestamp { row.datetime }

  /** A generation item without hourly data: one row from the item, its value under
      the generation/value alias. */
  function GenerationRecord(p: Parsers, dt: Timestamp, item: Fields): (r: Result<GenerationRow>)
    ensures r.Ok? <==> ToFloat(p, Alias(item, "generation", "value")).Ok?
    ensures r.Ok? ==> r.value.datetime == dt && ToFloat(p, Alias(item, "generation", "value")) == Ok(r.value.value)
    ensures r.Ok? ==>
              && r.value.powerPlant == GetOr(item, "powerPlantName", JStr(""))
              && r.value.powerPlantId == GetOr(item, "powerPlantId", JNull)
              && r.value.genType == GetOr(item, "generationType", JStr(""))
  {
    var v :- ToFloat(p, Alias(item, "generation", "value"));
    Ok(GenerationRow(dt, GetOr(item, "powerPlantName", JStr("")), GetOr(item, "powerPlantId", JNull),
                     GetOr(item, "generationType", JStr("")), v))
  }

  /** Whether an hourly entry yields a row: it is a dict, `int()` accepts its hour
      (default 0), that hour is in 0..23 unless the parent's date is NaT, and
      `float()` accepts its value under `valueKey` (default 0). */
  predicate HourEntryOk(p: Parsers, dt: Timestamp, entry: Json, valueKey: string) {
    && entry.JObj?
    && ToInt(p, GetOr(entry.fields, "hour", JNum(0.0))).Ok?
    && (dt.None? || 0 <= ToInt(p, GetOr(entry.fields, "hour", JNum(0.0))).value < 24)
    && ToFloat(p, GetOr(entry.fields, valueKey, JNum(0.0))).Ok?
  }

  /** One entry of an item's "hourlyGenerations": the parent's date moved to the
      entry's hour, the plant from the parent, type and value from the entry. An
      entry that is not a dict has no `.get` (AttributeError). */
  function GenerationHourRecord(p: Parsers, dt: Timestamp, item: Fields, entry: Json): (r: Result<GenerationRow>)
    ensures r.Ok? <==> HourEntryOk(p, dt, entry, "generation")
    ensures r.Ok? ==> entry.JObj?
    ensures !entry.JObj? ==> r == Err(AttributeError)
  {
    match entry
    case JObj(e) =>
      var h :- ToInt(p, GetOr(e, "hour", JNum(0.0)));
      var t :- ReplaceHour(dt, h);
      var v :- ToFloat(p, GetOr(e, "generation", JNum(0.0)));
      Ok(GenerationRow(t, GetOr(item, "powerPlantName", JStr("")), GetOr(item, "powerPlantId", JNull),
                       GetOr(e, "generationType", JStr("")), v))
    case _ => Err(AttributeError)
  }

  function GenerationRecordOf(p: Parsers): (Timestamp, Fields) -> Result<GenerationRow> {
    (dt, item) => GenerationRecord(p, dt, item)
  }

  function GenerationHourOf(p: Parsers): (Timestamp, Fields, Json) -> Result<GenerationRow> {
    (dt, item, entry) => GenerationHourRecord(p, dt, item, entry)
  }

  /** `process_generation_data`. */
  function GenerationFrame(p: Parsers, data: Json): Result<Table<GenerationRow>> {
    var content :- ExtractContent(data);
    if !Truthy(content) then Ok(Table(RangeIndex, ["datetime", "power_plant", "type", "value"], []))
    else
      var items :- Iterate(content);
      var records :- HourlyRecords(p, "hourlyGenerations", GenerationRecordOf(p), GenerationHourOf(p), items);
      Ok(IndexByTime(records, ["power_plant", "power_plant_id", "type", "value"], GenerationTime))
  }

  method ProcessGeneration(p: Parsers, data: Json) returns (r: Result<Table<GenerationRow>>)
    ensures r == GenerationFrame(p, data)
  {
    var content :- ExtractContent(data);
    if !Truthy(content) {
      return Ok(Table(RangeIndex, ["datetime", "power_plant", "type", "value"], []));
    }
    var items :- Iterate(content);
    var records :- CollectHourlyRecords(p, "hourlyGenerations", GenerationRecordOf(p), GenerationHourOf(p), items);
    r := Ok(IndexByTime(records, ["power_plant", "power_plant_id", "type", "value"], GenerationTime));
  }

  /** One hourly generation row: the plant from the parent item, type, value and
      hour from the entry, the day from the parent's date. */
  lemma GenerationEntry(p: Parsers, dt: Timestamp, item: Fields, entry: Json, row: GenerationRow)
    requires GenerationHourRecord(p, dt, item, entry) == Ok(row)
    ensures entry.JObj?
    ensures row.powerPlant == GetOr(item, "powerPlantName", JStr(""))
    ensures row.powerPlantId == GetOr(item, "powerPlantId", JNull)
    ensures row.genType == GetOr(entry.fields, "generationType", JStr(""))
    ensures ToFloat(p, GetOr(entry.fields, "generation", JNum(0.0))) == Ok(row.value)
    ensures dt.None? ==> row.datetime.None?
    ensures dt.Some? ==>
              && row.datetime.Some?
              && ToInt(p, GetOr(entry.fields, "hour", JNum(0.0))) == Ok(HourOf(row.datetime.value))
              && DayOf(row.datetime.value) == DayOf(dt.value)
  {
  }

  /** Hourly expansion: an item whose "hourlyGenerations" is a list of N entries
      yields rows iff every entry is accepted (HourEntryOk), and then N rows; the
      k-th keeps the parent's plant and day, takes the k-th entry's hour (a
      ValueError unless it is in 0..23) and value, and stays NaT when the parent's
      date did not parse. */
  lemma GenerationHourly(p: Parsers, item: Fields, entries: seq<Json>)
    requires Get(item, "hourlyGenerations") == Some(JArr(entries))
    ensures HourlyItem(p, "hourlyGenerations", GenerationRecordOf(p), GenerationHourOf(p), item).Ok? <==>
              forall k :: 0 <= k < |entries| ==> HourEntryOk(p, DateOf(p, item), entries[k], "generation")
    ensures HourlyItem(p, "hourlyGenerations", GenerationRecordOf(p), GenerationHourOf(p), item).Ok? ==>
              var rows := HourlyItem(p, "hourlyGenerations", GenerationRecordOf(p), GenerationHourOf(p), item).value;
              |rows| == |entries| && forall k :: 0 <= k < |rows| ==>
                && entries[k].JObj?
                && rows[k].powerPlant == GetOr(item, "powerPlantName", JStr(""))
                && rows[k].powerPlantId == GetOr(item, "powerPlantId", JNull)
                && rows[k].genType == GetOr(entries[k].fields, "generationType", JStr(""))
                && ToFloat(p, GetOr(entries[k].fields, "generation", JNum(0.0))) == Ok(rows[k].value)
                && (DateOf(p, item).None? ==> rows[k].datetime.None?)
                && (DateOf(p, item).Some? ==>
                      && rows[k].datetime.Some?
                      && ToInt(p, GetOr(entries[k].fields, "hour", JNum(0.0))) == Ok(HourOf(rows[k].datetime.value))
                      && DayOf(rows[k].datetime.value) == DayOf(DateOf(p, item).value))
  {
    HourlyItemAccepted(p, "hourlyGenerations", GenerationRecordOf(p), GenerationHourOf(p), item, entries);
    forall k | 0 <= k < |entries|
      ensures GenerationHourRecord(p, DateOf(p, item), item, entries[k]).Ok? <==> HourEntryOk(p, DateOf(p, item), entries[k], "generation")
    {
    }
    if HourlyItem(p, "hourlyGenerations", GenerationRecordOf(p), GenerationHourOf(p), item).Ok? {
      var rows := HourlyItem(p, "hourlyGenerations", GenerationRecordOf(p), GenerationHourOf(p), item).value;
      HourlyItemRows(p, "hourlyGenerations", GenerationRecordOf(p), GenerationHourOf(p), item, rows);
      forall k | 0 <= k < |rows|
        ensures GenerationHourRecord(p, DateOf(p, item), item, entries[k]) == Ok(rows[k])
      {
      }
      forall k | 0 <= k < |rows| {
        GenerationEntry(p, DateOf(p, item), item, entries[k], rows[k]);
      }
    }
  }

  /** A generation table holds the expanded rows in time order; with no rows at all
      it is `pd.DataFrame([])`. */
  lemma GenerationRows(p: Parsers, data: Json, items: seq<Json>, t: Table<GenerationRow>)
    requires ExtractContent(data).Ok? && Truthy(ExtractContent(data).value)
    requires Iterate(ExtractContent(data).value) == Ok(items)
    requires GenerationFrame(p, data) == Ok(t)
    ensures HourlyRecords(p, "hourlyGenerations", GenerationRecordOf(p), GenerationHourOf(p), items).Ok?
    ensures multiset(t.rows) ==
              multiset(HourlyRecords(p, "hourlyGenerations", GenerationRecordOf(p), GenerationHourOf(p), items).value)
    ensures SortedBy(t.rows, GenerationTime)
    ensures t.rows == [] ==> t == EmptyFrame()
    ensures t.rows != [] ==>
              t.index == DatetimeIndex && t.columns == ["power_plant", "power_plant_id", "type", "value"]
  {
  }

  // ---------------------------------------------------------------- KGÜP

  datatype KgupRow = KgupRow(datetime: Timestamp, uevcb: Json, uevcbId: Json, plannedGeneration: real)

  function KgupTime(row: KgupRow): Timestamp { row.datetime }

  /** A KGÜP item without hourly plans: its planned generation under the
      plannedGeneration/value alias. */
  function KgupRecord(p: Parsers, dt: Timestamp, item: Fields): (r: Result<KgupRow>)
    ensures r.Ok? <==> ToFloat(p, Alias(item, "plannedGeneration", "value")).Ok?
    ensures r.Ok? ==>
              r.value.uevcb == GetOr(item, "uevcbName", JStr("")) && r.value.uevcbId == GetOr(item, "uevcbId", JNull)
    ensures r.Ok? ==>
              r.value.datetime == dt && ToFloat(p, Alias(item, "plannedGeneration", "value")) == Ok(r.value.plannedGeneration)
  {
    var v :- ToFloat(p, Alias(item, "plannedGeneration", "value"));
    Ok(KgupRow(dt, GetOr(item, "uevcbName", JStr("")), GetOr(item, "uevcbId", JNull), v))
  }

  /** One entry of an item's "hourlyPlans". */
  function KgupHourRecord(p: Parsers, dt: Timestamp, item: Fields, entry: Json): (r: Result<KgupRow>)
    ensures r.Ok? <==> HourEntryOk(p, dt, entry, "plannedGeneration")
    ensures r.Ok? ==> entry.JObj?
    ensures !entry.JObj? ==> r == Err(AttributeError)
  {
    match entry
    case JObj(e) =>
      var h :- ToInt(p, GetOr(e, "hour", JNum(0.0)));
      var t :- ReplaceHour(dt, h);
      var v :- ToFloat(p, GetOr(e, "plannedGeneration", JNum(0.0)));
      Ok(KgupRow(t, GetOr(item, "uevcbName", JStr("")), GetOr(item, "uevcbId", JNull), v))
    case _ => Err(AttributeError)
  }

  function KgupRecordOf(p: Parsers): (Timestamp, Fields) -> Result<KgupRow> {
    (dt, item) => KgupRecord(p, dt, item)
  }

  function KgupHourOf(p: Parsers): (Timestamp, Fields, Json) -> Result<KgupRow> {
    (dt, item, entry) => KgupHourRecord(p, dt, item, entry)
  }

  /** `process_kgup_data`. */
  function KgupFrame(p: Parsers, data: Json): Result<Table<KgupRow>> {
    var content :- ExtractContent(data);
    if !Truthy(content) then Ok(Table(RangeIndex, ["datetime", "uevcb", "planned_generation"], []))
    else
      var items :- Iterate(content);
      var records :- HourlyRecords(p, "hourlyPlans", KgupRecordOf(p), KgupHourOf(p), items);
      Ok(IndexByTime(records, ["uevcb", "uevcb_id", "planned_generation"], KgupTime))
  }

  method ProcessKgup(p: Parsers, data: Json) returns (r: Result<Table<KgupRow>>)
    ensures r == KgupFrame(p, data)
  {
    var content :- ExtractContent(data);
    if !Truthy(content) {
      return Ok(Table(RangeIndex, ["datetime", "uevcb", "planned_generation"], []));
    }
    var items :- Iterate(content);
    var records :- CollectHourlyRecords(p, "hourlyPlans", KgupRecordOf(p), KgupHourOf(p), items);
    r := Ok(IndexByTime(records, ["uevcb", "uevcb_id", "planned_generation"], KgupTime));
  }

  /** One hourly KGÜP row: the unit from the parent item, the planned generation
      and hour from the entry, the day from the parent's date. */
  lemma KgupEntry(p: Parsers, dt: Timestamp, item: Fields, entry: Json, row: KgupRow)
    requires KgupHourRecord(p, dt, item, entry) == Ok(row)
    ensures entry.JObj?
    ensures row.uevcb == GetOr(item, "uevcbName", JStr(""))
    ensures row.uevcbId == GetOr(item, "uevcbId", JNull)
    ensures ToFloat(p, GetOr(entry.fields, "plannedGeneration", JNum(0.0))) == Ok(row.plannedGeneration)
    ensures dt.None? ==> row.datetime.None?
    ensures dt.Some? ==>
              && row.datetime.Some?
              && ToInt(p, GetOr(entry.fields, "hour", JNum(0.0))) == Ok(HourOf(row.datetime.value))
              && DayOf(row.datetime.value) == DayOf(dt.value)
  {
  }

  /** Hourly expansion of a KGÜP item, as for generation: rows iff every plan is
      accepted, and then one row per plan. */
  lemma KgupHourly(p: Parsers, item: Fields, entries: seq<Json>)
    requires Get(item, "hourlyPlans") == Some(JArr(entries))
    ensures HourlyItem(p, "hourlyPlans", KgupRecordOf(p), KgupHourOf(p), item).Ok? <==>
              forall k :: 0 <= k < |entries| ==> HourEntryOk(p, DateOf(p, item), entries[k], "plannedGeneration")
    ensures HourlyItem(p, "hourlyPlans", KgupRecordOf(p), KgupHourOf(p), item).Ok? ==>
              var rows := HourlyItem(p, "hourlyPlans", KgupRecordOf(p), KgupHourOf(p), item).value;
              |rows| == |entries| && forall k :: 0 <= k < |rows| ==>
                && entries[k].JObj?
                && rows[k].uevcb == GetOr(item, "uevcbName", JStr(""))
                && rows[k].uevcbId == GetOr(item, "uevcbId", JNull)
                && ToFloat(p, GetOr(entries[k].fields, "plannedGeneration", JNum(0.0))) == Ok(rows[k].plannedGeneration)
                && (DateOf(p, item).None? ==> rows[k].datetime.None?)
                && (DateOf(p, item).Some? ==>
                      && rows[k].datetime.Some?
                      && ToInt(p, GetOr(entries[k].fields, "hour", JNum(0.0))) == Ok(HourOf(rows[k].datetime.value))
                      && DayOf(rows[k].datetime.value) == DayOf(DateOf(p, item).value))
  {
    HourlyItemAccepted(p, "hourlyPlans", KgupRecordOf(p), KgupHourOf(p), item, entries);
    forall k | 0 <= k < |entries|
      ensures KgupHourRecord(p, DateOf(p, item), item, entries[k]).Ok? <==> HourEntryOk(p, DateOf(p, item), entries[k], "plannedGeneration")
    {
    }
    if HourlyItem(p, "hourlyPlans", KgupRecordOf(p), KgupHourOf(p), item).Ok? {
      var rows := HourlyItem(p, "hourlyPlans", KgupRecordOf(p), KgupHourOf(p), item).value;
      HourlyItemRows(p, "hourlyPlans", KgupRecordOf(p), KgupHourOf(p), item, rows);
      forall k | 0 <= k < |rows|
        ensures KgupHourRecord(p, DateOf(p, item), item, entries[k]) == Ok(rows[k])
      {
      }
      forall k | 0 <= k < |rows| {
        KgupEntry(p, DateOf(p, item), item, entries[k], rows[k]);
      }
    }
  }

  // ---------------------------------------------------------- consumption

  datatype ConsumptionRow = ConsumptionRow(datetime: Timestamp, province: Json, district: Json,
                                           profileGroup: Json, subscriberType: Json, value: real)

  function ConsumptionTime(row: ConsumptionRow): Timestamp { row.datetime }

  /** One consumption record, its value under the consumption/value alias. */
  function ConsumptionRecord(p: Parsers, item: Fields): (r: Result<ConsumptionRow>)
    ensures r.Ok? ==> r.value.datetime == DateOf(p, item)
    ensures r.Ok? <==> ToFloat(p, Alias(item, "consumption", "value")).Ok?
    ensures r.Ok? ==> ToFloat(p, Alias(item, "consumption", "value")) == Ok(r.value.value)
    ensures r.Ok? ==>
              && r.value.province == GetOr(item, "province", JStr(""))
              && r.value.district == GetOr(item, "district", JStr(""))
              && r.value.profileGroup == GetOr(item, "profileGroup", JStr(""))
              && r.value.subscriberType == GetOr(item, "subscriberType", JStr(""))
  {
    var v :- ToFloat(p, Alias(item, "consumption", "value"));
    Ok(ConsumptionRow(DateOf(p, item), GetOr(item, "province", JStr("")), GetOr(item, "district", JStr("")),
                      GetOr(item, "profileGroup", JStr("")), GetOr(item, "subscriberType", JStr("")), v))
  }

  function ConsumptionRecordOf(p: Parsers): Fields -> Result<ConsumptionRow> {
    item => ConsumptionRecord(p, item)
  }

  /** `process_consumption_data`. */
  function ConsumptionFrame(p: Parsers, data: Json): Result<Table<ConsumptionRow>> {
    var content :- ExtractContent(data);
    if !Truthy(content) then Ok(Table(RangeIndex, ["datetime", "province", "district", "profile_group", "value"], []))
    else
      var items :- Iterate(content);
      var records :- MapAll(Dicts(items), ConsumptionRecordOf(p));
      Ok(IndexByTime(records, ["province", "district", "profile_group", "subscriber_type", "value"], ConsumptionTime))
  }

  method ProcessConsumption(p: Parsers, data: Json) returns (r: Result<Table<ConsumptionRow>>)
    ensures r == ConsumptionFrame(p, data)
  {
    var content :- ExtractContent(data);
    if !Truthy(content) {
      return Ok(Table(RangeIndex, ["datetime", "province", "district", "profile_group", "value"], []));
    }
    var items :- Iterate(content);
    var records :- CollectRecords(items, ConsumptionRecordOf(p));
    r := Ok(IndexByTime(records, ["province", "district", "profile_group", "subscriber_type", "value"], ConsumptionTime));
  }

  /** A consumption table holds exactly the records of the dict items, one each, in
      time order. */
  lemma ConsumptionRows(p: Parsers, data: Json, items: seq<Json>, t: Table<ConsumptionRow>)
    requires ExtractContent(data).Ok? && Truthy(ExtractContent(data).value)
    requires Iterate(ExtractContent(data).value) == Ok(items)
    requires ConsumptionFrame(p, data) == Ok(t)
    ensures |t.rows| == |Dicts(items)|
    ensures SortedBy(t.rows, ConsumptionTime)
    ensures forall d :: d in Dicts(items) ==> ConsumptionRecord(p, d).Ok? && ConsumptionRecord(p, d).value in t.rows
    ensures forall row :: row in t.rows ==> exists d :: d in Dicts(items) && ConsumptionRecord(p, d) == Ok(row)
  {
    RecordsTable(items, ConsumptionRecordOf(p), ["province", "district", "profile_group", "subscriber_type", "value"],
                 ConsumptionTime, t);
  }

  // ------------------------------------------------------------ dashboard

  /** A dashboard row: a summary entry (its timestamp is the wall-clock time of
      processing and is left out), or a metric item of the "data" list. */
  datatype DashboardRow =
    | SummaryRow(key: string, amount: Json)
    | MetricRow(metric: Json, value: Json, change: Json, timestamp: Timestamp)

  function MetricRecord(p: Parsers, item: Fields): DashboardRow {
    MetricRow(GetOr(item, "name", JStr("")), GetOr(item, "value", JNum(0.0)),
              GetOr(item, "change", JNum(0.0)), DateOf(p, item))
  }

  function MetricRecordOf(p: Parsers): Fields -> Result<DashboardRow> {
    item => Ok(MetricRecord(p, item))
  }

  /** The rows of a summary dict: one per member, in order. */
  function SummaryRows(summary: Fields): (rows: seq<DashboardRow>)
    ensures |rows| == |summary|
    ensures forall k :: 0 <= k < |summary| ==> rows[k] == SummaryRow(summary[k].0, summary[k].1)
    decreases |summary|
  {
    if summary == [] then []
    else
      var n := |summary| - 1;
      SummaryRows(summary[..n]) + [SummaryRow(summary[n].0, summary[n].1)]
  }

  /** `process_dashboard_data`: an empty table unless `data` is truthy and holds
      "body"; a "summary" dict in the body gives one row per member, else a "data"
      list gives one row per dict item. */
  function DashboardFrame(p: Parsers, data: Json): Result<Table<DashboardRow>> {
    if !Truthy(data) then Ok(EmptyFrame())
    else
      var hasBody :- Contains("body", data);
      if !hasBody then Ok(EmptyFrame())
      else
        var body :- Subscript(data, "body");
        var hasSummary :- Contains("summary", body);
        if hasSummary then
          var summary :- Subscript(body, "summary");
          if !summary.JObj? then Err(AttributeError)
          else Ok(Frame(SummaryRows(summary.fields), ["metric", "value", "timestamp"]))
        else
          // the "summary" test has already ruled out a body that is not a container
          var hasData := Contains("data", body).value;
          if !hasData then Ok(EmptyFrame())
          else
            var list :- Subscript(body, "data");
            var items :- Iterate(list);
            var rows :- MapAll(Dicts(items), MetricRecordOf(p));
            Ok(Frame(rows, ["metric", "value", "change", "timestamp"]))
  }

  method ProcessDashboard(p: Parsers, data: Json) returns (r: Result<Table<DashboardRow>>)
    ensures r == DashboardFrame(p, data)
  {
    if !Truthy(data) {
      return Ok(EmptyFrame());
    }
    var hasBody :- Contains("body", data);
    if !hasBody {
      return Ok(EmptyFrame());
    }
    var body :- Subscript(data, "body");
    var hasSummary :- Contains("summary", body);
    if hasSummary {
      var summary :- Subscript(body, "summary");
      if !summary.JObj? {
        return Err(AttributeError);
      }
      var fs := summary.fields;
      var rows: seq<DashboardRow> := [];
      var i := 0;
      while i < |fs|
        invariant 0 <= i <= |fs|
        invariant rows == SummaryRows(fs[..i])
      {
        assert fs[..i + 1][..i] == fs[..i];
        rows := rows + [SummaryRow(fs[i].0, fs[i].1)];
        i := i + 1;
      }
      assert fs[..i] == fs;
      return Ok(Frame(rows, ["metric", "value", "timestamp"]));
    }
    var hasData := Contains("data", body).value;
    if !hasData {
      return Ok(EmptyFrame());
    }
    var list :- Subscript(body, "data");
    var items :- Iterate(list);
    var rows :- CollectRecords(items, MetricRecordOf(p));
    r := Ok(Frame(rows, ["metric", "value", "change", "timestamp"]));
  }

  /** A summary dict gives one row per member, in the dict's order, keyed by the
      member's name; a "data" list gives one metric row per dict item, in order. */
  lemma DashboardRows(p: Parsers, data: Json, body: Fields, t: Table<DashboardRow>)
    requires data.JObj? && Get(data.fields, "body") == Some(JObj(body))
    requires DashboardFrame(p, data) == Ok(t)
    ensures Get(body, "summary").Some? ==>
              Get(body, "summary").value.JObj?
              && |t.rows| == |Get(body, "summary").value.fields|
              && forall k :: 0 <= k < |t.rows| ==>
                   t.rows[k] == SummaryRow(Get(body, "summary").value.fields[k].0,
                                           Get(body, "summary").value.fields[k].1)
    ensures Get(body, "summary").None? && Get(body, "data").Some? ==>
              Iterate(Get(body, "data").value).Ok?
              && var ds := Dicts(Iterate(Get(body, "data").value).value);
                 |t.rows| == |ds| && forall k :: 0 <= k < |ds| ==> t.rows[k] == MetricRecord(p, ds[k])
    ensures Get(body, "summary").None? && Get(body, "data").None? ==> t == EmptyFrame()
  {
    if Get(body, "summary").None? && Get(body, "data").Some? {
      var ds := Dicts(Iterate(Get(body, "data").value).value);
      MapAllSpec(ds, MetricRecordOf(p));
    }
  }

  /** Without a "body" key, or when `data` is falsy, the dashboard table is empty. */
  lemma DashboardWithoutBody(p: Parsers, data: Json)
    requires data.JObj? && Get(data.fields, "body").None?
    ensures DashboardFrame(p, data) == Ok(EmptyFrame())
  {
  }
}
