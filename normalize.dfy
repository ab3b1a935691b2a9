/** The parts of `DataProcessor` that every `process_*` method shares: picking the
    content list out of an envelope, parsing dates, walking the dict items of the
    content, and the table the rows end up in. */
module Normalize {
  import opened Wrappers
  import opened Json
  import opened Timestamps

  /** Whether `response["body"]` holds a "content" key, as `"body" in response and
      "content" in response["body"]` evaluates it (it raises when the body is a
      number, a boolean or null). */
  function HasBodyContent(fs: Fields): Result<bool> {
    match Get(fs, "body")
    case None => Ok(false)
    case Some(body) => Contains("content", body)
  }

  /** `response["body"]["content"]` when the body is a dict holding that key. */
  function BodyContent(fs: Fields): Option<Json> {
    match Get(fs, "body")
    case Some(JObj(body)) => Get(body, "content")
    case _ => None
  }

  /** `extract_content`: the content list of an envelope. A list is returned as it
      is; a dict is searched for `body.content`, then `content`, then `items`, and the
      first shape present wins; anything else becomes a one-element list if truthy and
      the empty list otherwise. */
  function ExtractContent(response: Json): (r: Result<Json>)
    ensures response.JArr? ==> r == Ok(response)
    ensures response.JObj? && BodyContent(response.fields).Some? ==>
              r == Ok(BodyContent(response.fields).value)
    ensures (response.JObj? && HasBodyContent(response.fields) == Ok(false)
             && Get(response.fields, "content").Some?) ==>
              r == Ok(Get(response.fields, "content").value)
    ensures (response.JObj? && HasBodyContent(response.fields) == Ok(false)
             && Get(response.fields, "content").None? && Get(response.fields, "items").Some?) ==>
              r == Ok(Get(response.fields, "items").value)
    ensures (response.JObj? && HasBodyContent(response.fields) == Ok(false)
             && Get(response.fields, "content").None? && Get(response.fields, "items").None?) ==>
              r == Ok(JArr(if response.fields != [] then [response] else []))
    ensures (!response.JArr? && !response.JObj?) ==>
              r == Ok(JArr(if Truthy(response) then [response] else []))
    ensures r.Err? ==>
              response.JObj? && Get(response.fields, "body").Some? && !Get(response.fields, "body").value.JObj?
  {
    match response
    case JArr(_) => Ok(response)
    case JObj(fs) =>
      var nested :- HasBodyContent(fs);
      if nested then Subscript(Get(fs, "body").value, "content")
      else if Get(fs, "content").Some? then Ok(Get(fs, "content").value)
      else if Get(fs, "items").Some? then Ok(Get(fs, "items").value)
      else Ok(JArr(if Truthy(response) then [response] else []))
    case _ => Ok(JArr(if Truthy(response) then [response] else []))
  }

  /** `parse_datetime`: never raises. A string containing 'T' goes to the general
      parser, any other string to the strict "%Y-%m-%d" parser; a failed parse, and
      any value that is not a string, gives NaT. */
  function ParseDatetime(p: Parsers, v: Json): (t: Timestamp)
    ensures v.JStr? && 'T' in v.s ==> t == p.parseIso(v.s)
    ensures v.JStr? && 'T' !in v.s ==> t == p.parseYmd(v.s)
    ensures !v.JStr? ==> t.None?
  {
    match v
    case JStr(s) => if 'T' in s then p.parseIso(s) else p.parseYmd(s)
    case _ => None
  }

  /** `parse_datetime(item.get("date", ""))` */
  function DateOf(p: Parsers, item: Fields): Timestamp {
    ParseDatetime(p, GetOr(item, "date", JStr("")))
  }

  /** The dict items of a content list, in order; `isinstance(item, dict)` filters out
      everything else. */
  function Dicts(items: seq<Json>): (ds: seq<Fields>)
    decreases |items|
  {
    if items == [] then []
    else Dicts(items[..|items| - 1]) + (if items[|items| - 1].JObj? then [items[|items| - 1].fields] else [])
  }

  /** Dicts keeps exactly the dict items: every dict of the content is kept, nothing
      else is, and a content made only of dicts keeps them all. */
  lemma DictsMembers(items: seq<Json>)
    ensures |Dicts(items)| <= |items|
    ensures forall k :: 0 <= k < |Dicts(items)| ==> JObj(Dicts(items)[k]) in items
    ensures forall x :: x in items && x.JObj? ==> x.fields in Dicts(items)
    ensures (forall k :: 0 <= k < |items| ==> items[k].JObj?) ==> Dicts(items) == seq(|items|, k requires 0 <= k < |items| => items[k].fields)
    ensures (forall k :: 0 <= k < |items| ==> !items[k].JObj?) ==> Dicts(items) == []
  {
    DictsSound(items);
    DictsComplete(items);
    if forall k :: 0 <= k < |items| ==> items[k].JObj? {
      DictsAllDicts(items);
    }
    if forall k :: 0 <= k < |items| ==> !items[k].JObj? {
      DictsNoDicts(items);
    }
  }

  /** Every kept dict is an item of the content, and there are no more than items. */
  lemma {:induction false} DictsSound(items: seq<Json>)
    ensures |Dicts(items)| <= |items|
    ensures forall k :: 0 <= k < |Dicts(items)| ==> JObj(Dicts(items)[k]) in items
    decreases |items|
  {
    if items != [] {
      var init := items[..|items| - 1];
      DictsSound(init);
      assert items == init + [items[|items| - 1]];
      forall k | 0 <= k < |Dicts(items)|
        ensures JObj(Dicts(items)[k]) in items
      {
        if k < |Dicts(init)| {
          assert Dicts(items)[k] == Dicts(init)[k];
          assert JObj(Dicts(init)[k]) in init;
        }
      }
    }
  }

  /** Every dict item of the content is kept. */
  lemma {:induction false} DictsComplete(items: seq<Json>)
    ensures forall x :: x in items && x.JObj? ==> x.fields in Dicts(items)
    decreases |items|
  {
    if items != [] {
      var init := items[..|items| - 1];
      DictsComplete(init);
      assert items == init + [items[|items| - 1]];
      forall x | x in items && x.JObj?
        ensures x.fields in Dicts(items)
      {
        if x in init {
          assert x.fields in Dicts(init);
        }
      }
    }
  }

  /** A content made only of dicts keeps them all, in order. */
  lemma {:induction false} DictsAllDicts(items: seq<Json>)
    requires forall k :: 0 <= k < |items| ==> items[k].JObj?
    ensures Dicts(items) == seq(|items|, k requires 0 <= k < |items| => items[k].fields)
    decreases |items|
  {
    if items != [] {
      var init := items[..|items| - 1];
      DictsAllDicts(init);
    }
  }

  /** A content without dicts keeps nothing. */
  lemma {:induction false} DictsNoDicts(items: seq<Json>)
    requires forall k :: 0 <= k < |items| ==> !items[k].JObj?
    ensures Dicts(items) == []
    decreases |items|
  {
    if items != [] {
      DictsNoDicts(items[..|items| - 1]);
    }
  }

  /** Applies `g` to each element in order; the first exception aborts. */
  function MapAll<A, R>(xs: seq<A>, g: A -> Result<R>): (r: Result<seq<R>>)
    decreases |xs|
  {
    if xs == [] then Ok([])
    else
      var init :- MapAll(xs[..|xs| - 1], g);
      var last :- g(xs[|xs| - 1]);
      Ok(init + [last])
  }

  /** On success MapAll gives one result per element, in order; on failure its error
      is that of the first element `g` rejects. */
  lemma {:induction false} MapAllSpec<A, R>(xs: seq<A>, g: A -> Result<R>)
    ensures MapAll(xs, g).Ok? ==>
              |MapAll(xs, g).value| == |xs| && forall k :: 0 <= k < |xs| ==> g(xs[k]) == Ok(MapAll(xs, g).value[k])
    ensures MapAll(xs, g).Err? ==>
              exists k :: 0 <= k < |xs| && g(xs[k]) == Err(MapAll(xs, g).error) && forall m :: 0 <= m < k ==> g(xs[m]).Ok?
    ensures (forall k :: 0 <= k < |xs| ==> g(xs[k]).Ok?) ==> MapAll(xs, g).Ok?
    decreases |xs|
  {
    if xs != [] {
      var init := xs[..|xs| - 1];
      MapAllSpec(init, g);
      assert forall k :: 0 <= k < |init| ==> xs[k] == init[k];
      if MapAll(init, g).Err? {
        var k :| 0 <= k < |init| && g(init[k]) == Err(MapAll(init, g).error) && forall m :: 0 <= m < k ==> g(init[m]).Ok?;
        assert g(xs[k]) == Err(MapAll(xs, g).error);
      }
    }
  }

  /** Concatenation of a list of row lists. */
  function Flatten<R>(parts: seq<seq<R>>): (rows: seq<R>)
    decreases |parts|
  {
    if parts == [] then [] else Flatten(parts[..|parts| - 1]) + parts[|parts| - 1]
  }

  /** The row counts of a list of row lists, added up. */
  function TotalLength<R>(parts: seq<seq<R>>): nat
    decreases |parts|
  {
    if parts == [] then 0 else TotalLength(parts[..|parts| - 1]) + |parts[|parts| - 1]|
  }

  lemma {:induction false} FlattenLength<R>(parts: seq<seq<R>>)
    ensures |Flatten(parts)| == TotalLength(parts)
    decreases |parts|
  {
    if parts != [] {
      FlattenLength(parts[..|parts| - 1]);
    }
  }

  /** The index a table has: pandas' default range, or the timestamp column. */
  datatype Index = RangeIndex | DatetimeIndex

  /** A DataFrame: its index, its column labels (without the index) and its rows. */
  datatype Table<R> = Table(index: Index, columns: seq<string>, rows: seq<R>)

  /** `pd.DataFrame()` and `pd.DataFrame([])`: no columns, no rows. */
  function EmptyFrame<R>(): Table<R> {
    Table(RangeIndex, [], [])
  }

  /** `df.sort_values("datetime").set_index("datetime")` on a non-empty record list,
      and `df` unchanged on an empty one, as the processors guarded by `df.empty` do. */
  function IndexByTime<R(==)>(records: seq<R>, columns: seq<string>, key: R -> Timestamp): (t: Table<R>)
    ensures records == [] ==> t == EmptyFrame()
    ensures records != [] ==> t.index == DatetimeIndex && t.columns == columns
    ensures SortedBy(t.rows, key) && multiset(t.rows) == multiset(records)
  {
    if records == [] then EmptyFrame() else Table(DatetimeIndex, columns, SortByTime(records, key))
  }

  /** Once a prefix of the items has raised, the whole content list raises the same. */
  lemma {:induction false} MapAllErrorPersists<A, R>(xs: seq<A>, n: nat, g: A -> Result<R>)
    requires n <= |xs| && MapAll(xs[..n], g).Err?
    ensures MapAll(xs, g) == MapAll(xs[..n], g)
    decreases |xs| - n
  {
    if n < |xs| {
      assert xs[..n + 1][..n] == xs[..n];
      MapAllErrorPersists(xs, n + 1, g);
    } else {
      assert xs[..n] == xs;
    }
  }

  /** Dicts of a one-longer prefix. */
  lemma DictsStep(items: seq<Json>, i: nat)
    requires i < |items|
    ensures items[i].JObj? ==> Dicts(items[..i + 1]) == Dicts(items[..i]) + [items[i].fields]
    ensures !items[i].JObj? ==> Dicts(items[..i + 1]) == Dicts(items[..i])
  {
    assert items[..i + 1][..i] == items[..i];
    assert Dicts(items[..i]) + [] == Dicts(items[..i]);
  }

  /** MapAll over a one-longer list. */
  lemma MapAllStep<A, R>(xs: seq<A>, x: A, g: A -> Result<R>)
    ensures MapAll(xs + [x], g) ==
              match MapAll(xs, g)
              case Err(e) => Err(e)
              case Ok(init) => (match g(x) case Err(e) => Err(e) case Ok(y) => Ok(init + [y]))
  {
    assert (xs + [x])[..|xs + [x]| - 1] == xs;
  }

  /** The loop of the PTF, SMF and consumption processors and of each side of the
      bilateral processor: one record per dict item of the content, in order,
      non-dict items skipped; the first record that raises aborts the loop. */
  method CollectRecords<R>(items: seq<Json>, g: Fields -> Result<R>) returns (r: Result<seq<R>>)
    ensures r == MapAll(Dicts(items), g)
  {
    var records: seq<R> := [];
    var i := 0;
    while i < |items|
      invariant 0 <= i <= |items|
      invariant MapAll(Dicts(items[..i]), g) == Ok(records)
    {
      DictsStep(items, i);
      if items[i].JObj? {
        MapAllStep(Dicts(items[..i]), items[i].fields, g);
        var record := g(items[i].fields);
        if record.Err? {
          DictsPrefixError(items, i + 1, g);
          return Err(record.error);
        }
        records := records + [record.value];
      }
      i := i + 1;
    }
    assert items[..i] == items;
    return Ok(records);
  }

  /** When the dict items of a prefix already raise, so do those of the whole list. */
  lemma {:induction false} DictsPrefixError<R>(items: seq<Json>, n: nat, g: Fields -> Result<R>)
    requires n <= |items| && MapAll(Dicts(items[..n]), g).Err?
    ensures MapAll(Dicts(items), g) == MapAll(Dicts(items[..n]), g)
    decreases |items| - n
  {
    if n < |items| {
      DictsStep(items, n);
      if items[n].JObj? {
        MapAllStep(Dicts(items[..n]), items[n].fields, g);
      }
      DictsPrefixError(items, n + 1, g);
    } else {
      assert items[..n] == items;
    }
  }

  /** Every dict item's record appears among the table rows and every row is some
      dict item's record, one row per dict item: nothing is dropped (rows whose
      timestamp is NaT included), nothing is invented, and the rows come sorted. */
  lemma RecordsTable<R>(items: seq<Json>, g: Fields -> Result<R>, columns: seq<string>,
                            key: R -> Timestamp, t: Table<R>)
    requires MapAll(Dicts(items), g).Ok?
    requires t == IndexByTime(MapAll(Dicts(items), g).value, columns, key)
    ensures |t.rows| == |Dicts(items)|
    ensures SortedBy(t.rows, key)
    ensures forall d :: d in Dicts(items) ==> g(d).Ok? && g(d).value in t.rows
    ensures forall row :: row in t.rows ==> exists d :: d in Dicts(items) && g(d) == Ok(row)
  {
    var ds := Dicts(items);
    var records := MapAll(ds, g).value;
    MapAllSpec(ds, g);
    assert |t.rows| == |records| by {
      assert multiset(t.rows) == multiset(records);
      assert |multiset(t.rows)| == |multiset(records)|;
    }
    forall d | d in ds
      ensures g(d).Ok? && g(d).value in t.rows
    {
      var k :| 0 <= k < |ds| && ds[k] == d;
      assert records[k] in multiset(records);
    }
    forall row | row in t.rows
      ensures exists d :: d in ds && g(d) == Ok(row)
    {
      assert row in multiset(t.rows);
      assert row in multiset(records);
      var k :| 0 <= k < |records| && records[k] == row;
      assert g(ds[k]) == Ok(row);
    }
  }

  /** The rows one item of the generation or KGÜP content yields. With the hourly key,
      one row per entry of the hourly list, each built by `hourly` from the parent's
      date, the item and the entry; without it, the one row `simple` builds. */
  function HourlyItem<R>(p: Parsers, key: string, simple: (Timestamp, Fields) -> Result<R>,
                         hourly: (Timestamp, Fields, Json) -> Result<R>, item: Fields): Result<seq<R>>
  {
    var dt := DateOf(p, item);
    match Get(item, key)
    case Some(v) =>
      var entries :- Iterate(v);
      MapAll(entries, EntryRow(hourly, dt, item))
    case None =>
      var row :- simple(dt, item);
      Ok([row])
  }

  function EntryRow<R>(hourly: (Timestamp, Fields, Json) -> Result<R>, dt: Timestamp, item: Fields): Json -> Result<R> {
    entry => hourly(dt, item, entry)
  }

  function HourlyItemOf<R>(p: Parsers, key: string, simple: (Timestamp, Fields) -> Result<R>,
                           hourly: (Timestamp, Fields, Json) -> Result<R>): Fields -> Result<seq<R>> {
    item => HourlyItem(p, key, simple, hourly, item)
  }

  /** The records of a whole content list under the hourly rule: the rows of its dict
      items, concatenated in order. */
  function HourlyRecords<R>(p: Parsers, key: string, simple: (Timestamp, Fields) -> Result<R>,
                            hourly: (Timestamp, Fields, Json) -> Result<R>, items: seq<Json>): Result<seq<R>>
  {
    var parts :- MapAll(Dicts(items), HourlyItemOf(p, key, simple, hourly));
    Ok(Flatten(parts))
  }

  /** An item with the hourly key yields exactly one row per hourly entry, the k-th
      built from the k-th entry; an item without it yields exactly one row. */
  lemma HourlyItemRows<R>(p: Parsers, key: string, simple: (Timestamp, Fields) -> Result<R>,
                          hourly: (Timestamp, Fields, Json) -> Result<R>, item: Fields, rows: seq<R>)
    requires HourlyItem(p, key, simple, hourly, item) == Ok(rows)
    ensures Get(item, key).Some? ==>
              Iterate(Get(item, key).value).Ok?
              && |rows| == |Iterate(Get(item, key).value).value|
              && forall k :: 0 <= k < |rows| ==>
                   hourly(DateOf(p, item), item, Iterate(Get(item, key).value).value[k]) == Ok(rows[k])
    ensures Get(item, key).None? ==> |rows| == 1 && simple(DateOf(p, item), item) == Ok(rows[0])
  {
    if Get(item, key).Some? {
      var entries := Iterate(Get(item, key).value).value;
      MapAllSpec(entries, EntryRow(hourly, DateOf(p, item), item));
    }
  }

  /** An item whose hourly key holds a list yields its rows iff every entry does. */
  lemma HourlyItemAccepted<R>(p: Parsers, key: string, simple: (Timestamp, Fields) -> Result<R>,
                              hourly: (Timestamp, Fields, Json) -> Result<R>, item: Fields, entries: seq<Json>)
    requires Get(item, key) == Some(JArr(entries))
    ensures HourlyItem(p, key, simple, hourly, item).Ok? <==>
              forall k :: 0 <= k < |entries| ==> hourly(DateOf(p, item), item, entries[k]).Ok?
  {
    var g := EntryRow(hourly, DateOf(p, item), item);
    MapAllSpec(entries, g);
    assert forall k :: 0 <= k < |entries| ==> g(entries[k]) == hourly(DateOf(p, item), item, entries[k]);
  }

  /** The outer loop of the generation and KGÜP processors: for each dict item, the
      rows of that item, appended in order. */
  method CollectHourlyRecords<R>(p: Parsers, key: string, simple: (Timestamp, Fields) -> Result<R>,
                                 hourly: (Timestamp, Fields, Json) -> Result<R>, items: seq<Json>)
    returns (r: Result<seq<R>>)
    ensures r == HourlyRecords(p, key, simple, hourly, items)
  {
    var f := HourlyItemOf(p, key, simple, hourly);
    var records: seq<R> := [];
    ghost var parts: seq<seq<R>> := [];
    var i := 0;
    while i < |items|
      invariant 0 <= i <= |items|
      invariant MapAll(Dicts(items[..i]), f) == Ok(parts)
      invariant records == Flatten(parts)
    {
      DictsStep(items, i);
      if items[i].JObj? {
        MapAllStep(Dicts(items[..i]), items[i].fields, f);
        var rows := CollectItemRows(p, key, simple, hourly, items[i].fields);
        if rows.Err? {
          DictsPrefixError(items, i + 1, f);
          return Err(rows.error);
        }
        records := records + rows.value;
        parts := parts + [rows.value];
      }
      i := i + 1;
    }
    assert items[..i] == items;
    return Ok(records);
  }

  /** The inner loop: one row per hourly entry of the item, or one row for the item
      when it has no hourly entries. */
  method CollectItemRows<R>(p: Parsers, key: string, simple: (Timestamp, Fields) -> Result<R>,
                            hourly: (Timestamp, Fields, Json) -> Result<R>, item: Fields)
    returns (r: Result<seq<R>>)
    ensures r == HourlyItem(p, key, simple, hourly, item)
  {
    var dt := DateOf(p, item);
    if Get(item, key).None? {
      var row := simple(dt, item);
      if row.Err? {
        return Err(row.error);
      }
      return Ok([row.value]);
    }
    var entries := Iterate(Get(item, key).value);
    if entries.Err? {
      return Err(entries.error);
    }
    var es := entries.value;
    var g := EntryRow(hourly, dt, item);
    var rows: seq<R> := [];
    var j := 0;
    while j < |es|
      invariant 0 <= j <= |es|
      invariant MapAll(es[..j], g) == Ok(rows)
    {
      assert es[..j + 1] == es[..j] + [es[j]];
      MapAllStep(es[..j], es[j], g);
      var row := hourly(dt, item, es[j]);
      if row.Err? {
        MapAllErrorPersists(es, j + 1, g);
        return Err(row.error);
      }
      rows := rows + [row.value];
      j := j + 1;
    }
    assert es[..j] == es;
    return Ok(rows);
  }
}
