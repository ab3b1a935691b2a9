/** `process_bilateral_contracts`: buy and sell records of bilateral contracts, pivoted
    to one row per hour and one column per (side, contract type), each cell the mean
    quantity and 0 where no contract was recorded. */
module Bilateral {
  import opened Wrappers
  import opened Json
  import opened Timestamps
  import opened Normalize

  datatype Side = Buy | Sell

  datatype ContractRow = ContractRow(datetime: Timestamp, side: Side, contractType: Json, quantity: real)

  /** A pivot column: the contract side and the contract type. */
  datatype Column = Column(side: Side, contractType: Json)

  /** The pivoted table: the ascending distinct timestamps, the columns, and the cell
      of every (timestamp, column) pair. pandas orders the columns too; that order is
      left out, so they form a set here. */
  datatype Pivot = Pivot(index: seq<int>, columns: set<Column>, cells: map<(int, Column), real>)

  /** One record of one side: the date, the side, the contract type ("" when absent)
      and the quantity under the quantity/value alias. */
  function ContractRecord(p: Parsers, side: Side, item: Fields): (r: Result<ContractRow>)
    ensures r.Ok? ==> r.value.datetime == DateOf(p, item) && r.value.side == side
    ensures r.Ok? ==> r.value.contractType == GetOr(item, "contractType", JStr(""))
    ensures r.Ok? <==> ToFloat(p, Alias(item, "quantity", "value")).Ok?
    ensures r.Ok? ==> ToFloat(p, Alias(item, "quantity", "value")) == Ok(r.value.quantity)
  {
    var q :- ToFloat(p, Alias(item, "quantity", "value"));
    Ok(ContractRow(DateOf(p, item), side, GetOr(item, "contractType", JStr("")), q))
  }

  function ContractRecordOf(p: Parsers, side: Side): Fields -> Result<ContractRow> {
    item => ContractRecord(p, side, item)
  }

  /** A group key pandas cannot hash: a list or a dict. */
  predicate Unhashable(j: Json) {
    j.JArr? || j.JObj?
  }

  /** A record the pivot groups: its timestamp parsed and its contract type is not
      None (groupby drops missing keys). */
  predicate Grouped(row: ContractRow) {
    row.datetime.Some? && !row.contractType.JNull?
  }

  function ColumnOf(row: ContractRow): Column {
    Column(row.side, row.contractType)
  }

  /** Whether `row` belongs to the cell at time `t` and column `c`. */
  predicate InCell(row: ContractRow, t: int, c: Column) {
    Grouped(row) && row.datetime.value == t && ColumnOf(row) == c
  }

  /** The number of records in a cell. */
  function Count(rows: seq<ContractRow>, t: int, c: Column): nat
    decreases |rows|
  {
    if rows == [] then 0
    else Count(rows[..|rows| - 1], t, c) + (if InCell(rows[|rows| - 1], t, c) then 1 else 0)
  }

  /** The summed quantity of a cell. */
  function Total(rows: seq<ContractRow>, t: int, c: Column): real
    decreases |rows|
  {
    if rows == [] then 0.0
    else Total(rows[..|rows| - 1], t, c) + (if InCell(rows[|rows| - 1], t, c) then rows[|rows| - 1].quantity else 0.0)
  }

  /** `aggfunc="mean"` with `fill_value=0`. */
  function Mean(rows: seq<ContractRow>, t: int, c: Column): real {
    var n := Count(rows, t, c);
    if n == 0 then 0.0 else Total(rows, t, c) / n as real
  }

  /** The timestamps of the grouped records, in record order. */
  function GroupedTimes(rows: seq<ContractRow>): (ts: seq<int>)
    ensures forall t :: t in ts <==> exists k :: 0 <= k < |rows| && Grouped(rows[k]) && rows[k].datetime.value == t
    decreases |rows|
  {
    if rows == [] then []
    else
      var last := rows[|rows| - 1];
      var init := GroupedTimes(rows[..|rows| - 1]);
      if Grouped(last) then init + [last.datetime.value] else init
  }

  predicate Ascending(xs: seq<int>) {
    forall i, j :: 0 <= i < j < |xs| ==> xs[i] < xs[j]
  }

  /** Inserts `x` into a strictly ascending sequence unless it is there already. */
  function InsertDistinct(x: int, xs: seq<int>): (r: seq<int>)
    requires Ascending(xs)
    ensures Ascending(r)
    ensures forall y :: y in r <==> y == x || y in xs
    decreases |xs|
  {
    if xs == [] then [x]
    else if x < xs[0] then [x] + xs
    else if x == xs[0] then xs
    else
      var rest := InsertDistinct(x, xs[1..]);
      assert forall y :: y in xs <==> y == xs[0] || y in xs[1..];
      forall j | 0 <= j < |rest|
        ensures xs[0] < rest[j]
      {
        assert rest[j] == x || rest[j] in xs[1..];
      }
      [xs[0]] + rest
  }

  /** The distinct values of `xs` in ascending order: the pivot's index. */
  function DistinctAscending(xs: seq<int>): (r: seq<int>)
    ensures Ascending(r)
    ensures forall y :: y in r <==> y in xs
    decreases |xs|
  {
    if xs == [] then []
    else
      var init := xs[..|xs| - 1];
      assert xs == init + [xs[|xs| - 1]];
      InsertDistinct(xs[|xs| - 1], DistinctAscending(init))
  }

  /** `pivot_table(index="datetime", columns=["type", "contract_type"], values="quantity",
      fill_value=0)`: a TypeError when a contract type is a list or a dict. */
  function PivotTable(rows: seq<ContractRow>): Result<Pivot> {
    if exists k :: 0 <= k < |rows| && Unhashable(rows[k].contractType) then Err(TypeError)
    else
      var index := DistinctAscending(GroupedTimes(rows));
      var columns := set k | 0 <= k < |rows| && Grouped(rows[k]) :: ColumnOf(rows[k]);
      Ok(Pivot(index, columns, map t, c | t in index && c in columns :: (t, c) := Mean(rows, t, c)))
  }

  /** `process_bilateral_contracts`: the buy records then the sell records, one per
      dict item of each side's content; no record at all gives `pd.DataFrame([])`,
      here the empty pivot. */
  function BilateralFrame(p: Parsers, buyData: Json, sellData: Json): Result<Pivot> {
    var buyContent :- ExtractContent(buyData);
    var sellContent :- ExtractContent(sellData);
    var buyItems :- Iterate(buyContent);
    var buys :- MapAll(Dicts(buyItems), ContractRecordOf(p, Buy));
    var sellItems :- Iterate(sellContent);
    var sells :- MapAll(Dicts(sellItems), ContractRecordOf(p, Sell));
    if buys + sells == [] then Ok(Pivot([], {}, map[])) else PivotTable(buys + sells)
  }

  method ProcessBilateral(p: Parsers, buyData: Json, sellData: Json) returns (r: Result<Pivot>)
    ensures r == BilateralFrame(p, buyData, sellData)
  {
    var buyContent :- ExtractContent(buyData);
    var sellContent :- ExtractContent(sellData);
    var buyItems :- Iterate(buyContent);
    var buys :- CollectRecords(buyItems, ContractRecordOf(p, Buy));
    var sellItems :- Iterate(sellContent);
    var sells :- CollectRecords(sellItems, ContractRecordOf(p, Sell));
    var records := buys + sells;
    if records == [] {
      return Ok(Pivot([], {}, map[]));
    }
    r := PivotTable(records);
  }

  /** Every grouped record has its timestamp in the index and its column among the
      columns; the index holds no other timestamp, ascending and without repeats;
      there is a cell for every index entry and column and for nothing else. */
  lemma PivotShape(rows: seq<ContractRow>, pv: Pivot)
    requires PivotTable(rows) == Ok(pv)
    ensures Ascending(pv.index)
    ensures forall t :: t in pv.index <==> exists k :: 0 <= k < |rows| && Grouped(rows[k]) && rows[k].datetime.value == t
    ensures forall k :: 0 <= k < |rows| && Grouped(rows[k]) ==> ColumnOf(rows[k]) in pv.columns
    ensures forall c :: c in pv.columns ==> exists k :: 0 <= k < |rows| && Grouped(rows[k]) && ColumnOf(rows[k]) == c
    ensures forall t, c :: (t, c) in pv.cells <==> t in pv.index && c in pv.columns
    ensures forall t, c :: (t, c) in pv.cells ==> pv.cells[(t, c)] == Mean(rows, t, c)
  {
  }

  /** The pivot raises TypeError exactly when some contract type is a list or a dict. */
  lemma PivotRaises(rows: seq<ContractRow>)
    ensures PivotTable(rows).Err? <==> exists k :: 0 <= k < |rows| && Unhashable(rows[k].contractType)
  {
  }

  /** A cell's mean lies between the smallest and largest quantity recorded in it. */
  lemma MeanBounds(rows: seq<ContractRow>, t: int, c: Column, lo: real, hi: real)
    requires Count(rows, t, c) > 0
    requires forall k :: 0 <= k < |rows| && InCell(rows[k], t, c) ==> lo <= rows[k].quantity <= hi
    ensures lo <= Mean(rows, t, c) <= hi
  {
    var n := Count(rows, t, c);
    var sum := Total(rows, t, c);
    TotalBounds(rows, t, c, lo, hi);
    AverageBounds(lo, hi, sum, n);
  }

  lemma AverageBounds(lo: real, hi: real, sum: real, n: nat)
    requires n > 0 && Scale(lo, n) <= sum <= Scale(hi, n)
    ensures lo <= sum / n as real <= hi
  {
    ScaleIsProduct(lo, n);
    ScaleIsProduct(hi, n);
    DivBounds(lo, hi, sum, n as real);
  }

  /** A sum between `lo * n` and `hi * n` averages to between `lo` and `hi`. */
  lemma DivBounds(lo: real, hi: real, sum: real, n: real)
    requires n > 0.0 && lo * n <= sum <= hi * n
    ensures lo <= sum / n <= hi
  {
    var m := sum / n;
    assert m * n == sum;
    ScaleBack(lo, m, n);
    ScaleBack(m, hi, n);
  }

  /** Dividing both sides of `a * n <= b * n` by a positive `n`. */
  lemma ScaleBack(a: real, b: real, n: real)
    requires n > 0.0 && a * n <= b * n
    ensures a <= b
  {
    assert b - a == (b * n - a * n) / n;
  }

  /** `a` added up `n` times; it keeps the running bounds below free of products. */
  function Scale(a: real, n: nat): real {
    if n == 0 then 0.0 else Scale(a, n - 1) + a
  }

  lemma {:induction false} ScaleIsProduct(a: real, n: nat)
    ensures Scale(a, n) == a * n as real
  {
    if n > 0 {
      ScaleIsProduct(a, n - 1);
      assert a * n as real == a * (n - 1) as real + a;
    }
  }

  /** Every in-cell quantity lies between `lo` and `hi`. */
  predicate Within(rows: seq<ContractRow>, t: int, c: Column, lo: real, hi: real) {
    forall k :: 0 <= k < |rows| && InCell(rows[k], t, c) ==> lo <= rows[k].quantity <= hi
  }

  lemma WithinPrefix(rows: seq<ContractRow>, t: int, c: Column, lo: real, hi: real)
    requires rows != [] && Within(rows, t, c, lo, hi)
    ensures Within(rows[..|rows| - 1], t, c, lo, hi)
  {
    var init := rows[..|rows| - 1];
    forall k | 0 <= k < |init| && InCell(init[k], t, c)
      ensures lo <= init[k].quantity <= hi
    {
      assert init[k] == rows[k];
    }
  }

  /** The total of a cell lies between `lo` and `hi` added up once per record. */
  lemma {:induction false} TotalBounds(rows: seq<ContractRow>, t: int, c: Column, lo: real, hi: real)
    requires Within(rows, t, c, lo, hi)
    ensures Scale(lo, Count(rows, t, c)) <= Total(rows, t, c) <= Scale(hi, Count(rows, t, c))
    decreases |rows|
  {
    if rows != [] {
      var init := rows[..|rows| - 1];
      WithinPrefix(rows, t, c, lo, hi);
      TotalBounds(init, t, c, lo, hi);
      if InCell(rows[|rows| - 1], t, c) {
        assert Count(rows, t, c) == Count(init, t, c) + 1;
      }
    }
  }

  /** A cell whose records all hold the quantity `q` holds `q`. */
  lemma SingleRecordCell(rows: seq<ContractRow>, t: int, c: Column, q: real)
    requires Count(rows, t, c) > 0
    requires forall k :: 0 <= k < |rows| && InCell(rows[k], t, c) ==> rows[k].quantity == q
    ensures Mean(rows, t, c) == q
  {
    MeanBounds(rows, t, c, q, q);
  }

  /** Two sides whose content holds no dict item (an empty list, `{"items": []}`, a
      list of scalars) give the empty pivot. */
  lemma BilateralEmpty(p: Parsers, buyData: Json, sellData: Json)
    requires ExtractContent(buyData).Ok? && Iterate(ExtractContent(buyData).value).Ok?
    requires ExtractContent(sellData).Ok? && Iterate(ExtractContent(sellData).value).Ok?
    requires Dicts(Iterate(ExtractContent(buyData).value).value) == []
    requires Dicts(Iterate(ExtractContent(sellData).value).value) == []
    ensures BilateralFrame(p, buyData, sellData) == Ok(Pivot([], {}, map[]))
  {
  }

  /** A buy record and a sell record of the same contract type in the same hour land
      in two different columns of the same row, each with its own quantity. */
  lemma BuyAndSellApart(t: int, ct: Json, qb: real, qs: real)
    requires !ct.JNull? && !Unhashable(ct)
    ensures var rows := [ContractRow(Some(t), Buy, ct, qb), ContractRow(Some(t), Sell, ct, qs)];
            PivotTable(rows).Ok?
            && PivotTable(rows).value.index == [t]
            && PivotTable(rows).value.columns == {Column(Buy, ct), Column(Sell, ct)}
            && PivotTable(rows).value.cells[(t, Column(Buy, ct))] == qb
            && PivotTable(rows).value.cells[(t, Column(Sell, ct))] == qs
  {
    var rows := [ContractRow(Some(t), Buy, ct, qb), ContractRow(Some(t), Sell, ct, qs)];
    TwoRowsIndex(rows, t);
    TwoRowsColumns(rows, Column(Buy, ct), Column(Sell, ct));
    TwoRowsCells(rows, t, ct, qb, qs);
  }

  lemma TwoRowsIndex(rows: seq<ContractRow>, t: int)
    requires |rows| == 2 && Grouped(rows[0]) && Grouped(rows[1])
    requires rows[0].datetime == Some(t) && rows[1].datetime == Some(t)
    ensures DistinctAscending(GroupedTimes(rows)) == [t]
  {
    assert rows[..1][..0] == [];
    assert GroupedTimes(rows[..1]) == [t];
    assert GroupedTimes(rows) == [t, t];
    assert [t, t][..1] == [t];
    assert [t][..0] == [];
    assert DistinctAscending([t]) == InsertDistinct(t, []) == [t];
    assert InsertDistinct(t, [t]) == [t];
  }

  lemma TwoRowsColumns(rows: seq<ContractRow>, c0: Column, c1: Column)
    requires |rows| == 2 && Grouped(rows[0]) && Grouped(rows[1])
    requires ColumnOf(rows[0]) == c0 && ColumnOf(rows[1]) == c1
    ensures (set k | 0 <= k < |rows| && Grouped(rows[k]) :: ColumnOf(rows[k])) == {c0, c1}
  {
    var cols := set k | 0 <= k < |rows| && Grouped(rows[k]) :: ColumnOf(rows[k]);
    assert ColumnOf(rows[0]) in cols && ColumnOf(rows[1]) in cols;
  }

  lemma TwoRowsCells(rows: seq<ContractRow>, t: int, ct: Json, qb: real, qs: real)
    requires !ct.JNull?
    requires rows == [ContractRow(Some(t), Buy, ct, qb), ContractRow(Some(t), Sell, ct, qs)]
    ensures Mean(rows, t, Column(Buy, ct)) == qb
    ensures Mean(rows, t, Column(Sell, ct)) == qs
  {
    assert rows[..1] == [rows[0]];
    assert rows[..1][..0] == [];
    assert Count(rows[..1], t, Column(Buy, ct)) == 1;
    assert Count(rows, t, Column(Buy, ct)) == 1;
    assert Count(rows[..1], t, Column(Sell, ct)) == 0;
    assert Count(rows, t, Column(Sell, ct)) == 1;
    SingleRecordCell(rows, t, Column(Buy, ct), qb);
    SingleRecordCell(rows, t, Column(Sell, ct), qs);
  }
}
