/**
 * What the search dialog, the employee table and the salary chart are built from: plain data
 * assembled from the records, before any widget or plotting library renders it.
 */
module Reports {
  import opened Wrappers
  import opened Currency
  import opened Records

  /** The salary line of the search summary: "not set yet", or amount, symbol and dollar value. */
  datatype SalaryInfo = NotSetYet | Salary(amount: real, symbol: string, usd: real)

  /** The search summary shown for one employee. */
  datatype Info = Info(name: string, position: string, salary: SalaryInfo)

  /**
   * The summary of a record: name and job title, and the amount, symbol and dollar value of
   * the salary exactly when salary and symbol pass the truthiness test.
   */
  function Describe(r: Record): (info: Info)
    ensures info.name == r.name && info.position == r.position
    ensures info.salary.NotSetYet? <==> !SalarySet(r)
    ensures info.salary.Salary? ==>
      info.salary.amount == r.salary.value && info.salary.symbol == r.symbol.value &&
      info.salary.usd == ConvertToUsd(r.salary.value, r.symbol.value)
  {
    Info(r.name, r.position,
         if SalarySet(r) then Salary(r.salary.value, r.symbol.value, ConvertToUsd(r.salary.value, r.symbol.value))
         else NotSetYet)
  }

  /** The "Salary" column of the table: "Not Set", or the amount followed by its symbol. */
  datatype SalaryCell = NotSet | Amount(salary: real, symbol: string)

  /** One table row: the columns "No.", "Name", "Job Title", "Salary" and "Employee ID". */
  datatype TableRow = TableRow(no: nat, name: string, position: string, salary: SalaryCell, id: string)

  /** The row numbered `no` for a record: its columns copied, the salary "Not Set" unless it passes the truthiness test. */
  function RowFor(no: nat, r: Record): (row: TableRow)
    ensures row.no == no && row.name == r.name && row.position == r.position && row.id == r.id
    ensures row.salary.NotSet? <==> !SalarySet(r)
  {
    TableRow(no, r.name, r.position,
             if SalarySet(r) then Amount(r.salary.value, r.symbol.value) else NotSet, r.id)
  }

  /** The rows `enumerate(employees, start=1)` appends, one per record in store order. */
  function TableRows(rs: seq<Record>): (rows: seq<TableRow>)
    ensures |rows| == |rs|
    ensures forall i :: 0 <= i < |rs| ==>
      rows[i].no == i + 1 && rows[i].name == rs[i].name && rows[i].position == rs[i].position &&
      rows[i].id == rs[i].id && (rows[i].salary.NotSet? <==> !SalarySet(rs[i])) &&
      (rows[i].salary.Amount? ==> rows[i].salary == Amount(rs[i].salary.value, rs[i].symbol.value))
  {
    if rs == [] then []
    else TableRows(rs[..|rs| - 1]) + [RowFor(|rs|, rs[|rs| - 1])]
  }

  /** Appending a record appends its row, numbered one past the previous last row. */
  lemma TableRowsAppend(rs: seq<Record>, r: Record)
    ensures TableRows(rs + [r]) == TableRows(rs) + [RowFor(|rs| + 1, r)]
  {
    assert (rs + [r])[..|rs|] == rs;
  }

  /** What the table command reports. */
  datatype TableOutcome = NoTableData | TableUnavailable | Table(rows: seq<TableRow>)

  /** The table command: no data for an empty store, an error without the table library, else the rows. */
  function ShowTable(rs: seq<Record>, pandasAvailable: bool): (t: TableOutcome)
    ensures t.NoTableData? <==> |rs| == 0
    ensures t.TableUnavailable? <==> |rs| > 0 && !pandasAvailable
    ensures t.Table? ==> |t.rows| == |rs| > 0 && t.rows == TableRows(rs)
  {
    if rs == [] then NoTableData
    else if !pandasAvailable then TableUnavailable
    else Table(TableRows(rs))
  }

  /** One chart bar: the caption (the source's label) "name (position)" and the salary in dollars. */
  datatype Bar = Bar(caption: string, usd: real)

  /** The bar for a record with a salary: "name (position)" and a dollar value that is never 0. */
  function BarFor(r: Record): (bar: Bar)
    requires SalarySet(r)
    ensures bar.caption == r.name + " (" + r.position + ")"
    ensures bar.usd != 0.0 && (bar.usd > 0.0 <==> r.salary.value > 0.0)
  {
    ConvertKeepsSign(r.salary.value, r.symbol.value);
    Bar(r.name + " (" + r.position + ")", ConvertToUsd(r.salary.value, r.symbol.value))
  }

  /**
   * The bars the chart loop appends: one per record that passes the truthiness test, in store
   * order; every bar comes from such a record and none has a zero value.
   */
  function ChartSeries(rs: seq<Record>): (bars: seq<Bar>)
    ensures |bars| <= |rs|
    ensures forall k :: 0 <= k < |bars| ==>
      exists i :: 0 <= i < |rs| && SalarySet(rs[i]) && bars[k] == BarFor(rs[i])
    ensures forall k :: 0 <= k < |bars| ==> bars[k].usd != 0.0
  {
    if rs == [] then []
    else
      var init := ChartSeries(rs[..|rs| - 1]);
      var last := rs[|rs| - 1];
      if SalarySet(last) then
        ConvertKeepsSign(last.salary.value, last.symbol.value);
        init + [BarFor(last)]
      else init
  }

  /** The series of a concatenation is the concatenation of the series: the chart keeps store order. */
  lemma {:induction false} ChartSeriesConcat(a: seq<Record>, b: seq<Record>)
    ensures ChartSeries(a + b) == ChartSeries(a) + ChartSeries(b)
    decreases |b|
  {
    if b == [] {
      assert a + b == a;
    } else {
      var b' := b[..|b| - 1];
      assert (a + b)[..|a + b| - 1] == a + b';
      ChartSeriesConcat(a, b');
    }
  }

  /** A single record contributes its bar exactly when it passes the truthiness test. */
  lemma ChartSeriesSingle(r: Record)
    ensures ChartSeries([r]) == if SalarySet(r) then [BarFor(r)] else []
  {
    assert [r][..0] == [];
  }

  /** Every record that passes the truthiness test has its bar in the chart. */
  lemma {:induction false} ChartSeriesCovers(rs: seq<Record>, i: nat)
    requires i < |rs| && SalarySet(rs[i])
    ensures BarFor(rs[i]) in ChartSeries(rs)
  {
    assert rs == rs[..i] + [rs[i]] + rs[i + 1..];
    ChartSeriesConcat(rs[..i] + [rs[i]], rs[i + 1..]);
    ChartSeriesConcat(rs[..i], [rs[i]]);
    ChartSeriesSingle(rs[i]);
  }

  /** The series is empty exactly when no record passes the truthiness test. */
  lemma ChartSeriesEmpty(rs: seq<Record>)
    ensures ChartSeries(rs) == [] <==> forall i :: 0 <= i < |rs| ==> !SalarySet(rs[i])
  {
    if exists i :: 0 <= i < |rs| && SalarySet(rs[i]) {
      var i :| 0 <= i < |rs| && SalarySet(rs[i]);
      ChartSeriesCovers(rs, i);
    }
  }

  /** What the chart command reports. */
  datatype ChartOutcome = NoChartData | ChartUnavailable | NothingToPlot | Chart(bars: seq<Bar>)

  /**
   * The chart command: no data for an empty store, an error without the plotting libraries,
   * "nothing to plot" when no record has a salary that passes the truthiness test, else the bars.
   */
  function ShowChart(rs: seq<Record>, matplotlibAvailable: bool, numpyAvailable: bool): (c: ChartOutcome)
    ensures c.NoChartData? <==> |rs| == 0
    ensures c.ChartUnavailable? <==> |rs| > 0 && !(matplotlibAvailable && numpyAvailable)
    ensures c.NothingToPlot? <==>
      |rs| > 0 && matplotlibAvailable && numpyAvailable && forall i :: 0 <= i < |rs| ==> !SalarySet(rs[i])
    ensures c.Chart? ==> c.bars == ChartSeries(rs) && c.bars != []
  {
    if rs == [] then NoChartData
    else if !matplotlibAvailable || !numpyAvailable then ChartUnavailable
    else
      var bars := ChartSeries(rs);
      ChartSeriesEmpty(rs);
      if bars == [] then NothingToPlot else Chart(bars)
  }
}
