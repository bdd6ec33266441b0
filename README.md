# Employee salary store — a Dafny model

This project models the record store at the heart of a small desktop application for
employee salaries (`employee_system.py`). The application keeps a list of employee records
(`id`, `name`, `position`, `salary`, `symbol`), saved to a data file after each successful
change. Six commands work on that list: four that read or change records (register, set
salary, edit with an optional salary update, search) and two reports (table and chart). Salaries are converted to US
dollars with a fixed rate table. A symbol missing from the table gets a multiplier of 1.

The model is split into five modules:

- `Wrappers` (`wrappers.dfy`): the `Option` type, standing for Python's `None`-or-value.
- `Currency` (`currency.dfy`): the rate table `CurrencyRates`, copied entry for entry. This
  includes the key `"3"` mapped to 1.27. Also `ConvertToUsd`.
- `Records` (`records.dfy`): the `Record` datatype and the truthiness test
  `emp['salary'] and emp['symbol']` (`SalarySet`: both present, salary not 0, symbol not
  empty). Also the store invariants (`DistinctIds`, `BothOrNeither`, `KnownSymbols`, and
`WellFormed`, which is all three),
  `s.replace(" ", "")` (`RemoveSpaces`), `s.isalpha()` (`IsAlpha`) with an independent
  letters-and-spaces rule proved equal to it, and the first-match linear scan (`FindIndex`).
- `Reports` (`reports.dfy`): the search summary (`Describe`), the table rows and the chart
  series, as pure functions over the list. Also the outcomes of the table and chart commands.
- `RecordStore` (`store.dfy`): each command as a pure step from the old list to an outcome
  and a new list, the lemmas about those steps, and the class `Store`. `Store` holds the
  list as a `seq<Record>` field and the data file's contents as a second field. Its methods
  scan the list with a loop that stops at the first match, as the application does. Each
  method is proved to take its pure step, to save exactly when the application saves, and
  to keep the store well formed.

The model treats its inputs like this:

- Each command takes the answers its dialogs collect, in the order they are asked.
- Python's `float()` is a parameter `parse: string -> Option<real>`, where `None` means the
  `ValueError` branch.
- The Unicode letter test behind `isalpha` is a parameter `isLetter: char -> bool`.
- `str.lower` is a parameter `lower`.
- The store methods do not record messages. Each one returns the outcome its message box
  would report.
- The record that `update_salary_data` receives is named by its position in the list. No
  command removes records or reorders the list, so that position stays valid.

Two expectations one might have of such a store do not hold of the code, and the model
follows the code:

- One might expect that no command changes state and then fails. In the code, edit writes the new
  name and job title before it asks for the salary (employee_system.py:170-174). If that
  salary step then fails, or its dialog is closed, the change stays in memory unsaved.
  `EditThenFailedSalary` and the `persisted` clauses of `Store.Edit` and
  `Store.UpdateSalaryData` state this.
- One might expect every record to have a unique id and, once a salary is set, a symbol
  from the rate table. The code enforces this only in its commands, not when it loads the
  file. The model therefore states these invariants (`WellFormed`: distinct ids, salary and
  symbol set together, every symbol a key of `CurrencyRates`) as preserved by every command
  (`WellFormed(old) ==> WellFormed(new)`). It does not assume them of a loaded list.

## Model

| member | source | states |
|---|---|---|
| `Currency.Rate` | employee_system.py:63 | the multiplier `currency_rates.get(symbol, 1)`: positive for every symbol, and 1 for a symbol missing from the table (the table itself, line 38, is the constant `CurrencyRates`) |
| `Currency.ConvertToUsd` | employee_system.py:61-64 | the salary normaliser: the amount times the table's rate for a known symbol, the amount itself for an unknown one; `ConvertReferenceValues` and `ConvertKeepsSign` state its consequences |
| `Currency.RatesPositive` | employee_system.py:38 | every rate in the table is positive and no key is the empty string |
| `Currency.ConvertKnownSymbol` | employee_system.py:61-64 | a symbol in the table converts by multiplying with its rate |
| `Currency.ConvertUnknownSymbol` | employee_system.py:61-64 | a symbol missing from the table uses the default multiplier 1, leaving the amount unchanged |
| `Currency.ConvertReferenceValues` | employee_system.py:38 | "$" is the identity, 100 "$" is 100 dollars and 100 "€" is 108 dollars |
| `Currency.ConvertKeepsSign` | employee_system.py:61-64 | conversion maps 0 to 0 only, and positive amounts to positive ones |
| `Records.WithSalary` | employee_system.py:131-132 | the record with salary and symbol overwritten together (both set afterwards), id, name and job title kept; used by set-salary and by lines 192-193 |
| `Records.WithInfo` | employee_system.py:170-171 | the edited record: an empty new name or job title keeps the old value, a non-empty one replaces it, and id, salary and symbol are kept |
| `Records.RemoveSpaces` | employee_system.py:100 | the result holds exactly the characters of the input other than the space |
| `Records.AlphaWithoutSpaces` | employee_system.py:100-104 | "spaces removed, then isalpha" holds iff the text is letters and spaces only with at least one letter |
| `Records.FindIndex` | employee_system.py:124-125 | the scan returns the first position with the id, or nothing when no record has it |
| `Records.FindIndexIsFirstMatch` | employee_system.py:124-125 | the first matching position is the one the scan returns |
| `Reports.Describe` | employee_system.py:150-155 | the search summary: name and job title, plus amount, symbol and dollar value exactly when salary and symbol pass the truthiness test; `SearchReports` states what search shows |
| `Reports.RowFor` | employee_system.py:211-218 | one table row: number, name, job title and id copied, salary cell "Not Set" exactly when the truthiness test fails |
| `Reports.TableRows` | employee_system.py:209-218 | one row per record in store order, numbered from 1; name, job title and id copied; salary cell "Not Set" exactly when the truthiness test fails |
| `Reports.TableRowsAppend` | employee_system.py:210-218 | appending a record appends one row numbered after the last |
| `Reports.ShowTable` | employee_system.py:201-218 | an empty store gives "no data", a missing table library an error, otherwise the rows of every record |
| `Reports.BarFor` | employee_system.py:266-268 | one bar: the caption "name (position)" and the converted salary, never 0 and positive exactly when the salary is |
| `Reports.ChartSeries` | employee_system.py:262-271 | every bar comes from a record passing the truthiness test, and no bar has value 0 |
| `Reports.ChartSeriesConcat` | employee_system.py:265-271 | the series of a concatenation is the concatenation of the series, so bars follow store order |
| `Reports.ChartSeriesSingle` | employee_system.py:266-270 | one record gives the bar "name (position)" with its dollar value when it passes the truthiness test, and no bar otherwise |
| `Reports.ChartSeriesCovers` | employee_system.py:265-270 | every record passing the truthiness test has its bar in the series |
| `Reports.ChartSeriesEmpty` | employee_system.py:272-274 | the series is empty exactly when no record passes the truthiness test |
| `Reports.ShowChart` | employee_system.py:254-274 | "no data" for an empty store, an error without the plotting libraries, "nothing to plot" exactly when no record has a truthy salary and symbol, otherwise the non-empty series |
| `RecordStore.RegisterStep` | employee_system.py:96-111 | registration as a step: on success the list plus the new record, otherwise the list unchanged; `RegisterRejection` and `RegisterSuccess` state when each happens |
| `RecordStore.SalaryCheck` | employee_system.py:126-130 | the salary sub-step's verdict: recorded exactly when the symbol is a key of the rate table and the amount parses, the symbol checked first; never "not found" (also lines 187-191) |
| `RecordStore.UpdateSalaryStep` | employee_system.py:187-193 | the salary sub-step on record i: the outcome is `SalaryCheck`'s, no other record changes, and a failure changes nothing; `UpdateSalaryEffect` gives the new record |
| `RecordStore.SetSalaryStep` | employee_system.py:124-138 | set-salary as a step: "not found" exactly when no record has the id, no change unless recorded, ids kept; `SetSalaryFirstMatch` ties it to the first match |
| `RecordStore.EditStep` | employee_system.py:168-179 | edit as a step: "not found" exactly when no record has the id, and then no change; ids, salaries and symbols always kept; `EditFirstMatch` gives the edited record |
| `RecordStore.SearchResult` | employee_system.py:146-158 | search as a function: "not found" exactly when no record has the id, otherwise the summary of the first match (`SearchReports`) |
| `RecordStore.RegisterRejection` | employee_system.py:96-109 | registration refuses exactly on an empty field, a name or job title that is not letters and spaces, or a taken id, in that order, and a refusal leaves the list unchanged |
| `RecordStore.AllSpacesNameRejected` | employee_system.py:100-102 | a name of spaces only is refused as not letters |
| `RecordStore.RegisterSuccess` | employee_system.py:107-112 | success appends exactly one record with the given id, name and job title and no salary, after the unchanged records; the id was new, so distinct ids stay distinct and the store stays well formed |
| `RecordStore.UpdateSalaryEffect` | employee_system.py:185-197 | an unknown symbol or an unparsable amount changes nothing; otherwise salary and symbol of that record are set together and nothing else changes |
| `RecordStore.SetSalaryUnknownId` | employee_system.py:124-138 | an id no record has gives "not found" and no change |
| `RecordStore.SetSalaryFirstMatch` | employee_system.py:124-137 | set-salary is the salary sub-step on the first record with the id |
| `RecordStore.UpdateSalaryPreservesWellFormed` | employee_system.py:190-193 | the salary sub-step keeps ids distinct, salary and symbol set together, and symbols in the rate table |
| `RecordStore.SetSalaryPreservesWellFormed` | employee_system.py:129-132 | set-salary keeps ids distinct, salary and symbol set together, and symbols in the rate table |
| `RecordStore.EditUnknownId` | employee_system.py:168-179 | editing an id no record has gives "not found" and no change |
| `RecordStore.EditFirstMatch` | employee_system.py:168-177 | edit changes only the first record with the id, never its id or salary; an empty new value keeps the old one and a non-empty one is taken without letter test |
| `RecordStore.EditPreservesWellFormed` | employee_system.py:168-171 | editing keeps ids distinct, salary and symbol set together, and symbols in the rate table |
| `RecordStore.EditThenFailedSalary` | employee_system.py:170-197 | after an edit that asks for a salary, a failing salary sub-step keeps the new name and job title in the list |
| `RecordStore.SearchReports` | employee_system.py:146-158 | search reports "not found" exactly when no record has the id, otherwise the first match's name and job title, its salary hidden exactly when the truthiness test fails |
| `RecordStore.RegisterAddsTableRow` | employee_system.py:111 | after a registration the table has one more row, numbered after the last, with salary "Not Set" |
| `RecordStore.RegisterLeavesChart` | employee_system.py:111 | a registration does not change the chart series |
| `RecordStore.SalaryStepChart` | employee_system.py:131-132 | after recording a salary, that record's bar appears in its place with the converted amount, unless the amount is 0; the other bars are unchanged |
| `RecordStore.SalaryStepTable` | employee_system.py:192-193 | after recording a salary, that row shows amount and symbol, or "Not Set" for an amount of 0; the other rows are unchanged |
| `RecordStore.AnnLeeSession` | employee_system.py:95-158 | registering "Ann Lee"/"E1"/"Engineer" succeeds, the chart has nothing to plot, "$" 5000 is recorded, search for "E1" shows 5000 "$" (5000 dollars) and search for "E2" finds nobody |
| `RecordStore.Store.Load` | employee_system.py:41-51 | a missing or unreadable file gives an empty list, a readable one its contents |
| `RecordStore.Store.Save` | employee_system.py:53-56 | the file afterwards holds the whole list and the list is unchanged |
| `RecordStore.Store.Register` | employee_system.py:95-114 | the method takes the registration step, saves only on success and keeps the store well formed |
| `RecordStore.Store.SetSalary` | employee_system.py:122-138 | the method takes the set-salary step, saves only on success and keeps the store well formed |
| `RecordStore.Store.UpdateSalaryData` | employee_system.py:183-197 | the method takes the salary sub-step on the given record, saves only on success and keeps the store well formed |
| `RecordStore.Store.Edit` | employee_system.py:166-181 | the method takes the edit step, saves when no salary is asked for, and leaves the change unsaved when one is |
| `RecordStore.Store.Search` | employee_system.py:146-158 | the method returns the first match's summary, or "not found" exactly when no record has the id |

## Left out

- The tkinter interface: windows, entries, buttons, key bindings, message boxes, the table
  widget and its styling, and the exit confirmation. Each message box is the outcome value a
  command returns.
- The chaining of input dialogs (`ask_sequential_inputs`). Each command receives the answers
  already collected. A closed dialog means the command, or the salary step after an edit, is
  never called.
- The JSON encoding of the data file and errors while writing it. The file is the field
  `persisted`, holding the list or nothing. A loaded record is assumed to have the record's
  shape. Values of other JSON types, such as a numeric id, are not modelled.
- Floating point. Salaries and rates are `real`, so rounding in the conversion is not
  modelled, and neither are parsed values such as `nan` or `inf`. `float()` is the `parse`
  parameter.
- The text of the messages. This covers the `repr` of a salary in the table and in search,
  the `:.2f` dollar amount, and the chart's labels and axes. The model keeps the numbers and
  strings those texts are built from.
- The Unicode tables behind `isalpha` and `lower`. They are the parameters `isLetter` and
  `lower`.
- The probing for pandas, numpy and matplotlib. Their availability is a boolean argument of
  `ShowTable` and `ShowChart`.
- `Reports.ShowChart`: its "chart unavailable" test covers only matplotlib and numpy, as the
  code's does. The code then also calls pandas, so when pandas alone is missing it fails with
  a `NameError` that the model does not capture.
