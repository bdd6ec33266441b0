/**
 * The employee store: the list of records the dialogs register into, record salaries in,
 * edit and search, and the file it is saved to after every successful change.
 *
 * Each command is given first as a pure step from the old list to an outcome and the new
 * list (the properties are lemmas about these steps), then as a method of `Store` that scans
 * the list the way the application does and is proved to take that step.
 */
module RecordStore {
  import opened Wrappers
  import opened Currency
  import opened Records
  import opened Reports

  /** The messages registration ends with. */
  datatype RegisterOutcome = Registered | FieldsRequired | NameNotLetters | JobTitleNotLetters | DuplicateId

  /** The messages recording a salary ends with (`EmployeeNotFound` only for the set-salary command). */
  datatype SalaryOutcome = SalaryRecorded | EmployeeNotFound | UnsupportedCurrency | InvalidAmount

  /**
   * The messages editing ends with. `SalaryRequested(i)` means the salary dialog is opened for
   * the record at position `i`: name and job title are already changed, not yet saved.
   */
  datatype EditOutcome = InfoUpdated | EditNotFound | SalaryRequested(index: nat)

  /** The message search ends with. */
  datatype SearchOutcome = Found(info: Info) | SearchNotFound

  /** A command's outcome together with the list of records it leaves. */
  datatype Step<O> = Step(outcome: O, records: seq<Record>)

  /** Registration: the four checks in the application's order, then one record appended. */
  function RegisterStep(rs: seq<Record>, name: string, id: string, position: string,
                        isLetter: char -> bool): (s: Step<RegisterOutcome>)
    ensures s.outcome == Registered ==> s.records == rs + [NewRecord(id, name, position)]
    ensures s.outcome != Registered ==> s.records == rs
  {
    if name == "" || id == "" || position == "" then Step(FieldsRequired, rs)
    else if !IsAlpha(RemoveSpaces(name), isLetter) then Step(NameNotLetters, rs)
    else if !IsAlpha(RemoveSpaces(position), isLetter) then Step(JobTitleNotLetters, rs)
    else if FindIndex(rs, id).Some? then Step(DuplicateId, rs)
    else Step(Registered, rs + [NewRecord(id, name, position)])
  }

  /** The salary sub-step shared by set-salary and edit: symbol first, then the amount. */
  function SalaryCheck(symbol: string, amount: Option<real>): (outcome: SalaryOutcome)
    ensures outcome != EmployeeNotFound
    ensures outcome == SalaryRecorded <==> symbol in CurrencyRates && amount.Some?
  {
    if symbol !in CurrencyRates then UnsupportedCurrency
    else if amount.None? then InvalidAmount
    else SalaryRecorded
  }

  /** `update_salary_data` on the record at position `i`; `amount` is the parse of the amount text. */
  function UpdateSalaryStep(rs: seq<Record>, i: nat, symbol: string, amount: Option<real>): (s: Step<SalaryOutcome>)
    requires i < |rs|
    ensures s.outcome == SalaryCheck(symbol, amount)
    ensures |s.records| == |rs| && forall j :: 0 <= j < |rs| && j != i ==> s.records[j] == rs[j]
    ensures s.outcome != SalaryRecorded ==> s.records == rs
  {
    var outcome := SalaryCheck(symbol, amount);
    if outcome == SalaryRecorded then Step(outcome, rs[i := WithSalary(rs[i], amount.value, symbol)])
    else Step(outcome, rs)
  }

  /** Set-salary: the first record with the id takes the salary sub-step; no record, no change. */
  function SetSalaryStep(rs: seq<Record>, id: string, symbol: string, amount: Option<real>): (s: Step<SalaryOutcome>)
    ensures s.outcome == EmployeeNotFound <==> forall j :: 0 <= j < |rs| ==> rs[j].id != id
    ensures s.outcome != SalaryRecorded ==> s.records == rs
    ensures |s.records| == |rs| && forall j :: 0 <= j < |rs| ==> s.records[j].id == rs[j].id
  {
    match FindIndex(rs, id)
    case None => Step(EmployeeNotFound, rs)
    case Some(i) => UpdateSalaryStep(rs, i, symbol, amount)
  }

  /** Edit: the first record with the id takes the new name and job title, then asks for a salary or not. */
  function EditStep(rs: seq<Record>, id: string, newName: string, newPosition: string,
                    wantsSalary: bool): (s: Step<EditOutcome>)
    ensures s.outcome == EditNotFound <==> forall j :: 0 <= j < |rs| ==> rs[j].id != id
    ensures s.outcome == EditNotFound ==> s.records == rs
    ensures |s.records| == |rs| && forall j :: 0 <= j < |rs| ==>
      s.records[j].id == rs[j].id && s.records[j].salary == rs[j].salary && s.records[j].symbol == rs[j].symbol
  {
    match FindIndex(rs, id)
    case None => Step(EditNotFound, rs)
    case Some(i) =>
      Step(if wantsSalary then SalaryRequested(i) else InfoUpdated,
           rs[i := WithInfo(rs[i], newName, newPosition)])
  }

  /** Search: the summary of the first record with the id. */
  function SearchResult(rs: seq<Record>, id: string): (result: SearchOutcome)
    ensures result.SearchNotFound? <==> forall j :: 0 <= j < |rs| ==> rs[j].id != id
  {
    match FindIndex(rs, id)
    case None => SearchNotFound
    case Some(i) => Found(Describe(rs[i]))
  }

  // ----- Registration -----

  /**
   * Registration refuses, and leaves the list as it was, exactly when a field is empty, the
   * name or job title is not letters and spaces with at least one letter, or the id is taken;
   * the checks run in that order.
   */
  lemma RegisterRejection(rs: seq<Record>, name: string, id: string, position: string, isLetter: char -> bool)
    ensures var s := RegisterStep(rs, name, id, position, isLetter);
      (s.outcome != Registered ==> s.records == rs) &&
      (s.outcome == FieldsRequired <==> name == "" || id == "" || position == "") &&
      (s.outcome == NameNotLetters <==>
        name != "" && id != "" && position != "" && !LettersAndSpaces(name, isLetter)) &&
      (s.outcome == JobTitleNotLetters <==>
        name != "" && id != "" && position != "" && LettersAndSpaces(name, isLetter) &&
        !LettersAndSpaces(position, isLetter)) &&
      (s.outcome == DuplicateId <==>
        name != "" && id != "" && position != "" && LettersAndSpaces(name, isLetter) &&
        LettersAndSpaces(position, isLetter) && exists j :: 0 <= j < |rs| && rs[j].id == id)
  {
    AlphaWithoutSpaces(name, isLetter);
    AlphaWithoutSpaces(position, isLetter);
  }

  /** A name made only of spaces is refused as "not letters", however many spaces it has. */
  lemma AllSpacesNameRejected(rs: seq<Record>, name: string, id: string, position: string, isLetter: char -> bool)
    requires name != "" && id != "" && position != ""
    requires forall k :: 0 <= k < |name| ==> name[k] == ' '
    ensures RegisterStep(rs, name, id, position, isLetter) == Step(NameNotLetters, rs)
  {
    AlphaWithoutSpaces(name, isLetter);
  }

  /**
   * A successful registration appends exactly one record, with the given id, name and job
   * title and no salary, after the unchanged earlier records; the id was new, so ids stay
   * distinct, and both salary fields are unset.
   */
  lemma RegisterSuccess(rs: seq<Record>, name: string, id: string, position: string, isLetter: char -> bool)
    requires RegisterStep(rs, name, id, position, isLetter).outcome == Registered
    ensures var s := RegisterStep(rs, name, id, position, isLetter);
      s.records == rs + [Record(id, name, position, None, None)] &&
      LettersAndSpaces(name, isLetter) && LettersAndSpaces(position, isLetter) &&
      (forall j :: 0 <= j < |rs| ==> rs[j].id != id) &&
      (DistinctIds(rs) ==> DistinctIds(s.records)) &&
      (WellFormed(rs) ==> WellFormed(s.records))
  {
    AlphaWithoutSpaces(name, isLetter);
    AlphaWithoutSpaces(position, isLetter);
  }

  // ----- Salaries -----

  /**
   * The salary sub-step on record `i`: a symbol missing from the rate table or an amount that
   * does not parse changes nothing; otherwise salary and symbol of record `i` are overwritten
   * together and nothing else changes.
   */
  lemma UpdateSalaryEffect(rs: seq<Record>, i: nat, symbol: string, amount: Option<real>)
    requires i < |rs|
    ensures var s := UpdateSalaryStep(rs, i, symbol, amount);
      (symbol !in CurrencyRates ==> s == Step(UnsupportedCurrency, rs)) &&
      (symbol in CurrencyRates && amount.None? ==> s == Step(InvalidAmount, rs)) &&
      (symbol in CurrencyRates && amount.Some? ==>
        s.outcome == SalaryRecorded && |s.records| == |rs| &&
        s.records[i] == Record(rs[i].id, rs[i].name, rs[i].position, amount, Some(symbol)) &&
        forall j :: 0 <= j < |rs| && j != i ==> s.records[j] == rs[j])
  {
  }

  /** Set-salary for an id no record has reports "not found" and changes nothing. */
  lemma SetSalaryUnknownId(rs: seq<Record>, id: string, symbol: string, amount: Option<real>)
    requires forall j :: 0 <= j < |rs| ==> rs[j].id != id
    ensures SetSalaryStep(rs, id, symbol, amount) == Step(EmployeeNotFound, rs)
  {
  }

  /** Set-salary acts on the first record with the id and on no other. */
  lemma SetSalaryFirstMatch(rs: seq<Record>, id: string, i: nat, symbol: string, amount: Option<real>)
    requires FirstMatch(rs, id, i)
    ensures SetSalaryStep(rs, id, symbol, amount) == UpdateSalaryStep(rs, i, symbol, amount)
  {
    FindIndexIsFirstMatch(rs, id, i);
  }

  /** The salary sub-step keeps the store well formed: ids are untouched and both fields are set at once. */
  lemma UpdateSalaryPreservesWellFormed(rs: seq<Record>, i: nat, symbol: string, amount: Option<real>)
    requires i < |rs| && WellFormed(rs)
    ensures WellFormed(UpdateSalaryStep(rs, i, symbol, amount).records)
  {
    var t := UpdateSalaryStep(rs, i, symbol, amount).records;
    assert |t| == |rs| && forall j :: 0 <= j < |rs| ==> t[j].id == rs[j].id;
  }

  /** Set-salary keeps the store well formed. */
  lemma SetSalaryPreservesWellFormed(rs: seq<Record>, id: string, symbol: string, amount: Option<real>)
    requires WellFormed(rs)
    ensures WellFormed(SetSalaryStep(rs, id, symbol, amount).records)
  {
    match FindIndex(rs, id)
    case None =>
    case Some(i) => UpdateSalaryPreservesWellFormed(rs, i, symbol, amount);
  }

  // ----- Editing -----

  /** Editing an id no record has reports "not found" and changes nothing. */
  lemma EditUnknownId(rs: seq<Record>, id: string, newName: string, newPosition: string, wantsSalary: bool)
    requires forall j :: 0 <= j < |rs| ==> rs[j].id != id
    ensures EditStep(rs, id, newName, newPosition, wantsSalary) == Step(EditNotFound, rs)
  {
  }

  /**
   * Editing changes only the first record with the id: its id, salary and symbol stay, an
   * empty new name or job title keeps the old one and a non-empty one is taken as it is,
   * without the letter test registration applies.
   */
  lemma EditFirstMatch(rs: seq<Record>, id: string, i: nat, newName: string, newPosition: string, wantsSalary: bool)
    requires FirstMatch(rs, id, i)
    ensures var s := EditStep(rs, id, newName, newPosition, wantsSalary);
      s.outcome == (if wantsSalary then SalaryRequested(i) else InfoUpdated) &&
      |s.records| == |rs| &&
      s.records[i].id == rs[i].id &&
      s.records[i].name == (if newName == "" then rs[i].name else newName) &&
      s.records[i].position == (if newPosition == "" then rs[i].position else newPosition) &&
      s.records[i].salary == rs[i].salary && s.records[i].symbol == rs[i].symbol &&
      forall j :: 0 <= j < |rs| && j != i ==> s.records[j] == rs[j]
  {
    FindIndexIsFirstMatch(rs, id, i);
  }

  /** Editing keeps the store well formed. */
  lemma EditPreservesWellFormed(rs: seq<Record>, id: string, newName: string, newPosition: string, wantsSalary: bool)
    requires WellFormed(rs)
    ensures WellFormed(EditStep(rs, id, newName, newPosition, wantsSalary).records)
  {
    var t := EditStep(rs, id, newName, newPosition, wantsSalary).records;
    assert |t| == |rs| && forall j :: 0 <= j < |rs| ==> t[j].id == rs[j].id && t[j].salary == rs[j].salary && t[j].symbol == rs[j].symbol;
  }

  /**
   * An edit that asks for a salary, followed by a salary sub-step that fails, keeps the new
   * name and job title in the list: the name change is not undone.
   */
  lemma EditThenFailedSalary(rs: seq<Record>, id: string, i: nat, newName: string, newPosition: string,
                             symbol: string, amount: Option<real>)
    requires FirstMatch(rs, id, i)
    requires SalaryCheck(symbol, amount) != SalaryRecorded
    ensures var e := EditStep(rs, id, newName, newPosition, true);
      e.outcome == SalaryRequested(i) &&
      UpdateSalaryStep(e.records, i, symbol, amount) == Step(SalaryCheck(symbol, amount), e.records) &&
      e.records[i] == WithInfo(rs[i], newName, newPosition)
  {
    FindIndexIsFirstMatch(rs, id, i);
  }

  // ----- Search -----

  /**
   * Search reports the summary of the first record with the id, with the salary and its dollar
   * value shown only when salary and symbol pass the truthiness test, and "not found" when no
   * record has the id.
   */
  lemma SearchReports(rs: seq<Record>, id: string)
    ensures SearchResult(rs, id) == SearchNotFound <==> forall j :: 0 <= j < |rs| ==> rs[j].id != id
    ensures SearchResult(rs, id).Found? ==>
      exists i: nat :: FirstMatch(rs, id, i) &&
        SearchResult(rs, id).info.name == rs[i].name && SearchResult(rs, id).info.position == rs[i].position &&
        (SearchResult(rs, id).info.salary == NotSetYet <==> !SalarySet(rs[i]))
  {
    var _ := FindIndex(rs, id);
  }

  // ----- What the reports show after a command -----

  /** After a registration the table has one more row, numbered |rs| + 1, with the salary "Not Set". */
  lemma RegisterAddsTableRow(rs: seq<Record>, name: string, id: string, position: string, isLetter: char -> bool)
    requires RegisterStep(rs, name, id, position, isLetter).outcome == Registered
    ensures TableRows(RegisterStep(rs, name, id, position, isLetter).records) ==
      TableRows(rs) + [TableRow(|rs| + 1, name, position, NotSet, id)]
  {
    RegisterSuccess(rs, name, id, position, isLetter);
    TableRowsAppend(rs, NewRecord(id, name, position));
  }

  /** A registration adds nothing to the chart: the new record has no salary. */
  lemma RegisterLeavesChart(rs: seq<Record>, name: string, id: string, position: string, isLetter: char -> bool)
    ensures ChartSeries(RegisterStep(rs, name, id, position, isLetter).records) == ChartSeries(rs)
  {
    var t := rs + [NewRecord(id, name, position)];
    assert t[..|t| - 1] == rs;
  }

  /**
   * After recording a salary on record `i`, the chart shows that record's bar, at its place in
   * store order, with the amount converted to dollars, unless the amount is 0, which the chart
   * leaves out; the bars of the other records are those they had.
   */
  lemma {:induction false} SalaryStepChart(rs: seq<Record>, i: nat, symbol: string, amount: Option<real>)
    requires i < |rs|
    requires UpdateSalaryStep(rs, i, symbol, amount).outcome == SalaryRecorded
    ensures var r := rs[i];
      ChartSeries(UpdateSalaryStep(rs, i, symbol, amount).records) ==
        ChartSeries(rs[..i]) +
        (if amount.value != 0.0
         then [Bar(r.name + " (" + r.position + ")", ConvertToUsd(amount.value, symbol))]
         else []) +
        ChartSeries(rs[i + 1..])
  {
    var r' := WithSalary(rs[i], amount.value, symbol);
    var t := rs[i := r'];
    assert t == rs[..i] + [r'] + rs[i + 1..];
    ChartSeriesConcat(rs[..i] + [r'], rs[i + 1..]);
    ChartSeriesConcat(rs[..i], [r']);
    ChartSeriesSingle(r');
    RatesPositive(symbol);
  }

  /**
   * After recording a salary on record `i`, that row of the table shows the amount and symbol,
   * except that an amount of 0 shows as "Not Set"; every other row is as it was.
   */
  lemma SalaryStepTable(rs: seq<Record>, i: nat, symbol: string, amount: Option<real>)
    requires i < |rs|
    requires UpdateSalaryStep(rs, i, symbol, amount).outcome == SalaryRecorded
    ensures var rows := TableRows(UpdateSalaryStep(rs, i, symbol, amount).records);
      |rows| == |rs| &&
      rows[i].salary == (if amount.value != 0.0 then Amount(amount.value, symbol) else NotSet) &&
      forall j :: 0 <= j < |rs| && j != i ==> rows[j] == TableRows(rs)[j]
  {
    RatesPositive(symbol);
  }

  /**
   * A session from an empty store: "Ann Lee" / "E1" / "Engineer" registers; before any salary
   * the chart has nothing to plot; "$" 5000 is recorded; searching "E1" shows 5000 "$", worth
   * 5000 dollars, and searching "E2" finds nobody (given that the letter test accepts both words).
   */
  lemma AnnLeeSession(isLetter: char -> bool, amount: Option<real>)
    requires LettersAndSpaces("Ann Lee", isLetter) && LettersAndSpaces("Engineer", isLetter)
    requires amount == Some(5000.0)
    ensures var s1 := RegisterStep([], "Ann Lee", "E1", "Engineer", isLetter);
      var s2 := SetSalaryStep(s1.records, "E1", "$", amount);
      s1.outcome == Registered &&
      ShowChart(s1.records, true, true) == NothingToPlot &&
      s2.outcome == SalaryRecorded &&
      SearchResult(s2.records, "E1") == Found(Info("Ann Lee", "Engineer", Salary(5000.0, "$", 5000.0))) &&
      SearchResult(s2.records, "E2") == SearchNotFound
  {
    var r := NewRecord("E1", "Ann Lee", "Engineer");
    AlphaWithoutSpaces("Ann Lee", isLetter);
    AlphaWithoutSpaces("Engineer", isLetter);
    assert RegisterStep([], "Ann Lee", "E1", "Engineer", isLetter) == Step(Registered, [r]);
    assert ShowChart([r], true, true) == NothingToPlot by {
      ChartSeriesEmpty([r]);
    }
    var r' := WithSalary(r, 5000.0, "$");
    assert SetSalaryStep([r], "E1", "$", amount) == Step(SalaryRecorded, [r']) by {
      SetSalaryFirstMatch([r], "E1", 0, "$", amount);
    }
    assert SearchResult([r'], "E1") == Found(Info("Ann Lee", "Engineer", Salary(5000.0, "$", 5000.0))) by {
      FindIndexIsFirstMatch([r'], "E1", 0);
      ConvertReferenceValues(5000.0);
    }
    assert SearchResult([r'], "E2") == SearchNotFound by {
      assert [r'][0].id != "E2";
    }
  }

  /** The store: the in-memory list and what the data file holds. */
  class Store {
    /** The list `employees`, in registration order. */
    var records: seq<Record>
    /** The data file: None while it is missing or unreadable, else the list last saved or loaded. */
    var persisted: Option<seq<Record>>

    /** Loading: a missing or unreadable file gives an empty list. */
    constructor Load(file: Option<seq<Record>>)
      ensures records == (if file.Some? then file.value else [])
      ensures persisted == file
    {
      records := if file.Some? then file.value else [];
      persisted := file;
    }

    /** Saving overwrites the file with the whole list. */
    method Save()
      modifies this
      ensures records == old(records)
      ensures persisted == Some(records)
    {
      persisted := Some(records);
    }

    /** Registration, given the three answers in the order the dialog asks for them. */
    method Register(name: string, id: string, position: string, isLetter: char -> bool)
      returns (outcome: RegisterOutcome)
      modifies this
      ensures Step(outcome, records) == RegisterStep(old(records), name, id, position, isLetter)
      ensures persisted == if outcome == Registered then Some(records) else old(persisted)
      ensures WellFormed(old(records)) ==> WellFormed(records)
    {
      if name == "" || id == "" || position == "" {
        return FieldsRequired;
      }
      if !IsAlpha(RemoveSpaces(name), isLetter) {
        return NameNotLetters;
      }
      if !IsAlpha(RemoveSpaces(position), isLetter) {
        return JobTitleNotLetters;
      }
      var i := 0;
      while i < |records|
        invariant 0 <= i <= |records|
        invariant forall j :: 0 <= j < i ==> records[j].id != id
      {
        if records[i].id == id {
          FindIndexIsFirstMatch(records, id, i);
          return DuplicateId;
        }
        i := i + 1;
      }
      assert FindIndex(records, id) == None;
      RegisterSuccess(records, name, id, position, isLetter);
      records := records + [NewRecord(id, name, position)];
      Save();
      outcome := Registered;
    }

    /** Set-salary, given the id, the symbol and the amount text; `parse` stands for `float()`. */
    method SetSalary(id: string, symbol: string, amountText: string, parse: string -> Option<real>)
      returns (outcome: SalaryOutcome)
      modifies this
      ensures Step(outcome, records) == SetSalaryStep(old(records), id, symbol, parse(amountText))
      ensures persisted == if outcome == SalaryRecorded then Some(records) else old(persisted)
      ensures WellFormed(old(records)) ==> WellFormed(records)
    {
      var i := 0;
      while i < |records|
        invariant 0 <= i <= |records|
        invariant forall j :: 0 <= j < i ==> records[j].id != id
      {
        if records[i].id == id {
          FindIndexIsFirstMatch(records, id, i);
          if WellFormed(records) {
            SetSalaryPreservesWellFormed(records, id, symbol, parse(amountText));
          }
          outcome := UpdateSalaryData(i, symbol, amountText, parse);
          return;
        }
        i := i + 1;
      }
      return EmployeeNotFound;
    }

    /**
     * `update_salary_data` for the record at position `i` (the record the edit dialog found),
     * given the symbol and the amount text.
     */
    method UpdateSalaryData(i: nat, symbol: string, amountText: string, parse: string -> Option<real>)
      returns (outcome: SalaryOutcome)
      requires i < |records|
      modifies this
      ensures Step(outcome, records) == UpdateSalaryStep(old(records), i, symbol, parse(amountText))
      ensures persisted == if outcome == SalaryRecorded then Some(records) else old(persisted)
      ensures WellFormed(old(records)) ==> WellFormed(records)
    {
      if WellFormed(records) {
        UpdateSalaryPreservesWellFormed(records, i, symbol, parse(amountText));
      }
      if symbol !in CurrencyRates {
        return UnsupportedCurrency;
      }
      var amount := parse(amountText);
      if amount.None? {
        return InvalidAmount;
      }
      records := records[i := WithSalary(records[i], amount.value, symbol)];
      Save();
      outcome := SalaryRecorded;
    }

    /**
     * Edit, given the id, the new name, the new job title and the answer to "Update salary?";
     * `lower` stands for `str.lower`. When the answer is "yes" the change is left unsaved and
     * the caller goes on with `UpdateSalaryData` on the returned position.
     */
    method Edit(id: string, newName: string, newPosition: string, answer: string, lower: string -> string)
      returns (outcome: EditOutcome)
      modifies this
      ensures Step(outcome, records) == EditStep(old(records), id, newName, newPosition, lower(answer) == "yes")
      ensures persisted == if outcome == InfoUpdated then Some(records) else old(persisted)
      ensures WellFormed(old(records)) ==> WellFormed(records)
    {
      var i := 0;
      while i < |records|
        invariant 0 <= i <= |records|
        invariant forall j :: 0 <= j < i ==> records[j].id != id
      {
        if records[i].id == id {
          FindIndexIsFirstMatch(records, id, i);
          if WellFormed(records) {
            EditPreservesWellFormed(records, id, newName, newPosition, lower(answer) == "yes");
          }
          records := records[i := WithInfo(records[i], newName, newPosition)];
          if lower(answer) == "yes" {
            return SalaryRequested(i);
          }
          Save();
          return InfoUpdated;
        }
        i := i + 1;
      }
      return EditNotFound;
    }

    /**
     * Search, given the id: the summary of the first record with that id, its salary shown only
     * when salary and symbol pass the truthiness test, or "not found" when no record has it.
     */
    method Search(id: string) returns (result: SearchOutcome)
      ensures result == SearchResult(records, id)
      ensures result.SearchNotFound? <==> forall j :: 0 <= j < |records| ==> records[j].id != id
      ensures result.Found? ==> exists i: nat :: FirstMatch(records, id, i) && result.info == Describe(records[i])
    {
      var i := 0;
      while i < |records|
        invariant 0 <= i <= |records|
        invariant forall j :: 0 <= j < i ==> records[j].id != id
      {
        if records[i].id == id {
          FindIndexIsFirstMatch(records, id, i);
          return Found(Describe(records[i]));
        }
        i := i + 1;
      }
      return SearchNotFound;
    }
  }
}
