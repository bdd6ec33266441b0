/**
 * The employee record and the tests the application applies to records and to the strings
 * typed into its dialogs.
 */
module Records {
  import opened Wrappers
  import opened Currency

  /** One employee: `salary` and `symbol` are None until a salary is recorded. */
  datatype Record = Record(id: string, name: string, position: string, salary: Option<real>, symbol: Option<string>)

  /**
   * Python's truthiness of `emp['salary'] and emp['symbol']`: both present, the salary not
   * zero and the symbol not empty. A salary of 0 therefore counts as "not set".
   */
  predicate SalarySet(r: Record)
  {
    r.salary.Some? && r.salary.value != 0.0 && r.symbol.Some? && r.symbol.value != ""
  }

  /** Salary and symbol are either both present or both absent. */
  predicate BothOrNeither(r: Record)
  {
    r.salary.Some? <==> r.symbol.Some?
  }

  /** No two records share an id. */
  predicate DistinctIds(rs: seq<Record>)
  {
    forall i, j :: 0 <= i < j < |rs| ==> rs[i].id != rs[j].id
  }

  /** Every symbol a record holds is a key of the rate table. */
  predicate KnownSymbols(rs: seq<Record>)
  {
    forall i :: 0 <= i < |rs| && rs[i].symbol.Some? ==> rs[i].symbol.value in CurrencyRates
  }

  /**
   * The invariants the store's commands keep: unique ids, salary and symbol set together,
   * and every symbol a key of the rate table.
   */
  predicate WellFormed(rs: seq<Record>)
  {
    DistinctIds(rs) && (forall i :: 0 <= i < |rs| ==> BothOrNeither(rs[i])) && KnownSymbols(rs)
  }

  /** A record as registration creates it. */
  function NewRecord(id: string, name: string, position: string): Record
  {
    Record(id, name, position, None, None)
  }

  /** A record with salary and symbol overwritten together; id, name and job title stay. */
  function WithSalary(r: Record, salary: real, symbol: string): (r': Record)
    ensures r'.id == r.id && r'.name == r.name && r'.position == r.position
    ensures r'.salary == Some(salary) && r'.symbol == Some(symbol) && BothOrNeither(r')
  {
    r.(salary := Some(salary), symbol := Some(symbol))
  }

  /**
   * A record after an edit: an empty new value keeps the old one (Python's `new or old`), a
   * non-empty one replaces it; id, salary and symbol stay.
   */
  function WithInfo(r: Record, newName: string, newPosition: string): (r': Record)
    ensures r'.id == r.id && r'.salary == r.salary && r'.symbol == r.symbol
    ensures r'.name == (if newName == "" then r.name else newName)
    ensures r'.position == (if newPosition == "" then r.position else newPosition)
  {
    r.(name := if newName == "" then r.name else newName,
       position := if newPosition == "" then r.position else newPosition)
  }

  /**
   * `s.replace(" ", "")`: the body keeps the characters of `s` other than the space, in order;
   * the contract states only which characters occur, which is all `isalpha` depends on.
   */
  function RemoveSpaces(s: string): (t: string)
    ensures |t| <= |s|
    ensures forall c :: c in t <==> c in s && c != ' '
  {
    if s == [] then []
    else if s[0] == ' ' then RemoveSpaces(s[1..])
    else [s[0]] + RemoveSpaces(s[1..])
  }

  /**
   * `s.isalpha()`: at least one character and every character a letter; which characters are
   * letters is Python's Unicode table, given here as `isLetter`.
   */
  predicate IsAlpha(s: string, isLetter: char -> bool)
  {
    |s| > 0 && forall i :: 0 <= i < |s| ==> isLetter(s[i])
  }

  /**
   * The rule registration enforces on a name or job title, stated without removing spaces:
   * only letters and spaces, and at least one letter.
   */
  predicate LettersAndSpaces(s: string, isLetter: char -> bool)
  {
    (exists k :: 0 <= k < |s| && s[k] != ' ') &&
    forall k :: 0 <= k < |s| ==> s[k] == ' ' || isLetter(s[k])
  }

  /** Removing the spaces and testing `isalpha` is the letters-and-spaces rule. */
  lemma {:induction false} AlphaWithoutSpaces(s: string, isLetter: char -> bool)
    ensures IsAlpha(RemoveSpaces(s), isLetter) <==> LettersAndSpaces(s, isLetter)
  {
    var t := RemoveSpaces(s);
    if IsAlpha(t, isLetter) {
      assert t[0] in t;
      var k :| 0 <= k < |s| && s[k] == t[0];
      forall k | 0 <= k < |s| && s[k] != ' ' ensures isLetter(s[k]) {
        assert s[k] in t;
      }
    }
    if LettersAndSpaces(s, isLetter) {
      var k :| 0 <= k < |s| && s[k] != ' ';
      assert s[k] in t;
      forall i | 0 <= i < |t| ensures isLetter(t[i]) {
        assert t[i] in s;
      }
    }
  }

  /** `i` is the position of the first record whose id is `id`: the record `for emp in employees` stops at. */
  predicate FirstMatch(rs: seq<Record>, id: string, i: nat)
  {
    i < |rs| && rs[i].id == id && forall j :: 0 <= j < i ==> rs[j].id != id
  }

  /** The linear scan for the first record with the given id. */
  function FindIndex(rs: seq<Record>, id: string): (r: Option<nat>)
    ensures r.Some? ==> FirstMatch(rs, id, r.value)
    ensures r.None? ==> forall j :: 0 <= j < |rs| ==> rs[j].id != id
  {
    if rs == [] then None
    else if rs[0].id == id then Some(0)
    else match FindIndex(rs[1..], id)
      case None => None
      case Some(k) => Some(k + 1)
  }

  /** The first match is unique, so the scan finds exactly it. */
  lemma FindIndexIsFirstMatch(rs: seq<Record>, id: string, i: nat)
    requires FirstMatch(rs, id, i)
    ensures FindIndex(rs, id) == Some(i)
  {
  }
}
