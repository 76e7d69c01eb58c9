/**
  The bulk commercial-change importer: rows are applied in effective-date order, each
  validated against an in-memory snapshot of the accounts that is updated as rows land.
 */
module BulkImport {
  import opened Schema
  import opened Dates
  import opened Sums
  import opened Ordering

  // ---- rows and tables -------------------------------------------------------

  datatype TypeCell = NoType | UnknownType | Type(changeType: ChangeType)

  /** The cells of one sheet row; an empty string stands for an absent text cell. */
  datatype Cells = Cells(
    circuitId: string,
    changeType: TypeCell,
    newArc: Option<int>,
    newBandwidth: Option<int>,
    effectiveDate: Option<Time>,
    disconnectionReason: string)

  datatype ParsedRow = ParsedRow(rowNumber: nat, cells: Cells)

  /** An account as the importer sees it; accounts are found by their unique circuit id. */
  datatype Customer = Customer(currentArc: int, bandwidth: Option<int>, status: ContractStatus)

  /** A change row as the importer writes it: already applied. */
  datatype Applied = Applied(
    circuitId: string,
    changeType: ChangeType,
    oldArc: int,
    newArc: int,
    oldBandwidth: Option<int>,
    newBandwidth: Option<int>,
    effectiveDate: Time,
    disconnectionReason: string)

  datatype Ledger = Ledger(accounts: map<string, Customer>, changes: seq<Applied>)

  datatype ErrorKind =
    | MissingField | InvalidValue | UnknownCircuit | InconsistentArc | InvalidReason | AccountTerminated | OtherError

  datatype RowError = RowError(rowNumber: nat, kind: ErrorKind)

  datatype Preview = Preview(rowNumber: nat, circuitId: string, changeType: ChangeType, oldArc: int, newArc: int, effectiveDate: Time)

  datatype Summary = Summary(imported: nat, skipped: nat, applied: seq<Preview>, errors: seq<RowError>)

  /** The fixed surroundings: the reason codes, and which rows' transactions the database refuses. */
  datatype Setting = Setting(codes: set<string>, refuses: ParsedRow -> bool)

  // ---- validation ------------------------------------------------------------

  datatype Validated = Invalid(kind: ErrorKind) | Valid(changeType: ChangeType, newArc: int, effectiveDate: Time)

  function ArcError(changeType: ChangeType, oldArc: int, newArc: int): bool {
    match changeType
    case Upgrade => newArc <= oldArc
    case Downgrade => newArc >= oldArc
    case RateRevision => newArc != oldArc
    case Disconnection => false
  }

  function Validate(c: Cells, accounts: map<string, Customer>, codes: set<string>): (v: Validated)
    ensures v.Valid? ==> c.circuitId in accounts && accounts[c.circuitId].status != Terminated
  {
    if c.circuitId == "" then Invalid(MissingField)
    else if c.circuitId !in accounts then Invalid(UnknownCircuit)
    else if c.changeType == NoType then Invalid(MissingField)
    else if c.changeType == UnknownType then Invalid(InvalidValue)
    else if c.effectiveDate == None then Invalid(MissingField)
    else if accounts[c.circuitId].status == Terminated then Invalid(AccountTerminated)
    else
      var changeType := c.changeType.changeType;
      var oldArc := accounts[c.circuitId].currentArc;
      if changeType != Disconnection && c.newArc == None then Invalid(MissingField)
      else if changeType != Disconnection && c.newArc.value < 0 then Invalid(InvalidValue)
      else
        var newArc := if changeType == Disconnection then 0 else c.newArc.value;
        if ArcError(changeType, oldArc, newArc) then Invalid(InconsistentArc)
        else if changeType == Disconnection && c.disconnectionReason != "" && c.disconnectionReason !in codes then Invalid(InvalidReason)
        else Valid(changeType, newArc, c.effectiveDate.value)
  }

  function Updated(x: Customer, c: Cells, changeType: ChangeType, newArc: int): Customer {
    if changeType == Disconnection then x.(currentArc := 0, status := Terminated)
    else x.(currentArc := newArc, bandwidth := if c.newBandwidth.Some? then c.newBandwidth else x.bandwidth)
  }

  function ChangeRow(x: Customer, c: Cells, changeType: ChangeType, newArc: int, date: Time): Applied {
    Applied(c.circuitId, changeType, x.currentArc, newArc, x.bandwidth,
            if c.newBandwidth.Some? then c.newBandwidth else x.bandwidth, StartOfDay(date),
            if changeType == Disconnection then c.disconnectionReason else "")
  }

  // ---- the reference importer ------------------------------------------------

  /** One row, validated against the account as the database has it at that moment. */
  function Post(l: Ledger, c: Cells, refused: bool, codes: set<string>): Ledger {
    match Validate(c, l.accounts, codes)
    case Invalid(_) => l
    case Valid(changeType, newArc, date) =>
      if refused then l
      else
        var x := l.accounts[c.circuitId];
        Ledger(l.accounts[c.circuitId := Updated(x, c, changeType, newArc)], l.changes + [ChangeRow(x, c, changeType, newArc, date)])
  }

  function PostAll(l: Ledger, rows: seq<ParsedRow>, env: Setting): Ledger {
    if rows == [] then l
    else
      var row := rows[|rows| - 1];
      Post(PostAll(l, rows[..|rows| - 1], env), row.cells, env.refuses(row), env.codes)
  }

  function Report(s: Summary, row: ParsedRow, accounts: map<string, Customer>, env: Setting): Summary {
    var c := row.cells;
    match Validate(c, accounts, env.codes)
    case Invalid(kind) => s.(skipped := s.skipped + 1, errors := s.errors + [RowError(row.rowNumber, kind)])
    case Valid(changeType, newArc, date) =>
      if env.refuses(row) then
        s.(skipped := s.skipped + 1, errors := s.errors + [RowError(row.rowNumber, OtherError)])
      else
        s.(imported := s.imported + 1,
           applied := s.applied + [Preview(row.rowNumber, c.circuitId, changeType, accounts[c.circuitId].currentArc, newArc, StartOfDay(date))])
  }

  /** What the reference importer reports after each row. */
  function ReportAll(l: Ledger, s: Summary, rows: seq<ParsedRow>, env: Setting): Summary {
    if rows == [] then s
    else
      var n := |rows| - 1;
      Report(ReportAll(l, s, rows[..n], env), rows[n], PostAll(l, rows[..n], env).accounts, env)
  }

  function CellsOf(rows: seq<ParsedRow>): (cs: seq<Cells>)
    ensures |cs| == |rows| && forall k | 0 <= k < |rows| :: cs[k] == rows[k].cells
  {
    seq(|rows|, k requires 0 <= k < |rows| => rows[k].cells)
  }

  /** The reference importer advances row by row. */
  lemma ReferenceStep(l: Ledger, s: Summary, rows: seq<ParsedRow>, k: nat, env: Setting)
    requires k < |rows|
    ensures PostAll(l, rows[..k + 1], env)
         == Post(PostAll(l, rows[..k], env), rows[k].cells, env.refuses(rows[k]), env.codes)
    ensures ReportAll(l, s, rows[..k + 1], env)
         == Report(ReportAll(l, s, rows[..k], env), rows[k], PostAll(l, rows[..k], env).accounts, env)
  {
    assert rows[..k + 1][..k] == rows[..k];
  }

  // ---- the order rows are applied in -----------------------------------------

  /** A missing date sorts after every date. */
  predicate KeyLe(k: Option<Time>, m: Option<Time>) {
    m == None || (k.Some? && k.value <= m.value)
  }

  predicate ByDate(r: ParsedRow, q: ParsedRow) {
    KeyLe(r.cells.effectiveDate, q.cells.effectiveDate)
  }

  /** The order rows are applied in: a stable sort by effective date. */
  function SortByDate(rows: seq<ParsedRow>): seq<ParsedRow> {
    SortBy(rows, ByDate)
  }

  ghost predicate DateOrdered(cs: seq<Cells>) {
    forall j, k | 0 <= j < k < |cs| :: KeyLe(cs[j].effectiveDate, cs[k].effectiveDate)
  }

  lemma CellsOfSnoc(s: seq<ParsedRow>, x: ParsedRow)
    ensures CellsOf(s + [x]) == CellsOf(s) + [x.cells]
  {
    assert |CellsOf(s + [x])| == |s| + 1;
  }

  lemma {:induction false} InsertKeepsCells(s: seq<ParsedRow>, x: ParsedRow)
    ensures multiset(CellsOf(Insert(s, x, ByDate))) == multiset(CellsOf(s)) + multiset{x.cells}
  {
    CellsOfSnoc(s, x);
    if s != [] && !ByDate(s[|s| - 1], x) {
      var n := |s| - 1;
      InsertKeepsCells(s[..n], x);
      CellsOfSnoc(Insert(s[..n], x, ByDate), s[n]);
      CellsOfSnoc(s[..n], s[n]);
      assert s[..n] + [s[n]] == s;
    }
  }

  lemma {:induction false} SortKeepsCells(rows: seq<ParsedRow>)
    ensures multiset(CellsOf(SortByDate(rows))) == multiset(CellsOf(rows))
  {
    if rows != [] {
      var n := |rows| - 1;
      SortKeepsCells(rows[..n]);
      InsertKeepsCells(SortByDate(rows[..n]), rows[n]);
      CellsOfSnoc(rows[..n], rows[n]);
      assert rows[..n] + [rows[n]] == rows;
    }
  }

  /** The same rows, earlier dates first and rows without a date last. */
  lemma SortsByDate(rows: seq<ParsedRow>)
    ensures DateOrdered(CellsOf(SortByDate(rows)))
    ensures forall j, k | 0 <= j < k < |rows| && SortByDate(rows)[k].cells.effectiveDate.Some? ::
              && SortByDate(rows)[j].cells.effectiveDate.Some?
              && SortByDate(rows)[j].cells.effectiveDate.value <= SortByDate(rows)[k].cells.effectiveDate.value
    ensures multiset(SortByDate(rows)) == multiset(rows)
    ensures multiset(CellsOf(SortByDate(rows))) == multiset(CellsOf(rows))
  {
    SortSorts(rows, ByDate);
    SortKeepsCells(rows);
    forall j, k | 0 <= j < k < |rows|
      ensures KeyLe(CellsOf(SortByDate(rows))[j].effectiveDate, CellsOf(SortByDate(rows))[k].effectiveDate)
    {
      assert ByDate(SortByDate(rows)[j], SortByDate(rows)[k]);
    }
  }

  function OnDate(d: Option<Time>): ParsedRow -> bool {
    (r: ParsedRow) => r.cells.effectiveDate == d
  }

  /** Rows sharing a date keep the sheet's order. */
  lemma SortIsStable(rows: seq<ParsedRow>, d: Option<Time>)
    ensures Filter(SortByDate(rows), OnDate(d)) == Filter(rows, OnDate(d))
  {
    SortKeepsTies(rows, ByDate, OnDate(d));
  }

  // ---- the importer ----------------------------------------------------------

  /** The accounts the workbook mentions, as one query finds them. */
  function Loaded(circuits: set<string>, accounts: map<string, Customer>): map<string, Customer> {
    map id | id in circuits && id in accounts :: accounts[id]
  }

  class Importer {
    var ledger: Ledger

    constructor (l: Ledger)
      ensures ledger == l
    {
      ledger := l;
    }

    /** One transaction: the change row and the account row, or neither. */
    method ApplyRow(c: Cells, x: Customer, changeType: ChangeType, newArc: int, date: Time, refused: bool) returns (ok: bool)
      requires c.circuitId in ledger.accounts
      modifies this
      ensures ok == !refused
      ensures !ok ==> ledger == old(ledger)
      ensures ok ==> ledger.changes == old(ledger.changes) + [ChangeRow(x, c, changeType, newArc, date)]
      ensures ok ==> ledger.accounts == old(ledger.accounts)[c.circuitId := Updated(old(ledger.accounts)[c.circuitId], c, changeType, newArc)]
    {
      if refused { return false; }
      var row := ledger.accounts[c.circuitId];
      if changeType == Disconnection {
        row := row.(status := Terminated, currentArc := 0);
      } else {
        row := row.(currentArc := newArc);
        if c.newBandwidth.Some? {
          row := row.(bandwidth := c.newBandwidth);
        }
      }
      ledger := Ledger(ledger.accounts[c.circuitId := row], ledger.changes + [ChangeRow(x, c, changeType, newArc, date)]);
      return true;
    }

    /** One pass of the loop body: the row is judged against `snapshot`, which then follows the table. */
    method ImportRow(row: ParsedRow, circuits: set<string>, snapshot: map<string, Customer>, s: Summary, env: Setting)
      returns (chained: map<string, Customer>, summary: Summary)
      requires row.cells.circuitId != "" ==> row.cells.circuitId in circuits
      requires snapshot == Loaded(circuits, ledger.accounts)
      modifies this
      ensures ledger == Post(old(ledger), row.cells, env.refuses(row), env.codes)
      ensures summary == Report(s, row, old(ledger.accounts), env)
      ensures chained == Loaded(circuits, ledger.accounts)
    {
      var c := row.cells;
      chained, summary := snapshot, s;
      match Validate(c, snapshot, env.codes) {
        case Invalid(kind) =>
          summary := summary.(skipped := summary.skipped + 1, errors := summary.errors + [RowError(row.rowNumber, kind)]);
        case Valid(changeType, newArc, date) =>
          var account := snapshot[c.circuitId];
          var ok := ApplyRow(c, account, changeType, newArc, date, env.refuses(row));
          if ok {
            summary := summary.(
              imported := summary.imported + 1,
              applied := summary.applied + [Preview(row.rowNumber, c.circuitId, changeType, account.currentArc, newArc, StartOfDay(date))]);
            if changeType == Disconnection {
              account := account.(currentArc := 0, status := Terminated);
            } else {
              account := account.(currentArc := newArc);
              if c.newBandwidth.Some? {
                account := account.(bandwidth := c.newBandwidth);
              }
            }
            chained := chained[c.circuitId := account];
          } else {
            summary := summary.(skipped := summary.skipped + 1, errors := summary.errors + [RowError(row.rowNumber, OtherError)]);
          }
      }
    }

    /**
      The importer with its snapshot writes what the importer that re-reads every account
      would write, and reports the same, whichever row transactions fail.
     */
    method ImportWorkbook(rows: seq<ParsedRow>, parseErrors: seq<RowError>, env: Setting) returns (summary: Summary)
      modifies this
      ensures ledger == PostAll(old(ledger), SortByDate(rows), env)
      ensures summary == ReportAll(old(ledger), Summary(0, |parseErrors|, [], parseErrors), SortByDate(rows), env)
    {
      summary := Summary(0, |parseErrors|, [], parseErrors);
      var circuits := set r | r in rows && r.cells.circuitId != "" :: r.cells.circuitId;
      var snapshot := Loaded(circuits, ledger.accounts);
      var ordered := SortByDate(rows);
      ghost var was, start := ledger, summary;
      var k := 0;
      while k < |ordered|
        invariant k <= |ordered|
        invariant ledger == PostAll(was, ordered[..k], env)
        invariant summary == ReportAll(was, start, ordered[..k], env)
        invariant snapshot == Loaded(circuits, ledger.accounts)
      {
        KnownCircuit(rows, k);
        ReferenceStep(was, start, ordered, k, env);
        snapshot, summary := ImportRow(ordered[k], circuits, snapshot, summary, env);
        k := k + 1;
      }
      assert ordered[..k] == ordered;
    }
  }

  lemma KnownCircuit(rows: seq<ParsedRow>, k: nat)
    requires k < |rows|
    ensures SortByDate(rows)[k].cells.circuitId != "" ==>
              exists r :: r in rows && r.cells.circuitId == SortByDate(rows)[k].cells.circuitId
  {
    SortsByDate(rows);
    var c := CellsOf(SortByDate(rows))[k];
    assert c in multiset(CellsOf(SortByDate(rows)));
    assert c in CellsOf(rows);
    var j :| 0 <= j < |rows| && CellsOf(rows)[j] == c;
    assert rows[j] in rows;
  }
}
