/**
  Which rows the bulk importer takes, what it writes for them, and the error it gives for
  each of the others, in terms of a row's cells and the account the table holds when its turn comes.
 */
module BulkAcceptance {
  import opened Schema
  import opened Ordering
  import opened Checks
  import opened BulkImport

  /** The ARC relation each type of change calls for. */
  predicate ArcFits(changeType: ChangeType, oldArc: int, newArc: int) {
    && (changeType == Upgrade ==> newArc > oldArc)
    && (changeType == Downgrade ==> newArc < oldArc)
    && (changeType == RateRevision ==> newArc == oldArc)
  }

  /** The row asks for a change of a recognised type other than a disconnection. */
  predicate AsksArc(c: Cells) {
    c.changeType.Type? && c.changeType.changeType != Disconnection
  }

  predicate Leaves(c: Cells) {
    c.changeType == Type(Disconnection)
  }

  predicate Acceptable(c: Cells, accounts: map<string, Customer>, codes: set<string>) {
    && c.circuitId != "" && c.circuitId in accounts && accounts[c.circuitId].status != Terminated
    && c.changeType.Type? && c.effectiveDate.Some?
    && (c.changeType.changeType != Disconnection ==>
          && c.newArc.Some? && c.newArc.value >= 0
          && ArcFits(c.changeType.changeType, accounts[c.circuitId].currentArc, c.newArc.value))
    && (c.changeType.changeType == Disconnection ==> c.disconnectionReason == "" || c.disconnectionReason in codes)
  }

  /** The conditions on a row, in the order they are looked at. */
  function RowChecks(c: Cells, accounts: map<string, Customer>, codes: set<string>): seq<Check<ErrorKind>> {
    [Check(c.circuitId != "", MissingField),
     Check(c.circuitId in accounts, UnknownCircuit),
     Check(c.changeType != NoType, MissingField),
     Check(c.changeType != UnknownType, InvalidValue),
     Check(c.effectiveDate != None, MissingField),
     Check(c.circuitId in accounts ==> accounts[c.circuitId].status != Terminated, AccountTerminated),
     Check(AsksArc(c) ==> c.newArc.Some?, MissingField),
     Check(AsksArc(c) && c.newArc.Some? ==> c.newArc.value >= 0, InvalidValue),
     Check(AsksArc(c) && c.newArc.Some? && c.circuitId in accounts ==>
             ArcFits(c.changeType.changeType, accounts[c.circuitId].currentArc, c.newArc.value), InconsistentArc),
     Check(Leaves(c) ==> c.disconnectionReason == "" || c.disconnectionReason in codes, InvalidReason)]
  }

  lemma AcceptablePasses(c: Cells, accounts: map<string, Customer>, codes: set<string>)
    ensures Acceptable(c, accounts, codes) <==> FirstFailing(RowChecks(c, accounts, codes)) == None
  {
    var s := RowChecks(c, accounts, codes);
    PassesIffAllHold(s);
    assert (forall k | 0 <= k < |s| :: s[k].holds) <==>
             && s[0].holds && s[1].holds && s[2].holds && s[3].holds && s[4].holds
             && s[5].holds && s[6].holds && s[7].holds && s[8].holds && s[9].holds;
  }

  /** Validation fails with the error of the first condition that does not hold. */
  lemma ValidatedByFirst(c: Cells, accounts: map<string, Customer>, codes: set<string>)
    ensures match FirstFailing(RowChecks(c, accounts, codes))
            case Some(kind) => Validate(c, accounts, codes) == Invalid(kind)
            case None => Validate(c, accounts, codes).Valid?
  {
    var s := RowChecks(c, accounts, codes);
    TenChecks(s[0], s[1], s[2], s[3], s[4], s[5], s[6], s[7], s[8], s[9]);
    assert s == [s[0], s[1], s[2], s[3], s[4], s[5], s[6], s[7], s[8], s[9]];
  }

  // ---- what is written -------------------------------------------------------

  /** The ARC an acceptable row asks for. */
  function AskedArc(c: Cells): int {
    if Leaves(c) || c.newArc == None then 0 else c.newArc.value
  }

  /** The change written for the row `c` of account `x`. */
  predicate WrittenFor(a: Applied, c: Cells, x: Customer) {
    && a.circuitId == c.circuitId && c.changeType == Type(a.changeType)
    && a.oldArc == x.currentArc && a.newArc == AskedArc(c)
    && a.oldBandwidth == x.bandwidth && a.newBandwidth == (if c.newBandwidth == None then x.bandwidth else c.newBandwidth)
    && c.effectiveDate.Some? && a.effectiveDate <= c.effectiveDate.value < a.effectiveDate + 86_400_000
    && a.effectiveDate % 86_400_000 == 0
    && a.disconnectionReason == (if Leaves(c) then c.disconnectionReason else "")
  }

  /** What becomes of the account: gone at ARC 0, or at the ARC asked for, with the bandwidth asked for if any. */
  predicate BecomesOf(x: Customer, c: Cells, y: Customer) {
    if Leaves(c) then y == Customer(0, x.bandwidth, Terminated)
    else y == Customer(AskedArc(c), if c.newBandwidth == None then x.bandwidth else c.newBandwidth, x.status)
  }

  /**
    A row is imported exactly if the database does not refuse it and it is acceptable against
    the table as it stands; its change is written and its account moves, and nothing else does.
   */
  lemma PostedIff(l: Ledger, c: Cells, refused: bool, codes: set<string>)
    ensures var m := Post(l, c, refused, codes);
            if !refused && Acceptable(c, l.accounts, codes) then
              && |m.changes| == |l.changes| + 1 && m.changes[..|l.changes|] == l.changes
              && WrittenFor(m.changes[|l.changes|], c, l.accounts[c.circuitId])
              && m.accounts.Keys == l.accounts.Keys
              && BecomesOf(l.accounts[c.circuitId], c, m.accounts[c.circuitId])
              && forall id | id in l.accounts && id != c.circuitId :: m.accounts[id] == l.accounts[id]
            else m == l
  {
    AcceptablePasses(c, l.accounts, codes);
    ValidatedByFirst(c, l.accounts, codes);
  }

  /** The report on one row: a preview of what was written, or one error naming why it was not. */
  ghost predicate ReportedOn(s: Summary, t: Summary, row: ParsedRow, l: Ledger, m: Ledger, env: Setting) {
    var c := row.cells;
    match FirstFailing(RowChecks(c, l.accounts, env.codes))
    case Some(kind) => t == Summary(s.imported, s.skipped + 1, s.applied, s.errors + [RowError(row.rowNumber, kind)])
    case None =>
      if env.refuses(row) then t == Summary(s.imported, s.skipped + 1, s.applied, s.errors + [RowError(row.rowNumber, OtherError)])
      else
        && |m.changes| == |l.changes| + 1
        && var a := m.changes[|l.changes|];
           t == Summary(s.imported + 1, s.skipped,
                        s.applied + [Preview(row.rowNumber, a.circuitId, a.changeType, a.oldArc, a.newArc, a.effectiveDate)], s.errors)
  }

  lemma ReportedByFirst(s: Summary, row: ParsedRow, l: Ledger, env: Setting)
    ensures ReportedOn(s, Report(s, row, l.accounts, env), row, l, Post(l, row.cells, env.refuses(row), env.codes), env)
  {
    ValidatedByFirst(row.cells, l.accounts, env.codes);
  }

  // ---- whole imports ---------------------------------------------------------

  /** The tables and the summary before the `k`th row in date order is looked at. */
  function TablesAt(l: Ledger, rows: seq<ParsedRow>, env: Setting, k: nat): Ledger
    requires k <= |rows|
  {
    PostAll(l, SortByDate(rows)[..k], env)
  }

  function SummaryAt(l: Ledger, s: Summary, rows: seq<ParsedRow>, env: Setting, k: nat): Summary
    requires k <= |rows|
  {
    ReportAll(l, s, SortByDate(rows)[..k], env)
  }

  /**
    At its turn in date order each row of the workbook is imported if and only if the database
    does not refuse it and it is acceptable against the tables the earlier rows have left;
    otherwise it is skipped with the error of the first condition it fails.
   */
  lemma EveryRowJudged(l: Ledger, s: Summary, rows: seq<ParsedRow>, env: Setting, k: nat)
    requires k < |rows|
    ensures var row, before, after := SortByDate(rows)[k], TablesAt(l, rows, env, k), TablesAt(l, rows, env, k + 1);
            && (after != before <==> !env.refuses(row) && Acceptable(row.cells, before.accounts, env.codes))
            && (after != before ==>
                  && |after.changes| == |before.changes| + 1 && after.changes[..|before.changes|] == before.changes
                  && WrittenFor(after.changes[|before.changes|], row.cells, before.accounts[row.cells.circuitId]))
            && ReportedOn(SummaryAt(l, s, rows, env, k), SummaryAt(l, s, rows, env, k + 1), row, before, after, env)
  {
    ReferenceStep(l, s, SortByDate(rows), k, env);
    var row, before := SortByDate(rows)[k], TablesAt(l, rows, env, k);
    PostedIff(before, row.cells, env.refuses(row), env.codes);
    ReportedByFirst(SummaryAt(l, s, rows, env, k), row, before, env);
  }

  predicate ReasonListed(a: Applied, codes: set<string>) {
    if a.changeType == Disconnection then a.disconnectionReason == "" || a.disconnectionReason in codes
    else a.disconnectionReason == ""
  }

  lemma {:induction false} ReasonsListed(l: Ledger, rows: seq<ParsedRow>, env: Setting)
    ensures var m := PostAll(l, rows, env);
            && |m.changes| >= |l.changes|
            && forall j | |l.changes| <= j < |m.changes| :: ReasonListed(m.changes[j], env.codes)
    decreases |rows|
  {
    if rows != [] {
      var n := |rows| - 1;
      ReasonsListed(l, rows[..n], env);
      PostedIff(PostAll(l, rows[..n], env), rows[n].cells, env.refuses(rows[n]), env.codes);
    }
  }

  /** Over a whole import every disconnection written carries no reason or one of the codes. */
  lemma EveryReasonListed(l: Ledger, rows: seq<ParsedRow>, env: Setting)
    ensures var m := PostAll(l, SortByDate(rows), env);
            && |m.changes| >= |l.changes|
            && forall j | |l.changes| <= j < |m.changes| && m.changes[j].changeType == Disconnection ::
                 m.changes[j].disconnectionReason == "" || m.changes[j].disconnectionReason in env.codes
  {
    ReasonsListed(l, SortByDate(rows), env);
  }

  // ---- row numbers -----------------------------------------------------------

  function SheetNumbers(rows: seq<ParsedRow>): (r: seq<nat>)
    ensures |r| == |rows|
  {
    seq(|rows|, k requires 0 <= k < |rows| => rows[k].rowNumber)
  }

  function PreviewNumbers(applied: seq<Preview>): (r: seq<nat>)
    ensures |r| == |applied|
  {
    seq(|applied|, k requires 0 <= k < |applied| => applied[k].rowNumber)
  }

  function ErrorNumbers(errors: seq<RowError>): (r: seq<nat>)
    ensures |r| == |errors|
  {
    seq(|errors|, k requires 0 <= k < |errors| => errors[k].rowNumber)
  }

  function Mentioned(s: Summary): multiset<nat> {
    multiset(PreviewNumbers(s.applied)) + multiset(ErrorNumbers(s.errors))
  }

  lemma MentionsOneMore(s: Summary, row: ParsedRow, accounts: map<string, Customer>, env: Setting)
    ensures Mentioned(Report(s, row, accounts, env)) == Mentioned(s) + multiset{row.rowNumber}
  {
    var t := Report(s, row, accounts, env);
    if |t.applied| > |s.applied| {
      assert PreviewNumbers(t.applied) == PreviewNumbers(s.applied) + [row.rowNumber];
    } else {
      assert ErrorNumbers(t.errors) == ErrorNumbers(s.errors) + [row.rowNumber];
    }
  }

  lemma MentionsNext(l: Ledger, s: Summary, rows: seq<ParsedRow>, env: Setting)
    requires rows != []
    ensures var n := |rows| - 1;
            Mentioned(ReportAll(l, s, rows, env)) == Mentioned(ReportAll(l, s, rows[..n], env)) + multiset{rows[n].rowNumber}
  {
    var n := |rows| - 1;
    MentionsOneMore(ReportAll(l, s, rows[..n], env), rows[n], PostAll(l, rows[..n], env).accounts, env);
  }

  lemma {:induction false} MentionsAll(l: Ledger, s: Summary, rows: seq<ParsedRow>, env: Setting)
    ensures Mentioned(ReportAll(l, s, rows, env)) == Mentioned(s) + multiset(SheetNumbers(rows))
    decreases |rows|
  {
    if rows != [] {
      var n := |rows| - 1;
      MentionsAll(l, s, rows[..n], env);
      MentionsNext(l, s, rows, env);
      NumbersSnoc(rows[..n], rows[n]);
      assert rows[..n] + [rows[n]] == rows;
    }
  }

  lemma NumbersSnoc(s: seq<ParsedRow>, x: ParsedRow)
    ensures SheetNumbers(s + [x]) == SheetNumbers(s) + [x.rowNumber]
  {
  }

  lemma {:induction false} InsertKeepsNumbers(s: seq<ParsedRow>, x: ParsedRow)
    ensures multiset(SheetNumbers(Insert(s, x, ByDate))) == multiset(SheetNumbers(s)) + multiset{x.rowNumber}
    decreases |s|
  {
    NumbersSnoc(s, x);
    if s != [] && !ByDate(s[|s| - 1], x) {
      var n := |s| - 1;
      InsertKeepsNumbers(s[..n], x);
      NumbersSnoc(Insert(s[..n], x, ByDate), s[n]);
      NumbersSnoc(s[..n], s[n]);
      assert s[..n] + [s[n]] == s;
    }
  }

  lemma {:induction false} SortKeepsNumbers(rows: seq<ParsedRow>)
    ensures multiset(SheetNumbers(SortByDate(rows))) == multiset(SheetNumbers(rows))
    decreases |rows|
  {
    if rows != [] {
      var n := |rows| - 1;
      SortKeepsNumbers(rows[..n]);
      InsertKeepsNumbers(SortByDate(rows[..n]), rows[n]);
      NumbersSnoc(rows[..n], rows[n]);
      assert rows[..n] + [rows[n]] == rows;
    }
  }

  /** The summary names every row of the sheet once, among the imported or among the errors. */
  lemma EveryRowMentionedOnce(l: Ledger, rows: seq<ParsedRow>, parseErrors: seq<RowError>, env: Setting)
    ensures Mentioned(ReportAll(l, Summary(0, |parseErrors|, [], parseErrors), SortByDate(rows), env))
         == multiset(SheetNumbers(rows)) + multiset(ErrorNumbers(parseErrors))
  {
    MentionsAll(l, Summary(0, |parseErrors|, [], parseErrors), SortByDate(rows), env);
    SortKeepsNumbers(rows);
  }
}
