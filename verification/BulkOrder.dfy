/**
  What a bulk import leaves behind: a chain of changes for each account, a summary that
  accounts for every row, and a result that the order of the sheet's rows cannot alter
  unless two different rows for one circuit share a date.
 */
module BulkOrder {
  import opened Schema
  import opened Dates
  import opened Sums
  import opened BulkImport

  function ForCircuit(id: string): Applied -> bool {
    (a: Applied) => a.circuitId == id
  }

  // ---- one account's chain ---------------------------------------------------

  /** `b` starts from the ARC and bandwidth `a` left, and `a` was not a disconnection. */
  predicate Follows(a: Applied, b: Applied) {
    b.oldArc == a.newArc && b.oldBandwidth == a.newBandwidth && a.changeType != Disconnection
  }

  predicate FitsType(a: Applied) {
    match a.changeType
    case Upgrade => a.newArc > a.oldArc
    case Downgrade => 0 <= a.newArc < a.oldArc
    case RateRevision => a.newArc == a.oldArc
    case Disconnection => a.newArc == 0
  }

  predicate Starts(first: Customer, a: Applied) {
    first.status != Terminated && a.oldArc == first.currentArc && a.oldBandwidth == first.bandwidth
  }

  predicate Ends(first: Customer, a: Applied, last: Customer) {
    && last.currentArc == a.newArc
    && if a.changeType == Disconnection then last.status == Terminated
       else last.status == first.status && last.bandwidth == a.newBandwidth
  }

  /** The changes `h` lead an account from `first` to `last`, each starting where the one before ended. */
  ghost predicate Chained(first: Customer, h: seq<Applied>, last: Customer) {
    && (forall j, k | 0 <= j < k < |h| && k == j + 1 :: Follows(h[j], h[k]))
    && (forall k | 0 <= k < |h| :: FitsType(h[k]))
    && if h == [] then last == first
       else Starts(first, h[0]) && Ends(first, h[|h| - 1], last)
  }

  lemma ChainGrows(first: Customer, h: seq<Applied>, x: Customer, a: Applied, y: Customer)
    requires Chained(first, h, x)
    requires FitsType(a) && Starts(x, a) && Ends(x, a, y)
    requires x.status != Terminated
    ensures Chained(first, h + [a], y)
  {
    var g := h + [a];
    if h != [] {
      assert Follows(h[|h| - 1], a);
      assert g[0] == h[0];
    }
    forall j, k | 0 <= j < k < |g| && k == j + 1
      ensures Follows(g[j], g[k])
    {
      if k < |h| {
        assert Follows(h[j], h[k]);
      }
    }
  }

  /** A row that validates writes a change that starts from the account and ends at its new state. */
  lemma RowFits(c: Cells, accounts: map<string, Customer>, codes: set<string>)
    requires Validate(c, accounts, codes).Valid?
    ensures var v := Validate(c, accounts, codes);
            var x := accounts[c.circuitId];
            var a := ChangeRow(x, c, v.changeType, v.newArc, v.effectiveDate);
              FitsType(a) && Starts(x, a) && Ends(x, a, Updated(x, c, v.changeType, v.newArc))
  {
  }

  /** What an import added for one circuit. */
  function Imported(l: Ledger, m: Ledger, id: string): seq<Applied>
    requires |l.changes| <= |m.changes|
  {
    Filter(m.changes[|l.changes|..], ForCircuit(id))
  }

  lemma {:induction false} ImportChains(l: Ledger, rows: seq<ParsedRow>, env: Setting, id: string)
    requires id in l.accounts
    ensures var m := PostAll(l, rows, env);
              && m.accounts.Keys == l.accounts.Keys
              && l.changes <= m.changes
              && Chained(l.accounts[id], Imported(l, m, id), m.accounts[id])
  {
    if rows != [] {
      var n := |rows| - 1;
      ImportChains(l, rows[..n], env, id);
      PostChains(l, PostAll(l, rows[..n], env), rows[n].cells, env.refuses(rows[n]), env.codes, id);
    }
  }

  lemma PostChains(l: Ledger, before: Ledger, c: Cells, refused: bool, codes: set<string>, id: string)
    requires id in l.accounts && before.accounts.Keys == l.accounts.Keys && l.changes <= before.changes
    requires Chained(l.accounts[id], Imported(l, before, id), before.accounts[id])
    ensures var m := Post(before, c, refused, codes);
              && m.accounts.Keys == l.accounts.Keys
              && l.changes <= m.changes
              && Chained(l.accounts[id], Imported(l, m, id), m.accounts[id])
  {
    var v := Validate(c, before.accounts, codes);
    if v.Valid? && !refused {
      var x := before.accounts[c.circuitId];
      var row := ChangeRow(x, c, v.changeType, v.newArc, v.effectiveDate);
      var tail := before.changes[|l.changes|..];
      assert (before.changes + [row])[|l.changes|..] == tail + [row];
      FilterSnoc(tail, row, ForCircuit(id));
      if c.circuitId == id {
        RowFits(c, before.accounts, codes);
        ChainGrows(l.accounts[id], Imported(l, before, id), x, row, Updated(x, c, v.changeType, v.newArc));
      } else {
        assert Imported(l, before, id) + [] == Imported(l, before, id);
      }
    }
  }

  /** Rows dated no later than `d` write changes dated no later than that day. */
  lemma {:induction false} NothingLater(l: Ledger, rows: seq<ParsedRow>, env: Setting, d: Time)
    requires forall k | 0 <= k < |rows| :: KeyLe(rows[k].cells.effectiveDate, Some(d))
    ensures var m := PostAll(l, rows, env);
              && |l.changes| <= |m.changes|
              && forall j | |l.changes| <= j < |m.changes| :: m.changes[j].effectiveDate <= StartOfDay(d)
  {
    if rows != [] {
      var n := |rows| - 1;
      NothingLater(l, rows[..n], env, d);
      StartOfDayMonotone(rows[n].cells.effectiveDate.value, d);
    }
  }

  /** The change rows an import of `rows` in sheet order would write come out in date order. */
  lemma {:induction false} DatesNeverDecrease(l: Ledger, rows: seq<ParsedRow>, env: Setting)
    requires DateOrdered(CellsOf(rows))
    ensures var m := PostAll(l, rows, env);
              && |l.changes| <= |m.changes|
              && forall j, k | |l.changes| <= j < k < |m.changes| :: m.changes[j].effectiveDate <= m.changes[k].effectiveDate
  {
    if rows != [] {
      var n := |rows| - 1;
      assert CellsOf(rows[..n]) == CellsOf(rows)[..n];
      DatesNeverDecrease(l, rows[..n], env);
      var date := rows[n].cells.effectiveDate;
      if date.Some? {
        forall k | 0 <= k < n
          ensures KeyLe(rows[..n][k].cells.effectiveDate, date)
        {
          assert KeyLe(CellsOf(rows)[k].effectiveDate, CellsOf(rows)[n].effectiveDate);
        }
        NothingLater(l, rows[..n], env, date.value);
      }
    }
  }

  /**
    Whatever the sheet's order and whichever row transactions fail, each account's imported
    changes form one chain in date order that nothing follows once it disconnects.
   */
  lemma AccountsChain(l: Ledger, rows: seq<ParsedRow>, env: Setting, id: string)
    requires id in l.accounts
    ensures var m := PostAll(l, SortByDate(rows), env);
              && m.accounts.Keys == l.accounts.Keys
              && l.changes <= m.changes
              && Chained(l.accounts[id], Imported(l, m, id), m.accounts[id])
              && forall j, k | |l.changes| <= j < k < |m.changes| :: m.changes[j].effectiveDate <= m.changes[k].effectiveDate
  {
    SortsByDate(rows);
    ImportChains(l, SortByDate(rows), env, id);
    DatesNeverDecrease(l, SortByDate(rows), env);
  }

  // ---- the summary -----------------------------------------------------------

  predicate Describes(p: Preview, a: Applied) {
    p.circuitId == a.circuitId && p.changeType == a.changeType && p.oldArc == a.oldArc && p.newArc == a.newArc
    && p.effectiveDate == a.effectiveDate
  }

  /** Every row is imported or skipped with one error; the preview lists what was written, in order. */
  lemma {:induction false} SummaryAccountsForEveryRow(l: Ledger, rows: seq<ParsedRow>, parseErrors: seq<RowError>, env: Setting)
    ensures var s := ReportAll(l, Summary(0, |parseErrors|, [], parseErrors), rows, env);
            var m := PostAll(l, rows, env);
              && s.imported + s.skipped == |rows| + |parseErrors|
              && |s.errors| == s.skipped
              && |s.applied| == s.imported
              && |m.changes| == |l.changes| + s.imported
              && forall j | 0 <= j < s.imported :: Describes(s.applied[j], m.changes[|l.changes| + j])
  {
    if rows != [] {
      SummaryAccountsForEveryRow(l, rows[..|rows| - 1], parseErrors, env);
    }
  }

  // ---- order independence ----------------------------------------------------

  /** Rows that can affect circuit `id`: a row without a date never passes validation. */
  function Of(id: string): Cells -> bool {
    (c: Cells) => c.circuitId == id && c.effectiveDate.Some?
  }

  /** The reference importer when a refusal depends only on the row's cells. */
  function PostCells(l: Ledger, cs: seq<Cells>, refuses: Cells -> bool, codes: set<string>): Ledger {
    if cs == [] then l
    else
      var c := cs[|cs| - 1];
      Post(PostCells(l, cs[..|cs| - 1], refuses, codes), c, refuses(c), codes)
  }

  lemma {:induction false} PostAllByCells(l: Ledger, rows: seq<ParsedRow>, env: Setting, refuses: Cells -> bool)
    requires forall r :: env.refuses(r) == refuses(r.cells)
    ensures PostAll(l, rows, env) == PostCells(l, CellsOf(rows), refuses, env.codes)
  {
    if rows != [] {
      var n := |rows| - 1;
      PostAllByCells(l, rows[..n], env, refuses);
      assert CellsOf(rows[..n]) == CellsOf(rows)[..n];
    }
  }

  /** Two ledgers agree about one circuit. */
  ghost predicate SameFor(l: Ledger, m: Ledger, id: string) {
    && (id in l.accounts <==> id in m.accounts)
    && (id in l.accounts ==> l.accounts[id] == m.accounts[id])
    && Filter(l.changes, ForCircuit(id)) == Filter(m.changes, ForCircuit(id))
  }

  lemma PostOfAnother(l: Ledger, c: Cells, refused: bool, codes: set<string>, id: string)
    requires !Of(id)(c)
    ensures SameFor(Post(l, c, refused, codes), l, id)
  {
    var v := Validate(c, l.accounts, codes);
    if v.Valid? {
      FilterSnoc(l.changes, ChangeRow(l.accounts[c.circuitId], c, v.changeType, v.newArc, v.effectiveDate), ForCircuit(id));
    }
  }

  lemma PostOfThis(l: Ledger, m: Ledger, c: Cells, refused: bool, codes: set<string>)
    requires SameFor(l, m, c.circuitId)
    ensures SameFor(Post(l, c, refused, codes), Post(m, c, refused, codes), c.circuitId)
  {
    var v := Validate(c, l.accounts, codes);
    assert v == Validate(c, m.accounts, codes);
    if v.Valid? {
      var row := ChangeRow(l.accounts[c.circuitId], c, v.changeType, v.newArc, v.effectiveDate);
      FilterSnoc(l.changes, row, ForCircuit(c.circuitId));
      FilterSnoc(m.changes, row, ForCircuit(c.circuitId));
    }
  }

  /** Rows on other circuits commute with this one's: leaving them out changes nothing for it. */
  lemma {:induction false} OnlyOwnRows(l: Ledger, cs: seq<Cells>, refuses: Cells -> bool, codes: set<string>, id: string)
    ensures SameFor(PostCells(l, cs, refuses, codes), PostCells(l, Filter(cs, Of(id)), refuses, codes), id)
  {
    if cs != [] {
      var n := |cs| - 1;
      OnlyOwnRows(l, cs[..n], refuses, codes, id);
      var l1 := PostCells(l, cs[..n], refuses, codes);
      var own := Filter(cs[..n], Of(id));
      if Of(id)(cs[n]) {
        PostOfThis(l1, PostCells(l, own, refuses, codes), cs[n], refuses(cs[n]), codes);
        assert (own + [cs[n]])[..|own|] == own;
      } else {
        PostOfAnother(l1, cs[n], refuses(cs[n]), codes, id);
      }
    }
  }

  lemma {:induction false} FilterCounts<T>(s: seq<T>, p: T -> bool, x: T)
    ensures multiset(Filter(s, p))[x] == if p(x) then multiset(s)[x] else 0
  {
    if s != [] {
      var n := |s| - 1;
      FilterCounts(s[..n], p, x);
      assert s == s[..n] + [s[n]];
    }
  }

  lemma {:induction false} FilterOrdered(cs: seq<Cells>, p: Cells -> bool)
    requires DateOrdered(cs)
    ensures DateOrdered(Filter(cs, p))
  {
    if cs != [] {
      var n := |cs| - 1;
      FilterOrdered(cs[..n], p);
      var rest := Filter(cs[..n], p);
      forall k | 0 <= k < |rest|
        ensures KeyLe(rest[k].effectiveDate, cs[n].effectiveDate)
      {
        assert rest[k] in rest && rest[k] in cs[..n];
      }
    }
  }

  /** Rows sharing a circuit and a date are the same row written twice. */
  ghost predicate Decided(cs: multiset<Cells>) {
    forall c, d | c in cs && d in cs && c.circuitId == d.circuitId && c.effectiveDate.Some? && c.effectiveDate == d.effectiveDate ::
      c == d
  }

  /** Two date-ordered lists of the same rows of one circuit, none contradicting another. */
  ghost predicate Alike(s: seq<Cells>, t: seq<Cells>, id: string) {
    && DateOrdered(s)
    && DateOrdered(t)
    && multiset(s) == multiset(t)
    && Decided(multiset(s))
    && forall c | c in multiset(s) :: Of(id)(c)
  }

  lemma SameLast(s: seq<Cells>, t: seq<Cells>, id: string)
    requires s != [] && Alike(s, t, id)
    ensures |s| == |t| && s[|s| - 1] == t[|s| - 1]
  {
    assert |s| == |multiset(s)| == |multiset(t)| == |t|;
    var n := |s| - 1;
    var c, d := s[n], t[n];
    assert c in multiset(s) && c in multiset(t) && d in multiset(t) && d in multiset(s);
    var j :| 0 <= j <= n && t[j] == c;
    var k :| 0 <= k <= n && s[k] == d;
    assert Of(id)(c) && Of(id)(d);
    assert j < n ==> KeyLe(t[j].effectiveDate, t[n].effectiveDate);
    assert k < n ==> KeyLe(s[k].effectiveDate, s[n].effectiveDate);
  }

  lemma WithoutLast(s: seq<Cells>)
    requires s != [] && DateOrdered(s)
    ensures DateOrdered(s[..|s| - 1])
    ensures multiset(s[..|s| - 1]) == multiset(s) - multiset{s[|s| - 1]}
  {
    assert s == s[..|s| - 1] + [s[|s| - 1]];
  }

  lemma AlikeWithoutLast(s: seq<Cells>, t: seq<Cells>, id: string)
    requires s != [] && Alike(s, t, id) && |s| == |t| && s[|s| - 1] == t[|s| - 1]
    ensures Alike(s[..|s| - 1], t[..|s| - 1], id)
  {
    WithoutLast(s);
    WithoutLast(t);
    assert forall c | c in multiset(s[..|s| - 1]) :: c in multiset(s);
  }

  lemma SameParts(s: seq<Cells>, t: seq<Cells>)
    requires s != [] && |s| == |t| && s[..|s| - 1] == t[..|s| - 1] && s[|s| - 1] == t[|s| - 1]
    ensures s == t
  {
    assert s == s[..|s| - 1] + [s[|s| - 1]] && t == t[..|s| - 1] + [t[|s| - 1]];
  }

  lemma {:induction false} OneSortedOrder(s: seq<Cells>, t: seq<Cells>, id: string)
    requires Alike(s, t, id)
    ensures s == t
    decreases |s|
  {
    if s == [] {
      assert |t| == |multiset(t)| == |multiset(s)| == 0;
    } else {
      SameLast(s, t, id);
      AlikeWithoutLast(s, t, id);
      OneSortedOrder(s[..|s| - 1], t[..|s| - 1], id);
      SameParts(s, t);
    }
  }

  lemma OwnRowsInOneOrder(s: seq<Cells>, t: seq<Cells>, id: string)
    requires DateOrdered(s) && DateOrdered(t) && multiset(s) == multiset(t) && Decided(multiset(s))
    ensures Filter(s, Of(id)) == Filter(t, Of(id))
  {
    var p := Of(id);
    forall x
      ensures multiset(Filter(s, p))[x] == multiset(Filter(t, p))[x]
    {
      FilterCounts(s, p, x);
      FilterCounts(t, p, x);
    }
    FilterOrdered(s, p);
    FilterOrdered(t, p);
    var own := Filter(s, p);
    forall c | c in multiset(own)
      ensures c in multiset(s) && p(c)
    {
      assert c in own;
    }
    OneSortedOrder(own, Filter(t, p), id);
  }

  lemma OrderOfCellsIsImmaterial(l: Ledger, s: seq<Cells>, t: seq<Cells>, refuses: Cells -> bool, codes: set<string>, id: string)
    requires DateOrdered(s) && DateOrdered(t) && multiset(s) == multiset(t) && Decided(multiset(s))
    ensures SameFor(PostCells(l, s, refuses, codes), PostCells(l, t, refuses, codes), id)
  {
    OwnRowsInOneOrder(s, t, id);
    OnlyOwnRows(l, s, refuses, codes, id);
    OnlyOwnRows(l, t, refuses, codes, id);
  }

  /** Reordering the sheet changes neither an account nor the changes imported for it. */
  lemma OrderOfRowsIsImmaterial(l: Ledger, sheet: seq<ParsedRow>, other: seq<ParsedRow>, env: Setting, refuses: Cells -> bool)
    requires multiset(CellsOf(sheet)) == multiset(CellsOf(other))
    requires Decided(multiset(CellsOf(sheet)))
    requires forall r :: env.refuses(r) == refuses(r.cells)
    ensures var m, w := PostAll(l, SortByDate(sheet), env), PostAll(l, SortByDate(other), env);
              && m.accounts == w.accounts
              && forall id :: SameFor(m, w, id)
  {
    var s, t := CellsOf(SortByDate(sheet)), CellsOf(SortByDate(other));
    SortsByDate(sheet);
    SortsByDate(other);
    PostAllByCells(l, SortByDate(sheet), env, refuses);
    PostAllByCells(l, SortByDate(other), env, refuses);
    forall id
      ensures SameFor(PostCells(l, s, refuses, env.codes), PostCells(l, t, refuses, env.codes), id)
    {
      OrderOfCellsIsImmaterial(l, s, t, refuses, env.codes, id);
    }
    SameAccounts(PostCells(l, s, refuses, env.codes), PostCells(l, t, refuses, env.codes));
  }

  lemma SameAccounts(m: Ledger, w: Ledger)
    requires forall id :: SameFor(m, w, id)
    ensures m.accounts == w.accounts
  {
    forall id
      ensures id in m.accounts <==> id in w.accounts
      ensures id in m.accounts ==> m.accounts[id] == w.accounts[id]
    {
      assert SameFor(m, w, id);
    }
  }

  function Sample(changeType: ChangeType, newArc: int): Cells {
    Cells("a", Type(changeType), Some(newArc), None, Some(0), "")
  }

  /** Two different rows sharing circuit and date: the sheet's order then decides the result. */
  lemma SharedDateOrderMatters() returns (l: Ledger, sheet: seq<ParsedRow>, other: seq<ParsedRow>, env: Setting)
    ensures multiset(CellsOf(sheet)) == multiset(CellsOf(other)) && !Decided(multiset(CellsOf(sheet)))
    ensures forall r :: !env.refuses(r)
    ensures PostAll(l, SortByDate(sheet), env).accounts != PostAll(l, SortByDate(other), env).accounts
  {
    var up, down := Sample(Upgrade, 200), Sample(Downgrade, 50);
    var x, y := ParsedRow(2, up), ParsedRow(3, down);
    l := Ledger(map["a" := Customer(100, None, Active)], []);
    env := Setting({}, (r: ParsedRow) => false);
    sheet, other := [x, y], [y, x];
    assert CellsOf(sheet) == [up, down] && CellsOf(other) == [down, up];
    assert up in multiset(CellsOf(sheet)) && down in multiset(CellsOf(sheet));
    assert SortByDate(sheet) == sheet by { SortPair(x, y); }
    assert SortByDate(other) == other by { SortPair(y, x); }
    PostPair(l, x, y, env);
    PostPair(l, y, x, env);
    LastWins(l, up, down, env.codes);
    LastWins(l, down, up, env.codes);
    var m, w := PostAll(l, sheet, env), PostAll(l, other, env);
    assert m.accounts["a"].currentArc == 50 && w.accounts["a"].currentArc == 200;
  }

  /** From an ARC of 100, an upgrade to 200 and a downgrade to 50 both pass, in either order. */
  lemma LastWins(l: Ledger, c: Cells, d: Cells, codes: set<string>)
    requires l == Ledger(map["a" := Customer(100, None, Active)], [])
    requires (c == Sample(Upgrade, 200) && d == Sample(Downgrade, 50)) || (c == Sample(Downgrade, 50) && d == Sample(Upgrade, 200))
    ensures var m := Post(Post(l, c, false, codes), d, false, codes);
              "a" in m.accounts && m.accounts["a"].currentArc == d.newArc.value
  {
  }

  lemma SortPair(x: ParsedRow, y: ParsedRow)
    requires KeyLe(x.cells.effectiveDate, y.cells.effectiveDate)
    ensures SortByDate([x, y]) == [x, y]
  {
    assert [x, y][..1] == [x];
    assert [x][..0] == [];
    assert SortByDate([x]) == [x];
  }

  lemma PostPair(l: Ledger, x: ParsedRow, y: ParsedRow, env: Setting)
    ensures PostAll(l, [x, y], env)
         == Post(Post(l, x.cells, env.refuses(x), env.codes), y.cells, env.refuses(y), env.codes)
  {
    assert [x, y][..1] == [x];
    assert [x][..0] == [];
    assert PostAll(l, [], env) == l;
    assert PostAll(l, [x], env) == Post(l, x.cells, env.refuses(x), env.codes);
  }
}
