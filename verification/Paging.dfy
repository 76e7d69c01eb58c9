/** Listing accounts page by page: role scope, owner filter and the cursor. */
module Paging {
  import opened Schema
  import opened Sums
  import opened Ordering
  import opened Division

  datatype Listed = Listed(id: nat, createdAt: Time, kitty: Kitty, samOwner: Option<UserId>)

  datatype Requester = Requester(id: UserId, role: Role)

  datatype OwnerFilter = Mine | Unassigned | Team | All

  // ---- who sees what ---------------------------------------------------------

  /** The owner condition of the query: none, one exact value, members of a set, or a disjunction. */
  datatype OwnerCondition = AnyOwner | Exactly(owner: Option<UserId>) | OneOf(owners: set<UserId>) | InTeam(head: UserId, owners: set<UserId>)

  predicate Meets(o: Option<UserId>, c: OwnerCondition) {
    match c
    case AnyOwner => true
    case Exactly(owner) => o == owner
    case OneOf(owners) => o.Some? && o.value in owners
    case InTeam(head, owners) => o == None || o.value == head || o.value in owners
  }

  function Scope(who: Requester, reports: set<UserId>): OwnerCondition {
    match who.role
    case Sam => Exactly(Some(who.id))
    case SamHead => InTeam(who.id, reports)
    case _ => AnyOwner
  }

  /** The owner filter replaces the role's condition. */
  function Condition(who: Requester, reports: set<UserId>, owner: OwnerFilter): OwnerCondition {
    match owner
    case Mine => Exactly(Some(who.id))
    case Unassigned => Exactly(None)
    case Team => if who.role == SamHead then OneOf(reports) else Scope(who, reports)
    case All => Scope(who, reports)
  }

  function Wanted(kitty: Option<Kitty>, c: OwnerCondition): Listed -> bool {
    (a: Listed) => (kitty == None || a.kitty == kitty.value) && Meets(a.samOwner, c)
  }

  /** The filter narrows the role's scope for everyone except a SAM asking for unassigned accounts. */
  lemma FilterNarrowsScope(who: Requester, reports: set<UserId>, owner: OwnerFilter)
    ensures (forall o :: Meets(o, Condition(who, reports, owner)) ==> Meets(o, Scope(who, reports)))
        <==> !(who.role == Sam && owner == Unassigned)
  {
    if who.role == Sam && owner == Unassigned {
      assert Meets(None, Condition(who, reports, owner)) && !Meets(None, Scope(who, reports));
    }
  }

  /** Whose accounts the requester sees in the whole list: a SAM its own, a head the team's and nobody's, others all. */
  predicate InSight(who: Requester, users: map<UserId, User>, o: Option<UserId>) {
    match who.role
    case Sam => o == Some(who.id)
    case SamHead => o == None || o.value == who.id || (o.value in users && users[o.value].samHead == Some(who.id))
    case _ => true
  }

  /** Whose accounts a list asks for. */
  predicate AskedFor(who: Requester, users: map<UserId, User>, owner: OwnerFilter, o: Option<UserId>) {
    match owner
    case All => InSight(who, users, o)
    case Mine => o == Some(who.id)
    case Unassigned => o == None
    case Team =>
      if who.role != SamHead then InSight(who, users, o)
      else o.Some? && o.value in users && users[o.value].samHead == Some(who.id)
  }

  /** A row is listed exactly if its kitty is the one asked for, if one is, and its owner is asked for. */
  lemma ListedIff(users: map<UserId, User>, who: Requester, kitty: Option<Kitty>, owner: OwnerFilter, a: Listed)
    ensures Wanted(kitty, Condition(who, Reports(users, who.id), owner))(a) <==>
              (kitty == None || kitty == Some(a.kitty)) && AskedFor(who, users, owner, a.samOwner)
  {
  }

  // ---- the ordered list ------------------------------------------------------

  /** Newest first; ties by id, highest first. */
  predicate NewestFirst(a: Listed, b: Listed) {
    a.createdAt > b.createdAt || (a.createdAt == b.createdAt && a.id >= b.id)
  }

  function FullList(accounts: seq<Listed>, wanted: Listed -> bool): seq<Listed> {
    SortBy(Filter(accounts, wanted), NewestFirst)
  }

  ghost predicate UniqueIds(accounts: seq<Listed>) {
    forall i, j | 0 <= i < j < |accounts| :: accounts[i].id != accounts[j].id
  }

  function After(a: Listed): Listed -> bool {
    (b: Listed) => b.id != a.id && NewestFirst(a, b)
  }

  function Find(accounts: seq<Listed>, id: nat): (found: Option<Listed>)
    ensures found.Some? ==> found.value in accounts && found.value.id == id
    ensures found == None ==> forall a | a in accounts :: a.id != id
  {
    if accounts == [] then None
    else if accounts[|accounts| - 1].id == id then Some(accounts[|accounts| - 1])
    else Find(accounts[..|accounts| - 1], id)
  }

  // ---- one page --------------------------------------------------------------

  function Take(limit: Option<int>): (n: nat)
    ensures 1 <= n <= 1_000
  {
    var asked := if limit.Some? then limit.value else 1_000;
    var capped := if asked < 1_000 then asked else 1_000;
    if capped > 1 then capped else 1
  }

  /** A page holds 1,000 rows unless asked for fewer, and at least one. */
  lemma TakeIs(limit: Option<int>)
    ensures limit == None ==> Take(limit) == 1_000
    ensures limit.Some? && 1 <= limit.value <= 1_000 ==> Take(limit) == limit.value
    ensures limit.Some? && limit.value > 1_000 ==> Take(limit) == 1_000
    ensures limit.Some? && limit.value < 1 ==> Take(limit) == 1
  {
  }

  /** At most `n` rows of `full`, from just past the cursor row if a cursor is given. */
  function FindFrom(full: seq<Listed>, accounts: seq<Listed>, cursor: Option<nat>, n: nat): seq<Listed> {
    var rows :=
      if cursor == None then full
      else
        var at := Find(accounts, cursor.value);
        if at == None then [] else Filter(full, After(at.value));
    if |rows| <= n then rows else rows[..n]
  }

  function FindMany(accounts: seq<Listed>, wanted: Listed -> bool, cursor: Option<nat>, n: nat): seq<Listed> {
    FindFrom(FullList(accounts, wanted), accounts, cursor, n)
  }

  datatype Page = Page(items: seq<Listed>, nextCursor: Option<nat>)

  /** The page out of one row more than it holds. */
  function PageOf(rows: seq<Listed>, take: nat): Page
    requires take > 0
  {
    if |rows| <= take then Page(rows, None)
    else Page(rows[..take], Some(rows[take - 1].id))
  }

  function ListPage(accounts: seq<Listed>, wanted: Listed -> bool, cursor: Option<nat>, take: nat): Page
    requires take > 0
  {
    PageOf(FindMany(accounts, wanted, cursor, take + 1), take)
  }

  method OwnerWhere(users: map<UserId, User>, who: Requester, owner: OwnerFilter) returns (where: OwnerCondition)
    ensures where == Condition(who, Reports(users, who.id), owner)
  {
    where := AnyOwner;
    if who.role == Sam {
      where := Exactly(Some(who.id));
    } else if who.role == SamHead {
      where := InTeam(who.id, Reports(users, who.id));
    }
    if owner == Mine {
      where := Exactly(Some(who.id));
    } else if owner == Unassigned {
      where := Exactly(None);
    } else if owner == Team && who.role == SamHead {
      where := OneOf(Reports(users, who.id));
    }
  }

  method List(accounts: seq<Listed>, users: map<UserId, User>, who: Requester,
              kitty: Option<Kitty>, owner: OwnerFilter, cursor: Option<nat>, limit: Option<int>) returns (page: Page)
    ensures page == ListPage(accounts, Wanted(kitty, Condition(who, Reports(users, who.id), owner)), cursor, Take(limit))
  {
    var take := Take(limit);
    var where := OwnerWhere(users, who, owner);
    var rows := FindMany(accounts, Wanted(kitty, where), cursor, take + 1);
    var hasMore := |rows| > take;
    var items := if hasMore then rows[..take] else rows;
    var next := if hasMore then Some(items[|items| - 1].id) else None;
    page := Page(items, next);
  }

  function Reports(users: map<UserId, User>, head: UserId): set<UserId> {
    set u | u in users && users[u].samHead == Some(head)
  }

  // ---- a page is a slice of the list -----------------------------------------

  lemma OrderIsTotal()
    ensures TotalPreorder(NewestFirst)
  {
  }

  /** Two rows: the one created later first, or of the same time the one with the higher id. */
  predicate Precedes(a: Listed, b: Listed) {
    a.id != b.id && (a.createdAt > b.createdAt || (a.createdAt == b.createdAt && a.id > b.id))
  }

  ghost predicate StrictlyNewestFirst(full: seq<Listed>) {
    forall j, k | 0 <= j < k < |full| :: Precedes(full[j], full[k])
  }

  lemma {:induction false} FilterKeepsUnique(accounts: seq<Listed>, wanted: Listed -> bool)
    requires UniqueIds(accounts)
    ensures UniqueIds(Filter(accounts, wanted))
  {
    if accounts != [] {
      var n := |accounts| - 1;
      FilterKeepsUnique(accounts[..n], wanted);
      var rest := Filter(accounts[..n], wanted);
      forall i | 0 <= i < |rest|
        ensures rest[i].id != accounts[n].id
      {
        assert rest[i] in rest && rest[i] in accounts[..n];
      }
    }
  }

  ghost predicate Apart(s: seq<Listed>, x: Listed) {
    forall y | y in s :: y.id != x.id
  }

  lemma {:induction false} InsertKeepsUnique(s: seq<Listed>, x: Listed)
    requires UniqueIds(s) && Apart(s, x)
    ensures UniqueIds(Insert(s, x, NewestFirst))
  {
    if s != [] && !NewestFirst(s[|s| - 1], x) {
      var n := |s| - 1;
      InsertKeepsUnique(s[..n], x);
      var r := Insert(s[..n], x, NewestFirst);
      forall i | 0 <= i < |r|
        ensures r[i].id != s[n].id
      {
        assert r[i] == x || r[i] in s[..n];
        assert s[n] in s;
      }
    }
  }

  lemma {:induction false} SortKeepsUnique(s: seq<Listed>)
    requires UniqueIds(s)
    ensures UniqueIds(SortBy(s, NewestFirst))
    ensures forall y | y in SortBy(s, NewestFirst) :: y in s
  {
    if s != [] {
      var n := |s| - 1;
      SortKeepsUnique(s[..n]);
      forall y | y in SortBy(s[..n], NewestFirst)
        ensures y.id != s[n].id
      {
        assert y in s[..n];
      }
      InsertKeepsUnique(SortBy(s[..n], NewestFirst), s[n]);
    }
  }

  lemma ListIsStrict(accounts: seq<Listed>, wanted: Listed -> bool)
    requires UniqueIds(accounts)
    ensures StrictlyNewestFirst(FullList(accounts, wanted))
    ensures multiset(FullList(accounts, wanted)) == multiset(Filter(accounts, wanted))
    ensures forall a | a in FullList(accounts, wanted) :: a in accounts
  {
    var rows := Filter(accounts, wanted);
    OrderIsTotal();
    SortSorts(rows, NewestFirst);
    FilterKeepsUnique(accounts, wanted);
    SortKeepsUnique(rows);
    var full := FullList(accounts, wanted);
    forall j, k | 0 <= j < k < |full|
      ensures Precedes(full[j], full[k])
    {
      assert NewestFirst(full[j], full[k]) && full[j].id != full[k].id;
    }
  }


  /** In a strictly ordered list the rows after row `p` are the rest of the list. */
  lemma {:induction false} AfterIsTheRest(full: seq<Listed>, p: nat)
    requires StrictlyNewestFirst(full) && p < |full|
    ensures Filter(full, After(full[p])) == full[p + 1..]
  {
    var n := |full| - 1;
    if p < n {
      AfterIsTheRest(full[..n], p);
      assert After(full[p])(full[n]);
      assert full[..n][p + 1..] + [full[n]] == full[p + 1..];
    } else {
      NothingAfterLast(full, full[n], n);
      assert full[..n + 1] == full;
    }
  }

  lemma {:induction false} NothingAfterLast(full: seq<Listed>, last: Listed, k: nat)
    requires k < |full| && last == full[|full| - 1] && StrictlyNewestFirst(full)
    ensures Filter(full[..k + 1], After(last)) == []
  {
    assert full[..k + 1][..k] == full[..k];
    assert !After(last)(full[k]);
    if k > 0 {
      NothingAfterLast(full, last, k - 1);
    }
  }

  lemma {:induction false} FindsItself(accounts: seq<Listed>, a: Listed)
    requires UniqueIds(accounts) && a in accounts
    ensures Find(accounts, a.id) == Some(a)
  {
    var n := |accounts| - 1;
    if accounts[n] == a {
    } else {
      assert a in accounts[..n];
      FindsItself(accounts[..n], a);
    }
  }

  /** The cursor that resumes the list at position `p`. */
  function CursorAt(full: seq<Listed>, p: nat): Option<nat>
    requires p <= |full|
  {
    if p == 0 then None else Some(full[p - 1].id)
  }

  /** The page of `full` that starts at position `p`. */
  function Slice(full: seq<Listed>, p: nat, take: nat): Page
    requires take > 0 && p <= |full|
  {
    if |full| - p <= take then Page(full[p..], None) else Page(full[p..p + take], CursorAt(full, p + take))
  }

  /** What a cursor needs of the list it walks. */
  ghost predicate Walkable(full: seq<Listed>, accounts: seq<Listed>) {
    && UniqueIds(accounts)
    && StrictlyNewestFirst(full)
    && forall a | a in full :: a in accounts
  }

  lemma ResumesAfter(full: seq<Listed>, accounts: seq<Listed>, n: nat, p: nat)
    requires Walkable(full, accounts) && 0 < p <= |full|
    ensures FindFrom(full, accounts, CursorAt(full, p), n) == if |full| - p <= n then full[p..] else full[p..][..n]
  {
    assert full[p - 1] in full;
    FindsItself(accounts, full[p - 1]);
    AfterIsTheRest(full, p - 1);
  }

  lemma ResumesAt(full: seq<Listed>, accounts: seq<Listed>, n: nat, p: nat)
    requires Walkable(full, accounts) && p <= |full|
    ensures FindFrom(full, accounts, CursorAt(full, p), n) == if |full| - p <= n then full[p..] else full[p..p + n]
  {
    if p > 0 {
      ResumesAfter(full, accounts, n, p);
    } else {
      assert full[0..] == full;
    }
    if |full| - p > n {
      assert full[p..][..n] == full[p..p + n];
    }
  }

  lemma PageOfSlice(full: seq<Listed>, p: nat, take: nat)
    requires take > 0 && p <= |full|
    ensures PageOf(if |full| - p <= take + 1 then full[p..] else full[p..p + (take + 1)], take) == Slice(full, p, take)
  {
    if |full| - p > take {
      var rows := if |full| - p <= take + 1 then full[p..] else full[p..p + (take + 1)];
      assert rows[..take] == full[p..p + take];
      assert rows[take - 1] == full[p + take - 1];
    }
  }

  /** A page asked for at position `p` is the next `take` rows, and its cursor resumes right after them. */
  lemma PageIsASlice(accounts: seq<Listed>, wanted: Listed -> bool, take: nat, p: nat)
    requires UniqueIds(accounts) && take > 0 && p <= |FullList(accounts, wanted)|
    ensures ListPage(accounts, wanted, CursorAt(FullList(accounts, wanted), p), take) == Slice(FullList(accounts, wanted), p, take)
  {
    var full := FullList(accounts, wanted);
    ListIsStrict(accounts, wanted);
    ResumesAt(full, accounts, take + 1, p);
    PageOfSlice(full, p, take);
  }

  // ---- walking the cursor ----------------------------------------------------

  function Fetch(accounts: seq<Listed>, wanted: Listed -> bool, take: nat): Option<nat> -> Page
    requires take > 0
  {
    (cursor: Option<nat>) => ListPage(accounts, wanted, cursor, take)
  }

  /** The pages a client collects in at most `fuel` requests, following each `nextCursor`. */
  function Walk(fetch: Option<nat> -> Page, cursor: Option<nat>, fuel: nat): seq<Page>
    decreases fuel
  {
    if fuel == 0 then []
    else
      var page := fetch(cursor);
      [page] + if page.nextCursor == None then [] else Walk(fetch, page.nextCursor, fuel - 1)
  }

  function Items(pages: seq<Page>): seq<Listed> {
    if pages == [] then [] else pages[0].items + Items(pages[1..])
  }

  /** The number of pages `n` rows fill; an empty list still takes one. */
  function PageCount(n: nat, take: nat): (pages: nat)
    requires take > 0
    ensures pages >= 1
  {
    if n <= take then 1 else 1 + PageCount(n - take, take)
  }

  /** The page count is the rounded-up quotient, and never less than one. */
  lemma {:induction false} PageCountIsCeil(n: nat, take: nat)
    requires take > 0
    ensures PageCount(n, take) == if n == 0 then 1 else CeilDiv(n, take)
  {
    if n > 0 {
      var x := n - 1;
      var q, r := x / take, x % take;
      assert q * take == take * q && (q + 1) * take == q * take + take;
      Quotient(x + take, q + 1, r, take);
      if n <= take {
        Quotient(x, 0, x, take);
      } else {
        PageCountIsCeil(n - take, take);
      }
    }
  }

  /** The pages hold exactly `rows`, in order, and the last one has no cursor. */
  ghost predicate Covers(pages: seq<Page>, rows: seq<Listed>, take: nat)
    requires take > 0
  {
    && Items(pages) == rows
    && |pages| == PageCount(|rows|, take)
    && pages != []
    && pages[|pages| - 1].nextCursor == None
  }

  lemma CoversMore(page: Page, rest: seq<Page>, rows: seq<Listed>, take: nat)
    requires 0 < take < |rows| && page.items == rows[..take] && Covers(rest, rows[take..], take)
    ensures Covers([page] + rest, rows, take)
  {
    assert ([page] + rest)[1..] == rest;
    assert rows[..take] + rows[take..] == rows;
  }

  lemma CoversLast(page: Page, take: nat)
    requires take > 0 && |page.items| <= take && page.nextCursor == None
    ensures Covers([page], page.items, take)
  {
    assert Items([page][1..]) == [];
  }

  lemma CoversFrom(full: seq<Listed>, p: nat, take: nat, rest: seq<Page>)
    requires take > 0 && p <= |full|
    requires if |full| - p <= take then rest == [] else Covers(rest, full[p + take..], take)
    ensures Covers([Slice(full, p, take)] + rest, full[p..], take)
  {
    var page := Slice(full, p, take);
    if |full| - p <= take {
      CoversLast(page, take);
      assert [page] + [] == [page];
    } else {
      assert full[p..][take..] == full[p + take..] && full[p..][..take] == full[p..p + take];
      CoversMore(page, rest, full[p..], take);
    }
  }

  /** `fetch` answers every cursor into `full` with the page that starts there. */
  ghost predicate SlicesOf(fetch: Option<nat> -> Page, full: seq<Listed>, take: nat)
    requires take > 0
  {
    forall q | 0 <= q <= |full| :: fetch(CursorAt(full, q)) == Slice(full, q, take)
  }

  lemma {:induction false} WalkFrom(fetch: Option<nat> -> Page, full: seq<Listed>, take: nat, p: nat, fuel: nat)
    requires take > 0 && p <= |full|
    requires SlicesOf(fetch, full, take)
    requires fuel >= PageCount(|full| - p, take)
    ensures Covers(Walk(fetch, CursorAt(full, p), fuel), full[p..], take)
    decreases fuel
  {
    assert fetch(CursorAt(full, p)) == Slice(full, p, take);
    if |full| - p <= take {
      CoversFrom(full, p, take, []);
    } else {
      WalkFrom(fetch, full, take, p + take, fuel - 1);
      CoversFrom(full, p, take, Walk(fetch, CursorAt(full, p + take), fuel - 1));
    }
  }

  /** The pages are the whole list, in max(1, ceil(n / take)) pieces, and the last one says so. */
  ghost predicate Complete(pages: seq<Page>, full: seq<Listed>, take: nat)
    requires take > 0
  {
    && Items(pages) == full
    && |pages| == (if full == [] then 1 else CeilDiv(|full|, take))
    && pages[|pages| - 1].nextCursor == None
  }

  lemma WalkAll(fetch: Option<nat> -> Page, full: seq<Listed>, take: nat, fuel: nat)
    requires take > 0 && SlicesOf(fetch, full, take) && fuel >= PageCount(|full|, take)
    ensures Complete(Walk(fetch, None, fuel), full, take)
  {
    WalkFrom(fetch, full, take, 0, fuel);
    PageCountIsCeil(|full|, take);
    assert full[0..] == full;
  }

  /**
    Following `nextCursor` from the first page ends after exactly max(1, ceil(n / take)) requests, however
    many more the client is willing to make, and the pages together are the whole list once.
   */
  lemma WalkReturnsTheList(accounts: seq<Listed>, wanted: Listed -> bool, take: nat, fuel: nat)
    requires UniqueIds(accounts) && take > 0
    requires fuel >= PageCount(|FullList(accounts, wanted)|, take)
    ensures Complete(Walk(Fetch(accounts, wanted, take), None, fuel), FullList(accounts, wanted), take)
    ensures StrictlyNewestFirst(FullList(accounts, wanted))
    ensures multiset(FullList(accounts, wanted)) == multiset(Filter(accounts, wanted))
  {
    FetchesSlices(accounts, wanted, take);
    WalkAll(Fetch(accounts, wanted, take), FullList(accounts, wanted), take, fuel);
    ListIsStrict(accounts, wanted);
  }

  lemma FetchesSlices(accounts: seq<Listed>, wanted: Listed -> bool, take: nat)
    requires UniqueIds(accounts) && take > 0
    ensures SlicesOf(Fetch(accounts, wanted, take), FullList(accounts, wanted), take)
  {
    var full := FullList(accounts, wanted);
    forall q | 0 <= q <= |full|
      ensures Fetch(accounts, wanted, take)(CursorAt(full, q)) == Slice(full, q, take)
    {
      PageIsASlice(accounts, wanted, take, q);
    }
  }
}
