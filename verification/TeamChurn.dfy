/**
  Churn against the allowed budget, computed twice by the service: for the team table by
  grouping all rows by owner, and for one SAM's detail view by filtering and rolling up.
 */
module TeamChurn {
  import opened Schema
  import opened Sums
  import opened Dashboard

  /** A change joined with its account's owner. */
  datatype Joined = Joined(owner: Option<UserId>, change: Change)

  /** `allowance` is each SAM's allowed churn in percent. */
  datatype Directory = Directory(users: map<UserId, User>, allowance: UserId -> real)

  // ---- queries ---------------------------------------------------------------

  function JoinOwners(accounts: seq<Account>, changes: seq<Change>): (rows: seq<Joined>)
    ensures |rows| == |changes|
  {
    if changes == [] then []
    else
      var c := changes[|changes| - 1];
      JoinOwners(accounts, changes[..|changes| - 1])
      + [Joined(if c.accountId < |accounts| then accounts[c.accountId].samOwner else None, c)]
  }

  function AccountOf(sams: set<UserId>): Account -> bool {
    (a: Account) => a.samOwner.Some? && a.samOwner.value in sams
  }

  function ChangeOf(sams: set<UserId>, window: Option<Window>): Joined -> bool {
    (j: Joined) => j.owner.Some? && j.owner.value in sams && InWindow(window, j.change.effectiveDate)
  }

  function OwnedBy(sam: UserId): Account -> bool {
    (a: Account) => a.samOwner == Some(sam)
  }

  function RaisedFor(sam: UserId): Joined -> bool {
    (j: Joined) => j.owner == Some(sam)
  }

  /** The SAMs on the requester's team table. */
  function TeamSams(users: map<UserId, User>, requester: UserId, role: Role): set<UserId> {
    set u | u in users && users[u].role == Sam && (role == SamHead ==> users[u].samHead == Some(requester))
  }

  function Ids(sams: seq<UserId>): set<UserId> {
    set s | s in sams
  }

  /** The SAMs whose rows the detail view of `sam` loads: itself and those sharing its head. */
  function DetailScope(users: map<UserId, User>, sam: UserId): set<UserId>
    requires sam in users
  {
    {sam} + set u | u in users && users[u].role == Sam && users[sam].samHead.Some? && users[u].samHead == users[sam].samHead
  }

  // ---- churn -----------------------------------------------------------------

  function Impact(t: ChangeType): Joined -> int {
    (j: Joined) =>
      if j.change.changeType != t then 0
      else
        match t
        case Upgrade => j.change.newArc - j.change.oldArc
        case Disconnection => j.change.oldArc
        case _ => j.change.oldArc - j.change.newArc
  }

  datatype Churn = Churn(netChurnArc: int, startArc: int, percent: real, allowable: real, headroom: real, over: bool)

  function ChurnOf(start: int, net: int, allowable: real): Churn {
    var percent := if start > 0 then net as real / start as real * 100.0 else 0.0;
    Churn(net, start, percent, allowable, allowable - percent, percent > allowable)
  }

  function IsKind(t: ChangeType): Joined -> int {
    (j: Joined) => if j.change.changeType == t then 1 else 0
  }

  datatype Tally = Tally(count: int, arcImpact: int)

  datatype Tallies = Tallies(upgrade: Tally, downgrade: Tally, rateRevision: Tally, disconnection: Tally)

  function TallyOf(changes: seq<Joined>, t: ChangeType): Tally {
    Tally(Sum(changes, IsKind(t)), Sum(changes, Impact(t)))
  }

  function TalliesOf(changes: seq<Joined>): Tallies {
    Tallies(TallyOf(changes, Upgrade), TallyOf(changes, Downgrade), TallyOf(changes, RateRevision), TallyOf(changes, Disconnection))
  }

  function IsActive(): Account -> bool { (a: Account) => a.status != Terminated }
  function Arc(): Account -> int { (a: Account) => a.currentArc }

  /** One SAM's raw totals: customers and ARC still served, opening ARC, changes by type. */
  datatype Rolled = Rolled(customers: int, totalArc: int, startArc: int, changes: Tallies)

  function RolledOf(own: seq<Account>, raised: seq<Joined>): Rolled {
    Rolled(Sum(own, One(IsActive())), Sum(own, ArcWhere(IsActive())), Sum(own, Opening()), TalliesOf(raised))
  }

  /** What disconnections and downgrades took, less what upgrades brought. */
  function NetChurn(b: Tallies): int {
    b.disconnection.arcImpact + b.downgrade.arcImpact - b.upgrade.arcImpact
  }

  /** One SAM's figures as shown. */
  datatype SamFigures = SamFigures(customers: int, totalArc: int, arcDelta: int, changes: Tallies, churn: Churn)

  function FiguresOf(r: Rolled, allowable: real): SamFigures {
    SamFigures(r.customers, r.totalArc, r.totalArc - r.startArc, r.changes, ChurnOf(r.startArc, NetChurn(r.changes), allowable))
  }

  function Own(db: Db, ids: set<UserId>, sam: UserId): seq<Account> {
    Filter(Filter(db.accounts, AccountOf(ids)), OwnedBy(sam))
  }

  function Raised(db: Db, ids: set<UserId>, sam: UserId, window: Option<Window>): seq<Joined> {
    Filter(Filter(JoinOwners(db.accounts, db.changes), ChangeOf(ids, window)), RaisedFor(sam))
  }

  /** One SAM's figures, out of the rows loaded for the SAMs `ids`. */
  function FiguresWithin(db: Db, d: Directory, ids: set<UserId>, sam: UserId, window: Option<Window>): SamFigures {
    FiguresOf(RolledOf(Own(db, ids, sam), Raised(db, ids, sam, window)), d.allowance(sam))
  }

  lemma TallyStep(changes: seq<Joined>, k: nat, t: ChangeType)
    requires k < |changes|
    ensures var before, c := TallyOf(changes[..k], t), changes[k];
              TallyOf(changes[..k + 1], t) == Tally(before.count + IsKind(t)(c), before.arcImpact + Impact(t)(c))
  {
    SumStep(changes, k, IsKind(t));
    SumStep(changes, k, Impact(t));
  }

  lemma TalliesStep(changes: seq<Joined>, k: nat)
    requires k < |changes|
    ensures var b, c := TalliesOf(changes[..k]), changes[k].change;
              TalliesOf(changes[..k + 1]) ==
                match c.changeType
                case Upgrade => b.(upgrade := Tally(b.upgrade.count + 1, b.upgrade.arcImpact + (c.newArc - c.oldArc)))
                case Downgrade => b.(downgrade := Tally(b.downgrade.count + 1, b.downgrade.arcImpact + (c.oldArc - c.newArc)))
                case RateRevision => b.(rateRevision := Tally(b.rateRevision.count + 1, b.rateRevision.arcImpact + (c.oldArc - c.newArc)))
                case Disconnection => b.(disconnection := Tally(b.disconnection.count + 1, b.disconnection.arcImpact + c.oldArc))
  {
    TallyStep(changes, k, Upgrade);
    TallyStep(changes, k, Downgrade);
    TallyStep(changes, k, RateRevision);
    TallyStep(changes, k, Disconnection);
  }

  /** Filtering the active accounts first and summing after is summing where active. */
  lemma ActiveSums(accounts: seq<Account>)
    ensures |Filter(accounts, IsActive())| == Sum(accounts, One(IsActive()))
    ensures Sum(Filter(accounts, IsActive()), Arc()) == Sum(accounts, ArcWhere(IsActive()))
  {
    SumFilter(accounts, IsActive(), Arc());
    SumEqual(accounts, Masked(IsActive(), Arc()), ArcWhere(IsActive()));
    FilterLength(accounts, IsActive());
  }

  lemma {:induction false} FilterLength(accounts: seq<Account>, p: Account -> bool)
    ensures |Filter(accounts, p)| == Sum(accounts, One(p))
  {
    if accounts != [] {
      FilterLength(accounts[..|accounts| - 1], p);
    }
  }

  // ---- the team table: group, then roll up each group ------------------------

  function Group<T>(m: map<UserId, seq<T>>, sam: UserId): seq<T> {
    if sam in m then m[sam] else []
  }

  method GroupAccounts(accounts: seq<Account>) returns (bySam: map<UserId, seq<Account>>)
    ensures forall sam :: Group(bySam, sam) == Filter(accounts, OwnedBy(sam))
  {
    bySam := map[];
    var k := 0;
    while k < |accounts|
      invariant k <= |accounts|
      invariant forall sam :: Group(bySam, sam) == Filter(accounts[..k], OwnedBy(sam))
    {
      var a := accounts[k];
      assert accounts[..k + 1][..k] == accounts[..k];
      if a.samOwner.Some? {
        bySam := bySam[a.samOwner.value := Group(bySam, a.samOwner.value) + [a]];
      }
      k := k + 1;
    }
    assert accounts[..k] == accounts;
  }

  method GroupChanges(changes: seq<Joined>) returns (bySam: map<UserId, seq<Joined>>)
    ensures forall sam :: Group(bySam, sam) == Filter(changes, RaisedFor(sam))
  {
    bySam := map[];
    var k := 0;
    while k < |changes|
      invariant k <= |changes|
      invariant forall sam :: Group(bySam, sam) == Filter(changes[..k], RaisedFor(sam))
    {
      var c := changes[k];
      assert changes[..k + 1][..k] == changes[..k];
      if c.owner.Some? {
        bySam := bySam[c.owner.value := Group(bySam, c.owner.value) + [c]];
      }
      k := k + 1;
    }
    assert changes[..k] == changes;
  }

  datatype Team = Team(netChurnArc: int, startArc: int, percent: real, allowable: real, samsOverBudget: nat)

  function Net(): Churn -> int { (r: Churn) => r.netChurnArc }
  function Start(): Churn -> int { (r: Churn) => r.startArc }
  function IsOver(): Churn -> int { (r: Churn) => if r.over then 1 else 0 }

  /** The allowed loss of all SAMs together, in hundredths of a rupee: budgets weighted by book size. */
  function Weighted(rows: seq<Churn>): real {
    if rows == [] then 0.0
    else Weighted(rows[..|rows| - 1]) + rows[|rows| - 1].allowable * rows[|rows| - 1].startArc as real
  }

  function Overs(rows: seq<Churn>): (n: nat)
    ensures n == Sum(rows, IsOver())
  {
    if rows == [] then 0 else Overs(rows[..|rows| - 1]) + if rows[|rows| - 1].over then 1 else 0
  }

  function TeamOf(rows: seq<Churn>): Team {
    var net, start := Sum(rows, Net()), Sum(rows, Start());
    Team(net, start,
         if start > 0 then net as real / start as real * 100.0 else 0.0,
         if start > 0 then Weighted(rows) / start as real else 0.0,
         Overs(rows))
  }

  method Aggregate(rows: seq<Churn>) returns (team: Team)
    ensures team == TeamOf(rows)
  {
    var net, start, weighted, overs := 0, 0, 0.0, 0;
    var k := 0;
    while k < |rows|
      invariant k <= |rows|
      invariant net == Sum(rows[..k], Net()) && start == Sum(rows[..k], Start())
      invariant weighted == Weighted(rows[..k]) && overs == Overs(rows[..k])
    {
      assert rows[..k + 1][..k] == rows[..k];
      net, start := net + rows[k].netChurnArc, start + rows[k].startArc;
      weighted := weighted + rows[k].allowable * rows[k].startArc as real;
      overs := overs + if rows[k].over then 1 else 0;
      k := k + 1;
    }
    assert rows[..k] == rows;
    team := Team(net, start,
                 if start > 0 then net as real / start as real * 100.0 else 0.0,
                 if start > 0 then weighted / start as real else 0.0,
                 overs);
  }

  function ChurnsOf(rows: seq<SamFigures>): (churns: seq<Churn>)
    ensures |churns| == |rows|
  {
    seq(|rows|, k requires 0 <= k < |rows| => rows[k].churn)
  }

  /** One row of the team table, with its own pass over the SAM's changes. */
  method TeamRow(accounts: seq<Account>, changes: seq<Joined>, allowable: real) returns (row: SamFigures)
    ensures row == FiguresOf(RolledOf(accounts, changes), allowable)
  {
    var active := Filter(accounts, IsActive());
    var totalArc := Sum(active, Arc());
    var startArc := Sum(accounts, Opening());
    ActiveSums(accounts);
    var zero := Tally(0, 0);
    var b := Tallies(zero, zero, zero, zero);
    var k := 0;
    while k < |changes|
      invariant k <= |changes|
      invariant b == TalliesOf(changes[..k])
    {
      var c := changes[k].change;
      TalliesStep(changes, k);
      match c.changeType {
        case Upgrade => b := b.(upgrade := Tally(b.upgrade.count + 1, b.upgrade.arcImpact + (c.newArc - c.oldArc)));
        case Downgrade => b := b.(downgrade := Tally(b.downgrade.count + 1, b.downgrade.arcImpact + (c.oldArc - c.newArc)));
        case RateRevision => b := b.(rateRevision := Tally(b.rateRevision.count + 1, b.rateRevision.arcImpact + (c.oldArc - c.newArc)));
        case Disconnection => b := b.(disconnection := Tally(b.disconnection.count + 1, b.disconnection.arcImpact + c.oldArc));
      }
      k := k + 1;
    }
    assert changes[..k] == changes;
    var net := b.disconnection.arcImpact + b.downgrade.arcImpact - b.upgrade.arcImpact;
    var percent := if startArc > 0 then net as real / startArc as real * 100.0 else 0.0;
    row := SamFigures(|active|, totalArc, totalArc - startArc, b,
                      Churn(net, startArc, percent, allowable, allowable - percent, !(percent <= allowable)));
  }

  /** The rows of the table, one SAM after another, out of the groups. */
  method RowsOfGroups(db: Db, d: Directory, ids: set<UserId>, sams: seq<UserId>,
                      accountsBySam: map<UserId, seq<Account>>, changesBySam: map<UserId, seq<Joined>>)
    returns (rows: seq<SamFigures>)
    requires forall sam :: Group(accountsBySam, sam) == Own(db, ids, sam)
    requires forall sam :: Group(changesBySam, sam) == Raised(db, ids, sam, None)
    ensures |rows| == |sams|
    ensures forall k | 0 <= k < |sams| :: rows[k] == FiguresWithin(db, d, ids, sams[k], None)
  {
    rows := [];
    var k := 0;
    while k < |sams|
      invariant k <= |sams| && |rows| == k
      invariant forall j | 0 <= j < k :: rows[j] == FiguresWithin(db, d, ids, sams[j], None)
    {
      var row := TeamRow(Group(accountsBySam, sams[k]), Group(changesBySam, sams[k]), d.allowance(sams[k]));
      rows := rows + [row];
      k := k + 1;
    }
  }

  /** `sams` lists the SAMs of the requester's team, as the user query orders them. */
  method ComputeTeamPerformance(db: Db, d: Directory, requester: UserId, role: Role, sams: seq<UserId>)
    returns (rows: seq<SamFigures>, team: Team)
    requires Ids(sams) == TeamSams(d.users, requester, role)
    ensures |rows| == |sams|
    ensures forall k | 0 <= k < |sams| :: rows[k] == FiguresWithin(db, d, TeamSams(d.users, requester, role), sams[k], None)
    ensures team == TeamOf(ChurnsOf(rows))
  {
    var ids := Ids(sams);
    var accountsBySam := GroupAccounts(Filter(db.accounts, AccountOf(ids)));
    var changesBySam := GroupChanges(Filter(JoinOwners(db.accounts, db.changes), ChangeOf(ids, None)));
    rows := RowsOfGroups(db, d, ids, sams, accountsBySam, changesBySam);
    team := Aggregate(ChurnsOf(rows));
  }

  // ---- the detail view: filter, then roll up ---------------------------------

  predicate MaySee(users: map<UserId, User>, requester: UserId, role: Role, sam: UserId) {
    && sam in users && users[sam].role == Sam
    && role != Sam
    && (role == SamHead ==> users[sam].samHead == Some(requester))
  }

  /** The roll-up behind the detail view, with a pass of its own that treats two types alike. */
  method RollUpSam(accounts: seq<Account>, changes: seq<Joined>) returns (r: Rolled)
    ensures r == RolledOf(accounts, changes)
  {
    var active := Filter(accounts, IsActive());
    ActiveSums(accounts);
    var up, down, rate, gone := Tally(0, 0), Tally(0, 0), Tally(0, 0), Tally(0, 0);
    var k := 0;
    while k < |changes|
      invariant k <= |changes|
      invariant Tallies(up, down, rate, gone) == TalliesOf(changes[..k])
    {
      var c := changes[k].change;
      TalliesStep(changes, k);
      var impact := if c.changeType == Upgrade then c.newArc - c.oldArc
                    else if c.changeType == Disconnection then c.oldArc
                    else c.oldArc - c.newArc;
      match c.changeType {
        case Upgrade => up := Tally(up.count + 1, up.arcImpact + impact);
        case Downgrade => down := Tally(down.count + 1, down.arcImpact + impact);
        case RateRevision => rate := Tally(rate.count + 1, rate.arcImpact + impact);
        case Disconnection => gone := Tally(gone.count + 1, gone.arcImpact + impact);
      }
      k := k + 1;
    }
    assert changes[..k] == changes;
    r := Rolled(|active|, Sum(active, Arc()), Sum(accounts, Opening()), Tallies(up, down, rate, gone));
  }

  /** The detail view's own churn block. */
  method ChurnBlock(self: Rolled, allowable: real) returns (churn: Churn)
    ensures churn == ChurnOf(self.startArc, NetChurn(self.changes), allowable)
  {
    var net := self.changes.disconnection.arcImpact + self.changes.downgrade.arcImpact - self.changes.upgrade.arcImpact;
    var percent := if self.startArc > 0 then net as real / self.startArc as real * 100.0 else 0.0;
    churn := Churn(net, self.startArc, percent, allowable, allowable - percent, !(percent <= allowable));
  }

  /** The figures of one SAM, out of its own and its peers' rows. */
  method AggregateFor(db: Db, d: Directory, sam: UserId, window: Option<Window>) returns (figures: SamFigures)
    requires sam in d.users
    ensures figures == FiguresWithin(db, d, DetailScope(d.users, sam), sam, window)
  {
    var ids := DetailScope(d.users, sam);
    var accounts := Filter(db.accounts, AccountOf(ids));
    var changes := Filter(JoinOwners(db.accounts, db.changes), ChangeOf(ids, window));
    var self := RollUpSam(Filter(accounts, OwnedBy(sam)), Filter(changes, RaisedFor(sam)));
    var churn := ChurnBlock(self, d.allowance(sam));
    figures := SamFigures(self.customers, self.totalArc, self.totalArc - self.startArc, self.changes, churn);
  }

  method ComputeSamDetail(db: Db, d: Directory, requester: UserId, role: Role, sam: UserId, window: Option<Window>)
    returns (figures: Option<SamFigures>)
    ensures figures.Some? <==> MaySee(d.users, requester, role, sam)
    ensures figures.Some? ==> figures.value == FiguresWithin(db, d, DetailScope(d.users, sam), sam, window)
  {
    if sam !in d.users || d.users[sam].role != Sam { return None; }
    if role == SamHead && d.users[sam].samHead != Some(requester) { return None; }
    if role == Sam { return None; }
    var self := AggregateFor(db, d, sam, window);
    return Some(self);
  }

  // ---- the two views agree ---------------------------------------------------

  /** Filtering by a weaker condition first changes nothing. */
  lemma {:induction false} FilterTwice<T>(s: seq<T>, wide: T -> bool, narrow: T -> bool, p: T -> bool)
    requires forall x | x in s :: p(x) <==> wide(x) && narrow(x)
    ensures Filter(Filter(s, wide), narrow) == Filter(s, p)
  {
    if s != [] {
      var n := |s| - 1;
      FilterTwice(s[..n], wide, narrow, p);
      var rest := Filter(s[..n], wide);
      if wide(s[n]) {
        assert (rest + [s[n]])[..|rest|] == rest;
      }
    }
  }

  function RaisedIn(sam: UserId, window: Option<Window>): Joined -> bool {
    (j: Joined) => j.owner == Some(sam) && InWindow(window, j.change.effectiveDate)
  }

  /** Whichever larger set of SAMs was loaded, one SAM's share of it is that SAM's own rows. */
  lemma OwnRows(db: Db, ids: set<UserId>, sam: UserId, window: Option<Window>)
    requires sam in ids
    ensures Own(db, ids, sam) == Filter(db.accounts, OwnedBy(sam))
    ensures Raised(db, ids, sam, window) == Filter(JoinOwners(db.accounts, db.changes), RaisedIn(sam, window))
  {
    var joined := JoinOwners(db.accounts, db.changes);
    FilterTwice(db.accounts, AccountOf(ids), OwnedBy(sam), OwnedBy(sam));
    FilterTwice(joined, ChangeOf(ids, window), RaisedFor(sam), RaisedIn(sam, window));
  }

  /** Whoever may open detail views may open those of the SAMs on the own table, and no others. */
  lemma SameSams(users: map<UserId, User>, requester: UserId, role: Role, sam: UserId)
    requires role != Sam
    ensures MaySee(users, requester, role, sam) <==> sam in TeamSams(users, requester, role)
  {
  }

  /** With no quarter chosen, the detail view opens for every SAM on the table and shows the same figures. */
  lemma ViewsAgree(db: Db, d: Directory, requester: UserId, role: Role, sam: UserId)
    requires role != Sam && sam in TeamSams(d.users, requester, role)
    ensures MaySee(d.users, requester, role, sam)
    ensures FiguresWithin(db, d, TeamSams(d.users, requester, role), sam, None)
         == FiguresWithin(db, d, DetailScope(d.users, sam), sam, None)
  {
    OwnRows(db, TeamSams(d.users, requester, role), sam, None);
    OwnRows(db, DetailScope(d.users, sam), sam, None);
  }

  // ---- the team and its members ----------------------------------------------

  /** What a SAM lost beyond its budget, in hundredths of a rupee. */
  function Excess(r: Churn): real {
    100.0 * r.netChurnArc as real - r.allowable * r.startArc as real
  }

  function TotalExcess(rows: seq<Churn>): real {
    if rows == [] then 0.0 else TotalExcess(rows[..|rows| - 1]) + Excess(rows[|rows| - 1])
  }

  lemma {:induction false} ExcessAddsUp(rows: seq<Churn>)
    ensures TotalExcess(rows) == 100.0 * Sum(rows, Net()) as real - Weighted(rows)
  {
    if rows != [] {
      ExcessAddsUp(rows[..|rows| - 1]);
    }
  }

  /** A row as the services build it, from non-negative ARCs and a non-negative budget. */
  ghost predicate Built(r: Churn) {
    r.startArc >= 0 && r.allowable >= 0.0 && r == ChurnOf(r.startArc, r.netChurnArc, r.allowable)
  }

  lemma Divided(net: int, start: int, budget: real)
    requires start > 0
    ensures net as real / start as real * 100.0 > budget <==> 100.0 * net as real > budget * start as real
  {
    var s, n := start as real, net as real;
    var q := n / s;
    assert q * s == n;
    if q * 100.0 > budget {
      assert (q * 100.0 - budget) * s > 0.0;
    } else {
      assert (budget - q * 100.0) * s >= 0.0;
    }
  }

  /** A SAM is flagged exactly if it has a book and lost more of it than its budget allows. */
  lemma FlaggedIff(r: Churn)
    requires Built(r)
    ensures r.over <==> r.startArc > 0 && Excess(r) > 0.0
  {
    if r.startArc > 0 {
      Divided(r.netChurnArc, r.startArc, r.allowable);
    }
  }

  predicate TeamOver(t: Team) {
    t.percent > t.allowable
  }

  lemma TeamOverIff(rows: seq<Churn>)
    requires forall r | r in rows :: Built(r)
    ensures TeamOver(TeamOf(rows)) <==> TeamOf(rows).startArc > 0 && TotalExcess(rows) > 0.0
  {
    ExcessAddsUp(rows);
    var t := TeamOf(rows);
    if t.startArc > 0 {
      var s := t.startArc as real;
      var budget := Weighted(rows) / s;
      assert budget * s == Weighted(rows);
      Divided(t.netChurnArc, t.startArc, budget);
    }
  }

  /** The SAMs with no opening ARC: their churn counts for the team but never against them. */
  function ZeroBaseLoss(rows: seq<Churn>): real {
    if rows == [] then 0.0
    else
      var r := rows[|rows| - 1];
      ZeroBaseLoss(rows[..|rows| - 1]) + if r.startArc == 0 then 100.0 * r.netChurnArc as real else 0.0
  }

  lemma {:induction false} NoLossOnZeroBase(rows: seq<Churn>)
    requires forall r | r in rows :: r.startArc == 0 ==> r.netChurnArc <= 0
    ensures ZeroBaseLoss(rows) <= 0.0
  {
    if rows != [] {
      NoLossOnZeroBase(rows[..|rows| - 1]);
      assert rows[|rows| - 1] in rows;
    }
  }

  lemma {:induction false} NoneOver(rows: seq<Churn>)
    ensures Overs(rows) == 0 <==> forall r | r in rows :: !r.over
  {
    if rows != [] {
      var n := |rows| - 1;
      NoneOver(rows[..n]);
      assert rows == rows[..n] + [rows[n]];
    }
  }

  /** The budget SAMs with a book have left, in hundredths of a rupee. */
  function Slack(rows: seq<Churn>): real {
    if rows == [] then 0.0
    else
      var r := rows[|rows| - 1];
      Slack(rows[..|rows| - 1]) + if r.startArc == 0 then 0.0 else -Excess(r)
  }

  lemma {:induction false} ExcessSplits(rows: seq<Churn>)
    ensures TotalExcess(rows) == ZeroBaseLoss(rows) - Slack(rows)
  {
    if rows != [] {
      ExcessSplits(rows[..|rows| - 1]);
    }
  }

  /**
    A team is over its weighted budget exactly if it has a book and the loss of SAMs without one
    exceeds what the others have left; then somebody is flagged, or the others kept to budget.
   */
  lemma TeamOverByLoss(rows: seq<Churn>)
    requires forall r | r in rows :: Built(r)
    ensures TeamOver(TeamOf(rows)) <==> TeamOf(rows).startArc > 0 && ZeroBaseLoss(rows) > Slack(rows)
    ensures TeamOf(rows).samsOverBudget == 0 ==> Slack(rows) >= 0.0
  {
    TeamOverIff(rows);
    ExcessSplits(rows);
    NoneOver(rows);
    if forall r | r in rows :: !r.over {
      UnflaggedSlack(rows);
    }
  }

  lemma {:induction false} UnflaggedSlack(rows: seq<Churn>)
    requires forall r | r in rows :: Built(r) && !r.over
    ensures Slack(rows) >= 0.0
  {
    if rows != [] {
      var n := |rows| - 1;
      UnflaggedSlack(rows[..n]);
      assert rows[n] in rows;
      FlaggedIff(rows[n]);
    }
  }

  /** A team over budget whose zero-base SAMs lost nothing on balance has a member over budget. */
  lemma OverBudgetNamesSomeone(rows: seq<Churn>)
    requires forall r | r in rows :: Built(r)
    requires TeamOver(TeamOf(rows)) && ZeroBaseLoss(rows) <= 0.0
    ensures TeamOf(rows).samsOverBudget >= 1
  {
    TeamOverByLoss(rows);
  }

  // ---- which teams can rely on the flags -------------------------------------

  /** What is known of a SAM before the period: opening ARC and allowance. */
  datatype Book = Book(start: nat, allowable: real)

  /** The rows of a team whose SAMs net `nets` over the period. */
  function RowsOf(books: seq<Book>, nets: seq<int>): (rows: seq<Churn>)
    requires |nets| == |books|
    ensures |rows| == |books|
  {
    seq(|books|, k requires 0 <= k < |books| => ChurnOf(books[k].start, nets[k], books[k].allowable))
  }

  ghost predicate Allowed(books: seq<Book>) {
    forall b | b in books :: b.allowable >= 0.0
  }

  /** Whatever the period brings, a team over budget has a member over budget. */
  ghost predicate FlagsReliable(books: seq<Book>) {
    forall nets: seq<int> | |nets| == |books| ::
      TeamOver(TeamOf(RowsOf(books, nets))) ==> TeamOf(RowsOf(books, nets)).samsOverBudget >= 1
  }

  lemma RowsAreBuilt(books: seq<Book>, nets: seq<int>)
    requires |nets| == |books| && Allowed(books)
    ensures forall r | r in RowsOf(books, nets) :: Built(r)
  {
    forall r | r in RowsOf(books, nets)
      ensures Built(r)
    {
      var k :| 0 <= k < |books| && RowsOf(books, nets)[k] == r;
      assert books[k] in books;
    }
  }

  lemma {:induction false} WeightedSame(rows: seq<Churn>, others: seq<Churn>)
    requires |rows| == |others|
    requires forall k | 0 <= k < |rows| :: rows[k].startArc == others[k].startArc && rows[k].allowable == others[k].allowable
    ensures Weighted(rows) == Weighted(others)
  {
    if rows != [] {
      WeightedSame(rows[..|rows| - 1], others[..|rows| - 1]);
    }
  }

  lemma TeamStart(books: seq<Book>, nets: seq<int>)
    requires |nets| == |books|
    ensures TeamOf(RowsOf(books, nets)).startArc > 0 <==> exists b :: b in books && b.start > 0
  {
    var rows := RowsOf(books, nets);
    var zero := (r: Churn) => 0;
    SumZero(rows, zero);
    if exists b :: b in books && b.start > 0 {
      var b :| b in books && b.start > 0;
      var k :| 0 <= k < |books| && books[k] == b;
      assert zero(rows[k]) < Start()(rows[k]);
      SumLess(rows, zero, rows, Start());
    } else {
      forall k | 0 <= k < |rows|
        ensures Start()(rows[k]) == 0
      {
        assert books[k] in books;
      }
      SumZero(rows, Start());
    }
  }

  /** Only SAM `z`, who has no book, lost or gained anything. */
  ghost predicate OnlyLoss(books: seq<Book>, nets: seq<int>, z: nat) {
    && |nets| == |books| && z < |books| && books[z].start == 0
    && forall k | 0 <= k < |nets| && k != z :: nets[k] == 0
  }

  lemma NobodyFlagged(books: seq<Book>, nets: seq<int>, z: nat)
    requires Allowed(books) && OnlyLoss(books, nets, z)
    ensures TeamOf(RowsOf(books, nets)).samsOverBudget == 0
  {
    var rows := RowsOf(books, nets);
    RowsAreBuilt(books, nets);
    forall r | r in rows
      ensures !r.over
    {
      var k :| 0 <= k < |rows| && rows[k] == r;
      FlaggedIff(r);
      if k != z {
        QuietKeeps(r);
      }
    }
    NoneOver(rows);
  }

  lemma LossShows(books: seq<Book>, nets: seq<int>, z: nat)
    requires Allowed(books) && OnlyLoss(books, nets, z) && exists b :: b in books && b.start > 0
    requires 100.0 * nets[z] as real > Weighted(RowsOf(books, nets))
    ensures TeamOver(TeamOf(RowsOf(books, nets)))
  {
    var rows := RowsOf(books, nets);
    RowsAreBuilt(books, nets);
    TeamStart(books, nets);
    SumOfOne(rows, Net(), z);
    ExcessAddsUp(rows);
    TeamOverIff(rows);
  }

  /** A SAM that lost nothing has no excess. */
  lemma QuietKeeps(r: Churn)
    requires Built(r) && r.netChurnArc <= 0
    ensures Excess(r) <= 0.0
  {
  }

  /** Some whole number of rupees exceeds any budget. */
  lemma Exceeding(budget: real) returns (loss: nat)
    ensures 100.0 * loss as real > budget
  {
    loss := if budget >= 0.0 then budget.Floor + 1 else 1;
  }

  /** With a book among them and a SAM without one, some period hides the loss. */
  lemma HiddenLoss(books: seq<Book>, z: nat) returns (nets: seq<int>)
    requires Allowed(books) && z < |books| && books[z].start == 0 && exists b :: b in books && b.start > 0
    ensures |nets| == |books|
    ensures TeamOver(TeamOf(RowsOf(books, nets))) && TeamOf(RowsOf(books, nets)).samsOverBudget == 0
  {
    var zeros := seq(|books|, _ => 0);
    var loss := Exceeding(Weighted(RowsOf(books, zeros)));
    nets := zeros[z := loss];
    WeightedSame(RowsOf(books, nets), RowsOf(books, zeros));
    LossShows(books, nets, z);
    NobodyFlagged(books, nets, z);
  }

  /**
    The flags can be relied on exactly for teams in which every SAM has an opening ARC, or none has:
    then, whatever the period brings, a team over budget names a member over budget.
   */
  lemma FlagsReliableIff(books: seq<Book>)
    requires Allowed(books)
    ensures FlagsReliable(books) <==> (forall b | b in books :: b.start == 0) || (forall b | b in books :: b.start > 0)
  {
    if z :| 0 <= z < |books| && books[z].start == 0 && exists b :: b in books && b.start > 0 {
      var nets := HiddenLoss(books, z);
      assert books[z] in books;
    } else {
      forall nets: seq<int> | |nets| == |books| && TeamOver(TeamOf(RowsOf(books, nets)))
        ensures TeamOf(RowsOf(books, nets)).samsOverBudget >= 1
      {
        var rows := RowsOf(books, nets);
        RowsAreBuilt(books, nets);
        TeamStart(books, nets);
        TeamOverByLoss(rows);
        forall r | r in rows
          ensures r.startArc > 0
        {
          var k :| 0 <= k < |rows| && rows[k] == r;
          assert books[k].start != 0;
        }
        NoLossOnZeroBase(rows);
        OverBudgetNamesSomeone(rows);
      }
    }
  }

  lemma TwoRows(x: Churn, y: Churn)
    ensures forall f: Churn -> int :: Sum([x, y], f) == f(x) + f(y)
    ensures Weighted([x, y]) == x.allowable * x.startArc as real + y.allowable * y.startArc as real
    ensures TotalExcess([x, y]) == Excess(x) + Excess(y)
  {
    assert [x, y][..1] == [x] && [x][..0] == [];
    assert Weighted([x]) == x.allowable * x.startArc as real;
    assert TotalExcess([x]) == Excess(x);
    forall f: Churn -> int
      ensures Sum([x, y], f) == f(x) + f(y)
    {
      assert Sum([x], f) == Sum([x][..0], f) + f(x);
    }
  }

  /** One SAM keeps to budget, another with no opening ARC loses 50: the team is over, nobody is flagged. */
  lemma ZeroBaseHidesTheLoss() returns (rows: seq<Churn>)
    ensures forall r | r in rows :: Built(r)
    ensures TeamOver(TeamOf(rows)) && TeamOf(rows).samsOverBudget == 0
  {
    var steady, hollow := ChurnOf(100, 0, 7.0), ChurnOf(0, 50, 7.0);
    rows := [steady, hollow];
    TwoRows(steady, hollow);
    TeamOverIff(rows);
  }
}
