/**
  What a SAM's churn figures count, row by row and account by account, and how far they are
  from the ARC the SAM's customers have really lost.
 */
module ChurnFigures {
  import opened Schema
  import opened Sums
  import opened Invariant
  import opened Preservation
  import opened Runs
  import opened Dashboard
  import opened Reconciliation
  import opened Headcount
  import opened TeamChurn

  function Owns(sam: UserId): Account -> bool {
    (a: Account) => a.samOwner == Some(sam)
  }

  /** Effective in the window, if there is one. */
  predicate Within(window: Option<Window>, c: Change) {
    window.Some? ==> window.value.start <= c.effectiveDate <= window.value.end
  }

  function InTime(window: Option<Window>, g: Change -> int): Change -> int {
    (c: Change) => if Within(window, c) then g(c) else 0
  }

  /** `g` over the changes of the SAM's accounts that are effective in the window. */
  ghost function OverRaised(db: Db, sam: UserId, window: Option<Window>, g: Change -> int): int {
    OverRows(db, Owns(sam), InTime(window, g))
  }

  // ---- terms -----------------------------------------------------------------

  function Served(): Account -> int {
    (a: Account) => if a.status == Terminated then 0 else 1
  }

  function ServedArc(): Account -> int {
    (a: Account) => if a.status == Terminated then 0 else a.currentArc
  }

  function OfKind(t: ChangeType): Change -> int {
    (c: Change) => if c.changeType == t then 1 else 0
  }

  /** What the rows of type `t` are shown to be worth: gains for upgrades, losses for all others. */
  function WorthOf(t: ChangeType): Change -> int {
    (c: Change) =>
      if c.changeType != t then 0
      else if t == Upgrade then c.newArc - c.oldArc
      else if t == Disconnection then c.oldArc
      else c.oldArc - c.newArc
  }

  /** What `c` takes away: the ARC disconnected or downgraded, less the ARC upgraded. */
  function Loss(c: Change): int {
    match c.changeType
    case Disconnection => c.oldArc
    case Downgrade => c.oldArc - c.newArc
    case Upgrade => c.oldArc - c.newArc
    case RateRevision => 0
  }

  function LossOf(): Change -> int {
    (c: Change) => Loss(c)
  }

  // ---- the figures -----------------------------------------------------------

  /** A joined row's term is its change's. */
  ghost predicate SameTerm(f: Joined -> int, g: Change -> int) {
    forall j :: f(j) == g(j.change)
  }

  lemma {:induction false} JoinedSum(accounts: seq<Account>, changes: seq<Change>, sam: UserId, window: Option<Window>, f: Joined -> int, g: Change -> int)
    requires SameTerm(f, g)
    ensures Sum(Filter(JoinOwners(accounts, changes), RaisedIn(sam, window)), f)
         == Sum(changes, Covered(accounts, Owns(sam), InTime(window, g)))
    decreases |changes|
  {
    if changes != [] {
      var n := |changes| - 1;
      JoinedSum(accounts, changes[..n], sam, window, f, g);
      JoinedNext(accounts, changes, sam, window, f, g);
    }
  }

  function JoinedRow(accounts: seq<Account>, c: Change): Joined {
    Joined(if c.accountId < |accounts| then accounts[c.accountId].samOwner else None, c)
  }

  lemma JoinedLast(accounts: seq<Account>, changes: seq<Change>)
    requires changes != []
    ensures JoinOwners(accounts, changes)
         == JoinOwners(accounts, changes[..|changes| - 1]) + [JoinedRow(accounts, changes[|changes| - 1])]
  {
  }

  lemma JoinedTerm(accounts: seq<Account>, c: Change, sam: UserId, window: Option<Window>, f: Joined -> int, g: Change -> int)
    requires SameTerm(f, g)
    ensures var j := JoinedRow(accounts, c);
            (if RaisedIn(sam, window)(j) then f(j) else 0) == Covered(accounts, Owns(sam), InTime(window, g))(c)
  {
    assert f(JoinedRow(accounts, c)) == g(c);
  }

  lemma JoinedNext(accounts: seq<Account>, changes: seq<Change>, sam: UserId, window: Option<Window>, f: Joined -> int, g: Change -> int)
    requires SameTerm(f, g) && changes != []
    ensures var n := |changes| - 1;
            Sum(Filter(JoinOwners(accounts, changes), RaisedIn(sam, window)), f)
              == Sum(Filter(JoinOwners(accounts, changes[..n]), RaisedIn(sam, window)), f)
                 + Covered(accounts, Owns(sam), InTime(window, g))(changes[n])
  {
    var n := |changes| - 1;
    var rest, j := JoinOwners(accounts, changes[..n]), JoinedRow(accounts, changes[n]);
    JoinedLast(accounts, changes);
    JoinedTerm(accounts, changes[n], sam, window, f, g);
    FilterSnoc(rest, j, RaisedIn(sam, window));
    AddsItsTerm(Filter(rest, RaisedIn(sam, window)), j, RaisedIn(sam, window)(j), f);
  }

  lemma AddsItsTerm(rest: seq<Joined>, j: Joined, counts: bool, f: Joined -> int)
    ensures Sum(rest + if counts then [j] else [], f) == Sum(rest, f) + if counts then f(j) else 0
  {
    if counts {
      SumSnoc(rest, j, f);
    } else {
      assert rest + [] == rest;
    }
  }

  lemma RaisedSum(db: Db, ids: set<UserId>, sam: UserId, window: Option<Window>, f: Joined -> int, g: Change -> int)
    requires sam in ids && SameTerm(f, g)
    ensures Sum(Raised(db, ids, sam, window), f) == OverRaised(db, sam, window, g)
  {
    OwnRows(db, ids, sam, window);
    JoinedSum(db.accounts, db.changes, sam, window, f, g);
  }

  lemma OwnSum(db: Db, ids: set<UserId>, sam: UserId, f: Account -> int, g: Account -> int)
    requires sam in ids && forall a :: f(a) == g(a)
    ensures Sum(Own(db, ids, sam), f) == OverAccounts(db, Owns(sam), g)
  {
    OwnRows(db, ids, sam, None);
    SumFilter(db.accounts, OwnedBy(sam), f);
    SumEqual(db.accounts, Masked(OwnedBy(sam), f), Masked(Owns(sam), g));
  }

  lemma TallyMeans(db: Db, ids: set<UserId>, sam: UserId, window: Option<Window>, t: ChangeType)
    requires sam in ids
    ensures TallyOf(Raised(db, ids, sam, window), t)
         == Tally(OverRaised(db, sam, window, OfKind(t)), OverRaised(db, sam, window, WorthOf(t)))
  {
    RaisedSum(db, ids, sam, window, IsKind(t), OfKind(t));
    RaisedSum(db, ids, sam, window, Impact(t), WorthOf(t));
  }

  /** A SAM's customers, ARC and changes by type are those of the accounts it owns. */
  lemma FiguresMean(db: Db, d: Directory, ids: set<UserId>, sam: UserId, window: Option<Window>)
    requires sam in ids
    ensures var f := FiguresWithin(db, d, ids, sam, window);
            && f.customers == OverAccounts(db, Owns(sam), Served())
            && f.totalArc == OverAccounts(db, Owns(sam), ServedArc())
            && f.arcDelta == f.totalArc - OverAccounts(db, Owns(sam), OpeningValue())
            && f.changes.upgrade == Tally(OverRaised(db, sam, window, OfKind(Upgrade)), OverRaised(db, sam, window, WorthOf(Upgrade)))
            && f.changes.downgrade == Tally(OverRaised(db, sam, window, OfKind(Downgrade)), OverRaised(db, sam, window, WorthOf(Downgrade)))
            && f.changes.rateRevision
                 == Tally(OverRaised(db, sam, window, OfKind(RateRevision)), OverRaised(db, sam, window, WorthOf(RateRevision)))
            && f.changes.disconnection
                 == Tally(OverRaised(db, sam, window, OfKind(Disconnection)), OverRaised(db, sam, window, WorthOf(Disconnection)))
  {
    OwnSum(db, ids, sam, One(IsActive()), Served());
    OwnSum(db, ids, sam, ArcWhere(IsActive()), ServedArc());
    OwnSum(db, ids, sam, Opening(), OpeningValue());
    TallyMeans(db, ids, sam, window, Upgrade);
    TallyMeans(db, ids, sam, window, Downgrade);
    TallyMeans(db, ids, sam, window, RateRevision);
    TallyMeans(db, ids, sam, window, Disconnection);
  }

  lemma {:induction false} LossSplits(changes: seq<Change>, accounts: seq<Account>, sam: UserId, window: Option<Window>)
    ensures Sum(changes, Covered(accounts, Owns(sam), InTime(window, LossOf())))
         == Sum(changes, Covered(accounts, Owns(sam), InTime(window, WorthOf(Disconnection))))
            + Sum(changes, Covered(accounts, Owns(sam), InTime(window, WorthOf(Downgrade))))
            - Sum(changes, Covered(accounts, Owns(sam), InTime(window, WorthOf(Upgrade))))
    decreases |changes|
  {
    if changes != [] {
      LossSplits(changes[..|changes| - 1], accounts, sam, window);
    }
  }

  lemma NetMeans(db: Db, ids: set<UserId>, sam: UserId, window: Option<Window>)
    requires sam in ids
    ensures NetChurn(TalliesOf(Raised(db, ids, sam, window))) == OverRaised(db, sam, window, LossOf())
  {
    TallyMeans(db, ids, sam, window, Upgrade);
    TallyMeans(db, ids, sam, window, Downgrade);
    TallyMeans(db, ids, sam, window, Disconnection);
    LossSplits(db.changes, db.accounts, sam, window);
  }

  lemma StartMeans(db: Db, ids: set<UserId>, sam: UserId, window: Option<Window>)
    requires sam in ids
    ensures RolledOf(Own(db, ids, sam), Raised(db, ids, sam, window)).startArc == OverAccounts(db, Owns(sam), OpeningValue())
  {
    OwnSum(db, ids, sam, Opening(), OpeningValue());
  }

  /** The percentage is the loss over the book, the headroom what is left of the allowance, the flag its overrun. */
  ghost predicate AddsUp(churn: Churn) {
    && (churn.startArc > 0 ==> churn.percent * churn.startArc as real == 100.0 * churn.netChurnArc as real)
    && (churn.startArc <= 0 ==> churn.percent == 0.0)
    && churn.headroom == churn.allowable - churn.percent
    && (churn.over <==> churn.percent > churn.allowable)
  }

  lemma PercentMeans(start: int, net: int, allowable: real)
    ensures AddsUp(ChurnOf(start, net, allowable))
  {
    if start > 0 {
      Percentage(net, start);
    }
  }

  /** The churn block: net loss, opening ARC and allowance, and the percentages that follow from them. */
  lemma ChurnMeans(db: Db, d: Directory, ids: set<UserId>, sam: UserId, window: Option<Window>)
    requires sam in ids
    ensures var churn := FiguresWithin(db, d, ids, sam, window).churn;
            && churn.netChurnArc == OverRaised(db, sam, window, LossOf())
            && churn.startArc == OverAccounts(db, Owns(sam), OpeningValue())
            && churn.allowable == d.allowance(sam)
            && AddsUp(churn)
  {
    StartMeans(db, ids, sam, window);
    NetMeans(db, ids, sam, window);
    var r := RolledOf(Own(db, ids, sam), Raised(db, ids, sam, window));
    PercentMeans(r.startArc, NetChurn(r.changes), d.allowance(sam));
  }

  lemma Percentage(net: int, start: int)
    requires start > 0
    ensures net as real / start as real * 100.0 * start as real == 100.0 * net as real
  {
    var s, n := start as real, net as real;
    var q := n / s;
    assert q * s == n;
    assert q * 100.0 * s == 100.0 * (q * s);
  }

  // ---- the team --------------------------------------------------------------

  ghost function Flagged(rows: seq<Churn>): set<nat> {
    set k: nat | k < |rows| && rows[k].over
  }

  lemma {:induction false} OversCount(rows: seq<Churn>)
    ensures Overs(rows) == |Flagged(rows)|
    decreases |rows|
  {
    if rows == [] {
      assert Flagged(rows) == {};
    } else {
      var n := |rows| - 1;
      OversCount(rows[..n]);
      assert Flagged(rows) == Flagged(rows[..n]) + if rows[n].over then {n} else {};
    }
  }

  /** The team's loss and book are its SAMs' together; its allowance is theirs weighted by book size. */
  lemma TeamMeans(rows: seq<Churn>)
    ensures var team := TeamOf(rows);
            && team.netChurnArc == Sum(rows, (r: Churn) => r.netChurnArc)
            && team.startArc == Sum(rows, (r: Churn) => r.startArc)
            && team.samsOverBudget == |Flagged(rows)|
            && (team.startArc > 0 ==>
                  && team.percent * team.startArc as real == 100.0 * team.netChurnArc as real
                  && team.allowable * team.startArc as real == Weighted(rows))
            && (team.startArc <= 0 ==> team.percent == 0.0 && team.allowable == 0.0)
  {
    SumEqual(rows, Net(), (r: Churn) => r.netChurnArc);
    SumEqual(rows, Start(), (r: Churn) => r.startArc);
    OversCount(rows);
    var team := TeamOf(rows);
    if team.startArc > 0 {
      Percentage(team.netChurnArc, team.startArc);
      var s := team.startArc as real;
      assert Weighted(rows) / s * s == Weighted(rows);
    }
  }

  // ---- what was really lost --------------------------------------------------

  /** What an account has lost since the period began. */
  function Lost(): Account -> int {
    (a: Account) => OpeningValue()(a) - a.currentArc
  }

  /** The loss of a change that has not been applied. */
  function UnappliedLoss(): Change -> int {
    (c: Change) => if c.appliedAt == None then Loss(c) else 0
  }

  /** The ARC an applied rate revision brought. */
  function RevisedGain(): Change -> int {
    (c: Change) => if c.appliedAt.Some? && c.changeType == RateRevision then c.newArc - c.oldArc else 0
  }

  lemma LostIsNet(db: Db, a: nat)
    requires Inv(db) && a < |db.accounts| && db.accounts[a].kitty == BaseKitty
    ensures Lost()(db.accounts[a]) == -NetOf(db.changes)(db.accounts[a])
  {
    assert BalancedAccount(db, a) && db.accounts[a].id == a;
    var x := db.accounts[a];
    assert Lost()(x) == OpeningValue()(x) - x.currentArc && OpeningValue()(x) == x.startOfPeriodArc.value;
    assert NetOf(db.changes)(x) == Sum(db.changes, Contribution(x.id));
  }

  /** What the accounts lost is what their applied rows took. */
  lemma LostByRow(db: Db, scope: Account -> bool)
    requires Inv(db) && BaseScope(db.accounts, scope)
    ensures OverAccounts(db, scope, Lost()) == -Sum(db.changes, AppliedDelta(db.accounts, scope))
  {
    var zero := (a: Account) => 0;
    SumZero(db.accounts, zero);
    NetsByRow(db.accounts, scope, db.changes);
    forall a | 0 <= a < |db.accounts|
      ensures zero(db.accounts[a]) == Masked(scope, Lost())(db.accounts[a]) + Masked(scope, NetOf(db.changes))(db.accounts[a])
    {
      if scope(db.accounts[a]) {
        LostIsNet(db, a);
      }
    }
    SumPointwise(db.accounts, zero, db.accounts, Masked(scope, Lost()), db.accounts, Masked(scope, NetOf(db.changes)));
  }

  lemma {:induction false} LossOfRows(changes: seq<Change>, accounts: seq<Account>, scope: Account -> bool)
    ensures Sum(changes, Covered(accounts, scope, InTime(None, LossOf())))
         == -Sum(changes, AppliedDelta(accounts, scope)) + Sum(changes, Covered(accounts, scope, UnappliedLoss()))
            + Sum(changes, Covered(accounts, scope, RevisedGain()))
    decreases |changes|
  {
    if changes != [] {
      LossOfRows(changes[..|changes| - 1], accounts, scope);
    }
  }

  lemma OwnedStayBase(w: World, actions: seq<Action>, sam: UserId)
    requires Sound(w) && BaseScope(w.db.accounts, Owns(sam))
    ensures BaseScope(Run(w, actions).db.accounts, Owns(sam))
  {
    var accounts := Run(w, actions).db.accounts;
    forall a | 0 <= a < |accounts| && Owns(sam)(accounts[a])
      ensures accounts[a].kitty == BaseKitty
    {
      assert SameIdentity(w.db.accounts[a], accounts[a]);
      assert Owns(sam)(w.db.accounts[a]);
    }
  }

  /**
    In every state a run reaches, a SAM's net churn is the ARC its customers have lost since the
    period began, plus whatever changes that were never applied would take, plus what rate
    revisions brought.
   */
  lemma NetChurnIsLossPlusUnapplied(w: World, actions: seq<Action>, d: Directory, ids: set<UserId>, sam: UserId)
    requires FromImport(w, actions) && sam in ids && BaseScope(w.db.accounts, Owns(sam))
    ensures var db := Run(w, actions).db;
            FiguresWithin(db, d, ids, sam, None).churn.netChurnArc
              == OverAccounts(db, Owns(sam), Lost()) + OverRows(db, Owns(sam), UnappliedLoss()) + OverRows(db, Owns(sam), RevisedGain())
  {
    Reached(w, actions);
    var db := Run(w, actions).db;
    OwnedStayBase(w, actions, sam);
    ChurnMeans(db, d, ids, sam, None);
    LostByRow(db, Owns(sam));
    LossOfRows(db.changes, db.accounts, Owns(sam));
  }

  /** Every change of the SAM's accounts is a disconnection that has not been applied: rejected, retained or under way. */
  ghost predicate NothingCarriedOut(db: Db, sam: UserId) {
    forall i | 0 <= i < |db.changes| && db.changes[i].accountId < |db.accounts| && Owns(sam)(db.accounts[db.changes[i].accountId]) ::
      db.changes[i].changeType == Disconnection && db.changes[i].appliedAt == None
  }

  /** Then nobody has lost anything, and the churn is the whole ARC of those disconnections nevertheless. */
  lemma RetainedCountsAsChurn(w: World, actions: seq<Action>, d: Directory, ids: set<UserId>, sam: UserId)
    requires FromImport(w, actions) && sam in ids && BaseScope(w.db.accounts, Owns(sam))
    requires NothingCarriedOut(Run(w, actions).db, sam)
    ensures var db := Run(w, actions).db;
            && OverAccounts(db, Owns(sam), Lost()) == 0
            && FiguresWithin(db, d, ids, sam, None).churn.netChurnArc == OverRows(db, Owns(sam), WorthOf(Disconnection))
  {
    NetChurnIsLossPlusUnapplied(w, actions, d, ids, sam);
    Reached(w, actions);
    OwnedStayBase(w, actions, sam);
    NothingLost(Run(w, actions).db, sam);
  }

  lemma NothingLost(db: Db, sam: UserId)
    requires Inv(db) && BaseScope(db.accounts, Owns(sam)) && NothingCarriedOut(db, sam)
    ensures OverAccounts(db, Owns(sam), Lost()) == 0
    ensures OverRows(db, Owns(sam), RevisedGain()) == 0
    ensures OverRows(db, Owns(sam), UnappliedLoss()) == OverRows(db, Owns(sam), WorthOf(Disconnection))
  {
    LostByRow(db, Owns(sam));
    SumZero(db.changes, AppliedDelta(db.accounts, Owns(sam)));
    SumZero(db.changes, Covered(db.accounts, Owns(sam), RevisedGain()));
    SumEqual(db.changes, Covered(db.accounts, Owns(sam), UnappliedLoss()), Covered(db.accounts, Owns(sam), WorthOf(Disconnection)));
  }
}
