/** The existing-base waterfall: its queries, its accumulator loops and their meaning as sums. */
module Dashboard {
  import opened Schema
  import opened Sums
  import opened Lifecycle
  import opened Store

  /** Amounts are whole rupees, before the conversion to lakhs. */
  datatype Metrics = Metrics(
    totalCustomers: int,
    startArc: int,
    currentCustomers: int,
    currentArc: int,
    terminatedCount: int,
    upgradesCount: int,
    upgradesArc: int,
    downgradesCount: int,
    downgradesArc: int,
    rateRevisionsCount: int,
    rateRevisionsArc: int,
    terminationsCount: int,
    terminationsArc: int,
    churnCount: int,
    churnArc: int,
    pendingCount: int,
    pendingNetArc: int,
    approvalCount: int,
    approvalNetArc: int,
    awaitingSuperAdmin2: int,
    awaitingSamHead: int,
    awaitingAccounts: int)

  datatype Window = Window(start: Time, end: Time)

  // ---- queries ---------------------------------------------------------------

  /** Which accounts the requester's dashboard covers; `samId` can only narrow it. */
  predicate InScope(users: map<UserId, User>, requester: UserId, role: Role, samId: Option<UserId>, account: Account) {
    && (match role
        case Sam => account.samOwner == Some(requester)
        case SamHead => account.samOwner.Some? && InTeam(users, requester, account.samOwner.value)
        case _ => true)
    && (samId.Some? ==> account.samOwner == samId)
  }

  function Scope(users: map<UserId, User>, requester: UserId, role: Role, samId: Option<UserId>): Account -> bool {
    (a: Account) => a.kitty == BaseKitty && InScope(users, requester, role, samId, a)
  }

  predicate Real(approval: ApprovalStatus) {
    !IsPendingStage(approval) && approval != Rejected
  }

  predicate InWindow(window: Option<Window>, t: Time) {
    window.Some? ==> window.value.start <= t <= window.value.end
  }

  /** Rows of the covered accounts, by approval status and effective date. */
  function Counted(accounts: seq<Account>, scope: Account -> bool, window: Option<Window>): Change -> bool {
    (c: Change) => c.accountId < |accounts| && scope(accounts[c.accountId]) && Real(c.approval) && InWindow(window, c.effectiveDate)
  }

  function Awaiting(accounts: seq<Account>, scope: Account -> bool): Change -> bool {
    (c: Change) => c.accountId < |accounts| && scope(accounts[c.accountId]) && IsPendingStage(c.approval)
  }

  // ---- terms -----------------------------------------------------------------

  function OfType(t: ChangeType): Change -> int {
    (c: Change) => if c.changeType == t then 1 else 0
  }

  /** New minus old ARC of the rows of type `t`. */
  function Gain(t: ChangeType): Change -> int {
    (c: Change) => if c.changeType == t then c.newArc - c.oldArc else 0
  }

  predicate Terminating(c: Change) {
    c.changeType == Disconnection && c.appliedAt.Some?
  }

  function TerminationCount(): Change -> int {
    (c: Change) => if Terminating(c) then 1 else 0
  }

  function TerminationLoss(): Change -> int {
    (c: Change) => if Terminating(c) then c.oldArc else 0
  }

  /** Net ARC that lands once the row is approved and applied. */
  function Provision(): Change -> int {
    (c: Change) =>
      if c.changeType == Disconnection then -c.oldArc
      else if c.changeType == RateRevision then 0
      else c.newArc - c.oldArc
  }

  function AtStage(stage: ApprovalStatus): Change -> int {
    (c: Change) => if c.approval == stage then 1 else 0
  }

  function OpeningArc(a: Account): int {
    if a.startOfPeriodArc.Some? then a.startOfPeriodArc.value else a.currentArc
  }

  function Opening(): Account -> int {
    (a: Account) => OpeningArc(a)
  }

  predicate AtRisk(a: Account) {
    a.status == ProbableChurn || a.status == Disconnecting
  }

  predicate Live(a: Account) {
    a.status != Terminated && !AtRisk(a)
  }

  function One(p: Account -> bool): Account -> int {
    (a: Account) => if p(a) then 1 else 0
  }

  function ArcWhere(p: Account -> bool): Account -> int {
    (a: Account) => if p(a) then a.currentArc else 0
  }

  function IsLive(): Account -> bool { (a: Account) => Live(a) }
  function IsAtRisk(): Account -> bool { (a: Account) => AtRisk(a) }
  function IsTerminated(): Account -> bool { (a: Account) => a.status == Terminated }

  /** Accounts whose termination a counted row explains. */
  function ViaTxn(changes: seq<Change>): set<nat> {
    set c | c in changes && Terminating(c) :: c.accountId
  }

  function ImportedTerminated(via: set<nat>): Account -> bool {
    (a: Account) => a.status == Terminated && a.id !in via
  }

  function OpeningWhere(p: Account -> bool): Account -> int {
    (a: Account) => if p(a) then OpeningArc(a) else 0
  }

  function InFlightInCrm(atRisk: set<nat>): Change -> int {
    (c: Change) =>
      if c.appliedAt == None && c.accountId !in atRisk && c.changeType != RateRevision then 1 else 0
  }

  function AtRiskIds(accounts: seq<Account>): set<nat> {
    set a | a in accounts && AtRisk(a) :: a.id
  }

  /** The dashboard figures as sums over the queried rows. */
  function Figures(accounts: seq<Account>, changes: seq<Change>, awaiting: seq<Change>, quarter: bool): Metrics {
    var start := Sum(accounts, Opening());
    var up, down, rate := Sum(changes, Gain(Upgrade)), -Sum(changes, Gain(Downgrade)), -Sum(changes, Gain(RateRevision));
    var txnCount, txnLoss := Sum(changes, TerminationCount()), Sum(changes, TerminationLoss());
    var imported := ImportedTerminated(ViaTxn(changes));
    var churnCount, churn := Sum(accounts, One(IsAtRisk())), Sum(accounts, ArcWhere(IsAtRisk()));
    var loss := if quarter then txnLoss else txnLoss + Sum(accounts, OpeningWhere(imported));
    var current := if quarter then start + (up - down - txnLoss) - churn else Sum(accounts, ArcWhere(IsLive()));
    Metrics(
      |accounts|, start,
      if quarter then |accounts| - txnCount - churnCount else Sum(accounts, One(IsLive())),
      current,
      if quarter then txnCount else Sum(accounts, One(IsTerminated())),
      Sum(changes, OfType(Upgrade)), up,
      Sum(changes, OfType(Downgrade)), down,
      Sum(changes, OfType(RateRevision)), rate,
      if quarter then txnCount else txnCount + Sum(accounts, One(imported)),
      loss,
      churnCount, churn,
      Sum(changes, InFlightInCrm(AtRiskIds(accounts))),
      current - (start + up - down - loss) + churn,
      |awaiting|, Sum(awaiting, Provision()),
      Sum(awaiting, AtStage(PendingSuperAdmin2)), Sum(awaiting, AtStage(PendingSamHead)), Sum(awaiting, AtStage(PendingAccounts)))
  }

  lemma SumStep<T>(s: seq<T>, k: nat, f: T -> int)
    requires k < |s|
    ensures Sum(s[..k + 1], f) == Sum(s[..k], f) + f(s[k])
  {
    assert s[..k + 1] == s[..k] + [s[k]];
    SumSnoc(s[..k], s[k], f);
  }

  // ---- loops -----------------------------------------------------------------

  datatype Buckets = Buckets(
    upgradesCount: int, upgradesArc: int, downgradesCount: int, downgradesArc: int,
    rateRevisionsCount: int, rateRevisionsArc: int, terminationsCount: int, terminationsArc: int,
    disconnectedViaTxn: set<nat>)

  function BucketSums(changes: seq<Change>): Buckets {
    Buckets(
      Sum(changes, OfType(Upgrade)), Sum(changes, Gain(Upgrade)),
      Sum(changes, OfType(Downgrade)), -Sum(changes, Gain(Downgrade)),
      Sum(changes, OfType(RateRevision)), -Sum(changes, Gain(RateRevision)),
      Sum(changes, TerminationCount()), Sum(changes, TerminationLoss()),
      ViaTxn(changes))
  }

  lemma BucketStep(changes: seq<Change>, k: nat)
    requires k < |changes|
    ensures var c, b, b' := changes[k], BucketSums(changes[..k]), BucketSums(changes[..k + 1]);
            b' == match c.changeType
                  case Upgrade => b.(upgradesCount := b.upgradesCount + 1, upgradesArc := b.upgradesArc + (c.newArc - c.oldArc))
                  case Downgrade => b.(downgradesCount := b.downgradesCount + 1, downgradesArc := b.downgradesArc + (c.oldArc - c.newArc))
                  case RateRevision => b.(rateRevisionsCount := b.rateRevisionsCount + 1, rateRevisionsArc := b.rateRevisionsArc + (c.oldArc - c.newArc))
                  case Disconnection =>
                    if c.appliedAt.None? then b
                    else b.(terminationsCount := b.terminationsCount + 1, terminationsArc := b.terminationsArc + c.oldArc,
                            disconnectedViaTxn := b.disconnectedViaTxn + {c.accountId})
  {
    SumStep(changes, k, OfType(Upgrade));
    SumStep(changes, k, Gain(Upgrade));
    SumStep(changes, k, OfType(Downgrade));
    SumStep(changes, k, Gain(Downgrade));
    SumStep(changes, k, OfType(RateRevision));
    SumStep(changes, k, Gain(RateRevision));
    SumStep(changes, k, TerminationCount());
    SumStep(changes, k, TerminationLoss());
    var c := changes[k];
    assert changes[..k + 1] == changes[..k] + [c];
    assert ViaTxn(changes[..k + 1]) == ViaTxn(changes[..k]) + if Terminating(c) then {c.accountId} else {};
  }

  method FillBuckets(changes: seq<Change>) returns (b: Buckets)
    ensures b == BucketSums(changes)
  {
    b := Buckets(0, 0, 0, 0, 0, 0, 0, 0, {});
    var k := 0;
    while k < |changes|
      invariant k <= |changes|
      invariant b == BucketSums(changes[..k])
    {
      var c := changes[k];
      BucketStep(changes, k);
      match c.changeType {
        case Upgrade =>
          b := b.(upgradesCount := b.upgradesCount + 1, upgradesArc := b.upgradesArc + (c.newArc - c.oldArc));
        case Downgrade =>
          b := b.(downgradesCount := b.downgradesCount + 1, downgradesArc := b.downgradesArc + (c.oldArc - c.newArc));
        case RateRevision =>
          b := b.(rateRevisionsCount := b.rateRevisionsCount + 1, rateRevisionsArc := b.rateRevisionsArc + (c.oldArc - c.newArc));
        case Disconnection =>
          if c.appliedAt.Some? {
            b := b.(terminationsCount := b.terminationsCount + 1, terminationsArc := b.terminationsArc + c.oldArc,
                    disconnectedViaTxn := b.disconnectedViaTxn + {c.accountId});
          }
      }
      k := k + 1;
    }
    assert changes[..k] == changes;
  }

  method CountImported(accounts: seq<Account>, via: set<nat>) returns (count: int, arc: int)
    ensures count == Sum(accounts, One(ImportedTerminated(via))) && arc == Sum(accounts, OpeningWhere(ImportedTerminated(via)))
  {
    count, arc := 0, 0;
    var k := 0;
    while k < |accounts|
      invariant k <= |accounts|
      invariant count == Sum(accounts[..k], One(ImportedTerminated(via)))
      invariant arc == Sum(accounts[..k], OpeningWhere(ImportedTerminated(via)))
    {
      var a := accounts[k];
      SumStep(accounts, k, One(ImportedTerminated(via)));
      SumStep(accounts, k, OpeningWhere(ImportedTerminated(via)));
      if a.status == Terminated && a.id !in via {
        count := count + 1;
        arc := arc + if a.startOfPeriodArc.Some? then a.startOfPeriodArc.value else a.currentArc;
      }
      k := k + 1;
    }
    assert accounts[..k] == accounts;
  }

  method SumAwaiting(awaiting: seq<Change>) returns (net: int, superAdmin2: int, samHead: int, accounts: int)
    ensures net == Sum(awaiting, Provision())
    ensures superAdmin2 == Sum(awaiting, AtStage(PendingSuperAdmin2))
    ensures samHead == Sum(awaiting, AtStage(PendingSamHead))
    ensures accounts == Sum(awaiting, AtStage(PendingAccounts))
  {
    net, superAdmin2, samHead, accounts := 0, 0, 0, 0;
    var k := 0;
    while k < |awaiting|
      invariant k <= |awaiting|
      invariant net == Sum(awaiting[..k], Provision())
      invariant superAdmin2 == Sum(awaiting[..k], AtStage(PendingSuperAdmin2))
      invariant samHead == Sum(awaiting[..k], AtStage(PendingSamHead))
      invariant accounts == Sum(awaiting[..k], AtStage(PendingAccounts))
    {
      var c := awaiting[k];
      SumStep(awaiting, k, Provision());
      SumStep(awaiting, k, AtStage(PendingSuperAdmin2));
      SumStep(awaiting, k, AtStage(PendingSamHead));
      SumStep(awaiting, k, AtStage(PendingAccounts));
      if c.changeType == Disconnection {
        net := net - c.oldArc;
      } else if c.changeType != RateRevision {
        net := net + (c.newArc - c.oldArc);
      }
      if c.approval == PendingSuperAdmin2 {
        superAdmin2 := superAdmin2 + 1;
      } else if c.approval == PendingSamHead {
        samHead := samHead + 1;
      } else if c.approval == PendingAccounts {
        accounts := accounts + 1;
      }
      k := k + 1;
    }
    assert awaiting[..k] == awaiting;
  }

  method AddUp(baseAccounts: seq<Account>, changes: seq<Change>, awaiting: seq<Change>, quarter: bool) returns (m: Metrics)
    ensures m == Figures(baseAccounts, changes, awaiting, quarter)
  {
    var b := FillBuckets(changes);
    var importedCount, importedArc := CountImported(baseAccounts, b.disconnectedViaTxn);
    var startArc := Sum(baseAccounts, Opening());
    var churnCount, churnArc := Sum(baseAccounts, One(IsAtRisk())), Sum(baseAccounts, ArcWhere(IsAtRisk()));
    var currentArc, currentCustomers, terminatedCount;
    var terminationsCount, terminationsArc := b.terminationsCount, b.terminationsArc;
    if quarter {
      var netDeltaArc := b.upgradesArc - b.downgradesArc - terminationsArc;
      currentArc := startArc + netDeltaArc - churnArc;
      terminatedCount := terminationsCount;
      currentCustomers := |baseAccounts| - terminationsCount - churnCount;
    } else {
      currentArc := Sum(baseAccounts, ArcWhere(IsLive()));
      currentCustomers := Sum(baseAccounts, One(IsLive()));
      terminatedCount := Sum(baseAccounts, One(IsTerminated()));
      terminationsCount := terminationsCount + importedCount;
      terminationsArc := terminationsArc + importedArc;
    }
    var pendingCount := Sum(changes, InFlightInCrm(AtRiskIds(baseAccounts)));
    var waterfallEndArc := startArc + b.upgradesArc - b.downgradesArc - terminationsArc;
    var pendingNetArc := currentArc - waterfallEndArc + churnArc;
    var net, superAdmin2, samHead, accountsTeam := SumAwaiting(awaiting);
    m := Metrics(
      |baseAccounts|, startArc, currentCustomers, currentArc, terminatedCount,
      b.upgradesCount, b.upgradesArc, b.downgradesCount, b.downgradesArc, b.rateRevisionsCount, b.rateRevisionsArc,
      terminationsCount, terminationsArc, churnCount, churnArc, pendingCount, pendingNetArc,
      |awaiting|, net, superAdmin2, samHead, accountsTeam);
  }

  /** The dashboard for one scope of the tables. */
  function Waterfall(db: Db, scope: Account -> bool, window: Option<Window>): Metrics {
    Figures(Filter(db.accounts, scope), Filter(db.changes, Counted(db.accounts, scope, window)),
            Filter(db.changes, Awaiting(db.accounts, scope)), window.Some?)
  }

  /** Sweeps what is due, then queries and adds up. */
  method ExistingBase(services: Services, requester: UserId, role: Role, samId: Option<UserId>, window: Option<Window>, now: Time, locked: set<nat>)
    returns (m: Metrics)
    requires services.Valid()
    modifies services
    ensures services.Valid() && services.State() == Sweep(old(services.State()), now, locked)
    ensures m == Waterfall(services.State(), Scope(services.users, requester, role, samId), window)
  {
    services.SweepDueTerminations(now, locked);
    var scope := Scope(services.users, requester, role, samId);
    var baseAccounts := Filter(services.accounts, scope);
    var changes := Filter(services.changes, Counted(services.accounts, scope, window));
    var awaiting := Filter(services.changes, Awaiting(services.accounts, scope));
    m := AddUp(baseAccounts, changes, awaiting, window.Some?);
  }
}
