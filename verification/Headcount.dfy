/**
  What the waterfall's figures count: customers and amounts, account by account and row by
  row, in every state a run reaches.
 */
module Headcount {
  import opened Schema
  import opened Sums
  import opened History
  import opened Invariant
  import opened Preservation
  import opened Runs
  import opened Guarantees
  import opened Dashboard
  import opened Reconciliation

  // ---- who is covered --------------------------------------------------------

  /** A SAM sees the SAM's own customers, a head those of the team, everyone else all; a SAM filter narrows that. */
  predicate Covers(users: map<UserId, User>, requester: UserId, role: Role, samId: Option<UserId>, account: Account) {
    && account.kitty == BaseKitty
    && (role == Sam ==> account.samOwner == Some(requester))
    && (role == SamHead ==> HeadOf(users, requester, account.samOwner))
    && (samId.Some? ==> account.samOwner == samId)
  }

  lemma ScopeCovers(users: map<UserId, User>, requester: UserId, role: Role, samId: Option<UserId>, account: Account)
    ensures Scope(users, requester, role, samId)(account) <==> Covers(users, requester, role, samId, account)
  {
  }

  // ---- totals ----------------------------------------------------------------

  /** `f` summed over the covered accounts. */
  ghost function OverAccounts(db: Db, scope: Account -> bool, f: Account -> int): int {
    Sum(db.accounts, Masked(scope, f))
  }

  /** `g` summed over the rows of the covered accounts. */
  ghost function OverRows(db: Db, scope: Account -> bool, g: Change -> int): int {
    Sum(db.changes, Covered(db.accounts, scope, g))
  }

  lemma AccountSum(db: Db, scope: Account -> bool, f: Account -> int, g: Account -> int)
    requires forall a | 0 <= a < |db.accounts| && scope(db.accounts[a]) :: f(db.accounts[a]) == g(db.accounts[a])
    ensures Sum(Filter(db.accounts, scope), f) == OverAccounts(db, scope, g)
  {
    SumFilter(db.accounts, scope, f);
    SumEqual(db.accounts, Masked(scope, f), Masked(scope, g));
  }

  lemma RowSum(db: Db, scope: Account -> bool, p: Change -> bool, f: Change -> int, g: Change -> int)
    requires forall i | 0 <= i < |db.changes| :: Masked(p, f)(db.changes[i]) == Covered(db.accounts, scope, g)(db.changes[i])
    ensures Sum(Filter(db.changes, p), f) == OverRows(db, scope, g)
  {
    SumFilter(db.changes, p, f);
    SumEqual(db.changes, Masked(p, f), Covered(db.accounts, scope, g));
  }

  function Each<T>(): T -> int {
    (x: T) => 1
  }

  lemma {:induction false} LengthIsSum<T>(s: seq<T>)
    ensures |s| == Sum(s, Each())
  {
    if s != [] {
      LengthIsSum(s[..|s| - 1]);
    }
  }

  // ---- on any tables ---------------------------------------------------------

  predicate Endangered(a: Account) {
    a.status == ProbableChurn || a.status == Disconnecting
  }

  function InDanger(): Account -> int {
    (a: Account) => if Endangered(a) then 1 else 0
  }

  function ArcInDanger(): Account -> int {
    (a: Account) => if Endangered(a) then a.currentArc else 0
  }

  function Standing(): Account -> int {
    (a: Account) => if a.status != Terminated && !Endangered(a) then 1 else 0
  }

  function ArcStanding(): Account -> int {
    (a: Account) => if a.status != Terminated && !Endangered(a) then a.currentArc else 0
  }

  function EndedAccounts(): Account -> int {
    (a: Account) => if a.status == Terminated then 1 else 0
  }

  /** Churn goes by status in every view, and so do the All-Time figures of customers. */
  lemma CustomersByStatus(db: Db, scope: Account -> bool, window: Option<Window>)
    ensures var m := Waterfall(db, scope, window);
            && m.churnCount == OverAccounts(db, scope, InDanger())
            && m.churnArc == OverAccounts(db, scope, ArcInDanger())
            && (window == None ==>
                  && m.currentCustomers == OverAccounts(db, scope, Standing())
                  && m.currentArc == OverAccounts(db, scope, ArcStanding())
                  && m.terminatedCount == OverAccounts(db, scope, EndedAccounts()))
  {
    AccountSum(db, scope, One(IsAtRisk()), InDanger());
    AccountSum(db, scope, ArcWhere(IsAtRisk()), ArcInDanger());
    AccountSum(db, scope, One(IsLive()), Standing());
    AccountSum(db, scope, ArcWhere(IsLive()), ArcStanding());
    AccountSum(db, scope, One(IsTerminated()), EndedAccounts());
  }

  /** Not yet applied, on an account not in danger, and not a rate revision. */
  function Unsettled(accounts: seq<Account>, window: Option<Window>): Change -> int {
    (c: Change) =>
      if RealIn(window, c) && c.appliedAt == None && c.changeType != RateRevision
         && c.accountId < |accounts| && !Endangered(accounts[c.accountId])
      then 1 else 0
  }

  /** The pending count, on any tables, and the residual that closes the waterfall. */
  lemma PendingByRow(db: Db, scope: Account -> bool, window: Option<Window>)
    requires Keyed(db)
    ensures var m := Waterfall(db, scope, window);
            && m.pendingCount == OverRows(db, scope, Unsettled(db.accounts, window))
            && m.startArc + m.upgradesArc - m.downgradesArc - m.terminationsArc + m.pendingNetArc == m.currentArc + m.churnArc
  {
    var f := InFlightInCrm(AtRiskIds(Filter(db.accounts, scope)));
    forall i | 0 <= i < |db.changes|
      ensures Masked(Counted(db.accounts, scope, window), f)(db.changes[i])
           == Covered(db.accounts, scope, Unsettled(db.accounts, window))(db.changes[i])
    {
      CountedMeans(db, scope, window, db.changes[i]);
      if scope(db.accounts[db.changes[i].accountId]) {
        AtRiskIdsAre(db.accounts, scope, db.changes[i].accountId);
      }
    }
    RowSum(db, scope, Counted(db.accounts, scope, window), f, Unsettled(db.accounts, window));
  }

  // ---- customers on their way out --------------------------------------------

  /** An approved disconnection that has been neither retained nor carried out. */
  predicate Leaving(c: Change) {
    c.approval == Approved && c.changeType == Disconnection && c.retention != Some(Retain) && c.appliedAt == None
  }

  function LeavingCount(): Change -> int {
    (c: Change) => if Leaving(c) then 1 else 0
  }

  function LeavingArc(): Change -> int {
    (c: Change) => if Leaving(c) then c.oldArc else 0
  }

  ghost predicate HasLeaving(db: Db, a: nat) {
    exists i :: OfAccount(db, i, a) && Leaving(db.changes[i])
  }

  lemma LeavingIsHeld(db: Db, a: nat)
    requires a < |db.accounts| && OneAtATime(db, a)
    ensures HasLeaving(db, a) <==> db.accounts[a].status == ProbableChurn || db.accounts[a].status == Disconnecting
    ensures forall i | OfAccount(db, i, a) && Leaving(db.changes[i]) :: InFlight(db.changes[i])
  {
    if i :| OfAccount(db, i, a) && Leaving(db.changes[i]) {
      if db.changes[i].retention == None {
        assert AwaitsRetention(db.changes[i]);
      } else {
        assert db.changes[i].retention.value == Retain || db.changes[i].retention.value == Proceed;
        assert AwaitsTermination(db.changes[i]);
      }
    }
    if i :| OfAccount(db, i, a) && AwaitsRetention(db.changes[i]) {
      assert Leaving(db.changes[i]);
    }
    if i :| OfAccount(db, i, a) && AwaitsTermination(db.changes[i]) {
      assert Leaving(db.changes[i]);
    }
  }

  /** An account at risk has one leaving row, which holds its ARC; others have none. */
  lemma LeavingTotals(db: Db, a: nat)
    requires Inv(db) && a < |db.accounts| && db.accounts[a].kitty == BaseKitty
    ensures Sum(db.changes, Of(a, LeavingCount())) == One(IsAtRisk())(db.accounts[a])
    ensures Sum(db.changes, Of(a, LeavingArc())) == ArcWhere(IsAtRisk())(db.accounts[a])
  {
    StatusTells(db, a);
    LeavingIsHeld(db, a);
    if HasLeaving(db, a) {
      var k :| OfAccount(db, k, a) && Leaving(db.changes[k]);
      assert forall i | OfAccount(db, i, a) && Leaving(db.changes[i]) :: i == k;
      OneLeaving(db, a, k);
    } else {
      NoneLeaving(db, a);
    }
  }

  lemma OneLeaving(db: Db, a: nat, k: nat)
    requires OfAccount(db, k, a) && Leaving(db.changes[k])
    requires forall i | OfAccount(db, i, a) && Leaving(db.changes[i]) :: i == k
    ensures Sum(db.changes, Of(a, LeavingCount())) == 1
    ensures Sum(db.changes, Of(a, LeavingArc())) == db.changes[k].oldArc
  {
    forall i | 0 <= i < |db.changes| && i != k
      ensures Of(a, LeavingCount())(db.changes[i]) == 0 && Of(a, LeavingArc())(db.changes[i]) == 0
    {
      assert OfAccount(db, i, a) ==> !Leaving(db.changes[i]);
    }
    SumOfOne(db.changes, Of(a, LeavingCount()), k);
    SumOfOne(db.changes, Of(a, LeavingArc()), k);
  }

  lemma NoneLeaving(db: Db, a: nat)
    requires !HasLeaving(db, a)
    ensures Sum(db.changes, Of(a, LeavingCount())) == 0
    ensures Sum(db.changes, Of(a, LeavingArc())) == 0
  {
    forall i | 0 <= i < |db.changes|
      ensures Of(a, LeavingCount())(db.changes[i]) == 0 && Of(a, LeavingArc())(db.changes[i]) == 0
    {
      assert OfAccount(db, i, a) ==> !Leaving(db.changes[i]);
    }
    SumZero(db.changes, Of(a, LeavingCount()));
    SumZero(db.changes, Of(a, LeavingArc()));
  }

  /** Churn figures count the leaving rows of the covered accounts and the ARC they would take away. */
  lemma LeavingOf(db: Db, scope: Account -> bool, window: Option<Window>)
    requires Inv(db) && BaseScope(db.accounts, scope)
    ensures Waterfall(db, scope, window).churnCount == OverRows(db, scope, LeavingCount())
    ensures Waterfall(db, scope, window).churnArc == OverRows(db, scope, LeavingArc())
  {
    forall a | 0 <= a < |db.accounts| && scope(db.accounts[a])
      ensures One(IsAtRisk())(db.accounts[a]) == TotalOf(db.changes, LeavingCount())(db.accounts[a])
      ensures ArcWhere(IsAtRisk())(db.accounts[a]) == TotalOf(db.changes, LeavingArc())(db.accounts[a])
    {
      LeavingTotals(db, a);
    }
    AccountSum(db, scope, One(IsAtRisk()), TotalOf(db.changes, LeavingCount()));
    AccountSum(db, scope, ArcWhere(IsAtRisk()), TotalOf(db.changes, LeavingArc()));
    ByAccountOrByRow(db.accounts, scope, db.changes, LeavingCount());
    ByAccountOrByRow(db.accounts, scope, db.changes, LeavingArc());
  }

  // ---- customers now ---------------------------------------------------------

  ghost function Staying(db: Db): Account -> int {
    (a: Account) => if a.status != Terminated && !HasLeaving(db, a.id) then 1 else 0
  }

  ghost function StayingArc(db: Db): Account -> int {
    (a: Account) => if a.status != Terminated && !HasLeaving(db, a.id) then a.currentArc else 0
  }

  /** The All-Time figures count the covered customers that are neither terminated nor leaving, and the terminated. */
  lemma CustomersOf(db: Db, scope: Account -> bool)
    requires Inv(db) && BaseScope(db.accounts, scope)
    ensures Waterfall(db, scope, None).currentCustomers == OverAccounts(db, scope, Staying(db))
    ensures Waterfall(db, scope, None).currentArc == OverAccounts(db, scope, StayingArc(db))
    ensures Waterfall(db, scope, None).terminatedCount == OverAccounts(db, scope, EndedAccounts())
  {
    forall a | 0 <= a < |db.accounts| && scope(db.accounts[a])
      ensures One(IsLive())(db.accounts[a]) == Staying(db)(db.accounts[a])
      ensures ArcWhere(IsLive())(db.accounts[a]) == StayingArc(db)(db.accounts[a])
    {
      StatusTells(db, a);
      LeavingIsHeld(db, a);
    }
    AccountSum(db, scope, One(IsLive()), Staying(db));
    AccountSum(db, scope, ArcWhere(IsLive()), StayingArc(db));
    AccountSum(db, scope, One(IsTerminated()), EndedAccounts());
  }

  // ---- opening figures -------------------------------------------------------

  function OpeningValue(): Account -> int {
    (a: Account) => if a.startOfPeriodArc.Some? then a.startOfPeriodArc.value else a.currentArc
  }

  lemma OpeningOf(db: Db, scope: Account -> bool, window: Option<Window>)
    ensures Waterfall(db, scope, window).totalCustomers == OverAccounts(db, scope, Each())
    ensures Waterfall(db, scope, window).startArc == OverAccounts(db, scope, OpeningValue())
  {
    LengthIsSum(Filter(db.accounts, scope));
    AccountSum(db, scope, Each(), Each());
    AccountSum(db, scope, Opening(), OpeningValue());
  }

  // ---- changes by type ------------------------------------------------------

  /** Approved or in need of no approval, and effective in the window if there is one. */
  predicate RealIn(window: Option<Window>, c: Change) {
    && (c.approval == Approved || c.approval == NotRequired)
    && (window.Some? ==> window.value.start <= c.effectiveDate <= window.value.end)
  }

  function CountOf(t: ChangeType, window: Option<Window>): Change -> int {
    (c: Change) => if RealIn(window, c) && c.changeType == t then 1 else 0
  }

  /** What the rows of type `t` add to ARC. */
  function RiseOf(t: ChangeType, window: Option<Window>): Change -> int {
    (c: Change) => if RealIn(window, c) && c.changeType == t then c.newArc - c.oldArc else 0
  }

  /** What they take from it. */
  function FallOf(t: ChangeType, window: Option<Window>): Change -> int {
    (c: Change) => if RealIn(window, c) && c.changeType == t then c.oldArc - c.newArc else 0
  }

  predicate CarriedOut(window: Option<Window>, c: Change) {
    RealIn(window, c) && c.changeType == Disconnection && c.appliedAt.Some?
  }

  function EndedCount(window: Option<Window>): Change -> int {
    (c: Change) => if CarriedOut(window, c) then 1 else 0
  }

  function EndedArc(window: Option<Window>): Change -> int {
    (c: Change) => if CarriedOut(window, c) then c.oldArc else 0
  }

  lemma CountedMeans(db: Db, scope: Account -> bool, window: Option<Window>, c: Change)
    requires c.accountId < |db.accounts|
    ensures Counted(db.accounts, scope, window)(c) <==> scope(db.accounts[c.accountId]) && RealIn(window, c)
  {
  }

  /** A term of the counted rows. */
  lemma CountedSum(db: Db, scope: Account -> bool, window: Option<Window>, f: Change -> int, g: Change -> int)
    requires Keyed(db)
    requires forall c :: g(c) == if RealIn(window, c) then f(c) else 0
    ensures Sum(Filter(db.changes, Counted(db.accounts, scope, window)), f) == OverRows(db, scope, g)
  {
    forall i | 0 <= i < |db.changes|
      ensures Masked(Counted(db.accounts, scope, window), f)(db.changes[i]) == Covered(db.accounts, scope, g)(db.changes[i])
    {
      CountedMeans(db, scope, window, db.changes[i]);
    }
    RowSum(db, scope, Counted(db.accounts, scope, window), f, g);
  }

  lemma CountsOf(db: Db, scope: Account -> bool, window: Option<Window>, t: ChangeType)
    requires Keyed(db)
    ensures Sum(Filter(db.changes, Counted(db.accounts, scope, window)), OfType(t)) == OverRows(db, scope, CountOf(t, window))
  {
    CountedSum(db, scope, window, OfType(t), CountOf(t, window));
  }

  lemma RisesOf(db: Db, scope: Account -> bool, window: Option<Window>, t: ChangeType)
    requires Keyed(db)
    ensures Sum(Filter(db.changes, Counted(db.accounts, scope, window)), Gain(t)) == OverRows(db, scope, RiseOf(t, window))
  {
    CountedSum(db, scope, window, Gain(t), RiseOf(t, window));
  }

  function Negated(f: Change -> int): Change -> int {
    (c: Change) => -f(c)
  }

  lemma {:induction false} NegatedSum(s: seq<Change>, f: Change -> int)
    ensures Sum(s, Negated(f)) == -Sum(s, f)
  {
    if s != [] {
      NegatedSum(s[..|s| - 1], f);
    }
  }

  lemma FallsOf(db: Db, scope: Account -> bool, window: Option<Window>, t: ChangeType)
    requires Keyed(db)
    ensures -Sum(Filter(db.changes, Counted(db.accounts, scope, window)), Gain(t)) == OverRows(db, scope, FallOf(t, window))
  {
    NegatedSum(Filter(db.changes, Counted(db.accounts, scope, window)), Gain(t));
    CountedSum(db, scope, window, Negated(Gain(t)), FallOf(t, window));
  }

  /**
    On any tables the buckets count and add up by type the changes of the window that are neither
    pending nor rejected; downgrades and rate revisions are shown as what they take away.
   */
  lemma BucketsOf(db: Db, scope: Account -> bool, window: Option<Window>)
    requires Keyed(db)
    ensures var m := Waterfall(db, scope, window);
            && m.upgradesCount == OverRows(db, scope, CountOf(Upgrade, window))
            && m.upgradesArc == OverRows(db, scope, RiseOf(Upgrade, window))
            && m.downgradesCount == OverRows(db, scope, CountOf(Downgrade, window))
            && m.downgradesArc == OverRows(db, scope, FallOf(Downgrade, window))
            && m.rateRevisionsCount == OverRows(db, scope, CountOf(RateRevision, window))
            && m.rateRevisionsArc == OverRows(db, scope, FallOf(RateRevision, window))
  {
    CountsOf(db, scope, window, Upgrade);
    RisesOf(db, scope, window, Upgrade);
    CountsOf(db, scope, window, Downgrade);
    FallsOf(db, scope, window, Downgrade);
    CountsOf(db, scope, window, RateRevision);
    FallsOf(db, scope, window, RateRevision);
  }

  lemma EndedSums(db: Db, scope: Account -> bool, window: Option<Window>)
    requires Keyed(db)
    ensures var counted := Filter(db.changes, Counted(db.accounts, scope, window));
            && Sum(counted, TerminationCount()) == OverRows(db, scope, EndedCount(window))
            && Sum(counted, TerminationLoss()) == OverRows(db, scope, EndedArc(window))
  {
    CountedSum(db, scope, window, TerminationCount(), EndedCount(window));
    CountedSum(db, scope, window, TerminationLoss(), EndedArc(window));
  }

  // ---- a chosen quarter ------------------------------------------------------

  /**
    In a quarter, terminations are the disconnections effective in it that were carried out, and
    the current figures are the opening ones less those and the leaving, with the quarter's
    upgrades and downgrades; the residual is 0.
   */
  lemma QuarterOf(db: Db, scope: Account -> bool, q: Window)
    requires Inv(db) && BaseScope(db.accounts, scope)
    ensures var m := Waterfall(db, scope, Some(q));
            && m.terminatedCount == OverRows(db, scope, EndedCount(Some(q)))
            && m.terminationsCount == OverRows(db, scope, EndedCount(Some(q)))
            && m.terminationsArc == OverRows(db, scope, EndedArc(Some(q)))
            && m.currentCustomers == OverAccounts(db, scope, Each()) - OverRows(db, scope, EndedCount(Some(q)))
                                     - OverRows(db, scope, LeavingCount())
            && m.currentArc == OverAccounts(db, scope, OpeningValue())
                               + OverRows(db, scope, RiseOf(Upgrade, Some(q))) + OverRows(db, scope, RiseOf(Downgrade, Some(q)))
                               - OverRows(db, scope, EndedArc(Some(q))) - OverRows(db, scope, LeavingArc())
            && m.pendingNetArc == 0
  {
    OpeningOf(db, scope, Some(q));
    EndedSums(db, scope, Some(q));
    LeavingOf(db, scope, Some(q));
    RisesOf(db, scope, Some(q), Upgrade);
    RisesOf(db, scope, Some(q), Downgrade);
  }

  // ---- terminations, All-Time ------------------------------------------------

  /** Opening ARC of a terminated account that never had a change. */
  ghost function CameInEnded(db: Db): Account -> int {
    (a: Account) => if a.status == Terminated && NoRows(db, a.id) then OpeningValue()(a) else 0
  }

  /** Account `a` was terminated by one applied disconnection. */
  ghost predicate EndedByRow(db: Db, via: set<nat>, a: nat)
    requires a < |db.accounts|
  {
    && Sum(db.changes, Of(a, EndedCount(None))) == 1 && a in via && !NoRows(db, a) && db.accounts[a].status == Terminated
  }

  /** It came in terminated, or is not terminated. */
  ghost predicate EndedByNone(db: Db, via: set<nat>, a: nat)
    requires a < |db.accounts|
  {
    && Sum(db.changes, Of(a, EndedCount(None))) == 0 && a !in via && (db.accounts[a].status == Terminated ==> NoRows(db, a))
  }

  lemma EndedEitherWay(db: Db, scope: Account -> bool, a: nat)
    requires Inv(db) && a < |db.accounts| && scope(db.accounts[a]) && db.accounts[a].kitty == BaseKitty
    ensures var via := ViaTxn(Filter(db.changes, Counted(db.accounts, scope, None)));
            EndedByRow(db, via, a) || EndedByNone(db, via, a)
  {
    if HasAppliedDisconnection(db, a) {
      var k :| 0 <= k < |db.changes| && db.changes[k].accountId == a && AppliedDisconnection(db.changes[k]);
      InvEndsOnce(db, a);
      assert OfAccount(db, k, a);
      AppliedIsCounted(db, scope, a, k);
      OneEnded(db, a, k);
    } else {
      TerminatedWithout(db, a);
      NoneEnded(db, scope, a);
    }
  }

  lemma TerminatedWithout(db: Db, a: nat)
    requires Inv(db) && a < |db.accounts| && db.accounts[a].kitty == BaseKitty && !HasAppliedDisconnection(db, a)
    ensures db.accounts[a].status == Terminated ==> NoRows(db, a)
  {
    assert AccountInPlace(db, a);
  }

  /** The row count and the imported count of account `a` make up whether it is terminated. */
  lemma EndedTotals(db: Db, via: set<nat>, a: nat)
    requires a < |db.accounts| && db.accounts[a].id == a
    requires EndedByRow(db, via, a) || EndedByNone(db, via, a)
    ensures TotalOf(db.changes, EndedCount(None))(db.accounts[a]) + One(ImportedTerminated(via))(db.accounts[a])
         == EndedAccounts()(db.accounts[a])
    ensures OpeningWhere(ImportedTerminated(via))(db.accounts[a]) == CameInEnded(db)(db.accounts[a])
  {
    var x := db.accounts[a];
    assert NoRows(db, x.id) == NoRows(db, a);
    assert CameInEnded(db)(x) == if x.status == Terminated && NoRows(db, x.id) then OpeningValue()(x) else 0;
  }

  lemma OneEnded(db: Db, a: nat, k: nat)
    requires Inv(db) && a < |db.accounts| && db.accounts[a].kitty == BaseKitty && EndsOnce(db, a)
    requires OfAccount(db, k, a) && AppliedDisconnection(db.changes[k])
    ensures Sum(db.changes, Of(a, EndedCount(None))) == 1
  {
    assert BaseRow(db, k) && Shape(db.changes[k]);
    forall i | 0 <= i < |db.changes| && i != k
      ensures Of(a, EndedCount(None))(db.changes[i]) == 0
    {
      assert OfAccount(db, i, a) ==> !AppliedDisconnection(db.changes[i]);
    }
    SumOfOne(db.changes, Of(a, EndedCount(None)), k);
  }

  lemma NoneEnded(db: Db, scope: Account -> bool, a: nat)
    requires !HasAppliedDisconnection(db, a)
    ensures Sum(db.changes, Of(a, EndedCount(None))) == 0
    ensures a !in ViaTxn(Filter(db.changes, Counted(db.accounts, scope, None)))
  {
    SumZero(db.changes, Of(a, EndedCount(None)));
  }

  /** What `EndedTotals` says of one account, masked by the scope. */
  lemma EndedTerms(db: Db, scope: Account -> bool, a: nat)
    requires Inv(db) && BaseScope(db.accounts, scope) && a < |db.accounts|
    ensures var imported := ImportedTerminated(ViaTxn(Filter(db.changes, Counted(db.accounts, scope, None))));
            && Masked(scope, EndedAccounts())(db.accounts[a])
                 == Masked(scope, TotalOf(db.changes, EndedCount(None)))(db.accounts[a]) + Masked(scope, One(imported))(db.accounts[a])
            && (scope(db.accounts[a]) ==> OpeningWhere(imported)(db.accounts[a]) == CameInEnded(db)(db.accounts[a]))
  {
    if scope(db.accounts[a]) {
      EndedEitherWay(db, scope, a);
      EndedTotals(db, ViaTxn(Filter(db.changes, Counted(db.accounts, scope, None))), a);
    }
  }

  lemma EndedSplit(db: Db, scope: Account -> bool)
    requires Inv(db) && BaseScope(db.accounts, scope)
    ensures var imported := ImportedTerminated(ViaTxn(Filter(db.changes, Counted(db.accounts, scope, None))));
            && OverAccounts(db, scope, EndedAccounts())
                 == OverAccounts(db, scope, TotalOf(db.changes, EndedCount(None))) + OverAccounts(db, scope, One(imported))
            && OverAccounts(db, scope, OpeningWhere(imported)) == OverAccounts(db, scope, CameInEnded(db))
  {
    var imported := ImportedTerminated(ViaTxn(Filter(db.changes, Counted(db.accounts, scope, None))));
    forall a | 0 <= a < |db.accounts|
      ensures Masked(scope, EndedAccounts())(db.accounts[a])
           == Masked(scope, TotalOf(db.changes, EndedCount(None)))(db.accounts[a]) + Masked(scope, One(imported))(db.accounts[a])
      ensures Masked(scope, OpeningWhere(imported))(db.accounts[a]) == Masked(scope, CameInEnded(db))(db.accounts[a])
    {
      EndedTerms(db, scope, a);
    }
    SumPointwise(db.accounts, Masked(scope, EndedAccounts()), db.accounts, Masked(scope, TotalOf(db.changes, EndedCount(None))),
                 db.accounts, Masked(scope, One(imported)));
    SumEqual(db.accounts, Masked(scope, OpeningWhere(imported)), Masked(scope, CameInEnded(db)));
  }

  /** All-Time, terminations are the terminated customers, with what they took or came in with. */
  lemma TerminationsOf(db: Db, scope: Account -> bool)
    requires Inv(db) && BaseScope(db.accounts, scope)
    ensures Waterfall(db, scope, None).terminationsCount == OverAccounts(db, scope, EndedAccounts())
    ensures Waterfall(db, scope, None).terminationsArc == OverRows(db, scope, EndedArc(None)) + OverAccounts(db, scope, CameInEnded(db))
  {
    var imported := ImportedTerminated(ViaTxn(Filter(db.changes, Counted(db.accounts, scope, None))));
    EndedSums(db, scope, None);
    ByAccountOrByRow(db.accounts, scope, db.changes, EndedCount(None));
    EndedSplit(db, scope);
    SumFilter(db.accounts, scope, One(imported));
    SumFilter(db.accounts, scope, OpeningWhere(imported));
  }

  // ---- awaiting approval -----------------------------------------------------

  predicate Waiting(c: Change) {
    c.approval == PendingSamHead || c.approval == PendingAccounts || c.approval == PendingSuperAdmin2
  }

  function WaitingCount(): Change -> int {
    (c: Change) => if Waiting(c) then 1 else 0
  }

  /** What a waiting change would do to ARC: lose the old, or gain the difference; nothing for a rate revision. */
  function WaitingArc(): Change -> int {
    (c: Change) =>
      if !Waiting(c) then 0
      else match c.changeType
           case Upgrade => c.newArc - c.oldArc
           case Downgrade => c.newArc - c.oldArc
           case RateRevision => 0
           case Disconnection => -c.oldArc
  }

  function WaitingAt(stage: ApprovalStatus): Change -> int {
    (c: Change) => if c.approval == stage then 1 else 0
  }

  /** The provision counts and adds up the covered changes that await approval, at each stage. */
  lemma ProvisionOf(db: Db, scope: Account -> bool, window: Option<Window>)
    requires Keyed(db)
    ensures var m := Waterfall(db, scope, window);
            && m.approvalCount == OverRows(db, scope, WaitingCount())
            && m.approvalNetArc == OverRows(db, scope, WaitingArc())
            && m.awaitingSamHead == OverRows(db, scope, WaitingAt(PendingSamHead))
            && m.awaitingAccounts == OverRows(db, scope, WaitingAt(PendingAccounts))
            && m.awaitingSuperAdmin2 == OverRows(db, scope, WaitingAt(PendingSuperAdmin2))
  {
    var awaits := Awaiting(db.accounts, scope);
    LengthIsSum(Filter(db.changes, awaits));
    RowSum(db, scope, awaits, Each(), WaitingCount());
    RowSum(db, scope, awaits, Provision(), WaitingArc());
    RowSum(db, scope, awaits, AtStage(PendingSamHead), WaitingAt(PendingSamHead));
    RowSum(db, scope, awaits, AtStage(PendingAccounts), WaitingAt(PendingAccounts));
    RowSum(db, scope, awaits, AtStage(PendingSuperAdmin2), WaitingAt(PendingSuperAdmin2));
  }

  // ---- over runs -------------------------------------------------------------

  /** Opening ARC as it was imported. */
  function ImportedArc(accounts: seq<Account>): Account -> int {
    (a: Account) => if a.id < |accounts| then accounts[a.id].currentArc else 0
  }

  /**
    After any run from a fresh import, once the dashboard has swept: churn is the leaving
    disconnections of the covered accounts, the current figures are the covered customers neither
    terminated nor leaving, and terminations are the terminated ones.
   */
  lemma AllTimeFigures(w: World, actions: seq<Action>, locked: set<nat>, requester: UserId, role: Role, samId: Option<UserId>)
    requires FromImport(w, actions)
    ensures var db := Swept(Run(w, actions), locked).db;
            var scope := Scope(db.users, requester, role, samId);
            var m := Waterfall(db, scope, None);
            && m.churnCount == OverRows(db, scope, LeavingCount())
            && m.churnArc == OverRows(db, scope, LeavingArc())
            && m.currentCustomers == OverAccounts(db, scope, Staying(db))
            && m.currentArc == OverAccounts(db, scope, StayingArc(db))
            && m.terminatedCount == OverAccounts(db, scope, EndedAccounts())
            && m.terminationsCount == OverAccounts(db, scope, EndedAccounts())
            && m.terminationsArc == OverRows(db, scope, EndedArc(None)) + OverAccounts(db, scope, CameInEnded(db))
  {
    Reached(w, actions);
    SweptIsGood(Run(w, actions), locked);
    var db := Swept(Run(w, actions), locked).db;
    var scope := Scope(db.users, requester, role, samId);
    LeavingOf(db, scope, None);
    CustomersOf(db, scope);
    TerminationsOf(db, scope);
  }

  /** Likewise for a quarter. */
  lemma QuarterFigures(w: World, actions: seq<Action>, locked: set<nat>, requester: UserId, role: Role, samId: Option<UserId>, q: Window)
    requires FromImport(w, actions)
    ensures var db := Swept(Run(w, actions), locked).db;
            var scope := Scope(db.users, requester, role, samId);
            var m := Waterfall(db, scope, Some(q));
            && m.churnCount == OverRows(db, scope, LeavingCount())
            && m.churnArc == OverRows(db, scope, LeavingArc())
            && m.terminatedCount == m.terminationsCount == OverRows(db, scope, EndedCount(Some(q)))
            && m.terminationsArc == OverRows(db, scope, EndedArc(Some(q)))
            && m.currentCustomers == OverAccounts(db, scope, Each()) - m.terminationsCount - m.churnCount
            && m.currentArc == OverAccounts(db, scope, ImportedArc(w.db.accounts))
                               + OverRows(db, scope, RiseOf(Upgrade, Some(q))) + OverRows(db, scope, RiseOf(Downgrade, Some(q)))
                               - m.terminationsArc - m.churnArc
            && m.pendingNetArc == 0
  {
    Reached(w, actions);
    SweptIsGood(Run(w, actions), locked);
    var db := Swept(Run(w, actions), locked).db;
    var scope := Scope(db.users, requester, role, samId);
    LeavingOf(db, scope, Some(q));
    QuarterOf(db, scope, q);
    StartIsImported(w, actions, locked, scope);
  }

  lemma StartIsImported(w: World, actions: seq<Action>, locked: set<nat>, scope: Account -> bool)
    requires FromImport(w, actions)
    requires BaseScope(Swept(Run(w, actions), locked).db.accounts, scope)
    ensures var db := Swept(Run(w, actions), locked).db;
            OverAccounts(db, scope, OpeningValue()) == OverAccounts(db, scope, ImportedArc(w.db.accounts))
  {
    Reached(w, actions);
    SweptIsGood(Run(w, actions), locked);
    var mid, db := Run(w, actions).db, Swept(Run(w, actions), locked).db;
    forall a | 0 <= a < |db.accounts|
      ensures Masked(scope, OpeningValue())(db.accounts[a]) == Masked(scope, ImportedArc(w.db.accounts))(db.accounts[a])
    {
      if scope(db.accounts[a]) {
        assert SameIdentity(w.db.accounts[a], mid.accounts[a]) && SameIdentity(mid.accounts[a], db.accounts[a]);
      }
    }
    SumEqual(db.accounts, Masked(scope, OpeningValue()), Masked(scope, ImportedArc(w.db.accounts)));
  }

  /** The opening figures and the buckets, for every window, and what awaits approval. */
  lemma OtherFigures(w: World, actions: seq<Action>, locked: set<nat>, requester: UserId, role: Role, samId: Option<UserId>, window: Option<Window>)
    requires FromImport(w, actions)
    ensures var db := Swept(Run(w, actions), locked).db;
            var scope := Scope(db.users, requester, role, samId);
            var m := Waterfall(db, scope, window);
            && m.totalCustomers == OverAccounts(db, scope, Each())
            && m.startArc == OverAccounts(db, scope, ImportedArc(w.db.accounts))
            && m.upgradesCount == OverRows(db, scope, CountOf(Upgrade, window))
            && m.upgradesArc == OverRows(db, scope, RiseOf(Upgrade, window))
            && m.downgradesCount == OverRows(db, scope, CountOf(Downgrade, window))
            && m.downgradesArc == OverRows(db, scope, FallOf(Downgrade, window))
            && m.rateRevisionsCount == OverRows(db, scope, CountOf(RateRevision, window))
            && m.rateRevisionsArc == OverRows(db, scope, FallOf(RateRevision, window))
            && m.approvalCount == OverRows(db, scope, WaitingCount())
            && m.approvalNetArc == OverRows(db, scope, WaitingArc())
            && m.awaitingSamHead == OverRows(db, scope, WaitingAt(PendingSamHead))
            && m.awaitingAccounts == OverRows(db, scope, WaitingAt(PendingAccounts))
            && m.awaitingSuperAdmin2 == OverRows(db, scope, WaitingAt(PendingSuperAdmin2))
  {
    Reached(w, actions);
    SweptIsGood(Run(w, actions), locked);
    var db := Swept(Run(w, actions), locked).db;
    var scope := Scope(db.users, requester, role, samId);
    OpeningOf(db, scope, window);
    StartIsImported(w, actions, locked, scope);
    BucketsOf(db, scope, window);
    ProvisionOf(db, scope, window);
  }
}
