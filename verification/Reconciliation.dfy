/**
  The waterfall accounts for every rupee: in any reachable state and for any scope, the
  All-Time residual is exactly what rate revisions moved.
 */
module Reconciliation {
  import opened Schema
  import opened Dates
  import opened Sums
  import opened Lifecycle
  import opened Invariant
  import opened Runs
  import opened Dashboard
  import RetentionCall

  /** Scopes the dashboard can ask for cover existing-base accounts only. */
  ghost predicate BaseScope(accounts: seq<Account>, scope: Account -> bool) {
    forall a | 0 <= a < |accounts| && scope(accounts[a]) :: accounts[a].kitty == BaseKitty
  }

  // ---- summing over accounts or over rows ------------------------------------

  /** `g` on the rows of account `a`. */
  function Of(a: nat, g: Change -> int): Change -> int {
    (c: Change) => if c.accountId == a then g(c) else 0
  }

  function TotalOf(changes: seq<Change>, g: Change -> int): Account -> int {
    (a: Account) => Sum(changes, Of(a.id, g))
  }

  function TermOf(c: Change, g: Change -> int): Account -> int {
    (a: Account) => Of(a.id, g)(c)
  }

  /** `g` on the rows of the covered accounts. */
  function Covered(accounts: seq<Account>, scope: Account -> bool, g: Change -> int): Change -> int {
    (c: Change) => if c.accountId < |accounts| && scope(accounts[c.accountId]) then g(c) else 0
  }

  lemma {:induction false} OneAccountPays(accounts: seq<Account>, scope: Account -> bool, c: Change, g: Change -> int)
    requires forall a | 0 <= a < |accounts| :: accounts[a].id == a
    ensures Sum(accounts, Masked(scope, TermOf(c, g))) == Covered(accounts, scope, g)(c)
  {
    if accounts != [] {
      var n := |accounts| - 1;
      OneAccountPays(accounts[..n], scope, c, g);
      var f := Masked(scope, TermOf(c, g));
      assert Sum(accounts, f) == Sum(accounts[..n], f) + f(accounts[n]);
      assert f(accounts[n]) == if scope(accounts[n]) then Of(n, g)(c) else 0;
      if c.accountId < n {
        assert accounts[..n][c.accountId] == accounts[c.accountId];
      }
    }
  }

  /** Summing the rows account by account, or all at once. */
  lemma {:induction false} ByAccountOrByRow(accounts: seq<Account>, scope: Account -> bool, changes: seq<Change>, g: Change -> int)
    requires forall a | 0 <= a < |accounts| :: accounts[a].id == a
    ensures Sum(accounts, Masked(scope, TotalOf(changes, g))) == Sum(changes, Covered(accounts, scope, g))
  {
    if changes == [] {
      SumZero(accounts, Masked(scope, TotalOf(changes, g)));
    } else {
      var n := |changes| - 1;
      ByAccountOrByRow(accounts, scope, changes[..n], g);
      OneAccountPays(accounts, scope, changes[n], g);
      SumPointwise(accounts, Masked(scope, TotalOf(changes, g)), accounts, Masked(scope, TotalOf(changes[..n], g)),
                   accounts, Masked(scope, TermOf(changes[n], g)));
    }
  }

  /** What row `c` has done to its account's ARC. */
  function Landing(): Change -> int {
    (c: Change) => if c.appliedAt.Some? then Delta(c) else 0
  }

  function NetOf(changes: seq<Change>): Account -> int {
    (a: Account) => Sum(changes, Contribution(a.id))
  }

  function AppliedDelta(accounts: seq<Account>, scope: Account -> bool): Change -> int {
    Covered(accounts, scope, Landing())
  }

  lemma NetsByRow(accounts: seq<Account>, scope: Account -> bool, changes: seq<Change>)
    requires forall a | 0 <= a < |accounts| :: accounts[a].id == a
    ensures Sum(accounts, Masked(scope, NetOf(changes))) == Sum(changes, AppliedDelta(accounts, scope))
  {
    ByAccountOrByRow(accounts, scope, changes, Landing());
    forall a | 0 <= a < |accounts|
      ensures Masked(scope, NetOf(changes))(accounts[a]) == Masked(scope, TotalOf(changes, Landing()))(accounts[a])
    {
      SumEqual(changes, Contribution(a), Of(a, Landing()));
    }
    SumEqual(accounts, Masked(scope, NetOf(changes)), Masked(scope, TotalOf(changes, Landing())));
  }

  // ---- one account's share ---------------------------------------------------

  /** What the account adds to live ARC, at-risk ARC and imported terminations, less its opening ARC. */
  function Share(imported: Account -> bool): Account -> int {
    (a: Account) =>
      (if Live(a) then a.currentArc else 0) + (if AtRisk(a) then a.currentArc else 0)
      + (if imported(a) then OpeningArc(a) else 0) - OpeningArc(a)
  }

  lemma AppliedIsCounted(db: Db, scope: Account -> bool, a: nat, k: nat)
    requires Inv(db) && a < |db.accounts| && scope(db.accounts[a]) && db.accounts[a].kitty == BaseKitty
    requires k < |db.changes| && db.changes[k].accountId == a && AppliedDisconnection(db.changes[k])
    ensures db.accounts[a].currentArc == 0 && a in ViaTxn(Filter(db.changes, Counted(db.accounts, scope, None)))
  {
    assert BaseRow(db, k) && Shape(db.changes[k]) && RowInPlace(db, k);
    assert db.changes[k] in db.changes && Counted(db.accounts, scope, None)(db.changes[k]);
    assert db.changes[k] in Filter(db.changes, Counted(db.accounts, scope, None));
  }

  /** A terminated account is explained by a counted row, or by having no rows at all. */
  lemma TerminatedIsExplained(db: Db, scope: Account -> bool, a: nat)
    requires Inv(db) && a < |db.accounts| && scope(db.accounts[a]) && db.accounts[a].kitty == BaseKitty
    requires db.accounts[a].status == Terminated
    ensures var via := ViaTxn(Filter(db.changes, Counted(db.accounts, scope, None)));
              if a in via then db.accounts[a].currentArc == 0 else Sum(db.changes, Contribution(a)) == 0
  {
    var counted := Filter(db.changes, Counted(db.accounts, scope, None));
    assert AccountInPlace(db, a);
    if HasAppliedDisconnection(db, a) {
      var k :| 0 <= k < |db.changes| && db.changes[k].accountId == a && AppliedDisconnection(db.changes[k]);
      AppliedIsCounted(db, scope, a, k);
    } else {
      SumZero(db.changes, Contribution(a));
      assert a !in ViaTxn(counted);
    }
  }

  lemma ShareIsNet(db: Db, scope: Account -> bool, a: nat)
    requires Inv(db) && a < |db.accounts| && scope(db.accounts[a]) && db.accounts[a].kitty == BaseKitty
    ensures var via := ViaTxn(Filter(db.changes, Counted(db.accounts, scope, None)));
            Share(ImportedTerminated(via))(db.accounts[a]) == NetOf(db.changes)(db.accounts[a])
  {
    assert BalancedAccount(db, a) && AccountInPlace(db, a);
    if db.accounts[a].status == Terminated {
      TerminatedIsExplained(db, scope, a);
    }
  }

  lemma SharesAreNets(db: Db, scope: Account -> bool)
    requires Inv(db) && BaseScope(db.accounts, scope)
    ensures var via := ViaTxn(Filter(db.changes, Counted(db.accounts, scope, None)));
            Sum(Filter(db.accounts, scope), Share(ImportedTerminated(via))) == Sum(db.changes, AppliedDelta(db.accounts, scope))
  {
    var via := ViaTxn(Filter(db.changes, Counted(db.accounts, scope, None)));
    var share := Share(ImportedTerminated(via));
    SumFilter(db.accounts, scope, share);
    forall a | 0 <= a < |db.accounts|
      ensures Masked(scope, share)(db.accounts[a]) == Masked(scope, NetOf(db.changes))(db.accounts[a])
    {
      if scope(db.accounts[a]) {
        ShareIsNet(db, scope, a);
      }
    }
    SumEqual(db.accounts, Masked(scope, share), Masked(scope, NetOf(db.changes)));
    NetsByRow(db.accounts, scope, db.changes);
  }

  /** The four account sums of the dashboard make up the shares. */
  lemma {:induction false} SharesAddUp(accounts: seq<Account>, imported: Account -> bool)
    ensures Sum(accounts, Share(imported))
         == Sum(accounts, ArcWhere(IsLive())) + Sum(accounts, ArcWhere(IsAtRisk()))
            + Sum(accounts, OpeningWhere(imported)) - Sum(accounts, Opening())
  {
    if accounts != [] {
      SharesAddUp(accounts[..|accounts| - 1], imported);
    }
  }

  // ---- the buckets -----------------------------------------------------------

  /** What a counted row adds to the buckets and the rate-revision row. */
  function Bucketed(): Change -> int {
    (c: Change) =>
      if c.changeType == Disconnection then (if c.appliedAt.Some? then -c.oldArc else 0) else c.newArc - c.oldArc
  }

  lemma {:induction false} BucketsAddUp(changes: seq<Change>)
    ensures Sum(changes, Bucketed())
         == Sum(changes, Gain(Upgrade)) + Sum(changes, Gain(Downgrade)) + Sum(changes, Gain(RateRevision))
            - Sum(changes, TerminationLoss())
  {
    if changes != [] {
      BucketsAddUp(changes[..|changes| - 1]);
    }
  }

  lemma CountedRow(db: Db, scope: Account -> bool, i: nat)
    requires Inv(db) && BaseScope(db.accounts, scope) && i < |db.changes|
    ensures Masked(Counted(db.accounts, scope, None), Bucketed())(db.changes[i]) == AppliedDelta(db.accounts, scope)(db.changes[i])
  {
    if scope(db.accounts[db.changes[i].accountId]) {
      assert BaseRow(db, i) && Shape(db.changes[i]);
    }
  }

  lemma CountedRows(db: Db, scope: Account -> bool)
    requires Inv(db) && BaseScope(db.accounts, scope)
    ensures Sum(Filter(db.changes, Counted(db.accounts, scope, None)), Bucketed()) == Sum(db.changes, AppliedDelta(db.accounts, scope))
  {
    var counted := Counted(db.accounts, scope, None);
    SumFilter(db.changes, counted, Bucketed());
    forall i | 0 <= i < |db.changes|
      ensures Masked(counted, Bucketed())(db.changes[i]) == AppliedDelta(db.accounts, scope)(db.changes[i])
    {
      CountedRow(db, scope, i);
    }
    SumEqual(db.changes, Masked(counted, Bucketed()), AppliedDelta(db.accounts, scope));
  }

  // ---- the theorem -----------------------------------------------------------

  lemma ResidualOf(db: Db, scope: Account -> bool)
    requires Inv(db) && BaseScope(db.accounts, scope)
    ensures Waterfall(db, scope, None).pendingNetArc == -Waterfall(db, scope, None).rateRevisionsArc
  {
    var accounts := Filter(db.accounts, scope);
    var changes := Filter(db.changes, Counted(db.accounts, scope, None));
    SharesAreNets(db, scope);
    SharesAddUp(accounts, ImportedTerminated(ViaTxn(changes)));
    CountedRows(db, scope);
    BucketsAddUp(changes);
  }

  /** Rate revisions on the tables keep ARC. */
  ghost predicate NeutralRevisions(changes: seq<Change>) {
    forall i | 0 <= i < |changes| && changes[i].changeType == RateRevision :: changes[i].newArc == changes[i].oldArc
  }

  lemma NeutralRow(db: Db, scope: Account -> bool)
    requires NeutralRevisions(db.changes)
    ensures Waterfall(db, scope, None).rateRevisionsArc == 0
  {
    var counted := Filter(db.changes, Counted(db.accounts, scope, None));
    forall k | 0 <= k < |counted|
      ensures Gain(RateRevision)(counted[k]) == 0
    {
      assert counted[k] in counted;
      var i :| 0 <= i < |db.changes| && db.changes[i] == counted[k];
    }
    SumZero(counted, Gain(RateRevision));
  }

  /**
    In every state a run reaches, once the dashboard has swept it and whatever rows that sweep
    skips, for every requester and SAM filter, the All-Time residual is minus the rate-revision
    row; it is 0 when no rate revision moved ARC.
   */
  lemma ResidualIsRateRevisions(w: World, actions: seq<Action>, locked: set<nat>, requester: UserId, role: Role, samId: Option<UserId>)
    requires FromImport(w, actions)
    ensures var db := Swept(Run(w, actions), locked).db;
            var m := Waterfall(db, Scope(db.users, requester, role, samId), None);
            && m.pendingNetArc == -m.rateRevisionsArc
            && (NeutralRevisions(db.changes) ==> m.pendingNetArc == 0)
  {
    Reached(w, actions);
    SweptIsGood(Run(w, actions), locked);
    var db := Swept(Run(w, actions), locked).db;
    var scope := Scope(db.users, requester, role, samId);
    ResidualOf(db, scope);
    if NeutralRevisions(db.changes) {
      NeutralRow(db, scope);
    }
  }

  /** Every covered customer is live, at risk or terminated, and the counts say so. */
  lemma {:induction false} CustomersPartition(accounts: seq<Account>)
    ensures |accounts| == Sum(accounts, One(IsLive())) + Sum(accounts, One(IsAtRisk())) + Sum(accounts, One(IsTerminated()))
  {
    if accounts != [] {
      CustomersPartition(accounts[..|accounts| - 1]);
    }
  }

  // ---- the pending count -----------------------------------------------------

  /** A retained disconnection dated in the window, of a covered account that is not on its way out again. */
  function RetainedRows(accounts: seq<Account>, scope: Account -> bool, window: Option<Window>): Change -> int {
    (c: Change) =>
      if c.accountId < |accounts| && scope(accounts[c.accountId])
         && accounts[c.accountId].status != ProbableChurn && accounts[c.accountId].status != Disconnecting
         && c.approval == Approved && c.changeType == Disconnection && c.retention == Some(Retain)
         && (window.Some? ==> window.value.start <= c.effectiveDate <= window.value.end)
      then 1 else 0
  }

  lemma AtRiskIdsAre(accounts: seq<Account>, scope: Account -> bool, a: nat)
    requires a < |accounts| && scope(accounts[a])
    requires forall b | 0 <= b < |accounts| :: accounts[b].id == b
    ensures a in AtRiskIds(Filter(accounts, scope)) <==> AtRisk(accounts[a])
  {
    var covered := Filter(accounts, scope);
    assert accounts[a] in accounts && accounts[a] in covered;
    if a in AtRiskIds(covered) {
      var x :| x in covered && AtRisk(x) && x.id == a;
      assert x in accounts;
      var b :| 0 <= b < |accounts| && accounts[b] == x;
    }
  }

  /** An approved row that is neither applied nor held against its account is a retained disconnection. */
  lemma UnsettledIsRetained(c: Change, status: ContractStatus)
    requires Shape(c) && (InFlight(c) ==> status == HeldStatus(c))
    requires status != ProbableChurn && status != Disconnecting
    ensures Real(c.approval) && c.appliedAt == None && c.changeType != RateRevision <==>
              c.approval == Approved && c.changeType == Disconnection && c.retention == Some(Retain)
  {
    if c.retention.Some? {
      assert c.retention.value == Retain || c.retention.value == Proceed;
    }
  }

  lemma PendingTerm(db: Db, scope: Account -> bool, c: Change)
    requires Keyed(db) && c.accountId < |db.accounts| && scope(db.accounts[c.accountId])
    ensures InFlightInCrm(AtRiskIds(Filter(db.accounts, scope)))(c)
         == if c.appliedAt == None && c.changeType != RateRevision && !AtRisk(db.accounts[c.accountId]) then 1 else 0
  {
    AtRiskIdsAre(db.accounts, scope, c.accountId);
  }

  lemma RetainedTerm(db: Db, scope: Account -> bool, window: Option<Window>, i: nat)
    requires Inv(db) && BaseScope(db.accounts, scope) && i < |db.changes| && scope(db.accounts[db.changes[i].accountId])
    ensures var c := db.changes[i];
            RetainedRows(db.accounts, scope, window)(c)
              == if Real(c.approval) && InWindow(window, c.effectiveDate) && c.appliedAt == None && c.changeType != RateRevision
                    && !AtRisk(db.accounts[c.accountId]) then 1 else 0
  {
    var c := db.changes[i];
    var status := db.accounts[c.accountId].status;
    assert BaseRow(db, i);
    if status != ProbableChurn && status != Disconnecting {
      HeldRow(db, i);
      UnsettledIsRetained(c, status);
    }
  }

  lemma PendingRow(db: Db, scope: Account -> bool, window: Option<Window>, i: nat)
    requires Inv(db) && BaseScope(db.accounts, scope) && i < |db.changes|
    ensures Masked(Counted(db.accounts, scope, window), InFlightInCrm(AtRiskIds(Filter(db.accounts, scope))))(db.changes[i])
         == RetainedRows(db.accounts, scope, window)(db.changes[i])
  {
    if scope(db.accounts[db.changes[i].accountId]) {
      PendingTerm(db, scope, db.changes[i]);
      RetainedTerm(db, scope, window, i);
    }
  }

  lemma HeldRow(db: Db, i: nat)
    requires Inv(db) && i < |db.changes| && BaseRow(db, i)
    ensures Shape(db.changes[i])
    ensures InFlight(db.changes[i]) ==> db.accounts[db.changes[i].accountId].status == HeldStatus(db.changes[i])
  {
    assert RowInPlace(db, i);
  }

  lemma PendingCountOf(db: Db, scope: Account -> bool, window: Option<Window>)
    requires Inv(db) && BaseScope(db.accounts, scope)
    ensures Waterfall(db, scope, window).pendingCount == Sum(db.changes, RetainedRows(db.accounts, scope, window))
  {
    var counted, term := Counted(db.accounts, scope, window), InFlightInCrm(AtRiskIds(Filter(db.accounts, scope)));
    SumFilter(db.changes, counted, term);
    forall i | 0 <= i < |db.changes|
      ensures Masked(counted, term)(db.changes[i]) == RetainedRows(db.accounts, scope, window)(db.changes[i])
    {
      PendingRow(db, scope, window, i);
    }
    SumEqual(db.changes, Masked(counted, term), RetainedRows(db.accounts, scope, window));
  }

  /**
    The count of changes "in CRM workflow" counts, on the swept existing base, exactly the
    disconnections whose customers were retained; none of them is in any workflow.
   */
  lemma PendingCountIsRetained(w: World, actions: seq<Action>, locked: set<nat>, requester: UserId, role: Role, samId: Option<UserId>, window: Option<Window>)
    requires FromImport(w, actions)
    ensures var db := Swept(Run(w, actions), locked).db;
            var scope := Scope(db.users, requester, role, samId);
            Waterfall(db, scope, window).pendingCount == Sum(db.changes, RetainedRows(db.accounts, scope, window))
  {
    Reached(w, actions);
    SweptIsGood(Run(w, actions), locked);
    var db := Swept(Run(w, actions), locked).db;
    PendingCountOf(db, Scope(db.users, requester, role, samId), window);
  }

  // ---- a concrete run --------------------------------------------------------

  const USERS: map<UserId, User> := map[7 := User(Sam, None), 8 := User(AccountsTeam, None), 9 := User(SuperAdmin2, None)]
  const START: World := World(Db(USERS, [RetentionCall.ACCOUNT], [], []), 0, false, [])

  /** A disconnection is raised, signed off at both of its stages, and the customer is then retained. */
  const RETAINED: seq<Action> := [
    CommitCall(RetentionCall.LEAVE),
    DecideCall(0, Approve(None), 8, AccountsTeam),
    DecideCall(0, Approve(Some(true)), 9, SuperAdmin2),
    RetentionCall(0, Retain, 7)]

  lemma FourSteps(w: World, a: Action, b: Action, c: Action, d: Action)
    requires Sound(w)
    ensures Run(w, [a, b, c, d]) == Step(Step(Step(Step(w, a), b), c), d)
    ensures (&& Permitted(w, a)
             && Permitted(Step(w, a), b)
             && Permitted(Step(Step(w, a), b), c)
             && Permitted(Step(Step(Step(w, a), b), c), d))
            ==> Legal(w, [a, b, c, d])
  {
    assert [a, b, c, d][..3] == [a, b, c] && [a, b, c][..2] == [a, b] && [a, b][..1] == [a] && [a][..0] == [];
    assert Run(w, [a]) == Step(w, a);
    assert Run(w, [a, b]) == Step(Step(w, a), b);
    assert Legal(w, []) && Run(w, []) == w;
    assert Legal(w, [a]) <==> Permitted(w, a);
    assert Legal(w, [a, b]) <==> Legal(w, [a]) && Permitted(Step(w, a), b);
  }

  /** The world of the run once its one change has the given standing. */
  ghost predicate Stands(w: World, approval: ApprovalStatus, retention: Option<Retention>, status: ContractStatus) {
    && Sound(w) && w.db.users == USERS && |w.db.accounts| == 1 && |w.db.changes| == 1
    && w.db.accounts[0].kitty == BaseKitty && w.db.accounts[0].status == status
    && var c := w.db.changes[0];
       c.accountId == 0 && c.changeType == Disconnection && c.mode == Some(Normal) && c.approval == approval && c.retention == retention
  }

  lemma StartStands()
    ensures Sound(START) && Fresh(START.db)
    ensures Stands(Step(START, RETAINED[0]), PendingAccounts, None, PendingApproval)
  {
  }

  lemma AccountsSign(w: World)
    requires Stands(w, PendingAccounts, None, PendingApproval)
    ensures Permitted(w, RETAINED[1]) && Stands(Step(w, RETAINED[1]), PendingSuperAdmin2, None, PendingApproval)
  {
  }

  lemma SuperAdminSigns(w: World)
    requires Stands(w, PendingSuperAdmin2, None, PendingApproval)
    ensures Permitted(w, RETAINED[2]) && Stands(Step(w, RETAINED[2]), Approved, None, ProbableChurn)
  {
  }

  lemma CustomerStays(w: World)
    requires Stands(w, Approved, None, ProbableChurn)
    ensures Permitted(w, RETAINED[3]) && Stands(Step(w, RETAINED[3]), Approved, Some(Retain), Active)
  {
  }

  lemma RetainedTables()
    ensures Sound(START) && FromImport(START, RETAINED)
    ensures Stands(Run(START, RETAINED), Approved, Some(Retain), Active)
  {
    StartStands();
    var w1 := Step(START, RETAINED[0]);
    AccountsSign(w1);
    SuperAdminSigns(Step(w1, RETAINED[1]));
    CustomerStays(Step(Step(w1, RETAINED[1]), RETAINED[2]));
    FourSteps(START, RETAINED[0], RETAINED[1], RETAINED[2], RETAINED[3]);
    assert RETAINED == [RETAINED[0], RETAINED[1], RETAINED[2], RETAINED[3]];
  }

  lemma NothingDue(w: World, locked: set<nat>)
    requires Stands(w, Approved, Some(Retain), Active)
    ensures Swept(w, locked).db == w.db
  {
    var ids := DueIds(w.db.changes, StartOfDay(w.now), locked);
    assert forall i :: i !in ids;
    EmptyOrNot(ids);
  }

  lemma EmptyOrNot(ids: seq<nat>)
    ensures ids == [] || exists i :: i in ids
  {
    if ids != [] {
      assert ids[0] in ids;
    }
  }

  lemma OneRetained(w: World, requester: UserId)
    requires Stands(w, Approved, Some(Retain), Active)
    ensures Sum(w.db.changes, RetainedRows(w.db.accounts, Scope(w.db.users, requester, Admin, None), None)) == 1
  {
    var f := RetainedRows(w.db.accounts, Scope(w.db.users, requester, Admin, None), None);
    assert w.db.changes == [] + [w.db.changes[0]];
    SumSnoc([], w.db.changes[0], f);
  }

  lemma StillCounts(w: World, locked: set<nat>, requester: UserId)
    requires Stands(w, Approved, Some(Retain), Active) && Inv(w.db)
    ensures var db := Swept(w, locked).db;
              && (forall i | 0 <= i < |db.changes| :: !InFlight(db.changes[i]))
              && Waterfall(db, Scope(db.users, requester, Admin, None), None).pendingCount == 1
  {
    NothingDue(w, locked);
    OneRetained(w, requester);
    PendingCountOf(w.db, Scope(w.db.users, requester, Admin, None), None);
  }

  /** Nothing is in flight any more, in the CRM or anywhere else, and the dashboard still counts one change pending. */
  lemma RetainedStillCounts(requester: UserId, locked: set<nat>)
    ensures Sound(START) && FromImport(START, RETAINED)
    ensures var db := Swept(Run(START, RETAINED), locked).db;
              && (forall i | 0 <= i < |db.changes| :: !InFlight(db.changes[i]))
              && Waterfall(db, Scope(db.users, requester, Admin, None), None).pendingCount == 1
  {
    RetainedTables();
    Reached(START, RETAINED);
    StillCounts(Run(START, RETAINED), locked, requester);
  }
}
