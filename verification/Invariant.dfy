/**
  What holds of the existing-base (BASE) accounts and their changes between any two
  service calls.
 */
module Invariant {
  import opened Schema
  import opened Dates
  import opened Sums
  import opened Lifecycle
  import opened History

  // ---- rows ------------------------------------------------------------------

  predicate AppliedDisconnection(c: Change) {
    c.changeType == Disconnection && c.appliedAt.Some?
  }

  /** Still on its way: awaiting approval, or an approved disconnection neither retained nor applied. */
  predicate InFlight(c: Change) {
    || IsPendingStage(c.approval)
    || (c.approval == Approved && c.changeType == Disconnection && c.retention != Some(Retain) && c.appliedAt == None)
  }

  /** The status an account shows while `c` is in flight. */
  function HeldStatus(c: Change): ContractStatus {
    if IsPendingStage(c.approval) then PendingApproval
    else if c.retention == None then ProbableChurn
    else Disconnecting
  }

  predicate Held(status: ContractStatus) {
    status == PendingApproval || status == ProbableChurn || status == Disconnecting
  }

  predicate Undecided(c: Change) {
    && c.appliedAt == None && c.retention == None
    && c.retentionPromptDueAt == None && c.scheduledTerminationAt == None && c.approvedAt == None
  }

  /** Day bounds a normal disconnection obeys from its approval on. */
  predicate NormalTimes(c: Change)
    requires c.approvedAt.Some?
  {
    && c.retentionPromptDueAt == Some(StartOfDay(c.approvedAt.value) + PROBABLE_CHURN_WINDOW_DAYS * DAY)
    && (c.retention == Some(Proceed) ==>
          && c.retentionDecidedAt.Some?
          && StartOfDay(c.retentionDecidedAt.value) >= c.retentionPromptDueAt.value
          && c.scheduledTerminationAt == Some(StartOfDay(c.retentionDecidedAt.value) + DISCONNECTION_NOTICE_DAYS * DAY))
  }

  predicate QuickTimes(c: Change)
    requires c.approvedAt.Some?
  {
    && c.retention == Some(Proceed)
    && c.quickDays.Some? && 0 <= c.quickDays.value <= QUICK_DISCONNECT_MAX_DAYS
    && c.scheduledTerminationAt == Some(StartOfDay(c.approvedAt.value) + c.quickDays.value * DAY)
  }

  predicate ApprovedShape(c: Change) {
    && c.approvedAt.Some?
    && (c.changeType != Disconnection ==> c.appliedAt == c.approvedAt && c.retention == None)
    && (c.changeType == Disconnection ==>
          && (if c.mode == Some(Quick) then QuickTimes(c) else NormalTimes(c))
          && (c.appliedAt.Some? ==>
                && c.retention == Some(Proceed)
                && c.scheduledTerminationAt.Some?
                && StartOfDay(c.appliedAt.value) >= c.scheduledTerminationAt.value))
  }

  predicate Shape(c: Change) {
    && c.approval != NotRequired
    && (c.changeType == Disconnection <==> c.mode.Some?)
    && (c.mode == Some(Quick) ==> c.quickDays.Some? && 0 <= c.quickDays.value <= QUICK_DISCONNECT_MAX_DAYS)
    && (c.approval == PendingSamHead ==> c.mode == Some(Quick))
    && (c.approval == PendingSuperAdmin2 ==> c.changeType == Disconnection)
    && (c.approval != Approved ==> Undecided(c))
    && (c.approval == Approved ==> ApprovedShape(c))
  }

  // ---- tables ----------------------------------------------------------------

  /** No later row belongs to the account of row `i`. */
  ghost predicate Last(changes: seq<Change>, i: nat)
    requires i < |changes|
  {
    forall j | i < j < |changes| :: changes[j].accountId != changes[i].accountId
  }

  /** New-base rows never enter the approval chain. */
  ghost predicate Shapes(db: Db)
    requires Keyed(db)
  {
    forall i | 0 <= i < |db.changes| ::
      if BaseRow(db, i) then Shape(db.changes[i]) else db.changes[i].approval == NotRequired
  }

  ghost predicate Mirrors(account: Account, c: Change) {
    account.status == HeldStatus(c) && account.currentArc == c.oldArc
  }

  ghost predicate HasInFlight(db: Db, a: nat) {
    exists i :: 0 <= i < |db.changes| && db.changes[i].accountId == a && InFlight(db.changes[i])
  }

  ghost predicate HasAppliedDisconnection(db: Db, a: nat) {
    exists i :: 0 <= i < |db.changes| && db.changes[i].accountId == a && AppliedDisconnection(db.changes[i])
  }

  ghost predicate NoRows(db: Db, a: nat) {
    forall i | 0 <= i < |db.changes| :: db.changes[i].accountId != a
  }

  /** An in-flight row or an applied disconnection is its account's last row, and the account shows it. */
  ghost predicate RowInPlace(db: Db, j: nat)
    requires Keyed(db) && j < |db.changes|
  {
    var account := db.accounts[db.changes[j].accountId];
    && (InFlight(db.changes[j]) ==> Last(db.changes, j) && Mirrors(account, db.changes[j]))
    && (AppliedDisconnection(db.changes[j]) ==> Last(db.changes, j) && account.status == Terminated && account.currentArc == 0)
  }

  /** A held account has a row to show for it; a terminated one ended with a disconnection or came in terminated. */
  ghost predicate AccountInPlace(db: Db, b: nat)
    requires b < |db.accounts|
  {
    && db.accounts[b].status != PendingQuickApproval
    && (Held(db.accounts[b].status) ==> HasInFlight(db, b))
    && (db.accounts[b].status == Terminated ==> HasAppliedDisconnection(db, b) || NoRows(db, b))
  }

  /** One change at a time per account, and the account's status shows which kind. */
  ghost predicate Serial(db: Db)
    requires Keyed(db)
  {
    && (forall i | 0 <= i < |db.changes| && BaseRow(db, i) :: RowInPlace(db, i))
    && (forall a | 0 <= a < |db.accounts| && db.accounts[a].kitty == BaseKitty :: AccountInPlace(db, a))
  }

  /** What applying `c` does to its account's ARC. */
  function Delta(c: Change): int {
    if c.changeType == Disconnection then -c.oldArc else c.newArc - c.oldArc
  }

  function Contribution(a: nat): Change -> int {
    (c: Change) => if c.accountId == a && c.appliedAt.Some? then Delta(c) else 0
  }

  ghost predicate BalancedAccount(db: Db, a: nat)
    requires a < |db.accounts|
  {
    && db.accounts[a].startOfPeriodArc.Some?
    && db.accounts[a].currentArc == db.accounts[a].startOfPeriodArc.value + Sum(db.changes, Contribution(a))
  }

  /** Every rupee between the opening ARC and the live ARC is an applied change. */
  ghost predicate Balanced(db: Db) {
    forall a | 0 <= a < |db.accounts| && db.accounts[a].kitty == BaseKitty :: BalancedAccount(db, a)
  }

  ghost predicate Told(db: Db, i: nat)
    requires Keyed(db) && i < |db.changes|
  {
    var past := Replay(db.audit, i);
    past.Some? && Tells(db.users, db.accounts[db.changes[i].accountId].samOwner, db.changes[i], past.value)
  }

  ghost predicate Recorded(db: Db)
    requires Keyed(db)
  {
    forall i | 0 <= i < |db.changes| && BaseRow(db, i) :: Told(db, i)
  }

  ghost predicate Inv(db: Db) {
    Keyed(db) && Shapes(db) && Serial(db) && Balanced(db) && Recorded(db)
  }

  // ---- initial tables --------------------------------------------------------

  /** A fresh import: no changes yet, opening ARC equal to live ARC. */
  ghost predicate Fresh(db: Db) {
    && Keyed(db)
    && db.changes == [] && db.audit == []
    && forall a | 0 <= a < |db.accounts| && db.accounts[a].kitty == BaseKitty ::
         && db.accounts[a].startOfPeriodArc == Some(db.accounts[a].currentArc)
         && db.accounts[a].status in {Active, Expired, Terminated, Pending}
  }

  lemma FreshInv(db: Db)
    requires Fresh(db)
    ensures Inv(db)
  {
  }

  // ---- replacing one row of an existing-base account -------------------------

  /** `c'` is row `c` further along; `account'` the account after that. */
  ghost predicate RowStep(c: Change, c': Change, account: Account, account': Account) {
    && c'.accountId == c.accountId && c'.changeType == c.changeType
    && c'.oldArc == c.oldArc && c'.newArc == c.newArc && c'.mode == c.mode
    && Shape(c')
    && account'.id == account.id && account'.kitty == account.kitty
    && account'.samOwner == account.samOwner && account'.startOfPeriodArc == account.startOfPeriodArc
    && (if InFlight(c') then Mirrors(account', c')
        else if AppliedDisconnection(c') then account'.status == Terminated && account'.currentArc == 0
        else account'.status == Active)
    && account'.currentArc - account.currentArc == Contribution(c.accountId)(c') - Contribution(c.accountId)(c)
  }

  function Replaced(db: Db, i: nat, c': Change, account': Account, audit': seq<Entry>): Db
    requires i < |db.changes| && c'.accountId < |db.accounts|
  {
    db.(changes := db.changes[i := c'], accounts := db.accounts[c'.accountId := account'], audit := audit')
  }

  ghost predicate SameStories(db: Db, audit': seq<Entry>, i: nat) {
    forall j | 0 <= j < |db.changes| && j != i :: Replay(audit', j) == Replay(db.audit, j)
  }

  lemma ReplaceKeepsRow(db: Db, i: nat, c': Change, account': Account, audit': seq<Entry>, j: nat)
    requires Keyed(db) && i < |db.changes| && InFlight(db.changes[i])
    requires j < |db.changes| && RowInPlace(db, i) && RowInPlace(db, j)
    requires RowStep(db.changes[i], c', db.accounts[db.changes[i].accountId], account')
    requires Keyed(Replaced(db, i, c', account', audit'))
    ensures RowInPlace(Replaced(db, i, c', account', audit'), j)
  {
  }

  lemma ReplaceKeepsSerial(db: Db, i: nat, c': Change, account': Account, audit': seq<Entry>)
    requires Inv(db) && i < |db.changes| && BaseRow(db, i) && InFlight(db.changes[i])
    requires RowStep(db.changes[i], c', db.accounts[db.changes[i].accountId], account')
    requires Keyed(Replaced(db, i, c', account', audit'))
    ensures Serial(Replaced(db, i, c', account', audit'))
  {
    var db' := Replaced(db, i, c', account', audit');
    forall j | 0 <= j < |db'.changes| && BaseRow(db', j)
      ensures RowInPlace(db', j)
    {
      assert BaseRow(db, j) && RowInPlace(db, i) && RowInPlace(db, j);
      ReplaceKeepsRow(db, i, c', account', audit', j);
    }
    forall b | 0 <= b < |db'.accounts| && db'.accounts[b].kitty == BaseKitty
      ensures AccountInPlace(db', b)
    {
      if b == c'.accountId {
        assert db'.changes[i] == c';
      } else {
        assert AccountInPlace(db, b);
        Elsewhere(db, i, c', account', audit', b);
      }
    }
  }

  lemma Elsewhere(db: Db, i: nat, c': Change, account': Account, audit': seq<Entry>, b: nat)
    requires i < |db.changes| && c'.accountId < |db.accounts| && c'.accountId == db.changes[i].accountId
    requires b < |db.accounts| && b != c'.accountId
    ensures HasInFlight(db, b) ==> HasInFlight(Replaced(db, i, c', account', audit'), b)
    ensures HasAppliedDisconnection(db, b) ==> HasAppliedDisconnection(Replaced(db, i, c', account', audit'), b)
    ensures NoRows(db, b) ==> NoRows(Replaced(db, i, c', account', audit'), b)
  {
    var db' := Replaced(db, i, c', account', audit');
    if HasInFlight(db, b) {
      var k :| 0 <= k < |db.changes| && db.changes[k].accountId == b && InFlight(db.changes[k]);
      assert db'.changes[k] == db.changes[k];
    }
    if HasAppliedDisconnection(db, b) {
      var k :| 0 <= k < |db.changes| && db.changes[k].accountId == b && AppliedDisconnection(db.changes[k]);
      assert db'.changes[k] == db.changes[k];
    }
  }

  lemma ReplaceKeepsBalance(db: Db, i: nat, c': Change, account': Account, audit': seq<Entry>)
    requires Inv(db) && i < |db.changes| && BaseRow(db, i)
    requires RowStep(db.changes[i], c', db.accounts[db.changes[i].accountId], account')
    ensures Balanced(Replaced(db, i, c', account', audit'))
  {
    var db' := Replaced(db, i, c', account', audit');
    forall b | 0 <= b < |db'.accounts| && db'.accounts[b].kitty == BaseKitty
      ensures BalancedAccount(db', b)
    {
      assert BalancedAccount(db, b);
      SumUpdate(db.changes, i, c', Contribution(b));
    }
  }

  /** Moving an in-flight row along, with its account and its story, keeps everything. */
  lemma ReplaceKeeps(db: Db, i: nat, c': Change, account': Account, audit': seq<Entry>)
    requires Inv(db) && i < |db.changes| && BaseRow(db, i) && InFlight(db.changes[i])
    requires RowStep(db.changes[i], c', db.accounts[db.changes[i].accountId], account')
    requires Keyed(Replaced(db, i, c', account', audit'))
    requires SameStories(db, audit', i)
    requires Told(Replaced(db, i, c', account', audit'), i)
    ensures Inv(Replaced(db, i, c', account', audit'))
  {
    var db' := Replaced(db, i, c', account', audit');
    ReplaceKeepsSerial(db, i, c', account', audit');
    ReplaceKeepsBalance(db, i, c', account', audit');
    forall j | 0 <= j < |db'.changes|
      ensures if BaseRow(db', j) then Shape(db'.changes[j]) && Told(db', j) else db'.changes[j].approval == NotRequired
    {
      assert BaseRow(db, j) == BaseRow(db', j);
      assert BaseRow(db, j) ==> Told(db, j);
    }
  }

  // ---- appending a row to an existing-base account ---------------------------

  function Appended(db: Db, c: Change, audit': seq<Entry>): Db
    requires c.accountId < |db.accounts|
  {
    db.(changes := db.changes + [c],
        accounts := db.accounts[c.accountId := db.accounts[c.accountId].(status := PendingApproval)],
        audit := audit')
  }

  /** A new row that may enter the approval chain: its account has nothing in flight. */
  ghost predicate Admissible(db: Db, c: Change) {
    && c.accountId < |db.accounts|
    && db.accounts[c.accountId].kitty == BaseKitty
    && db.accounts[c.accountId].status in {Active, Expired, Pending}
    && IsPendingStage(c.approval) && Shape(c) && c.oldArc == db.accounts[c.accountId].currentArc
  }

  lemma AppendKeepsRows(db: Db, c: Change, audit': seq<Entry>, j: nat)
    requires Inv(db) && Admissible(db, c)
    requires Keyed(Appended(db, c, audit'))
    requires j < |db.changes| && BaseRow(db, j)
    ensures RowInPlace(Appended(db, c, audit'), j)
  {
    assert RowInPlace(db, j);
  }

  lemma AppendKeepsAccounts(db: Db, c: Change, audit': seq<Entry>, b: nat)
    requires Admissible(db, c)
    requires b < |db.accounts| && AccountInPlace(db, b)
    ensures AccountInPlace(Appended(db, c, audit'), b)
  {
    var db' := Appended(db, c, audit');
    var n := |db.changes|;
    assert db'.changes[n] == c;
    if b != c.accountId {
      if HasInFlight(db, b) {
        var k :| 0 <= k < n && db.changes[k].accountId == b && InFlight(db.changes[k]);
        assert db'.changes[k] == db.changes[k];
      }
      if HasAppliedDisconnection(db, b) {
        var k :| 0 <= k < n && db.changes[k].accountId == b && AppliedDisconnection(db.changes[k]);
        assert db'.changes[k] == db.changes[k];
      }
    }
  }

  lemma AppendKeepsBalance(db: Db, c: Change, audit': seq<Entry>)
    requires Balanced(db) && c.accountId < |db.accounts| && c.appliedAt == None
    ensures Balanced(Appended(db, c, audit'))
  {
    var db' := Appended(db, c, audit');
    forall b | 0 <= b < |db'.accounts| && db'.accounts[b].kitty == BaseKitty
      ensures BalancedAccount(db', b)
    {
      assert BalancedAccount(db, b);
      SumSnoc(db.changes, c, Contribution(b));
    }
  }

  /** A new row enters the approval chain on an account that has nothing in flight. */
  lemma AppendKeeps(db: Db, c: Change, audit': seq<Entry>)
    requires Inv(db) && Admissible(db, c)
    requires Keyed(Appended(db, c, audit'))
    requires SameStories(db, audit', |db.changes|)
    requires Told(Appended(db, c, audit'), |db.changes|)
    ensures Inv(Appended(db, c, audit'))
  {
    var db' := Appended(db, c, audit');
    var n := |db.changes|;
    AppendKeepsBalance(db, c, audit');
    forall b | 0 <= b < |db'.accounts| && db'.accounts[b].kitty == BaseKitty
      ensures AccountInPlace(db', b)
    {
      AppendKeepsAccounts(db, c, audit', b);
    }
    forall j | 0 <= j < n
      ensures if BaseRow(db', j) then Shape(db'.changes[j]) else db'.changes[j].approval == NotRequired
    {
      assert db'.changes[j] == db.changes[j] && BaseRow(db, j) == BaseRow(db', j);
    }
    forall j | 0 <= j < |db'.changes| && BaseRow(db', j)
      ensures Told(db', j) && RowInPlace(db', j)
    {
      if j < n {
        assert db'.changes[j] == db.changes[j] && BaseRow(db, j);
        assert Told(db, j);
        AppendKeepsRows(db, c, audit', j);
      }
    }
  }

  // ---- traffic on a new-base account -----------------------------------------

  /** The tables of `db'` differ from those of `db` only in account `a` and its rows. */
  ghost predicate OnlyTables(db: Db, db': Db, a: nat)
    requires Keyed(db) && Keyed(db')
  {
    && db'.users == db.users
    && |db'.accounts| == |db.accounts| && a < |db.accounts|
    && db'.accounts[a].kitty == db.accounts[a].kitty
    && (forall b | 0 <= b < |db.accounts| && b != a :: db'.accounts[b] == db.accounts[b])
    && |db'.changes| >= |db.changes|
    && (forall j | 0 <= j < |db.changes| ::
          if db.changes[j].accountId == a
          then db'.changes[j].accountId == a && db'.changes[j].approval == db.changes[j].approval
          else db'.changes[j] == db.changes[j])
    && (forall j | |db.changes| <= j < |db'.changes| ::
          db'.changes[j].accountId == a && db'.changes[j].approval == NotRequired)
  }

  /** So do the stories the audit log tells. */
  ghost predicate OnlyAccount(db: Db, db': Db, a: nat)
    requires Keyed(db) && Keyed(db')
  {
    && OnlyTables(db, db', a)
    && (forall j | 0 <= j < |db.changes| && db.changes[j].accountId != a :: Replay(db'.audit, j) == Replay(db.audit, j))
  }

  lemma ForeignSum(db: Db, db': Db, a: nat, b: nat)
    requires Keyed(db) && Keyed(db') && OnlyAccount(db, db', a) && b != a
    ensures Sum(db'.changes, Contribution(b)) == Sum(db.changes, Contribution(b))
  {
    var n := |db.changes|;
    var f := Contribution(b);
    assert db'.changes == db'.changes[..n] + db'.changes[n..];
    SumConcat(db'.changes[..n], db'.changes[n..], f);
    SumZero(db'.changes[n..], f);
    var zero := (x: Change) => 0;
    SumZero(db.changes, zero);
    SumPointwise(db'.changes[..n], f, db.changes, f, db.changes, zero);
  }

  lemma ForeignWitnesses(db: Db, db': Db, a: nat, b: nat)
    requires Keyed(db) && Keyed(db') && OnlyTables(db, db', a) && b != a
    ensures HasInFlight(db, b) ==> HasInFlight(db', b)
    ensures HasAppliedDisconnection(db, b) ==> HasAppliedDisconnection(db', b)
    ensures NoRows(db, b) ==> NoRows(db', b)
  {
    if HasInFlight(db, b) {
      var k :| 0 <= k < |db.changes| && db.changes[k].accountId == b && InFlight(db.changes[k]);
      assert db'.changes[k] == db.changes[k];
    }
    if HasAppliedDisconnection(db, b) {
      var k :| 0 <= k < |db.changes| && db.changes[k].accountId == b && AppliedDisconnection(db.changes[k]);
      assert db'.changes[k] == db.changes[k];
    }
  }

  lemma ForeignRows(db: Db, db': Db, a: nat, j: nat)
    requires Inv(db) && Keyed(db') && OnlyAccount(db, db', a) && db.accounts[a].kitty == NewKitty
    requires j < |db'.changes| && BaseRow(db', j)
    ensures j < |db.changes| && BaseRow(db, j) && db'.changes[j] == db.changes[j] && Told(db', j)
    ensures RowInPlace(db', j)
  {
    assert j < |db.changes| && BaseRow(db, j) && RowInPlace(db, j);
    assert Told(db, j);
  }

  lemma ForeignAccounts(db: Db, db': Db, a: nat, b: nat)
    requires Inv(db) && Keyed(db') && OnlyAccount(db, db', a) && db.accounts[a].kitty == NewKitty
    requires b < |db'.accounts| && db'.accounts[b].kitty == BaseKitty
    ensures BalancedAccount(db', b) && AccountInPlace(db', b)
  {
    assert BalancedAccount(db, b) && AccountInPlace(db, b);
    ForeignSum(db, db', a, b);
    ForeignWitnesses(db, db', a, b);
  }

  /** Anything that happens to one new-base account leaves the existing base alone. */
  lemma ForeignKeeps(db: Db, db': Db, a: nat)
    requires Inv(db) && Keyed(db') && OnlyAccount(db, db', a)
    requires db.accounts[a].kitty == NewKitty
    ensures Inv(db')
  {
    forall j | 0 <= j < |db'.changes| && !BaseRow(db', j)
      ensures db'.changes[j].approval == NotRequired
    {
      if j < |db.changes| && db.changes[j].accountId != a {
        assert !BaseRow(db, j);
      }
    }
    forall j | 0 <= j < |db'.changes| && BaseRow(db', j)
      ensures Shape(db'.changes[j]) && Told(db', j) && RowInPlace(db', j)
    {
      ForeignRows(db, db', a, j);
    }
    forall b | 0 <= b < |db'.accounts| && db'.accounts[b].kitty == BaseKitty
      ensures BalancedAccount(db', b) && AccountInPlace(db', b)
    {
      ForeignAccounts(db, db', a, b);
    }
  }
}
