/**
  When each call of the commercial-change services is refused and why: the conditions in
  the order they are looked at, in terms of the request and the rows it meets.
 */
module Refusals {
  import opened Schema
  import opened Checks
  import opened Lifecycle
  import opened History

  // ---- trimming --------------------------------------------------------------

  predicate Blank(s: string) {
    forall k | 0 <= k < |s| :: s[k] in {' ', '\t', '\n', '\r'}
  }

  predicate Trim(s: string) {
    s == "" || (s[0] !in {' ', '\t', '\n', '\r'} && s[|s| - 1] !in {' ', '\t', '\n', '\r'})
  }

  /** What is counted is the text between the blanks. */
  lemma {:induction false} TrimmedLengthIs(left: string, text: string, right: string)
    requires Blank(left) && Trim(text) && Blank(right)
    ensures TrimmedLength(left + text + right) == |text|
    decreases |left| + |right|
  {
    var s := left + text + right;
    if left != "" {
      assert s[1..] == left[1..] + text + right;
      TrimmedLengthIs(left[1..], text, right);
    } else if right != "" {
      if text == "" {
        assert s == right && s[1..] == "" + "" + right[1..];
        TrimmedLengthIs("", "", right[1..]);
      } else {
        assert s[0] == text[0];
        assert s[..|s| - 1] == left + text + right[..|right| - 1];
        TrimmedLengthIs(left, text, right[..|right| - 1]);
      }
    } else {
      assert s == text;
    }
  }

  // ---- commit ----------------------------------------------------------------

  predicate QuickRequest(input: CommitInput) {
    input.changeType == Disconnection && input.mode == Some(Quick)
  }

  predicate DaysInRange(days: Option<int>) {
    days.Some? && 0 <= days.value <= 15
  }

  /** The conditions on a commit against `account`, in order. */
  function CommitChecks(users: map<UserId, User>, account: Account, input: CommitInput, quickEnabled: bool): seq<Check<Error>> {
    [Check(account.status != Terminated, AccountTerminated),
     Check(account.status != Disconnecting, AccountDisconnecting),
     Check(account.status != ProbableChurn || input.changeType != Disconnection, DisconnectionInFlight),
     Check(account.status != PendingQuickApproval, AccountPendingQuickApproval),
     Check(account.status != PendingApproval, AccountPendingApproval),
     Check(QuickRequest(input) && account.kitty == NewKitty ==> quickEnabled, QuickDisconnectDisabled),
     Check(QuickRequest(input) ==> DaysInRange(input.quickDays), QuickDisconnectInvalidDays),
     Check(QuickRequest(input) ==> TrimmedLength(input.quickReason) >= 10, QuickDisconnectReasonRequired),
     Check(input.actor in users, UserNotFound),
     Check(input.approvalFile || input.poFile || input.testMode, DocumentRequired)]
  }

  /** A commit is refused with the error of the first of its conditions that fails, and accepted if all hold. */
  lemma CommitRefusedByFirst(db: Db, input: CommitInput, quickEnabled: bool)
    ensures CommitRefusal(db, input, quickEnabled)
         == if input.accountId >= |db.accounts| then Some(AccountNotFound)
            else FirstFailing(CommitChecks(db.users, db.accounts[input.accountId], input, quickEnabled))
  {
    if input.accountId < |db.accounts| {
      var s := CommitChecks(db.users, db.accounts[input.accountId], input, quickEnabled);
      TenChecks(s[0], s[1], s[2], s[3], s[4], s[5], s[6], s[7], s[8], s[9]);
      assert s == [s[0], s[1], s[2], s[3], s[4], s[5], s[6], s[7], s[8], s[9]];
    }
  }

  // ---- decide ----------------------------------------------------------------

  predicate Pending(approval: ApprovalStatus) {
    approval == PendingSamHead || approval == PendingAccounts || approval == PendingSuperAdmin2
  }

  /** The role that signs at each stage; an admin may sign anywhere. */
  predicate HoldsRole(approval: ApprovalStatus, role: Role) {
    || role == Admin
    || (approval == PendingSamHead && role == SamHead)
    || (approval == PendingAccounts && role == AccountsTeam)
    || (approval == PendingSuperAdmin2 && role == SuperAdmin2)
  }

  predicate InScope(users: map<UserId, User>, approval: ApprovalStatus, role: Role, actor: UserId, owner: Option<UserId>) {
    role == Admin || approval != PendingSamHead || HeadOf(users, actor, owner)
  }

  /** The conditions on a decision about row `c` of `account`, in order. */
  function DecideChecks(users: map<UserId, User>, c: Change, account: Account, verdict: Verdict, actor: UserId, role: Role): seq<Check<Error>> {
    [Check(Pending(c.approval), NotPending),
     Check(HoldsRole(c.approval, role), WrongStage),
     Check(InScope(users, c.approval, role, actor, account.samOwner), OutOfScope),
     Check(verdict.Reject? ==> TrimmedLength(verdict.reason) >= 3, RejectionReasonRequired),
     Check(verdict.Reject? ==> account.status == PendingApproval, AccountDrifted)]
  }

  /** A decision is refused with the error of the first of its conditions that fails, and carried out if all hold. */
  lemma DecideRefusedByFirst(db: Db, i: nat, verdict: Verdict, actor: UserId, role: Role)
    requires Keyed(db)
    ensures DecideRefusal(db, i, verdict, actor, role)
         == if i >= |db.changes| then Some(ChangeNotFound)
            else FirstFailing(DecideChecks(db.users, db.changes[i], db.accounts[db.changes[i].accountId], verdict, actor, role))
  {
    if i < |db.changes| {
      var s := DecideChecks(db.users, db.changes[i], db.accounts[db.changes[i].accountId], verdict, actor, role);
      FiveChecks(s[0], s[1], s[2], s[3], s[4]);
      assert s == [s[0], s[1], s[2], s[3], s[4]];
    }
  }

  /** Who may approve: an admin, or the role of the row's stage, for a head only a customer of the team. */
  lemma MayApproveIff(db: Db, i: nat, material: Option<bool>, actor: UserId, role: Role)
    requires Keyed(db) && i < |db.changes|
    ensures var c, owner := db.changes[i], db.accounts[db.changes[i].accountId].samOwner;
            DecideRefusal(db, i, Approve(material), actor, role) == None <==>
              || (role == Admin && c.approval in {PendingSamHead, PendingAccounts, PendingSuperAdmin2})
              || (role == AccountsTeam && c.approval == PendingAccounts)
              || (role == SuperAdmin2 && c.approval == PendingSuperAdmin2)
              || (role == SamHead && c.approval == PendingSamHead && owner.Some?
                  && (owner.value == actor || (owner.value in db.users && db.users[owner.value].samHead == Some(actor))))
  {
    var s := DecideChecks(db.users, db.changes[i], db.accounts[db.changes[i].accountId], Approve(material), actor, role);
    DecideRefusedByFirst(db, i, Approve(material), actor, role);
    PassesIffAllHold(s);
  }

  // ---- retention -------------------------------------------------------------

  /** The conditions on a retention decision about row `c` on the day starting at `today`, in order. */
  function RetentionChecks(c: Change, decision: Retention, today: Time): seq<Check<Error>> {
    [Check(c.changeType == Disconnection, NotADisconnection),
     Check(c.retention == None, AlreadyDecided),
     Check(decision == Retain || c.retentionPromptDueAt == None || c.retentionPromptDueAt.value <= today, RetentionWindowOpen)]
  }

  /** A retention decision is refused with the error of the first of its conditions that fails. */
  lemma RetentionRefusedByFirst(db: Db, i: nat, decision: Retention, now: Time)
    ensures RetentionRefusal(db, i, decision, now)
         == if i >= |db.changes| then Some(ChangeNotFound)
            else FirstFailing(RetentionChecks(db.changes[i], decision, now - now % 86_400_000))
  {
    if i < |db.changes| {
      var s := RetentionChecks(db.changes[i], decision, now - now % 86_400_000);
      ThreeChecks(s[0], s[1], s[2]);
      assert s == [s[0], s[1], s[2]];
    }
  }
}
