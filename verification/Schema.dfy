/**
  Tables and enumerations of the service's database, reduced to the columns the
  modelled services read or write.

  A table is a sequence whose row id is the row's position: the modelled services
  never delete an account or a commercial change, so ids are never reused and a
  later row was created later. ARC amounts are whole rupees.
 */
module Schema {

  datatype Option<+T> = None | Some(value: T)

  type UserId = nat

  /** Milliseconds since 1 January 1970, UTC. */
  type Time = int

  datatype Kitty = BaseKitty | NewKitty

  datatype ContractStatus =
    | Active
    | Expired
    | Terminated
    | Pending
    | ProbableChurn
    | Disconnecting
    | PendingQuickApproval
    | PendingApproval

  datatype ChangeType = Upgrade | Downgrade | RateRevision | Disconnection

  datatype Mode = Normal | Quick

  datatype Retention = Retain | Proceed

  datatype Role = Admin | SamHead | Sam | AccountsTeam | SuperAdmin2

  datatype ApprovalStatus =
    | PendingSuperAdmin2
    | PendingSamHead
    | PendingAccounts
    | Approved
    | Rejected
    | NotRequired

  datatype User = User(role: Role, samHead: Option<UserId>)

  datatype Account = Account(
    id: nat,
    kitty: Kitty,
    samOwner: Option<UserId>,
    externalCrmId: Option<string>,
    currentArc: int,
    startOfPeriodArc: Option<int>,
    bandwidth: Option<int>,
    status: ContractStatus)

  datatype Change = Change(
    accountId: nat,
    changeType: ChangeType,
    oldArc: int,
    newArc: int,
    newBandwidth: Option<int>,
    effectiveDate: Time,
    createdBy: UserId,
    mode: Option<Mode>,
    quickDays: Option<int>,
    approval: ApprovalStatus,
    approvedBy: Option<UserId>,
    approvedAt: Option<Time>,
    rejectedBy: Option<UserId>,
    rejectedAt: Option<Time>,
    materialRecovered: Option<bool>,
    retentionPromptDueAt: Option<Time>,
    retention: Option<Retention>,
    retentionDecidedAt: Option<Time>,
    scheduledTerminationAt: Option<Time>,
    appliedAt: Option<Time>)

  /** What an audit row records about a commercial change: its action and payload. */
  datatype Event =
    | Committed
    | ApprovalRequested(stage: ApprovalStatus)
    | ApprovalAdvanced(from: ApprovalStatus, to: ApprovalStatus)
    | ApprovalApproved(from: ApprovalStatus, mode: Option<Mode>)
    | ApprovalRejected(stage: ApprovalStatus)
    | RetentionRetained
    | RetentionRetainedAuto
    | RetentionProceeded
    | QuickRequested

  datatype Entry = Entry(changeId: nat, event: Event, actor: UserId)

  datatype Db = Db(
    users: map<UserId, User>,
    accounts: seq<Account>,
    changes: seq<Change>,
    audit: seq<Entry>)

  /** The keys the database itself enforces. */
  ghost predicate Keyed(db: Db) {
    && (forall a | 0 <= a < |db.accounts| :: db.accounts[a].id == a)
    && (forall i | 0 <= i < |db.changes| :: db.changes[i].accountId < |db.accounts|)
    && (forall k | 0 <= k < |db.audit| :: db.audit[k].changeId < |db.changes|)
  }

  /** Row `i` of the change table belongs to an existing-base account. */
  predicate BaseRow(db: Db, i: nat)
    requires i < |db.changes|
    requires db.changes[i].accountId < |db.accounts|
  {
    db.accounts[db.changes[i].accountId].kitty == BaseKitty
  }
}
