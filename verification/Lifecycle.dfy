/**
  The commercial-change services as functions from one database value to the next.

  Each function is one service call taken as one atomic step; a refused call returns
  the reason and leaves the database alone. `Store` proves that the step-by-step
  methods compute exactly these functions.
 */
module Lifecycle {
  import opened Schema
  import opened Dates

  const PROBABLE_CHURN_WINDOW_DAYS: int := 21
  const DISCONNECTION_NOTICE_DAYS: int := 10
  const QUICK_DISCONNECT_MAX_DAYS: int := 15
  const QUICK_REASON_MIN_LENGTH: nat := 10
  const REJECTION_REASON_MIN_LENGTH: nat := 3

  datatype Error =
    | AccountNotFound
    | AccountTerminated
    | AccountDisconnecting
    | DisconnectionInFlight
    | AccountPendingQuickApproval
    | AccountPendingApproval
    | QuickDisconnectDisabled
    | QuickDisconnectInvalidDays
    | QuickDisconnectReasonRequired
    | UserNotFound
    | DocumentRequired
    | ChangeNotFound
    | NotPending
    | WrongStage
    | OutOfScope
    | RejectionReasonRequired
    | AccountDrifted
    | NotADisconnection
    | AlreadyDecided
    | RetentionWindowOpen

  datatype Outcome = Done(db: Db) | Refused(error: Error)

  predicate IsSpace(c: char) {
    c == ' ' || c == '\t' || c == '\n' || c == '\r'
  }

  /** Length of `s` once whitespace is stripped from both ends. */
  function TrimmedLength(s: string): (n: nat)
    ensures n <= |s|
  {
    if s == "" then 0
    else if IsSpace(s[0]) then TrimmedLength(s[1..])
    else if IsSpace(s[|s| - 1]) then TrimmedLength(s[..|s| - 1])
    else |s|
  }

  // ---- commit ----------------------------------------------------------------

  datatype CommitInput = CommitInput(
    accountId: nat,
    changeType: ChangeType,
    newArc: int,
    newBandwidth: Option<int>,
    effectiveDate: Time,
    mode: Option<Mode>,
    quickDays: Option<int>,
    quickReason: string,
    approvalFile: bool,
    poFile: bool,
    testMode: bool,
    actor: UserId)

  predicate IsQuick(input: CommitInput) {
    input.changeType == Disconnection && input.mode == Some(Quick)
  }

  function StatusRefusal(status: ContractStatus, changeType: ChangeType): Option<Error> {
    match status
    case Terminated => Some(AccountTerminated)
    case Disconnecting => Some(AccountDisconnecting)
    case ProbableChurn => if changeType == Disconnection then Some(DisconnectionInFlight) else None
    case PendingQuickApproval => Some(AccountPendingQuickApproval)
    case PendingApproval => Some(AccountPendingApproval)
    case _ => None
  }

  function QuickRefusal(kitty: Kitty, input: CommitInput, quickEnabled: bool): Option<Error> {
    if !IsQuick(input) then None
    else if kitty == NewKitty && !quickEnabled then Some(QuickDisconnectDisabled)
    else if input.quickDays == None || !(0 <= input.quickDays.value <= QUICK_DISCONNECT_MAX_DAYS) then
      Some(QuickDisconnectInvalidDays)
    else if TrimmedLength(input.quickReason) < QUICK_REASON_MIN_LENGTH then Some(QuickDisconnectReasonRequired)
    else None
  }

  function CommitRefusal(db: Db, input: CommitInput, quickEnabled: bool): Option<Error> {
    if input.accountId >= |db.accounts| then Some(AccountNotFound)
    else
      var account := db.accounts[input.accountId];
      var byStatus := StatusRefusal(account.status, input.changeType);
      var byQuick := QuickRefusal(account.kitty, input, quickEnabled);
      if byStatus.Some? then byStatus
      else if byQuick.Some? then byQuick
      else if input.actor !in db.users then Some(UserNotFound)
      else if !input.approvalFile && !input.poFile && !input.testMode then Some(DocumentRequired)
      else None
  }

  function NewChange(input: CommitInput, oldArc: int): Change {
    Change(
      input.accountId, input.changeType, oldArc, input.newArc, input.newBandwidth, input.effectiveDate,
      input.actor,
      if input.changeType != Disconnection then None else if input.mode == None then Some(Normal) else input.mode,
      if IsQuick(input) then input.quickDays else None,
      NotRequired, None, None, None, None, None, None, None, None, None, None)
  }

  function SetStatus(db: Db, a: nat, status: ContractStatus): Db
    requires a < |db.accounts|
  {
    db.(accounts := db.accounts[a := db.accounts[a].(status := status)])
  }

  function SetChange(db: Db, i: nat, c: Change): Db
    requires i < |db.changes|
  {
    db.(changes := db.changes[i := c])
  }

  function Log(db: Db, i: nat, event: Event, actor: UserId): Db {
    db.(audit := db.audit + [Entry(i, event, actor)])
  }

  predicate UndecidedDisconnection(c: Change, a: nat) {
    c.accountId == a && c.changeType == Disconnection && c.retention == None
  }

  /** The newest row of account `a` that is a disconnection without a retention decision. */
  function LatestUndecided(changes: seq<Change>, a: nat): (r: Option<nat>)
    ensures r.Some? ==> r.value < |changes| && UndecidedDisconnection(changes[r.value], a)
    ensures r.Some? ==> forall j | r.value < j < |changes| :: !UndecidedDisconnection(changes[j], a)
    ensures r.None? ==> forall j | 0 <= j < |changes| :: !UndecidedDisconnection(changes[j], a)
  {
    if changes == [] then None
    else
      var n := |changes| - 1;
      if UndecidedDisconnection(changes[n], a) then Some(n)
      else LatestUndecided(changes[..n], a)
  }

  function AutoRetain(db: Db, a: nat, actor: UserId, now: Time): Db
    requires a < |db.accounts|
  {
    match LatestUndecided(db.changes, a)
    case None => db
    case Some(i) =>
      var c := db.changes[i].(retention := Some(Retain), retentionDecidedAt := Some(now));
      Log(SetStatus(SetChange(db, i, c), a, Active), i, RetentionRetainedAuto, actor)
  }

  function EnterApprovalChain(db: Db, i: nat, stage: ApprovalStatus): Db
    requires i < |db.changes| && db.changes[i].accountId < |db.accounts|
  {
    var c := db.changes[i];
    Log(SetStatus(SetChange(db, i, c.(approval := stage)), c.accountId, PendingApproval),
        i, ApprovalRequested(stage), c.createdBy)
  }

  function EnterProbableChurn(db: Db, i: nat, anchor: Time): Db
    requires i < |db.changes| && db.changes[i].accountId < |db.accounts|
  {
    var c := db.changes[i];
    var prompt := AddDays(StartOfDay(anchor), PROBABLE_CHURN_WINDOW_DAYS);
    SetStatus(SetChange(db, i, c.(retentionPromptDueAt := Some(prompt))), c.accountId, ProbableChurn)
  }

  function EnterPendingQuickApproval(db: Db, i: nat): Db
    requires i < |db.changes| && db.changes[i].accountId < |db.accounts|
  {
    var c := db.changes[i];
    Log(SetStatus(db, c.accountId, PendingQuickApproval), i, QuickRequested, c.createdBy)
  }

  function AppliedAccount(account: Account, c: Change): Account {
    if c.changeType == Disconnection then account.(status := Terminated, currentArc := 0)
    else account.(currentArc := c.newArc,
                  bandwidth := if c.newBandwidth.Some? then c.newBandwidth else account.bandwidth)
  }

  /** Mirrors row `i` onto its account unless it has been mirrored before. */
  function ApplyChange(db: Db, i: nat, now: Time): Db
    requires i < |db.changes| && db.changes[i].accountId < |db.accounts|
  {
    var c := db.changes[i];
    if c.appliedAt.Some? then db
    else
      db.(accounts := db.accounts[c.accountId := AppliedAccount(db.accounts[c.accountId], c)],
          changes := db.changes[i := c.(appliedAt := Some(now))])
  }

  /** Where a new row goes once it is written: by kitty, type, mode and CRM link. */
  function Route(db: Db, i: nat, account: Account, input: CommitInput, now: Time): Db
    requires i < |db.changes| && db.changes[i].accountId < |db.accounts|
  {
    if account.kitty == BaseKitty then
      EnterApprovalChain(db, i, if IsQuick(input) then PendingSamHead else PendingAccounts)
    else if input.changeType == Disconnection then
      if IsQuick(input) then EnterPendingQuickApproval(db, i)
      else EnterProbableChurn(db, i, input.effectiveDate)
    else if account.externalCrmId == None then ApplyChange(db, i, now)
    else db
  }

  function Written(db: Db, input: CommitInput): Db
    requires input.accountId < |db.accounts|
  {
    var c := NewChange(input, db.accounts[input.accountId].currentArc);
    Log(db.(changes := db.changes + [c]), |db.changes|, Committed, input.actor)
  }

  function Accepted(db: Db, input: CommitInput, now: Time): Db
    requires input.accountId < |db.accounts|
  {
    var account := db.accounts[input.accountId];
    var db1 := Written(db, input);
    var db2 := if input.changeType != Disconnection && account.status == ProbableChurn
               then AutoRetain(db1, input.accountId, input.actor, now)
               else db1;
    Route(db2, |db.changes|, account, input, now)
  }

  function Commit(db: Db, input: CommitInput, quickEnabled: bool, now: Time): Outcome {
    match CommitRefusal(db, input, quickEnabled)
    case Some(e) => Refused(e)
    case None => Done(Accepted(db, input, now))
  }

  // ---- approval chain --------------------------------------------------------

  predicate IsPendingStage(s: ApprovalStatus) {
    s == PendingSuperAdmin2 || s == PendingSamHead || s == PendingAccounts
  }

  function StageRole(stage: ApprovalStatus): Role
    requires IsPendingStage(stage)
  {
    match stage
    case PendingSuperAdmin2 => SuperAdmin2
    case PendingSamHead => SamHead
    case PendingAccounts => AccountsTeam
  }

  function NextStage(stage: ApprovalStatus, isDisconnection: bool): (next: Option<ApprovalStatus>)
    requires IsPendingStage(stage)
    ensures next.Some? ==> IsPendingStage(next.value)
  {
    match stage
    case PendingSamHead => Some(PendingAccounts)
    case PendingAccounts => if isDisconnection then Some(PendingSuperAdmin2) else None
    case PendingSuperAdmin2 => None
  }

  /** The head and everyone reporting to the head. */
  predicate InTeam(users: map<UserId, User>, head: UserId, owner: UserId) {
    owner == head || (owner in users && users[owner].samHead == Some(head))
  }

  function ActRefusal(users: map<UserId, User>, stage: ApprovalStatus, owner: Option<UserId>, actor: UserId, role: Role): Option<Error>
    requires IsPendingStage(stage)
  {
    if role == Admin then None
    else if role != StageRole(stage) then Some(WrongStage)
    else if stage == PendingSamHead && (owner == None || !InTeam(users, actor, owner.value)) then Some(OutOfScope)
    else None
  }

  datatype Verdict = Approve(materialRecovered: Option<bool>) | Reject(reason: string)

  function DecideRefusal(db: Db, i: nat, verdict: Verdict, actor: UserId, role: Role): Option<Error>
    requires Keyed(db)
  {
    if i >= |db.changes| then Some(ChangeNotFound)
    else
      var c := db.changes[i];
      var account := db.accounts[c.accountId];
      if !IsPendingStage(c.approval) then Some(NotPending)
      else
        var byRole := ActRefusal(db.users, c.approval, account.samOwner, actor, role);
        if byRole.Some? then byRole
        else if verdict.Reject? && TrimmedLength(verdict.reason) < REJECTION_REASON_MIN_LENGTH then
          Some(RejectionReasonRequired)
        else if verdict.Reject? && account.status != PendingApproval then Some(AccountDrifted)
        else None
  }

  function RejectChange(db: Db, i: nat, actor: UserId, now: Time): Db
    requires i < |db.changes| && db.changes[i].accountId < |db.accounts|
  {
    var c := db.changes[i];
    var c' := c.(approval := Rejected, rejectedBy := Some(actor), rejectedAt := Some(now));
    Log(SetStatus(SetChange(db, i, c'), c.accountId, Active), i, ApprovalRejected(c.approval), actor)
  }

  function AdvanceChange(db: Db, i: nat, next: ApprovalStatus, actor: UserId): Db
    requires i < |db.changes|
  {
    var c := db.changes[i];
    Log(SetChange(db, i, c.(approval := next)), i, ApprovalAdvanced(c.approval, next), actor)
  }

  function Signed(c: Change, actor: UserId, now: Time): Change {
    c.(approval := Approved, approvedBy := Some(actor), approvedAt := Some(now))
  }

  function TerminalChange(c: Change, materialRecovered: Option<bool>, actor: UserId, now: Time): Change {
    var s := Signed(c, actor, now);
    if c.changeType != Disconnection then s.(appliedAt := Some(now))
    else if c.mode == Some(Quick) then
      s.(materialRecovered := materialRecovered,
         scheduledTerminationAt := Some(StartOfDay(AddDays(now, if c.quickDays.Some? then c.quickDays.value else 1))),
         retention := Some(Proceed), retentionDecidedAt := Some(now))
    else
      s.(materialRecovered := materialRecovered,
         retentionPromptDueAt := Some(AddDays(StartOfDay(now), PROBABLE_CHURN_WINDOW_DAYS)))
  }

  function TerminalAccount(account: Account, c: Change): Account {
    if c.changeType != Disconnection then AppliedAccount(account, c).(status := Active)
    else account.(status := if c.mode == Some(Quick) then Disconnecting else ProbableChurn)
  }

  function TerminalApproval(db: Db, i: nat, materialRecovered: Option<bool>, actor: UserId, now: Time): Db
    requires i < |db.changes| && db.changes[i].accountId < |db.accounts|
  {
    var c := db.changes[i];
    var db1 := db.(accounts := db.accounts[c.accountId := TerminalAccount(db.accounts[c.accountId], c)]);
    Log(SetChange(db1, i, TerminalChange(c, materialRecovered, actor, now)), i, ApprovalApproved(c.approval, c.mode), actor)
  }

  function Decided(db: Db, i: nat, verdict: Verdict, actor: UserId, now: Time): Db
    requires i < |db.changes| && db.changes[i].accountId < |db.accounts|
    requires IsPendingStage(db.changes[i].approval)
  {
    match verdict
    case Reject(_) => RejectChange(db, i, actor, now)
    case Approve(material) =>
      match NextStage(db.changes[i].approval, db.changes[i].changeType == Disconnection)
      case Some(next) => AdvanceChange(db, i, next, actor)
      case None => TerminalApproval(db, i, material, actor, now)
  }

  function Decide(db: Db, i: nat, verdict: Verdict, actor: UserId, role: Role, now: Time): Outcome
    requires Keyed(db)
  {
    match DecideRefusal(db, i, verdict, actor, role)
    case Some(e) => Refused(e)
    case None => Done(Decided(db, i, verdict, actor, now))
  }

  // ---- retention window ------------------------------------------------------

  function RetentionRefusal(db: Db, i: nat, decision: Retention, now: Time): Option<Error> {
    if i >= |db.changes| then Some(ChangeNotFound)
    else
      var c := db.changes[i];
      if c.changeType != Disconnection then Some(NotADisconnection)
      else if c.retention.Some? then Some(AlreadyDecided)
      else if decision == Proceed && c.retentionPromptDueAt.Some? && c.retentionPromptDueAt.value > StartOfDay(now) then
        Some(RetentionWindowOpen)
      else None
  }

  function RetentionApplied(db: Db, i: nat, decision: Retention, actor: UserId, now: Time): Db
    requires i < |db.changes| && db.changes[i].accountId < |db.accounts|
  {
    var c := db.changes[i];
    var c1 := c.(retention := Some(decision), retentionDecidedAt := Some(now));
    match decision
    case Retain =>
      Log(SetStatus(SetChange(db, i, c1), c.accountId, Active), i, RetentionRetained, actor)
    case Proceed =>
      var due := AddDays(StartOfDay(now), DISCONNECTION_NOTICE_DAYS);
      var c2 := c1.(scheduledTerminationAt := Some(due));
      Log(SetStatus(SetChange(db, i, c2), c.accountId, Disconnecting), i, RetentionProceeded, actor)
  }

  function RetentionDecision(db: Db, i: nat, decision: Retention, actor: UserId, now: Time): Outcome
    requires Keyed(db)
  {
    match RetentionRefusal(db, i, decision, now)
    case Some(e) => Refused(e)
    case None => Done(RetentionApplied(db, i, decision, actor, now))
  }

  // ---- termination sweep -----------------------------------------------------

  predicate Due(c: Change, today: Time) {
    && c.changeType == Disconnection
    && c.retention == Some(Proceed)
    && c.scheduledTerminationAt.Some?
    && c.scheduledTerminationAt.value <= today
    && c.appliedAt == None
  }

  /** Ids of the due rows no other transaction holds locked, in table order. */
  function DueIds(changes: seq<Change>, today: Time, locked: set<nat>): (ids: seq<nat>)
    ensures forall i :: i in ids <==> 0 <= i < |changes| && Due(changes[i], today) && i !in locked
    ensures forall j, k | 0 <= j < k < |ids| :: ids[j] < ids[k]
  {
    if changes == [] then []
    else
      var n := |changes| - 1;
      var rest := DueIds(changes[..n], today, locked);
      assert forall j | 0 <= j < |rest| :: rest[j] in rest;
      if Due(changes[n], today) && n !in locked then rest + [n] else rest
  }

  /** Every row of `ids` is due: what the sweep's query may return, whatever it skips and in any order. */
  predicate OnlyDue(changes: seq<Change>, ids: seq<nat>, today: Time) {
    forall k | 0 <= k < |ids| :: ids[k] < |changes| && Due(changes[ids[k]], today)
  }

  /** Applies the rows of `ids` one transaction after another. */
  function ApplyAll(db: Db, ids: seq<nat>, now: Time): (r: Db)
    requires Keyed(db)
    requires forall k | 0 <= k < |ids| :: ids[k] < |db.changes|
    ensures Keyed(r) && |r.changes| == |db.changes| && |r.accounts| == |db.accounts|
  {
    if ids == [] then db
    else ApplyChange(ApplyAll(db, ids[..|ids| - 1], now), ids[|ids| - 1], now)
  }

  lemma ApplyAllStep(db: Db, ids: seq<nat>, k: nat, now: Time)
    requires Keyed(db) && k < |ids| && forall j | 0 <= j < |ids| :: ids[j] < |db.changes|
    ensures ApplyAll(db, ids[..k + 1], now) == ApplyChange(ApplyAll(db, ids[..k], now), ids[k], now)
  {
    assert ids[..k + 1][..k] == ids[..k];
  }

  function Sweep(db: Db, now: Time, locked: set<nat>): (r: Db)
    requires Keyed(db)
    ensures Keyed(r) && |r.changes| == |db.changes| && |r.accounts| == |db.accounts|
  {
    var ids := DueIds(db.changes, StartOfDay(now), locked);
    assert forall k | 0 <= k < |ids| :: ids[k] in ids;
    ApplyAll(db, ids, now)
  }
}
