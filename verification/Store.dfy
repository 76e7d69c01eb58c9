/**
  The services as methods that update the tables row by row, in the order the
  transactions do. Every method is proved to compute the function of the same step
  in `Lifecycle`, including the refusals, which leave the tables untouched.
 */
module Store {
  import opened Schema
  import opened Dates
  import opened Lifecycle

  class Services {
    var users: map<UserId, User>
    var accounts: seq<Account>
    var changes: seq<Change>
    var audit: seq<Entry>

    constructor (db: Db)
      ensures State() == db
    {
      users, accounts, changes, audit := db.users, db.accounts, db.changes, db.audit;
    }

    ghost function State(): Db
      reads this
    {
      Db(users, accounts, changes, audit)
    }

    ghost predicate Valid()
      reads this
    {
      Keyed(State())
    }

    method Commit(input: CommitInput, quickEnabled: bool, now: Time) returns (refusal: Option<Error>)
      requires Valid()
      modifies this
      ensures Valid()
      ensures refusal == CommitRefusal(old(State()), input, quickEnabled)
      ensures Lifecycle.Commit(old(State()), input, quickEnabled, now)
           == if refusal.Some? then Refused(refusal.value) else Done(State())
      ensures refusal.Some? ==> State() == old(State())
    {
      if input.accountId >= |accounts| { return Some(AccountNotFound); }
      var account := accounts[input.accountId];
      if account.status == Terminated { return Some(AccountTerminated); }
      if account.status == Disconnecting { return Some(AccountDisconnecting); }
      if account.status == ProbableChurn && input.changeType == Disconnection { return Some(DisconnectionInFlight); }
      if account.status == PendingQuickApproval { return Some(AccountPendingQuickApproval); }
      if account.status == PendingApproval { return Some(AccountPendingApproval); }
      var isQuick := input.changeType == Disconnection && input.mode == Some(Quick);
      if isQuick {
        if account.kitty == NewKitty && !quickEnabled { return Some(QuickDisconnectDisabled); }
        var days := if input.quickDays.Some? then input.quickDays.value else -1;
        if days < 0 || days > QUICK_DISCONNECT_MAX_DAYS { return Some(QuickDisconnectInvalidDays); }
        if TrimmedLength(input.quickReason) < QUICK_REASON_MIN_LENGTH { return Some(QuickDisconnectReasonRequired); }
      }
      if input.actor !in users { return Some(UserNotFound); }
      if !input.approvalFile && !input.poFile && !input.testMode { return Some(DocumentRequired); }

      var id := |changes|;
      changes := changes + [NewChange(input, account.currentArc)];
      audit := audit + [Entry(id, Committed, input.actor)];
      if input.changeType != Disconnection && account.status == ProbableChurn {
        AutoRetainPendingDisconnection(input.accountId, input.actor, now);
      }
      if account.kitty == BaseKitty {
        EnterApprovalChain(id, if isQuick then PendingSamHead else PendingAccounts);
      } else if input.changeType == Disconnection {
        if isQuick {
          EnterPendingQuickApproval(id);
        } else {
          EnterProbableChurn(id, input.effectiveDate);
        }
      } else if account.externalCrmId == None {
        ApplyChangeToAccount(id, now);
      }
      return None;
    }

    method AutoRetainPendingDisconnection(a: nat, actor: UserId, now: Time)
      requires Valid() && a < |accounts|
      modifies this
      ensures Valid() && State() == AutoRetain(old(State()), a, actor, now)
      ensures |changes| == |old(changes)| && |accounts| == |old(accounts)|
    {
      var pending := LatestUndecided(changes, a);
      if pending.None? { return; }
      var i := pending.value;
      changes := changes[i := changes[i].(retention := Some(Retain), retentionDecidedAt := Some(now))];
      accounts := accounts[a := accounts[a].(status := Active)];
      audit := audit + [Entry(i, RetentionRetainedAuto, actor)];
    }

    method EnterApprovalChain(i: nat, stage: ApprovalStatus)
      requires Valid() && i < |changes|
      modifies this
      ensures Valid() && State() == Lifecycle.EnterApprovalChain(old(State()), i, stage)
    {
      var c := changes[i];
      changes := changes[i := c.(approval := stage)];
      accounts := accounts[c.accountId := accounts[c.accountId].(status := PendingApproval)];
      audit := audit + [Entry(i, ApprovalRequested(stage), c.createdBy)];
    }

    method EnterProbableChurn(i: nat, anchor: Time)
      requires Valid() && i < |changes|
      modifies this
      ensures Valid() && State() == Lifecycle.EnterProbableChurn(old(State()), i, anchor)
    {
      var c := changes[i];
      var prompt := StartOfDay(anchor);
      prompt := AddDays(prompt, PROBABLE_CHURN_WINDOW_DAYS);
      changes := changes[i := c.(retentionPromptDueAt := Some(prompt))];
      accounts := accounts[c.accountId := accounts[c.accountId].(status := ProbableChurn)];
    }

    method EnterPendingQuickApproval(i: nat)
      requires Valid() && i < |changes|
      modifies this
      ensures Valid() && State() == Lifecycle.EnterPendingQuickApproval(old(State()), i)
    {
      var c := changes[i];
      accounts := accounts[c.accountId := accounts[c.accountId].(status := PendingQuickApproval)];
      audit := audit + [Entry(i, QuickRequested, c.createdBy)];
    }

    method ApplyChangeToAccount(i: nat, now: Time)
      requires Valid() && i < |changes|
      modifies this
      ensures Valid() && State() == ApplyChange(old(State()), i, now)
      ensures |changes| == |old(changes)| && |accounts| == |old(accounts)|
    {
      var c := changes[i];
      if c.appliedAt.Some? { return; }
      var account := accounts[c.accountId];
      if c.changeType == Disconnection {
        account := account.(status := Terminated, currentArc := 0);
      } else {
        account := account.(currentArc := c.newArc);
        if c.newBandwidth.Some? {
          account := account.(bandwidth := c.newBandwidth);
        }
      }
      accounts := accounts[c.accountId := account];
      changes := changes[i := c.(appliedAt := Some(now))];
    }

    method Decide(i: nat, verdict: Verdict, actor: UserId, role: Role, now: Time) returns (refusal: Option<Error>)
      requires Valid()
      modifies this
      ensures Valid()
      ensures refusal == DecideRefusal(old(State()), i, verdict, actor, role)
      ensures Lifecycle.Decide(old(State()), i, verdict, actor, role, now)
           == if refusal.Some? then Refused(refusal.value) else Done(State())
      ensures refusal.Some? ==> State() == old(State())
    {
      if i >= |changes| { return Some(ChangeNotFound); }
      var c := changes[i];
      var stage := c.approval;
      if !IsPendingStage(stage) { return Some(NotPending); }
      var denied := AssertCanAct(stage, accounts[c.accountId].samOwner, actor, role);
      if denied.Some? { return denied; }
      match verdict {
        case Reject(reason) =>
          if TrimmedLength(reason) < REJECTION_REASON_MIN_LENGTH { return Some(RejectionReasonRequired); }
          if accounts[c.accountId].status != PendingApproval { return Some(AccountDrifted); }
          changes := changes[i := c.(approval := Rejected, rejectedBy := Some(actor), rejectedAt := Some(now))];
          accounts := accounts[c.accountId := accounts[c.accountId].(status := Active)];
          audit := audit + [Entry(i, ApprovalRejected(stage), actor)];
        case Approve(material) =>
          var next := NextStage(stage, c.changeType == Disconnection);
          if next.Some? {
            changes := changes[i := c.(approval := next.value)];
            audit := audit + [Entry(i, ApprovalAdvanced(stage, next.value), actor)];
          } else {
            ApplyTerminalApproval(i, material, actor, now);
          }
      }
      return None;
    }

    method AssertCanAct(stage: ApprovalStatus, owner: Option<UserId>, actor: UserId, role: Role) returns (refusal: Option<Error>)
      requires IsPendingStage(stage)
      ensures refusal == ActRefusal(users, stage, owner, actor, role)
    {
      if role == Admin { return None; }
      if role != StageRole(stage) { return Some(WrongStage); }
      if stage == PendingSamHead {
        if owner.None? || !InTeam(users, actor, owner.value) { return Some(OutOfScope); }
      }
      return None;
    }

    method ApplyTerminalApproval(i: nat, material: Option<bool>, actor: UserId, now: Time)
      requires Valid() && i < |changes|
      modifies this
      ensures Valid() && State() == TerminalApproval(old(State()), i, material, actor, now)
    {
      var c := changes[i];
      var account := accounts[c.accountId];
      if c.changeType != Disconnection {
        changes := changes[i := Signed(c, actor, now).(appliedAt := Some(now))];
        account := account.(currentArc := c.newArc);
        if c.newBandwidth.Some? {
          account := account.(bandwidth := c.newBandwidth);
        }
        accounts := accounts[c.accountId := account.(status := Active)];
      } else if c.mode == Some(Quick) {
        var days := if c.quickDays.Some? then c.quickDays.value else 1;
        var due := StartOfDay(AddDays(now, days));
        changes := changes[i := Signed(c, actor, now).(
          materialRecovered := material, scheduledTerminationAt := Some(due),
          retention := Some(Proceed), retentionDecidedAt := Some(now))];
        accounts := accounts[c.accountId := account.(status := Disconnecting)];
      } else {
        var prompt := StartOfDay(now);
        prompt := AddDays(prompt, PROBABLE_CHURN_WINDOW_DAYS);
        changes := changes[i := Signed(c, actor, now).(materialRecovered := material, retentionPromptDueAt := Some(prompt))];
        accounts := accounts[c.accountId := account.(status := ProbableChurn)];
      }
      audit := audit + [Entry(i, ApprovalApproved(c.approval, c.mode), actor)];
    }

    method RetentionDecision(i: nat, decision: Retention, actor: UserId, now: Time) returns (refusal: Option<Error>)
      requires Valid()
      modifies this
      ensures Valid()
      ensures refusal == RetentionRefusal(old(State()), i, decision, now)
      ensures Lifecycle.RetentionDecision(old(State()), i, decision, actor, now)
           == if refusal.Some? then Refused(refusal.value) else Done(State())
      ensures refusal.Some? ==> State() == old(State())
    {
      if i >= |changes| { return Some(ChangeNotFound); }
      var c := changes[i];
      if c.changeType != Disconnection { return Some(NotADisconnection); }
      if c.retention.Some? { return Some(AlreadyDecided); }
      var today := StartOfDay(now);
      if decision == Proceed && c.retentionPromptDueAt.Some? && c.retentionPromptDueAt.value > today {
        return Some(RetentionWindowOpen);
      }
      if decision == Retain {
        changes := changes[i := c.(retention := Some(Retain), retentionDecidedAt := Some(now))];
        accounts := accounts[c.accountId := accounts[c.accountId].(status := Active)];
        audit := audit + [Entry(i, RetentionRetained, actor)];
      } else {
        var due := AddDays(today, DISCONNECTION_NOTICE_DAYS);
        changes := changes[i := c.(retention := Some(Proceed), retentionDecidedAt := Some(now), scheduledTerminationAt := Some(due))];
        accounts := accounts[c.accountId := accounts[c.accountId].(status := Disconnecting)];
        audit := audit + [Entry(i, RetentionProceeded, actor)];
      }
      return None;
    }

    method SweepDueTerminations(now: Time, locked: set<nat>)
      requires Valid()
      modifies this
      ensures Valid() && State() == Sweep(old(State()), now, locked)
    {
      var due := DueIds(changes, StartOfDay(now), locked);
      assert forall k | 0 <= k < |due| :: due[k] in due;
      var k := 0;
      while k < |due|
        invariant k <= |due|
        invariant Valid() && |changes| == |old(changes)|
        invariant State() == ApplyAll(old(State()), due[..k], now)
      {
        ApplyAllStep(old(State()), due, k, now);
        ApplyChangeToAccount(due[k], now);
        k := k + 1;
      }
      assert due[..k] == due;
    }
  }
}
