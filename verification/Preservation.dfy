/** Every service call keeps the invariant of the existing base. */
module Preservation {
  import opened Schema
  import opened Dates
  import opened Lifecycle
  import opened History
  import opened Invariant

  /** The caller's session carries the role the user directory records. */
  predicate SessionOk(users: map<UserId, User>, actor: UserId, role: Role) {
    actor in users && users[actor].role == role
  }

  lemma LogStories(db: Db, e: Entry)
    requires e.changeId < |db.changes|
    ensures SameStories(db, db.audit + [e], e.changeId)
  {
    forall j | 0 <= j < |db.changes| && j != e.changeId
      ensures Replay(db.audit + [e], j) == Replay(db.audit, j)
    {
      ReplaySnoc(db.audit, e, j);
    }
  }

  /** Row `i` moves to `c'` with one audit entry that tells of it. */
  function Logged(db: Db, i: nat, c': Change, account': Account, event: Event, actor: UserId): Db
    requires i < |db.changes| && c'.accountId < |db.accounts|
  {
    Replaced(db, i, c', account', db.audit + [Entry(i, event, actor)])
  }

  lemma LoggedTold(db: Db, i: nat, c': Change, account': Account, event: Event, actor: UserId)
    requires Keyed(db) && i < |db.changes| && Told(db, i)
    requires c'.accountId == db.changes[i].accountId
    requires account'.id == c'.accountId && account'.samOwner == db.accounts[c'.accountId].samOwner
    requires var told := Next(Replay(db.audit, i).value, event, actor);
             told.Some? && Tells(db.users, account'.samOwner, c', told.value)
    ensures Keyed(Logged(db, i, c', account', event, actor)) && Told(Logged(db, i, c', account', event, actor), i)
    ensures SameStories(db, Logged(db, i, c', account', event, actor).audit, i)
  {
    LogStories(db, Entry(i, event, actor));
    ReplaySnoc(db.audit, Entry(i, event, actor), i);
  }

  /** An in-flight row steps on and the audit log says so. */
  lemma LoggedKeeps(db: Db, i: nat, c': Change, account': Account, event: Event, actor: UserId)
    requires Inv(db) && i < |db.changes| && BaseRow(db, i) && InFlight(db.changes[i])
    requires RowStep(db.changes[i], c', db.accounts[db.changes[i].accountId], account')
    requires Told(db, i)
    requires var told := Next(Replay(db.audit, i).value, event, actor);
             told.Some? && Tells(db.users, account'.samOwner, c', told.value)
    ensures Inv(Logged(db, i, c', account', event, actor))
  {
    LoggedTold(db, i, c', account', event, actor);
    ReplaceKeeps(db, i, c', account', db.audit + [Entry(i, event, actor)]);
  }

  lemma BaseFacts(db: Db, i: nat)
    requires Inv(db) && i < |db.changes| && BaseRow(db, i)
    ensures Told(db, i) && RowInPlace(db, i) && Shape(db.changes[i])
  {
  }

  // ---- approval decisions ----------------------------------------------------

  lemma ActorIsAuthorised(users: map<UserId, User>, stage: ApprovalStatus, owner: Option<UserId>, actor: UserId, role: Role)
    requires IsPendingStage(stage) && SessionOk(users, actor, role)
    requires ActRefusal(users, stage, owner, actor, role) == None
    ensures Authorised(users, owner, Sign(stage, actor))
  {
  }

  /** A rejection ends the story before its last stage. */
  lemma SignRejects(users: map<UserId, User>, owner: Option<UserId>, c: Change, c': Change, p: Past, actor: UserId)
    requires Tells(users, owner, c, p) && IsPendingStage(c.approval)
    requires c'.approval == Rejected && c'.retention == c.retention && c'.changeType == c.changeType && c'.mode == c.mode
    ensures var told := Next(p, ApprovalRejected(c.approval), actor);
            told.Some? && Tells(users, owner, c', told.value)
  {
    assert Remaining(c.approval, c.changeType) != [];
    assert Stages(p.signs) < RequiredStages(c.changeType, c.mode);
  }

  lemma RejectKeeps(db: Db, i: nat, actor: UserId, now: Time)
    requires Inv(db) && i < |db.changes| && BaseRow(db, i) && IsPendingStage(db.changes[i].approval)
    ensures Inv(RejectChange(db, i, actor, now))
  {
    var c := db.changes[i];
    var c' := c.(approval := Rejected, rejectedBy := Some(actor), rejectedAt := Some(now));
    var account := db.accounts[c.accountId];
    assert Told(db, i) && RowInPlace(db, i);
    SignRejects(db.users, account.samOwner, c, c', Replay(db.audit, i).value, actor);
    LoggedKeeps(db, i, c', account.(status := Active), ApprovalRejected(c.approval), actor);
  }

  /** One more sign-off, at the row's own stage, moves the story one stage on. */
  lemma OneStageOn(before: seq<ApprovalStatus>, stage: ApprovalStatus, rest: seq<ApprovalStatus>)
    ensures before + ([stage] + rest) == (before + [stage]) + rest
  {
  }

  lemma SignAdvances(users: map<UserId, User>, owner: Option<UserId>, c: Change, next: ApprovalStatus, p: Past, actor: UserId)
    requires Tells(users, owner, c, p) && IsPendingStage(c.approval)
    requires NextStage(c.approval, c.changeType == Disconnection) == Some(next)
    requires Authorised(users, owner, Sign(c.approval, actor))
    ensures var told := Next(p, ApprovalAdvanced(c.approval, next), actor);
            told.Some? && Tells(users, owner, c.(approval := next), told.value)
  {
    StagesSnoc(p.signs, Sign(c.approval, actor));
    OneStageOn(Stages(p.signs), c.approval, Remaining(next, c.changeType));
  }

  lemma AdvanceShape(c: Change, next: ApprovalStatus, account: Account)
    requires Shape(c) && IsPendingStage(c.approval) && Mirrors(account, c)
    requires NextStage(c.approval, c.changeType == Disconnection) == Some(next)
    ensures RowStep(c, c.(approval := next), account, account)
  {
  }

  lemma AdvanceIsLogged(db: Db, i: nat, next: ApprovalStatus, actor: UserId)
    requires i < |db.changes| && db.changes[i].accountId < |db.accounts|
    ensures var c := db.changes[i];
            AdvanceChange(db, i, next, actor)
              == Logged(db, i, c.(approval := next), db.accounts[c.accountId], ApprovalAdvanced(c.approval, next), actor)
  {
    var c := db.changes[i];
    assert db.accounts[c.accountId := db.accounts[c.accountId]] == db.accounts;
  }

  lemma AdvanceKeeps(db: Db, i: nat, next: ApprovalStatus, actor: UserId)
    requires Inv(db) && i < |db.changes| && BaseRow(db, i) && IsPendingStage(db.changes[i].approval)
    requires NextStage(db.changes[i].approval, db.changes[i].changeType == Disconnection) == Some(next)
    requires Authorised(db.users, db.accounts[db.changes[i].accountId].samOwner, Sign(db.changes[i].approval, actor))
    ensures Inv(AdvanceChange(db, i, next, actor))
  {
    var c := db.changes[i];
    var account := db.accounts[c.accountId];
    BaseFacts(db, i);
    AdvanceShape(c, next, account);
    SignAdvances(db.users, account.samOwner, c, next, Replay(db.audit, i).value, actor);
    AdvanceIsLogged(db, i, next, actor);
    LoggedKeeps(db, i, c.(approval := next), account, ApprovalAdvanced(c.approval, next), actor);
  }

  lemma TerminalShape(c: Change, account: Account, material: Option<bool>, actor: UserId, now: Time)
    requires Shape(c) && IsPendingStage(c.approval) && Mirrors(account, c)
    ensures RowStep(c, TerminalChange(c, material, actor, now), account, TerminalAccount(account, c))
  {
    if c.mode == Some(Quick) {
      StartOfDayAddDays(now, c.quickDays.value);
    }
  }

  /** The sign-off at the last stage completes the story. */
  lemma SignCompletes(users: map<UserId, User>, owner: Option<UserId>, c: Change, material: Option<bool>, p: Past, actor: UserId, now: Time)
    requires Tells(users, owner, c, p) && Shape(c) && IsPendingStage(c.approval)
    requires NextStage(c.approval, c.changeType == Disconnection) == None
    requires Authorised(users, owner, Sign(c.approval, actor))
    ensures var told := Next(p, ApprovalApproved(c.approval, c.mode), actor);
            told.Some? && Tells(users, owner, TerminalChange(c, material, actor, now), told.value)
  {
    StagesSnoc(p.signs, Sign(c.approval, actor));
    assert Remaining(c.approval, c.changeType) == [c.approval];
  }

  lemma TerminalKeeps(db: Db, i: nat, material: Option<bool>, actor: UserId, now: Time)
    requires Inv(db) && i < |db.changes| && BaseRow(db, i) && IsPendingStage(db.changes[i].approval)
    requires NextStage(db.changes[i].approval, db.changes[i].changeType == Disconnection) == None
    requires Authorised(db.users, db.accounts[db.changes[i].accountId].samOwner, Sign(db.changes[i].approval, actor))
    ensures Inv(TerminalApproval(db, i, material, actor, now))
  {
    var c := db.changes[i];
    var account := db.accounts[c.accountId];
    assert Told(db, i) && RowInPlace(db, i);
    TerminalShape(c, account, material, actor, now);
    SignCompletes(db.users, account.samOwner, c, material, Replay(db.audit, i).value, actor, now);
    LoggedKeeps(db, i, TerminalChange(c, material, actor, now), TerminalAccount(account, c),
                ApprovalApproved(c.approval, c.mode), actor);
  }

  lemma DecideKeeps(db: Db, i: nat, verdict: Verdict, actor: UserId, role: Role, now: Time)
    requires Inv(db) && SessionOk(db.users, actor, role)
    requires DecideRefusal(db, i, verdict, actor, role) == None
    ensures Inv(Decided(db, i, verdict, actor, now))
  {
    var c := db.changes[i];
    assert BaseRow(db, i);
    ActorIsAuthorised(db.users, c.approval, db.accounts[c.accountId].samOwner, actor, role);
    match verdict
    case Reject(_) => RejectKeeps(db, i, actor, now);
    case Approve(material) =>
      match NextStage(c.approval, c.changeType == Disconnection)
      case Some(next) => AdvanceKeeps(db, i, next, actor);
      case None => TerminalKeeps(db, i, material, actor, now);
  }

  // ---- retention -------------------------------------------------------------

  function RetainedRow(c: Change, now: Time): Change {
    c.(retention := Some(Retain), retentionDecidedAt := Some(now))
  }

  lemma RetainShape(c: Change, account: Account, now: Time)
    requires Shape(c) && InFlight(c) && Mirrors(account, c)
    requires c.approval == Approved && c.changeType == Disconnection && c.retention == None
    ensures RowStep(c, RetainedRow(c, now), account, account.(status := Active))
  {
  }

  /** A retention decision adds itself to the story and nothing else. */
  lemma DecisionTells(users: map<UserId, User>, owner: Option<UserId>, c: Change, c': Change, p: Past, event: Event, actor: UserId)
    requires Tells(users, owner, c, p) && c.retention == None && c'.retention.Some?
    requires c'.approval == c.approval && c'.changeType == c.changeType && c'.mode == c.mode
    requires c'.retention == Some(Proceed) ==> event == RetentionProceeded
    requires c'.retention == Some(Retain) ==> event == RetentionRetained || event == RetentionRetainedAuto
    ensures var told := Next(p, event, actor);
            told.Some? && Tells(users, owner, c', told.value)
  {
    assert c'.retention.value == Retain || c'.retention.value == Proceed;
  }

  lemma RetainKeeps(db: Db, i: nat, event: Event, actor: UserId, now: Time)
    requires Inv(db) && i < |db.changes| && BaseRow(db, i)
    requires db.changes[i].approval == Approved && db.changes[i].changeType == Disconnection && db.changes[i].retention == None
    requires event == RetentionRetained || event == RetentionRetainedAuto
    ensures var c := db.changes[i];
            Inv(Logged(db, i, RetainedRow(c, now), db.accounts[c.accountId].(status := Active), event, actor))
  {
    var c := db.changes[i];
    var account := db.accounts[c.accountId];
    BaseFacts(db, i);
    RetainShape(c, account, now);
    DecisionTells(db.users, account.samOwner, c, RetainedRow(c, now), Replay(db.audit, i).value, event, actor);
    LoggedKeeps(db, i, RetainedRow(c, now), account.(status := Active), event, actor);
  }

  function ProceededRow(c: Change, now: Time): Change {
    c.(retention := Some(Proceed), retentionDecidedAt := Some(now),
       scheduledTerminationAt := Some(AddDays(StartOfDay(now), DISCONNECTION_NOTICE_DAYS)))
  }

  lemma ProceedShape(c: Change, account: Account, now: Time)
    requires Shape(c) && InFlight(c) && Mirrors(account, c)
    requires c.approval == Approved && c.changeType == Disconnection && c.retention == None
    requires c.retentionPromptDueAt.Some? ==> c.retentionPromptDueAt.value <= StartOfDay(now)
    ensures RowStep(c, ProceededRow(c, now), account, account.(status := Disconnecting))
  {
  }

  lemma ProceedKeeps(db: Db, i: nat, actor: UserId, now: Time)
    requires Inv(db) && i < |db.changes| && BaseRow(db, i) && db.changes[i].approval == Approved
    requires RetentionRefusal(db, i, Proceed, now) == None
    ensures Inv(RetentionApplied(db, i, Proceed, actor, now))
  {
    var c := db.changes[i];
    var account := db.accounts[c.accountId];
    BaseFacts(db, i);
    ProceedShape(c, account, now);
    DecisionTells(db.users, account.samOwner, c, ProceededRow(c, now), Replay(db.audit, i).value, RetentionProceeded, actor);
    LoggedKeeps(db, i, ProceededRow(c, now), account.(status := Disconnecting), RetentionProceeded, actor);
  }

  lemma ForeignRetention(db: Db, i: nat, decision: Retention, actor: UserId, now: Time)
    requires Inv(db) && i < |db.changes| && !BaseRow(db, i)
    ensures Inv(RetentionApplied(db, i, decision, actor, now))
  {
    var e := Entry(i, if decision == Retain then RetentionRetained else RetentionProceeded, actor);
    LogStories(db, e);
    ForeignKeeps(db, RetentionApplied(db, i, decision, actor, now), db.changes[i].accountId);
  }

  lemma RetentionKeeps(db: Db, i: nat, decision: Retention, actor: UserId, now: Time)
    requires Inv(db) && RetentionRefusal(db, i, decision, now) == None
    requires BaseRow(db, i) ==> db.changes[i].approval == Approved
    ensures Inv(RetentionApplied(db, i, decision, actor, now))
  {
    if !BaseRow(db, i) {
      ForeignRetention(db, i, decision, actor, now);
    } else if decision == Retain {
      RetainKeeps(db, i, RetentionRetained, actor, now);
    } else {
      ProceedKeeps(db, i, actor, now);
    }
  }

  // ---- termination -----------------------------------------------------------

  /** A row some sweep may have put on its list: due then, so proceeding and past its date now. */
  predicate Listed(c: Change, now: Time) {
    && c.changeType == Disconnection
    && c.retention == Some(Proceed)
    && c.scheduledTerminationAt.Some?
    && c.scheduledTerminationAt.value <= StartOfDay(now)
  }

  lemma ApplyShape(c: Change, account: Account, now: Time)
    requires Shape(c) && InFlight(c) && Listed(c, now) && Mirrors(account, c)
    ensures RowStep(c, c.(appliedAt := Some(now)), account, AppliedAccount(account, c))
  {
  }

  lemma ApplyBaseKeeps(db: Db, i: nat, now: Time)
    requires Inv(db) && i < |db.changes| && BaseRow(db, i) && Listed(db.changes[i], now) && db.changes[i].appliedAt == None
    ensures Inv(ApplyChange(db, i, now))
  {
    var c := db.changes[i];
    var account := db.accounts[c.accountId];
    assert Shape(c) && InFlight(c) && Told(db, i);
    ApplyShape(c, account, now);
    assert ApplyChange(db, i, now) == Replaced(db, i, c.(appliedAt := Some(now)), AppliedAccount(account, c), db.audit);
    ReplaceKeeps(db, i, c.(appliedAt := Some(now)), AppliedAccount(account, c), db.audit);
  }

  lemma ApplyKeeps(db: Db, i: nat, now: Time)
    requires Inv(db) && i < |db.changes| && Listed(db.changes[i], now)
    ensures Inv(ApplyChange(db, i, now))
  {
    if db.changes[i].appliedAt == None {
      if BaseRow(db, i) {
        ApplyBaseKeeps(db, i, now);
      } else {
        ForeignKeeps(db, ApplyChange(db, i, now), db.changes[i].accountId);
      }
    }
  }

  lemma AppliedRow(db: Db, i: nat, now: Time, j: nat)
    requires i < |db.changes| && db.changes[i].accountId < |db.accounts| && j < |db.changes|
    ensures var c := ApplyChange(db, i, now).changes[j];
              c == db.changes[j] || c == db.changes[j].(appliedAt := Some(now))
  {
  }

  /** Applying any list of due rows one after another keeps the invariant; rows change in their stamp alone. */
  lemma {:induction false} ApplyAllKeeps(db: Db, ids: seq<nat>, now: Time)
    requires Inv(db) && forall k | 0 <= k < |ids| :: ids[k] < |db.changes| && Listed(db.changes[ids[k]], now)
    ensures Inv(ApplyAll(db, ids, now))
    ensures forall j | 0 <= j < |db.changes| ::
              ApplyAll(db, ids, now).changes[j] == db.changes[j] || ApplyAll(db, ids, now).changes[j] == db.changes[j].(appliedAt := Some(now))
  {
    if ids != [] {
      var n := |ids| - 1;
      var before := ApplyAll(db, ids[..n], now);
      ApplyAllKeeps(db, ids[..n], now);
      ApplyKeeps(before, ids[n], now);
      forall j | 0 <= j < |db.changes|
        ensures ApplyAll(db, ids, now).changes[j] == db.changes[j] || ApplyAll(db, ids, now).changes[j] == db.changes[j].(appliedAt := Some(now))
      {
        AppliedRow(before, ids[n], now, j);
      }
    }
  }

  /** A sweep keeps the invariant, whichever rows it has to skip. */
  lemma SweepKeeps(db: Db, now: Time, locked: set<nat>)
    requires Inv(db)
    ensures Inv(Sweep(db, now, locked)) && |Sweep(db, now, locked).changes| == |db.changes|
    ensures forall j | 0 <= j < |db.changes| ::
              Sweep(db, now, locked).changes[j] == db.changes[j] || Sweep(db, now, locked).changes[j] == db.changes[j].(appliedAt := Some(now))
  {
    var ids := DueIds(db.changes, StartOfDay(now), locked);
    assert forall k | 0 <= k < |ids| :: ids[k] in ids;
    ApplyAllKeeps(db, ids, now);
  }

  // ---- commits ---------------------------------------------------------------

  lemma NewRowTold(db: Db, audit: seq<Entry>, input: CommitInput, middle: seq<Entry>, stage: ApprovalStatus)
    requires Keyed(db) && audit == db.audit
    requires |middle| <= 1 && forall k | 0 <= k < |middle| :: middle[k].changeId < |db.changes|
    requires stage == if IsQuick(input) then PendingSamHead else PendingAccounts
    ensures var n := |db.changes|;
            var log := (audit + [Entry(n, Committed, input.actor)]) + middle + [Entry(n, ApprovalRequested(stage), input.actor)];
            && Replay(log, n) == Some(Past(stage, None, []))
            && forall j | 0 <= j < n :: Replay(log, j) == Replay(audit + middle, j)
  {
    var n := |db.changes|;
    var e0, e2 := Entry(n, Committed, input.actor), Entry(n, ApprovalRequested(stage), input.actor);
    ReplayUnmentioned(audit, n);
    ReplaySnoc(audit, e0, n);
    ReplaySnoc(audit + [e0] + middle, e2, n);
    if middle == [] {
      assert audit + [e0] + middle == audit + [e0];
      assert audit + middle == audit;
    } else {
      assert middle == [middle[0]];
      ReplaySnoc(audit + [e0], middle[0], n);
    }
    forall j | 0 <= j < n
      ensures Replay(audit + [e0] + middle + [e2], j) == Replay(audit + middle, j)
    {
      ReplaySnoc(audit + [e0] + middle, e2, j);
      ReplaySnoc(audit, e0, j);
      if middle != [] {
        ReplaySnoc(audit + [e0], middle[0], j);
        ReplaySnoc(audit, middle[0], j);
      }
    }
  }

  function ChainStage(input: CommitInput): ApprovalStatus {
    if IsQuick(input) then PendingSamHead else PendingAccounts
  }

  lemma NewRowTells(users: map<UserId, User>, owner: Option<UserId>, input: CommitInput, oldArc: int)
    ensures Tells(users, owner, NewChange(input, oldArc).(approval := ChainStage(input)), Past(ChainStage(input), None, []))
  {
    var c := NewChange(input, oldArc).(approval := ChainStage(input));
    assert Stages([]) == [];
    assert Remaining(c.approval, c.changeType) == RequiredStages(c.changeType, c.mode);
  }

  lemma PlainCommitRows(db: Db, input: CommitInput, now: Time)
    requires Keyed(db) && input.accountId < |db.accounts|
    requires db.accounts[input.accountId].kitty == BaseKitty && db.accounts[input.accountId].status != ProbableChurn
    ensures var c := NewChange(input, db.accounts[input.accountId].currentArc).(approval := ChainStage(input));
            var n := |db.changes|;
            Accepted(db, input, now) == Appended(db, c,
              db.audit + [Entry(n, Committed, input.actor)] + [] + [Entry(n, ApprovalRequested(ChainStage(input)), input.actor)])
  {
    var raw := NewChange(input, db.accounts[input.accountId].currentArc);
    assert (db.changes + [raw])[|db.changes| := raw.(approval := ChainStage(input))]
        == db.changes + [raw.(approval := ChainStage(input))];
    assert db.audit + [Entry(|db.changes|, Committed, input.actor)] + [] == db.audit + [Entry(|db.changes|, Committed, input.actor)];
  }

  lemma PlainCommitTables(db: Db, input: CommitInput, now: Time)
    requires Keyed(db) && input.accountId < |db.accounts|
    requires db.accounts[input.accountId].kitty == BaseKitty && db.accounts[input.accountId].status != ProbableChurn
    ensures var c := NewChange(input, db.accounts[input.accountId].currentArc).(approval := ChainStage(input));
            var db' := Accepted(db, input, now);
            && Keyed(db') && db' == Appended(db, c, db'.audit)
            && SameStories(db, db'.audit, |db.changes|) && Told(db', |db.changes|)
  {
    PlainCommitRows(db, input, now);
    NewRowTold(db, db.audit, input, [], ChainStage(input));
    assert db.audit + [] == db.audit;
    NewRowTells(db.users, db.accounts[input.accountId].samOwner, input, db.accounts[input.accountId].currentArc);
  }

  /** The plain case: nothing in flight on the account. */
  lemma PlainCommitKeeps(db: Db, input: CommitInput, quickEnabled: bool, now: Time)
    requires Inv(db) && CommitRefusal(db, input, quickEnabled) == None
    requires db.accounts[input.accountId].kitty == BaseKitty && db.accounts[input.accountId].status != ProbableChurn
    ensures Inv(Accepted(db, input, now))
  {
    assert AccountInPlace(db, input.accountId);
    PlainCommitTables(db, input, now);
    AppendKeeps(db, NewChange(input, db.accounts[input.accountId].currentArc).(approval := ChainStage(input)),
                Accepted(db, input, now).audit);
  }

  lemma LatestOnAppend(changes: seq<Change>, c: Change, a: nat)
    requires !UndecidedDisconnection(c, a)
    ensures LatestUndecided(changes + [c], a) == LatestUndecided(changes, a)
  {
    assert (changes + [c])[..|changes|] == changes;
  }

  /** A row that is its account's last is the one auto-retain picks. */
  lemma LastIsLatest(changes: seq<Change>, a: nat, i: nat)
    requires i < |changes| && Last(changes, i) && UndecidedDisconnection(changes[i], a)
    ensures LatestUndecided(changes, a) == Some(i)
  {
  }

  /** On an account in its retention window, the row auto-retain picks is the one in flight. */
  lemma RetentionRow(db: Db, a: nat) returns (i: nat)
    requires Inv(db) && a < |db.accounts| && db.accounts[a].kitty == BaseKitty && db.accounts[a].status == ProbableChurn
    ensures i < |db.changes| && db.changes[i].accountId == a && BaseRow(db, i)
    ensures InFlight(db.changes[i]) && db.changes[i].approval == Approved
    ensures db.changes[i].changeType == Disconnection && db.changes[i].retention == None
    ensures LatestUndecided(db.changes, a) == Some(i)
    ensures Last(db.changes, i)
  {
    assert AccountInPlace(db, a) && HasInFlight(db, a);
    i :| 0 <= i < |db.changes| && db.changes[i].accountId == a && InFlight(db.changes[i]);
    assert BaseRow(db, i) && RowInPlace(db, i);
    LastIsLatest(db.changes, a, i);
  }

  /** Row `i` of `db` retained on its way out of the retention window. */
  function RetainedFirst(db: Db, i: nat, actor: UserId, now: Time): Db
    requires i < |db.changes| && db.changes[i].accountId < |db.accounts|
  {
    Logged(db, i, RetainedRow(db.changes[i], now), db.accounts[db.changes[i].accountId].(status := Active),
           RetentionRetainedAuto, actor)
  }

  /** A commit of something else on an account whose retention row is `i`. */
  ghost predicate Reentry(db: Db, input: CommitInput, i: nat) {
    && Keyed(db) && input.accountId < |db.accounts| && i < |db.changes|
    && db.changes[i].accountId == input.accountId && input.changeType != Disconnection
    && db.accounts[input.accountId].kitty == BaseKitty && db.accounts[input.accountId].status == ProbableChurn
    && LatestUndecided(db.changes, input.accountId) == Some(i)
  }

  /** The tables after it: row `i` retained, the new row appended. */
  lemma ReentryTables(db: Db, input: CommitInput, i: nat, now: Time)
    requires Reentry(db, input, i)
    ensures var n := |db.changes|;
            var c := NewChange(input, db.accounts[input.accountId].currentArc).(approval := PendingAccounts);
            Accepted(db, input, now) == Appended(RetainedFirst(db, i, input.actor, now), c,
              db.audit + [Entry(n, Committed, input.actor)] + [Entry(i, RetentionRetainedAuto, input.actor)]
              + [Entry(n, ApprovalRequested(PendingAccounts), input.actor)])
  {
    var raw := NewChange(input, db.accounts[input.accountId].currentArc);
    LatestOnAppend(db.changes, raw, input.accountId);
    var retained := RetainedRow(db.changes[i], now);
    assert (db.changes + [raw])[i := retained][|db.changes| := raw.(approval := PendingAccounts)]
        == db.changes[i := retained] + [raw.(approval := PendingAccounts)];
  }

  lemma ReentryTold(db: Db, input: CommitInput, i: nat, now: Time)
    requires Reentry(db, input, i)
    ensures Keyed(RetainedFirst(db, i, input.actor, now)) && Keyed(Accepted(db, input, now))
    ensures SameStories(RetainedFirst(db, i, input.actor, now), Accepted(db, input, now).audit, |db.changes|)
    ensures Told(Accepted(db, input, now), |db.changes|)
  {
    ReentryTables(db, input, i, now);
    NewRowTold(db, db.audit, input, [Entry(i, RetentionRetainedAuto, input.actor)], PendingAccounts);
    NewRowTells(db.users, db.accounts[input.accountId].samOwner, input, db.accounts[input.accountId].currentArc);
  }

  lemma ReentryKeeps(db: Db, input: CommitInput, i: nat, now: Time)
    requires Reentry(db, input, i)
    requires Inv(RetainedFirst(db, i, input.actor, now))
    ensures Inv(Accepted(db, input, now))
  {
    ReentryTables(db, input, i, now);
    ReentryTold(db, input, i, now);
    AppendKeeps(RetainedFirst(db, i, input.actor, now),
                NewChange(input, db.accounts[input.accountId].currentArc).(approval := PendingAccounts),
                Accepted(db, input, now).audit);
  }

  /** A non-disconnection on an account in its retention window retains the customer first. */
  lemma RetainingCommitKeeps(db: Db, input: CommitInput, quickEnabled: bool, now: Time)
    requires Inv(db) && CommitRefusal(db, input, quickEnabled) == None
    requires db.accounts[input.accountId].kitty == BaseKitty && db.accounts[input.accountId].status == ProbableChurn
    ensures Inv(Accepted(db, input, now))
  {
    var i := RetentionRow(db, input.accountId);
    RetainKeeps(db, i, RetentionRetainedAuto, input.actor, now);
    ReentryKeeps(db, input, i, now);
  }

  /** `db'` adds nothing to the story of row `j`. */
  ghost predicate Silent(db: Db, db': Db, j: nat) {
    Replay(db'.audit, j) == Replay(db.audit, j)
  }

  lemma WrittenSilent(db: Db, input: CommitInput, j: nat)
    requires input.accountId < |db.accounts| && j < |db.changes|
    ensures Silent(db, Written(db, input), j)
  {
    ReplaySnoc(db.audit, Entry(|db.changes|, Committed, input.actor), j);
  }

  lemma AutoRetainSilent(db: Db, a: nat, actor: UserId, now: Time, j: nat)
    requires a < |db.accounts| && j < |db.changes| && db.changes[j].accountId != a
    ensures Silent(db, AutoRetain(db, a, actor, now), j)
  {
    var i := LatestUndecided(db.changes, a);
    if i.Some? {
      ReplaySnoc(db.audit, Entry(i.value, RetentionRetainedAuto, actor), j);
    }
  }

  lemma RouteSilent(db: Db, i: nat, account: Account, input: CommitInput, now: Time, j: nat)
    requires i < |db.changes| && db.changes[i].accountId < |db.accounts| && j < |db.changes| && j != i
    requires account.kitty == NewKitty
    ensures Silent(db, Route(db, i, account, input, now), j)
  {
    ReplaySnoc(db.audit, Entry(i, QuickRequested, db.changes[i].createdBy), j);
  }

  lemma ForeignCommitStories(db: Db, input: CommitInput, now: Time, j: nat)
    requires Keyed(db) && input.accountId < |db.accounts| && db.accounts[input.accountId].kitty == NewKitty
    requires j < |db.changes| && db.changes[j].accountId != input.accountId
    ensures Silent(db, Accepted(db, input, now), j)
  {
    var a, n := input.accountId, |db.changes|;
    var db1 := Written(db, input);
    WrittenSilent(db, input, j);
    var db2 := if input.changeType != Disconnection && db.accounts[a].status == ProbableChurn
               then AutoRetain(db1, a, input.actor, now) else db1;
    AutoRetainSilent(db1, a, input.actor, now, j);
    RouteSilent(db2, n, db.accounts[a], input, now, j);
  }

  lemma OnlyTablesTrans(x: Db, y: Db, z: Db, a: nat)
    requires Keyed(x) && Keyed(y) && Keyed(z) && OnlyTables(x, y, a) && OnlyTables(y, z, a)
    ensures OnlyTables(x, z, a)
  {
  }

  lemma WrittenOnly(db: Db, input: CommitInput)
    requires Keyed(db) && input.accountId < |db.accounts|
    ensures Keyed(Written(db, input)) && OnlyTables(db, Written(db, input), input.accountId)
  {
  }

  lemma AutoRetainOnly(db: Db, a: nat, actor: UserId, now: Time)
    requires Keyed(db) && a < |db.accounts|
    ensures Keyed(AutoRetain(db, a, actor, now)) && OnlyTables(db, AutoRetain(db, a, actor, now), a)
  {
  }

  lemma RouteOnly(db: Db, i: nat, account: Account, input: CommitInput, now: Time)
    requires Keyed(db) && i < |db.changes| && account.kitty == NewKitty
    ensures Keyed(Route(db, i, account, input, now)) && OnlyTables(db, Route(db, i, account, input, now), db.changes[i].accountId)
  {
  }

  lemma ForeignCommitTables(db: Db, input: CommitInput, now: Time)
    requires Keyed(db) && input.accountId < |db.accounts|
    requires db.accounts[input.accountId].kitty == NewKitty
    ensures Keyed(Accepted(db, input, now)) && OnlyTables(db, Accepted(db, input, now), input.accountId)
  {
    var a, n := input.accountId, |db.changes|;
    var db1 := Written(db, input);
    WrittenOnly(db, input);
    var db2 := if input.changeType != Disconnection && db.accounts[a].status == ProbableChurn
               then AutoRetain(db1, a, input.actor, now) else db1;
    AutoRetainOnly(db1, a, input.actor, now);
    OnlyTablesTrans(db, db1, db2, a);
    RouteOnly(db2, n, db.accounts[a], input, now);
    OnlyTablesTrans(db, db2, Route(db2, n, db.accounts[a], input, now), a);
  }

  lemma ForeignCommit(db: Db, input: CommitInput, now: Time)
    requires Inv(db) && input.accountId < |db.accounts|
    requires db.accounts[input.accountId].kitty == NewKitty
    ensures Inv(Accepted(db, input, now))
  {
    ForeignCommitTables(db, input, now);
    forall j | 0 <= j < |db.changes| && db.changes[j].accountId != input.accountId
      ensures Replay(Accepted(db, input, now).audit, j) == Replay(db.audit, j)
    {
      ForeignCommitStories(db, input, now, j);
    }
    ForeignKeeps(db, Accepted(db, input, now), input.accountId);
  }

  lemma CommitKeeps(db: Db, input: CommitInput, quickEnabled: bool, now: Time)
    requires Inv(db) && CommitRefusal(db, input, quickEnabled) == None
    ensures Inv(Accepted(db, input, now))
  {
    if db.accounts[input.accountId].kitty == NewKitty {
      ForeignCommit(db, input, now);
    } else if db.accounts[input.accountId].status == ProbableChurn {
      RetainingCommitKeeps(db, input, quickEnabled, now);
    } else {
      PlainCommitKeeps(db, input, quickEnabled, now);
    }
  }

  // ---- what every call leaves in place ---------------------------------------

  /** The columns no lifecycle step writes. */
  predicate SameIdentity(x: Account, y: Account) {
    && x.id == y.id && x.kitty == y.kitty && x.samOwner == y.samOwner && x.startOfPeriodArc == y.startOfPeriodArc
  }

  ghost predicate Framed(db: Db, db': Db) {
    && Keyed(db') && db'.users == db.users
    && |db'.changes| >= |db.changes| && |db'.accounts| == |db.accounts|
    && forall a | 0 <= a < |db.accounts| :: SameIdentity(db.accounts[a], db'.accounts[a])
  }

  lemma FramedTrans(x: Db, y: Db, z: Db)
    requires Framed(x, y) && Framed(y, z)
    ensures Framed(x, z)
  {
  }

  lemma AutoRetainFramed(db: Db, a: nat, actor: UserId, now: Time)
    requires Keyed(db) && a < |db.accounts|
    ensures Framed(db, AutoRetain(db, a, actor, now))
  {
  }

  lemma RouteFramed(db: Db, i: nat, account: Account, input: CommitInput, now: Time)
    requires Keyed(db) && i < |db.changes|
    ensures Framed(db, Route(db, i, account, input, now))
  {
  }

  lemma AcceptedFramed(db: Db, input: CommitInput, now: Time)
    requires Keyed(db) && input.accountId < |db.accounts|
    ensures Framed(db, Accepted(db, input, now))
  {
    var a, n := input.accountId, |db.changes|;
    var db1 := Written(db, input);
    assert Framed(db, db1);
    var db2 := if input.changeType != Disconnection && db.accounts[a].status == ProbableChurn
               then AutoRetain(db1, a, input.actor, now) else db1;
    AutoRetainFramed(db1, a, input.actor, now);
    FramedTrans(db, db1, db2);
    RouteFramed(db2, n, db.accounts[a], input, now);
    FramedTrans(db, db2, Route(db2, n, db.accounts[a], input, now));
  }

  lemma DecidedFramed(db: Db, i: nat, verdict: Verdict, actor: UserId, now: Time)
    requires Keyed(db) && i < |db.changes| && IsPendingStage(db.changes[i].approval)
    ensures Framed(db, Decided(db, i, verdict, actor, now))
  {
  }

  lemma {:induction false} ApplyAllFramed(db: Db, ids: seq<nat>, now: Time)
    requires Keyed(db) && forall k | 0 <= k < |ids| :: ids[k] < |db.changes|
    ensures Framed(db, ApplyAll(db, ids, now))
  {
    if ids != [] {
      ApplyAllFramed(db, ids[..|ids| - 1], now);
    }
  }

  lemma SweepFramed(db: Db, now: Time, locked: set<nat>)
    requires Keyed(db)
    ensures Framed(db, Sweep(db, now, locked))
  {
    var ids := DueIds(db.changes, StartOfDay(now), locked);
    assert forall k | 0 <= k < |ids| :: ids[k] in ids;
    ApplyAllFramed(db, ids, now);
  }

  lemma RetentionFramed(db: Db, i: nat, decision: Retention, actor: UserId, now: Time)
    requires Keyed(db) && i < |db.changes|
    ensures Framed(db, RetentionApplied(db, i, decision, actor, now))
  {
  }
}
