/**
  What each accepted call of the commercial-change services leaves behind, column by
  column, and that it leaves the rest of the tables alone.
 */
module Effects {
  import opened Schema
  import opened Dates
  import opened Lifecycle
  import opened Refusals

  // ---- commit ----------------------------------------------------------------

  /** Row `c` holds what `input` asked of `account`. */
  predicate CarriesRequest(c: Change, account: Account, input: CommitInput) {
    && c.accountId == input.accountId && c.createdBy == input.actor
    && c.changeType == input.changeType && c.effectiveDate == input.effectiveDate
    && c.oldArc == account.currentArc && c.newArc == input.newArc && c.newBandwidth == input.newBandwidth
    && (c.mode == None <==> input.changeType != Disconnection)
    && (c.mode == Some(Quick) <==> QuickRequest(input))
    && (QuickRequest(input) ==> c.quickDays == input.quickDays)
    && (!QuickRequest(input) ==> c.quickDays == None)
  }

  /** Nobody has decided anything about row `c`. */
  predicate Untouched(c: Change) {
    && c.approvedBy == None && c.approvedAt == None && c.rejectedBy == None && c.rejectedAt == None
    && c.materialRecovered == None && c.retention == None && c.retentionDecidedAt == None
    && c.scheduledTerminationAt == None
  }

  /** Row `i` is the newest disconnection of account `a` that nobody has decided to retain or let go. */
  ghost predicate NewestUndecided(changes: seq<Change>, a: nat, i: nat) {
    && i < |changes| && changes[i].accountId == a && changes[i].changeType == Disconnection && changes[i].retention == None
    && forall j | i < j < |changes| && changes[j].accountId == a && changes[j].changeType == Disconnection :: changes[j].retention.Some?
  }

  /** The request takes the account out of its retention window. */
  predicate Displaces(account: Account, input: CommitInput) {
    account.status == ProbableChurn && input.changeType != Disconnection
  }

  predicate Retained(c: Change, c': Change, now: Time) {
    c' == c.(retention := Some(Retain), retentionDecidedAt := Some(now))
  }

  /** Row `n` was appended; of the others only a displaced disconnection changed, to be retained. */
  ghost predicate OneRowMore(db: Db, db': Db, input: CommitInput, now: Time)
    requires input.accountId < |db.accounts|
  {
    var n, displaces := |db.changes|, Displaces(db.accounts[input.accountId], input);
    && |db'.changes| == n + 1 && db'.users == db.users
    && CarriesRequest(db'.changes[n], db.accounts[input.accountId], input) && Untouched(db'.changes[n])
    && forall j | 0 <= j < n ::
         if displaces && NewestUndecided(db.changes, input.accountId, j) then Retained(db.changes[j], db'.changes[j], now)
         else db'.changes[j] == db.changes[j]
  }

  lemma WrittenCarries(db: Db, input: CommitInput)
    requires input.accountId < |db.accounts|
    ensures var c := NewChange(input, db.accounts[input.accountId].currentArc);
            && CarriesRequest(c, db.accounts[input.accountId], input) && Untouched(c)
            && c.approval == NotRequired && c.appliedAt == None && c.retentionPromptDueAt == None
            && Written(db, input) == db.(changes := db.changes + [c], audit := db.audit + [Entry(|db.changes|, Committed, input.actor)])
  {
    if input.mode.Some? {
      assert input.mode.value == Normal || input.mode.value == Quick;
    }
  }

  /** The displaced disconnection, if there is one. */
  lemma LatestIsNewest(changes: seq<Change>, c: Change, a: nat)
    requires c.changeType != Disconnection
    ensures match LatestUndecided(changes + [c], a)
            case None => forall j | 0 <= j < |changes| :: !NewestUndecided(changes, a, j)
            case Some(i) => i < |changes| && forall j | 0 <= j < |changes| :: NewestUndecided(changes, a, j) <==> j == i
  {
    var rows := changes + [c];
    match LatestUndecided(rows, a)
    case None =>
      forall j | 0 <= j < |changes|
        ensures !NewestUndecided(changes, a, j)
      {
        assert !UndecidedDisconnection(rows[j], a);
      }
    case Some(i) =>
      assert UndecidedDisconnection(rows[i], a) && rows[i] == changes[i];
      forall j | i < j < |changes|
        ensures !UndecidedDisconnection(changes[j], a)
      {
        assert rows[j] == changes[j];
      }
  }

  /** The tables once the row is written and any displaced disconnection is retained. */
  function Before(db: Db, input: CommitInput, now: Time): Db
    requires input.accountId < |db.accounts|
  {
    if Displaces(db.accounts[input.accountId], input) then AutoRetain(Written(db, input), input.accountId, input.actor, now)
    else Written(db, input)
  }

  lemma BeforeRoute(db: Db, input: CommitInput, now: Time)
    requires Keyed(db) && input.accountId < |db.accounts|
    ensures Accepted(db, input, now) == Route(Before(db, input, now), |db.changes|, db.accounts[input.accountId], input, now)
    ensures OneRowMore(db, Before(db, input, now), input, now)
    ensures Before(db, input, now).changes[|db.changes|] == NewChange(input, db.accounts[input.accountId].currentArc)
  {
    WrittenCarries(db, input);
    if Displaces(db.accounts[input.accountId], input) {
      LatestIsNewest(db.changes, NewChange(input, db.accounts[input.accountId].currentArc), input.accountId);
    }
  }

  /** The entries a commit writes first: the row, and the retention of a displaced row. */
  ghost predicate StartsLog(db: Db, log: seq<Entry>, input: CommitInput)
    requires input.accountId < |db.accounts|
  {
    var a, committed := input.accountId, Entry(|db.changes|, Committed, input.actor);
    if Displaces(db.accounts[a], input) && exists i :: NewestUndecided(db.changes, a, i) then
      exists i :: NewestUndecided(db.changes, a, i) && log == db.audit + [committed, Entry(i, RetentionRetainedAuto, input.actor)]
    else log == db.audit + [committed]
  }

  /** Only account `input.accountId` can have changed, and only as `account'`. */
  ghost predicate OneAccount(db: Db, db': Db, input: CommitInput, account': Account)
    requires input.accountId < |db.accounts|
  {
    db'.accounts == db.accounts[input.accountId := account']
  }

  lemma BeforeRest(db: Db, input: CommitInput, now: Time)
    requires Keyed(db) && input.accountId < |db.accounts|
    ensures StartsLog(db, Before(db, input, now).audit, input)
    ensures var a := input.accountId;
            OneAccount(db, Before(db, input, now), input,
              if Displaces(db.accounts[a], input) && exists i :: NewestUndecided(db.changes, a, i)
              then db.accounts[a].(status := Active) else db.accounts[a])
  {
    var a := input.accountId;
    WrittenCarries(db, input);
    if Displaces(db.accounts[a], input) {
      LatestIsNewest(db.changes, NewChange(input, db.accounts[a].currentArc), a);
      var r := LatestUndecided(Written(db, input).changes, a);
      if r.Some? {
        assert NewestUndecided(db.changes, a, r.value);
      }
    }
  }

  /**
    An accepted commit on an existing-base account writes one row with everything asked for,
    at the first of its stages; the account waits in PENDING_APPROVAL.
   */
  lemma CommitOnBase(db: Db, input: CommitInput, quickEnabled: bool, now: Time)
    requires Keyed(db) && CommitRefusal(db, input, quickEnabled) == None && db.accounts[input.accountId].kitty == BaseKitty
    ensures Commit(db, input, quickEnabled, now).Done?
    ensures var db', n := Commit(db, input, quickEnabled, now).db, |db.changes|;
            var stage := if QuickRequest(input) then PendingSamHead else PendingAccounts;
            && OneRowMore(db, db', input, now)
            && db'.changes[n].approval == stage && db'.changes[n].appliedAt == None && db'.changes[n].retentionPromptDueAt == None
            && OneAccount(db, db', input, db.accounts[input.accountId].(status := PendingApproval))
            && |db'.audit| > 0 && db'.audit[|db'.audit| - 1] == Entry(n, ApprovalRequested(stage), input.actor)
            && StartsLog(db, db'.audit[..|db'.audit| - 1], input)
  {
    BeforeRoute(db, input, now);
    BeforeRest(db, input, now);
    RouteOnBase(Before(db, input, now), |db.changes|, db.accounts[input.accountId], input, now);
  }

  lemma RouteOnBase(db: Db, i: nat, account: Account, input: CommitInput, now: Time)
    requires i < |db.changes| && db.changes[i].accountId < |db.accounts| && account.kitty == BaseKitty
    ensures var a, c, db' := db.changes[i].accountId, db.changes[i], Route(db, i, account, input, now);
            var stage := if QuickRequest(input) then PendingSamHead else PendingAccounts;
            db' == db.(changes := db.changes[i := c.(approval := stage)],
                       accounts := db.accounts[a := db.accounts[a].(status := PendingApproval)],
                       audit := db.audit + [Entry(i, ApprovalRequested(stage), c.createdBy)])
  {
  }

  /**
    On a new-base account a disconnection opens its retention window 21 days after the
    effective date, or waits for a quick approval; any other change waits for the CRM, or lands
    at once if the account has no CRM id.
   */
  lemma CommitOnNew(db: Db, input: CommitInput, quickEnabled: bool, now: Time)
    requires Keyed(db) && CommitRefusal(db, input, quickEnabled) == None && db.accounts[input.accountId].kitty == NewKitty
    ensures Commit(db, input, quickEnabled, now).Done?
    ensures var db', n, account := Commit(db, input, quickEnabled, now).db, |db.changes|, db.accounts[input.accountId];
            var quick, leaves := QuickRequest(input), input.changeType == Disconnection;
            && OneRowMore(db, db', input, now) && db'.changes[n].approval == NotRequired
            && (quick ==>
                  && db'.changes[n].appliedAt == None && db'.changes[n].retentionPromptDueAt == None
                  && OneAccount(db, db', input, account.(status := PendingQuickApproval))
                  && db'.audit == db.audit + [Entry(n, Committed, input.actor), Entry(n, QuickRequested, input.actor)])
            && (leaves && !quick ==>
                  && db'.changes[n].appliedAt == None
                  && db'.changes[n].retentionPromptDueAt == Some(DayAfter(input.effectiveDate, 21))
                  && OneAccount(db, db', input, account.(status := ProbableChurn))
                  && db'.audit == db.audit + [Entry(n, Committed, input.actor)])
            && (!leaves ==>
                  var status := if Displaces(account, input) && exists i :: NewestUndecided(db.changes, input.accountId, i)
                                then Active else account.status;
                  && db'.changes[n].retentionPromptDueAt == None
                  && db'.changes[n].appliedAt == (if account.externalCrmId == None then Some(now) else None)
                  && OneAccount(db, db', input,
                       if account.externalCrmId.Some? then account.(status := status)
                       else account.(status := status, currentArc := input.newArc,
                                     bandwidth := if input.newBandwidth == None then account.bandwidth else input.newBandwidth))
                  && StartsLog(db, db'.audit, input))
  {
    BeforeRoute(db, input, now);
    BeforeRest(db, input, now);
  }

  // ---- decide ----------------------------------------------------------------

  /** The tables of `db` with row `i`, its account and one more entry as given. */
  function With(db: Db, i: nat, c': Change, account': Account, event: Event, actor: UserId): Db
    requires i < |db.changes| && db.changes[i].accountId < |db.accounts|
  {
    Db(db.users, db.accounts[db.changes[i].accountId := account'], db.changes[i := c'], db.audit + [Entry(i, event, actor)])
  }

  /** A rejection marks the row, its rejecter and the hour, and frees the account. */
  lemma RejectionRecorded(db: Db, i: nat, reason: string, actor: UserId, role: Role, now: Time)
    requires Keyed(db) && DecideRefusal(db, i, Reject(reason), actor, role) == None
    ensures var c, account := db.changes[i], db.accounts[db.changes[i].accountId];
            Decide(db, i, Reject(reason), actor, role, now) ==
              Done(With(db, i, c.(approval := Rejected, rejectedBy := Some(actor), rejectedAt := Some(now)),
                        account.(status := Active), ApprovalRejected(c.approval), actor))
  {
  }

  /** The stage after this one, if a disconnection or another change has one. */
  predicate MovesOn(c: Change, next: ApprovalStatus) {
    || (c.approval == PendingSamHead && next == PendingAccounts)
    || (c.approval == PendingAccounts && c.changeType == Disconnection && next == PendingSuperAdmin2)
  }

  /** An approval before the last stage moves the row to the next one and writes nothing else. */
  lemma AdvanceRecorded(db: Db, i: nat, material: Option<bool>, actor: UserId, role: Role, now: Time, next: ApprovalStatus)
    requires Keyed(db) && DecideRefusal(db, i, Approve(material), actor, role) == None && MovesOn(db.changes[i], next)
    ensures var c, account := db.changes[i], db.accounts[db.changes[i].accountId];
            Decide(db, i, Approve(material), actor, role, now) ==
              Done(With(db, i, c.(approval := next), account, ApprovalAdvanced(c.approval, next), actor))
  {
    var a := db.changes[i].accountId;
    assert db.accounts[a := db.accounts[a]] == db.accounts;
  }

  /** This approval is the last the row needs. */
  predicate LastStage(c: Change) {
    c.approval == PendingSuperAdmin2 || (c.approval == PendingAccounts && c.changeType != Disconnection)
  }

  /** What the last approval writes into row `c`. */
  predicate SignedOff(c: Change, c': Change, material: Option<bool>, actor: UserId, now: Time) {
    && SameBut(c, c')
    && c'.approval == Approved && c'.approvedBy == Some(actor) && c'.approvedAt == Some(now)
    && c'.rejectedBy == c.rejectedBy && c'.rejectedAt == c.rejectedAt
    && (c.changeType != Disconnection ==>
          && c'.appliedAt == Some(now) && c'.materialRecovered == c.materialRecovered && c'.retention == c.retention
          && c'.retentionDecidedAt == c.retentionDecidedAt && c'.retentionPromptDueAt == c.retentionPromptDueAt
          && c'.scheduledTerminationAt == c.scheduledTerminationAt)
    && (c.changeType == Disconnection ==> c'.appliedAt == c.appliedAt && c'.materialRecovered == material)
    && (c.changeType == Disconnection && c.mode == Some(Quick) ==>
          && c'.retention == Some(Proceed) && c'.retentionDecidedAt == Some(now)
          && c'.retentionPromptDueAt == c.retentionPromptDueAt
          && c'.scheduledTerminationAt == Some(DayAfter(now, if c.quickDays == None then 1 else c.quickDays.value)))
    && (c.changeType == Disconnection && c.mode != Some(Quick) ==>
          && c'.retention == c.retention && c'.retentionDecidedAt == c.retentionDecidedAt
          && c'.retentionPromptDueAt == Some(DayAfter(now, 21))
          && c'.scheduledTerminationAt == c.scheduledTerminationAt)
  }

  /** The request's columns are the same. */
  predicate SameBut(c: Change, c': Change) {
    && c'.accountId == c.accountId && c'.createdBy == c.createdBy && c'.changeType == c.changeType
    && c'.effectiveDate == c.effectiveDate && c'.oldArc == c.oldArc && c'.newArc == c.newArc
    && c'.newBandwidth == c.newBandwidth && c'.mode == c.mode && c'.quickDays == c.quickDays
  }

  /** What it makes of the account. */
  function AfterLast(account: Account, c: Change): Account {
    match (c.changeType, c.mode)
    case (Disconnection, Some(Quick)) => account.(status := Disconnecting)
    case (Disconnection, _) => account.(status := ProbableChurn)
    case (_, _) =>
      account.(status := Active, currentArc := c.newArc,
               bandwidth := if c.newBandwidth == None then account.bandwidth else c.newBandwidth)
  }

  /** The last approval signs the row and applies it, opens its retention window or dates its end. */
  lemma ApprovalRecorded(db: Db, i: nat, material: Option<bool>, actor: UserId, role: Role, now: Time)
    requires Keyed(db) && DecideRefusal(db, i, Approve(material), actor, role) == None && LastStage(db.changes[i])
    ensures Decide(db, i, Approve(material), actor, role, now).Done?
    ensures var c, a := db.changes[i], db.changes[i].accountId;
            var db' := Decide(db, i, Approve(material), actor, role, now).db;
            && |db'.changes| == |db.changes| && SignedOff(c, db'.changes[i], material, actor, now)
            && db' == With(db, i, db'.changes[i], AfterLast(db.accounts[a], c), ApprovalApproved(c.approval, c.mode), actor)
  {
    var c := db.changes[i];
    MidnightThenDays(now, if c.quickDays == None then 1 else c.quickDays.value);
  }

  // ---- retention -------------------------------------------------------------

  /** RETAIN frees the account; PROCEED dates its termination ten days on. */
  lemma RetentionRecorded(db: Db, i: nat, decision: Retention, actor: UserId, now: Time)
    requires Keyed(db) && RetentionRefusal(db, i, decision, now) == None
    ensures var c, account := db.changes[i], db.accounts[db.changes[i].accountId];
            RetentionDecision(db, i, decision, actor, now) ==
              if decision == Retain then
                Done(With(db, i, c.(retention := Some(Retain), retentionDecidedAt := Some(now)),
                          account.(status := Active), RetentionRetained, actor))
              else
                Done(With(db, i, c.(retention := Some(Proceed), retentionDecidedAt := Some(now),
                                    scheduledTerminationAt := Some(DayAfter(now, 10))),
                          account.(status := Disconnecting), RetentionProceeded, actor))
  {
    MidnightThenDays(now, 10);
  }

  // ---- sweep -----------------------------------------------------------------

  /** A disconnection that is to go through, is past its date and has not been applied. */
  predicate PastDue(c: Change, now: Time) {
    && c.changeType == Disconnection && c.retention == Some(Proceed) && c.appliedAt == None
    && c.scheduledTerminationAt.Some? && c.scheduledTerminationAt.value <= now - now % 86_400_000
  }

  /** Some row in `rows` is a past-due disconnection of account `a`. */
  ghost predicate Ends(changes: seq<Change>, rows: set<nat>, a: nat, now: Time) {
    exists j :: j in rows && j < |changes| && changes[j].accountId == a && PastDue(changes[j], now)
  }

  /** `rows` are applied: their past-due rows stamped, and those rows' accounts terminated at ARC 0. */
  ghost predicate Swept(db: Db, db': Db, rows: set<nat>, now: Time) {
    && |db'.accounts| == |db.accounts| && |db'.changes| == |db.changes| && db'.users == db.users && db'.audit == db.audit
    && (forall j | 0 <= j < |db.changes| ::
          db'.changes[j] == if j in rows && PastDue(db.changes[j], now) then db.changes[j].(appliedAt := Some(now)) else db.changes[j])
    && (forall a | 0 <= a < |db.accounts| ::
          db'.accounts[a] == if Ends(db.changes, rows, a, now) then db.accounts[a].(status := Terminated, currentArc := 0)
                             else db.accounts[a])
  }

  lemma SweptOneMore(db: Db, mid: Db, rows: set<nat>, i: nat, now: Time)
    requires Keyed(db) && i < |db.changes| && PastDue(db.changes[i], now) && i !in rows
    requires Swept(db, mid, rows, now)
    ensures Keyed(mid) && Swept(db, ApplyChange(mid, i, now), rows + {i}, now)
  {
    var db' := ApplyChange(mid, i, now);
    forall a | 0 <= a < |db.accounts|
      ensures db'.accounts[a] == if Ends(db.changes, rows + {i}, a, now) then db.accounts[a].(status := Terminated, currentArc := 0)
                                 else db.accounts[a]
    {
      if db.changes[i].accountId == a {
        assert i in rows + {i};
      } else {
        assert Ends(db.changes, rows + {i}, a, now) == Ends(db.changes, rows, a, now);
      }
    }
  }

  function RowsOf(ids: seq<nat>): set<nat> {
    set i | i in ids
  }

  lemma RowsSnoc(ids: seq<nat>)
    requires ids != []
    ensures RowsOf(ids) == RowsOf(ids[..|ids| - 1]) + {ids[|ids| - 1]}
  {
  }

  lemma SweptNothing(db: Db, now: Time)
    ensures Swept(db, db, RowsOf([]), now)
  {
  }

  /** Past-due rows, each once, in table order. */
  ghost predicate PastDueRows(db: Db, ids: seq<nat>, now: Time) {
    && (forall k | 0 <= k < |ids| :: ids[k] < |db.changes| && PastDue(db.changes[ids[k]], now))
    && (forall j, k | 0 <= j < k < |ids| :: ids[j] < ids[k])
  }

  lemma PastDueFront(db: Db, ids: seq<nat>, now: Time)
    requires PastDueRows(db, ids, now) && ids != []
    ensures PastDueRows(db, ids[..|ids| - 1], now) && ids[|ids| - 1] !in RowsOf(ids[..|ids| - 1])
  {
  }

  lemma {:induction false} SweptList(db: Db, ids: seq<nat>, now: Time)
    requires Keyed(db) && PastDueRows(db, ids, now)
    ensures Swept(db, ApplyAll(db, ids, now), RowsOf(ids), now)
    decreases |ids|
  {
    if ids == [] {
      SweptNothing(db, now);
    } else {
      var n := |ids| - 1;
      PastDueFront(db, ids, now);
      SweptList(db, ids[..n], now);
      RowsSnoc(ids);
      SweptOneMore(db, ApplyAll(db, ids[..n], now), RowsOf(ids[..n]), ids[n], now);
    }
  }

  lemma SweptSame(db: Db, db': Db, rows: set<nat>, more: set<nat>, now: Time)
    requires Swept(db, db', rows, now) && rows <= more
    requires forall j | 0 <= j < |db.changes| && PastDue(db.changes[j], now) && j in more :: j in rows
    ensures Swept(db, db', more, now)
  {
    forall a | 0 <= a < |db.accounts|
      ensures Ends(db.changes, more, a, now) == Ends(db.changes, rows, a, now)
    {
      if j :| j in more && j < |db.changes| && db.changes[j].accountId == a && PastDue(db.changes[j], now) {
        assert j in rows;
      }
    }
  }

  lemma DueArePastDue(db: Db, now: Time, locked: set<nat>)
    ensures var ids := DueIds(db.changes, StartOfDay(now), locked);
            && PastDueRows(db, ids, now)
            && forall j :: j in ids <==> 0 <= j < |db.changes| && PastDue(db.changes[j], now) && j !in locked
  {
    var ids := DueIds(db.changes, StartOfDay(now), locked);
    assert forall k | 0 <= k < |ids| :: ids[k] in ids;
  }

  /** The rows no other transaction holds. */
  function Free(db: Db, locked: set<nat>): set<nat> {
    set j: nat | j < |db.changes| && j !in locked
  }

  lemma SweepSweepsList(db: Db, now: Time, locked: set<nat>)
    requires Keyed(db)
    ensures Swept(db, Sweep(db, now, locked), RowsOf(DueIds(db.changes, StartOfDay(now), locked)), now)
  {
    DueArePastDue(db, now, locked);
    SweptList(db, DueIds(db.changes, StartOfDay(now), locked), now);
  }

  lemma FreeAndPastDue(db: Db, now: Time, locked: set<nat>)
    ensures var rows := RowsOf(DueIds(db.changes, StartOfDay(now), locked));
            && rows <= Free(db, locked)
            && forall j | 0 <= j < |db.changes| && PastDue(db.changes[j], now) && j in Free(db, locked) :: j in rows
  {
    DueArePastDue(db, now, locked);
  }

  /** A sweep stamps exactly the past-due rows it does not skip and terminates exactly their accounts, at ARC 0. */
  lemma SweepRecorded(db: Db, now: Time, locked: set<nat>)
    requires Keyed(db)
    ensures Swept(db, Sweep(db, now, locked), Free(db, locked), now)
  {
    var rows := RowsOf(DueIds(db.changes, StartOfDay(now), locked));
    SweepSweepsList(db, now, locked);
    FreeAndPastDue(db, now, locked);
    SweptSame(db, Sweep(db, now, locked), rows, Free(db, locked), now);
  }

  /** A sweep worker's transaction, whenever it comes: it stamps an unstamped row and terminates its account. */
  lemma AppliedRecorded(db: Db, i: nat, now: Time)
    requires Keyed(db) && i < |db.changes| && db.changes[i].changeType == Disconnection
    ensures var a := db.changes[i].accountId;
            ApplyChange(db, i, now) ==
              if db.changes[i].appliedAt.Some? then db
              else db.(changes := db.changes[i := db.changes[i].(appliedAt := Some(now))],
                       accounts := db.accounts[a := db.accounts[a].(status := Terminated, currentArc := 0)])
  {
  }
}
