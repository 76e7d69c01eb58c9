/**
  The retention call does not look at the approval status of the row it is given; the
  retention queue does. What the call keeps when it is made on any disconnection row.
 */
module RetentionCall {
  import opened Schema
  import opened Lifecycle
  import opened Invariant
  import opened Preservation
  import opened Guarantees

  /**
    The call keeps the whole invariant exactly on the rows the queue serves: the approved
    ones.
   */
  lemma RetentionNeedsApproval(db: Db, i: nat, decision: Retention, actor: UserId, now: Time)
    requires Inv(db) && RetentionRefusal(db, i, decision, now) == None && BaseRow(db, i)
    ensures Inv(RetentionApplied(db, i, decision, actor, now)) <==> db.changes[i].approval == Approved
  {
    var db' := RetentionApplied(db, i, decision, actor, now);
    assert Shape(db.changes[i]);
    if db.changes[i].approval == Approved {
      RetentionKeeps(db, i, decision, actor, now);
    } else {
      assert BaseRow(db', i) && !Shape(db'.changes[i]);
    }
  }

  /** `db'` has the rows of `db` as far as being in flight or applied goes, and `a` another status. */
  ghost predicate StatusOnly(db: Db, db': Db, a: nat) {
    && |db'.changes| == |db.changes| && |db'.accounts| == |db.accounts| && a < |db.accounts|
    && (forall b | 0 <= b < |db.accounts| && b != a :: db'.accounts[b] == db.accounts[b])
    && db'.accounts[a] == db.accounts[a].(status := db'.accounts[a].status)
    && (forall j | 0 <= j < |db.changes| ::
          && db'.changes[j].accountId == db.changes[j].accountId
          && InFlight(db'.changes[j]) == InFlight(db.changes[j])
          && AppliedDisconnection(db'.changes[j]) == AppliedDisconnection(db.changes[j])
          && (InFlight(db.changes[j]) ==> db'.changes[j] == db.changes[j]))
  }

  predicate Fixed(status: ContractStatus) {
    Held(status) || status == Terminated
  }

  lemma SameWitnesses(db: Db, db': Db, a: nat, b: nat)
    requires StatusOnly(db, db', a) && b < |db.accounts|
    ensures HasInFlight(db', b) == HasInFlight(db, b)
    ensures HasAppliedDisconnection(db', b) == HasAppliedDisconnection(db, b)
    ensures NoRows(db', b) == NoRows(db, b)
  {
    forall j | 0 <= j < |db.changes| && db.changes[j].accountId == b
      ensures InFlight(db.changes[j]) ==> HasInFlight(db', b)
      ensures InFlight(db'.changes[j]) ==> HasInFlight(db, b)
      ensures AppliedDisconnection(db.changes[j]) ==> HasAppliedDisconnection(db', b)
      ensures AppliedDisconnection(db'.changes[j]) ==> HasAppliedDisconnection(db, b)
    {
      assert db'.changes[j].accountId == b;
    }
  }

  /** A held or terminated account that shows something else has a row that says so. */
  lemma WitnessBreaks(db: Db, db': Db, a: nat)
    requires Keyed(db) && Keyed(db') && Serial(db) && StatusOnly(db, db', a) && !NoRows(db, a)
    requires db.accounts[a].kitty == BaseKitty && Fixed(db.accounts[a].status)
    requires db'.accounts[a].status != db.accounts[a].status
    ensures !Serial(db')
  {
    assert AccountInPlace(db, a);
    var k :| 0 <= k < |db.changes| && db.changes[k].accountId == a
             && (InFlight(db.changes[k]) || AppliedDisconnection(db.changes[k]));
    assert BaseRow(db, k) && RowInPlace(db, k);
    assert BaseRow(db', k) && !RowInPlace(db', k);
  }

  lemma StandingKeeps(db: Db, db': Db, a: nat)
    requires Keyed(db) && Keyed(db') && Serial(db) && StatusOnly(db, db', a)
    requires Fixed(db.accounts[a].status) ==> db'.accounts[a].status == db.accounts[a].status
    requires AccountInPlace(db', a)
    ensures Serial(db')
  {
    forall j | 0 <= j < |db'.changes| && BaseRow(db', j)
      ensures RowInPlace(db', j)
    {
      assert BaseRow(db, j) && RowInPlace(db, j);
      if InFlight(db.changes[j]) || AppliedDisconnection(db.changes[j]) {
        assert Last(db'.changes, j);
      }
    }
    forall b | 0 <= b < |db'.accounts| && db'.accounts[b].kitty == BaseKitty
      ensures AccountInPlace(db', b)
    {
      if b != a {
        assert AccountInPlace(db, b);
        SameWitnesses(db, db', a, b);
      }
    }
  }

  /** An account that is neither held nor terminated has nothing in flight. */
  lemma FreeAccount(db: Db, a: nat)
    requires Keyed(db) && Serial(db) && a < |db.accounts| && db.accounts[a].kitty == BaseKitty && !Held(db.accounts[a].status)
    ensures !HasInFlight(db, a)
  {
    forall k | 0 <= k < |db.changes| && db.changes[k].accountId == a
      ensures !InFlight(db.changes[k])
    {
      assert BaseRow(db, k) && RowInPlace(db, k);
    }
  }

  lemma RejectedRow(db: Db, i: nat, decision: Retention, actor: UserId, now: Time)
    requires Keyed(db) && i < |db.changes| && Shape(db.changes[i]) && db.changes[i].approval == Rejected
    ensures StatusOnly(db, RetentionApplied(db, i, decision, actor, now), db.changes[i].accountId)
    ensures Keyed(RetentionApplied(db, i, decision, actor, now))
    ensures !NoRows(db, db.changes[i].accountId)
  {
  }

  lemma RetentionOnRejected(db: Db, i: nat, decision: Retention, actor: UserId, now: Time)
    requires Keyed(db) && Serial(db) && i < |db.changes| && BaseRow(db, i)
    requires Shape(db.changes[i]) && db.changes[i].approval == Rejected
    ensures var status := db.accounts[db.changes[i].accountId].status;
            Serial(RetentionApplied(db, i, decision, actor, now)) <==>
              if decision == Retain then status in {Active, Expired, Pending} else status == Disconnecting
  {
    var a := db.changes[i].accountId;
    var db' := RetentionApplied(db, i, decision, actor, now);
    var status := db.accounts[a].status;
    RejectedRow(db, i, decision, actor, now);
    SameWitnesses(db, db', a, a);
    assert AccountInPlace(db, a);
    if Fixed(status) && db'.accounts[a].status != status {
      WitnessBreaks(db, db', a);
    } else {
      if !Held(status) {
        FreeAccount(db, a);
      }
      if AccountInPlace(db', a) {
        StandingKeeps(db, db', a);
      }
    }
  }

  /** Exactly when the account's status still mirrors its rows afterwards, for every row and decision. */
  lemma RetentionMirrors(db: Db, i: nat, decision: Retention, actor: UserId, now: Time)
    requires Inv(db) && RetentionRefusal(db, i, decision, now) == None && BaseRow(db, i)
    ensures var status := db.accounts[db.changes[i].accountId].status;
            Serial(RetentionApplied(db, i, decision, actor, now)) <==>
              || db.changes[i].approval == Approved
              || (db.changes[i].approval == Rejected && decision == Retain && status in {Active, Expired, Pending})
              || (db.changes[i].approval == Rejected && decision == Proceed && status == Disconnecting)
  {
    assert Shape(db.changes[i]);
    if db.changes[i].approval == Approved {
      RetentionKeeps(db, i, decision, actor, now);
    } else if db.changes[i].approval == Rejected {
      RetentionOnRejected(db, i, decision, actor, now);
    } else {
      PendingRowBreaks(db, i, decision, actor, now);
    }
  }

  lemma PendingRowBreaks(db: Db, i: nat, decision: Retention, actor: UserId, now: Time)
    requires Keyed(db) && i < |db.changes| && BaseRow(db, i) && IsPendingStage(db.changes[i].approval)
    ensures !Serial(RetentionApplied(db, i, decision, actor, now))
  {
    var db' := RetentionApplied(db, i, decision, actor, now);
    assert BaseRow(db', i) && !RowInPlace(db', i);
  }

  // ---- a concrete run --------------------------------------------------------

  const ACCOUNT: Account := Account(0, BaseKitty, None, None, 500_000, Some(500_000), None, Active)
  const START: Db := Db(map[7 := User(Sam, None)], [ACCOUNT], [], [])
  const LEAVE: CommitInput :=
    CommitInput(0, Disconnection, 0, None, 0, None, None, "", true, false, false, 7)

  /**
    From a fresh import: a disconnection is raised, RETAIN is called while it still awaits
    its approvals, and a second disconnection is accepted on top of it. Two changes are
    then in flight on one account.
   */
  lemma RetainWhilePendingBreaks(now: Time)
    ensures Fresh(START)
    ensures var raised := Lifecycle.Commit(START, LEAVE, false, now);
            && raised.Done? && Inv(raised.db)
            && var retained := Lifecycle.RetentionDecision(raised.db, 0, Retain, 7, now);
            && retained.Done?
            && var again := Lifecycle.Commit(retained.db, LEAVE, false, now);
            && again.Done?
            && InFlight(again.db.changes[0]) && InFlight(again.db.changes[1])
            && again.db.changes[0].accountId == again.db.changes[1].accountId
            && !OneAtATime(again.db, 0)
  {
    FreshInv(START);
    CommitKeeps(START, LEAVE, false, now);
    var again := Lifecycle.Commit(Lifecycle.RetentionDecision(Lifecycle.Commit(START, LEAVE, false, now).db, 0, Retain, 7, now).db, LEAVE, false, now);
    assert OfAccount(again.db, 0, 0) && OfAccount(again.db, 1, 0);
  }
}
