/** What the status guard of commit means on the existing base, and what an accepted commit opens. */
module CommitCall {
  import opened Schema
  import opened Lifecycle
  import opened History
  import opened Invariant
  import opened Preservation
  import opened Guarantees

  /** The account's status tells whether a row is in flight, and which kind. */
  lemma StatusOfFlight(db: Db, a: nat)
    requires Inv(db) && a < |db.accounts| && db.accounts[a].kitty == BaseKitty
    ensures forall i | OfAccount(db, i, a) && InFlight(db.changes[i]) :: db.accounts[a].status == HeldStatus(db.changes[i])
    ensures Held(db.accounts[a].status) ==> exists i :: OfAccount(db, i, a) && InFlight(db.changes[i])
    ensures db.accounts[a].status != PendingQuickApproval
  {
    assert AccountInPlace(db, a);
    if Held(db.accounts[a].status) {
      var i :| 0 <= i < |db.changes| && db.changes[i].accountId == a && InFlight(db.changes[i]);
      assert OfAccount(db, i, a);
    }
    forall i | OfAccount(db, i, a) && InFlight(db.changes[i])
      ensures db.accounts[a].status == HeldStatus(db.changes[i])
    {
      InFlightRow(db, a, i);
    }
  }

  lemma GuardByStatus(db: Db, a: nat, changeType: ChangeType)
    requires a < |db.accounts|
    requires forall i | OfAccount(db, i, a) && InFlight(db.changes[i]) :: db.accounts[a].status == HeldStatus(db.changes[i])
    requires Held(db.accounts[a].status) ==> exists i :: OfAccount(db, i, a) && InFlight(db.changes[i])
    requires db.accounts[a].status != PendingQuickApproval
    ensures StatusRefusal(db.accounts[a].status, changeType) == None <==>
              && db.accounts[a].status != Terminated
              && forall i | OfAccount(db, i, a) && InFlight(db.changes[i]) ::
                   AwaitsRetention(db.changes[i]) && changeType != Disconnection
  {
  }

  /**
    The guard lets a change through exactly when the account is not terminated and has
    nothing in flight, save that any change but a disconnection may displace a
    disconnection in its retention window.
   */
  lemma GuardIsSerialisation(db: Db, a: nat, changeType: ChangeType)
    requires Inv(db) && a < |db.accounts| && db.accounts[a].kitty == BaseKitty
    ensures StatusRefusal(db.accounts[a].status, changeType) == None <==>
              && db.accounts[a].status != Terminated
              && forall i | OfAccount(db, i, a) && InFlight(db.changes[i]) ::
                   AwaitsRetention(db.changes[i]) && changeType != Disconnection
  {
    StatusOfFlight(db, a);
    GuardByStatus(db, a, changeType);
  }

  /** The row appended to `db'` is in the table, starts its whole chain and holds the account's ARC. */
  ghost predicate StartsChain(db: Db, db': Db, input: CommitInput)
    requires input.accountId < |db.accounts|
  {
    var n, a := |db.changes|, input.accountId;
    && |db'.changes| == n + 1 && |db'.accounts| == |db.accounts|
    && OfAccount(db', n, a) && AwaitsApproval(db'.changes[n])
    && Remaining(db'.changes[n].approval, input.changeType) == RequiredStages(input.changeType, db'.changes[n].mode)
    && db'.changes[n].oldArc == db.accounts[a].currentArc == db'.accounts[a].currentArc
  }

  lemma PlainRowStarts(db: Db, input: CommitInput, now: Time)
    requires Keyed(db) && input.accountId < |db.accounts|
    requires db.accounts[input.accountId].kitty == BaseKitty && db.accounts[input.accountId].status != ProbableChurn
    ensures StartsChain(db, Accepted(db, input, now), input)
  {
    PlainCommitTables(db, input, now);
  }

  lemma ReentryRowStarts(db: Db, input: CommitInput, i: nat, now: Time)
    requires Reentry(db, input, i)
    ensures StartsChain(db, Accepted(db, input, now), input)
  {
    ReentryTables(db, input, i, now);
  }

  lemma NewRowStarts(db: Db, input: CommitInput, quickEnabled: bool, now: Time)
    requires Inv(db) && CommitRefusal(db, input, quickEnabled) == None
    requires db.accounts[input.accountId].kitty == BaseKitty
    ensures StartsChain(db, Accepted(db, input, now), input)
  {
    if db.accounts[input.accountId].status == ProbableChurn {
      var i := RetentionRow(db, input.accountId);
      ReentryRowStarts(db, input, i, now);
    } else {
      PlainRowStarts(db, input, now);
    }
  }

  lemma DisplacedIsRetained(db: Db, input: CommitInput, i: nat, now: Time)
    requires Reentry(db, input, i)
    ensures i < |Accepted(db, input, now).changes| && Accepted(db, input, now).changes[i].retention == Some(Retain)
  {
    ReentryTables(db, input, i, now);
    assert Accepted(db, input, now).changes[i] == RetainedRow(db.changes[i], now);
  }

  /** A displaced disconnection is the one auto-retain picks. */
  lemma DisplacedIsLatest(db: Db, a: nat, changeType: ChangeType, i: nat)
    requires Inv(db) && a < |db.accounts| && db.accounts[a].kitty == BaseKitty
    requires StatusRefusal(db.accounts[a].status, changeType) == None
    requires OfAccount(db, i, a) && InFlight(db.changes[i])
    ensures db.accounts[a].status == ProbableChurn && LatestUndecided(db.changes, a) == Some(i)
  {
    InFlightRow(db, a, i);
    var k := RetentionRow(db, a);
  }

  /**
    An accepted commit on an existing-base account leaves the new row as the only one in
    flight, at the start of the whole chain of sign-offs it needs, holding the account's
    ARC; a disconnection it displaced is retained.
   */
  lemma CommitOpensOneChange(db: Db, input: CommitInput, quickEnabled: bool, now: Time)
    requires Inv(db) && CommitRefusal(db, input, quickEnabled) == None
    requires db.accounts[input.accountId].kitty == BaseKitty
    ensures var db', a := Accepted(db, input, now), input.accountId;
            && StartsChain(db, db', input)
            && (forall i | OfAccount(db', i, a) && InFlight(db'.changes[i]) :: i == |db.changes|)
            && (forall i | OfAccount(db, i, a) && InFlight(db.changes[i]) :: db'.changes[i].retention == Some(Retain))
  {
    var db', a := Accepted(db, input, now), input.accountId;
    NewRowStarts(db, input, quickEnabled, now);
    CommitKeeps(db, input, quickEnabled, now);
    StatusTells(db', a);
    assert OfAccount(db', |db.changes|, a) && InFlight(db'.changes[|db.changes|]);
    forall i | OfAccount(db, i, a) && InFlight(db.changes[i])
      ensures db'.changes[i].retention == Some(Retain)
    {
      DisplacedIsLatest(db, a, input.changeType, i);
      DisplacedIsRetained(db, input, i, now);
    }
  }
}
