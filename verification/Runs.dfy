/**
  Whole runs of the services: any number of calls, sweep workers and clock advances,
  in any order. A sweep picks its due list in one step and applies the rows one
  transaction at a time in later steps, so workers interleave with everything else.
 */
module Runs {
  import opened Schema
  import opened Dates
  import opened Lifecycle
  import opened Invariant
  import opened Preservation

  datatype World = World(db: Db, now: Time, quickEnabled: bool, lists: seq<seq<nat>>)

  datatype Action =
    | CommitCall(input: CommitInput)
    | DecideCall(row: nat, verdict: Verdict, actor: UserId, role: Role)
    | RetentionCall(row: nat, decision: Retention, actor: UserId)
    | SweepPick(worker: nat, ids: seq<nat>)
    | SweepApply(worker: nat)
    | Elapse(until: Time)

  ghost predicate Sound(w: World) {
    && Keyed(w.db)
    && forall k, m | 0 <= k < |w.lists| && 0 <= m < |w.lists[k]| :: w.lists[k][m] < |w.db.changes|
  }

  function Settle(outcome: Outcome, db: Db): Db {
    if outcome.Done? then outcome.db else db
  }

  function CommitStep(w: World, input: CommitInput): (db: Db)
    requires Keyed(w.db)
    ensures Framed(w.db, db)
  {
    var db := Settle(Commit(w.db, input, w.quickEnabled, w.now), w.db);
    assert Framed(w.db, db) by {
      if CommitRefusal(w.db, input, w.quickEnabled) == None {
        AcceptedFramed(w.db, input, w.now);
      }
    }
    db
  }

  function DecideStep(w: World, i: nat, verdict: Verdict, actor: UserId, role: Role): (db: Db)
    requires Keyed(w.db)
    ensures Framed(w.db, db)
  {
    var db := Settle(Decide(w.db, i, verdict, actor, role, w.now), w.db);
    assert Framed(w.db, db) by {
      if DecideRefusal(w.db, i, verdict, actor, role) == None {
        DecidedFramed(w.db, i, verdict, actor, w.now);
      }
    }
    db
  }

  function RetentionStep(w: World, i: nat, decision: Retention, actor: UserId): (db: Db)
    requires Keyed(w.db)
    ensures Framed(w.db, db)
  {
    var db := Settle(RetentionDecision(w.db, i, decision, actor, w.now), w.db);
    assert Framed(w.db, db) by {
      if RetentionRefusal(w.db, i, decision, w.now) == None {
        RetentionFramed(w.db, i, decision, actor, w.now);
      }
    }
    db
  }

  /** An idle worker may pick any list of due rows: the query skips locked rows and fixes no order. */
  predicate Picks(w: World, k: nat, ids: seq<nat>) {
    k < |w.lists| && w.lists[k] == [] && OnlyDue(w.db.changes, ids, StartOfDay(w.now))
  }

  function Step(w: World, action: Action): (w': World)
    requires Sound(w)
    ensures Sound(w') && Framed(w.db, w'.db)
  {
    match action
    case CommitCall(input) => w.(db := CommitStep(w, input))
    case DecideCall(i, verdict, actor, role) => w.(db := DecideStep(w, i, verdict, actor, role))
    case RetentionCall(i, decision, actor) => w.(db := RetentionStep(w, i, decision, actor))
    case SweepPick(k, ids) => if Picks(w, k, ids) then w.(lists := w.lists[k := ids]) else w
    case SweepApply(k) =>
      if k >= |w.lists| || w.lists[k] == [] then w
      else w.(db := ApplyChange(w.db, w.lists[k][0], w.now), lists := w.lists[k := w.lists[k][1..]])
    case Elapse(until) => w.(now := if until > w.now then until else w.now)
  }

  /**
    Approval calls come from sessions whose role is the recorded one; retention calls on
    existing-base rows come from the retention queue, which serves approved rows only.
   */
  predicate Permitted(w: World, action: Action)
    requires Sound(w)
  {
    match action
    case DecideCall(_, _, actor, role) => SessionOk(w.db.users, actor, role)
    case RetentionCall(i, _, _) => i < |w.db.changes| && BaseRow(w.db, i) ==> w.db.changes[i].approval == Approved
    case _ => true
  }

  function Run(w: World, actions: seq<Action>): (w': World)
    requires Sound(w)
    ensures Sound(w') && Framed(w.db, w'.db)
  {
    if actions == [] then w
    else Step(Run(w, actions[..|actions| - 1]), actions[|actions| - 1])
  }

  predicate Legal(w: World, actions: seq<Action>)
    requires Sound(w)
  {
    actions == [] ||
    (&& Legal(w, actions[..|actions| - 1])
     && Permitted(Run(w, actions[..|actions| - 1]), actions[|actions| - 1]))
  }

  ghost predicate Good(w: World) {
    && Sound(w) && Inv(w.db)
    && forall k, m | 0 <= k < |w.lists| && 0 <= m < |w.lists[k]| :: Listed(w.db.changes[w.lists[k][m]], w.now)
  }

  // ---- what a step may do to one row -----------------------------------------

  /** Steps a change still has before it: at most four, none once it is settled. */
  function Rank(c: Change): nat {
    match c.approval
    case PendingSamHead => 4
    case PendingAccounts => if c.changeType != Disconnection then 1 else if c.mode == Some(Quick) then 3 else 4
    case PendingSuperAdmin2 => if c.mode == Some(Quick) then 2 else 3
    case Approved =>
      if c.changeType != Disconnection || c.appliedAt.Some? || c.retention == Some(Retain) then 0
      else if c.retention == None then 2 else 1
    case _ => 0
  }

  /** What was asked for: the columns written when the row is created and never again. */
  predicate SameRequest(c: Change, c': Change) {
    && c'.accountId == c.accountId && c'.changeType == c.changeType && c'.oldArc == c.oldArc && c'.newArc == c.newArc
    && c'.newBandwidth == c.newBandwidth && c'.effectiveDate == c.effectiveDate && c'.createdBy == c.createdBy
    && c'.mode == c.mode && c'.quickDays == c.quickDays
  }

  /** The row is untouched, or it was in flight and is now strictly closer to settled. */
  predicate Progresses(c: Change, c': Change) {
    || c' == c
    || (&& InFlight(c) && Rank(c') < Rank(c) && SameRequest(c, c')
        && (c.retention.Some? ==> c'.retention == c.retention && c'.scheduledTerminationAt == c.scheduledTerminationAt))
  }

  /** New-base rows keep a decision once it is made. */
  predicate Keeps(c: Change, c': Change) {
    && SameRequest(c, c')
    && (c.retention.Some? ==> c'.retention == c.retention && c'.scheduledTerminationAt == c.scheduledTerminationAt)
  }

  predicate RowMoves(db: Db, c: Change, c': Change)
    requires c.accountId < |db.accounts|
  {
    if db.accounts[c.accountId].kitty == BaseKitty then Progresses(c, c') else Keeps(c, c')
  }

  lemma DecidedProgresses(db: Db, i: nat, verdict: Verdict, actor: UserId, now: Time)
    requires i < |db.changes| && db.changes[i].accountId < |db.accounts|
    requires Shape(db.changes[i]) && IsPendingStage(db.changes[i].approval)
    ensures Progresses(db.changes[i], Decided(db, i, verdict, actor, now).changes[i])
  {
  }

  lemma DecideRow(db: Db, i: nat, verdict: Verdict, actor: UserId, role: Role, now: Time)
    requires Inv(db) && DecideRefusal(db, i, verdict, actor, role) == None
    ensures Progresses(db.changes[i], Decided(db, i, verdict, actor, now).changes[i])
  {
    assert BaseRow(db, i) && Shape(db.changes[i]);
    DecidedProgresses(db, i, verdict, actor, now);
  }

  lemma RetentionRowMoves(db: Db, i: nat, decision: Retention, actor: UserId, now: Time)
    requires Inv(db) && RetentionRefusal(db, i, decision, now) == None
    requires BaseRow(db, i) ==> db.changes[i].approval == Approved
    ensures RowMoves(db, db.changes[i], RetentionApplied(db, i, decision, actor, now).changes[i])
  {
    assert BaseRow(db, i) ==> Shape(db.changes[i]);
  }

  lemma AutoRetainRow(db: Db, a: nat, actor: UserId, now: Time, j: nat)
    requires a < |db.accounts| && j < |db.changes|
    ensures var c' := AutoRetain(db, a, actor, now).changes[j];
              if db.changes[j].accountId == a then Keeps(db.changes[j], c') else c' == db.changes[j]
  {
  }

  lemma RouteRow(db: Db, i: nat, account: Account, input: CommitInput, now: Time, j: nat)
    requires i < |db.changes| && db.changes[i].accountId < |db.accounts| && j < |db.changes| && j != i
    ensures Route(db, i, account, input, now).changes[j] == db.changes[j]
  {
  }

  lemma ForeignCommitRow(db: Db, input: CommitInput, now: Time, j: nat)
    requires Keyed(db) && input.accountId < |db.accounts| && j < |db.changes|
    requires db.accounts[input.accountId].kitty == NewKitty
    ensures if db.changes[j].accountId == input.accountId then Keeps(db.changes[j], Accepted(db, input, now).changes[j])
            else Accepted(db, input, now).changes[j] == db.changes[j]
  {
    var a, n := input.accountId, |db.changes|;
    var db1 := Written(db, input);
    var db2 := if input.changeType != Disconnection && db.accounts[a].status == ProbableChurn
               then AutoRetain(db1, a, input.actor, now) else db1;
    AutoRetainRow(db1, a, input.actor, now, j);
    RouteRow(db2, n, db.accounts[a], input, now, j);
  }

  lemma ReentryRow(db: Db, input: CommitInput, i: nat, now: Time, j: nat)
    requires Inv(db) && Reentry(db, input, i) && j < |db.changes| && InFlight(db.changes[i])
    requires db.changes[i].approval == Approved && db.changes[i].retention == None
    ensures j < |Accepted(db, input, now).changes| && Progresses(db.changes[j], Accepted(db, input, now).changes[j])
  {
    ReentryTables(db, input, i, now);
  }

  lemma CommitRow(db: Db, input: CommitInput, quickEnabled: bool, now: Time, j: nat)
    requires Inv(db) && CommitRefusal(db, input, quickEnabled) == None && j < |db.changes|
    ensures RowMoves(db, db.changes[j], Accepted(db, input, now).changes[j])
  {
    if db.accounts[input.accountId].kitty == NewKitty {
      ForeignCommitRow(db, input, now, j);
    } else if db.accounts[input.accountId].status == ProbableChurn {
      var i := RetentionRow(db, input.accountId);
      ReentryRow(db, input, i, now, j);
    } else {
      PlainCommitTables(db, input, now);
    }
  }

  lemma ApplyRow(db: Db, i: nat, now: Time)
    requires Inv(db) && i < |db.changes| && Listed(db.changes[i], now)
    ensures RowMoves(db, db.changes[i], ApplyChange(db, i, now).changes[i])
  {
    assert BaseRow(db, i) ==> Shape(db.changes[i]);
  }

  lemma DecidedElsewhere(db: Db, i: nat, verdict: Verdict, actor: UserId, now: Time, j: nat)
    requires i < |db.changes| && db.changes[i].accountId < |db.accounts| && j < |db.changes| && j != i
    requires IsPendingStage(db.changes[i].approval)
    ensures j < |Decided(db, i, verdict, actor, now).changes| && Decided(db, i, verdict, actor, now).changes[j] == db.changes[j]
  {
  }

  lemma DecideStepRow(w: World, i: nat, verdict: Verdict, actor: UserId, role: Role, j: nat)
    requires Inv(w.db) && j < |w.db.changes|
    ensures RowMoves(w.db, w.db.changes[j], DecideStep(w, i, verdict, actor, role).changes[j])
  {
    if DecideRefusal(w.db, i, verdict, actor, role) == None {
      if i == j {
        DecideRow(w.db, i, verdict, actor, role, w.now);
        assert BaseRow(w.db, i);
      } else {
        DecidedElsewhere(w.db, i, verdict, actor, w.now, j);
      }
    }
  }

  lemma RetentionStepRow(w: World, i: nat, decision: Retention, actor: UserId, j: nat)
    requires Inv(w.db) && j < |w.db.changes|
    requires i < |w.db.changes| && BaseRow(w.db, i) ==> w.db.changes[i].approval == Approved
    ensures RowMoves(w.db, w.db.changes[j], RetentionStep(w, i, decision, actor).changes[j])
  {
    if RetentionRefusal(w.db, i, decision, w.now) == None && i == j {
      RetentionRowMoves(w.db, i, decision, actor, w.now);
    }
  }

  /** Every legal step leaves a row alone or moves it towards settlement. */
  lemma StepRow(w: World, action: Action, j: nat)
    requires Good(w) && Permitted(w, action) && j < |w.db.changes|
    ensures RowMoves(w.db, w.db.changes[j], Step(w, action).db.changes[j])
  {
    match action
    case CommitCall(input) =>
      if CommitRefusal(w.db, input, w.quickEnabled) == None {
        CommitRow(w.db, input, w.quickEnabled, w.now, j);
      }
    case DecideCall(i, verdict, actor, role) => DecideStepRow(w, i, verdict, actor, role, j);
    case RetentionCall(i, decision, actor) => RetentionStepRow(w, i, decision, actor, j);
    case SweepApply(k) =>
      if k < |w.lists| && w.lists[k] != [] && w.lists[k][0] == j {
        ApplyRow(w.db, j, w.now);
      }
    case _ =>
  }

  // ---- every step keeps the world good ---------------------------------------

  lemma StepKeepsInv(w: World, action: Action)
    requires Good(w) && Permitted(w, action)
    ensures Inv(Step(w, action).db)
  {
    match action
    case CommitCall(input) =>
      if CommitRefusal(w.db, input, w.quickEnabled) == None {
        CommitKeeps(w.db, input, w.quickEnabled, w.now);
      }
    case DecideCall(i, verdict, actor, role) =>
      if DecideRefusal(w.db, i, verdict, actor, role) == None {
        DecideKeeps(w.db, i, verdict, actor, role, w.now);
      }
    case RetentionCall(i, decision, actor) =>
      if RetentionRefusal(w.db, i, decision, w.now) == None {
        RetentionKeeps(w.db, i, decision, actor, w.now);
      }
    case SweepApply(k) =>
      if k < |w.lists| && w.lists[k] != [] {
        ApplyKeeps(w.db, w.lists[k][0], w.now);
      }
    case _ =>
  }

  /** Once a row may be on a sweep's list, it may stay there. */
  lemma StaysListed(w: World, action: Action, j: nat)
    requires Good(w) && Permitted(w, action) && j < |w.db.changes| && Listed(w.db.changes[j], w.now)
    ensures Listed(Step(w, action).db.changes[j], Step(w, action).now)
  {
    StepRow(w, action, j);
    StartOfDayMonotone(w.now, Step(w, action).now);
  }

  lemma StepKeeps(w: World, action: Action)
    requires Good(w) && Permitted(w, action)
    ensures Good(Step(w, action))
  {
    var w' := Step(w, action);
    StepKeepsInv(w, action);
    forall k, m | 0 <= k < |w'.lists| && 0 <= m < |w'.lists[k]|
      ensures Listed(w'.db.changes[w'.lists[k][m]], w'.now)
    {
      if action.SweepPick? && action.worker == k && Picks(w, k, action.ids) {
        assert Due(w.db.changes[w'.lists[k][m]], StartOfDay(w.now));
      } else {
        var row := if action == SweepApply(k) && w.lists[k] != [] then w.lists[k][m + 1] else w.lists[k][m];
        assert w'.lists[k][m] == row;
        StaysListed(w, action, row);
      }
    }
  }

  lemma {:induction false} RunKeeps(w: World, actions: seq<Action>)
    requires Good(w) && Legal(w, actions)
    ensures Good(Run(w, actions))
  {
    if actions != [] {
      var n := |actions| - 1;
      RunKeeps(w, actions[..n]);
      StepKeeps(Run(w, actions[..n]), actions[n]);
    }
  }

  // ---- a reader's own sweep --------------------------------------------------

  /** The world after the sweep that a dashboard runs before it reads. */
  function Swept(w: World, locked: set<nat>): (w': World)
    requires Sound(w)
    ensures Sound(w')
  {
    w.(db := Sweep(w.db, w.now, locked))
  }

  lemma SweptIsGood(w: World, locked: set<nat>)
    requires Good(w)
    ensures Good(Swept(w, locked)) && Framed(w.db, Swept(w, locked).db)
  {
    SweepKeeps(w.db, w.now, locked);
    SweepFramed(w.db, w.now, locked);
  }

  /** A run starting from a fresh import with idle sweep workers. */
  ghost predicate FromImport(w: World, actions: seq<Action>) {
    && Fresh(w.db) && (forall k | 0 <= k < |w.lists| :: w.lists[k] == [])
    && Legal(w, actions)
  }

  lemma Reached(w: World, actions: seq<Action>)
    requires FromImport(w, actions)
    ensures Good(Run(w, actions))
  {
    FreshInv(w.db);
    RunKeeps(w, actions);
  }
}
