/** What every run of the services from a fresh import guarantees about the existing base. */
module Guarantees {
  import opened Schema
  import opened Dates
  import opened Sums
  import opened Lifecycle
  import opened History
  import opened Invariant
  import opened Preservation
  import opened Runs

  predicate OfAccount(db: Db, i: int, a: int) {
    0 <= i < |db.changes| && db.changes[i].accountId == a
  }

  predicate AwaitsApproval(c: Change) {
    IsPendingStage(c.approval)
  }

  predicate AwaitsRetention(c: Change) {
    c.approval == Approved && c.changeType == Disconnection && c.retention == None && c.appliedAt == None
  }

  predicate AwaitsTermination(c: Change) {
    c.approval == Approved && c.changeType == Disconnection && c.retention == Some(Proceed) && c.appliedAt == None
  }

  // ---- one change at a time --------------------------------------------------

  /**
    Account `a` has at most one change in flight, its status says exactly which kind, and
    its ARC is still that row's old ARC.
   */
  ghost predicate OneAtATime(db: Db, a: nat)
    requires a < |db.accounts|
  {
    && (forall i, j | OfAccount(db, i, a) && OfAccount(db, j, a) && InFlight(db.changes[i]) && InFlight(db.changes[j]) :: i == j)
    && (forall i | OfAccount(db, i, a) && InFlight(db.changes[i]) :: db.accounts[a].currentArc == db.changes[i].oldArc)
    && (db.accounts[a].status == PendingApproval <==> exists i :: OfAccount(db, i, a) && AwaitsApproval(db.changes[i]))
    && (db.accounts[a].status == ProbableChurn <==> exists i :: OfAccount(db, i, a) && AwaitsRetention(db.changes[i]))
    && (db.accounts[a].status == Disconnecting <==> exists i :: OfAccount(db, i, a) && AwaitsTermination(db.changes[i]))
  }

  lemma InFlightRow(db: Db, a: nat, i: nat)
    requires Inv(db) && a < |db.accounts| && db.accounts[a].kitty == BaseKitty
    requires OfAccount(db, i, a) && InFlight(db.changes[i])
    ensures Last(db.changes, i) && Mirrors(db.accounts[a], db.changes[i])
  {
    assert BaseRow(db, i) && RowInPlace(db, i);
  }

  lemma InPlaceTells(db: Db, a: nat)
    requires a < |db.accounts| && AccountInPlace(db, a)
    requires forall i | OfAccount(db, i, a) && InFlight(db.changes[i]) ::
               Last(db.changes, i) && Mirrors(db.accounts[a], db.changes[i])
    ensures OneAtATime(db, a)
  {
    if Held(db.accounts[a].status) {
      var k :| 0 <= k < |db.changes| && db.changes[k].accountId == a && InFlight(db.changes[k]);
      assert OfAccount(db, k, a);
      if db.changes[k].retention.Some? {
        assert db.changes[k].retention.value == Retain || db.changes[k].retention.value == Proceed;
      }
    }
  }

  lemma StatusTells(db: Db, a: nat)
    requires Inv(db) && a < |db.accounts| && db.accounts[a].kitty == BaseKitty
    ensures OneAtATime(db, a)
  {
    assert AccountInPlace(db, a);
    forall i | OfAccount(db, i, a) && InFlight(db.changes[i])
      ensures Last(db.changes, i) && Mirrors(db.accounts[a], db.changes[i])
    {
      InFlightRow(db, a, i);
    }
    InPlaceTells(db, a);
  }

  /** Over every run from a fresh import, an existing-base account carries one change at a time. */
  lemma OneChangeAtATime(w: World, actions: seq<Action>, a: nat)
    requires FromImport(w, actions) && a < |w.db.accounts| && w.db.accounts[a].kitty == BaseKitty
    ensures OneAtATime(Run(w, actions).db, a)
  {
    Reached(w, actions);
    StatusTells(Run(w, actions).db, a);
  }

  // ---- money -----------------------------------------------------------------

  /** At most one disconnection is ever applied to `a`; then `a` is terminated at ARC 0. */
  ghost predicate EndsOnce(db: Db, a: nat)
    requires a < |db.accounts|
  {
    && (forall i, j | OfAccount(db, i, a) && OfAccount(db, j, a)
          && AppliedDisconnection(db.changes[i]) && AppliedDisconnection(db.changes[j]) :: i == j)
    && (forall i | OfAccount(db, i, a) && AppliedDisconnection(db.changes[i]) ::
          db.accounts[a].status == Terminated && db.accounts[a].currentArc == 0)
  }

  lemma InvEndsOnce(db: Db, a: nat)
    requires Inv(db) && a < |db.accounts| && db.accounts[a].kitty == BaseKitty
    ensures EndsOnce(db, a)
  {
    forall i | OfAccount(db, i, a) && AppliedDisconnection(db.changes[i])
      ensures Last(db.changes, i) && db.accounts[a].status == Terminated && db.accounts[a].currentArc == 0
    {
      assert BaseRow(db, i) && RowInPlace(db, i);
    }
  }

  /** The live ARC is the imported ARC plus every applied change, and nothing else. */
  lemma ArcIsConserved(w: World, actions: seq<Action>, a: nat)
    requires FromImport(w, actions) && a < |w.db.accounts| && w.db.accounts[a].kitty == BaseKitty
    ensures Run(w, actions).db.accounts[a].currentArc
         == w.db.accounts[a].currentArc + Sum(Run(w, actions).db.changes, Contribution(a))
    ensures EndsOnce(Run(w, actions).db, a)
  {
    Reached(w, actions);
    var db := Run(w, actions).db;
    assert SameIdentity(w.db.accounts[a], db.accounts[a]);
    assert BalancedAccount(db, a);
    InvEndsOnce(db, a);
  }

  lemma NoneInFlight(db: Db, a: nat, i: nat)
    requires Inv(db) && a < |db.accounts| && db.accounts[a].kitty == BaseKitty && db.accounts[a].status == Terminated
    requires OfAccount(db, i, a)
    ensures !InFlight(db.changes[i]) && Shape(db.changes[i]) && BaseRow(db, i)
  {
    assert BaseRow(db, i) && RowInPlace(db, i);
  }

  lemma TerminatedCommit(w: World, input: CommitInput, a: nat)
    requires Keyed(w.db) && a < |w.db.accounts| && w.db.accounts[a].status == Terminated
    ensures CommitStep(w, input).accounts[a] == w.db.accounts[a]
  {
  }

  /** Calls write an account only through one of its rows that is in flight. */
  lemma SettledAccountStep(w: World, action: Action, a: nat)
    requires Sound(w) && Permitted(w, action) && a < |w.db.accounts|
    requires w.db.accounts[a].status == Terminated
    requires forall i | OfAccount(w.db, i, a) :: !InFlight(w.db.changes[i]) && Shape(w.db.changes[i]) && BaseRow(w.db, i)
    requires forall k | 0 <= k < |w.lists| && w.lists[k] != [] :: Listed(w.db.changes[w.lists[k][0]], w.now)
    ensures Step(w, action).db.accounts[a] == w.db.accounts[a]
  {
    if action.CommitCall? {
      TerminatedCommit(w, action.input, a);
    }
  }

  lemma TerminatedStep(w: World, action: Action, a: nat)
    requires Good(w) && Permitted(w, action) && a < |w.db.accounts|
    requires w.db.accounts[a].kitty == BaseKitty && w.db.accounts[a].status == Terminated
    ensures Step(w, action).db.accounts[a] == w.db.accounts[a]
  {
    forall i | OfAccount(w.db, i, a)
      ensures !InFlight(w.db.changes[i]) && Shape(w.db.changes[i]) && BaseRow(w.db, i)
    {
      NoneInFlight(w.db, a, i);
    }
    SettledAccountStep(w, action, a);
  }

  /** A terminated existing-base account is never written again, whatever happens next. */
  lemma {:induction false} TerminatedForGood(w: World, actions: seq<Action>, a: nat)
    requires Good(w) && Legal(w, actions) && a < |w.db.accounts|
    requires w.db.accounts[a].kitty == BaseKitty && w.db.accounts[a].status == Terminated
    ensures Run(w, actions).db.accounts[a] == w.db.accounts[a]
  {
    if actions != [] {
      var n := |actions| - 1;
      TerminatedForGood(w, actions[..n], a);
      RunKeeps(w, actions[..n]);
      TerminatedStep(Run(w, actions[..n]), actions[n], a);
    }
  }

  // ---- notice ----------------------------------------------------------------

  /** Days between approval and termination: as requested when quick, 21 of retention and 10 of notice otherwise. */
  function NoticeDays(c: Change): int {
    if c.mode == Some(Quick) && c.quickDays.Some? then c.quickDays.value
    else 31
  }

  /** The row was approved, and applied no earlier than its notice allows. */
  predicate GaveNotice(c: Change) {
    && c.approval == Approved && c.approvedAt.Some? && c.appliedAt.Some?
    && (c.mode == Some(Quick) ==> c.quickDays.Some?)
    && StartOfDay(c.appliedAt.value) >= StartOfDay(c.approvedAt.value) + NoticeDays(c) * 86_400_000
  }

  /**
    No disconnection of an existing-base account is applied before its notice: 21 + 10 days after
    the day of approval for a normal one, the requested days for a quick one.
   */
  lemma NoticeIsGiven(w: World, actions: seq<Action>, i: nat)
    requires FromImport(w, actions) && i < |Run(w, actions).db.changes|
    requires BaseRow(Run(w, actions).db, i) && AppliedDisconnection(Run(w, actions).db.changes[i])
    ensures GaveNotice(Run(w, actions).db.changes[i])
  {
    Reached(w, actions);
    assert Shape(Run(w, actions).db.changes[i]);
  }

  lemma CommitAdds(db: Db, input: CommitInput, now: Time)
    requires Keyed(db) && input.accountId < |db.accounts|
    ensures |Accepted(db, input, now).changes| == |db.changes| + 1
  {
  }

  /** The dates an approved disconnection carries, to the day. */
  predicate DatedExactly(c: Change)
    requires c.approvedAt.Some?
  {
    if c.mode == Some(Quick) then
      && c.quickDays.Some? && 0 <= c.quickDays.value <= 15
      && c.retention == Some(Proceed)
      && c.scheduledTerminationAt == Some(StartOfDay(c.approvedAt.value) + c.quickDays.value * 86_400_000)
    else
      && c.retentionPromptDueAt == Some(StartOfDay(c.approvedAt.value) + 21 * 86_400_000)
      && (c.retention == Some(Proceed) ==>
            && c.retentionDecidedAt.Some?
            && StartOfDay(c.retentionDecidedAt.value) >= c.retentionPromptDueAt.value
            && c.scheduledTerminationAt == Some(StartOfDay(c.retentionDecidedAt.value) + 10 * 86_400_000))
  }

  /** Over every run an approved disconnection is dated from its approval and its decision. */
  lemma DatesAreExact(w: World, actions: seq<Action>, i: nat)
    requires FromImport(w, actions) && i < |Run(w, actions).db.changes| && BaseRow(Run(w, actions).db, i)
    requires Run(w, actions).db.changes[i].changeType == Disconnection && Run(w, actions).db.changes[i].approval == Approved
    ensures Run(w, actions).db.changes[i].approvedAt.Some? && DatedExactly(Run(w, actions).db.changes[i])
  {
    Reached(w, actions);
    assert Shape(Run(w, actions).db.changes[i]);
  }

  lemma AcceptedElsewhere(db: Db, input: CommitInput, now: Time, a: nat)
    requires Keyed(db) && input.accountId < |db.accounts| && a < |db.accounts|
    requires NoRows(Accepted(db, input, now), a)
    ensures |Accepted(db, input, now).accounts| == |db.accounts| && Accepted(db, input, now).accounts[a] == db.accounts[a]
  {
    CommitAdds(db, input, now);
    assert Accepted(db, input, now).changes[|db.changes|].accountId == input.accountId;
  }

  /** A call touches an account only through one of its rows. */
  lemma RowlessStep(w: World, action: Action, a: nat)
    requires Sound(w) && a < |w.db.accounts| && NoRows(w.db, a) && NoRows(Step(w, action).db, a)
    ensures Step(w, action).db.accounts[a] == w.db.accounts[a]
  {
    if action.CommitCall? && CommitRefusal(w.db, action.input, w.quickEnabled) == None {
      AcceptedElsewhere(w.db, action.input, w.now, a);
    }
  }

  lemma RowsKeepAccount(w: World, action: Action, a: nat)
    requires Good(w) && Permitted(w, action) && NoRows(Step(w, action).db, a)
    ensures NoRows(w.db, a)
  {
    forall i | 0 <= i < |w.db.changes|
      ensures w.db.changes[i].accountId != a
    {
      StepRow(w, action, i);
    }
  }

  /** An account without rows is as it was imported. */
  lemma {:induction false} RowlessIsImported(w: World, actions: seq<Action>, a: nat)
    requires Good(w) && Legal(w, actions) && a < |w.db.accounts| && NoRows(Run(w, actions).db, a)
    ensures NoRows(w.db, a) && Run(w, actions).db.accounts[a] == w.db.accounts[a]
  {
    if actions != [] {
      var n := |actions| - 1;
      var before := Run(w, actions[..n]);
      RunKeeps(w, actions[..n]);
      RowsKeepAccount(before, actions[n], a);
      RowlessIsImported(w, actions[..n], a);
      RowlessStep(before, actions[n], a);
    }
  }

  /**
    An account that was not imported terminated is terminated only by an applied disconnection
    of its own, after that disconnection's notice.
   */
  lemma NoTerminationWithoutNotice(w: World, actions: seq<Action>, a: nat)
    requires FromImport(w, actions) && a < |w.db.accounts| && w.db.accounts[a].kitty == BaseKitty
    requires w.db.accounts[a].status != Terminated && Run(w, actions).db.accounts[a].status == Terminated
    ensures var db := Run(w, actions).db;
              exists i :: OfAccount(db, i, a) && AppliedDisconnection(db.changes[i]) && GaveNotice(db.changes[i])
  {
    Reached(w, actions);
    FreshInv(w.db);
    var db := Run(w, actions).db;
    assert AccountInPlace(db, a);
    if NoRows(db, a) {
      RowlessIsImported(w, actions, a);
      assert false;
    }
    var i :| 0 <= i < |db.changes| && db.changes[i].accountId == a && AppliedDisconnection(db.changes[i]);
    assert BaseRow(db, i);
    NoticeIsGiven(w, actions, i);
    assert OfAccount(db, i, a);
  }

  // ---- the audit log ---------------------------------------------------------

  /**
    Folding a row's audit entries gives back its approval status and retention decision;
    an approved row carries one authorised sign-off per required stage, in order.
   */
  lemma AuditTellsTheStory(w: World, actions: seq<Action>, i: nat)
    requires FromImport(w, actions) && i < |Run(w, actions).db.changes| && BaseRow(Run(w, actions).db, i)
    ensures var db := Run(w, actions).db;
            var c := db.changes[i];
            var past := Replay(db.audit, i);
            && past.Some? && past.value.approval == c.approval && past.value.retention == c.retention
            && (c.approval == Approved ==> Stages(past.value.signs) == RequiredStages(c.changeType, c.mode))
            && (c.approval == Rejected ==> Stages(past.value.signs) < RequiredStages(c.changeType, c.mode))
            && AllAuthorised(w.db.users, w.db.accounts[c.accountId].samOwner, past.value.signs)
  {
    Reached(w, actions);
    var db := Run(w, actions).db;
    var c := db.changes[i];
    assert Told(db, i);
    assert SameIdentity(w.db.accounts[c.accountId], db.accounts[c.accountId]);
    if c.approval == Approved {
      assert Remaining(c.approval, c.changeType) == [];
    }
  }

  // ---- the retention queue ---------------------------------------------------

  predicate Unapplied(c: Change) {
    c.changeType == Disconnection && c.appliedAt == None
  }

  /** Row ids in the queue query's order: per account, newest first. */
  ghost predicate QueueOrder(changes: seq<Change>, rows: seq<nat>) {
    && (forall k | 0 <= k < |rows| :: rows[k] < |changes| && Unapplied(changes[rows[k]]))
    && (forall i | 0 <= i < |changes| && Unapplied(changes[i]) :: i in rows)
    && (forall k, m | 0 <= k < m < |rows| && changes[rows[k]].accountId == changes[rows[m]].accountId :: rows[k] > rows[m])
  }

  /** Row `i` is the newest unapplied disconnection of account `a`. */
  ghost predicate LatestUnapplied(changes: seq<Change>, a: nat, i: nat) {
    && i < |changes| && Unapplied(changes[i]) && changes[i].accountId == a
    && forall j | i < j < |changes| && Unapplied(changes[j]) :: changes[j].accountId != a
  }

  /** Position `p` holds the first row of account `a`. */
  ghost predicate FirstAt(changes: seq<Change>, rows: seq<nat>, a: nat, p: nat)
    requires forall k | 0 <= k < |rows| :: rows[k] < |changes|
  {
    && p < |rows| && changes[rows[p]].accountId == a
    && forall q | 0 <= q < p :: changes[rows[q]].accountId != a
  }

  lemma FirstIsLatest(changes: seq<Change>, rows: seq<nat>, a: nat, p: nat)
    requires QueueOrder(changes, rows) && FirstAt(changes, rows, a, p)
    ensures LatestUnapplied(changes, a, rows[p])
  {
    forall j | rows[p] < j < |changes| && Unapplied(changes[j])
      ensures changes[j].accountId != a
    {
      var m :| 0 <= m < |rows| && rows[m] == j;
    }
  }

  /** The loop that keeps the first row it meets for each account. */
  method PickPerAccount(changes: seq<Change>, rows: seq<nat>) returns (byAccount: map<nat, nat>)
    requires QueueOrder(changes, rows)
    ensures forall i | 0 <= i < |changes| && Unapplied(changes[i]) :: changes[i].accountId in byAccount
    ensures forall a | a in byAccount :: LatestUnapplied(changes, a, byAccount[a])
  {
    byAccount := map[];
    ghost var at: map<nat, nat> := map[];
    var k := 0;
    while k < |rows|
      invariant k <= |rows|
      invariant forall a | a in byAccount :: a in at && FirstAt(changes, rows, a, at[a]) && byAccount[a] == rows[at[a]]
      invariant forall m | 0 <= m < k :: changes[rows[m]].accountId in byAccount
    {
      var a := changes[rows[k]].accountId;
      if a !in byAccount {
        byAccount, at := byAccount[a := rows[k]], at[a := k];
      }
      k := k + 1;
    }
    forall a | a in byAccount
      ensures LatestUnapplied(changes, a, byAccount[a])
    {
      FirstIsLatest(changes, rows, a, at[a]);
    }
    forall i | 0 <= i < |changes| && Unapplied(changes[i])
      ensures changes[i].accountId in byAccount
    {
      var m :| 0 <= m < |rows| && rows[m] == i;
    }
  }

  /**
    For an account in its retention window, the row the queue shows, the row auto-retain
    would cancel and the one row in flight are the same, older rejected or retained
    disconnections notwithstanding.
   */
  lemma QueueAndAutoRetainAgree(w: World, actions: seq<Action>, a: nat, shown: nat)
    requires FromImport(w, actions) && a < |w.db.accounts| && w.db.accounts[a].kitty == BaseKitty
    requires Run(w, actions).db.accounts[a].status == ProbableChurn
    requires LatestUnapplied(Run(w, actions).db.changes, a, shown)
    ensures var db := Run(w, actions).db;
            && LatestUndecided(db.changes, a) == Some(shown)
            && AwaitsRetention(db.changes[shown])
            && forall i | OfAccount(db, i, a) && InFlight(db.changes[i]) :: i == shown
  {
    Reached(w, actions);
    var db := Run(w, actions).db;
    var i := RetentionRow(db, a);
    assert Unapplied(db.changes[i]);
    StatusTells(db, a);
  }

  // ---- progress --------------------------------------------------------------

  function RowMoved(w: World, action: Action, j: nat): nat
    requires Sound(w) && j < |w.db.changes|
  {
    if Step(w, action).db.changes[j] != w.db.changes[j] then 1 else 0
  }

  /** How many steps of the run changed row `j`. */
  function Moves(w: World, actions: seq<Action>, j: nat): nat
    requires Sound(w) && j < |w.db.changes|
  {
    if actions == [] then 0
    else
      var n := |actions| - 1;
      Moves(w, actions[..n], j) + RowMoved(Run(w, actions[..n]), actions[n], j)
  }

  /** A row has no rank left exactly when it is rejected, retained or applied. */
  lemma RankMeansInFlight(db: Db, j: nat)
    requires Inv(db) && j < |db.changes| && BaseRow(db, j)
    ensures Rank(db.changes[j]) == 0 <==> !InFlight(db.changes[j])
    ensures !InFlight(db.changes[j]) <==>
              db.changes[j].approval == Rejected || db.changes[j].retention == Some(Retain) || db.changes[j].appliedAt.Some?
  {
    assert Shape(db.changes[j]);
  }

  /** A step that changes an existing-base row costs it rank. */
  lemma RankPays(w: World, action: Action, j: nat)
    requires Good(w) && Permitted(w, action) && j < |w.db.changes| && BaseRow(w.db, j)
    ensures RowMoved(w, action, j) + Rank(Step(w, action).db.changes[j]) <= Rank(w.db.changes[j])
    ensures BaseRow(Step(w, action).db, j)
  {
    StepRow(w, action, j);
    var a := w.db.changes[j].accountId;
    assert SameIdentity(w.db.accounts[a], Step(w, action).db.accounts[a]);
  }

  /** A change settles within at most four steps, however long the run. */
  lemma {:induction false} SettlesWithinFour(w: World, actions: seq<Action>, j: nat)
    requires Good(w) && Legal(w, actions) && j < |w.db.changes| && BaseRow(w.db, j)
    ensures Moves(w, actions, j) + Rank(Run(w, actions).db.changes[j]) <= Rank(w.db.changes[j]) <= 4
    ensures BaseRow(Run(w, actions).db, j)
  {
    if actions != [] {
      var n := |actions| - 1;
      SettlesWithinFour(w, actions[..n], j);
      RunKeeps(w, actions[..n]);
      RankPays(Run(w, actions[..n]), actions[n], j);
    }
  }

  function RankOf(): Change -> int {
    (c: Change) => Rank(c)
  }

  ghost predicate BaseRowMoves(w: World, action: Action)
    requires Sound(w)
  {
    exists j :: 0 <= j < |w.db.changes| && BaseRow(w.db, j) && Step(w, action).db.changes[j] != w.db.changes[j]
  }

  /** Steps other than commits that moved an existing-base change. */
  ghost function Productive(w: World, actions: seq<Action>): nat
    requires Sound(w)
  {
    if actions == [] then 0
    else
      var n := |actions| - 1;
      Productive(w, actions[..n])
      + if !actions[n].CommitCall? && BaseRowMoves(Run(w, actions[..n]), actions[n]) then 1 else 0
  }

  function Commits(actions: seq<Action>): nat {
    if actions == [] then 0
    else Commits(actions[..|actions| - 1]) + if actions[|actions| - 1].CommitCall? then 1 else 0
  }

  /** Existing rows only ever lose rank. */
  lemma KeptRanks(w: World, action: Action)
    requires Good(w) && Permitted(w, action)
    ensures var kept := Step(w, action).db.changes[..|w.db.changes|];
            && Sum(kept, RankOf()) <= Sum(w.db.changes, RankOf())
            && (BaseRowMoves(w, action) ==> Sum(kept, RankOf()) < Sum(w.db.changes, RankOf()))
  {
    var kept := Step(w, action).db.changes[..|w.db.changes|];
    StepKeeps(w, action);
    forall j | 0 <= j < |w.db.changes|
      ensures RankOf()(kept[j]) <= RankOf()(w.db.changes[j])
      ensures BaseRow(w.db, j) && kept[j] != w.db.changes[j] ==> RankOf()(kept[j]) < RankOf()(w.db.changes[j])
    {
      KeptRank(w, action, j);
    }
    SumLess(kept, RankOf(), w.db.changes, RankOf());
  }

  lemma KeptRank(w: World, action: Action, j: nat)
    requires Good(w) && Permitted(w, action) && Inv(Step(w, action).db) && j < |w.db.changes|
    ensures var c, c' := w.db.changes[j], Step(w, action).db.changes[j];
            && Rank(c') <= Rank(c) && (BaseRow(w.db, j) && c' != c ==> Rank(c') < Rank(c))
  {
    StepRow(w, action, j);
    var a := w.db.changes[j].accountId;
    assert SameIdentity(w.db.accounts[a], Step(w, action).db.accounts[a]);
    if !BaseRow(w.db, j) {
      assert !BaseRow(Step(w, action).db, j);
    }
  }

  lemma StepAdds(w: World, action: Action)
    requires Sound(w)
    ensures |Step(w, action).db.changes| <= |w.db.changes| + if action.CommitCall? then 1 else 0
  {
    match action
    case CommitCall(input) =>
      if CommitRefusal(w.db, input, w.quickEnabled) == None {
        CommitAdds(w.db, input, w.now);
      }
    case _ =>
  }

  lemma RankGrowth(changes: seq<Change>, n: nat)
    requires n <= |changes| <= n + 1
    ensures Sum(changes, RankOf()) <= Sum(changes[..n], RankOf()) + 4 * (|changes| - n)
  {
    if |changes| == n {
      assert changes == changes[..n];
    } else {
      var last := changes[n];
      assert changes[..n] + [last] == changes;
      SumSnoc(changes[..n], last, RankOf());
      assert RankOf()(last) <= 4;
    }
  }

  lemma RankStep(w: World, action: Action)
    requires Good(w) && Permitted(w, action)
    ensures var before, after := Sum(w.db.changes, RankOf()), Sum(Step(w, action).db.changes, RankOf());
            if action.CommitCall? then after <= before + 4
            else after <= before && (BaseRowMoves(w, action) ==> after < before)
  {
    KeptRanks(w, action);
    StepAdds(w, action);
    RankGrowth(Step(w, action).db.changes, |w.db.changes|);
  }

  /** With finitely many commits every run has finitely many productive steps. */
  lemma {:induction false} RunsAreFinite(w: World, actions: seq<Action>)
    requires Good(w) && Legal(w, actions)
    ensures Productive(w, actions) + Sum(Run(w, actions).db.changes, RankOf())
         <= Sum(w.db.changes, RankOf()) + 4 * Commits(actions)
  {
    if actions != [] {
      var n := |actions| - 1;
      RunsAreFinite(w, actions[..n]);
      RunKeeps(w, actions[..n]);
      RankStep(Run(w, actions[..n]), actions[n]);
    }
  }

  /**
    Nothing gets stuck: an admin can always decide a pending change (a rejection never
    finds the account drifted), a customer can always be retained, PROCEED opens exactly
    on the prompt day and the sweep lists the row exactly from its termination day on.
   */
  lemma NeverStuck(db: Db, i: nat, admin: UserId, now: Time)
    requires Inv(db) && i < |db.changes| && BaseRow(db, i)
    ensures AwaitsApproval(db.changes[i]) ==>
              && DecideRefusal(db, i, Approve(None), admin, Admin) == None
              && forall reason | TrimmedLength(reason) >= REJECTION_REASON_MIN_LENGTH ::
                   DecideRefusal(db, i, Reject(reason), admin, Admin) == None
    ensures AwaitsRetention(db.changes[i]) ==>
              && RetentionRefusal(db, i, Retain, now) == None
              && db.changes[i].approvedAt.Some?
              && (RetentionRefusal(db, i, Proceed, now) == None <==>
                    StartOfDay(now) >= StartOfDay(db.changes[i].approvedAt.value) + 21 * 86_400_000)
    ensures AwaitsTermination(db.changes[i]) ==>
              && db.changes[i].scheduledTerminationAt.Some?
              && (Due(db.changes[i], StartOfDay(now)) <==> StartOfDay(now) >= db.changes[i].scheduledTerminationAt.value)
  {
    assert Shape(db.changes[i]) && RowInPlace(db, i);
  }
}
