/**
  The pending-approval provision forecasts: once the changes now awaiting approval are
  applied, their accounts' ARC has moved by exactly the figure shown.
 */
module Forecast {
  import opened Schema
  import opened Sums
  import opened Lifecycle
  import opened Invariant
  import opened Preservation
  import opened Runs
  import opened Guarantees
  import opened Dashboard
  import opened Reconciliation

  ghost predicate NoCommits(actions: seq<Action>) {
    forall k | 0 <= k < |actions| :: !actions[k].CommitCall?
  }

  /** Without commits the change table keeps its rows, and settled rows stay as they are. */
  lemma {:induction false} RowsStay(w: World, actions: seq<Action>, j: nat)
    requires Good(w) && Legal(w, actions) && NoCommits(actions)
    requires j < |w.db.changes| && BaseRow(w.db, j)
    ensures |Run(w, actions).db.changes| == |w.db.changes| && BaseRow(Run(w, actions).db, j)
    ensures var c, c' := w.db.changes[j], Run(w, actions).db.changes[j];
            && c'.accountId == c.accountId && c'.changeType == c.changeType && c'.oldArc == c.oldArc && c'.newArc == c.newArc
            && (!InFlight(c) ==> c' == c)
  {
    if actions != [] {
      var n := |actions| - 1;
      var before := Run(w, actions[..n]);
      RowsStay(w, actions[..n], j);
      RunKeeps(w, actions[..n]);
      StepRow(before, actions[n], j);
      RankPays(before, actions[n], j);
      StepAdds(before, actions[n]);
    }
  }

  /** Every covered row awaiting approval in `db` is applied in `later`. */
  ghost predicate AllApplied(db: Db, later: Db, scope: Account -> bool) {
    && |later.changes| == |db.changes|
    && forall i | 0 <= i < |db.changes| && Awaiting(db.accounts, scope)(db.changes[i]) :: later.changes[i].appliedAt.Some?
  }

  /** Covered accounts with a change awaiting approval. */
  function Provisioned(scope: Account -> bool): Account -> bool {
    (a: Account) => scope(a) && a.status == PendingApproval
  }

  function ArcIn(accounts: seq<Account>): Account -> int {
    (a: Account) => if a.id < |accounts| then accounts[a.id].currentArc else 0
  }

  function DeltaOf(): Change -> int {
    (c: Change) => Delta(c)
  }

  /** A covered row awaits approval exactly if it is in flight on a provisioned account. */
  lemma AwaitsOnProvisioned(db: Db, scope: Account -> bool, i: nat)
    requires Inv(db) && BaseScope(db.accounts, scope) && i < |db.changes| && scope(db.accounts[db.changes[i].accountId])
    ensures var c, status := db.changes[i], db.accounts[db.changes[i].accountId].status;
            && BaseRow(db, i)
            && (IsPendingStage(c.approval) <==> InFlight(c) && status == PendingApproval)
            && (IsPendingStage(c.approval) ==> c.appliedAt == None)
  {
    assert BaseRow(db, i) && Shape(db.changes[i]) && RowInPlace(db, i);
  }

  lemma RowForecast(w: World, actions: seq<Action>, scope: Account -> bool, i: nat)
    requires Good(w) && Legal(w, actions) && NoCommits(actions) && BaseScope(w.db.accounts, scope)
    requires AllApplied(w.db, Run(w, actions).db, scope) && i < |w.db.changes|
    ensures var term := AppliedDelta(w.db.accounts, Provisioned(scope));
            term(Run(w, actions).db.changes[i]) ==
              term(w.db.changes[i]) + Masked(Awaiting(w.db.accounts, scope), DeltaOf())(w.db.changes[i])
  {
    RunForeignRow(w, actions, i);
    if scope(w.db.accounts[w.db.changes[i].accountId]) {
      AwaitsOnProvisioned(w.db, scope, i);
      RowsStay(w, actions, i);
    }
  }

  /** Rows never change account. */
  lemma {:induction false} RunForeignRow(w: World, actions: seq<Action>, i: nat)
    requires Good(w) && Legal(w, actions) && i < |w.db.changes|
    ensures Run(w, actions).db.changes[i].accountId == w.db.changes[i].accountId
  {
    if actions != [] {
      var n := |actions| - 1;
      RunForeignRow(w, actions[..n], i);
      RunKeeps(w, actions[..n]);
      StepRow(Run(w, actions[..n]), actions[n], i);
    }
  }

  lemma AccountForecast(w: World, actions: seq<Action>, scope: Account -> bool, a: nat)
    requires Good(w) && Legal(w, actions) && BaseScope(w.db.accounts, scope)
    requires a < |w.db.accounts| && scope(w.db.accounts[a])
    ensures var x, later := w.db.accounts[a], Run(w, actions).db;
            ArcIn(later.accounts)(x) - ArcIn(w.db.accounts)(x) == NetOf(later.changes)(x) - NetOf(w.db.changes)(x)
  {
    RunKeeps(w, actions);
    assert SameIdentity(w.db.accounts[a], Run(w, actions).db.accounts[a]);
    assert BalancedAccount(w.db, a) && BalancedAccount(Run(w, actions).db, a);
  }

  /** The accounts' ARC moves by what their rows apply. */
  lemma ArcMoves(w: World, actions: seq<Action>, scope: Account -> bool)
    requires Good(w) && Legal(w, actions) && BaseScope(w.db.accounts, scope)
    ensures var accounts, later := w.db.accounts, Run(w, actions).db;
            var held := Provisioned(scope);
            Sum(Filter(accounts, held), ArcIn(later.accounts)) - Sum(Filter(accounts, held), ArcIn(accounts)) ==
              Sum(later.changes, AppliedDelta(accounts, held)) - Sum(w.db.changes, AppliedDelta(accounts, held))
  {
    var accounts, later := w.db.accounts, Run(w, actions).db;
    var held := Provisioned(scope);
    SumFilter(accounts, held, ArcIn(later.accounts));
    SumFilter(accounts, held, ArcIn(accounts));
    NetsByRow(accounts, held, later.changes);
    NetsByRow(accounts, held, w.db.changes);
    var moved := (x: Account) => Masked(held, ArcIn(later.accounts))(x) - Masked(held, ArcIn(accounts))(x);
    SumPointwise(accounts, Masked(held, ArcIn(later.accounts)), accounts, Masked(held, ArcIn(accounts)), accounts, moved);
    forall a | 0 <= a < |accounts|
      ensures Masked(held, NetOf(later.changes))(accounts[a]) == Masked(held, NetOf(w.db.changes))(accounts[a]) + moved(accounts[a])
    {
      if held(accounts[a]) {
        AccountForecast(w, actions, scope, a);
      }
    }
    SumPointwise(accounts, Masked(held, NetOf(later.changes)), accounts, Masked(held, NetOf(w.db.changes)), accounts, moved);
  }

  lemma {:induction false} DeltaSplits(changes: seq<Change>)
    ensures Sum(changes, DeltaOf()) == Sum(changes, Provision()) + Sum(changes, Gain(RateRevision))
  {
    if changes != [] {
      DeltaSplits(changes[..|changes| - 1]);
    }
  }

  /** What the covered pending rows come to carry when they are applied. */
  lemma RowsForecast(w: World, actions: seq<Action>, scope: Account -> bool)
    requires Good(w) && Legal(w, actions) && NoCommits(actions) && BaseScope(w.db.accounts, scope)
    requires AllApplied(w.db, Run(w, actions).db, scope)
    ensures var term := AppliedDelta(w.db.accounts, Provisioned(scope));
            Sum(Run(w, actions).db.changes, term) ==
              Sum(w.db.changes, term) + Sum(Filter(w.db.changes, Awaiting(w.db.accounts, scope)), DeltaOf())
  {
    var db, later := w.db, Run(w, actions).db;
    var term, awaits := AppliedDelta(db.accounts, Provisioned(scope)), Awaiting(db.accounts, scope);
    forall i | 0 <= i < |db.changes|
      ensures term(later.changes[i]) == term(db.changes[i]) + Masked(awaits, DeltaOf())(db.changes[i])
    {
      RowForecast(w, actions, scope, i);
    }
    SumPointwise(later.changes, term, db.changes, term, db.changes, Masked(awaits, DeltaOf()));
    SumFilter(db.changes, awaits, DeltaOf());
  }

  /**
    From any good world, after any legal run without commits that ends with every covered
    pending change applied, the accounts that had one have moved by the provision shown
    beforehand, plus whatever ARC their rate revisions carry.
   */
  lemma ProvisionForecasts(w: World, actions: seq<Action>, scope: Account -> bool)
    requires Good(w) && Legal(w, actions) && NoCommits(actions) && BaseScope(w.db.accounts, scope)
    requires AllApplied(w.db, Run(w, actions).db, scope)
    ensures var awaiting := Filter(w.db.changes, Awaiting(w.db.accounts, scope));
            var accounts := Filter(w.db.accounts, Provisioned(scope));
            Sum(accounts, ArcIn(Run(w, actions).db.accounts)) - Sum(accounts, ArcIn(w.db.accounts)) ==
              Waterfall(w.db, scope, None).approvalNetArc + Sum(awaiting, Gain(RateRevision))
  {
    ArcMoves(w, actions, scope);
    RowsForecast(w, actions, scope);
    DeltaSplits(Filter(w.db.changes, Awaiting(w.db.accounts, scope)));
  }

  lemma NeutralAwaiting(db: Db, scope: Account -> bool)
    requires NeutralRevisions(db.changes)
    ensures Sum(Filter(db.changes, Awaiting(db.accounts, scope)), Gain(RateRevision)) == 0
  {
    var awaiting := Filter(db.changes, Awaiting(db.accounts, scope));
    forall k | 0 <= k < |awaiting|
      ensures Gain(RateRevision)(awaiting[k]) == 0
    {
      assert awaiting[k] in awaiting;
      var i :| 0 <= i < |db.changes| && db.changes[i] == awaiting[k];
    }
    SumZero(awaiting, Gain(RateRevision));
  }

  /** The dashboard's own figure, on the tables it has swept, after any run from a fresh import. */
  lemma DashboardForecasts(w: World, before: seq<Action>, locked: set<nat>, after: seq<Action>, requester: UserId, role: Role, samId: Option<UserId>)
    requires FromImport(w, before)
    requires Legal(Swept(Run(w, before), locked), after) && NoCommits(after)
    requires AllApplied(Swept(Run(w, before), locked).db, Run(Swept(Run(w, before), locked), after).db, Scope(w.db.users, requester, role, samId))
    requires NeutralRevisions(Swept(Run(w, before), locked).db.changes)
    ensures var db, later := Swept(Run(w, before), locked).db, Run(Swept(Run(w, before), locked), after).db;
            var scope := Scope(w.db.users, requester, role, samId);
            var accounts := Filter(db.accounts, Provisioned(scope));
            Sum(accounts, ArcIn(later.accounts)) - Sum(accounts, ArcIn(db.accounts)) == Waterfall(db, scope, None).approvalNetArc
  {
    Reached(w, before);
    SweptIsGood(Run(w, before), locked);
    var mid := Swept(Run(w, before), locked);
    var scope := Scope(w.db.users, requester, role, samId);
    ProvisionForecasts(mid, after, scope);
    NeutralAwaiting(mid.db, scope);
  }

  lemma {:induction false} StagesPartition(awaiting: seq<Change>)
    requires forall k | 0 <= k < |awaiting| :: IsPendingStage(awaiting[k].approval)
    ensures |awaiting| == Sum(awaiting, AtStage(PendingSuperAdmin2)) + Sum(awaiting, AtStage(PendingSamHead))
                          + Sum(awaiting, AtStage(PendingAccounts))
  {
    if awaiting != [] {
      StagesPartition(awaiting[..|awaiting| - 1]);
    }
  }

  /** The three counters split the number of changes awaiting approval, in any state and scope. */
  lemma CountersPartition(db: Db, scope: Account -> bool, window: Option<Window>)
    ensures var m := Waterfall(db, scope, window);
            m.approvalCount == m.awaitingSuperAdmin2 + m.awaitingSamHead + m.awaitingAccounts
  {
    var awaiting := Filter(db.changes, Awaiting(db.accounts, scope));
    forall k | 0 <= k < |awaiting|
      ensures IsPendingStage(awaiting[k].approval)
    {
      assert awaiting[k] in awaiting;
    }
    StagesPartition(awaiting);
  }
}
