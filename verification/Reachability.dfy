/**
  The changes awaiting approval can always be driven through: an admin and an idle sweep
  worker suffice, without a commit, a rejection or a retention on the way.
 */
module Reachability {
  import opened Schema
  import opened Dates
  import opened Sums
  import opened Lifecycle
  import opened Invariant
  import opened Runs
  import opened Guarantees
  import opened Dashboard
  import opened Reconciliation
  import opened Forecast

  // ---- joining runs ----------------------------------------------------------

  lemma RunSnoc(w: World, actions: seq<Action>, a: Action)
    requires Sound(w)
    ensures Run(w, actions + [a]) == Step(Run(w, actions), a)
    ensures Legal(w, actions + [a]) <==> Legal(w, actions) && Permitted(Run(w, actions), a)
  {
    assert (actions + [a])[..|actions|] == actions;
  }

  lemma JoinOne(w: World, first: seq<Action>, front: seq<Action>, last: Action)
    requires Sound(w) && Run(w, first + front) == Run(Run(w, first), front)
    ensures Run(w, first + (front + [last])) == Run(Run(w, first), front + [last])
    ensures Legal(w, first + front) && Legal(Run(w, first), front + [last]) ==> Legal(w, first + (front + [last]))
  {
    RunSnoc(w, first + front, last);
    RunSnoc(Run(w, first), front, last);
    assert (first + front) + [last] == first + (front + [last]);
  }

  lemma {:induction false} RunsJoin(w: World, first: seq<Action>, second: seq<Action>)
    requires Sound(w)
    ensures Run(w, first + second) == Run(Run(w, first), second)
    ensures Legal(w, first) && Legal(Run(w, first), second) ==> Legal(w, first + second)
    decreases |second|
  {
    if second == [] {
      assert first + second == first;
    } else {
      var front, last := second[..|second| - 1], second[|second| - 1];
      assert front + [last] == second;
      RunsJoin(w, first, front);
      JoinOne(w, first, front, last);
    }
  }

  /** An admin is on record and worker `k` is idle. */
  predicate Staffed(w: World, admin: UserId, k: nat) {
    admin in w.db.users && w.db.users[admin].role == Admin && k < |w.lists| && w.lists[k] == []
  }

  /** `later` is `w` with row `i` settled as far as `actions` took it; other rows are untouched. */
  ghost predicate Drives(w: World, actions: seq<Action>, i: nat, admin: UserId, k: nat)
    requires Sound(w) && i < |w.db.changes|
  {
    && Legal(w, actions) && NoCommits(actions)
    && Staffed(Run(w, actions), admin, k)
    && |Run(w, actions).db.changes| == |w.db.changes|
    && forall j | 0 <= j < |w.db.changes| && j != i :: Run(w, actions).db.changes[j] == w.db.changes[j]
  }

  lemma DrivesOn(w: World, first: seq<Action>, second: seq<Action>, i: nat, admin: UserId, k: nat)
    requires Sound(w) && i < |w.db.changes|
    requires Drives(w, first, i, admin, k) && Drives(Run(w, first), second, i, admin, k)
    ensures Drives(w, first + second, i, admin, k)
    ensures Run(w, first + second) == Run(Run(w, first), second)
  {
    RunsJoin(w, first, second);
  }

  lemma OneStep(w: World, a: Action)
    requires Sound(w)
    ensures Run(w, [a]) == Step(w, a)
    ensures Legal(w, [a]) <==> Permitted(w, a)
  {
    assert [a][..0] == [];
  }


  // ---- one stage further -----------------------------------------------------

  lemma ApproveOn(w: World, i: nat, admin: UserId, k: nat) returns (actions: seq<Action>)
    requires Good(w) && Staffed(w, admin, k) && i < |w.db.changes| && BaseRow(w.db, i) && AwaitsApproval(w.db.changes[i])
    ensures Drives(w, actions, i, admin, k)
    ensures var c := Run(w, actions).db.changes[i];
              (InFlight(c) || c.appliedAt.Some?) && Rank(c) < Rank(w.db.changes[i])
  {
    var a := DecideCall(i, Approve(None), admin, Admin);
    actions := [a];
    NeverStuck(w.db, i, admin, w.now);
    OneStep(w, a);
    ApprovalStep(w, i, admin);
  }

  lemma ApprovalStep(w: World, i: nat, admin: UserId)
    requires Good(w) && i < |w.db.changes| && BaseRow(w.db, i) && AwaitsApproval(w.db.changes[i])
    requires DecideRefusal(w.db, i, Approve(None), admin, Admin) == None
    ensures var db := Step(w, DecideCall(i, Approve(None), admin, Admin)).db;
              && |db.changes| == |w.db.changes|
              && (forall j | 0 <= j < |w.db.changes| && j != i :: db.changes[j] == w.db.changes[j])
              && (InFlight(db.changes[i]) || db.changes[i].appliedAt.Some?)
              && Rank(db.changes[i]) < Rank(w.db.changes[i])
  {
    assert Shape(w.db.changes[i]);
    DecidedProgresses(w.db, i, Approve(None), admin, w.now);
  }

  lemma {:induction false} WaitUntil(w: World, t: Time, i: nat, admin: UserId, k: nat)
    requires Sound(w) && Staffed(w, admin, k) && i < |w.db.changes|
    ensures Drives(w, [Elapse(t)], i, admin, k)
    ensures Run(w, [Elapse(t)]).db == w.db && Run(w, [Elapse(t)]).lists == w.lists
    ensures Run(w, [Elapse(t)]).now >= t && Run(w, [Elapse(t)]).now >= w.now
  {
    OneStep(w, Elapse(t));
  }

  lemma ProceedStep(db: Db, i: nat, actor: UserId, now: Time)
    requires i < |db.changes| && db.changes[i].accountId < |db.accounts| && AwaitsRetention(db.changes[i])
    ensures var db' := RetentionApplied(db, i, Proceed, actor, now);
              && |db'.changes| == |db.changes| && db'.users == db.users && AwaitsTermination(db'.changes[i])
              && forall j | 0 <= j < |db.changes| && j != i :: db'.changes[j] == db.changes[j]
  {
  }

  lemma ProceedNow(w: World, i: nat, admin: UserId, k: nat)
    requires Sound(w) && Staffed(w, admin, k) && i < |w.db.changes| && BaseRow(w.db, i) && AwaitsRetention(w.db.changes[i])
    requires RetentionRefusal(w.db, i, Proceed, w.now) == None
    ensures Drives(w, [RetentionCall(i, Proceed, admin)], i, admin, k)
    ensures AwaitsTermination(Run(w, [RetentionCall(i, Proceed, admin)]).db.changes[i])
  {
    OneStep(w, RetentionCall(i, Proceed, admin));
    ProceedStep(w.db, i, admin, w.now);
  }

  lemma ProceedOn(w: World, i: nat, admin: UserId, k: nat) returns (actions: seq<Action>)
    requires Good(w) && Staffed(w, admin, k) && i < |w.db.changes| && BaseRow(w.db, i) && AwaitsRetention(w.db.changes[i])
    ensures Drives(w, actions, i, admin, k)
    ensures AwaitsTermination(Run(w, actions).db.changes[i]) && Rank(Run(w, actions).db.changes[i]) < Rank(w.db.changes[i])
  {
    assert Shape(w.db.changes[i]);
    var t := w.db.changes[i].retentionPromptDueAt.value;
    WaitUntil(w, t, i, admin, k);
    var w1 := Run(w, [Elapse(t)]);
    RunKeeps(w, [Elapse(t)]);
    Midnight(t, w1.now, w.db.changes[i].approvedAt.value, PROBABLE_CHURN_WINDOW_DAYS);
    ProceedNow(w1, i, admin, k);
    DrivesOn(w, [Elapse(t)], [RetentionCall(i, Proceed, admin)], i, admin, k);
    actions := [Elapse(t)] + [RetentionCall(i, Proceed, admin)];
  }

  /** A day reckoned from another day's midnight is a midnight. */
  lemma Midnight(t: Time, now: Time, from: Time, days: int)
    requires t == StartOfDay(from) + days * DAY && t <= now
    ensures t <= StartOfDay(now)
  {
    StartOfDayMonotone(t, now);
    StartOfDayAddDays(StartOfDay(from), days);
    assert StartOfDay(StartOfDay(from)) == StartOfDay(from);
  }

  lemma PickOne(w: World, i: nat, admin: UserId, k: nat)
    requires Sound(w) && Staffed(w, admin, k) && i < |w.db.changes| && Due(w.db.changes[i], StartOfDay(w.now))
    ensures Permitted(w, SweepPick(k, [i])) && Step(w, SweepPick(k, [i])) == w.(lists := w.lists[k := [i]])
  {
    assert Picks(w, k, [i]);
  }

  lemma ApplyOne(w: World, i: nat, k: nat)
    requires Sound(w) && k < |w.lists| && w.lists[k] == [i] && i < |w.db.changes|
    ensures var w' := Step(w, SweepApply(k));
              && Permitted(w, SweepApply(k)) && w'.lists == w.lists[k := []] && w'.db.users == w.db.users
              && |w'.db.changes| == |w.db.changes| && w'.db.changes[i].appliedAt.Some?
              && forall j | 0 <= j < |w.db.changes| && j != i :: w'.db.changes[j] == w.db.changes[j]
  {
    assert [i][1..] == [];
  }

  lemma SweepNow(w: World, i: nat, admin: UserId, k: nat)
    requires Sound(w) && Staffed(w, admin, k) && i < |w.db.changes| && Due(w.db.changes[i], StartOfDay(w.now))
    ensures Drives(w, [SweepPick(k, [i]), SweepApply(k)], i, admin, k)
    ensures Run(w, [SweepPick(k, [i]), SweepApply(k)]).db.changes[i].appliedAt.Some?
  {
    var pick, apply := SweepPick(k, [i]), SweepApply(k);
    PickOne(w, i, admin, k);
    OneStep(w, pick);
    ApplyOne(Step(w, pick), i, k);
    RunSnoc(w, [pick], apply);
    assert [pick] + [apply] == [pick, apply];
  }

  lemma SweepOn(w: World, i: nat, admin: UserId, k: nat) returns (actions: seq<Action>)
    requires Good(w) && Staffed(w, admin, k) && i < |w.db.changes| && BaseRow(w.db, i) && AwaitsTermination(w.db.changes[i])
    ensures Drives(w, actions, i, admin, k)
    ensures Run(w, actions).db.changes[i].appliedAt.Some?
  {
    assert Shape(w.db.changes[i]);
    var t := w.db.changes[i].scheduledTerminationAt.value + DAY;
    WaitUntil(w, t, i, admin, k);
    var w1 := Run(w, [Elapse(t)]);
    RunKeeps(w, [Elapse(t)]);
    assert StartOfDay(w1.now) > w1.now - DAY;
    SweepNow(w1, i, admin, k);
    DrivesOn(w, [Elapse(t)], [SweepPick(k, [i]), SweepApply(k)], i, admin, k);
    actions := [Elapse(t)] + [SweepPick(k, [i]), SweepApply(k)];
  }

  // ---- one row, all rows -----------------------------------------------------

  lemma KindsOfFlight(c: Change)
    requires Shape(c) && InFlight(c)
    ensures AwaitsApproval(c) || AwaitsRetention(c) || AwaitsTermination(c)
  {
    if c.retention.Some? {
      assert c.retention.value == Retain || c.retention.value == Proceed;
    }
  }

  lemma OneStageOn(w: World, i: nat, admin: UserId, k: nat) returns (actions: seq<Action>)
    requires Good(w) && Staffed(w, admin, k) && i < |w.db.changes| && BaseRow(w.db, i) && InFlight(w.db.changes[i])
    ensures Drives(w, actions, i, admin, k)
    ensures var c := Run(w, actions).db.changes[i];
              c.appliedAt.Some? || (InFlight(c) && Rank(c) < Rank(w.db.changes[i]))
  {
    var c := w.db.changes[i];
    KindsOfFlight(c) by {
      assert Shape(c);
    }
    if AwaitsApproval(c) {
      actions := ApproveOn(w, i, admin, k);
    } else if AwaitsRetention(c) {
      actions := ProceedOn(w, i, admin, k);
    } else {
      actions := SweepOn(w, i, admin, k);
    }
  }

  /** Every change in flight can be applied, leaving every other change alone. */
  lemma {:induction false} DriveToApplication(w: World, i: nat, admin: UserId, k: nat) returns (actions: seq<Action>)
    requires Good(w) && Staffed(w, admin, k) && i < |w.db.changes| && BaseRow(w.db, i) && InFlight(w.db.changes[i])
    ensures Drives(w, actions, i, admin, k)
    ensures Run(w, actions).db.changes[i].appliedAt.Some?
    decreases Rank(w.db.changes[i])
  {
    actions := OneStageOn(w, i, admin, k);
    var w1 := Run(w, actions);
    if w1.db.changes[i].appliedAt == None {
      RunKeeps(w, actions);
      StaysBase(w, actions, i);
      var rest := DriveToApplication(w1, i, admin, k);
      DrivesOn(w, actions, rest, i, admin, k);
      actions := actions + rest;
    }
  }

  lemma StaysBase(w: World, actions: seq<Action>, i: nat)
    requires Good(w) && Legal(w, actions) && NoCommits(actions) && i < |w.db.changes| && BaseRow(w.db, i)
    ensures i < |Run(w, actions).db.changes| && BaseRow(Run(w, actions).db, i)
  {
    RowsStay(w, actions, i);
  }

  /** The first `n` rows that await approval in `w` are applied in `later`, and later rows are as they were. */
  ghost predicate FirstApplied(w: World, later: World, scope: Account -> bool, n: nat)
    requires n <= |w.db.changes|
  {
    && |later.db.changes| == |w.db.changes|
    && (forall i | 0 <= i < n && Awaiting(w.db.accounts, scope)(w.db.changes[i]) :: later.db.changes[i].appliedAt.Some?)
    && (forall i | n <= i < |w.db.changes| :: later.db.changes[i] == w.db.changes[i])
  }

  lemma FirstSkips(w: World, later: World, scope: Account -> bool, n: nat)
    requires n < |w.db.changes| && FirstApplied(w, later, scope, n) && !Awaiting(w.db.accounts, scope)(w.db.changes[n])
    ensures FirstApplied(w, later, scope, n + 1)
  {
  }

  lemma FirstGrows(w: World, w1: World, actions: seq<Action>, scope: Account -> bool, n: nat, admin: UserId, k: nat)
    requires Sound(w1) && n < |w.db.changes| && FirstApplied(w, w1, scope, n)
    requires Drives(w1, actions, n, admin, k) && Run(w1, actions).db.changes[n].appliedAt.Some?
    ensures FirstApplied(w, Run(w1, actions), scope, n + 1)
  {
  }

  lemma DriveNext(w: World, w1: World, scope: Account -> bool, n: nat, admin: UserId, k: nat) returns (actions: seq<Action>)
    requires Good(w1) && Staffed(w1, admin, k) && n < |w.db.changes| && FirstApplied(w, w1, scope, n) && BaseRow(w1.db, n)
    requires Awaiting(w.db.accounts, scope)(w.db.changes[n])
    ensures Legal(w1, actions) && NoCommits(actions) && Staffed(Run(w1, actions), admin, k)
    ensures FirstApplied(w, Run(w1, actions), scope, n + 1)
  {
    actions := DriveToApplication(w1, n, admin, k);
    FirstGrows(w, w1, actions, scope, n, admin, k);
  }

  lemma JoinLegal(w: World, actions: seq<Action>, more: seq<Action>)
    requires Sound(w) && Legal(w, actions) && NoCommits(actions)
    requires Legal(Run(w, actions), more) && NoCommits(more)
    ensures Legal(w, actions + more) && NoCommits(actions + more) && Run(w, actions + more) == Run(Run(w, actions), more)
  {
    RunsJoin(w, actions, more);
  }

  lemma DriveNone(w: World, scope: Account -> bool, admin: UserId, k: nat)
    requires Sound(w) && Staffed(w, admin, k)
    ensures Legal(w, []) && NoCommits([]) && Run(w, []) == w && FirstApplied(w, w, scope, 0)
  {
  }

  lemma DriveMore(w: World, actions: seq<Action>, scope: Account -> bool, n: nat, admin: UserId, k: nat) returns (longer: seq<Action>)
    requires Good(w) && BaseScope(w.db.accounts, scope) && n < |w.db.changes|
    requires Legal(w, actions) && NoCommits(actions) && Staffed(Run(w, actions), admin, k)
    requires FirstApplied(w, Run(w, actions), scope, n)
    ensures Legal(w, longer) && NoCommits(longer) && Staffed(Run(w, longer), admin, k)
    ensures FirstApplied(w, Run(w, longer), scope, n + 1)
  {
    if Awaiting(w.db.accounts, scope)(w.db.changes[n]) {
      RunKeeps(w, actions);
      AwaitingStaysBase(w, actions, scope, n);
      var more := DriveNext(w, Run(w, actions), scope, n, admin, k);
      JoinLegal(w, actions, more);
      longer := actions + more;
    } else {
      FirstSkips(w, Run(w, actions), scope, n);
      longer := actions;
    }
  }

  lemma {:induction false} DriveFirst(w: World, scope: Account -> bool, n: nat, admin: UserId, k: nat) returns (actions: seq<Action>)
    requires Good(w) && Staffed(w, admin, k) && BaseScope(w.db.accounts, scope) && n <= |w.db.changes|
    ensures Legal(w, actions) && NoCommits(actions) && Staffed(Run(w, actions), admin, k)
    ensures FirstApplied(w, Run(w, actions), scope, n)
    decreases n
  {
    if n == 0 {
      actions := [];
      DriveNone(w, scope, admin, k);
    } else {
      var fewer := DriveFirst(w, scope, n - 1, admin, k);
      actions := DriveMore(w, fewer, scope, n - 1, admin, k);
    }
  }

  lemma AwaitingStaysBase(w: World, actions: seq<Action>, scope: Account -> bool, i: nat)
    requires Good(w) && Legal(w, actions) && NoCommits(actions) && BaseScope(w.db.accounts, scope)
    requires i < |w.db.changes| && Awaiting(w.db.accounts, scope)(w.db.changes[i])
    ensures i < |Run(w, actions).db.changes| && BaseRow(Run(w, actions).db, i)
  {
    assert BaseRow(w.db, i);
    StaysBase(w, actions, i);
  }

  /**
    From any good world with an admin and an idle worker, some legal run without commits applies
    every change of the scope that awaits approval, and its accounts' ARC then has moved by the
    provision shown, plus what rate revisions carry.
   */
  lemma ProvisionComesTrue(w: World, scope: Account -> bool, admin: UserId, k: nat) returns (actions: seq<Action>)
    requires Good(w) && Staffed(w, admin, k) && BaseScope(w.db.accounts, scope)
    ensures Legal(w, actions) && NoCommits(actions) && AllApplied(w.db, Run(w, actions).db, scope)
    ensures var awaiting := Filter(w.db.changes, Awaiting(w.db.accounts, scope));
            var accounts := Filter(w.db.accounts, Provisioned(scope));
            Sum(accounts, ArcIn(Run(w, actions).db.accounts)) - Sum(accounts, ArcIn(w.db.accounts)) ==
              Waterfall(w.db, scope, None).approvalNetArc + Sum(awaiting, Gain(RateRevision))
  {
    actions := DriveFirst(w, scope, |w.db.changes|, admin, k);
    ProvisionForecasts(w, actions, scope);
  }
}
