/**
  Sweeps running side by side. Workers hold due lists that may overlap and may be stale;
  their transactions interleave in any order. The tables end as after one sweep, up to
  the time a row was stamped.
 */
module SweepWorkers {
  import opened Schema
  import opened Dates
  import opened Lifecycle
  import opened Preservation
  import opened Runs

  datatype Stamp = Stamp(row: nat, at: Time)

  /** One transaction per stamp, in order. */
  function Play(db: Db, ops: seq<Stamp>): (r: Db)
    requires Keyed(db)
    requires forall k | 0 <= k < |ops| :: ops[k].row < |db.changes|
    ensures Keyed(r) && |r.changes| == |db.changes| && |r.accounts| == |db.accounts|
    ensures r.users == db.users && r.audit == db.audit
    ensures forall i | 0 <= i < |db.changes| :: r.changes[i].accountId == db.changes[i].accountId
  {
    if ops == [] then db
    else ApplyChange(Play(db, ops[..|ops| - 1]), ops[|ops| - 1].row, ops[|ops| - 1].at)
  }

  /** When row `i` is first reached. */
  function FirstStamp(ops: seq<Stamp>, i: nat): (t: Option<Time>)
    ensures t.Some? <==> exists k :: 0 <= k < |ops| && ops[k].row == i
  {
    if ops == [] then None
    else
      var n := |ops| - 1;
      var earlier := FirstStamp(ops[..n], i);
      if earlier.Some? then earlier
      else if ops[n].row == i then Some(ops[n].at)
      else None
  }

  /** A row takes the stamp of the first transaction that reaches it and never another. */
  lemma {:induction false} PlayRow(db: Db, ops: seq<Stamp>, i: nat)
    requires Keyed(db) && i < |db.changes|
    requires forall k | 0 <= k < |ops| :: ops[k].row < |db.changes|
    ensures Play(db, ops).changes[i]
         == if db.changes[i].appliedAt.Some? || FirstStamp(ops, i).None? then db.changes[i]
            else db.changes[i].(appliedAt := FirstStamp(ops, i))
  {
    if ops != [] {
      PlayRow(db, ops[..|ops| - 1], i);
    }
  }

  predicate Ends(db: Db, ops: seq<Stamp>, a: nat) {
    exists i :: 0 <= i < |db.changes| && db.changes[i].accountId == a && db.changes[i].appliedAt == None && FirstStamp(ops, i).Some?
  }

  lemma EndsSnoc(db: Db, ops: seq<Stamp>, a: nat)
    requires ops != [] && ops[|ops| - 1].row < |db.changes|
    ensures Ends(db, ops, a) <==>
              || Ends(db, ops[..|ops| - 1], a)
              || (db.changes[ops[|ops| - 1].row].accountId == a && db.changes[ops[|ops| - 1].row].appliedAt == None)
  {
    var n := |ops| - 1;
    var row := ops[n].row;
    if Ends(db, ops, a) {
      var i :| 0 <= i < |db.changes| && db.changes[i].accountId == a && db.changes[i].appliedAt == None && FirstStamp(ops, i).Some?;
      assert i == row || FirstStamp(ops[..n], i).Some?;
    }
    if Ends(db, ops[..n], a) {
      var i :| 0 <= i < |db.changes| && db.changes[i].accountId == a && db.changes[i].appliedAt == None && FirstStamp(ops[..n], i).Some?;
      assert FirstStamp(ops, i).Some?;
    }
    if db.changes[row].accountId == a && db.changes[row].appliedAt == None {
      assert FirstStamp(ops, row).Some?;
    }
  }

  ghost predicate OnDisconnections(db: Db, ops: seq<Stamp>) {
    forall k | 0 <= k < |ops| :: ops[k].row < |db.changes| && db.changes[ops[k].row].changeType == Disconnection
  }

  /** An account ends terminated at ARC 0 exactly if some unapplied row of it is reached. */
  lemma {:induction false} PlayAccount(db: Db, ops: seq<Stamp>, a: nat)
    requires Keyed(db) && OnDisconnections(db, ops) && a < |db.accounts|
    ensures Play(db, ops).accounts[a]
         == if Ends(db, ops, a) then db.accounts[a].(status := Terminated, currentArc := 0) else db.accounts[a]
  {
    if ops != [] {
      var n := |ops| - 1;
      PlayAccount(db, ops[..n], a);
      PlayRow(db, ops[..n], ops[n].row);
      EndsSnoc(db, ops, a);
      if FirstStamp(ops[..n], ops[n].row).Some? && db.changes[ops[n].row].accountId == a && db.changes[ops[n].row].appliedAt == None {
        assert Ends(db, ops[..n], a);
      }
    }
  }

  /** Transactions of `ops` that wrote row `i`. */
  function Writes(db: Db, ops: seq<Stamp>, i: nat): nat
    requires Keyed(db) && i < |db.changes|
    requires forall k | 0 <= k < |ops| :: ops[k].row < |db.changes|
  {
    if ops == [] then 0
    else
      var n := |ops| - 1;
      Writes(db, ops[..n], i) + if Play(db, ops).changes[i] != Play(db, ops[..n]).changes[i] then 1 else 0
  }

  lemma {:induction false} StampedOnce(db: Db, ops: seq<Stamp>, i: nat)
    requires Keyed(db) && i < |db.changes|
    requires forall k | 0 <= k < |ops| :: ops[k].row < |db.changes|
    ensures Writes(db, ops, i) == if db.changes[i].appliedAt == None && FirstStamp(ops, i).Some? then 1 else 0
  {
    if ops != [] {
      StampedOnce(db, ops[..|ops| - 1], i);
      PlayRow(db, ops, i);
      PlayRow(db, ops[..|ops| - 1], i);
    }
  }

  /** The same tables except for the moment a row was stamped. */
  ghost predicate SameTables(x: Db, y: Db) {
    && x.users == y.users && x.audit == y.audit && x.accounts == y.accounts
    && |x.changes| == |y.changes|
    && forall i | 0 <= i < |x.changes| ::
         && (x.changes[i].appliedAt.Some? <==> y.changes[i].appliedAt.Some?)
         && x.changes[i].(appliedAt := None) == y.changes[i].(appliedAt := None)
  }

  /** Any two plays that reach the same unapplied rows end alike: order, repeats and overlap do not matter. */
  lemma PlaysConfluent(db: Db, ops: seq<Stamp>, others: seq<Stamp>)
    requires Keyed(db) && OnDisconnections(db, ops) && OnDisconnections(db, others)
    requires forall i | 0 <= i < |db.changes| && db.changes[i].appliedAt == None :: FirstStamp(ops, i).Some? <==> FirstStamp(others, i).Some?
    ensures SameTables(Play(db, ops), Play(db, others))
  {
    forall i | 0 <= i < |db.changes|
      ensures Play(db, ops).changes[i].(appliedAt := None) == Play(db, others).changes[i].(appliedAt := None)
      ensures Play(db, ops).changes[i].appliedAt.Some? <==> Play(db, others).changes[i].appliedAt.Some?
    {
      PlayRow(db, ops, i);
      PlayRow(db, others, i);
    }
    forall a | 0 <= a < |db.accounts|
      ensures Play(db, ops).accounts[a] == Play(db, others).accounts[a]
    {
      PlayAccount(db, ops, a);
      PlayAccount(db, others, a);
      assert Ends(db, ops, a) == Ends(db, others, a);
    }
    assert Play(db, ops).accounts == Play(db, others).accounts;
  }

  // ---- workers ---------------------------------------------------------------

  /** A schedule of sweeps: picks, transactions and the passing of time. */
  ghost predicate SweepsOnly(actions: seq<Action>) {
    forall k | 0 <= k < |actions| :: actions[k].SweepPick? || actions[k].SweepApply? || actions[k].Elapse?
  }

  /** The transaction one step of the schedule runs, if it runs one. */
  function Transaction(before: World, action: Action): seq<Stamp> {
    match action
    case SweepApply(k) =>
      if k < |before.lists| && before.lists[k] != [] then [Stamp(before.lists[k][0], before.now)] else []
    case _ => []
  }

  /** The transactions the workers run, in the order the schedule runs them. */
  function Transactions(w: World, actions: seq<Action>): (ops: seq<Stamp>)
    requires Sound(w)
  {
    if actions == [] then []
    else
      var n := |actions| - 1;
      Transactions(w, actions[..n]) + Transaction(Run(w, actions[..n]), actions[n])
  }

  /** The rows one step of the schedule picks. */
  function Picked(before: World, action: Action): seq<nat> {
    match action
    case SweepPick(k, ids) => if Picks(before, k, ids) then ids else []
    case _ => []
  }

  function Elements(ids: seq<nat>): set<nat> {
    set i | i in ids
  }

  function PickedRows(w: World, actions: seq<Action>): set<nat>
    requires Sound(w)
  {
    if actions == [] then {}
    else
      var n := |actions| - 1;
      PickedRows(w, actions[..n]) + Elements(Picked(Run(w, actions[..n]), actions[n]))
  }

  ghost predicate OnSomeList(lists: seq<seq<nat>>, i: nat) {
    exists k, m :: 0 <= k < |lists| && 0 <= m < |lists[k]| && lists[k][m] == i
  }

  /** Row `i` is on a worker's list at the start or picked along the way. */
  ghost predicate Taken(w: World, actions: seq<Action>, i: nat)
    requires Sound(w)
  {
    OnSomeList(w.lists, i) || i in PickedRows(w, actions)
  }

  lemma FillKeeps(lists: seq<seq<nat>>, k: nat, ids: seq<nat>, i: nat)
    requires k < |lists| && lists[k] == []
    ensures OnSomeList(lists[k := ids], i) <==> OnSomeList(lists, i) || i in ids
  {
    var full := lists[k := ids];
    if OnSomeList(lists, i) {
      var j, m :| 0 <= j < |lists| && 0 <= m < |lists[j]| && lists[j][m] == i;
      assert full[j][m] == i;
    }
    if i in ids {
      var m :| 0 <= m < |ids| && ids[m] == i;
      assert full[k][m] == i;
    }
    if OnSomeList(full, i) {
      var j, m :| 0 <= j < |full| && 0 <= m < |full[j]| && full[j][m] == i;
      if j != k {
        assert lists[j][m] == i;
      }
    }
  }

  lemma PopKeeps(lists: seq<seq<nat>>, k: nat, i: nat)
    requires k < |lists| && lists[k] != []
    ensures OnSomeList(lists, i) <==> lists[k][0] == i || OnSomeList(lists[k := lists[k][1..]], i)
  {
    var rest := lists[k := lists[k][1..]];
    if OnSomeList(lists, i) {
      var j, m :| 0 <= j < |lists| && 0 <= m < |lists[j]| && lists[j][m] == i;
      if j != k {
        assert rest[j][m] == i;
      } else if m > 0 {
        assert rest[j][m - 1] == i;
      }
    }
    if OnSomeList(rest, i) {
      var j, m :| 0 <= j < |rest| && 0 <= m < |rest[j]| && rest[j][m] == i;
      if j != k {
        assert lists[j][m] == i;
      } else {
        assert lists[j][m + 1] == i;
      }
    }
  }

  /** `later` is `w` after `ops`; every row listed or picked has been played or is still listed. */
  ghost predicate Played(w: World, picked: set<nat>, ops: seq<Stamp>, later: World)
    requires Keyed(w.db)
  {
    && (forall k | 0 <= k < |ops| :: ops[k].row < |w.db.changes|)
    && later.db == Play(w.db, ops)
    && forall i :: OnSomeList(w.lists, i) || i in picked <==> FirstStamp(ops, i).Some? || OnSomeList(later.lists, i)
  }

  lemma PlayedApply(w: World, picked: set<nat>, ops: seq<Stamp>, before: World, k: nat)
    requires Sound(w) && Sound(before) && Played(w, picked, ops, before)
    requires k < |before.lists| && before.lists[k] != []
    ensures Played(w, picked, ops + Transaction(before, SweepApply(k)), Step(before, SweepApply(k)))
  {
    var s := Stamp(before.lists[k][0], before.now);
    assert (ops + [s])[..|ops|] == ops;
    var rest := before.lists[k := before.lists[k][1..]];
    forall i: nat
      ensures OnSomeList(w.lists, i) || i in picked <==> FirstStamp(ops + [s], i).Some? || OnSomeList(rest, i)
    {
      PopKeeps(before.lists, k, i);
      assert FirstStamp(ops + [s], i).Some? <==> FirstStamp(ops, i).Some? || s.row == i;
    }
  }

  lemma PlayedPick(w: World, picked: set<nat>, ops: seq<Stamp>, before: World, k: nat, ids: seq<nat>)
    requires Sound(w) && Sound(before) && Played(w, picked, ops, before) && Picks(before, k, ids)
    ensures Played(w, picked + Elements(ids), ops, Step(before, SweepPick(k, ids)))
  {
    var more := picked + Elements(ids);
    forall i: nat
      ensures OnSomeList(w.lists, i) || i in more <==> FirstStamp(ops, i).Some? || OnSomeList(before.lists[k := ids], i)
    {
      FillKeeps(before.lists, k, ids, i);
    }
  }

  lemma PlayedStep(w: World, picked: set<nat>, ops: seq<Stamp>, before: World, action: Action)
    requires Sound(w) && Sound(before) && Played(w, picked, ops, before)
    requires action.SweepPick? || action.SweepApply? || action.Elapse?
    ensures Played(w, picked + Elements(Picked(before, action)), ops + Transaction(before, action), Step(before, action))
  {
    if Transaction(before, action) != [] {
      assert picked + Elements([]) == picked;
      PlayedApply(w, picked, ops, before, action.worker);
    } else {
      assert ops + [] == ops;
      if action.SweepPick? && Picks(before, action.worker, action.ids) {
        PlayedPick(w, picked, ops, before, action.worker, action.ids);
      } else {
        assert picked + Elements([]) == picked;
      }
    }
  }

  /** The schedule plays its transactions. */
  lemma {:induction false} ScheduleIsPlay(w: World, actions: seq<Action>)
    requires Sound(w) && SweepsOnly(actions)
    ensures Played(w, PickedRows(w, actions), Transactions(w, actions), Run(w, actions))
  {
    if actions != [] {
      var n := |actions| - 1;
      ScheduleIsPlay(w, actions[..n]);
      PlayedStep(w, PickedRows(w, actions[..n]), Transactions(w, actions[..n]), Run(w, actions[..n]), actions[n]);
    }
  }

  lemma {:induction false} SweepIsPlay(db: Db, ids: seq<nat>, now: Time) returns (ops: seq<Stamp>)
    requires Keyed(db) && forall k | 0 <= k < |ids| :: ids[k] < |db.changes|
    ensures |ops| == |ids| && forall k | 0 <= k < |ids| :: ops[k].row == ids[k]
    ensures Play(db, ops) == ApplyAll(db, ids, now)
  {
    if ids == [] {
      ops := [];
    } else {
      var n := |ids| - 1;
      var rest := SweepIsPlay(db, ids[..n], now);
      ops := rest + [Stamp(ids[n], now)];
      assert ops[..n] == rest;
    }
  }

  // ---- what the workers take -------------------------------------------------

  lemma {:induction false} TimePasses(w: World, actions: seq<Action>)
    requires Sound(w)
    ensures Run(w, actions).now >= w.now
  {
    if actions != [] {
      TimePasses(w, actions[..|actions| - 1]);
    }
  }

  lemma ListedLater(c: Change, now: Time, later: Time)
    requires Listed(c, now) && now <= later
    ensures Listed(c, later)
  {
    StartOfDayMonotone(now, later);
  }

  /** A row due when it is picked was due by then at the start. */
  lemma PickedWasListed(w: World, actions: seq<Action>, i: nat)
    requires Sound(w) && SweepsOnly(actions) && i < |Run(w, actions).db.changes|
    requires Due(Run(w, actions).db.changes[i], StartOfDay(Run(w, actions).now))
    ensures i < |w.db.changes| && Listed(w.db.changes[i], Run(w, actions).now)
  {
    ScheduleIsPlay(w, actions);
    PlayRow(w.db, Transactions(w, actions), i);
  }

  lemma OnListIsListed(w: World, i: nat, later: Time)
    requires Good(w) && OnSomeList(w.lists, i) && w.now <= later
    ensures i < |w.db.changes| && Listed(w.db.changes[i], later)
  {
    var k, m :| 0 <= k < |w.lists| && 0 <= m < |w.lists[k]| && w.lists[k][m] == i;
    ListedLater(w.db.changes[i], w.now, later);
  }

  lemma StepTime(w: World, action: Action)
    requires Sound(w)
    ensures w.now <= Step(w, action).now
  {
  }

  lemma {:induction false} PickedIsListed(w: World, actions: seq<Action>, i: nat)
    requires Sound(w) && SweepsOnly(actions) && i in PickedRows(w, actions)
    ensures i < |w.db.changes| && Listed(w.db.changes[i], Run(w, actions).now)
    decreases |actions|
  {
    var n := |actions| - 1;
    var before := Run(w, actions[..n]);
    if i in PickedRows(w, actions[..n]) {
      PickedIsListed(w, actions[..n], i);
    } else {
      NewlyPicked(before, actions[n], i);
      PickedWasListed(w, actions[..n], i);
    }
    StepTime(before, actions[n]);
    ListedLater(w.db.changes[i], before.now, Step(before, actions[n]).now);
  }

  lemma NewlyPicked(before: World, action: Action, i: nat)
    requires i in Picked(before, action)
    ensures i < |before.db.changes| && Due(before.db.changes[i], StartOfDay(before.now))
  {
  }

  lemma TakenIsListed(w: World, actions: seq<Action>, i: nat)
    requires Good(w) && SweepsOnly(actions) && Taken(w, actions, i)
    ensures i < |w.db.changes| && Listed(w.db.changes[i], Run(w, actions).now)
  {
    if OnSomeList(w.lists, i) {
      TimePasses(w, actions);
      OnListIsListed(w, i, Run(w, actions).now);
    } else {
      PickedIsListed(w, actions, i);
    }
  }

  // ---- the theorems ----------------------------------------------------------

  /** `ids` lists exactly the rows the workers take. */
  ghost predicate Lists(w: World, actions: seq<Action>, ids: seq<nat>)
    requires Sound(w)
  {
    forall i :: i in ids <==> Taken(w, actions, i)
  }

  lemma ListsInRange(w: World, actions: seq<Action>, ids: seq<nat>)
    requires Good(w) && SweepsOnly(actions) && Lists(w, actions, ids)
    ensures forall k | 0 <= k < |ids| :: ids[k] < |w.db.changes| && w.db.changes[ids[k]].changeType == Disconnection
  {
    forall k | 0 <= k < |ids|
      ensures ids[k] < |w.db.changes| && w.db.changes[ids[k]].changeType == Disconnection
    {
      assert ids[k] in ids;
      TakenIsListed(w, actions, ids[k]);
    }
  }

  /** Rows reached by plays are the rows in their lists. */
  lemma ReachedAre(ops: seq<Stamp>, ids: seq<nat>, i: nat)
    requires |ops| == |ids| && forall k | 0 <= k < |ids| :: ops[k].row == ids[k]
    ensures FirstStamp(ops, i).Some? <==> i in ids
  {
    if i in ids {
      var k :| 0 <= k < |ids| && ids[k] == i;
      assert ops[k].row == i;
    }
  }

  /** What exhausted workers have played is what they took. */
  lemma ExhaustedPlays(w: World, actions: seq<Action>)
    requires Good(w) && SweepsOnly(actions)
    requires forall k | 0 <= k < |Run(w, actions).lists| :: Run(w, actions).lists[k] == []
    ensures OnDisconnections(w.db, Transactions(w, actions))
    ensures Run(w, actions).db == Play(w.db, Transactions(w, actions))
    ensures forall i :: FirstStamp(Transactions(w, actions), i).Some? <==> Taken(w, actions, i)
  {
    var ops := Transactions(w, actions);
    ScheduleIsPlay(w, actions);
    assert forall i :: !OnSomeList(Run(w, actions).lists, i);
    forall k | 0 <= k < |ops|
      ensures ops[k].row < |w.db.changes| && w.db.changes[ops[k].row].changeType == Disconnection
    {
      assert FirstStamp(ops, ops[k].row).Some?;
      TakenIsListed(w, actions, ops[k].row);
    }
  }

  /**
    Any number of workers, with whatever stale and overlapping lists they hold or pick, run to
    exhaustion in any order, leave the tables one sequential pass over the union of their lists
    leaves, and write each unapplied row of it exactly once and no other row.
   */
  lemma WorkersSweepTheUnion(w: World, actions: seq<Action>, ids: seq<nat>, at: Time)
    requires Good(w) && SweepsOnly(actions) && Lists(w, actions, ids)
    requires forall k | 0 <= k < |Run(w, actions).lists| :: Run(w, actions).lists[k] == []
    ensures forall k | 0 <= k < |ids| :: ids[k] < |w.db.changes|
    ensures SameTables(Run(w, actions).db, ApplyAll(w.db, ids, at))
    ensures forall k | 0 <= k < |Transactions(w, actions)| :: Transactions(w, actions)[k].row < |w.db.changes|
    ensures forall i | 0 <= i < |w.db.changes| ::
              Writes(w.db, Transactions(w, actions), i) == if Taken(w, actions, i) && w.db.changes[i].appliedAt == None then 1 else 0
  {
    var ops := Transactions(w, actions);
    ExhaustedPlays(w, actions);
    ListsInRange(w, actions, ids);
    var others := SweepIsPlay(w.db, ids, at);
    forall i: nat
      ensures FirstStamp(others, i).Some? <==> FirstStamp(ops, i).Some?
    {
      ReachedAre(others, ids, i);
    }
    PlaysConfluent(w.db, ops, others);
    forall i | 0 <= i < |w.db.changes|
      ensures Writes(w.db, ops, i) == if Taken(w, actions, i) && w.db.changes[i].appliedAt == None then 1 else 0
    {
      StampedOnce(w.db, ops, i);
    }
  }

  /** Every row due by the end of the schedule has been taken. */
  ghost predicate CoversDue(w: World, actions: seq<Action>)
    requires Sound(w)
  {
    forall i | 0 <= i < |w.db.changes| && Due(w.db.changes[i], StartOfDay(Run(w, actions).now)) :: Taken(w, actions, i)
  }

  /** Among the unapplied rows, workers whose lists cover the due rows take those and no others. */
  lemma DueIsTaken(w: World, actions: seq<Action>, i: nat)
    requires Good(w) && SweepsOnly(actions) && CoversDue(w, actions)
    requires i < |w.db.changes| && w.db.changes[i].appliedAt == None
    ensures Due(w.db.changes[i], StartOfDay(Run(w, actions).now)) <==> Taken(w, actions, i)
  {
    if Taken(w, actions, i) {
      TakenIsListed(w, actions, i);
    }
  }

  /** Transactions that reach exactly the due rows among the unapplied ones make one sweep. */
  lemma ReachingDueIsSweeping(db: Db, ops: seq<Stamp>, now: Time)
    requires Keyed(db) && OnDisconnections(db, ops)
    requires forall i | 0 <= i < |db.changes| && db.changes[i].appliedAt == None :: FirstStamp(ops, i).Some? <==> Due(db.changes[i], StartOfDay(now))
    ensures SameTables(Play(db, ops), Sweep(db, now, {}))
  {
    var ids := DueIds(db.changes, StartOfDay(now), {});
    assert forall k | 0 <= k < |ids| :: ids[k] in ids;
    var others := SweepIsPlay(db, ids, now);
    forall i | 0 <= i < |db.changes|
      ensures FirstStamp(others, i).Some? <==> Due(db.changes[i], StartOfDay(now))
    {
      ReachedAre(others, ids, i);
    }
    PlaysConfluent(db, ops, others);
  }

  /** If between them they take everything that has fallen due, the workers make one full sweep. */
  lemma WorkersMakeOneSweep(w: World, actions: seq<Action>)
    requires Good(w) && SweepsOnly(actions) && CoversDue(w, actions)
    requires forall k | 0 <= k < |Run(w, actions).lists| :: Run(w, actions).lists[k] == []
    ensures SameTables(Run(w, actions).db, Sweep(w.db, Run(w, actions).now, {}))
  {
    var ops := Transactions(w, actions);
    ExhaustedPlays(w, actions);
    forall i | 0 <= i < |w.db.changes| && w.db.changes[i].appliedAt == None
      ensures FirstStamp(ops, i).Some? <==> Due(w.db.changes[i], StartOfDay(Run(w, actions).now))
    {
      DueIsTaken(w, actions, i);
    }
    ReachingDueIsSweeping(w.db, ops, Run(w, actions).now);
  }
}
