/** Moving old audit rows to cold storage, one bounded batch per call. */
module AuditArchive {
  import opened Schema
  import opened Division

  datatype AuditRow = AuditRow(timestamp: Time, action: string, performedBy: Option<UserId>)

  /** `overlay` holds who has read or dismissed which live row. */
  datatype Logs = Logs(live: map<nat, AuditRow>, archive: map<nat, AuditRow>, overlay: set<(UserId, nat)>)

  /** No row is in both tables, and the overlay speaks of live rows only. */
  ghost predicate Consistent(t: Logs) {
    && t.live.Keys !! t.archive.Keys
    && forall o | o in t.overlay :: o.1 in t.live
  }

  function BatchSize(requested: Option<int>): (n: nat)
    ensures 1 <= n <= 10_000
  {
    var size := if requested.Some? then requested.value else 5_000;
    var capped := if size < 10_000 then size else 10_000;
    if capped > 1 then capped else 1
  }

  /** A batch holds 5,000 rows unless asked otherwise, at most 10,000 and at least one. */
  lemma BatchSizeIs(requested: Option<int>)
    ensures requested == None ==> BatchSize(requested) == 5_000
    ensures requested.Some? && 1 <= requested.value <= 10_000 ==> BatchSize(requested) == requested.value
    ensures requested.Some? && requested.value > 10_000 ==> BatchSize(requested) == 10_000
    ensures requested.Some? && requested.value < 1 ==> BatchSize(requested) == 1
  {
  }

  function DueIds(live: map<nat, AuditRow>, cutoff: Time): set<nat> {
    set id | id in live && live[id].timestamp < cutoff
  }

  // ---- oldest first ----------------------------------------------------------

  /** Row `a` comes before row `b` in (timestamp, id) order. */
  predicate Before(live: map<nat, AuditRow>, a: nat, b: nat)
    requires a in live && b in live
  {
    live[a].timestamp < live[b].timestamp || (live[a].timestamp == live[b].timestamp && a < b)
  }

  ghost predicate First(live: map<nat, AuditRow>, ids: set<nat>, a: nat)
    requires ids <= live.Keys
  {
    a in ids && forall b | b in ids && b != a :: Before(live, a, b)
  }

  lemma FirstOfMore(live: map<nat, AuditRow>, ids: set<nat>, a: nat, x: nat)
    requires ids <= live.Keys && First(live, ids, a) && x in live && x !in ids
    ensures First(live, ids + {x}, if Before(live, a, x) then a else x)
  {
  }

  lemma {:induction false} HasOldest(live: map<nat, AuditRow>, ids: set<nat>)
    requires ids != {} && ids <= live.Keys
    ensures exists a :: First(live, ids, a)
  {
    var x :| x in ids;
    var rest := ids - {x};
    assert ids == rest + {x};
    if rest == {} {
      assert First(live, ids, x);
    } else {
      HasOldest(live, rest);
      var a :| First(live, rest, a);
      FirstOfMore(live, rest, a, x);
    }
  }

  function Oldest(live: map<nat, AuditRow>, ids: set<nat>): (a: nat)
    requires ids != {} && ids <= live.Keys
    ensures a in ids && forall b | b in ids && b != a :: Before(live, a, b)
  {
    HasOldest(live, ids);
    assert exists a :: a in ids && forall b | b in ids && b != a :: Before(live, a, b) by {
      var a :| First(live, ids, a);
    }
    var a :| a in ids && forall b | b in ids && b != a :: Before(live, a, b);
    a
  }

  /** The first `n` of the rows `ids` in (timestamp, id) order. */
  function FirstOf(live: map<nat, AuditRow>, ids: set<nat>, n: nat): (batch: set<nat>)
    requires ids <= live.Keys
    ensures batch <= ids
    ensures |batch| == if n < |ids| then n else |ids|
    ensures forall a, b | a in batch && b in ids - batch :: Before(live, a, b)
    decreases n
  {
    if n == 0 || ids == {} then {}
    else
      var a := Oldest(live, ids);
      {a} + FirstOf(live, ids - {a}, n - 1)
  }

  // ---- one call --------------------------------------------------------------

  datatype Report = Report(moved: nat, remaining: nat)

  /** The transaction is refused if a row to copy is already in the archive. */
  datatype Outcome = Done(report: Report) | RolledBack

  function Moved(t: Logs, ids: set<nat>): Logs
    requires ids <= t.live.Keys
  {
    Logs(t.live - ids, t.archive + (map id | id in ids :: t.live[id]), set o | o in t.overlay && o.1 !in ids)
  }

  function Archive(t: Logs, cutoff: Time, requested: Option<int>): Logs {
    var batch := FirstOf(t.live, DueIds(t.live, cutoff), BatchSize(requested));
    if batch !! t.archive.Keys then Moved(t, batch) else t
  }

  /** The row logged under `id`, wherever it is kept. */
  function Recorded(t: Logs, id: nat): Option<AuditRow> {
    if id in t.live then Some(t.live[id])
    else if id in t.archive then Some(t.archive[id])
    else None
  }

  lemma KeysLost(live: map<nat, AuditRow>, ids: set<nat>)
    requires ids <= live.Keys
    ensures |live - ids| == |live| - |ids|
  {
    assert (live - ids).Keys == live.Keys - ids;
  }

  lemma MovedKeeps(t: Logs, ids: set<nat>)
    requires Consistent(t) && ids <= t.live.Keys
    ensures Consistent(Moved(t, ids))
    ensures forall id :: Recorded(Moved(t, ids), id) == Recorded(t, id)
  {
  }

  lemma DueAfter(t: Logs, ids: set<nat>, cutoff: Time)
    requires ids <= DueIds(t.live, cutoff)
    ensures DueIds(Moved(t, ids).live, cutoff) == DueIds(t.live, cutoff) - ids
  {
  }

  lemma MovedLeaves(t: Logs, ids: set<nat>, cutoff: Time)
    requires ids <= DueIds(t.live, cutoff)
    ensures DueIds(Moved(t, ids).live, cutoff) == DueIds(t.live, cutoff) - ids
    ensures |DueIds(Moved(t, ids).live, cutoff)| == |DueIds(t.live, cutoff)| - |ids|
    ensures |Moved(t, ids).live| == |t.live| - |ids|
  {
    KeysLost(t.live, ids);
    DueAfter(t, ids, cutoff);
    assert |DueIds(t.live, cutoff) - ids| == |DueIds(t.live, cutoff)| - |ids|;
  }

  class AuditService {
    var live: map<nat, AuditRow>
    var archive: map<nat, AuditRow>
    var overlay: set<(UserId, nat)>

    ghost function State(): Logs
      reads this
    {
      Logs(live, archive, overlay)
    }

    constructor (t: Logs)
      ensures State() == t
    {
      live, archive, overlay := t.live, t.archive, t.overlay;
    }

    method ArchiveOlderThan(cutoff: Time, requested: Option<int>) returns (outcome: Outcome)
      modifies this
      ensures State() == Archive(old(State()), cutoff, requested)
      ensures Consistent(old(State())) ==> outcome.Done?
      ensures outcome.RolledBack? ==> State() == old(State())
      ensures outcome.Done? ==> outcome.report.moved == |old(live)| - |live|
      ensures outcome.Done? ==> outcome.report.remaining == |DueIds(live, cutoff)|
    {
      var n := BatchSize(requested);
      var batch := FirstOf(live, DueIds(live, cutoff), n);
      if batch == {} {
        MovedNothing(State());
        return Done(Report(0, 0));
      }
      if exists id | id in batch :: id in archive {
        return RolledBack;
      }
      MovedLeaves(State(), batch, cutoff);
      archive := archive + (map id | id in batch :: live[id]);
      live := live - batch;
      overlay := set o | o in overlay && o.1 !in batch;
      return Done(Report(|batch|, |DueIds(live, cutoff)|));
    }
  }

  lemma MovedNothing(t: Logs)
    ensures Moved(t, {}) == t
  {
    var u := Moved(t, {});
    assert u.live == t.live && u.archive == t.archive && u.overlay == t.overlay;
  }

  function Least(a: nat, b: nat): nat {
    if a < b then a else b
  }

  /**
    One call on consistent tables: nothing is lost or changed, exactly the oldest due rows move,
    and as many as the batch allows.
   */
  lemma ArchiveMovesTheOldest(t: Logs, cutoff: Time, requested: Option<int>)
    requires Consistent(t)
    ensures var u := Archive(t, cutoff, requested);
            var due := DueIds(t.live, cutoff);
            var moved := Least(BatchSize(requested), |due|);
              && Consistent(u)
              && (forall id :: Recorded(u, id) == Recorded(t, id))
              && |u.live| == |t.live| - moved
              && |DueIds(u.live, cutoff)| == |due| - moved
              && (forall id | id in u.archive && id !in t.archive :: id in due)
              && (forall id | id in t.archive :: id in u.archive)
              && (forall a, b | a in due && a in u.archive && b in due && b in u.live ::
                    t.live[a].timestamp < t.live[b].timestamp || (t.live[a].timestamp == t.live[b].timestamp && a < b))
              && (forall o | o in t.overlay :: o in u.overlay <==> o.1 in u.live)
  {
    var ids := DueIds(t.live, cutoff);
    var batch := FirstOf(t.live, ids, BatchSize(requested));
    MovedKeeps(t, batch);
    MovedLeaves(t, batch, cutoff);
    forall a, b | a in ids && a in batch && b in ids && b !in batch
      ensures t.live[a].timestamp < t.live[b].timestamp || (t.live[a].timestamp == t.live[b].timestamp && a < b)
    {
      OlderFirst(t, cutoff, requested, a, b);
    }
  }

  /** A row of the batch is older than a due row left out of it, or as old with a lower id. */
  lemma OlderFirst(t: Logs, cutoff: Time, requested: Option<int>, a: nat, b: nat)
    requires var due := DueIds(t.live, cutoff);
             var batch := FirstOf(t.live, due, BatchSize(requested));
             a in batch && b in due && b !in batch
    ensures a in t.live && b in t.live
    ensures t.live[a].timestamp < t.live[b].timestamp || (t.live[a].timestamp == t.live[b].timestamp && a < b)
  {
    assert Before(t.live, a, b);
  }

  // ---- draining --------------------------------------------------------------

  /** Between calls the application may log new rows, which are never older than the cutoff. */
  datatype Action = Call(requested: Option<int>) | Log(id: nat, row: AuditRow)

  function Step(t: Logs, cutoff: Time, a: Action): Logs {
    match a
    case Call(requested) => Archive(t, cutoff, requested)
    case Log(id, row) => t.(live := t.live[id := row])
  }

  predicate Permitted(t: Logs, cutoff: Time, a: Action) {
    a.Log? ==> a.id !in t.live && a.id !in t.archive && a.row.timestamp >= cutoff
  }

  function Run(t: Logs, cutoff: Time, actions: seq<Action>): Logs {
    if actions == [] then t else Step(Run(t, cutoff, actions[..|actions| - 1]), cutoff, actions[|actions| - 1])
  }

  ghost predicate Legal(t: Logs, cutoff: Time, actions: seq<Action>) {
    forall k | 0 <= k < |actions| :: Permitted(Run(t, cutoff, actions[..k]), cutoff, actions[k])
  }

  function Capacity(actions: seq<Action>): nat {
    if actions == [] then 0
    else Capacity(actions[..|actions| - 1]) + if actions[|actions| - 1].Call? then BatchSize(actions[|actions| - 1].requested) else 0
  }

  function Written(actions: seq<Action>): map<nat, AuditRow> {
    if actions == [] then map[]
    else
      var before, a := Written(actions[..|actions| - 1]), actions[|actions| - 1];
      if a.Log? then before[a.id := a.row] else before
  }

  /** What a run does to row `id`: it stays on record, in one table, and is archived only if it was due. */
  ghost predicate KeptRow(t: Logs, cutoff: Time, u: Logs, written: map<nat, AuditRow>, id: nat) {
    && Recorded(u, id) == (if id in written then Some(written[id]) else Recorded(t, id))
    && (id in written ==> Recorded(t, id) == None && written[id].timestamp >= cutoff)
    && (id in t.archive ==> id in u.archive)
    && (id in u.archive && id !in t.archive ==> id in t.live && t.live[id].timestamp < cutoff)
  }

  ghost predicate Kept(t: Logs, cutoff: Time, u: Logs, written: map<nat, AuditRow>) {
    Consistent(u) && forall id :: KeptRow(t, cutoff, u, written, id)
  }

  lemma CallKeeps(t: Logs, cutoff: Time, u: Logs, written: map<nat, AuditRow>, requested: Option<int>)
    requires Consistent(t) && Kept(t, cutoff, u, written)
    ensures Kept(t, cutoff, Archive(u, cutoff, requested), written)
  {
    var v := Archive(u, cutoff, requested);
    ArchiveMovesTheOldest(u, cutoff, requested);
    forall id
      ensures KeptRow(t, cutoff, v, written, id)
    {
      assert KeptRow(t, cutoff, u, written, id);
      CallKeepsRow(t, cutoff, u, v, written, id);
    }
  }

  lemma CallKeepsRow(t: Logs, cutoff: Time, u: Logs, v: Logs, written: map<nat, AuditRow>, id: nat)
    requires Consistent(t) && Consistent(u) && KeptRow(t, cutoff, u, written, id)
    requires Recorded(v, id) == Recorded(u, id)
    requires id in u.archive ==> id in v.archive
    requires id in v.archive && id !in u.archive ==> id in DueIds(u.live, cutoff)
    ensures KeptRow(t, cutoff, v, written, id)
  {
  }

  lemma LogKeeps(t: Logs, cutoff: Time, u: Logs, written: map<nat, AuditRow>, id: nat, row: AuditRow)
    requires Kept(t, cutoff, u, written) && Permitted(u, cutoff, Log(id, row))
    ensures Kept(t, cutoff, u.(live := u.live[id := row]), written[id := row])
    ensures DueIds(u.live[id := row], cutoff) == DueIds(u.live, cutoff)
  {
    var v, logged := u.(live := u.live[id := row]), written[id := row];
    forall k
      ensures KeptRow(t, cutoff, v, logged, k)
    {
      assert KeptRow(t, cutoff, u, written, k);
    }
  }

  lemma {:induction false} RunKeeps(t: Logs, cutoff: Time, actions: seq<Action>)
    requires Consistent(t) && Legal(t, cutoff, actions)
    ensures var u, written := Run(t, cutoff, actions), Written(actions);
              && Kept(t, cutoff, u, written)
              && |DueIds(u.live, cutoff)| == Left(|DueIds(t.live, cutoff)|, Capacity(actions))
  {
    if actions == [] {
      assert forall id :: KeptRow(t, cutoff, t, map[], id);
    } else {
      var n := |actions| - 1;
      LegalPrefix(t, cutoff, actions);
      RunKeeps(t, cutoff, actions[..n]);
      var before, written := Run(t, cutoff, actions[..n]), Written(actions[..n]);
      assert Permitted(before, cutoff, actions[n]);
      match actions[n]
      case Call(requested) =>
        ArchiveMovesTheOldest(before, cutoff, requested);
        CallKeeps(t, cutoff, before, written, requested);
      case Log(id, row) =>
        LogKeeps(t, cutoff, before, written, id, row);
    }
  }

  function Left(due: nat, capacity: nat): nat {
    if capacity < due then due - capacity else 0
  }

  lemma LegalPrefix(t: Logs, cutoff: Time, actions: seq<Action>)
    requires Legal(t, cutoff, actions) && actions != []
    ensures Legal(t, cutoff, actions[..|actions| - 1])
  {
    var front := actions[..|actions| - 1];
    forall k | 0 <= k < |front|
      ensures Permitted(Run(t, cutoff, front[..k]), cutoff, front[k])
    {
      assert front[..k] == actions[..k];
    }
  }

  /**
    Once nothing is due, exactly the rows older than the cutoff have moved, and every row
    is as it was logged.
   */
  lemma DrainedExactly(t: Logs, cutoff: Time, actions: seq<Action>, id: nat)
    requires Consistent(t) && Legal(t, cutoff, actions)
    requires DueIds(Run(t, cutoff, actions).live, cutoff) == {}
    ensures var u, written := Run(t, cutoff, actions), Written(actions);
              && (id in u.archive <==> id in t.archive || (id in t.live && t.live[id].timestamp < cutoff))
              && (id in u.live <==> id in written || (id in t.live && t.live[id].timestamp >= cutoff))
              && Recorded(u, id) == if id in written then Some(written[id]) else Recorded(t, id)
  {
    RunKeeps(t, cutoff, actions);
    var u, written := Run(t, cutoff, actions), Written(actions);
    assert KeptRow(t, cutoff, u, written, id);
    assert id !in DueIds(u.live, cutoff);
  }

  function Calls(actions: seq<Action>): nat {
    if actions == [] then 0
    else Calls(actions[..|actions| - 1]) + if actions[|actions| - 1].Call? then 1 else 0
  }

  ghost predicate OneSize(actions: seq<Action>, requested: Option<int>) {
    forall k | 0 <= k < |actions| && actions[k].Call? :: actions[k].requested == requested
  }

  lemma {:induction false} CapacityOfCalls(actions: seq<Action>, requested: Option<int>)
    requires OneSize(actions, requested)
    ensures Capacity(actions) == Calls(actions) * BatchSize(requested)
  {
    if actions != [] {
      CapacityOfCalls(actions[..|actions| - 1], requested);
    }
  }

  /** Nothing is due any more exactly when the calls made had room for all that was due. */
  lemma DrainsByCapacity(t: Logs, cutoff: Time, actions: seq<Action>)
    requires Consistent(t) && Legal(t, cutoff, actions)
    ensures DueIds(Run(t, cutoff, actions).live, cutoff) == {} <==> Capacity(actions) >= |DueIds(t.live, cutoff)|
  {
    RunKeeps(t, cutoff, actions);
  }

  /** Calling with one batch size drains the due rows in exactly the rounded-up quotient of calls. */
  lemma DrainsInCeilCalls(t: Logs, cutoff: Time, actions: seq<Action>, requested: Option<int>)
    requires Consistent(t) && Legal(t, cutoff, actions) && OneSize(actions, requested)
    ensures DueIds(Run(t, cutoff, actions).live, cutoff) == {} <==>
              Calls(actions) >= CeilDiv(|DueIds(t.live, cutoff)|, BatchSize(requested))
  {
    DrainsByCapacity(t, cutoff, actions);
    CapacityOfCalls(actions, requested);
    CeilQuotient(|DueIds(t.live, cutoff)|, BatchSize(requested), Calls(actions), Capacity(actions));
  }
}
