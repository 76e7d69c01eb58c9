/**
  What was asked for is what lands: an existing-base account has the ARC and the bandwidth
  its newest applied change asked for, and a row holds to the end what its request said.
 */
module Landings {
  import opened Schema
  import opened Lifecycle
  import opened Invariant
  import opened Preservation
  import opened Runs
  import Effects

  /** What row `c` has given a column of its account, if it has. */
  type Gift = Change -> Option<int>

  function ArcGift(a: nat): Gift {
    (c: Change) =>
      if c.accountId != a || c.appliedAt == None then None
      else if c.changeType == Disconnection then Some(0) else Some(c.newArc)
  }

  function BandwidthGift(a: nat): Gift {
    (c: Change) =>
      if c.accountId == a && c.appliedAt.Some? && c.changeType != Disconnection then c.newBandwidth else None
  }

  /** The newest gift, or what was imported. */
  function Landed(changes: seq<Change>, gift: Gift, imported: Option<int>): Option<int> {
    if changes == [] then imported
    else
      var given := gift(changes[|changes| - 1]);
      if given.Some? then given else Landed(changes[..|changes| - 1], gift, imported)
  }

  ghost predicate UpToDate(db: Db, a: nat, imported: Account)
    requires a < |db.accounts|
  {
    && Some(db.accounts[a].currentArc) == Landed(db.changes, ArcGift(a), Some(imported.currentArc))
    && db.accounts[a].bandwidth == Landed(db.changes, BandwidthGift(a), imported.bandwidth)
  }

  predicate GivesSame(c: Change, c': Change, a: nat) {
    ArcGift(a)(c') == ArcGift(a)(c) && BandwidthGift(a)(c') == BandwidthGift(a)(c)
  }

  /** Nothing about account `a`'s ARC and bandwidth happens between `db` and `db'`. */
  ghost predicate Quiet(db: Db, db': Db, a: nat)
    requires a < |db.accounts|
  {
    && |db'.accounts| == |db.accounts| && |db'.changes| >= |db.changes|
    && db'.accounts[a].currentArc == db.accounts[a].currentArc && db'.accounts[a].bandwidth == db.accounts[a].bandwidth
    && (forall j | 0 <= j < |db.changes| :: GivesSame(db.changes[j], db'.changes[j], a))
    && (forall j | |db.changes| <= j < |db'.changes| :: ArcGift(a)(db'.changes[j]) == None && BandwidthGift(a)(db'.changes[j]) == None)
  }

  lemma {:induction false} SameGifts(s: seq<Change>, t: seq<Change>, gift: Gift, imported: Option<int>)
    requires |s| <= |t|
    requires forall j | 0 <= j < |s| :: gift(t[j]) == gift(s[j])
    requires forall j | |s| <= j < |t| :: gift(t[j]) == None
    ensures Landed(t, gift, imported) == Landed(s, gift, imported)
    decreases |t|
  {
    if |s| < |t| {
      SameGifts(s, t[..|t| - 1], gift, imported);
    } else if s != [] {
      SameGifts(s[..|s| - 1], t[..|t| - 1], gift, imported);
    }
  }

  /** The newest row that gives anything decides. */
  lemma {:induction false} NewestGift(s: seq<Change>, i: nat, gift: Gift, imported: Option<int>)
    requires i < |s| && gift(s[i]).Some? && forall j | i < j < |s| :: gift(s[j]) == None
    ensures Landed(s, gift, imported) == gift(s[i])
  {
    if i < |s| - 1 {
      NewestGift(s[..|s| - 1], i, gift, imported);
    }
  }

  /** Rewriting the newest row that may give anything: it decides, or leaves things as they were. */
  lemma {:induction false} LastGift(s: seq<Change>, i: nat, c: Change, gift: Gift, imported: Option<int>)
    requires i < |s| && forall j | i <= j < |s| :: gift(s[j]) == None
    ensures Landed(s[i := c], gift, imported) == if gift(c).Some? then gift(c) else Landed(s, gift, imported)
  {
    if gift(c).Some? {
      NewestGift(s[i := c], i, gift, imported);
    } else {
      SameGifts(s, s[i := c], gift, imported);
    }
  }

  lemma QuietStaysUpToDate(db: Db, db': Db, a: nat, imported: Account)
    requires a < |db.accounts| && Quiet(db, db', a) && UpToDate(db, a, imported)
    ensures UpToDate(db', a, imported)
  {
    forall j | 0 <= j < |db.changes|
      ensures ArcGift(a)(db'.changes[j]) == ArcGift(a)(db.changes[j]) && BandwidthGift(a)(db'.changes[j]) == BandwidthGift(a)(db.changes[j])
    {
      assert GivesSame(db.changes[j], db'.changes[j], a);
    }
    SameGifts(db.changes, db'.changes, ArcGift(a), Some(imported.currentArc));
    SameGifts(db.changes, db'.changes, BandwidthGift(a), imported.bandwidth);
  }

  // ---- commit ----------------------------------------------------------------

  lemma QuietTrans(x: Db, y: Db, z: Db, a: nat)
    requires a < |x.accounts| && Quiet(x, y, a) && Quiet(y, z, a)
    ensures Quiet(x, z, a)
  {
    forall j | 0 <= j < |x.changes|
      ensures GivesSame(x.changes[j], z.changes[j], a)
    {
      assert GivesSame(x.changes[j], y.changes[j], a) && GivesSame(y.changes[j], z.changes[j], a);
    }
    forall j | |x.changes| <= j < |z.changes|
      ensures ArcGift(a)(z.changes[j]) == None && BandwidthGift(a)(z.changes[j]) == None
    {
      if j < |y.changes| {
        assert GivesSame(y.changes[j], z.changes[j], a);
      }
    }
  }

  lemma WrittenQuiet(db: Db, input: CommitInput, a: nat)
    requires input.accountId < |db.accounts| && a < |db.accounts|
    ensures Quiet(db, Written(db, input), a)
  {
  }

  lemma AutoRetainQuiet(db: Db, b: nat, actor: UserId, now: Time, a: nat)
    requires a < |db.accounts| && b < |db.accounts|
    ensures Quiet(db, AutoRetain(db, b, actor, now), a)
  {
  }

  lemma RouteQuiet(db: Db, i: nat, account: Account, input: CommitInput, now: Time, a: nat)
    requires a < |db.accounts| && i < |db.changes| && db.changes[i].accountId < |db.accounts|
    requires account.kitty == BaseKitty || db.changes[i].accountId != a
    ensures Quiet(db, Route(db, i, account, input, now), a)
  {
  }

  lemma CommitQuiet(db: Db, input: CommitInput, now: Time, a: nat)
    requires Keyed(db) && input.accountId < |db.accounts| && a < |db.accounts| && db.accounts[a].kitty == BaseKitty
    ensures Quiet(db, Accepted(db, input, now), a)
  {
    var b, n := input.accountId, |db.changes|;
    var db1 := Written(db, input);
    WrittenQuiet(db, input, a);
    var db2 := if input.changeType != Disconnection && db.accounts[b].status == ProbableChurn
               then AutoRetain(db1, b, input.actor, now) else db1;
    AutoRetainQuiet(db1, b, input.actor, now, a);
    QuietTrans(db, db1, db2, a);
    RouteQuiet(db2, n, db.accounts[b], input, now, a);
    QuietTrans(db, db2, Route(db2, n, db.accounts[b], input, now), a);
  }

  // ---- the calls that apply a row --------------------------------------------

  /** One row of account `b` was rewritten, and `b` took what that row now gives. */
  ghost predicate RowLands(db: Db, db': Db, i: nat)
    requires i < |db.changes|
  {
    var b := db.changes[i].accountId;
    && |db'.accounts| == |db.accounts| && |db'.changes| == |db.changes| && b < |db.accounts|
    && db'.changes == db.changes[i := db'.changes[i]] && db'.changes[i].accountId == b
    && (forall a | 0 <= a < |db.accounts| && a != b :: db'.accounts[a] == db.accounts[a])
    && (var arc := ArcGift(b)(db'.changes[i]); arc.Some? ==> db'.accounts[b].currentArc == arc.value)
    && (ArcGift(b)(db'.changes[i]) == None ==> db'.accounts[b].currentArc == db.accounts[b].currentArc)
    && (var bandwidth := BandwidthGift(b)(db'.changes[i]);
        db'.accounts[b].bandwidth == if bandwidth.Some? then bandwidth else db.accounts[b].bandwidth)
  }

  lemma DecidedLands(db: Db, i: nat, verdict: Verdict, actor: UserId, now: Time)
    requires i < |db.changes| && db.changes[i].accountId < |db.accounts|
    requires IsPendingStage(db.changes[i].approval) && db.changes[i].appliedAt == None
    ensures RowLands(db, Decided(db, i, verdict, actor, now), i)
  {
  }

  lemma AppliedLands(db: Db, i: nat, now: Time)
    requires i < |db.changes| && db.changes[i].accountId < |db.accounts| && db.changes[i].appliedAt == None
    ensures RowLands(db, ApplyChange(db, i, now), i)
  {
  }

  lemma GivesNothing(changes: seq<Change>, i: nat, a: nat)
    requires i < |changes| && Last(changes, i) && changes[i].accountId == a && changes[i].appliedAt == None
    ensures forall j | i <= j < |changes| :: ArcGift(a)(changes[j]) == None && BandwidthGift(a)(changes[j]) == None
  {
  }

  lemma LandingUpdates(db: Db, db': Db, i: nat, a: nat, imported: Account)
    requires i < |db.changes| && RowLands(db, db', i) && Last(db.changes, i) && db.changes[i].appliedAt == None
    requires a < |db.accounts| && UpToDate(db, a, imported)
    ensures UpToDate(db', a, imported)
  {
    var c := db'.changes[i];
    if db.changes[i].accountId == a {
      GivesNothing(db.changes, i, a);
      LastGift(db.changes, i, c, ArcGift(a), Some(imported.currentArc));
      LastGift(db.changes, i, c, BandwidthGift(a), imported.bandwidth);
    } else {
      assert Quiet(db, db', a);
      QuietStaysUpToDate(db, db', a, imported);
    }
  }

  lemma DecideUpdates(db: Db, i: nat, verdict: Verdict, actor: UserId, role: Role, now: Time, a: nat, imported: Account)
    requires Inv(db) && DecideRefusal(db, i, verdict, actor, role) == None
    requires a < |db.accounts| && UpToDate(db, a, imported)
    ensures a < |Decided(db, i, verdict, actor, now).accounts| && UpToDate(Decided(db, i, verdict, actor, now), a, imported)
  {
    assert BaseRow(db, i) && RowInPlace(db, i) && Shape(db.changes[i]);
    DecidedLands(db, i, verdict, actor, now);
    LandingUpdates(db, Decided(db, i, verdict, actor, now), i, a, imported);
  }

  lemma RetentionQuiet(db: Db, i: nat, decision: Retention, actor: UserId, now: Time, a: nat)
    requires i < |db.changes| && db.changes[i].accountId < |db.accounts| && a < |db.accounts|
    ensures Quiet(db, RetentionApplied(db, i, decision, actor, now), a)
  {
  }

  lemma ForeignApplyQuiet(db: Db, i: nat, now: Time, a: nat)
    requires i < |db.changes| && db.changes[i].accountId < |db.accounts| && a < |db.accounts|
    requires db.changes[i].accountId != a || db.changes[i].appliedAt.Some?
    ensures Quiet(db, ApplyChange(db, i, now), a)
  {
  }

  lemma ApplyUpdates(db: Db, i: nat, now: Time, a: nat, imported: Account)
    requires Inv(db) && i < |db.changes| && Listed(db.changes[i], now)
    requires a < |db.accounts| && db.accounts[a].kitty == BaseKitty && UpToDate(db, a, imported)
    ensures |ApplyChange(db, i, now).accounts| == |db.accounts| && UpToDate(ApplyChange(db, i, now), a, imported)
  {
    if db.changes[i].accountId == a && db.changes[i].appliedAt == None {
      assert BaseRow(db, i) && Shape(db.changes[i]) && RowInPlace(db, i);
      AppliedLands(db, i, now);
      LandingUpdates(db, ApplyChange(db, i, now), i, a, imported);
    } else {
      ForeignApplyQuiet(db, i, now, a);
      QuietStaysUpToDate(db, ApplyChange(db, i, now), a, imported);
    }
  }

  // ---- runs ------------------------------------------------------------------

  lemma StepUpdates(w: World, action: Action, a: nat, imported: Account)
    requires Good(w) && Permitted(w, action)
    requires a < |w.db.accounts| && w.db.accounts[a].kitty == BaseKitty && UpToDate(w.db, a, imported)
    ensures UpToDate(Step(w, action).db, a, imported)
  {
    var db' := Step(w, action).db;
    match action
    case CommitCall(input) =>
      if CommitRefusal(w.db, input, w.quickEnabled) == None {
        CommitQuiet(w.db, input, w.now, a);
        QuietStaysUpToDate(w.db, db', a, imported);
      }
    case DecideCall(i, verdict, actor, role) =>
      if DecideRefusal(w.db, i, verdict, actor, role) == None {
        DecideUpdates(w.db, i, verdict, actor, role, w.now, a, imported);
      }
    case RetentionCall(i, decision, actor) =>
      if RetentionRefusal(w.db, i, decision, w.now) == None {
        RetentionQuiet(w.db, i, decision, actor, w.now, a);
        QuietStaysUpToDate(w.db, db', a, imported);
      }
    case SweepApply(k) =>
      if k < |w.lists| && w.lists[k] != [] {
        ApplyUpdates(w.db, w.lists[k][0], w.now, a, imported);
      }
    case _ =>
  }

  lemma {:induction false} RunUpdates(w: World, actions: seq<Action>, a: nat, imported: Account)
    requires Good(w) && Legal(w, actions)
    requires a < |w.db.accounts| && w.db.accounts[a].kitty == BaseKitty && UpToDate(w.db, a, imported)
    ensures UpToDate(Run(w, actions).db, a, imported)
  {
    if actions != [] {
      var n := |actions| - 1;
      var before := Run(w, actions[..n]);
      RunUpdates(w, actions[..n], a, imported);
      RunKeeps(w, actions[..n]);
      assert SameIdentity(w.db.accounts[a], before.db.accounts[a]);
      StepUpdates(before, actions[n], a, imported);
    }
  }

  /**
    Over every run from a fresh import, an account's ARC and bandwidth are those its newest
    applied change asked for (for the bandwidth: the newest that named one), or the imported ones.
   */
  lemma AccountFollowsChanges(w: World, actions: seq<Action>, a: nat)
    requires FromImport(w, actions) && a < |w.db.accounts| && w.db.accounts[a].kitty == BaseKitty
    ensures UpToDate(Run(w, actions).db, a, w.db.accounts[a])
  {
    Reached(w, []);
    RunUpdates(w, actions, a, w.db.accounts[a]);
  }

  lemma StepKeepsRequest(w: World, action: Action, j: nat)
    requires Good(w) && Permitted(w, action) && j < |w.db.changes|
    ensures SameRequest(w.db.changes[j], Step(w, action).db.changes[j])
  {
    StepRow(w, action, j);
  }

  /** Nothing a run does rewrites what was asked for. */
  lemma {:induction false} RunKeepsRequest(w: World, actions: seq<Action>, j: nat)
    requires Good(w) && Legal(w, actions) && j < |w.db.changes|
    ensures SameRequest(w.db.changes[j], Run(w, actions).db.changes[j])
  {
    if actions != [] {
      var n := |actions| - 1;
      RunKeepsRequest(w, actions[..n], j);
      RunKeeps(w, actions[..n]);
      StepKeepsRequest(Run(w, actions[..n]), actions[n], j);
    }
  }

  /** Row `n` is applied and no later row of its account is. */
  ghost predicate NewestApplied(changes: seq<Change>, n: nat) {
    && n < |changes| && changes[n].appliedAt.Some?
    && forall j | n < j < |changes| && changes[j].accountId == changes[n].accountId :: changes[j].appliedAt == None
  }

  lemma NewestLands(db: Db, n: nat, imported: Account)
    requires Keyed(db) && NewestApplied(db.changes, n) && UpToDate(db, db.changes[n].accountId, imported)
    ensures var c, account := db.changes[n], db.accounts[db.changes[n].accountId];
            && account.currentArc == (if c.changeType == Disconnection then 0 else c.newArc)
            && (c.changeType != Disconnection && c.newBandwidth.Some? ==> account.bandwidth == c.newBandwidth)
  {
    var a := db.changes[n].accountId;
    NewestGift(db.changes, n, ArcGift(a), Some(imported.currentArc));
    if db.changes[n].changeType != Disconnection && db.changes[n].newBandwidth.Some? {
      NewestGift(db.changes, n, BandwidthGift(a), imported.bandwidth);
    }
  }

  /** A commit is accepted on an existing-base account after the run `before`. */
  ghost predicate CommitsOnBase(w: World, before: seq<Action>, input: CommitInput) {
    && FromImport(w, before)
    && CommitRefusal(Run(w, before).db, input, w.quickEnabled) == None
    && w.db.accounts[input.accountId].kitty == BaseKitty
  }

  lemma {:induction false} SettingStays(w: World, actions: seq<Action>)
    requires Sound(w)
    ensures Run(w, actions).quickEnabled == w.quickEnabled
  {
    if actions != [] {
      SettingStays(w, actions[..|actions| - 1]);
    }
  }

  /**
    Whatever happens before and after an accepted commit, its row keeps all that was asked for;
    and once it is applied, until a later change of the account is, the account's ARC is the ARC
    asked for (0 after a disconnection) and its bandwidth the one asked for, if any was.
   */
  lemma RequestLands(w: World, before: seq<Action>, input: CommitInput, after: seq<Action>)
    requires CommitsOnBase(w, before, input)
    requires Legal(Step(Run(w, before), CommitCall(input)), after)
    ensures var n, a := |Run(w, before).db.changes|, input.accountId;
            var db := Run(Step(Run(w, before), CommitCall(input)), after).db;
            && n < |db.changes| && Effects.CarriesRequest(db.changes[n], Run(w, before).db.accounts[a], input)
            && (NewestApplied(db.changes, n) ==>
                  && db.accounts[a].currentArc == (if input.changeType == Disconnection then 0 else input.newArc)
                  && (input.changeType != Disconnection && input.newBandwidth.Some? ==>
                        db.accounts[a].bandwidth == input.newBandwidth))
  {
    var n, a := |Run(w, before).db.changes|, input.accountId;
    var w1 := Run(w, before);
    var w2 := Step(w1, CommitCall(input));
    SettingStays(w, before);
    Reached(w, before);
    AccountFollowsChanges(w, before, a);
    assert SameIdentity(w.db.accounts[a], w1.db.accounts[a]);
    StepKeeps(w1, CommitCall(input));
    StepUpdates(w1, CommitCall(input), a, w.db.accounts[a]);
    Effects.CommitOnBase(w1.db, input, w1.quickEnabled, w1.now);
    Continues(w2, after, n, a, w.db.accounts[a]);
  }

  lemma Continues(w: World, after: seq<Action>, n: nat, a: nat, imported: Account)
    requires Good(w) && Legal(w, after) && n < |w.db.changes| && w.db.changes[n].accountId == a
    requires a < |w.db.accounts| && w.db.accounts[a].kitty == BaseKitty && UpToDate(w.db, a, imported)
    ensures n < |Run(w, after).db.changes| && SameRequest(w.db.changes[n], Run(w, after).db.changes[n])
    ensures var db := Run(w, after).db;
            var c := db.changes[n];
            NewestApplied(db.changes, n) ==>
              && db.accounts[a].currentArc == (if c.changeType == Disconnection then 0 else c.newArc)
              && (c.changeType != Disconnection && c.newBandwidth.Some? ==> db.accounts[a].bandwidth == c.newBandwidth)
  {
    RunKeepsRequest(w, after, n);
    RunUpdates(w, after, a, imported);
    RunKeeps(w, after);
    if NewestApplied(Run(w, after).db.changes, n) {
      NewestLands(Run(w, after).db, n, imported);
    }
  }
}
