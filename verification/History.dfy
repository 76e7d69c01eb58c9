/**
  Reading a commercial change's history back out of the audit log.

  `Replay` folds the entries about one row into the approval status, the retention
  decision and the list of sign-offs they describe. An entry that does not fit the
  status reached so far makes the fold fail.
 */
module History {
  import opened Schema
  import opened Lifecycle

  datatype Sign = Sign(stage: ApprovalStatus, actor: UserId)

  datatype Past = Past(approval: ApprovalStatus, retention: Option<Retention>, signs: seq<Sign>)

  const NO_PAST: Past := Past(NotRequired, None, [])

  function Next(p: Past, event: Event, actor: UserId): Option<Past> {
    match event
    case Committed => if p == NO_PAST then Some(p) else None
    case ApprovalRequested(stage) =>
      if p.approval == NotRequired && IsPendingStage(stage) then Some(p.(approval := stage)) else None
    case ApprovalAdvanced(from, to) =>
      if p.approval == from && IsPendingStage(from) && IsPendingStage(to)
      then Some(p.(approval := to, signs := p.signs + [Sign(from, actor)])) else None
    case ApprovalApproved(from, mode) =>
      if p.approval == from && IsPendingStage(from)
      then Some(Past(Approved, if mode == Some(Quick) then Some(Proceed) else p.retention, p.signs + [Sign(from, actor)]))
      else None
    case ApprovalRejected(stage) =>
      if p.approval == stage && IsPendingStage(stage) then Some(p.(approval := Rejected)) else None
    case RetentionRetained => if p.retention == None then Some(p.(retention := Some(Retain))) else None
    case RetentionRetainedAuto => if p.retention == None then Some(p.(retention := Some(Retain))) else None
    case RetentionProceeded => if p.retention == None then Some(p.(retention := Some(Proceed))) else None
    case QuickRequested => Some(p)
  }

  function Replay(audit: seq<Entry>, i: nat): Option<Past> {
    if audit == [] then Some(NO_PAST)
    else
      var n := |audit| - 1;
      var before := Replay(audit[..n], i);
      if audit[n].changeId != i then before
      else if before.None? then None
      else Next(before.value, audit[n].event, audit[n].actor)
  }

  lemma ReplaySnoc(audit: seq<Entry>, e: Entry, i: nat)
    ensures Replay(audit + [e], i)
         == if e.changeId != i then Replay(audit, i)
            else if Replay(audit, i).None? then None
            else Next(Replay(audit, i).value, e.event, e.actor)
  {
    assert (audit + [e])[..|audit|] == audit;
  }

  /** A row no entry mentions has no past. */
  lemma {:induction false} ReplayUnmentioned(audit: seq<Entry>, i: nat)
    requires forall k | 0 <= k < |audit| :: audit[k].changeId != i
    ensures Replay(audit, i) == Some(NO_PAST)
  {
    if audit != [] {
      ReplayUnmentioned(audit[..|audit| - 1], i);
    }
  }

  /** Every stage a change of this kind has to pass, in order. */
  function RequiredStages(changeType: ChangeType, mode: Option<Mode>): seq<ApprovalStatus> {
    if changeType != Disconnection then [PendingAccounts]
    else if mode == Some(Quick) then [PendingSamHead, PendingAccounts, PendingSuperAdmin2]
    else [PendingAccounts, PendingSuperAdmin2]
  }

  /** The stages `NextStage` still leads through, starting with the current one. */
  function Remaining(approval: ApprovalStatus, changeType: ChangeType): seq<ApprovalStatus>
    decreases if approval == PendingSamHead then 2 else if approval == PendingAccounts then 1 else 0
  {
    if !IsPendingStage(approval) then []
    else
      match NextStage(approval, changeType == Disconnection)
      case None => [approval]
      case Some(next) => [approval] + Remaining(next, changeType)
  }

  function Stages(signs: seq<Sign>): (stages: seq<ApprovalStatus>)
    ensures |stages| == |signs|
  {
    if signs == [] then [] else Stages(signs[..|signs| - 1]) + [signs[|signs| - 1].stage]
  }

  lemma StagesSnoc(signs: seq<Sign>, s: Sign)
    ensures Stages(signs + [s]) == Stages(signs) + [s.stage]
  {
    assert (signs + [s])[..|signs|] == signs;
  }

  /** The head owns the customer, or heads the SAM who does. */
  predicate HeadOf(users: map<UserId, User>, head: UserId, owner: Option<UserId>) {
    owner.Some? && (owner.value == head || (owner.value in users && users[owner.value].samHead == Some(head)))
  }

  /** The signer held the stage's role (and, for a head, the customer), or was an admin. */
  predicate Authorised(users: map<UserId, User>, owner: Option<UserId>, s: Sign) {
    && IsPendingStage(s.stage)
    && s.actor in users
    && (|| users[s.actor].role == Admin
        || (s.stage == PendingAccounts && users[s.actor].role == AccountsTeam)
        || (s.stage == PendingSuperAdmin2 && users[s.actor].role == SuperAdmin2)
        || (s.stage == PendingSamHead && users[s.actor].role == SamHead && HeadOf(users, s.actor, owner)))
  }

  ghost predicate AllAuthorised(users: map<UserId, User>, owner: Option<UserId>, signs: seq<Sign>) {
    forall k | 0 <= k < |signs| :: Authorised(users, owner, signs[k])
  }

  /** The past `p` tells the same story as row `c`. */
  ghost predicate Tells(users: map<UserId, User>, owner: Option<UserId>, c: Change, p: Past) {
    && p.approval == c.approval
    && p.retention == c.retention
    && AllAuthorised(users, owner, p.signs)
    && (c.approval == Rejected
        ==> Stages(p.signs) < RequiredStages(c.changeType, c.mode))
    && (c.approval != Rejected
        ==> Stages(p.signs) + Remaining(c.approval, c.changeType) == RequiredStages(c.changeType, c.mode))
  }
}
