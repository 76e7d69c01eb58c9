/** The three sign-offs of a quick disconnection, each by its own role and no admin among them. */
module SignOffs {
  import opened Schema
  import opened Dates
  import opened Lifecycle
  import opened History
  import opened Runs
  import opened Refusals
  import opened Effects
  import opened Reachability

  /** A SAM's head, an accounts user and a second super admin, none of them an admin. */
  predicate Signers(users: map<UserId, User>, owner: Option<UserId>, head: UserId, accounts: UserId, second: UserId) {
    && head in users && users[head].role == SamHead && HeadOf(users, head, owner)
    && accounts in users && users[accounts].role == AccountsTeam
    && second in users && users[second].role == SuperAdmin2
  }

  function SignAs(i: nat, material: Option<bool>, actor: UserId, role: Role): Action {
    DecideCall(i, Approve(material), actor, role)
  }

  /** Row `i` is a quick disconnection at `stage`; its request and account are those of `first`. */
  ghost predicate StandsAt(first: Db, w: World, i: nat, stage: ApprovalStatus)
    requires i < |first.changes|
  {
    && Sound(w) && i < |w.db.changes| && w.db.users == first.users && w.db.accounts == first.accounts
    && w.db.changes[i] == first.changes[i].(approval := stage)
    && w.db.changes[i].changeType == Disconnection && w.db.changes[i].mode == Some(Quick)
  }

  lemma SignOn(first: Db, w: World, i: nat, stage: ApprovalStatus, next: ApprovalStatus, material: Option<bool>, actor: UserId, role: Role)
    requires i < |first.changes| && StandsAt(first, w, i, stage) && MovesOn(w.db.changes[i], next)
    requires actor in w.db.users && w.db.users[actor].role == role
    requires (role == AccountsTeam && stage == PendingAccounts)
          || (role == SamHead && stage == PendingSamHead && HeadOf(w.db.users, actor, w.db.accounts[w.db.changes[i].accountId].samOwner))
    ensures Permitted(w, SignAs(i, material, actor, role))
    ensures StandsAt(first, Step(w, SignAs(i, material, actor, role)), i, next)
    ensures Step(w, SignAs(i, material, actor, role)).now == w.now
  {
    MayApproveIff(w.db, i, material, actor, role);
    AdvanceRecorded(w.db, i, material, actor, role, w.now, next);
  }

  lemma SignLast(first: Db, w: World, i: nat, material: Option<bool>, actor: UserId)
    requires i < |first.changes| && StandsAt(first, w, i, PendingSuperAdmin2)
    requires actor in w.db.users && w.db.users[actor].role == SuperAdmin2
    ensures Permitted(w, SignAs(i, material, actor, SuperAdmin2))
    ensures LetGo(first, Step(w, SignAs(i, material, actor, SuperAdmin2)).db, i, material, actor, w.now)
  {
    MayApproveIff(w.db, i, material, actor, SuperAdmin2);
    ApprovalRecorded(w.db, i, material, actor, SuperAdmin2, w.now);
  }

  /** The row is approved, to proceed, and ends on the day asked for; its account is disconnecting. */
  ghost predicate LetGo(first: Db, db: Db, i: nat, material: Option<bool>, actor: UserId, now: Time)
    requires i < |first.changes|
  {
    && i < |db.changes| && first.changes[i].accountId < |db.accounts|
    && db.accounts[first.changes[i].accountId].status == Disconnecting
    && var c := db.changes[i];
       && c.approval == Approved && c.approvedBy == Some(actor) && c.approvedAt == Some(now)
       && c.retention == Some(Proceed) && c.materialRecovered == material
       && (first.changes[i].quickDays.Some? ==> c.scheduledTerminationAt == Some(DayAfter(now, first.changes[i].quickDays.value)))
  }

  /** What three calls in a row lead to, if each is permitted where the ones before it lead. */
  lemma ThreeSteps(w: World, a: Action, b: Action, c: Action)
    requires Sound(w)
    ensures Run(w, [a] + [b] + [c]) == Step(Step(Step(w, a), b), c)
    ensures (&& Permitted(w, a) && Permitted(Step(w, a), b) && Permitted(Step(Step(w, a), b), c)) ==> Legal(w, [a] + [b] + [c])
  {
    OneStep(w, a);
    RunSnoc(w, [a], b);
    RunSnoc(w, [a] + [b], c);
  }

  /**
    The head of the customer's SAM, an accounts user and a second super admin take a quick
    disconnection from its first stage to DISCONNECTING by one approval each.
   */
  lemma ThreeRolesSuffice(w: World, i: nat, material: Option<bool>, head: UserId, accounts: UserId, second: UserId)
    requires Good(w) && i < |w.db.changes| && w.db.changes[i].approval == PendingSamHead
    requires w.db.changes[i].changeType == Disconnection && w.db.changes[i].mode == Some(Quick)
    requires Signers(w.db.users, w.db.accounts[w.db.changes[i].accountId].samOwner, head, accounts, second)
    ensures var signs := [SignAs(i, None, head, SamHead)] + [SignAs(i, None, accounts, AccountsTeam)] + [SignAs(i, material, second, SuperAdmin2)];
            Legal(w, signs) && LetGo(w.db, Run(w, signs).db, i, material, second, w.now)
  {
    var w1 := Step(w, SignAs(i, None, head, SamHead));
    SignOn(w.db, w, i, PendingSamHead, PendingAccounts, None, head, SamHead);
    SignOn(w.db, w1, i, PendingAccounts, PendingSuperAdmin2, None, accounts, AccountsTeam);
    var w2 := Step(w1, SignAs(i, None, accounts, AccountsTeam));
    SignLast(w.db, w2, i, material, second);
    ThreeSteps(w, SignAs(i, None, head, SamHead), SignAs(i, None, accounts, AccountsTeam), SignAs(i, material, second, SuperAdmin2));
  }
}
