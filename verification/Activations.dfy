/**
  What the three CRM deliveries write, column by column, when they take effect, and that an
  account carries what the last activation of its CRM id delivered.
 */
module Activations {
  import opened Schema
  import opened Dates
  import opened Webhooks

  // ---- activation ------------------------------------------------------------

  /** `arc` is the yearly amount delivered, or twelve times the monthly one if that is all there is. */
  predicate DeliveredArc(c: Customer, arc: int) {
    if c.currentArc.Some? then arc == c.currentArc.value
    else c.currentMrr.Some? && arc == 12 * c.currentMrr.value
  }

  predicate CarriesDelivery(x: Subscriber, c: Customer) {
    && x.externalCrmId == Some(c.externalId) && x.companyName == c.companyName
    && x.circuitId == c.circuitId && x.bandwidth == c.bandwidth && DeliveredArc(c, x.currentArc)
  }

  ghost predicate Known(accounts: seq<Subscriber>, externalId: string) {
    exists i :: 0 <= i < |accounts| && accounts[i].externalCrmId == Some(externalId)
  }

  /** Row `a` was created or overwritten from the delivery, and no other row changed. */
  ghost predicate Upserted(s: seq<Subscriber>, u: seq<Subscriber>, a: nat, c: Customer) {
    && a < |u| && CarriesDelivery(u[a], c)
    && (if Known(s, c.externalId) then
          && a < |s| == |u| && s[a].externalCrmId == Some(c.externalId)
          && u[a].kitty == s[a].kitty && u[a].status == s[a].status && u[a].startOfPeriodArc == s[a].startOfPeriodArc
        else
          && a == |s| == |u| - 1
          && u[a].kitty == NewKitty && u[a].status == Active && u[a].startOfPeriodArc == Some(u[a].currentArc))
    && forall i | 0 <= i < |s| && i != a :: u[i] == s[i]
  }

  /** An amount is delivered and no account of another customer has the circuit. */
  ghost predicate Upsertable(accounts: seq<Subscriber>, c: Customer) {
    && (c.currentArc.Some? || c.currentMrr.Some?)
    && forall i | 0 <= i < |accounts| && accounts[i].externalCrmId != Some(c.externalId) ::
         c.circuitId == None || accounts[i].circuitId != c.circuitId
  }

  /** The delivery holds a new event id and the database lets it write. */
  predicate Writable(t: Tables, a: Arrival) {
    EventId(a.delivery).Some? && EventId(a.delivery).value !in t.events && (a.fault == NoFault || a.fault == AtMark)
  }

  lemma UpsertEffect(t: Tables, c: Customer)
    requires UniqueKeys(t.accounts)
    ensures var e := Activate(t.accounts, t.changes, c);
            if Upsertable(t.accounts, c) then
              e.Writes? && Upserted(t.accounts, e.accounts, e.accountId, c) && e.changes == t.changes
            else e == Nothing(Thrown)
  {
    var h := Holder(t.accounts, c.externalId);
    if h.Some? {
      assert t.accounts[h.value].externalCrmId == Some(c.externalId);
      assert forall i | 0 <= i < |t.accounts| && i != h.value :: t.accounts[i].externalCrmId != Some(c.externalId);
    }
  }

  /**
    An activation is answered PROCESSED exactly if its event id is new, nothing fails, it brings
    an amount and its circuit is free; then the account it names was created or overwritten from
    it, and the rest of the tables is as before.
   */
  lemma ActivationProcessed(t: Tables, a: Arrival)
    requires Linked(t) && UniqueKeys(t.accounts) && a.delivery.Activated?
    ensures var c, u, answer := a.delivery.customer, Deliver(t, a).0, Deliver(t, a).1;
            && (answer.Processed? <==> a.fault == NoFault && a.delivery.eventId !in t.events && Upsertable(t.accounts, c))
            && (answer.Processed? ==>
                  && Upserted(t.accounts, u.accounts, answer.accountId, c) && u.changes == t.changes
                  && u.events == t.events[a.delivery.eventId := EventRow(EventProcessed, Some(answer.accountId))])
  {
    UpsertEffect(t, a.delivery.customer);
  }

  /** It takes effect under the same conditions even if marking the event fails, and otherwise not at all. */
  lemma ActivationWrites(t: Tables, a: Arrival)
    requires Linked(t) && UniqueKeys(t.accounts) && a.delivery.Activated?
    ensures var c, u := a.delivery.customer, Deliver(t, a).0;
            && u.changes == t.changes
            && if Writable(t, a) && Upsertable(t.accounts, c) then exists i :: Upserted(t.accounts, u.accounts, i, c)
               else u.accounts == t.accounts
  {
    UpsertEffect(t, a.delivery.customer);
    var e := Activate(t.accounts, t.changes, a.delivery.customer);
    if Writable(t, a) && e.Writes? {
      assert Upserted(t.accounts, Deliver(t, a).0.accounts, e.accountId, a.delivery.customer);
    }
  }

  // ---- over runs -------------------------------------------------------------

  /** The `k`th arrival is an activation of `externalId` that took effect. */
  ghost predicate TookEffect(t: Tables, arrivals: seq<Arrival>, k: nat, externalId: string)
    requires Linked(t) && k < |arrivals|
  {
    var a, before := arrivals[k], Run(t, arrivals[..k]);
    && a.delivery.Activated? && a.delivery.customer.externalId == externalId
    && Writable(before, a) && Upsertable(before.accounts, a.delivery.customer)
  }

  ghost predicate LastToTakeEffect(t: Tables, arrivals: seq<Arrival>, k: nat, externalId: string)
    requires Linked(t)
  {
    && k < |arrivals| && TookEffect(t, arrivals, k, externalId)
    && forall j | k < j < |arrivals| :: !TookEffect(t, arrivals, j, externalId)
  }

  predicate SameProfile(x: Subscriber, y: Subscriber) {
    && y.externalCrmId == x.externalCrmId && y.companyName == x.companyName && y.circuitId == x.circuitId
    && y.bandwidth == x.bandwidth && y.currentArc == x.currentArc
  }

  /** Only an activation of an account's own id rewrites its profile. */
  lemma ProfileStays(t: Tables, a: Arrival, i: nat)
    requires Linked(t) && UniqueKeys(t.accounts) && i < |t.accounts|
    requires a.delivery.Activated? && Some(a.delivery.customer.externalId) == t.accounts[i].externalCrmId ==>
               !(Writable(t, a) && Upsertable(t.accounts, a.delivery.customer))
    ensures i < |Deliver(t, a).0.accounts| && SameProfile(t.accounts[i], Deliver(t, a).0.accounts[i])
  {
    if a.delivery.Activated? {
      ActivationWrites(t, a);
      if Writable(t, a) && Upsertable(t.accounts, a.delivery.customer) {
        var k :| Upserted(t.accounts, Deliver(t, a).0.accounts, k, a.delivery.customer);
        assert k != i;
      }
    }
  }

  /** The only account of the id carries the delivery. */
  ghost predicate Stands(accounts: seq<Subscriber>, externalId: string, c: Customer) {
    var h := Holder(accounts, externalId);
    && h.Some? && CarriesDelivery(accounts[h.value], c)
    && forall i | 0 <= i < |accounts| && i != h.value :: accounts[i].externalCrmId != Some(externalId)
  }

  lemma PrefixTakesEffect(t: Tables, arrivals: seq<Arrival>, k: nat, n: nat, externalId: string)
    requires Linked(t) && k < n <= |arrivals|
    ensures TookEffect(t, arrivals[..n], k, externalId) == TookEffect(t, arrivals, k, externalId)
  {
    assert arrivals[..n][..k] == arrivals[..k];
  }

  lemma LastOfPrefix(t: Tables, arrivals: seq<Arrival>, k: nat, n: nat, externalId: string)
    requires Linked(t) && LastToTakeEffect(t, arrivals, k, externalId) && k < n <= |arrivals|
    ensures LastToTakeEffect(t, arrivals[..n], k, externalId)
  {
    PrefixTakesEffect(t, arrivals, k, n, externalId);
    forall j | k < j < n
      ensures !TookEffect(t, arrivals[..n], j, externalId)
    {
      PrefixTakesEffect(t, arrivals, j, n, externalId);
    }
  }

  /**
    Whatever else is delivered, refused or repeated, the account of a CRM id carries the company,
    circuit, bandwidth and ARC of the last activation of that id that took effect.
   */
  lemma {:induction false} LastActivationStands(t: Tables, arrivals: seq<Arrival>, k: nat, externalId: string)
    requires Linked(t) && UniqueKeys(t.accounts) && LastToTakeEffect(t, arrivals, k, externalId)
    ensures Stands(Run(t, arrivals).accounts, externalId, arrivals[k].delivery.customer)
    decreases |arrivals|
  {
    var n := |arrivals| - 1;
    if k == n {
      LastLands(t, arrivals, externalId);
    } else {
      LastOfPrefix(t, arrivals, k, n, externalId);
      LastActivationStands(t, arrivals[..n], k, externalId);
      OthersPass(t, arrivals, externalId, arrivals[k].delivery.customer);
    }
  }

  lemma UniqueAlong(t: Tables, arrivals: seq<Arrival>)
    requires Linked(t) && UniqueKeys(t.accounts) && arrivals != []
    ensures var before, a := Run(t, arrivals[..|arrivals| - 1]), arrivals[|arrivals| - 1];
            UniqueKeys(before.accounts) && UniqueKeys(Deliver(before, a).0.accounts) && Run(t, arrivals) == Deliver(before, a).0
  {
    AccountsKeepTheirOrigin(t, arrivals);
    AccountsKeepTheirOrigin(t, arrivals[..|arrivals| - 1]);
  }

  lemma LastLands(t: Tables, arrivals: seq<Arrival>, externalId: string)
    requires Linked(t) && UniqueKeys(t.accounts) && arrivals != [] && TookEffect(t, arrivals, |arrivals| - 1, externalId)
    ensures Stands(Run(t, arrivals).accounts, externalId, arrivals[|arrivals| - 1].delivery.customer)
  {
    UniqueAlong(t, arrivals);
    LandsNow(Run(t, arrivals[..|arrivals| - 1]), arrivals[|arrivals| - 1], externalId);
  }

  lemma OthersPass(t: Tables, arrivals: seq<Arrival>, externalId: string, c: Customer)
    requires Linked(t) && UniqueKeys(t.accounts) && arrivals != [] && !TookEffect(t, arrivals, |arrivals| - 1, externalId)
    requires Stands(Run(t, arrivals[..|arrivals| - 1]).accounts, externalId, c)
    ensures Stands(Run(t, arrivals).accounts, externalId, c)
  {
    UniqueAlong(t, arrivals);
    StandsOn(Run(t, arrivals[..|arrivals| - 1]), arrivals[|arrivals| - 1], externalId, c);
  }

  lemma LandsNow(t: Tables, a: Arrival, externalId: string)
    requires Linked(t) && UniqueKeys(t.accounts) && a.delivery.Activated? && a.delivery.customer.externalId == externalId
    requires Writable(t, a) && Upsertable(t.accounts, a.delivery.customer)
    requires UniqueKeys(Deliver(t, a).0.accounts)
    ensures Stands(Deliver(t, a).0.accounts, externalId, a.delivery.customer)
  {
    ActivationWrites(t, a);
    var u := Deliver(t, a).0.accounts;
    var i :| Upserted(t.accounts, u, i, a.delivery.customer);
    OneHolder(u, i, externalId);
  }

  lemma OneHolder(accounts: seq<Subscriber>, i: nat, externalId: string)
    requires UniqueKeys(accounts) && i < |accounts| && accounts[i].externalCrmId == Some(externalId)
    ensures Holder(accounts, externalId) == Some(i)
    ensures forall j | 0 <= j < |accounts| && j != i :: accounts[j].externalCrmId != Some(externalId)
  {
  }

  lemma StandsOn(t: Tables, a: Arrival, externalId: string, c: Customer)
    requires Linked(t) && UniqueKeys(t.accounts) && UniqueKeys(Deliver(t, a).0.accounts) && Stands(t.accounts, externalId, c)
    requires a.delivery.Activated? && a.delivery.customer.externalId == externalId ==>
               !(Writable(t, a) && Upsertable(t.accounts, a.delivery.customer))
    ensures Stands(Deliver(t, a).0.accounts, externalId, c)
  {
    var i := Holder(t.accounts, externalId).value;
    ProfileStays(t, a, i);
    OneHolder(Deliver(t, a).0.accounts, i, externalId);
  }

  // ---- quick-disconnect decisions --------------------------------------------

  function Days(row: Request): int {
    if row.quickDays == None then 1 else row.quickDays.value
  }

  predicate Given(text: Option<string>) {
    text.Some? && |text.value| > 0
  }

  /** The columns no delivery about a change writes. */
  predicate SameChange(row: Request, row': Request) {
    row'.accountId == row.accountId && row'.mode == row.mode && row'.quickDays == row.quickDays
  }

  predicate SameOrder(row: Request, row': Request) {
    row'.orderId == row.orderId && row'.orderNumber == row.orderNumber
  }

  predicate SameProgress(row: Request, row': Request) {
    row'.crmStatus == row.crmStatus && row'.crmStatusUpdatedAt == row.crmStatusUpdatedAt
  }

  /** What the decision writes into its row. */
  predicate DecisionIn(row: Request, row': Request, d: Decision, now: Time) {
    && SameChange(row, row') && row'.appliedAt == row.appliedAt
    && row'.quickApproved == Some(d.approve) && row'.quickDecidedAt == Some(d.occurredAt)
    && row'.quickDecidedBy == Some(d.decidedBy) && row'.quickNote == d.note
    && row'.retention == Some(if d.approve then Proceed else Retain) && row'.retentionDecidedAt == Some(d.occurredAt)
    && (if d.approve then row'.scheduledTerminationAt == Some(DayAfter(now, Days(row)))
        else row'.scheduledTerminationAt == row.scheduledTerminationAt)
    && (if d.approve && Given(d.raised.orderId) then row'.orderId == d.raised.orderId && row'.orderNumber == d.raised.orderNumber
        else SameOrder(row, row'))
    && (if d.approve && (Given(d.raised.orderId) || Given(d.raised.status)) then
          row'.crmStatus == d.raised.status && row'.crmStatusUpdatedAt == Some(d.occurredAt)
        else SameProgress(row, row'))
  }

  /** Only row `i` and the status of its account changed. */
  ghost predicate OneChange(t: Tables, u: Tables, i: nat, status: ContractStatus)
    requires Linked(t)
  {
    && i < |t.changes| == |u.changes| && |u.accounts| == |t.accounts|
    && (forall j | 0 <= j < |t.changes| && j != i :: u.changes[j] == t.changes[j])
    && u.accounts == t.accounts[t.changes[i].accountId := t.accounts[t.changes[i].accountId].(status := status)]
  }

  /**
    A decision is answered PROCESSED exactly if its event id is new, nothing fails and its change
    is a quick disconnection on record; an approval sends the account off, a rejection frees it.
   */
  lemma DecisionProcessed(t: Tables, a: Arrival)
    requires Linked(t) && a.delivery.QuickDecided?
    ensures var i, d, u, answer := a.delivery.changeId, a.delivery.decision, Deliver(t, a).0, Deliver(t, a).1;
            && (answer.Processed? <==>
                  a.fault == NoFault && a.delivery.eventId !in t.events && i < |t.changes| && t.changes[i].mode == Some(Quick))
            && (answer.Processed? ==>
                  && answer.accountId == t.changes[i].accountId
                  && OneChange(t, u, i, if d.approve then Disconnecting else Active)
                  && DecisionIn(t.changes[i], u.changes[i], d, a.now)
                  && u.events == t.events[a.delivery.eventId := EventRow(EventProcessed, Some(answer.accountId))])
            && (!answer.Processed? && a.fault != AtMark ==> u.changes == t.changes && u.accounts == t.accounts)
  {
  }

  // ---- CRM transitions -------------------------------------------------------

  /** The CRM has approved: the order goes to its documents stage. */
  predicate Approving(toStatus: string) {
    toStatus in {"PENDING_DOCS_REVIEW", "DOCS"}
  }

  /** The account's status after a transition; unknown ones leave it. */
  function AccountAfter(toStatus: string, status: ContractStatus): ContractStatus {
    if toStatus in {"PENDING_DOCS_REVIEW", "PENDING_NOC", "PENDING_ACCOUNTS", "DOCS", "NOC", "ACCOUNTS"} then Disconnecting
    else if toStatus == "COMPLETED" then Terminated
    else if toStatus in {"REJECTED", "DOCS_REJECTED", "NOC_REJECTED", "CANCELLED"} then Active
    else status
  }

  /** What the transition writes into its row. */
  predicate TransitionIn(row: Request, row': Request, n: News, now: Time) {
    var approves, quick := Approving(n.toStatus), row.mode == Some(Quick);
    && SameChange(row, row')
    && row'.crmStatus == Some(n.toStatus) && row'.crmStatusUpdatedAt == Some(n.occurredAt)
    && row'.orderId == (if Given(n.orderId) then n.orderId else row.orderId)
    && row'.orderNumber == (if Given(n.orderNumber) then n.orderNumber else row.orderNumber)
    && row'.appliedAt == (if n.toStatus == "COMPLETED" then Some(n.occurredAt) else row.appliedAt)
    && row'.retention == (if approves then Some(Proceed) else row.retention)
    && row'.retentionDecidedAt == (if approves then Some(n.occurredAt) else row.retentionDecidedAt)
    && row'.scheduledTerminationAt == (if approves && quick then Some(DayAfter(now, Days(row))) else row.scheduledTerminationAt)
    && (if quick && (approves || n.toStatus == "REJECTED") then
          && row'.quickApproved == Some(approves) && row'.quickDecidedAt == Some(n.occurredAt)
          && row'.quickDecidedBy == Some(n.changedBy) && row'.quickNote == (if Given(n.note) then n.note else row.quickNote)
        else
          && row'.quickApproved == row.quickApproved && row'.quickDecidedAt == row.quickDecidedAt
          && row'.quickDecidedBy == row.quickDecidedBy && row'.quickNote == row.quickNote)
  }

  /** A transition is answered PROCESSED exactly if its event id is new, nothing fails and its change is on record. */
  lemma TransitionProcessed(t: Tables, a: Arrival)
    requires Linked(t) && a.delivery.StatusChanged?
    ensures var i, n, u, answer := a.delivery.changeId, a.delivery.news, Deliver(t, a).0, Deliver(t, a).1;
            && (answer.Processed? <==> a.fault == NoFault && a.delivery.eventId !in t.events && i < |t.changes|)
            && (answer.Processed? ==>
                  && answer.accountId == t.changes[i].accountId
                  && OneChange(t, u, i, AccountAfter(n.toStatus, t.accounts[t.changes[i].accountId].status))
                  && TransitionIn(t.changes[i], u.changes[i], n, a.now)
                  && u.events == t.events[a.delivery.eventId := EventRow(EventProcessed, Some(answer.accountId))])
            && (!answer.Processed? && a.fault != AtMark ==> u.changes == t.changes && u.accounts == t.accounts)
  {
  }

  // ---- event rows ------------------------------------------------------------

  /** The row of a delivery's event id says how it ended: processed with its account, rejected, or failed. */
  lemma EventTells(t: Tables, a: Arrival)
    requires Linked(t) && Reaches(a) && EventId(a.delivery).value !in t.events
    ensures var id, u, answer := EventId(a.delivery).value, Deliver(t, a).0, Deliver(t, a).1;
            && id in u.events
            && u.events[id] == (if a.delivery.Refused? then EventRow(EventRejected, None)
                                else if answer.Processed? then EventRow(EventProcessed, Some(answer.accountId))
                                else EventRow(EventFailed, None))
            && (answer == NotFound <==>
                  || (a.delivery.QuickDecided? && (a.delivery.changeId >= |t.changes| || t.changes[a.delivery.changeId].mode != Some(Quick)))
                  || (a.delivery.StatusChanged? && a.delivery.changeId >= |t.changes|))
  {
  }
}
