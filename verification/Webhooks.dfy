/**
  Inbound CRM webhooks: every delivery first reserves its event id, so whatever the
  sender repeats, each id takes effect at most once.
 */
module Webhooks {
  import opened Schema
  import opened Dates

  // ---- tables ----------------------------------------------------------------

  datatype EventStatus = EventFailed | EventProcessed | EventRejected

  datatype EventRow = EventRow(status: EventStatus, accountId: Option<nat>)

  datatype Subscriber = Subscriber(
    externalCrmId: Option<string>,
    circuitId: Option<string>,
    companyName: string,
    kitty: Kitty,
    status: ContractStatus,
    currentArc: int,
    startOfPeriodArc: Option<int>,
    bandwidth: Option<int>)

  datatype Request = Request(
    accountId: nat,
    mode: Option<Mode>,
    quickDays: Option<int>,
    quickApproved: Option<bool>,
    quickDecidedAt: Option<Time>,
    quickDecidedBy: Option<string>,
    quickNote: Option<string>,
    retention: Option<Retention>,
    retentionDecidedAt: Option<Time>,
    scheduledTerminationAt: Option<Time>,
    appliedAt: Option<Time>,
    orderId: Option<string>,
    orderNumber: Option<string>,
    crmStatus: Option<string>,
    crmStatusUpdatedAt: Option<Time>)

  datatype Tables = Tables(events: map<string, EventRow>, accounts: seq<Subscriber>, changes: seq<Request>)

  ghost predicate Linked(t: Tables) {
    forall i | 0 <= i < |t.changes| :: t.changes[i].accountId < |t.accounts|
  }

  /** The two unique columns of the account table that activations write. */
  ghost predicate UniqueKeys(accounts: seq<Subscriber>) {
    forall i, j | 0 <= i < j < |accounts| ::
      && (accounts[i].externalCrmId.Some? ==> accounts[i].externalCrmId != accounts[j].externalCrmId)
      && (accounts[i].circuitId.Some? ==> accounts[i].circuitId != accounts[j].circuitId)
  }

  // ---- deliveries ------------------------------------------------------------

  datatype Customer = Customer(
    externalId: string,
    companyName: string,
    circuitId: Option<string>,
    bandwidth: Option<int>,
    currentArc: Option<int>,
    currentMrr: Option<int>)

  /** The outcome of raising a service order for an approved quick disconnect. */
  datatype Raised = Raised(orderId: Option<string>, orderNumber: Option<string>, status: Option<string>)

  datatype Decision = Decision(occurredAt: Time, approve: bool, decidedBy: string, note: Option<string>, raised: Raised)

  datatype News = News(occurredAt: Time, toStatus: string, changedBy: string, note: Option<string>,
                       orderId: Option<string>, orderNumber: Option<string>)

  datatype Delivery =
    | Activated(eventId: string, customer: Customer)
    | QuickDecided(eventId: string, changeId: nat, decision: Decision)
    | StatusChanged(eventId: string, changeId: nat, news: News)
    | Refused(externalEventId: Option<string>)

  /** Where the database gives out while a delivery is handled, if it does. */
  datatype Fault = NoFault | AtReservation | AtWrite | AtMark

  datatype Arrival = Arrival(delivery: Delivery, now: Time, fault: Fault)

  datatype Answer = Processed(accountId: nat) | Duplicate(known: Option<nat>) | NotFound | Thrown | Logged

  function EventId(d: Delivery): Option<string> {
    if d.Refused? then d.externalEventId else Some(d.eventId)
  }

  // ---- what one handler writes -----------------------------------------------

  datatype Effect = Nothing(answer: Answer) | Writes(accounts: seq<Subscriber>, changes: seq<Request>, accountId: nat)

  function ResolveCurrentArc(c: Customer): Option<int> {
    if c.currentArc.Some? then c.currentArc
    else if c.currentMrr.Some? then Some(c.currentMrr.value * 12)
    else None
  }

  /** The account holding `externalId`, if there is one. */
  function Holder(accounts: seq<Subscriber>, externalId: string): (found: Option<nat>)
    ensures found.Some? ==> found.value < |accounts| && accounts[found.value].externalCrmId == Some(externalId)
    ensures found == None ==> forall i | 0 <= i < |accounts| :: accounts[i].externalCrmId != Some(externalId)
  {
    if accounts == [] then None
    else if accounts[|accounts| - 1].externalCrmId == Some(externalId) then Some(|accounts| - 1)
    else Holder(accounts[..|accounts| - 1], externalId)
  }

  /** An account other than row `self` already has this circuit. */
  predicate CircuitTaken(accounts: seq<Subscriber>, circuitId: Option<string>, self: nat) {
    circuitId.Some? && exists i | 0 <= i < |accounts| :: i != self && accounts[i].circuitId == circuitId
  }

  function Activate(accounts: seq<Subscriber>, changes: seq<Request>, c: Customer): Effect {
    var arc := ResolveCurrentArc(c);
    if arc == None then Nothing(Thrown)
    else
      match Holder(accounts, c.externalId)
      case Some(i) =>
        if CircuitTaken(accounts, c.circuitId, i) then Nothing(Thrown)
        else
          Writes(accounts[i := accounts[i].(companyName := c.companyName, currentArc := arc.value, circuitId := c.circuitId, bandwidth := c.bandwidth)],
                 changes, i)
      case None =>
        if CircuitTaken(accounts, c.circuitId, |accounts|) then Nothing(Thrown)
        else
          Writes(accounts + [Subscriber(Some(c.externalId), c.circuitId, c.companyName, NewKitty, Active, arc.value, arc, c.bandwidth)],
                 changes, |accounts|)
  }

  function WithStatus(accounts: seq<Subscriber>, i: nat, status: ContractStatus): seq<Subscriber>
    requires i < |accounts|
  {
    accounts[i := accounts[i].(status := status)]
  }

  function QuickTermination(row: Request, now: Time): Time {
    AddDays(StartOfDay(now), if row.quickDays.Some? then row.quickDays.value else 1)
  }

  /** A text that is given and not empty. */
  predicate Present(text: Option<string>) {
    text.Some? && text.value != ""
  }

  function Latest(given: Option<string>, kept: Option<string>): Option<string> {
    if Present(given) then given else kept
  }

  /** The columns linking a change to the CRM order raised for it. */
  function WithOrder(row: Request, r: Raised, at: Time): Request {
    if Present(r.orderId) then row.(orderId := r.orderId, orderNumber := r.orderNumber, crmStatus := r.status, crmStatusUpdatedAt := Some(at))
    else if Present(r.status) then row.(crmStatus := r.status, crmStatusUpdatedAt := Some(at))
    else row
  }

  function DecidedRow(row: Request, d: Decision, now: Time): Request {
    var stamped := row.(quickApproved := Some(d.approve), quickDecidedAt := Some(d.occurredAt), quickDecidedBy := Some(d.decidedBy),
                        quickNote := d.note, retentionDecidedAt := Some(d.occurredAt));
    if d.approve then
      WithOrder(stamped.(retention := Some(Proceed), scheduledTerminationAt := Some(QuickTermination(row, now))), d.raised, d.occurredAt)
    else stamped.(retention := Some(Retain))
  }

  function DecideQuick(t: Tables, changeId: nat, d: Decision, now: Time): Effect
    requires Linked(t)
  {
    if changeId >= |t.changes| || t.changes[changeId].mode != Some(Quick) then Nothing(NotFound)
    else
      var row := t.changes[changeId];
      Writes(WithStatus(t.accounts, row.accountId, if d.approve then Disconnecting else Active),
             t.changes[changeId := DecidedRow(row, d, now)], row.accountId)
  }

  const IN_FLIGHT_STATUSES: set<string> := {"PENDING_DOCS_REVIEW", "PENDING_NOC", "PENDING_ACCOUNTS", "DOCS", "NOC", "ACCOUNTS"}

  const REJECTION_STATUSES: set<string> := {"REJECTED", "DOCS_REJECTED", "NOC_REJECTED", "CANCELLED"}

  predicate ApprovalLands(toStatus: string) {
    toStatus == "PENDING_DOCS_REVIEW" || toStatus == "DOCS"
  }

  /** The status a transition gives the account, if any. */
  function StatusAfter(toStatus: string): Option<ContractStatus> {
    if ApprovalLands(toStatus) || toStatus in IN_FLIGHT_STATUSES then Some(Disconnecting)
    else if toStatus == "COMPLETED" then Some(Terminated)
    else if toStatus in REJECTION_STATUSES then Some(Active)
    else None
  }

  function QuickStamp(row: Request, n: News, approved: bool): Request {
    row.(quickApproved := Some(approved), quickDecidedAt := Some(n.occurredAt), quickDecidedBy := Some(n.changedBy),
         quickNote := Latest(n.note, row.quickNote))
  }

  function TransitionedRow(was: Request, n: News, now: Time): Request {
    var quick := was.mode == Some(Quick);
    var row := was.(crmStatus := Some(n.toStatus), crmStatusUpdatedAt := Some(n.occurredAt),
                    orderId := Latest(n.orderId, was.orderId), orderNumber := Latest(n.orderNumber, was.orderNumber));
    if ApprovalLands(n.toStatus) then
      var proceeded := row.(retention := Some(Proceed), retentionDecidedAt := Some(n.occurredAt));
      if quick then QuickStamp(proceeded, n, true).(scheduledTerminationAt := Some(QuickTermination(was, now))) else proceeded
    else if n.toStatus == "COMPLETED" then row.(appliedAt := Some(n.occurredAt))
    else if n.toStatus == "REJECTED" && quick then QuickStamp(row, n, false)
    else row
  }

  function ChangeStatus(t: Tables, changeId: nat, n: News, now: Time): Effect
    requires Linked(t)
  {
    if changeId >= |t.changes| then Nothing(NotFound)
    else
      var row := t.changes[changeId];
      var status := StatusAfter(n.toStatus);
      Writes(if status.Some? then WithStatus(t.accounts, row.accountId, status.value) else t.accounts,
             t.changes[changeId := TransitionedRow(row, n, now)], row.accountId)
  }

  function EffectOf(t: Tables, d: Delivery, now: Time): Effect
    requires Linked(t)
  {
    match d
    case Activated(_, customer) => Activate(t.accounts, t.changes, customer)
    case QuickDecided(_, changeId, decision) => DecideQuick(t, changeId, decision, now)
    case StatusChanged(_, changeId, news) => ChangeStatus(t, changeId, news, now)
    case Refused(_) => Nothing(Logged)
  }

  // ---- one delivery ----------------------------------------------------------

  /** The tables after a delivery that holds its reservation. */
  function Execute(t: Tables, id: string, a: Arrival): (Tables, Answer)
    requires Linked(t)
  {
    if a.delivery.Refused? then (t.(events := t.events[id := EventRow(EventRejected, None)]), Logged)
    else
      var reserved := t.(events := t.events[id := EventRow(EventFailed, None)]);
      match EffectOf(t, a.delivery, a.now)
      case Nothing(answer) => (reserved, answer)
      case Writes(accounts, changes, accountId) =>
        if a.fault == AtWrite then (reserved, Thrown)
        else if a.fault == AtMark then (Tables(reserved.events, accounts, changes), Thrown)
        else (Tables(reserved.events[id := EventRow(EventProcessed, Some(accountId))], accounts, changes), Processed(accountId))
  }

  function Deliver(t: Tables, a: Arrival): (Tables, Answer)
    requires Linked(t)
  {
    var id := EventId(a.delivery);
    if id == None then (t, Logged)
    else if a.fault == AtReservation then (t, if a.delivery.Refused? then Logged else Thrown)
    else if id.value in t.events then
      (t, if a.delivery.Refused? then Logged else Duplicate(if a.delivery.Activated? then t.events[id.value].accountId else None))
    else Execute(t, id.value, a)
  }

  // ---- the service -----------------------------------------------------------

  class Integrations {
    var events: map<string, EventRow>
    var accounts: seq<Subscriber>
    var changes: seq<Request>

    ghost function State(): Tables
      reads this
    {
      Tables(events, accounts, changes)
    }

    constructor (t: Tables)
      ensures State() == t
    {
      events, accounts, changes := t.events, t.accounts, t.changes;
    }

    /** Insert the event row under its unique id, or report why that was not possible. */
    method Reserve(id: string, status: EventStatus, fault: Fault) returns (refusal: Option<Answer>)
      modifies this`events
      ensures refusal.None? <==> fault != AtReservation && id !in old(events)
      ensures refusal.None? ==> events == old(events)[id := EventRow(status, None)]
      ensures refusal.Some? ==> events == old(events)
      ensures refusal.Some? ==> refusal.value == if fault == AtReservation then Thrown else Duplicate(None)
    {
      if fault == AtReservation { return Some(Thrown); }
      if id in events { return Some(Duplicate(None)); }
      events := events[id := EventRow(status, None)];
      return None;
    }

    method MarkProcessed(id: string, accountId: nat, fault: Fault) returns (answer: Answer)
      modifies this`events
      ensures answer == if fault == AtMark then Thrown else Processed(accountId)
      ensures events == if fault == AtMark then old(events) else old(events)[id := EventRow(EventProcessed, Some(accountId))]
    {
      if fault == AtMark { return Thrown; }
      events := events[id := EventRow(EventProcessed, Some(accountId))];
      return Processed(accountId);
    }

    method IngestCustomerActivated(eventId: string, c: Customer, now: Time, fault: Fault) returns (answer: Answer)
      requires Linked(State())
      modifies this
      ensures (State(), answer) == Deliver(old(State()), Arrival(Activated(eventId, c), now, fault))
    {
      var refusal := Reserve(eventId, EventFailed, fault);
      if refusal.Some? {
        if refusal == Some(Duplicate(None)) {
          return Duplicate(events[eventId].accountId);
        }
        return refusal.value;
      }
      var arc := ResolveCurrentArc(c);
      if arc == None { return Thrown; }
      var holder := Holder(accounts, c.externalId);
      var self := if holder.Some? then holder.value else |accounts|;
      if CircuitTaken(accounts, c.circuitId, self) || fault == AtWrite { return Thrown; }
      if holder.Some? {
        var row := accounts[self];
        row := row.(companyName := c.companyName, currentArc := arc.value);
        row := row.(circuitId := c.circuitId, bandwidth := c.bandwidth);
        accounts := accounts[self := row];
      } else {
        accounts := accounts + [Subscriber(Some(c.externalId), c.circuitId, c.companyName, NewKitty, Active, arc.value, arc, c.bandwidth)];
      }
      answer := MarkProcessed(eventId, self, fault);
    }

    method IngestQuickDisconnectDecision(eventId: string, changeId: nat, d: Decision, now: Time, fault: Fault) returns (answer: Answer)
      requires Linked(State())
      modifies this
      ensures (State(), answer) == Deliver(old(State()), Arrival(QuickDecided(eventId, changeId, d), now, fault))
    {
      var refusal := Reserve(eventId, EventFailed, fault);
      if refusal.Some? { return refusal.value; }
      if changeId >= |changes| { return NotFound; }
      var row := changes[changeId];
      if row.mode != Some(Quick) { return NotFound; }
      if fault == AtWrite { return Thrown; }
      var accountId := row.accountId;
      if d.approve {
        var days := if row.quickDays.Some? then row.quickDays.value else 1;
        row := row.(quickApproved := Some(true), quickDecidedAt := Some(d.occurredAt));
        row := row.(quickDecidedBy := Some(d.decidedBy), quickNote := d.note);
        row := row.(scheduledTerminationAt := Some(AddDays(StartOfDay(now), days)));
        row := row.(retention := Some(Proceed), retentionDecidedAt := Some(d.occurredAt));
        if Present(d.raised.orderId) {
          row := row.(orderId := d.raised.orderId, orderNumber := d.raised.orderNumber);
          row := row.(crmStatus := d.raised.status, crmStatusUpdatedAt := Some(d.occurredAt));
        } else if Present(d.raised.status) {
          row := row.(crmStatus := d.raised.status, crmStatusUpdatedAt := Some(d.occurredAt));
        }
        accounts := accounts[accountId := accounts[accountId].(status := Disconnecting)];
      } else {
        row := row.(quickApproved := Some(false), quickDecidedAt := Some(d.occurredAt));
        row := row.(quickDecidedBy := Some(d.decidedBy), quickNote := d.note);
        row := row.(retention := Some(Retain), retentionDecidedAt := Some(d.occurredAt));
        accounts := accounts[accountId := accounts[accountId].(status := Active)];
      }
      changes := changes[changeId := row];
      answer := MarkProcessed(eventId, accountId, fault);
    }

    /** The columns a transition writes to the change, assembled one by one, and the account status it asks for. */
    method Assemble(was: Request, current: ContractStatus, n: News, now: Time) returns (row: Request, status: Option<ContractStatus>)
      ensures row == TransitionedRow(was, n, now)
      ensures (if status.Some? then status.value else current) == (if StatusAfter(n.toStatus).Some? then StatusAfter(n.toStatus).value else current)
    {
      row := was.(crmStatus := Some(n.toStatus), crmStatusUpdatedAt := Some(n.occurredAt));
      if Present(n.orderId) { row := row.(orderId := n.orderId); }
      if Present(n.orderNumber) { row := row.(orderNumber := n.orderNumber); }
      status := None;
      if n.toStatus == "PENDING_DOCS_REVIEW" || n.toStatus == "DOCS" {
        row := row.(retention := Some(Proceed), retentionDecidedAt := Some(n.occurredAt));
        if was.mode == Some(Quick) {
          row := row.(quickApproved := Some(true), quickDecidedAt := Some(n.occurredAt), quickDecidedBy := Some(n.changedBy));
          if Present(n.note) { row := row.(quickNote := n.note); }
          var days := if was.quickDays.Some? then was.quickDays.value else 1;
          row := row.(scheduledTerminationAt := Some(AddDays(StartOfDay(now), days)));
        }
        status := Some(Disconnecting);
      } else if n.toStatus in IN_FLIGHT_STATUSES {
        if current != Disconnecting { status := Some(Disconnecting); }
      } else if n.toStatus == "COMPLETED" {
        status := Some(Terminated);
        row := row.(appliedAt := Some(n.occurredAt));
      } else if n.toStatus in REJECTION_STATUSES {
        if was.mode == Some(Quick) && n.toStatus == "REJECTED" {
          row := row.(quickApproved := Some(false), quickDecidedAt := Some(n.occurredAt), quickDecidedBy := Some(n.changedBy));
          if Present(n.note) { row := row.(quickNote := n.note); }
        }
        status := Some(Active);
      }
    }

    method IngestCommercialChangeStatusChanged(eventId: string, changeId: nat, n: News, now: Time, fault: Fault) returns (answer: Answer)
      requires Linked(State())
      modifies this
      ensures (State(), answer) == Deliver(old(State()), Arrival(StatusChanged(eventId, changeId, n), now, fault))
    {
      var refusal := Reserve(eventId, EventFailed, fault);
      if refusal.Some? { return refusal.value; }
      if changeId >= |changes| { return NotFound; }
      var accountId := changes[changeId].accountId;
      var row, status := Assemble(changes[changeId], accounts[accountId].status, n, now);
      if fault == AtWrite { return Thrown; }
      changes := changes[changeId := row];
      ghost var before := accounts;
      if status.Some? {
        accounts := accounts[accountId := accounts[accountId].(status := status.value)];
      }
      var after := StatusAfter(n.toStatus);
      assert accounts == if after.Some? then WithStatus(before, accountId, after.value) else before;
      answer := MarkProcessed(eventId, accountId, fault);
    }

    method RecordRejection(externalEventId: Option<string>, now: Time, fault: Fault)
      requires Linked(State())
      modifies this`events
      ensures State() == Deliver(old(State()), Arrival(Refused(externalEventId), now, fault)).0
    {
      if externalEventId == None { return; }
      var _ := Reserve(externalEventId.value, EventRejected, fault);
    }
  }

  // ---- what every delivery keeps ---------------------------------------------

  /** Neither the unique keys of an account nor the ARC it was onboarded with ever change. */
  ghost predicate SameOrigin(s: seq<Subscriber>, t: seq<Subscriber>) {
    && |s| <= |t|
    && forall i | 0 <= i < |s| ::
         && t[i].externalCrmId == s[i].externalCrmId
         && t[i].startOfPeriodArc == s[i].startOfPeriodArc
         && t[i].kitty == s[i].kitty
  }

  lemma ActivateKeeps(accounts: seq<Subscriber>, changes: seq<Request>, c: Customer)
    ensures var e := Activate(accounts, changes, c);
              e.Writes? ==>
                && SameOrigin(accounts, e.accounts)
                && e.accountId < |e.accounts| <= |accounts| + 1
                && e.accounts[e.accountId].externalCrmId == Some(c.externalId)
                && e.changes == changes
                && (UniqueKeys(accounts) ==> UniqueKeys(e.accounts))
  {
  }

  lemma StatusKeeps(accounts: seq<Subscriber>, i: nat, status: ContractStatus)
    requires i < |accounts|
    ensures SameOrigin(accounts, WithStatus(accounts, i, status))
    ensures |WithStatus(accounts, i, status)| == |accounts|
    ensures UniqueKeys(accounts) ==> UniqueKeys(WithStatus(accounts, i, status))
  {
  }

  /** An effect keeps every account's origin, and the rows their accounts. */
  ghost predicate EffectSafe(t: Tables, e: Effect) {
    e.Writes? ==>
      && SameOrigin(t.accounts, e.accounts)
      && |e.changes| == |t.changes|
      && (forall i | 0 <= i < |t.changes| :: e.changes[i].accountId == t.changes[i].accountId)
      && (UniqueKeys(t.accounts) ==> UniqueKeys(e.accounts))
  }

  lemma DecideQuickKeeps(t: Tables, changeId: nat, d: Decision, now: Time)
    requires Linked(t)
    ensures EffectSafe(t, DecideQuick(t, changeId, d, now))
  {
    if changeId < |t.changes| {
      StatusKeeps(t.accounts, t.changes[changeId].accountId, if d.approve then Disconnecting else Active);
    }
  }

  lemma ChangeStatusKeeps(t: Tables, changeId: nat, n: News, now: Time)
    requires Linked(t)
    ensures EffectSafe(t, ChangeStatus(t, changeId, n, now))
  {
    if changeId < |t.changes| && StatusAfter(n.toStatus).Some? {
      StatusKeeps(t.accounts, t.changes[changeId].accountId, StatusAfter(n.toStatus).value);
    }
  }

  lemma EffectKeeps(t: Tables, d: Delivery, now: Time)
    requires Linked(t)
    ensures EffectSafe(t, EffectOf(t, d, now))
  {
    match d
    case Activated(_, customer) => ActivateKeeps(t.accounts, t.changes, customer);
    case QuickDecided(_, changeId, decision) => DecideQuickKeeps(t, changeId, decision, now);
    case StatusChanged(_, changeId, news) => ChangeStatusKeeps(t, changeId, news, now);
    case Refused(_) =>
  }

  lemma DeliverKeepsEvents(t: Tables, a: Arrival)
    requires Linked(t)
    ensures forall id | id in t.events :: id in Deliver(t, a).0.events && Deliver(t, a).0.events[id] == t.events[id]
  {
  }

  lemma DeliverKeepsAccounts(t: Tables, a: Arrival)
    requires Linked(t) && EffectSafe(t, EffectOf(t, a.delivery, a.now))
    ensures var u := Deliver(t, a).0;
              Linked(u) && SameOrigin(t.accounts, u.accounts) && (UniqueKeys(t.accounts) ==> UniqueKeys(u.accounts))
  {
  }

  /** One delivery: no key or opening ARC changes, recorded events are final, links stay valid. */
  lemma DeliverKeeps(t: Tables, a: Arrival)
    requires Linked(t)
    ensures var u := Deliver(t, a).0;
              && Linked(u)
              && SameOrigin(t.accounts, u.accounts)
              && (UniqueKeys(t.accounts) ==> UniqueKeys(u.accounts))
              && (forall id | id in t.events :: id in u.events && u.events[id] == t.events[id])
  {
    EffectKeeps(t, a.delivery, a.now);
    DeliverKeepsAccounts(t, a);
    DeliverKeepsEvents(t, a);
  }

  // ---- whole runs ------------------------------------------------------------

  function Run(t: Tables, arrivals: seq<Arrival>): (u: Tables)
    requires Linked(t)
    ensures Linked(u)
    decreases arrivals
  {
    if arrivals == [] then t
    else
      var before := Run(t, arrivals[..|arrivals| - 1]);
      DeliverKeeps(before, arrivals[|arrivals| - 1]);
      Deliver(before, arrivals[|arrivals| - 1]).0
  }

  /** The arrival's attempt to insert its event id reaches the database. */
  predicate Reaches(a: Arrival) {
    EventId(a.delivery).Some? && a.fault != AtReservation
  }

  function IdsReached(arrivals: seq<Arrival>): set<string> {
    set a | a in arrivals && Reaches(a) :: EventId(a.delivery).value
  }

  /** The first arrival of each event id not in `known`. */
  function Firsts(known: set<string>, arrivals: seq<Arrival>): (firsts: seq<Arrival>)
    ensures forall a | a in firsts :: a in arrivals && Reaches(a)
  {
    if arrivals == [] then []
    else
      var rest, a := arrivals[..|arrivals| - 1], arrivals[|arrivals| - 1];
      if Reaches(a) && EventId(a.delivery).value !in known + IdsReached(rest) then Firsts(known, rest) + [a]
      else Firsts(known, rest)
  }

  lemma IdsReachedSnoc(rest: seq<Arrival>, a: Arrival)
    ensures IdsReached(rest + [a]) == IdsReached(rest) + if Reaches(a) then {EventId(a.delivery).value} else {}
  {
    assert forall b :: b in rest + [a] <==> b in rest || b == a;
  }

  lemma DeliverRecords(t: Tables, a: Arrival)
    requires Linked(t)
    ensures Deliver(t, a).0.events.Keys == t.events.Keys + if Reaches(a) then {EventId(a.delivery).value} else {}
  {
  }

  /** Exactly the ids that reached the database have an event row. */
  lemma {:induction false} EventRows(t: Tables, arrivals: seq<Arrival>)
    requires Linked(t)
    ensures Run(t, arrivals).events.Keys == t.events.Keys + IdsReached(arrivals)
  {
    if arrivals != [] {
      var rest, a := arrivals[..|arrivals| - 1], arrivals[|arrivals| - 1];
      assert arrivals == rest + [a];
      EventRows(t, rest);
      IdsReachedSnoc(rest, a);
      DeliverRecords(Run(t, rest), a);
    }
  }

  lemma {:induction false} FirstsAreDistinct(known: set<string>, arrivals: seq<Arrival>)
    ensures var f := Firsts(known, arrivals);
              && (forall i, j | 0 <= i < j < |f| :: EventId(f[i].delivery) != EventId(f[j].delivery))
              && IdsReached(f) == IdsReached(arrivals) - known
  {
    if arrivals != [] {
      var rest, a := arrivals[..|arrivals| - 1], arrivals[|arrivals| - 1];
      assert arrivals == rest + [a];
      FirstsAreDistinct(known, rest);
      IdsReachedSnoc(rest, a);
      IdsReachedSnoc(Firsts(known, rest), a);
      var f := Firsts(known, rest);
      forall i | 0 <= i < |f|
        ensures EventId(f[i].delivery).value in IdsReached(f)
      {
        assert f[i] in f;
      }
    }
  }

  /**
    At most once: over any sequence of deliveries, faults included, the tables end as if only
    the first delivery of each event id had arrived, each id once.
   */
  lemma {:induction false} AtMostOnce(t: Tables, arrivals: seq<Arrival>)
    requires Linked(t)
    ensures Run(t, arrivals) == Run(t, Firsts(t.events.Keys, arrivals))
    ensures var f := Firsts(t.events.Keys, arrivals);
              forall i, j | 0 <= i < j < |f| :: EventId(f[i].delivery) != EventId(f[j].delivery)
  {
    FirstsAreDistinct(t.events.Keys, arrivals);
    if arrivals != [] {
      var rest, a := arrivals[..|arrivals| - 1], arrivals[|arrivals| - 1];
      AtMostOnce(t, rest);
      EventRows(t, rest);
      var f := Firsts(t.events.Keys, rest);
      assert (f + [a])[..|f|] == f;
    }
  }

  lemma NeverCalledDuplicate(t: Tables, d: Delivery, now: Time)
    requires Linked(t)
    ensures EffectOf(t, d, now).Nothing? ==> !EffectOf(t, d, now).answer.Duplicate?
  {
  }

  /** One delivery that reaches the database is a duplicate exactly if its id is taken. */
  lemma DuplicateIffTaken(t: Tables, a: Arrival)
    requires Linked(t) && Reaches(a) && !a.delivery.Refused?
    ensures var id, answer := EventId(a.delivery).value, Deliver(t, a).1;
              && (answer.Duplicate? <==> id in t.events)
              && (id in t.events ==> answer.known == if a.delivery.Activated? then t.events[id].accountId else None)
  {
    NeverCalledDuplicate(t, a.delivery, a.now);
  }

  /** A repeat is answered as one, naming for an activation the account the first delivery linked. */
  lemma RepeatsAreDuplicates(t: Tables, arrivals: seq<Arrival>, k: nat)
    requires Linked(t) && k < |arrivals| && Reaches(arrivals[k]) && !arrivals[k].delivery.Refused?
    ensures var id := EventId(arrivals[k].delivery).value;
            var before := Run(t, arrivals[..k]);
            var answer := Deliver(before, arrivals[k]).1;
              && (answer.Duplicate? <==> id in t.events.Keys + IdsReached(arrivals[..k]))
              && (answer.Duplicate? ==> id in before.events)
              && (answer.Duplicate? ==> answer.known == if arrivals[k].delivery.Activated? then before.events[id].accountId else None)
  {
    EventRows(t, arrivals[..k]);
    DuplicateIffTaken(Run(t, arrivals[..k]), arrivals[k]);
  }

  /** An id whose first delivery failed stays failed: no redelivery of it is ever carried out. */
  lemma {:induction false} EventsAreFinal(t: Tables, arrivals: seq<Arrival>, id: string)
    requires Linked(t) && id in t.events
    ensures id in Run(t, arrivals).events && Run(t, arrivals).events[id] == t.events[id]
  {
    if arrivals != [] {
      var n := |arrivals| - 1;
      EventsAreFinal(t, arrivals[..n], id);
      DeliverKeeps(Run(t, arrivals[..n]), arrivals[n]);
    }
  }

  /** No run leaves two accounts with one CRM id or circuit, or rewrites an opening ARC. */
  lemma {:induction false} AccountsKeepTheirOrigin(t: Tables, arrivals: seq<Arrival>)
    requires Linked(t) && UniqueKeys(t.accounts)
    ensures UniqueKeys(Run(t, arrivals).accounts)
    ensures SameOrigin(t.accounts, Run(t, arrivals).accounts)
  {
    if arrivals != [] {
      var n := |arrivals| - 1;
      AccountsKeepTheirOrigin(t, arrivals[..n]);
      DeliverKeeps(Run(t, arrivals[..n]), arrivals[n]);
    }
  }
}
