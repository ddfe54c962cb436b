/** Supplier invoices: the approval chain with its delegations, and the payments that follow it. */
module Purchases {
  import opened Results
  import opened Rounding
  import opened Calendar
  import opened Payments
  import opened Postings

  datatype Role = ADMIN | CHIEF_ACCOUNTANT | ACCOUNTANT | CASHIER | MANAGER | AUDITOR

  datatype BillStatus = RECEIVED | PARTIALLY_PAID | PAID | CANCELLED

  datatype ApprovalStatus =
    PENDING_LEVEL_1 | PENDING_LEVEL_2 | PENDING_LEVEL_3 | PENDING_LEVEL_4 | APPROVED | REJECTED

  datatype Action = APPROVE | REJECT

  /** A row of the approval log. */
  datatype Approval = Approval(level: int, action: Action, approvedBy: string, delegatedFrom: Option<string>)

  datatype Bill = Bill(number: string, supplier: string, due: int, subtotal: int, vat: int, total: int,
                       status: BillStatus, approval: ApprovalStatus, currentLevel: int, requiredLevel: int,
                       log: seq<Approval>, payments: seq<Payment>)

  datatype Delegation = Delegation(fromUser: string, toUser: string, startsAt: int, endsAt: int)

  /** Who belongs to the company in which role, and the delegations in the order of creation. */
  datatype Team = Team(members: map<string, Role>, delegations: seq<Delegation>)

  datatype Codes = Codes(expense: string, vat: string, payable: string)

  /** The authenticated caller of a request, with the role of the session. */
  datatype Actor = Actor(user: string, role: Role)

  // ---------------------------------------------------------------- levels, roles, delegations

  const LEVEL_4_THRESHOLD := 5_000_000

  function RequiredLevel(total: int): int
  {
    if total >= LEVEL_4_THRESHOLD then 4 else 3
  }

  predicate RoleAllowed(role: Role, level: int)
  {
    match level
    case 1 => role in {ADMIN, CHIEF_ACCOUNTANT, ACCOUNTANT}
    case 2 => role in {ADMIN, CHIEF_ACCOUNTANT, MANAGER}
    case 3 => role in {ADMIN, CHIEF_ACCOUNTANT}
    case 4 => role in {ADMIN, CHIEF_ACCOUNTANT}
    case _ => false
  }

  predicate Approver(role: Role)
  {
    exists level :: 1 <= level <= 4 && RoleAllowed(role, level)
  }

  function Pending(level: int): ApprovalStatus
  {
    match level
    case 1 => PENDING_LEVEL_1
    case 2 => PENDING_LEVEL_2
    case 3 => PENDING_LEVEL_3
    case _ => PENDING_LEVEL_4
  }

  predicate Live(d: Delegation, user: string, now: int)
  {
    d.toUser == user && d.startsAt <= now <= d.endsAt
  }

  /** findFirst ordered by startsAt, then createdAt, both descending. */
  function LatestDelegation(delegations: seq<Delegation>, user: string, now: int): Option<Delegation>
  {
    if delegations == [] then None
    else
      var best, last := LatestDelegation(delegations[..|delegations| - 1], user, now), delegations[|delegations| - 1];
      if Live(last, user, now) && (best.None? || best.value.startsAt <= last.startsAt) then Some(last) else best
  }

  /** It is live, and no live delegation to the user starts later. */
  lemma {:induction false} LatestIsLatest(delegations: seq<Delegation>, user: string, now: int)
    ensures var r := LatestDelegation(delegations, user, now);
      if r.None? then forall d :: d in delegations ==> !Live(d, user, now)
      else r.value in delegations && Live(r.value, user, now)
           && forall d :: d in delegations && Live(d, user, now) ==> d.startsAt <= r.value.startsAt
  {
    if delegations != [] {
      LatestIsLatest(delegations[..|delegations| - 1], user, now);
    }
  }

  /** Who acts on a level: the caller in his own role, or for the delegator of his latest live delegation. */
  function ResolveActor(team: Team, actor: Actor, level: int, now: int): Result<Option<string>>
  {
    if RoleAllowed(actor.role, level) then Ok(None)
    else
      var d := LatestDelegation(team.delegations, actor.user, now);
      if d.Some? && d.value.fromUser in team.members && RoleAllowed(team.members[d.value.fromUser], level)
      then Ok(Some(d.value.fromUser)) else Err(Forbidden)
  }

  /** The caller may act on a level: his role allows it, or a live delegation from a member whose role does. */
  predicate Authorised(team: Team, actor: Actor, delegatedFrom: Option<string>, level: int, now: int)
  {
    if delegatedFrom.None? then RoleAllowed(actor.role, level)
    else
      && (exists d :: d in team.delegations && d.fromUser == delegatedFrom.value && Live(d, actor.user, now))
      && delegatedFrom.value in team.members && RoleAllowed(team.members[delegatedFrom.value], level)
  }

  lemma ResolvedActorIsAuthorised(team: Team, actor: Actor, level: int, now: int)
    ensures ResolveActor(team, actor, level, now).Ok? ==>
              Authorised(team, actor, ResolveActor(team, actor, level, now).value, level, now)
  {
    LatestIsLatest(team.delegations, actor.user, now);
    hide LatestDelegation, RoleAllowed;
  }

  /** Delegation k is live, none live starts later, and none created after it starts at the same time. */
  predicate IsLatest(delegations: seq<Delegation>, k: nat, user: string, now: int)
  {
    && k < |delegations| && Live(delegations[k], user, now)
    && forall i :: 0 <= i < |delegations| && Live(delegations[i], user, now) ==>
         || delegations[i].startsAt < delegations[k].startsAt
         || (delegations[i].startsAt == delegations[k].startsAt && i <= k)
  }

  lemma {:induction false} LatestFound(delegations: seq<Delegation>, user: string, now: int) returns (k: nat)
    ensures LatestDelegation(delegations, user, now).Some? ==>
              IsLatest(delegations, k, user, now) && LatestDelegation(delegations, user, now) == Some(delegations[k])
  {
    k := 0;
    if delegations != [] {
      var front, last := delegations[..|delegations| - 1], delegations[|delegations| - 1];
      LatestIsLatest(front, user, now);
      k := LatestFound(front, user, now);
      var best := LatestDelegation(front, user, now);
      if Live(last, user, now) && (best.None? || best.value.startsAt <= last.startsAt) {
        k := |delegations| - 1;
      }
    }
  }

  /** The delegator is a member whose role allows the level. */
  predicate Entitles(team: Team, d: Delegation, level: int)
  {
    d.fromUser in team.members && RoleAllowed(team.members[d.fromUser], level)
  }

  /**
    A caller entitled by some live delegation, but not by his own role, is let through if and only if the latest of
    his live delegations entitles him.
  */
  lemma EntitledIffLatestEntitles(team: Team, actor: Actor, delegator: string, level: int, now: int) returns (k: nat)
    requires Authorised(team, actor, Some(delegator), level, now) && !RoleAllowed(actor.role, level)
    ensures IsLatest(team.delegations, k, actor.user, now)
    ensures ResolveActor(team, actor, level, now).Ok? <==> Entitles(team, team.delegations[k], level)
  {
    LatestIsLatest(team.delegations, actor.user, now);
    k := LatestFound(team.delegations, actor.user, now);
    hide LatestDelegation, RoleAllowed, IsLatest;
  }

  lemma LatestIsUnique(delegations: seq<Delegation>, i: nat, k: nat, user: string, now: int)
    requires IsLatest(delegations, i, user, now) && IsLatest(delegations, k, user, now)
    ensures i == k
  {
  }

  /** His role allows the level, or the latest of his live delegations entitles him. */
  ghost predicate Entitled(team: Team, actor: Actor, level: int, now: int)
  {
    || RoleAllowed(actor.role, level)
    || exists k: nat :: IsLatest(team.delegations, k, actor.user, now) && Entitles(team, team.delegations[k], level)
  }

  lemma ResolvesIffEntitled(team: Team, actor: Actor, level: int, now: int)
    ensures ResolveActor(team, actor, level, now).Ok? <==> Entitled(team, actor, level, now)
  {
    LatestIsLatest(team.delegations, actor.user, now);
    var k := LatestFound(team.delegations, actor.user, now);
    hide LatestDelegation, RoleAllowed, IsLatest;
    forall i: nat | IsLatest(team.delegations, i, actor.user, now)
      ensures i < |team.delegations| && Live(team.delegations[i], actor.user, now)
      ensures IsLatest(team.delegations, k, actor.user, now) ==> i == k
    {
      LatestIsLive(team.delegations, i, actor.user, now);
      if IsLatest(team.delegations, k, actor.user, now) {
        LatestIsUnique(team.delegations, i, k, actor.user, now);
      }
    }
  }

  lemma LatestIsLive(delegations: seq<Delegation>, i: nat, user: string, now: int)
    requires IsLatest(delegations, i, user, now)
    ensures i < |delegations| && Live(delegations[i], user, now)
  {
  }

  /** Who acts on which level: administrators and chief accountants on all, accountants and managers on their own. */
  lemma RoleLevels(role: Role, level: int)
    ensures RoleAllowed(role, level) <==>
              || (1 <= level <= 4 && (role == ADMIN || role == CHIEF_ACCOUNTANT))
              || (role == ACCOUNTANT && level == 1) || (role == MANAGER && level == 2)
    ensures Approver(role) <==> role !in {CASHIER, AUDITOR}
  {
    assert RoleAllowed(ADMIN, 1) && RoleAllowed(CHIEF_ACCOUNTANT, 1) && RoleAllowed(ACCOUNTANT, 1);
    assert RoleAllowed(MANAGER, 2);
  }

  /** With at most one live delegation a caller is let through exactly when he is authorised. */
  lemma OneDelegationSuffices(team: Team, actor: Actor, level: int, now: int)
    requires forall d, e :: d in team.delegations && e in team.delegations ==>
               Live(d, actor.user, now) && Live(e, actor.user, now) ==> d == e
    ensures ResolveActor(team, actor, level, now).Ok? <==>
              exists delegatedFrom :: Authorised(team, actor, delegatedFrom, level, now)
  {
    ResolvedActorIsAuthorised(team, actor, level, now);
    LatestIsLatest(team.delegations, actor.user, now);
    hide LatestDelegation, RoleAllowed;
    if RoleAllowed(actor.role, level) {
      assert Authorised(team, actor, None, level, now);
    }
  }

  /** Only the latest delegation counts: an older one from an allowed role does not help behind it. */
  lemma OlderDelegationIsShadowed(users: (string, string, string), now: int)
    requires users.0 != users.1
    ensures var actor := Actor(users.2, AUDITOR);
      var team := Team(map[users.0 := ADMIN, users.1 := MANAGER],
                       [Delegation(users.0, users.2, now - 2, now), Delegation(users.1, users.2, now - 1, now)]);
      Authorised(team, actor, Some(users.0), 3, now) && ResolveActor(team, actor, 3, now) == Err(Forbidden)
  {
    var older, later := Delegation(users.0, users.2, now - 2, now), Delegation(users.1, users.2, now - 1, now);
    assert [older, later][..1] == [older] && [older][..0] == [];
    assert LatestDelegation([older], users.2, now) == Some(older);
    assert LatestDelegation([older, later], users.2, now) == Some(later);
    assert older in [older, later];
  }

  /** The delegation route: for oneself, or by an administrator, from an approver to another member. */
  function Delegate(team: Team, actor: Actor, d: Delegation): Result<Team>
  {
    if d.endsAt <= d.startsAt || d.toUser == d.fromUser then Err(BadRequest)
    else if d.fromUser != actor.user && actor.role != ADMIN then Err(Forbidden)
    else if d.fromUser !in team.members || d.toUser !in team.members || !Approver(team.members[d.fromUser])
    then Err(BadRequest)
    else if exists e :: e in team.delegations && e.fromUser == d.fromUser && e.toUser == d.toUser
                        && e.startsAt == d.startsAt
    then Err(Conflict)
    else Ok(team.(delegations := team.delegations + [d]))
  }

  // ---------------------------------------------------------------- create, approve, reject, pay

  /** What is refused before the database is looked at. */
  predicate Malformed(received: Date, due: int, subtotal: int, vat: int)
  {
    subtotal < 0 || vat < 0 || due < received.time
  }

  /** Amounts come in parts of a cent: each is rounded to cents on its own, the total from their sum. */
  function NewBill(suppliers: set<string>, number: string, supplier: string, received: Date, due: int,
                   subtotal: int, vat: int, parts: Grid): Result<Bill>
  {
    if Malformed(received, due, subtotal, vat) || supplier !in suppliers then Err(BadRequest)
    else
      var total := RoundDiv(subtotal + vat, parts);
      Ok(Bill(number, supplier, due, RoundDiv(subtotal, parts), RoundDiv(vat, parts), total, RECEIVED,
              PENDING_LEVEL_1, 1, RequiredLevel(total), [], []))
  }

  function Clamp(level: int): int
  {
    Min(Max(level, 1), 4)
  }

  function Approve(bill: Bill, team: Team, actor: Actor, now: int): Result<Bill>
  {
    if bill.status == CANCELLED || bill.status == PAID then Err(BadRequest)
    else if bill.approval == APPROVED then Err(Conflict)
    else if bill.approval == REJECTED then Err(BadRequest)
    else
      var current := Clamp(bill.currentLevel);
      var required := Clamp(if bill.requiredLevel == 0 then 1 else bill.requiredLevel);
      var resolved := ResolveActor(team, actor, current, now);
      if resolved.Err? then Err(resolved.error)
      else
        var log := bill.log + [Approval(current, APPROVE, actor.user, resolved.value)];
        var next := Min(current + 1, 4);
        if current >= required
        then Ok(bill.(log := log, approval := APPROVED, currentLevel := required, requiredLevel := required))
        else Ok(bill.(log := log, approval := Pending(next), currentLevel := next, requiredLevel := required))
  }

  function Reject(bill: Bill, team: Team, actor: Actor, now: int): Result<Bill>
  {
    if bill.status == CANCELLED || bill.status == PAID then Err(BadRequest)
    else if bill.approval == APPROVED && |bill.payments| > 0 then Err(BadRequest)
    else if bill.approval == REJECTED then Err(Conflict)
    else
      var current := Clamp(bill.currentLevel);
      var resolved := ResolveActor(team, actor, current, now);
      if resolved.Err? then Err(resolved.error)
      else Ok(bill.(log := bill.log + [Approval(current, REJECT, actor.user, resolved.value)], approval := REJECTED))
  }

  function Settle(bill: Bill, payment: Payment): Bill
  {
    var paidAfter := Paid(bill.payments) + payment.amount;
    bill.(payments := bill.payments + [payment], status := if paidAfter >= bill.total then PAID else PARTIALLY_PAID)
  }

  function Pay(bill: Bill, amount: nat): Result<Bill>
  {
    if bill.status != RECEIVED && bill.status != PARTIALLY_PAID then Err(BadRequest)
    else if bill.approval != APPROVED then Err(BadRequest)
    else if amount > Open(bill.total, bill.payments) then Err(BadRequest)
    else Ok(Settle(bill, Payment(amount, None)))
  }

  /** Reconciling a bank line looks at nothing but the open amount: not even at the approval. */
  function Reconcile(bill: Bill, amount: nat, line: nat): Result<Bill>
  {
    if amount > Open(bill.total, bill.payments) then Err(BadRequest)
    else Ok(Settle(bill, Payment(amount, Some(line))))
  }

  // ---------------------------------------------------------------- what every step keeps

  /** The log is one approval at each of the levels 1 to n, in this order. */
  predicate ApprovedUpTo(log: seq<Approval>, n: int)
  {
    |log| == n && forall k :: 0 <= k < n ==> log[k].level == k + 1 && log[k].action == APPROVE
  }

  predicate EndsRejected(log: seq<Approval>, level: int)
  {
    && |log| > 0
    && log[|log| - 1].level == level && log[|log| - 1].action == REJECT
  }

  /** The log behind each approval status. */
  predicate ChainInvariant(bill: Bill)
  {
    && bill.requiredLevel == RequiredLevel(bill.total)
    && 1 <= bill.currentLevel <= bill.requiredLevel
    && match bill.approval
       case APPROVED => bill.currentLevel == bill.requiredLevel && ApprovedUpTo(bill.log, bill.requiredLevel)
       case REJECTED =>
         && EndsRejected(bill.log, bill.currentLevel)
         && var approved := bill.log[..|bill.log| - 1];
            || ApprovedUpTo(approved, bill.currentLevel - 1)
            || (bill.currentLevel == bill.requiredLevel && ApprovedUpTo(approved, bill.requiredLevel))
       case _ => bill.approval == Pending(bill.currentLevel) && ApprovedUpTo(bill.log, bill.currentLevel - 1)
  }

  predicate PaymentInvariant(bill: Bill)
  {
    && 0 <= bill.subtotal && 0 <= bill.vat && 0 <= bill.total
    && -1 <= bill.total - (bill.subtotal + bill.vat) <= 1
    && Paid(bill.payments) <= bill.total
    && bill.status == (if bill.payments == [] then RECEIVED
                       else if Paid(bill.payments) >= bill.total then PAID else PARTIALLY_PAID)
  }

  /** A payment made through the purchases route belongs to an approved invoice. */
  predicate PaidAfterApproval(bill: Bill)
  {
    (exists p :: p in bill.payments && p.line.None?) ==> bill.approval == APPROVED
  }

  predicate BillInvariant(bill: Bill)
  {
    ChainInvariant(bill) && PaymentInvariant(bill) && PaidAfterApproval(bill)
  }

  lemma NewBillInvariant(suppliers: set<string>, number: string, supplier: string, received: Date, due: int,
                         subtotal: int, vat: int, parts: Grid)
    requires NewBill(suppliers, number, supplier, received, due, subtotal, vat, parts).Ok?
    ensures BillInvariant(NewBill(suppliers, number, supplier, received, due, subtotal, vat, parts).value)
  {
    RoundedApart(subtotal, vat, parts);
    RoundsToNothing(subtotal, parts);
    RoundsToNothing(vat, parts);
    RoundsToNothing(subtotal + vat, parts);
    hide RoundDiv;
  }

  /** Between 1 and the required level the clamps and the fallback of the level arithmetic never bite. */
  lemma ClampsNeverBite(bill: Bill)
    requires ChainInvariant(bill)
    ensures Clamp(bill.currentLevel) == bill.currentLevel && Clamp(bill.requiredLevel) == bill.requiredLevel
    ensures bill.currentLevel < bill.requiredLevel ==> Min(bill.currentLevel + 1, 4) == bill.currentLevel + 1
  {
  }

  /** The log has one row more, at the current level, by someone authorised; amounts and payments are as they were. */
  predicate Decided(bill: Bill, after: Bill, team: Team, actor: Actor, action: Action, now: int)
  {
    && |after.log| == |bill.log| + 1 && after.log[..|bill.log|] == bill.log
    && var row := after.log[|bill.log|];
       && row.level == bill.currentLevel && row.action == action && row.approvedBy == actor.user
       && Authorised(team, actor, row.delegatedFrom, row.level, now)
       && after == bill.(log := after.log, approval := after.approval, currentLevel := after.currentLevel)
  }

  lemma ApproveKeepsInvariant(bill: Bill, team: Team, actor: Actor, now: int)
    requires BillInvariant(bill) && Approve(bill, team, actor, now).Ok?
    ensures BillInvariant(Approve(bill, team, actor, now).value)
    ensures bill.approval == Pending(bill.currentLevel)
    ensures Decided(bill, Approve(bill, team, actor, now).value, team, actor, APPROVE, now)
    ensures var after := Approve(bill, team, actor, now).value;
      if bill.currentLevel == bill.requiredLevel
      then after.approval == APPROVED && after.currentLevel == bill.currentLevel
      else after.approval == Pending(bill.currentLevel + 1) && after.currentLevel == bill.currentLevel + 1
  {
    ResolvedActorIsAuthorised(team, actor, bill.currentLevel, now);
    hide ResolveActor, Authorised, Paid;
    ClampsNeverBite(bill);
  }

  lemma RejectKeepsInvariant(bill: Bill, team: Team, actor: Actor, now: int)
    requires BillInvariant(bill) && Reject(bill, team, actor, now).Ok?
    ensures BillInvariant(Reject(bill, team, actor, now).value)
    ensures Decided(bill, Reject(bill, team, actor, now).value, team, actor, REJECT, now)
    ensures var after := Reject(bill, team, actor, now).value;
      after.approval == REJECTED && after.currentLevel == bill.currentLevel
    ensures bill.approval == Pending(bill.currentLevel) || (bill.approval == APPROVED && bill.payments == [])
  {
    ResolvedActorIsAuthorised(team, actor, bill.currentLevel, now);
    hide ResolveActor, Authorised, Paid;
    ClampsNeverBite(bill);
    var after := Reject(bill, team, actor, now).value;
    assert after.log[..|after.log| - 1] == bill.log;
  }

  /** Paid in full: with one payment at least, even if the total is 0. */
  predicate PaidInFull(bill: Bill)
  {
    bill.payments != [] && Paid(bill.payments) >= bill.total
  }

  /** An approval is taken if and only if the invoice is pending, not paid in full, and the caller entitled. */
  lemma ApprovalTaken(bill: Bill, team: Team, actor: Actor, now: int)
    requires BillInvariant(bill)
    ensures Approve(bill, team, actor, now).Ok? <==>
              && bill.approval != APPROVED && bill.approval != REJECTED && !PaidInFull(bill)
              && Entitled(team, actor, bill.currentLevel, now)
  {
    ResolvesIffEntitled(team, actor, bill.currentLevel, now);
    ClampsNeverBite(bill);
    hide ResolveActor, Entitled, Paid;
  }

  /** So is a rejection, which also takes back an approval as long as nothing is paid. */
  lemma RejectionTaken(bill: Bill, team: Team, actor: Actor, now: int)
    requires BillInvariant(bill)
    ensures Reject(bill, team, actor, now).Ok? <==>
              && bill.approval != REJECTED && (bill.approval == APPROVED ==> bill.payments == []) && !PaidInFull(bill)
              && Entitled(team, actor, bill.currentLevel, now)
  {
    ResolvesIffEntitled(team, actor, bill.currentLevel, now);
    ClampsNeverBite(bill);
    hide ResolveActor, Entitled, Paid;
  }

  /** The invoice with one payment more: PAID if that is all of the total, PARTIALLY_PAID if it is less. */
  predicate PaidMore(bill: Bill, after: Bill, payment: Payment)
  {
    && after == bill.(payments := after.payments, status := after.status)
    && after.payments == bill.payments + [payment]
    && after.status == if Paid(bill.payments) + payment.amount == bill.total then PAID else PARTIALLY_PAID
  }

  /** The pay route takes any amount up to what is open on an approved invoice that is not paid in full. */
  lemma PaymentTaken(bill: Bill, amount: nat)
    requires BillInvariant(bill)
    ensures Pay(bill, amount).Ok? <==>
              bill.approval == APPROVED && !PaidInFull(bill) && Paid(bill.payments) + amount <= bill.total
    ensures Pay(bill, amount).Ok? ==> PaidMore(bill, Pay(bill, amount).value, Payment(amount, None))
  {
    hide Paid;
  }

  /** Reconciling takes any amount up to what is open, whatever the approval. */
  lemma ReconciliationTaken(bill: Bill, amount: nat, line: nat)
    requires BillInvariant(bill)
    ensures Reconcile(bill, amount, line).Ok? <==> Paid(bill.payments) + amount <= bill.total
    ensures Reconcile(bill, amount, line).Ok? ==>
              PaidMore(bill, Reconcile(bill, amount, line).value, Payment(amount, Some(line)))
  {
    hide Paid;
  }

  lemma SettleKeepsInvariant(bill: Bill, payment: Payment)
    requires BillInvariant(bill) && payment.amount <= Open(bill.total, bill.payments)
    requires payment.line.None? ==> bill.approval == APPROVED
    ensures BillInvariant(Settle(bill, payment))
    ensures Open(bill.total, Settle(bill, payment).payments) == Open(bill.total, bill.payments) - payment.amount
  {
    PaidAppend(bill.payments, payment);
    hide Paid;
  }

  /** RECEIVED, PARTIALLY_PAID and PAID say that nothing, a part, or all of the total is paid. */
  predicate StatusTellsPaid(bill: Bill)
  {
    && (bill.status == RECEIVED <==> Paid(bill.payments) == 0)
    && (bill.status == PARTIALLY_PAID <==> 0 < Paid(bill.payments) < bill.total)
    && (bill.status == PAID <==> 0 < Paid(bill.payments) == bill.total)
  }

  /** They do exactly while there is no payment, or something is paid. */
  lemma StatusMeansPaid(bill: Bill)
    requires PaymentInvariant(bill)
    ensures StatusTellsPaid(bill) <==> bill.payments == [] || Paid(bill.payments) > 0
  {
    if bill.payments == [] {
      NothingPaid();
    }
    hide Paid;
  }

  lemma NothingPaid()
    ensures Paid([]) == 0
  {
  }

  /** After a payment by either route the status is truthful if and only if at least a cent is paid in all. */
  lemma PaymentKeepsStatusTrue(bill: Bill, payment: Payment)
    requires PaymentInvariant(bill) && payment.amount <= Open(bill.total, bill.payments)
    ensures StatusTellsPaid(Settle(bill, payment)) <==> Paid(bill.payments) + payment.amount >= 1
    ensures bill.status == RECEIVED ==> (StatusTellsPaid(Settle(bill, payment)) <==> payment.amount >= 1)
  {
    PaidAppend(bill.payments, payment);
    NothingPaid();
    hide Paid;
    StatusMeansPaid(Settle(bill, payment));
  }

  predicate PaidMeansApproved(bill: Bill)
  {
    bill.payments != [] ==> bill.approval == APPROVED
  }

  /** Reconciling keeps paid invoices approved exactly when the invoice is approved, which it does not check. */
  lemma ReconcileKeepsApproval(bill: Bill, amount: nat, line: nat)
    requires Reconcile(bill, amount, line).Ok?
    ensures PaidMeansApproved(Reconcile(bill, amount, line).value) <==> bill.approval == APPROVED
  {
    assert Reconcile(bill, amount, line).value.payments[|bill.payments|] == Payment(amount, Some(line));
  }

  /** Approved with any payment means approved for good: neither route accepts it again. */
  lemma PaidApprovalIsFinal(bill: Bill, team: Team, actor: Actor, now: int)
    ensures bill.approval == APPROVED && bill.payments != [] ==>
              Approve(bill, team, actor, now).Err? && Reject(bill, team, actor, now).Err?
  {
  }

  /**
    An invoice received, partly paid by reconciling a bank line before any approval, and then rejected:
    a rejected invoice with a payment. The purchases routes alone cannot produce one.
  */
  lemma ReconciledThenRejected(number: string, supplier: string, total: int, amount: nat, line: nat, actor: Actor,
                               now: int)
    requires 0 < amount < total && actor.role == ADMIN
    ensures var team := Team(map[], []);
      var received := NewBill({supplier}, number, supplier, Date(0, now), now, total, 0, 1);
      && received.Ok? && Pay(received.value, amount).Err?
      && var paid := Reconcile(received.value, amount, line);
      && paid.Ok? && Reject(paid.value, team, actor, now).Ok?
      && var rejected := Reject(paid.value, team, actor, now).value;
         rejected.approval == REJECTED && Paid(rejected.payments) == amount
  {
    var payment := Payment(amount, Some(line));
    WholeCentsAgree(total, 0);
    assert [payment][..0] == [];
    assert Paid([payment]) == amount;
    assert [] + [payment] == [payment];
  }

  // ---------------------------------------------------------------- what the routes post

  /** The VAT line is posted when the VAT of the request is above zero, even where it rounds to none. */
  function BillLines(bill: Bill, vatLine: bool, codes: Codes): seq<Line>
  {
    if vatLine then
      [Line(codes.expense, bill.subtotal, 0), Line(codes.vat, bill.vat, 0), Line(codes.payable, 0, bill.total)]
    else [Line(codes.expense, bill.subtotal, 0), Line(codes.payable, 0, bill.total)]
  }

  function PaymentLines(amount: nat, bank: string, payable: string): seq<Line>
  {
    [Line(payable, amount, 0), Line(bank, 0, amount)]
  }

  lemma BillLinesSums(bill: Bill, vatLine: bool, codes: Codes)
    ensures Balanced(BillLines(bill, vatLine, codes)) <==>
              bill.subtotal + (if vatLine then bill.vat else 0) == bill.total
    ensures codes.expense != codes.payable && codes.vat != codes.payable ==>
              OnAccount(BillLines(bill, vatLine, codes), codes.payable) == -bill.total
  {
    if vatLine {
      SumsOfThree(BillLines(bill, vatLine, codes));
    } else {
      SumsOfTwo(BillLines(bill, vatLine, codes));
    }
    hide Debits, Credits, OnAccount;
  }

  /** A supplier invoice debits its subtotal to expense and its VAT to VAT, and credits its total to the payables. */
  lemma BillPosts(bill: Bill, vatLine: bool, codes: Codes, account: string)
    requires !vatLine ==> bill.vat == 0
    ensures OnAccount(BillLines(bill, vatLine, codes), account)
         == At(account, codes.expense, bill.subtotal) + At(account, codes.vat, bill.vat)
            - At(account, codes.payable, bill.total)
  {
    if vatLine {
      SumsOfThree(BillLines(bill, vatLine, codes));
    } else {
      SumsOfTwo(BillLines(bill, vatLine, codes));
    }
    hide Debits, Credits, OnAccount;
  }

  /** A payment takes its amount off the payables and off the bank. */
  lemma PaymentPosts(amount: nat, bank: string, payable: string, account: string)
    ensures OnAccount(PaymentLines(amount, bank, payable), account)
         == At(account, payable, amount) - At(account, bank, amount)
  {
    SumsOfTwo(PaymentLines(amount, bank, payable));
    hide Debits, Credits, OnAccount;
  }

  /** A new supplier invoice carries subtotal, VAT and their sum, each to the nearest cent; without VAT it has none. */
  lemma NewBillAmounts(suppliers: set<string>, number: string, supplier: string, received: Date, due: int,
                       subtotal: int, vat: int, parts: Grid)
    requires NewBill(suppliers, number, supplier, received, due, subtotal, vat, parts).Ok?
    ensures var bill := NewBill(suppliers, number, supplier, received, due, subtotal, vat, parts).value;
      && bill.number == number && bill.supplier == supplier && bill.due == due
      && 2 * subtotal - parts < 2 * (parts * bill.subtotal) <= 2 * subtotal + parts
      && 2 * vat - parts < 2 * (parts * bill.vat) <= 2 * vat + parts
      && 2 * (subtotal + vat) - parts < 2 * (parts * bill.total) <= 2 * (subtotal + vat) + parts
      && (vat == 0 ==> bill.vat == 0)
      && bill.requiredLevel == (if bill.total >= 5_000_000 then 4 else 3)
  {
    RoundDivBounds(subtotal, parts);
    RoundDivBounds(vat, parts);
    RoundDivBounds(subtotal + vat, parts);
    NothingRounds(parts);
    hide RoundDiv;
  }

  /** The posted entry balances if and only if the remainders of subtotal and VAT round apart as they do together. */
  lemma BillLinesBalance(suppliers: set<string>, number: string, supplier: string, received: Date, due: int,
                         subtotal: int, vat: int, parts: Grid, codes: Codes)
    requires NewBill(suppliers, number, supplier, received, due, subtotal, vat, parts).Ok?
    ensures var bill := NewBill(suppliers, number, supplier, received, due, subtotal, vat, parts).value;
      && (Balanced(BillLines(bill, vat > 0, codes)) <==> PartsAgree(subtotal, vat, parts))
      && (parts == 1 ==> Balanced(BillLines(bill, vat > 0, codes)))
      && (codes.expense != codes.payable && codes.vat != codes.payable ==>
            OnAccount(BillLines(bill, vat > 0, codes), codes.payable) == -bill.total)
  {
    var bill := NewBill(suppliers, number, supplier, received, due, subtotal, vat, parts).value;
    BillLinesSums(bill, vat > 0, codes);
    RoundedApart(subtotal, vat, parts);
    WholeCentsAgree(subtotal, vat);
    if vat == 0 {
      NothingRounds(parts);
    }
    hide RoundDiv, PartsAgree, Balanced, BillLines, OnAccount;
  }

  lemma NothingRounds(parts: Grid)
    ensures RoundDiv(0, parts) == 0
  {
    RoundDivBetween(0, 0, 0, parts);
  }

  /** A subtotal of 10.004 with VAT of 1.904 posts 10.00 and 1.90 against 11.91. */
  lemma SupplierInvoiceOutByACent(number: string, supplier: string, now: int, codes: Codes)
    ensures var bill := NewBill({supplier}, number, supplier, Date(0, now), now, 10_004, 1_904, 10);
      && bill.Ok? && bill.value.subtotal == 1_000 && bill.value.vat == 190 && bill.value.total == 1_191
      && !Balanced(BillLines(bill.value, true, codes))
  {
    RoundByRemainder(10_004, 10);
    RoundByRemainder(1_904, 10);
    RoundByRemainder(11_908, 10);
    hide RoundDiv;
    BillLinesSums(NewBill({supplier}, number, supplier, Date(0, now), now, 10_004, 1_904, 10).value, true, codes);
  }

  lemma PaymentLinesBalance(amount: nat, bank: string, payable: string)
    ensures Balanced(PaymentLines(amount, bank, payable))
    ensures bank != payable ==> OnAccount(PaymentLines(amount, bank, payable), payable) == amount
  {
    SumsOfTwo(PaymentLines(amount, bank, payable));
    hide Debits, Credits, OnAccount;
  }
}
