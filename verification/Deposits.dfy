/** Deposits of the Transactions service: verification of a payment, and the webhooks that record its charge. */
module Deposits {
  import Calls
  import opened Money
  import opened Schema

  datatype DepositStatus = INITIATED | PROCESSING | COMPLETED | FAILED

  /** Nothing makes either HighLevel reference unique. The four optional columns are plain strings in the Go struct. */
  datatype Deposit = Deposit(clientId: Id, customerId: Id, merchantId: Id, amount: Stored, status: DepositStatus,
                             externalReference: Option<string>, failureReason: Option<string>,
                             ghlTransactionId: Option<string>, ghlChargeId: Option<string>)

  predicate Full(dep: Deposit) {
    dep.externalReference.Some? && dep.failureReason.Some? && dep.ghlTransactionId.Some? && dep.ghlChargeId.Some?
  }

  type Rows = map<Id, Deposit>

  datatype Result<+T> = Ok(value: T) | Error(code: Code)

  datatype Code = InvalidArgument | FailedPrecondition | NotFoundCode | AlreadyExists | InternalCode

  datatype Verdict = Verdict(success: bool, failed: bool)

  datatype VerifyRequest = VerifyRequest(transactionId: string, chargeId: string, subscriptionId: string)

  datatype Captured = Captured(eventType: string, transactionId: string, chargeId: string)

  // ---- Specification ----

  function ByTransaction(d: Rows, t: string): set<Id> { set i | i in d && d[i].ghlTransactionId == Some(t) }

  function ByCharge(d: Rows, c: string): set<Id> { set i | i in d && d[i].ghlChargeId == Some(c) }

  /** The deposits a verification may be about: by transaction first, by charge if that finds nothing. */
  function Candidates(d: Rows, t: string, c: string): set<Id> {
    if t != "" && ByTransaction(d, t) != {} then ByTransaction(d, t)
    else if c != "" then ByCharge(d, c)
    else {}
  }

  function VerdictOf(s: DepositStatus): Verdict {
    match s
    case COMPLETED => Verdict(true, false)
    case FAILED => Verdict(false, true)
    case _ => Verdict(false, false)
  }

  /** A driver that does not scan NULL into a plain string can read full rows only. */
  predicate Readable(nulls: bool, dep: Deposit) { nulls || Full(dep) }

  function ReplyAbout(nulls: bool, dep: Deposit): Result<Verdict> {
    if Readable(nulls, dep) then Ok(VerdictOf(dep.status)) else Error(InternalCode)
  }

  /** What VerifyPayment may reply when no statement fails. */
  ghost predicate Verifies(nulls: bool, d: Rows, req: VerifyRequest, r: Result<Verdict>) {
    var t, c := Trim(req.transactionId), Trim(req.chargeId);
    if Trim(req.subscriptionId) != "" then r == Error(FailedPrecondition)
    else if t == "" && c == "" then r == Error(InvalidArgument)
    else if Candidates(d, t, c) == {} then r == Error(NotFoundCode)
    else exists i :: i in Candidates(d, t, c) && r == ReplyAbout(nulls, d[i])
  }

  /** A capture that names a transaction and a charge records the charge on a readable deposit of that transaction. */
  ghost predicate Captures(nulls: bool, d: Rows, ev: Captured, d': Rows) {
    || d' == d
    || (&& Trim(ev.eventType) == "payment.captured" && !Blank(ev.transactionId) && ev.chargeId != ""
        && exists i :: i in ByTransaction(d, ev.transactionId) && Readable(nulls, d[i])
                       && d' == d[i := d[i].(ghlChargeId := Some(ev.chargeId))])
  }

  // ---- The service over its table ----

  /** The last two fields are what the table's constraints will find: the merchant row, and three capital letters. */
  datatype DepositRequest = DepositRequest(clientId: Id, merchantId: Id, amount: Option<Numeric>, currency: string,
                                           knownPaymentType: bool, phoneNumber: string, knownProvider: bool,
                                           merchantExists: bool, currencyFits: bool)

  /** A deposit nobody has paid: INITIATED, for the request's client and merchant and this customer, with nothing from
      the provider or HighLevel yet. */
  predicate Fresh(dep: Deposit, req: DepositRequest, customerId: Id) {
    && dep.clientId == req.clientId && dep.merchantId == req.merchantId && dep.customerId == customerId
    && dep.status == INITIATED && req.amount.Some? && Store(req.amount.value) == Some(dep.amount)
    && dep.externalReference.None? && dep.failureReason.None? && dep.ghlTransactionId.None? && dep.ghlChargeId.None?
  }

  function NewDeposit(req: DepositRequest, customerId: Id, amount: Stored): Deposit {
    Deposit(req.clientId, customerId, req.merchantId, amount, INITIATED, None, None, None, None)
  }

  predicate WellFormed(req: DepositRequest) {
    Accepted(req.amount) && !Blank(req.currency) && req.knownPaymentType && !Blank(req.phoneNumber) && req.knownProvider
  }

  /** What the table can take of a well-formed request. */
  predicate Fits(req: DepositRequest) {
    req.amount.Some? && Store(req.amount.value).Some? && req.merchantExists && req.currencyFits
  }

  /** Exactly one deposit was added, a fresh one of this request. */
  ghost predicate OneMore(before: Rows, after: Rows, req: DepositRequest, customerId: Id) {
    exists i: Id :: i !in before && i in after && after == before[i := after[i]] && Fresh(after[i], req, customerId)
  }

  /** The deposits table and the payment and deposit services on it. */
  class DepositTable {
    const takesNulls: bool  // whether the driver scans NULL into a plain string; pgx refuses to

    var rows: Rows
    var nextId: Id
    var failing: bool  // whether statements may fail outright

    ghost predicate Valid()
      reads this
    {
      forall i :: i in rows ==> i < nextId
    }

    predicate Scans(dep: Deposit) { Readable(takesNulls, dep) }

    /** Some row among these cannot be read. */
    ghost predicate Unreadable(ids: set<Id>)
      reads this
    {
      exists i :: i in ids && i in rows && !Scans(rows[i])
    }

    constructor (takesNulls: bool)
      ensures Valid() && rows == map[] && this.takesNulls == takesNulls
    {
      this.takesNulls := takesNulls;
      rows, nextId, failing := map[], 0, *;
    }

    // ---- The repository ----

    method GetByGHLTransactionID(t: string) returns (r: Result<Id>)
      ensures r.Ok? ==> r.value in ByTransaction(rows, t) && Scans(rows[r.value])
      ensures r.Error? ==>
                || (r.code == InternalCode && (failing || Unreadable(ByTransaction(rows, t))))
                || (r.code == NotFoundCode && ByTransaction(rows, t) == {})
    {
      r := OneOf(ByTransaction(rows, t));
    }

    method GetByGHLChargeID(c: string) returns (r: Result<Id>)
      ensures r.Ok? ==> r.value in ByCharge(rows, c) && Scans(rows[r.value])
      ensures r.Error? ==>
                || (r.code == InternalCode && (failing || Unreadable(ByCharge(rows, c))))
                || (r.code == NotFoundCode && ByCharge(rows, c) == {})
    {
      r := OneOf(ByCharge(rows, c));
    }

    /** A `:one` query returns whichever matching row comes first, if it can be scanned. */
    method OneOf(ids: set<Id>) returns (r: Result<Id>)
      requires ids <= rows.Keys
      ensures r.Ok? ==> r.value in ids && Scans(rows[r.value])
      ensures r.Error? ==> (r.code == InternalCode && (failing || Unreadable(ids))) || (r.code == NotFoundCode && ids == {})
    {
      var fault: bool := *;
      if failing && fault {
        r := Error(InternalCode);
      } else if ids == {} {
        r := Error(NotFoundCode);
      } else {
        var i :| i in ids;
        r := if Scans(rows[i]) then Ok(i) else Error(InternalCode);
      }
    }

    /** UPDATE ... RETURNING: what cannot be scanned has been updated all the same. */
    method UpdateGHLReference(id: Id, t: string, c: string) returns (r: Result<Id>)
      modifies this`rows
      ensures r.Ok? ==> id in old(rows) && rows == old(rows)[id := old(rows)[id].(ghlTransactionId := Some(t), ghlChargeId := Some(c))]
      ensures r.Error? ==>
                || (rows == old(rows) && ((failing && r.code == InternalCode) || (r.code == NotFoundCode && id !in rows)))
                || (&& r.code == InternalCode && id in old(rows)
                    && rows == old(rows)[id := old(rows)[id].(ghlTransactionId := Some(t), ghlChargeId := Some(c))] && !Scans(rows[id]))
    {
      var fault: bool := *;
      if failing && fault {
        r := Error(InternalCode);
      } else if id !in rows {
        r := Error(NotFoundCode);
      } else {
        rows := rows[id := rows[id].(ghlTransactionId := Some(t), ghlChargeId := Some(c))];
        r := if Scans(rows[id]) then Ok(id) else Error(InternalCode);
      }
    }

    /** INSERT ... RETURNING: the row leaves four columns NULL, so under a driver that refuses those it is committed and
        the caller gets an error. Otherwise an error means that nothing was inserted. */
    method Create(req: DepositRequest, customerId: Id) returns (r: Result<Id>)
      requires Valid() && req.amount.Some?
      modifies this`rows, this`nextId
      ensures Valid()
      ensures r.Ok? ==>
                && takesNulls && Fits(req) && r.value !in old(rows) && r.value in rows
                && rows == old(rows)[r.value := rows[r.value]] && Fresh(rows[r.value], req, customerId)
      ensures r.Error? ==>
                || rows == old(rows)
                || (&& r.code == InternalCode && !takesNulls && Fits(req)
                    && OneMore(old(rows), rows, req, customerId))
      ensures r == Error(NotFoundCode) ==> !Fits(req)
      ensures !failing ==> (rows != old(rows) <==> Fits(req)) && (r.Ok? <==> Fits(req) && takesNulls)
    {
      var fault: bool := *;
      if failing && fault {
        return Error(InternalCode);
      }
      match Store(req.amount.value)
      case None => r := Error(InternalCode);
      case Some(amount) =>
        if !req.merchantExists || !req.currencyFits {
          var tooLong: bool := *;  // the CHECK constraint reads as a missing reference, VARCHAR(3) does not
          return Error(if req.merchantExists && tooLong then InternalCode else NotFoundCode);
        }
        var dep := NewDeposit(req, customerId, amount);
        ghost var before := rows;
        assert nextId !in rows;
        rows := rows[nextId := dep];
        assert nextId in rows && OneMore(before, rows, req, customerId);
        r := if Scans(dep) then Ok(nextId) else Error(InternalCode);
        nextId := nextId + 1;
    }

    // ---- InitiateDeposit ----

    /** `customer` is what the customers table answers for this client, merchant and phone number. Unless statements
        fail, the deposit is inserted exactly if the request is well formed, its customer is known and the table can
        take it; but only a driver that takes NULLs lets the caller know. */
    method InitiateDeposit(req: DepositRequest, customer: Result<Id>) returns (r: Result<Text>)
      requires Valid()
      modifies this`rows, this`nextId
      ensures Valid()
      ensures !WellFormed(req) <==> r == Error(InvalidArgument)
      ensures WellFormed(req) && customer == Error(NotFoundCode) ==> r == Error(NotFoundCode)
      ensures r == Error(NotFoundCode) ==> WellFormed(req) && (customer == Error(NotFoundCode) || !Fits(req))
      ensures r.Ok? ==>
                && takesNulls && WellFormed(req) && customer.Ok? && Fits(req)
                && r.value == Shown(Store(req.amount.value).value)
                && OneMore(old(rows), rows, req, customer.value)
      ensures r.Error? ==>
                || rows == old(rows)
                || (&& r.code == InternalCode && !takesNulls && WellFormed(req) && customer.Ok? && Fits(req)
                    && OneMore(old(rows), rows, req, customer.value))
      ensures !failing ==>
                && (rows != old(rows) <==> WellFormed(req) && customer.Ok? && Fits(req))
                && (r.Ok? <==> WellFormed(req) && customer.Ok? && Fits(req) && takesNulls)
    {
      if !Accepted(req.amount) {
        return Error(InvalidArgument);
      }
      if Blank(req.currency) || !req.knownPaymentType || Blank(req.phoneNumber) || !req.knownProvider {
        return Error(InvalidArgument);
      }
      if customer.Error? {
        return Error(if customer.code == NotFoundCode then NotFoundCode else InternalCode);
      }
      var created := Create(req, customer.value);
      match created {
        case Error(code) => r := Error(if code == NotFoundCode then NotFoundCode else InternalCode);
        case Ok(id) => r := Ok(Shown(rows[id].amount));
      }
    }

    // ---- VerifyPayment ----

    method ResolveDeposit(t: string, c: string) returns (r: Result<Id>)
      ensures r.Ok? ==> r.value in Candidates(rows, t, c) && Scans(rows[r.value])
      ensures r.Error? ==>
                || (r.code == InternalCode && (failing || Unreadable(Candidates(rows, t, c))))
                || (r.code == NotFoundCode && Candidates(rows, t, c) == {})
    {
      if t != "" {
        r := GetByGHLTransactionID(t);
        if r.Ok? || r.code != NotFoundCode {
          return;
        }
      }
      if c != "" {
        r := GetByGHLChargeID(c);
        if r.Ok? || r.code != NotFoundCode {
          return;
        }
      }
      r := Error(NotFoundCode);
    }

    /** Success is a COMPLETED deposit of the request's, failure a FAILED one, and nothing else is either. */
    method VerifyPayment(req: VerifyRequest) returns (r: Result<Verdict>)
      ensures Verifies(takesNulls, rows, req, r) || (failing && r == Error(InternalCode))
      ensures r.Ok? ==>
                exists i :: i in Candidates(rows, Trim(req.transactionId), Trim(req.chargeId))
                  && (r.value.success <==> rows[i].status == COMPLETED) && (r.value.failed <==> rows[i].status == FAILED)
    {
      var t, c := Trim(req.transactionId), Trim(req.chargeId);
      if Trim(req.subscriptionId) != "" {
        return Error(FailedPrecondition);
      }
      if t == "" && c == "" {
        return Error(InvalidArgument);
      }
      var resolved := ResolveDeposit(t, c);
      match resolved {
        case Error(code) => r := Error(if code == NotFoundCode then NotFoundCode else InternalCode);
        case Ok(id) =>
          match rows[id].status
          case COMPLETED => r := Ok(Verdict(true, false));
          case FAILED => r := Ok(Verdict(false, true));
          case _ => r := Ok(Verdict(false, false));
      }
    }

    // ---- ProcessPaymentWebhook ----

    method ProcessPaymentWebhook(ev: Captured) returns (r: Result<()>)
      modifies this`rows
      ensures Captures(takesNulls, old(rows), ev, rows)
      ensures Trim(ev.eventType) == "" <==> r == Error(InvalidArgument)
      ensures !failing && !old(Unreadable(ByTransaction(rows, ev.transactionId))) ==> (r.Ok? <==> Trim(ev.eventType) != "")
      ensures r.Ok? && Trim(ev.eventType) == "payment.captured" && !Blank(ev.transactionId) && ev.chargeId != ""
              && ByTransaction(old(rows), ev.transactionId) != {} ==>
                exists i :: i in ByTransaction(old(rows), ev.transactionId) && Readable(takesNulls, old(rows)[i])
                  && rows == old(rows)[i := old(rows)[i].(ghlChargeId := Some(ev.chargeId))]
    {
      var eventType := Trim(ev.eventType);
      if eventType == "" {
        return Error(InvalidArgument);
      }
      if eventType != "payment.captured" {
        return Ok(());
      }
      if Trim(ev.transactionId) == "" {
        return Ok(());
      }
      var deposit := GetByGHLTransactionID(ev.transactionId);
      if deposit.Error? {
        if deposit.code == NotFoundCode {
          return Ok(());
        }
        return Error(InternalCode);
      }
      if ev.chargeId != "" {
        var row := rows[deposit.value];
        var updated := UpdateGHLReference(deposit.value, ev.transactionId, ev.chargeId);
        if updated.Error? {
          return Error(InternalCode);
        }
        assert row.(ghlTransactionId := Some(ev.transactionId), ghlChargeId := Some(ev.chargeId)) == row.(ghlChargeId := Some(ev.chargeId));
      }
      return Ok(());
    }
  }

  // ---- Any sequence of webhooks ----

  /** Tables that any number of payment webhooks, one after the other, can lead to. */
  ghost predicate CapturesAll(nulls: bool, d: Rows, events: seq<Captured>, d': Rows)
    decreases |events|
  {
    if events == [] then d' == d
    else exists m: Rows :: Captures(nulls, d, events[0], m) && CapturesAll(nulls, m, events[1..], d')
  }

  /** All but the charges of readable rows, and these stay readable. */
  ghost predicate SameButCharges(nulls: bool, d: Rows, d': Rows) {
    && d'.Keys == d.Keys
    && (forall i :: i in d ==> d'[i] == d[i].(ghlChargeId := d'[i].ghlChargeId))
    && (forall i :: i in d ==> if Readable(nulls, d[i]) then Readable(nulls, d'[i]) else d'[i] == d[i])
  }

  lemma CaptureTouchesACharge(nulls: bool, d: Rows, ev: Captured, d': Rows)
    requires Captures(nulls, d, ev, d')
    ensures SameButCharges(nulls, d, d')
  {
  }

  lemma SameButChargesComposes(nulls: bool, d: Rows, m: Rows, d': Rows)
    requires SameButCharges(nulls, d, m) && SameButCharges(nulls, m, d')
    ensures SameButCharges(nulls, d, d')
  {
    hide Readable;
  }

  lemma {:induction false} WebhooksTouchCharges(nulls: bool, d: Rows, events: seq<Captured>, d': Rows)
    requires CapturesAll(nulls, d, events, d')
    ensures SameButCharges(nulls, d, d')
    decreases |events|
  {
    hide Captures;
    if events != [] {
      var m :| Captures(nulls, d, events[0], m) && CapturesAll(nulls, m, events[1..], d');
      CaptureTouchesACharge(nulls, d, events[0], m);
      WebhooksTouchCharges(nulls, m, events[1..], d');
      SameButChargesComposes(nulls, d, m, d');
    }
  }

  /** No payment webhook ever changes a status, a transaction lookup, or what a verification of a known transaction is
      told: a verdict, or the internal error of a row that cannot be read. */
  lemma {:induction false} VerdictsAreStable(nulls: bool, d: Rows, events: seq<Captured>, d': Rows,
                                             req: VerifyRequest, r: Result<Verdict>)
    requires CapturesAll(nulls, d, events, d')
    ensures forall i :: i in d ==> i in d' && d'[i].status == d[i].status
    ensures forall t :: ByTransaction(d', t) == ByTransaction(d, t)
    ensures Trim(req.transactionId) != "" && ByTransaction(d, Trim(req.transactionId)) != {} ==>
              (Verifies(nulls, d', req, r) <==> Verifies(nulls, d, req, r))
  {
    WebhooksTouchCharges(nulls, d, events, d');
    forall t ensures ByTransaction(d', t) == ByTransaction(d, t) {
    }
    forall i | i in d ensures ReplyAbout(nulls, d'[i]) == ReplyAbout(nulls, d[i]) {
    }
  }

  /** Under a driver that refuses NULL no sequence of payment webhooks ever gives a deposit its first charge: what has
      none cannot be read, so the capture fails before it is recorded. Only a charge there is can be replaced. */
  lemma {:induction false} FirstChargesAreNeverRecorded(d: Rows, events: seq<Captured>, d': Rows)
    requires CapturesAll(false, d, events, d')
    ensures d'.Keys == d.Keys
    ensures forall i :: i in d && d[i].ghlChargeId.None? ==> d'[i] == d[i]
    ensures forall i :: i in d ==> (d'[i].ghlChargeId.Some? <==> d[i].ghlChargeId.Some?)
  {
    WebhooksTouchCharges(false, d, events, d');
  }

  /** The deposits a verification is about, by the columns: those of its transaction if it names one that is known, else
      those of its charge. */
  lemma CandidatesByColumn(d: Rows, t: string, c: string, i: Id)
    ensures i in Candidates(d, t, c) <==>
              && i in d
              && (if t != "" && exists j :: j in d && d[j].ghlTransactionId == Some(t) then d[i].ghlTransactionId == Some(t)
                  else c != "" && d[i].ghlChargeId == Some(c))
  {
    if j :| j in d && d[j].ghlTransactionId == Some(t) {
      assert j in ByTransaction(d, t);
    } else {
      assert ByTransaction(d, t) == {};
    }
  }

  /** Exactly the verdicts that say of a readable candidate whether it is COMPLETED and whether it is FAILED. */
  lemma VerdictsSayTheStatus(nulls: bool, d: Rows, req: VerifyRequest, success: bool, failed: bool)
    requires Trim(req.subscriptionId) == ""
    ensures Verifies(nulls, d, req, Ok(Verdict(success, failed))) <==>
              exists i :: i in Candidates(d, Trim(req.transactionId), Trim(req.chargeId)) && Readable(nulls, d[i])
                && (success <==> d[i].status == COMPLETED) && (failed <==> d[i].status == FAILED)
  {
    var r, ids := Ok(Verdict(success, failed)), Candidates(d, Trim(req.transactionId), Trim(req.chargeId));
    if Verifies(nulls, d, req, r) {
      var i :| i in ids && r == ReplyAbout(nulls, d[i]);
    } else if i :| i in ids && Readable(nulls, d[i]) && (success <==> d[i].status == COMPLETED) && (failed <==> d[i].status == FAILED) {
      assert r == ReplyAbout(nulls, d[i]);
    }
  }

  /** Success and failure exclude each other in every verdict; and what the query endpoint may be told is exactly what
      the status of some deposit gives. */
  lemma NeverBoth(nulls: bool, d: Rows, req: VerifyRequest, r: Result<Verdict>, success: bool, failed: bool)
    ensures Verifies(nulls, d, req, r) && r.Ok? ==> Calls.Exclusive(r.value.success, r.value.failed)
    ensures Calls.Exclusive(success, failed) <==> exists s :: VerdictOf(s) == Verdict(success, failed)
  {
    assert VerdictOf(COMPLETED) == Verdict(true, false) && VerdictOf(FAILED) == Verdict(false, true);
    assert VerdictOf(INITIATED) == Verdict(false, false);
  }

  // ---- Verifying by charge ----

  /** The charge belongs to the one deposit of the transaction, and to no other. */
  ghost predicate ChargeOf(d: Rows, t: string, c: string) {
    exists i :: ByTransaction(d, t) == {i} && ByCharge(d, c) == {i}
  }

  /** The event does not move the charge of this transaction, nor give this charge to another one. */
  predicate Respects(ev: Captured, t: string, c: string) {
    (ev.transactionId == t && ev.chargeId != "" ==> ev.chargeId == c) && (ev.chargeId == c ==> ev.transactionId == t)
  }

  /** A capture that is carried out for a transaction with one deposit, and with a charge nobody else has, ties them. */
  lemma CaptureTies(d: Rows, t: string, c: string, i: Id, d': Rows)
    requires ByTransaction(d, t) == {i} && ByCharge(d, c) <= {i} && d' == d[i := d[i].(ghlChargeId := Some(c))]
    ensures ChargeOf(d', t, c)
  {
    assert i in ByTransaction(d, t);
    assert ByTransaction(d', t) == {i};
    assert ByCharge(d', c) == {i};
  }

  lemma {:induction false} ChargeStays(nulls: bool, d: Rows, events: seq<Captured>, d': Rows, t: string, c: string)
    requires ChargeOf(d, t, c) && CapturesAll(nulls, d, events, d') && forall ev :: ev in events ==> Respects(ev, t, c)
    ensures ChargeOf(d', t, c)
    decreases |events|
  {
    if events != [] {
      var m :| Captures(nulls, d, events[0], m) && CapturesAll(nulls, m, events[1..], d');
      ChargeStaysOnce(nulls, d, events[0], m, t, c);
      ChargeStays(nulls, m, events[1..], d', t, c);
    }
  }

  lemma ChargeStaysOnce(nulls: bool, d: Rows, ev: Captured, d': Rows, t: string, c: string)
    requires ChargeOf(d, t, c) && Captures(nulls, d, ev, d') && Respects(ev, t, c)
    ensures ChargeOf(d', t, c)
  {
    var i :| ByTransaction(d, t) == {i} && ByCharge(d, c) == {i};
    assert i in ByTransaction(d, t) && i in ByCharge(d, c);
    assert ByTransaction(d', t) == {i};
    assert ByCharge(d', c) == {i};
  }

  /** Once a charge was captured for a transaction, verifying by the charge alone gives the verdict on the transaction,
      through any webhooks, until the transaction gets another charge or the charge another transaction. */
  lemma ChargeSpeaksForTransaction(nulls: bool, d: Rows, events: seq<Captured>, d': Rows,
                                   t: string, c: string, any: string, r: Result<Verdict>)
    requires t == Trim(t) && c == Trim(c) && t != "" && c != ""
    requires ChargeOf(d, t, c) && CapturesAll(nulls, d, events, d') && forall ev :: ev in events ==> Respects(ev, t, c)
    ensures Verifies(nulls, d', VerifyRequest("", c, ""), r) <==> Verifies(nulls, d', VerifyRequest(t, any, ""), r)
    ensures Verifies(nulls, d', VerifyRequest("", c, ""), r) <==> Verifies(nulls, d, VerifyRequest(t, any, ""), r)
  {
    ChargeStays(nulls, d, events, d', t, c);
    VerdictsAreStable(nulls, d, events, d', VerifyRequest(t, any, ""), r);
    var i :| ByTransaction(d', t) == {i} && ByCharge(d', c) == {i};
    assert Trim("") == "";
    assert Candidates(d', "", c) == {i};
    assert Candidates(d', t, Trim(any)) == {i};
  }

  // ---- What a fresh deployment can verify ----

  /** No deposit carries a HighLevel reference. */
  ghost predicate Unreferenced(d: Rows) {
    forall i :: i in d ==> d[i].ghlTransactionId == None && d[i].ghlChargeId == None
  }

  /** No deposit counts as paid, or as failed. */
  ghost predicate Undecided(d: Rows) {
    forall i :: i in d ==> d[i].status == INITIATED
  }

  /** What any request of the service may do to the table. */
  ghost predicate Serves(nulls: bool, d: Rows, d': Rows) {
    || (exists ev :: Captures(nulls, d, ev, d'))
    || (exists req, customerId :: OneMore(d, d', req, customerId))
  }

  ghost predicate Served(nulls: bool, history: seq<Rows>) {
    && history != [] && history[0] == map[]
    && forall k :: 0 < k < |history| ==> Serves(nulls, history[k - 1], history[k])
  }

  /** InitiateDeposit stores no reference and the webhooks need one to store another: starting from an empty table,
      no verification ever finds a transaction. And nothing moves a deposit on, so none ever counts as paid or failed. */
  lemma {:induction false} FreshDeploymentVerifiesNothing(nulls: bool, history: seq<Rows>, req: VerifyRequest, r: Result<Verdict>)
    requires Served(nulls, history) && Verifies(nulls, history[|history| - 1], req, r)
    ensures Unreferenced(history[|history| - 1]) && Undecided(history[|history| - 1]) && r.Error?
    decreases |history|
  {
    var d := history[|history| - 1];
    StaysUnreferenced(nulls, history);
    forall t, c ensures Candidates(d, t, c) == {} {
    }
  }

  lemma {:induction false} StaysUnreferenced(nulls: bool, history: seq<Rows>)
    requires Served(nulls, history)
    ensures Unreferenced(history[|history| - 1]) && Undecided(history[|history| - 1])
    decreases |history|
  {
    if |history| > 1 {
      var before := history[..|history| - 1];
      assert Served(nulls, before);
      StaysUnreferenced(nulls, before);
      assert Serves(nulls, history[|history| - 2], history[|history| - 1]);
    }
  }
}
