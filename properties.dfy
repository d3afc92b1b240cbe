/** Properties of the pledge-transaction lifecycle that relate several calls:
    what the idempotency gate does and does not stop, what a half-done capture
    leaves behind, repeated voids, the two worked scenarios, and what holds
    along any sequence of checkouts, captures and voids. */
module LifecycleProperties {
  import opened Records
  import opened Lifecycle

  // ---------------------------------------------------------------------------
  // storeTransaction
  // ---------------------------------------------------------------------------

  /** Storing the same pending data twice adds the funds twice: the gate only
      stops a row that is already completed. */
  lemma PendingRestoreAddsFundsAgain(l: Ledger, d: TxnData, project: int)
    requires project in l.funds && d.status == Pending && !AlreadyCompleted(l, d.txnId)
    ensures var first := Store(l, d, project);
            var second := Store(first.ledger, d, project);
            && first.data.Some? && second.data.Some?
            && second.ledger.funds[project] == l.funds[project] + 2 * d.amount
            && second.ledger.records[d.txnId].status == Pending
  {
    var first := Store(l, d, project);
    assert first.ledger.records[d.txnId].status == Pending;
    assert !AlreadyCompleted(first.ledger, d.txnId);
  }

  /** Once the row under `d.txnId` is completed, a store of any data under that
      `txn_id` changes nothing and returns None, and so does the store after it. */
  lemma CompletedRowIsNeverRestored(l: Ledger, d: TxnData, project: int, more: TxnData)
    requires project in l.funds && AlreadyCompleted(l, d.txnId) && more.txnId == d.txnId
    ensures Store(l, d, project) == StoreOutcome(l, None)
    ensures Store(Store(l, d, project).ledger, more, project) == StoreOutcome(l, None)
  {
  }

  // ---------------------------------------------------------------------------
  // onPaymentsCapture
  // ---------------------------------------------------------------------------

  /** A capture files the completed row under the charge id, so the original
      `txn_id` is free again: storing data under it passes the gate and adds
      the funds once more. */
  lemma CaptureReopensOriginalTxnId(l: Ledger, txnId: string, env: CaptureEnv, d: TxnData, project: int)
    requires Capture(l, txnId, env).message.kind == Info
    requires env.charge.response.id != txnId
    requires d.txnId == txnId && project in l.funds
    ensures var captured := Capture(l, txnId, env).ledger;
            && txnId !in captured.records
            && Store(captured, d, project).data.Some?
            && Store(captured, d, project).ledger.funds[project] == l.funds[project] + d.amount
  {
    var captured := Capture(l, txnId, env).ledger;
    assert captured.funds == l.funds;
    assert txnId !in captured.records;
  }

  /** When deleting the customer raises, the row is already completed under
      the charge id but still holds the customer id: a second capture of it
      asks Stripe to charge the same customer again. */
  lemma HalfDoneCaptureChargesAgain(l: Ledger, txnId: string, env: CaptureEnv, retry: CaptureEnv)
    requires PayoutReady(env) && CustomerOf(l, txnId) != ""
    requires env.charge.ChargeReturned? && Succeeded(env.charge.response)
    requires env.charge.response.id == txnId || env.charge.response.id !in l.records
    requires env.customerDeletion.Raised?
    requires PayoutReady(retry)
    ensures var halfDone := Capture(l, txnId, env).ledger;
            var chargeId := env.charge.response.id;
            && Capture(l, txnId, env).message == Message(Error, CapturingUnsuccessfully(txnId))
            && chargeId in halfDone.records
            && halfDone.records[chargeId].status == Completed
            && CustomerOf(halfDone, chargeId) == CustomerOf(l, txnId) != ""
            && Capture(halfDone, chargeId, retry).calls[0].CreateCharge?
            && Capture(halfDone, chargeId, retry).calls[0].request.customer == CustomerOf(l, txnId)
  {
    var halfDone := Capture(l, txnId, env).ledger;
    var chargeId := env.charge.response.id;
    assert halfDone.records[chargeId].serviceData == l.records[txnId].serviceData;
    assert CustomerOf(halfDone, chargeId) == CustomerOf(l, txnId);
  }

  /** A completed capture clears the customer id, so capturing the completed
      row again charges nothing and turns it to canceled (funds unchanged). */
  lemma RecaptureCancelsCompleted(l: Ledger, txnId: string, env: CaptureEnv, again: CaptureEnv)
    requires Capture(l, txnId, env).message.kind == Info
    requires PayoutReady(again)
    ensures var captured := Capture(l, txnId, env).ledger;
            var chargeId := env.charge.response.id;
            var o := Capture(captured, chargeId, again);
            && captured.records[chargeId].status == Completed
            && o.calls == []
            && o.message.kind == Warning
            && o.ledger.records[chargeId].status == Canceled
            && o.ledger.funds == l.funds
  {
    var captured := Capture(l, txnId, env).ledger;
    var chargeId := env.charge.response.id;
    assert CustomerId(captured.records[chargeId].serviceData) == "";
    assert CustomerOf(captured, chargeId) == "";
  }

  /** Capture on a pending 100.00 pledge with a 5.00 fee asks Stripe for 10000
      minor units with an application fee of 500, and completes the row with
      its parent set to the original `txn_id`. */
  lemma CaptureScenario(l: Ledger, env: CaptureEnv)
    requires "STXNAAAABBBBCCCCDDDD" in l.records
    requires l.records["STXNAAAABBBBCCCCDDDD"].amount == 10000
    requires l.records["STXNAAAABBBBCCCCDDDD"].status == Pending
    requires CustomerOf(l, "STXNAAAABBBBCCCCDDDD") == "cus_1"
    requires env.keys.clientId == "ca_1" && env.payout.Some? && env.ownerToken.Some? && env.fee == 500
    requires env.raisedAt.None?
    requires env.charge.ChargeReturned? && env.charge.response.id == "ch_1" && env.charge.response.captured
    requires "ch_1" !in l.records && env.customerDeletion == Returned
    ensures var o := Capture(l, "STXNAAAABBBBCCCCDDDD", env);
            && o.calls[0].request.amount == 10000
            && o.calls[0].request.applicationFee == 500
            && o.message == Message(Info, CapturedSuccessfully("STXNAAAABBBBCCCCDDDD"))
            && o.ledger.records["ch_1"].status == Completed
            && o.ledger.records["ch_1"].parentId == "STXNAAAABBBBCCCCDDDD"
  {
    assert Truthy("ca_1") && Truthy("ch_1");
  }

  // ---------------------------------------------------------------------------
  // onPaymentsVoid
  // ---------------------------------------------------------------------------

  /** Voiding a voided transaction again calls nothing, raises nothing and
      leaves the same state: with the customer id gone, the keys are not even
      read, so only a failing row load can make the second void fail. */
  lemma VoidTwiceIsQuiet(l: Ledger, txnId: string, secretKey: string,
                         firstRaise: Option<VoidStep>, first: CallOutcome,
                         secondRaise: Option<VoidStep>, second: CallOutcome)
    requires Void(l, txnId, secretKey, firstRaise, first).message.kind == Info
    requires secondRaise != Some(RowLoad)
    ensures var once := Void(l, txnId, secretKey, firstRaise, first);
            var twice := Void(once.ledger, txnId, secretKey, secondRaise, second);
            && twice.calls == []
            && twice.message == once.message
            && twice.ledger == once.ledger
  {
    var once := Void(l, txnId, secretKey, firstRaise, first);
    assert CustomerOf(once.ledger, txnId) == "";
  }

  /** Void never looks at the status: voiding a captured transaction cancels
      the completed row and erases the charge references its service data held. */
  lemma VoidCancelsCaptured(l: Ledger, txnId: string, env: CaptureEnv,
                            secretKey: string, raisedAt: Option<VoidStep>, deletion: CallOutcome)
    requires Capture(l, txnId, env).message.kind == Info
    requires raisedAt != Some(RowLoad)
    ensures var captured := Capture(l, txnId, env).ledger;
            var chargeId := env.charge.response.id;
            var o := Void(captured, chargeId, secretKey, raisedAt, deletion);
            && captured.records[chargeId].status == Completed
            && "charge.id" in captured.records[chargeId].serviceData
            && o.calls == []
            && o.message == Message(Info, VoidSuccessfully(chargeId))
            && o.ledger.records[chargeId].status == Canceled
            && o.ledger.records[chargeId].serviceData == map[]
            && o.ledger.funds == l.funds
  {
    var captured := Capture(l, txnId, env).ledger;
    var chargeId := env.charge.response.id;
    assert CustomerId(captured.records[chargeId].serviceData) == "";
    assert CustomerOf(captured, chargeId) == "";
  }

  // ---------------------------------------------------------------------------
  // onPaymentsCheckout
  // ---------------------------------------------------------------------------

  /** A pledge of 50.00 USD on project 42 by investor 7, without reward, is
      stored as one pending row and raises project 42's funds by 5000. */
  lemma CheckoutScenario(l: Ledger, env: CheckoutEnv)
    requires 42 in l.funds && "STXNAAAABBBBCCCCDDDD" !in l.records
    requires env.customer == CustomerCreated("cus_1") && env.closeSession == Returned
    ensures var req := CheckoutRequest("POST", "tok_1", PaymentSession(7, 42, 0, false),
                                       PledgeItem(3, 5000), "USD", "STXNAAAABBBBCCCCDDDD", "2016-05-01");
            var o := Checkout(l, req, env);
            && o.result == CheckoutResult(ShareRoute, None)
            && o.ledger.records["STXNAAAABBBBCCCCDDDD"].status == Pending
            && o.ledger.records["STXNAAAABBBBCCCCDDDD"].amount == 5000
            && o.ledger.records["STXNAAAABBBBCCCCDDDD"].currency == "USD"
            && o.ledger.records["STXNAAAABBBBCCCCDDDD"].investorId == 7
            && o.ledger.funds[42] == l.funds[42] + 5000
  {
    var req := CheckoutRequest("POST", "tok_1", PaymentSession(7, 42, 0, false),
                               PledgeItem(3, 5000), "USD", "STXNAAAABBBBCCCCDDDD", "2016-05-01");
    assert Truthy("tok_1") && Truthy("STXNAAAABBBBCCCCDDDD") && Truthy("cus_1");
    assert Stores(l, req, env);
  }

  // ---------------------------------------------------------------------------
  // Any sequence of calls
  // ---------------------------------------------------------------------------

  /** One call into the plug-in. */
  datatype Event =
    | CheckoutEvent(req: CheckoutRequest, checkoutEnv: CheckoutEnv)
    | CaptureEvent(captured: string, captureEnv: CaptureEnv)
    | VoidEvent(voided: string, secretKey: string, voidRaise: Option<VoidStep>, deletion: CallOutcome)

  function Step(l: Ledger, e: Event): Ledger {
    match e
    case CheckoutEvent(req, env) => Checkout(l, req, env).ledger
    case CaptureEvent(txnId, env) => Capture(l, txnId, env).ledger
    case VoidEvent(txnId, key, raise, deletion) => Void(l, txnId, key, raise, deletion).ledger
  }

  function Run(l: Ledger, events: seq<Event>): Ledger
    decreases |events|
  {
    if events == [] then l else Run(Step(l, events[0]), events[1..])
  }

  /** The ids of all rows in the table. */
  ghost function RowIds(l: Ledger): set<nat> {
    set k | k in l.records :: l.records[k].id
  }

  /** No pledge amount in the events is negative. */
  ghost predicate NonNegativePledges(events: seq<Event>) {
    forall i :: 0 <= i < |events| && events[i].CheckoutEvent? ==> events[i].req.item.amount >= 0
  }

  lemma StepPreservesValid(l: Ledger, e: Event)
    requires Valid(l)
    ensures Valid(Step(l, e))
  {
    match e
    case CheckoutEvent(req, env) => CheckoutPreservesValid(l, req, env);
    case CaptureEvent(txnId, env) => CapturePreservesValid(l, txnId, env);
    case VoidEvent(txnId, key, raise, deletion) => VoidPreservesValid(l, txnId, key, raise, deletion);
  }

  /** The table's invariant holds after any sequence of calls. */
  lemma {:induction false} RunPreservesValid(l: Ledger, events: seq<Event>)
    requires Valid(l)
    ensures Valid(Run(l, events))
    decreases |events|
  {
    if events != [] {
      StepPreservesValid(l, events[0]);
      RunPreservesValid(Step(l, events[0]), events[1..]);
    }
  }

  /** A single call keeps the set of projects; only a checkout moves funds,
      and only upwards for a non-negative pledge. */
  lemma StepFunds(l: Ledger, e: Event)
    ensures Step(l, e).funds.Keys == l.funds.Keys
    ensures !e.CheckoutEvent? ==> Step(l, e).funds == l.funds
    ensures e.CheckoutEvent? && e.req.item.amount >= 0 ==>
      forall p :: p in l.funds ==> Step(l, e).funds[p] >= l.funds[p]
  {
    if e.CheckoutEvent? {
      var o := Checkout(l, e.req, e.checkoutEnv);
      if Stores(l, e.req, e.checkoutEnv) {
        var p := e.req.session.projectId;
        assert o.ledger.funds == l.funds[p := l.funds[p] + e.req.item.amount];
      }
    }
  }

  /** Funding totals are never decremented: not by a void, not by a capture,
      along any sequence of calls whose pledges are not negative. */
  lemma {:induction false} FundsNeverDecrease(l: Ledger, events: seq<Event>)
    requires NonNegativePledges(events)
    ensures Run(l, events).funds.Keys == l.funds.Keys
    ensures forall p :: p in l.funds ==> Run(l, events).funds[p] >= l.funds[p]
    decreases |events|
  {
    if events != [] {
      StepFunds(l, events[0]);
      assert NonNegativePledges(events[1..]) by {
        forall i | 0 <= i < |events[1..]| && events[1..][i].CheckoutEvent?
          ensures events[1..][i].req.item.amount >= 0
        {
          assert events[1..][i] == events[i + 1];
        }
      }
      FundsNeverDecrease(Step(l, events[0]), events[1..]);
    }
  }

  /** Without a checkout, no sequence of captures and voids changes any funds. */
  lemma {:induction false} OnlyCheckoutMovesFunds(l: Ledger, events: seq<Event>)
    requires forall i :: 0 <= i < |events| ==> !events[i].CheckoutEvent?
    ensures Run(l, events).funds == l.funds
    decreases |events|
  {
    if events != [] {
      StepFunds(l, events[0]);
      OnlyCheckoutMovesFunds(Step(l, events[0]), events[1..]);
    }
  }

  /** A checkout at most adds or rebinds the row under its own `txn_id`. */
  lemma CheckoutKeepsRows(l: Ledger, req: CheckoutRequest, env: CheckoutEnv)
    ensures RowIds(l) <= RowIds(Checkout(l, req, env).ledger)
  {
    var l' := Checkout(l, req, env).ledger;
    forall id | id in RowIds(l) ensures id in RowIds(l') {
      var k :| k in l.records && l.records[k].id == id;
      assert k in l'.records && l'.records[k].id == id;
    }
  }

  /** A capture moves a row to the charge id, keeping its id, or changes its status. */
  lemma CaptureKeepsRows(l: Ledger, txnId: string, env: CaptureEnv)
    ensures RowIds(l) <= RowIds(Capture(l, txnId, env).ledger)
  {
    var o := Capture(l, txnId, env);
    forall id | id in RowIds(l) ensures id in RowIds(o.ledger) {
      var k :| k in l.records && l.records[k].id == id;
      if o.ledger != l && CustomerOf(l, txnId) != "" && k == txnId {
        var r := env.charge.response;
        assert o.ledger.records[r.id].id == id;
      } else {
        assert k in o.ledger.records && o.ledger.records[k].id == id;
      }
    }
  }

  /** A void only resets a row. */
  lemma VoidKeepsRows(l: Ledger, txnId: string, secretKey: string, raisedAt: Option<VoidStep>,
                      deletion: CallOutcome)
    ensures RowIds(l) <= RowIds(Void(l, txnId, secretKey, raisedAt, deletion).ledger)
  {
    var l' := Void(l, txnId, secretKey, raisedAt, deletion).ledger;
    forall id | id in RowIds(l) ensures id in RowIds(l') {
      var k :| k in l.records && l.records[k].id == id;
      assert k in l'.records && l'.records[k].id == id;
    }
  }

  /** A single call never deletes a row: every row id survives it. */
  lemma StepKeepsRows(l: Ledger, e: Event)
    ensures RowIds(l) <= RowIds(Step(l, e))
  {
    match e
    case CheckoutEvent(req, env) => CheckoutKeepsRows(l, req, env);
    case CaptureEvent(txnId, env) => CaptureKeepsRows(l, txnId, env);
    case VoidEvent(txnId, key, raise, deletion) => VoidKeepsRows(l, txnId, key, raise, deletion);
  }

  /** Transactions are never deleted: every row of the table is still there,
      under some `txn_id`, after any sequence of calls. */
  lemma {:induction false} RowsAreNeverDeleted(l: Ledger, events: seq<Event>)
    ensures RowIds(l) <= RowIds(Run(l, events))
    decreases |events|
  {
    if events != [] {
      StepKeepsRows(l, events[0]);
      RowsAreNeverDeleted(Step(l, events[0]), events[1..]);
    }
  }
}
