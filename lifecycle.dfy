/** The pledge-transaction lifecycle of the Stripe Connect plug-in, as pure
    functions over the state it touches: the transactions table (keyed by
    `txn_id`), the projects' funding totals and the next row id. Each
    function is the specification of one method of `Engine.StripeConnect`. */
module Lifecycle {
  import opened Records

  /** The persistent state: transaction rows by `txn_id`, funds per known project. */
  datatype Ledger = Ledger(records: map<string, Transaction>, funds: map<int, int>, nextId: nat)

  /** The row under `k`, if any, is filed under its own `txn_id` and has a
      positive id below `nextId` (ids are auto-incremented from 1). */
  ghost predicate RowFiled(l: Ledger, k: string) {
    k in l.records ==> l.records[k].txnId == k && 0 < l.records[k].id < l.nextId
  }

  /** The rows under `a` and `b`, if both exist, share an id only if they are one row. */
  ghost predicate DistinctIds(l: Ledger, a: string, b: string) {
    a in l.records && b in l.records && l.records[a].id == l.records[b].id ==> a == b
  }

  /** The table's invariant: every row filed under its `txn_id`, row ids unique. */
  ghost predicate Valid(l: Ledger) {
    && 0 < l.nextId
    && (forall k :: RowFiled(l, k))
    && (forall a, b :: DistinctIds(l, a, b))
  }

  // ---------------------------------------------------------------------------
  // prepareTransactionData
  // ---------------------------------------------------------------------------

  /** Builds the pending transaction data of a checkout from the pledged item,
      the project's currency code, the payment session and a freshly generated
      `txn_id`; None when the project id or the `txn_id` is falsy. */
  function PrepareTransactionData(item: PledgeItem, currency: string, session: PaymentSession,
                                  txnId: string, date: string): (r: Option<TxnData>)
    ensures r.None? <==> session.projectId == 0 || !Truthy(txnId)
    ensures r.Some? ==> && r.value.status == Pending
                        && r.value.amount == item.amount
                        && r.value.currency == currency
                        && r.value.txnId == txnId
                        && r.value.projectId == session.projectId
                        && r.value.investorId == session.userId
                        && r.value.receiverId == item.userId
                        && r.value.id.None? && r.value.serviceData.None? && r.value.extraData.None?
    ensures r.Some? ==> r.value.rewardId == (if session.anonymous then 0 else session.rewardId)
    ensures r.Some? ==> && r.value.date == date
                        && r.value.serviceProvider == ServiceProvider
                        && r.value.serviceAlias == ServiceAlias
  {
    var transaction := TxnData(
      None,
      session.userId,
      item.userId,
      session.projectId,
      if session.anonymous then 0 else session.rewardId,
      txnId,
      item.amount,
      currency,
      Pending,
      date,
      ServiceProvider,
      ServiceAlias,
      None,
      None);
    if transaction.projectId == 0 || !Truthy(transaction.txnId) then None else Some(transaction)
  }

  // ---------------------------------------------------------------------------
  // storeTransaction
  // ---------------------------------------------------------------------------

  /** Extra data as stored: the encoded data when it is not empty, null otherwise. */
  function NormaliseExtraData(x: Option<seq<Fragment>>): (r: Option<seq<Fragment>>)
    ensures r.None? <==> x.None? || x.value == []
    ensures r.Some? ==> r == x
  {
    if x.Some? && x.value != [] then x else None
  }

  /** The idempotency gate: a row with this `txn_id` exists and is completed. */
  predicate AlreadyCompleted(l: Ledger, txnId: string) {
    txnId in l.records && l.records[txnId].status == Completed
  }

  /** The row carries every field that binding `d` onto it sets. */
  ghost predicate Carries(t: Transaction, d: TxnData) {
    && t.investorId == d.investorId
    && t.receiverId == d.receiverId
    && t.projectId == d.projectId
    && t.rewardId == d.rewardId
    && t.txnId == d.txnId
    && t.amount == d.amount
    && t.currency == d.currency
    && t.status == d.status
    && t.date == d.date
    && t.serviceProvider == d.serviceProvider
    && t.serviceAlias == d.serviceAlias
    && t.extraData == d.extraData
    && (d.serviceData.Some? ==> t.serviceData == d.serviceData.value)
  }

  /** An empty row as a fresh table object holds it before binding. */
  function BlankRow(id: nat): Transaction {
    Transaction(id, 0, 0, 0, 0, "", 0, "", Pending, "", "", "", "", 0, None, map[])
  }

  /** `bind`: copies the array's fields onto the row; fields the array lacks keep their value. */
  function Bind(row: Transaction, d: TxnData): Transaction {
    row.(investorId := d.investorId, receiverId := d.receiverId, projectId := d.projectId,
         rewardId := d.rewardId, txnId := d.txnId, amount := d.amount, currency := d.currency,
         status := d.status, date := d.date, serviceProvider := d.serviceProvider,
         serviceAlias := d.serviceAlias, extraData := d.extraData,
         serviceData := d.serviceData.GetOr(row.serviceData))
  }

  datatype StoreOutcome = StoreOutcome(ledger: Ledger, data: Option<TxnData>)

  /** `storeTransaction(d, project)`: a no-op returning None when the row for
      `d.txnId` is already completed; otherwise binds and stores the row,
      adds `d.amount` to the project's funds and returns the data with its
      row id and normalised extra data. */
  function Store(l: Ledger, d: TxnData, project: int): (o: StoreOutcome)
    requires project in l.funds
    ensures AlreadyCompleted(l, d.txnId) ==> o == StoreOutcome(l, None)
    ensures !AlreadyCompleted(l, d.txnId) ==> d.txnId in o.ledger.records
    ensures !AlreadyCompleted(l, d.txnId) ==>
      var t := o.ledger.records[d.txnId];
      && o.ledger.records == l.records[d.txnId := t]
      && o.ledger.funds == l.funds[project := l.funds[project] + d.amount]
      && Carries(t, d.(extraData := NormaliseExtraData(d.extraData)))
      && o.data == Some(d.(extraData := NormaliseExtraData(d.extraData), id := Some(t.id)))
    ensures !AlreadyCompleted(l, d.txnId) && d.txnId in l.records ==>
      var t, was := o.ledger.records[d.txnId], l.records[d.txnId];
      && o.ledger.nextId == l.nextId
      && t.id == was.id && t.parentId == was.parentId && t.fee == was.fee
      && (d.serviceData.None? ==> t.serviceData == was.serviceData)
    ensures !AlreadyCompleted(l, d.txnId) && d.txnId !in l.records ==>
      var t := o.ledger.records[d.txnId];
      && o.ledger.nextId == l.nextId + 1
      && t.id == l.nextId && t.parentId == "" && t.fee == 0
      && (d.serviceData.None? ==> t.serviceData == map[])
  {
    if AlreadyCompleted(l, d.txnId) then StoreOutcome(l, None)
    else
      var d' := d.(extraData := NormaliseExtraData(d.extraData));
      var found := d.txnId in l.records;
      var row := if found then l.records[d.txnId] else BlankRow(l.nextId);
      var stored := Bind(row, d');
      var ledger := Ledger(l.records[d.txnId := stored],
                           l.funds[project := l.funds[project] + d.amount],
                           if found then l.nextId else l.nextId + 1);
      StoreOutcome(ledger, Some(d'.(id := Some(stored.id))))
  }

  lemma StorePreservesValid(l: Ledger, d: TxnData, project: int)
    requires Valid(l) && project in l.funds
    ensures Valid(Store(l, d, project).ledger)
  {
    var l' := Store(l, d, project).ledger;
    if !AlreadyCompleted(l, d.txnId) {
      forall k ensures RowFiled(l', k) {
        assert RowFiled(l, k);
      }
      forall a, b ensures DistinctIds(l', a, b) {
        assert RowFiled(l, a) && RowFiled(l, b) && DistinctIds(l, a, b);
      }
    }
  }

  // ---------------------------------------------------------------------------
  // onPaymentsCapture
  // ---------------------------------------------------------------------------

  /** The reads before the charge, any of which may raise: the Stripe keys, the
      owner's payout record, the owner's access token (refreshed against Stripe),
      the fee, and the transaction row with its decrypted service data. */
  datatype SetupStep = KeysLookup | PayoutLoad | TokenRefresh | FeeCalculation | TransactionLoad

  /** What the capture reads from the finance component, the fee calculator and
      Stripe; `raisedAt` names the setup read that raised, if one did. */
  datatype CaptureEnv = CaptureEnv(
    keys: ApiKeys,
    payout: Option<Payout>,
    ownerToken: Option<string>,
    fee: int,
    raisedAt: Option<SetupStep>,
    charge: ChargeOutcome,
    customerDeletion: CallOutcome)

  datatype CaptureOutcome = CaptureOutcome(ledger: Ledger, message: Message, calls: seq<GatewayCall>)

  /** No setup read raised, a client id is configured, and the owner has a payout
      record and a usable access token. */
  predicate PayoutReady(env: CaptureEnv) {
    env.raisedAt.None? && Truthy(env.keys.clientId) && env.payout.Some? && env.ownerToken.Some?
  }

  /** A setup read raised before any configuration check could stop the capture:
      the keys are read first, the payout record once a client id is known, the
      token once the record exists, the fee and the row once the token exists. */
  predicate SetupRaises(env: CaptureEnv) {
    match env.raisedAt
    case None => false
    case Some(KeysLookup) => true
    case Some(PayoutLoad) => Truthy(env.keys.clientId)
    case Some(TokenRefresh) => Truthy(env.keys.clientId) && env.payout.Some?
    case Some(_) => Truthy(env.keys.clientId) && env.payout.Some? && env.ownerToken.Some?
  }

  /** The customer id in the service data of the row filed under `txnId` ("" when there is no row). */
  function CustomerOf(l: Ledger, txnId: string): string {
    if txnId in l.records then CustomerId(l.records[txnId].serviceData) else ""
  }

  /** The charge response is taken as successful: it has an id and is captured. */
  predicate Succeeded(r: ChargeResponse) { Truthy(r.id) && r.captured }

  /** The destination charge a capture of `t` asks Stripe for. */
  function ChargeFor(t: Transaction, env: CaptureEnv): ChargeRequest
    requires env.payout.Some?
  {
    ChargeRequest(t.amount, t.currency, CustomerId(t.serviceData),
                  Destination(env.keys, env.payout.value), env.fee)
  }

  /** The response fields recorded in the row's extra data. */
  function ChargeFragment(r: ChargeResponse): Fragment {
    map["id" := r.id, "object" := r.objectType, "balance_transaction" := r.balanceTransaction,
        "captured" := if r.captured then "true" else "false",
        "created" := r.created, "description" := r.description]
  }

  /** The service-data keys a capture records the charge under. */
  const ChargeKeys: set<string> :=
    {"charge.id", "charge.object", "charge.customer", "charge.destination", "charge.balance_transaction"}

  /** Service data after a capture: customer id cleared, the charge's references recorded. */
  function ChargeServiceData(sd: ServiceData, r: ChargeResponse): (s: ServiceData)
    ensures CustomerId(s) == ""
    ensures "charge.id" in s && "charge.object" in s && "charge.customer" in s
    ensures "charge.destination" in s && "charge.balance_transaction" in s
    ensures s["charge.id"] == r.id && s["charge.object"] == r.objectType
    ensures s["charge.customer"] == r.customer && s["charge.destination"] == r.destination
    ensures s["charge.balance_transaction"] == r.balanceTransaction
    // exactly the customer id goes and the charge keys come; other values stay
    ensures s.Keys == (sd.Keys - {CustomerIdKey}) + ChargeKeys
    ensures forall k :: k in sd && k != CustomerIdKey && k !in ChargeKeys ==> s[k] == sd[k]
  {
    (sd - {CustomerIdKey})["charge.id" := r.id]["charge.object" := r.objectType]
      ["charge.customer" := r.customer]["charge.destination" := r.destination]
      ["charge.balance_transaction" := r.balanceTransaction]
  }

  /** `after` is `before` completed by the charge `r`: the response is appended
      to the extra data, the parent id is the captured `txn_id`, the `txn_id`
      is the charge id, the fee is set, and nothing else but the service data differs. */
  ghost predicate SettledRow(before: Transaction, after: Transaction, parentId: string, r: ChargeResponse, fee: int) {
    && after.status == Completed
    && after.parentId == parentId
    && after.txnId == r.id
    && after.fee == fee
    && after.extraData == Some(before.extraData.GetOr([]) + [ChargeFragment(r)])
    && after.(status := before.status, parentId := before.parentId, txnId := before.txnId,
              fee := before.fee, extraData := before.extraData, serviceData := before.serviceData)
       == before
  }

  /** `onPaymentsCapture` for the row filed under `txnId`. */
  function Capture(l: Ledger, txnId: string, env: CaptureEnv): (o: CaptureOutcome)
    // capture never touches funds nor allocates rows
    ensures o.ledger.funds == l.funds && o.ledger.nextId == l.nextId
    // configuration, payout record, owner token and setup errors
    ensures !PayoutReady(env) ==> o.ledger == l && o.calls == [] && o.message.kind == Error
    ensures SetupRaises(env) ==> o == CaptureOutcome(l, Message(Error, CapturingUnsuccessfully(txnId)), [])
    ensures !SetupRaises(env) && !Truthy(env.keys.clientId) ==> o.message == Message(Error, ConfigurationError)
    ensures !SetupRaises(env) && Truthy(env.keys.clientId) && (env.payout.None? || env.ownerToken.None?) ==>
      o.message == Message(Error, NoPayoutOptions)
    // no customer id: no charge, the row (if any) is canceled, a warning
    ensures PayoutReady(env) && CustomerOf(l, txnId) == "" ==>
      && o.calls == []
      && o.message == Message(Warning, MissingCustomerId(txnId))
      && o.ledger.records == (if txnId in l.records
                              then l.records[txnId := l.records[txnId].(status := Canceled)]
                              else l.records)
    // a customer id: exactly one charge is asked for, for the row's amount and currency
    ensures PayoutReady(env) && CustomerOf(l, txnId) != "" ==>
      && txnId in l.records
      && |o.calls| >= 1
      && o.calls[0] == CreateCharge(ChargeFor(l.records[txnId], env))
      && o.calls[0].request.amount == l.records[txnId].amount
      && o.calls[0].request.customer == CustomerOf(l, txnId)
    // the row changes only on a captured charge (or to canceled without a customer)
    ensures o.ledger != l ==>
      && PayoutReady(env)
      && (CustomerOf(l, txnId) == "" || (env.charge.ChargeReturned? && Succeeded(env.charge.response)))
    // a charge that raised, or came back without id or capture, changes nothing
    ensures PayoutReady(env) && CustomerOf(l, txnId) != "" && env.charge.ChargeRaised? ==>
      o.ledger == l && o.message == Message(Error, CapturingUnsuccessfully(txnId)) && |o.calls| == 1
    ensures PayoutReady(env) && CustomerOf(l, txnId) != "" && env.charge.ChargeReturned?
            && !Succeeded(env.charge.response) ==>
      o.ledger == l && o.message == Message(Warning, CapturingUnsuccessfully(txnId)) && |o.calls| == 1
    // a charge id already held by another row: store() raises, nothing is written
    ensures PayoutReady(env) && CustomerOf(l, txnId) != "" && env.charge.ChargeReturned?
            && Succeeded(env.charge.response)
            && env.charge.response.id != txnId && env.charge.response.id in l.records ==>
      o.ledger == l && o.message == Message(Error, CapturingUnsuccessfully(txnId)) && |o.calls| == 1
    // a stored charge whose customer deletion raises always leaves the row half done
    ensures PayoutReady(env) && CustomerOf(l, txnId) != "" && env.charge.ChargeReturned?
            && Succeeded(env.charge.response)
            && (env.charge.response.id == txnId || env.charge.response.id !in l.records)
            && env.customerDeletion.Raised? ==>
      o.ledger != l && o.message.kind == Error
    // success: the row is completed under the charge id and its service data rewritten
    ensures o.message.kind == Info <==>
      && PayoutReady(env) && CustomerOf(l, txnId) != ""
      && env.charge.ChargeReturned? && Succeeded(env.charge.response)
      && (env.charge.response.id == txnId || env.charge.response.id !in l.records)
      && env.customerDeletion.Returned?
    ensures o.message.kind == Info ==>
      var r := env.charge.response;
      && o.message == Message(Info, CapturedSuccessfully(txnId))
      && o.calls == [CreateCharge(ChargeFor(l.records[txnId], env)), DeleteCustomer(CustomerOf(l, txnId))]
      && r.id in o.ledger.records
      && o.ledger.records == (l.records - {txnId})[r.id := o.ledger.records[r.id]]
      && SettledRow(l.records[txnId], o.ledger.records[r.id], txnId, r, env.fee)
      && o.ledger.records[r.id].serviceData == ChargeServiceData(l.records[txnId].serviceData, r)
    // half done: the row is stored completed before the customer deletion raises
    ensures o.message.kind == Error && o.ledger != l ==>
      var r := env.charge.response;
      && env.customerDeletion.Raised?
      && o.message == Message(Error, CapturingUnsuccessfully(txnId))
      && o.calls == [CreateCharge(ChargeFor(l.records[txnId], env)), DeleteCustomer(CustomerOf(l, txnId))]
      && r.id in o.ledger.records
      && o.ledger.records == (l.records - {txnId})[r.id := o.ledger.records[r.id]]
      && SettledRow(l.records[txnId], o.ledger.records[r.id], txnId, r, env.fee)
      && o.ledger.records[r.id].serviceData == l.records[txnId].serviceData
  {
    var raised := CaptureOutcome(l, Message(Error, CapturingUnsuccessfully(txnId)), []);
    if env.raisedAt == Some(KeysLookup) then raised
    else if !Truthy(env.keys.clientId) then
      CaptureOutcome(l, Message(Error, ConfigurationError), [])
    else if env.raisedAt == Some(PayoutLoad) then raised
    else if env.payout.None? then
      CaptureOutcome(l, Message(Error, NoPayoutOptions), [])
    else if env.raisedAt == Some(TokenRefresh) then raised
    else if env.ownerToken.None? then
      CaptureOutcome(l, Message(Error, NoPayoutOptions), [])
    else if env.raisedAt.Some? then raised
    else if CustomerOf(l, txnId) == "" then
      var records := if txnId in l.records
                     then l.records[txnId := l.records[txnId].(status := Canceled)]
                     else l.records;
      CaptureOutcome(l.(records := records), Message(Warning, MissingCustomerId(txnId)), [])
    else
      var t := l.records[txnId];
      var calls := [CreateCharge(ChargeFor(t, env))];
      match env.charge
      case ChargeRaised =>
        CaptureOutcome(l, Message(Error, CapturingUnsuccessfully(txnId)), calls)
      case ChargeReturned(r) =>
        if !Succeeded(r) then
          CaptureOutcome(l, Message(Warning, CapturingUnsuccessfully(txnId)), calls)
        else if r.id != txnId && r.id in l.records then
          // the unique index on txn_id makes store() raise: nothing is written
          CaptureOutcome(l, Message(Error, CapturingUnsuccessfully(txnId)), calls)
        else
          var done := t.(extraData := Some(t.extraData.GetOr([]) + [ChargeFragment(r)]),
                         parentId := txnId, txnId := r.id, fee := env.fee, status := Completed);
          var stored := l.(records := (l.records - {txnId})[r.id := done]);
          var calls' := calls + [DeleteCustomer(CustomerId(t.serviceData))];
          if env.customerDeletion.Raised? then
            CaptureOutcome(stored, Message(Error, CapturingUnsuccessfully(txnId)), calls')
          else
            var final := done.(serviceData := ChargeServiceData(t.serviceData, r));
            CaptureOutcome(l.(records := stored.records[r.id := final]),
                           Message(Info, CapturedSuccessfully(txnId)), calls')
  }

  lemma CapturePreservesValid(l: Ledger, txnId: string, env: CaptureEnv)
    requires Valid(l)
    ensures Valid(Capture(l, txnId, env).ledger)
  {
    var l' := Capture(l, txnId, env).ledger;
    if l' != l && CustomerOf(l, txnId) == "" {
      // only the status of the row changed
      forall k ensures RowFiled(l', k) {
        assert RowFiled(l, k);
      }
      forall a, b ensures DistinctIds(l', a, b) {
        assert DistinctIds(l, a, b);
      }
    } else if l' != l {
      // the row moved from txnId to the charge id
      var r := env.charge.response;
      forall k ensures RowFiled(l', k) {
        if k == r.id { assert RowFiled(l, txnId); } else { assert RowFiled(l, k); }
      }
      forall a, b ensures DistinctIds(l', a, b) {
        var a0 := if a == r.id then txnId else a;
        var b0 := if b == r.id then txnId else b;
        assert RowFiled(l, a0) && RowFiled(l, b0) && DistinctIds(l, a0, b0);
      }
    }
  }

  // ---------------------------------------------------------------------------
  // onPaymentsVoid
  // ---------------------------------------------------------------------------

  datatype VoidOutcome = VoidOutcome(ledger: Ledger, message: Message, calls: seq<GatewayCall>)

  /** The reads of a void that may raise: the row with its decrypted service
      data, and the Stripe keys (read only when the row holds a customer id). */
  datatype VoidStep = RowLoad | SecretKeyLookup

  /** A read the void reaches raised; the source catches it as a failed void. */
  predicate VoidRaises(l: Ledger, txnId: string, raisedAt: Option<VoidStep>) {
    raisedAt == Some(RowLoad) || (raisedAt == Some(SecretKeyLookup) && CustomerOf(l, txnId) != "")
  }

  /** `onPaymentsVoid` for the row filed under `txnId`, with the configured
      secret key, the read that raised (if any) and what deleting the Stripe
      customer does. */
  function Void(l: Ledger, txnId: string, secretKey: string, raisedAt: Option<VoidStep>,
                deletion: CallOutcome): (o: VoidOutcome)
    // void never touches funds nor allocates rows
    ensures o.ledger.funds == l.funds && o.ledger.nextId == l.nextId
    // a raised read is caught: an error, no call, nothing written
    ensures VoidRaises(l, txnId, raisedAt) ==>
      o == VoidOutcome(l, Message(Error, VoidUnsuccessfully(txnId)), [])
    // otherwise the customer is deleted exactly when there is one and the secret key is set
    ensures !VoidRaises(l, txnId, raisedAt) ==>
      o.calls == (if CustomerOf(l, txnId) != "" && Truthy(secretKey)
                  then [DeleteCustomer(CustomerOf(l, txnId))] else [])
    // an error comes from a raised read or a raised deletion, and changes nothing
    ensures o.message.kind == Error <==> VoidRaises(l, txnId, raisedAt) || (o.calls != [] && deletion.Raised?)
    ensures o.message.kind == Error ==> o.ledger == l && o.message.notice == VoidUnsuccessfully(txnId)
    // otherwise the row is canceled with empty service data, and nothing else changes
    ensures o.message.kind != Error ==>
      && o.message == Message(Info, VoidSuccessfully(txnId))
      && o.ledger.records == (if txnId in l.records
                              then l.records[txnId := l.records[txnId].(serviceData := map[], status := Canceled)]
                              else l.records)
  {
    if VoidRaises(l, txnId, raisedAt) then
      VoidOutcome(l, Message(Error, VoidUnsuccessfully(txnId)), [])
    else if txnId !in l.records then
      VoidOutcome(l, Message(Info, VoidSuccessfully(txnId)), [])
    else
      var t := l.records[txnId];
      var customer := CustomerId(t.serviceData);
      var calls := if customer != "" && Truthy(secretKey) then [DeleteCustomer(customer)] else [];
      if calls != [] && deletion.Raised? then
        VoidOutcome(l, Message(Error, VoidUnsuccessfully(txnId)), calls)
      else
        var reset := t.(serviceData := map[], status := Canceled);
        VoidOutcome(l.(records := l.records[txnId := reset]), Message(Info, VoidSuccessfully(txnId)), calls)
  }

  lemma VoidPreservesValid(l: Ledger, txnId: string, secretKey: string, raisedAt: Option<VoidStep>,
                           deletion: CallOutcome)
    requires Valid(l)
    ensures Valid(Void(l, txnId, secretKey, raisedAt, deletion).ledger)
  {
    var l' := Void(l, txnId, secretKey, raisedAt, deletion).ledger;
    forall k ensures RowFiled(l', k) {
      assert RowFiled(l, k);
    }
    forall a, b ensures DistinctIds(l', a, b) {
      assert DistinctIds(l, a, b);
    }
  }

  // ---------------------------------------------------------------------------
  // onPaymentsCheckout
  // ---------------------------------------------------------------------------

  /** The request as the checkout sees it: HTTP method, posted Stripe token,
      payment session, item, the project currency's code and the generated `txn_id`. */
  datatype CheckoutRequest = CheckoutRequest(
    httpMethod: string,
    token: string,
    session: PaymentSession,
    item: PledgeItem,
    currency: string,
    txnId: string,
    date: string)

  /** What Stripe's customer creation, the reward update and closing the payment session do. */
  datatype CheckoutEnv = CheckoutEnv(customer: CustomerOutcome, reward: RewardOutcome, closeSession: CallOutcome)

  /** The backing page (on failure) or its share layout (on success). */
  datatype Route = BackingRoute | ShareRoute

  datatype CheckoutText = CannotProcessCheckout | CardError(message: string)

  datatype CheckoutResult = CheckoutResult(redirect: Route, message: Option<CheckoutText>)

  /** The generic error result. */
  const Failed: CheckoutResult := CheckoutResult(BackingRoute, Some(CannotProcessCheckout))

  /** The new ledger, the result, the transaction data the pipeline ended with
      (None before it is stored) and the calls made to Stripe. */
  datatype CheckoutOutcome = CheckoutOutcome(
    ledger: Ledger, result: CheckoutResult, data: Option<TxnData>, calls: seq<GatewayCall>)

  function Prepare(req: CheckoutRequest): Option<TxnData> {
    PrepareTransactionData(req.item, req.currency, req.session, req.txnId, req.date)
  }

  /** The checks before Stripe is called: a POST with a token, valid data, a known project. */
  predicate Admitted(l: Ledger, req: CheckoutRequest) {
    && req.httpMethod == "POST"
    && Truthy(req.token)
    && Prepare(req).Some?
    && Prepare(req).value.projectId in l.funds
  }

  /** The checkout reaches the store with a customer id, and the gate lets it through. */
  predicate Stores(l: Ledger, req: CheckoutRequest, env: CheckoutEnv) {
    && Admitted(l, req)
    && env.customer.CustomerCreated? && Truthy(env.customer.id)
    && !AlreadyCompleted(l, req.txnId)
  }

  /** The reward id the stored data carries: none for an anonymous pledge. */
  function PledgedReward(req: CheckoutRequest): int {
    if req.session.anonymous then 0 else req.session.rewardId
  }

  /** `onPaymentsCheckout`: validate, create the Stripe customer, store the pending
      transaction, update the reward and close the payment session. */
  function Checkout(l: Ledger, req: CheckoutRequest, env: CheckoutEnv): (o: CheckoutOutcome)
    // any failed check: the generic error, Stripe not called, nothing stored
    ensures !Admitted(l, req) ==> o == CheckoutOutcome(l, Failed, None, [])
    ensures Admitted(l, req) ==> o.calls == [CreateCustomer(req.token, req.txnId)]
    // a card error is shown verbatim, any other failure as the generic message
    ensures Admitted(l, req) && env.customer.CardDeclined? ==>
      o.ledger == l && o.result == CheckoutResult(BackingRoute, Some(CardError(env.customer.message)))
    ensures o.result.message.Some? && o.result.message.value.CardError? ==>
      env.customer == CardDeclined(o.result.message.value.message)
    ensures o.result.redirect == BackingRoute ==> o.result.message.Some?
    ensures o.result.redirect == ShareRoute ==> o.result.message.None?
    // the ledger changes only when the store happens, and then by exactly one pending row and the pledged funds
    ensures !Stores(l, req, env) ==> o.ledger == l && o.result.redirect == BackingRoute
    ensures Stores(l, req, env) ==>
      var p := req.session.projectId;
      && req.txnId in o.ledger.records
      && o.ledger.records == l.records[req.txnId := o.ledger.records[req.txnId]]
      && o.ledger.funds == l.funds[p := l.funds[p] + req.item.amount]
      && o.ledger.records[req.txnId].status == Pending
      && o.ledger.records[req.txnId].amount == req.item.amount
      && o.ledger.records[req.txnId].currency == req.currency
      && o.ledger.records[req.txnId].rewardId == PledgedReward(req)
      && CustomerId(o.ledger.records[req.txnId].serviceData) == env.customer.id
      && o.data.Some? && o.data.value.id == Some(o.ledger.records[req.txnId].id)
    // the stored row carries the prepared data with the customer id, in a fresh or the existing row
    ensures Stores(l, req, env) ==>
      var t := o.ledger.records[req.txnId];
      && Prepare(req).Some?
      && Carries(t, Prepare(req).value.(serviceData := Some(map[CustomerIdKey := env.customer.id])))
      && o.ledger.nextId == (if req.txnId in l.records then l.nextId else l.nextId + 1)
      && (req.txnId in l.records ==>
            t.id == l.records[req.txnId].id && t.parentId == l.records[req.txnId].parentId
            && t.fee == l.records[req.txnId].fee)
      && (req.txnId !in l.records ==> t.id == l.nextId && t.parentId == "" && t.fee == 0)
    // success needs the reward update and the session close to return
    ensures o.result.redirect == ShareRoute <==>
      Stores(l, req, env) && (PledgedReward(req) > 0 ==> !env.reward.RewardRaised?) && env.closeSession.Returned?
    // a reward the update does not return is dropped from the data
    ensures Stores(l, req, env) && PledgedReward(req) > 0 && env.reward.RewardMissing? ==> o.data.value.rewardId == 0
    ensures Stores(l, req, env) && !(PledgedReward(req) > 0 && env.reward.RewardMissing?) ==>
      o.data.value.rewardId == PledgedReward(req)
  {
    if req.httpMethod != "POST" || !Truthy(req.token) then
      CheckoutOutcome(l, Failed, None, [])
    else
      match Prepare(req)
      case None => CheckoutOutcome(l, Failed, None, [])
      case Some(valid) =>
        if valid.projectId !in l.funds then CheckoutOutcome(l, Failed, None, [])
        else
          var calls := [CreateCustomer(req.token, valid.txnId)];
          match env.customer
          case CardDeclined(m) => CheckoutOutcome(l, CheckoutResult(BackingRoute, Some(CardError(m))), None, calls)
          case CustomerRaised => CheckoutOutcome(l, Failed, None, calls)
          case CustomerCreated(id) =>
            if !Truthy(id) then CheckoutOutcome(l, Failed, None, calls)
            else
              var stored := Store(l, valid.(serviceData := Some(map[CustomerIdKey := id])), valid.projectId);
              if stored.data.None? then CheckoutOutcome(l, Failed, None, calls)
              else
                var data := stored.data.value;
                if data.rewardId > 0 && env.reward.RewardRaised? then
                  CheckoutOutcome(stored.ledger, Failed, Some(data), calls)
                else
                  var data' := if data.rewardId > 0 && env.reward.RewardMissing? then data.(rewardId := 0) else data;
                  if env.closeSession.Raised? then CheckoutOutcome(stored.ledger, Failed, Some(data'), calls)
                  else CheckoutOutcome(stored.ledger, CheckoutResult(ShareRoute, None), Some(data'), calls)
  }

  lemma CheckoutPreservesValid(l: Ledger, req: CheckoutRequest, env: CheckoutEnv)
    requires Valid(l)
    ensures Valid(Checkout(l, req, env).ledger)
  {
    if Stores(l, req, env) {
      var valid := Prepare(req).value;
      StorePreservesValid(l, valid.(serviceData := Some(map[CustomerIdKey := env.customer.id])), valid.projectId);
    }
  }
}
