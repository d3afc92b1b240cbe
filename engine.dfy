/** The plug-in as a stateful object: the transactions table, the projects'
    funding totals and the table's next auto-increment id are fields that the
    checkout, capture and void update in place, step by step as the plug-in
    does. Each method is proved against its function in `Lifecycle`, and
    keeps the table's invariant `Valid()`. */
module Engine {
  import opened Records
  import opened Lifecycle

  class StripeConnect {
    /** Transaction rows by `txn_id`. */
    var records: map<string, Transaction>
    /** Funding total of every known project, by project id. */
    var funds: map<int, int>
    /** The id the next inserted row gets. */
    var nextId: nat

    function Snapshot(): Ledger
      reads this
    {
      Ledger(records, funds, nextId)
    }

    ghost predicate Valid()
      reads this
    {
      Lifecycle.Valid(Snapshot())
    }

    /** An empty transactions table over the given projects and their funds. */
    constructor (projects: map<int, int>)
      ensures Valid()
      ensures records == map[] && funds == projects && nextId == 1
    {
      records := map[];
      funds := projects;
      nextId := 1;
    }

    /** `storeTransaction`: the idempotency gate, then bind, store and add funds. */
    method StoreTransaction(transactionData: TxnData, project: int) returns (result: Option<TxnData>)
      requires Valid() && project in funds
      modifies this
      ensures Valid()
      ensures StoreOutcome(Snapshot(), result) == Store(old(Snapshot()), transactionData, project)
    {
      StorePreservesValid(Snapshot(), transactionData, project);
      // Load the row by txn_id.
      var found := transactionData.txnId in records;
      var transaction := if found then records[transactionData.txnId] else BlankRow(nextId);

      // An existing completed transaction is left alone.
      if found && transaction.status == Completed {
        return None;
      }

      // Encode extra data, or null it when empty.
      var data := transactionData;
      if !(data.extraData.Some? && data.extraData.value != []) {
        data := data.(extraData := None);
      }

      // Bind and store the row.
      transaction := Bind(transaction, data);
      records := records[data.txnId := transaction];
      if !found {
        nextId := nextId + 1;
      }

      // Add funds to the project.
      funds := funds[project := funds[project] + data.amount];

      result := Some(data.(id := Some(transaction.id)));
    }

    /** `onPaymentsCheckout`: a fail-fast pipeline from the posted request to a redirect. */
    method Checkout(request: CheckoutRequest, env: CheckoutEnv)
      returns (result: CheckoutResult, transactionData: Option<TxnData>, calls: seq<GatewayCall>)
      requires Valid()
      modifies this
      ensures Valid()
      ensures CheckoutOutcome(Snapshot(), result, transactionData, calls)
              == Lifecycle.Checkout(old(Snapshot()), request, env)
    {
      var errorResult := Failed;
      transactionData := None;
      calls := [];

      if request.httpMethod != "POST" {
        return errorResult, transactionData, calls;
      }
      if !Truthy(request.token) {
        return errorResult, transactionData, calls;
      }

      var validData := PrepareTransactionData(request.item, request.currency, request.session,
                                              request.txnId, request.date);
      if validData.None? {
        return errorResult, transactionData, calls;
      }
      var valid := validData.value;

      // The project must exist.
      if valid.projectId !in funds {
        return errorResult, transactionData, calls;
      }

      // Create the Stripe customer.
      calls := calls + [CreateCustomer(request.token, valid.txnId)];
      match env.customer {
        case CardDeclined(m) =>
          return CheckoutResult(BackingRoute, Some(CardError(m))), transactionData, calls;
        case CustomerRaised =>
          return errorResult, transactionData, calls;
        case CustomerCreated(id) =>
          if !Truthy(id) {
            return errorResult, transactionData, calls;
          }
          valid := valid.(serviceData := Some(map[CustomerIdKey := id]));
      }

      transactionData := StoreTransaction(valid, valid.projectId);
      if transactionData.None? {
        return errorResult, transactionData, calls;
      }

      // Update the number of distributed rewards.
      if transactionData.value.rewardId > 0 {
        if env.reward.RewardRaised? {
          return errorResult, transactionData, calls;
        }
        if env.reward.RewardMissing? {
          transactionData := Some(transactionData.value.(rewardId := 0));
        }
      }

      // Remove the payment session.
      if env.closeSession.Raised? {
        return errorResult, transactionData, calls;
      }

      result := CheckoutResult(ShareRoute, None);
    }

    /** `onPaymentsCapture`: settle the authorised pledge to the owner's connected account. */
    method Capture(txnId: string, env: CaptureEnv) returns (message: Message, calls: seq<GatewayCall>)
      requires Valid()
      modifies this
      ensures Valid()
      ensures var o := Lifecycle.Capture(old(Snapshot()), txnId, env);
              records == o.ledger.records && funds == o.ledger.funds && nextId == o.ledger.nextId
              && message == o.message && calls == o.calls
    {
      CapturePreservesValid(Snapshot(), txnId, env);
      calls := [];
      // Any raise before the charge is caught: an error, nothing written.
      var raised := Message(Error, CapturingUnsuccessfully(txnId));

      // Get keys.
      if env.raisedAt == Some(KeysLookup) {
        return raised, calls;
      }
      if !Truthy(env.keys.clientId) {
        return Message(Error, ConfigurationError), calls;
      }

      // Load the owner's payout record, then the owner's access token.
      if env.raisedAt == Some(PayoutLoad) {
        return raised, calls;
      }
      if env.payout.None? {
        return Message(Error, NoPayoutOptions), calls;
      }
      if env.raisedAt == Some(TokenRefresh) {
        return raised, calls;
      }
      if env.ownerToken.None? {
        return Message(Error, NoPayoutOptions), calls;
      }

      // Calculate the fee, then load the transaction and its service data.
      if env.raisedAt.Some? {  // FeeCalculation or TransactionLoad
        return raised, calls;
      }
      var found := txnId in records;
      var transaction := if found then records[txnId] else BlankRow(0);
      var serviceData := transaction.serviceData;
      var customer := CustomerId(serviceData);

      if |customer| > 0 {
        var request := ChargeRequest(transaction.amount, transaction.currency, customer,
                                     Destination(env.keys, env.payout.value), env.fee);
        calls := calls + [CreateCharge(request)];
        if env.charge.ChargeRaised? {
          return Message(Error, CapturingUnsuccessfully(txnId)), calls;
        }
        var response := env.charge.response;

        if Truthy(response.id) && response.captured {
          transaction := transaction.(extraData := Some(transaction.extraData.GetOr([]) + [ChargeFragment(response)]));
          transaction := transaction.(parentId := txnId);
          transaction := transaction.(txnId := response.id);
          transaction := transaction.(fee := env.fee);
          transaction := transaction.(status := Completed);

          // store(): the unique index on txn_id rejects a charge id held by another row.
          if response.id != txnId && response.id in records {
            return Message(Error, CapturingUnsuccessfully(txnId)), calls;
          }
          records := (records - {txnId})[response.id := transaction];

          // Remove the customer: the row is already stored as completed.
          calls := calls + [DeleteCustomer(customer)];
          if env.customerDeletion.Raised? {
            return Message(Error, CapturingUnsuccessfully(txnId)), calls;
          }

          // Store service data.
          serviceData := ChargeServiceData(serviceData, response);
          transaction := transaction.(serviceData := serviceData);
          records := records[response.id := transaction];
        } else {
          return Message(Warning, CapturingUnsuccessfully(txnId)), calls;
        }
      } else {
        transaction := transaction.(status := Canceled);
        if found {
          records := records[txnId := transaction];
        }
        return Message(Warning, MissingCustomerId(txnId)), calls;
      }

      message := Message(Info, CapturedSuccessfully(txnId));
    }

    /** `onPaymentsVoid`: delete the Stripe customer, then reset and cancel the row. */
    method Void(txnId: string, secretKey: string, raisedAt: Option<VoidStep>, deletion: CallOutcome)
      returns (message: Message, calls: seq<GatewayCall>)
      requires Valid()
      modifies this
      ensures var o := Lifecycle.Void(old(Snapshot()), txnId, secretKey, raisedAt, deletion);
              records == o.ledger.records && funds == o.ledger.funds && nextId == o.ledger.nextId
              && message == o.message && calls == o.calls
      ensures Valid()
    {
      VoidPreservesValid(Snapshot(), txnId, secretKey, raisedAt, deletion);
      calls := [];
      // Any raise is caught: an error, nothing written.
      var raised := Message(Error, VoidUnsuccessfully(txnId));

      // Load the transaction and its service data.
      if raisedAt == Some(RowLoad) {
        return raised, calls;
      }
      var found := txnId in records;
      var transaction := if found then records[txnId] else BlankRow(0);
      var serviceData := transaction.serviceData;

      // Remove the customer on Stripe; without a secret key this is only logged.
      if |CustomerId(serviceData)| > 0 {
        // Get keys.
        if raisedAt == Some(SecretKeyLookup) {
          return raised, calls;
        }
        if Truthy(secretKey) {
          calls := calls + [DeleteCustomer(CustomerId(serviceData))];
          if deletion.Raised? {
            return raised, calls;
          }
        }
      }

      // Reset service data.
      transaction := transaction.(serviceData := map[]);
      if found {
        records := records[txnId := transaction];
      }

      // Change the status.
      transaction := transaction.(status := Canceled);
      if found {
        records := records[txnId := transaction];
      }

      message := Message(Info, VoidSuccessfully(txnId));
    }
  }
}
