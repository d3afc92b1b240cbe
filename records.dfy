/** Values handled by the Stripe Connect payment plug-in of the crowdfunding
    component: transaction rows, the transaction data array built at checkout,
    the payment session, the outcomes of calls into Stripe and into the
    component's own services, and the messages shown to the user.
    Money is an integer number of minor units (cents) throughout. */
module Records {

  datatype Option<T> = None | Some(value: T) {
    function GetOr(default: T): T { if Some? then value else default }
  }

  /** PHP's truthiness of a string: "" and "0" are false, everything else true. */
  predicate Truthy(s: string) { s != "" && s != "0" }

  datatype Status = Pending | Completed | Canceled

  /** Decrypted service-provider data (a flat registry). A key that the plug-in
      sets to null is represented by its absence. */
  type ServiceData = map<string, string>

  const CustomerIdKey: string := "customer_id"

  /** The registry's `customer_id` as `strlen` sees it: missing or null reads as "". */
  function CustomerId(sd: ServiceData): (c: string)
    ensures CustomerIdKey in sd ==> c == sd[CustomerIdKey]
    ensures c != "" ==> CustomerIdKey in sd
  {
    if CustomerIdKey in sd then sd[CustomerIdKey] else ""
  }

  /** One fragment of a processor response kept in a transaction's extra data. */
  type Fragment = map<string, string>

  const ServiceProvider: string := "Stripe Connect"
  const ServiceAlias: string := "stripeconnect"

  /** A row of the transactions table. */
  datatype Transaction = Transaction(
    id: nat,
    investorId: int,
    receiverId: int,
    projectId: int,
    rewardId: int,
    txnId: string,
    amount: int,
    currency: string,
    status: Status,
    date: string,
    serviceProvider: string,
    serviceAlias: string,
    parentId: string,
    fee: int,
    extraData: Option<seq<Fragment>>,
    serviceData: ServiceData)

  /** The transaction data array the checkout builds and stores. `id` is set
      once the row is stored; `serviceData` is None while the array has no
      `service_data` key. */
  datatype TxnData = TxnData(
    id: Option<nat>,
    investorId: int,
    receiverId: int,
    projectId: int,
    rewardId: int,
    txnId: string,
    amount: int,
    currency: string,
    status: Status,
    date: string,
    serviceProvider: string,
    serviceAlias: string,
    extraData: Option<seq<Fragment>>,
    serviceData: Option<ServiceData>)

  /** The pledge intent bound to the checkout attempt. */
  datatype PaymentSession = PaymentSession(userId: int, projectId: int, rewardId: int, anonymous: bool)

  /** The project being backed, as the checkout receives it: its owner and the pledged amount. */
  datatype PledgeItem = PledgeItem(userId: int, amount: int)

  // ---- Stripe and the finance component, as outcomes ----

  /** Stripe keys of the finance component; `test` selects the sandbox platform. */
  datatype ApiKeys = ApiKeys(clientId: string, secretKey: string, test: bool)

  /** The project owner's payout record: connected Stripe account per platform. */
  datatype Payout = Payout(testAccountId: string, productionAccountId: string)

  /** `stripeconnect.<test|production>.account_id` of the payout's Stripe data. */
  function Destination(keys: ApiKeys, payout: Payout): string
  {
    if !keys.test then payout.productionAccountId else payout.testAccountId
  }

  datatype ChargeRequest = ChargeRequest(
    amount: int, currency: string, customer: string, destination: string, applicationFee: int)

  datatype ChargeResponse = ChargeResponse(
    id: string, captured: bool, objectType: string, customer: string, destination: string,
    balanceTransaction: string, created: string, description: string)

  /** What `Charge::create` did: answered, or raised an exception. */
  datatype ChargeOutcome = ChargeReturned(response: ChargeResponse) | ChargeRaised

  /** What `Customer::create` did: returned a customer (whose id may be empty),
      raised a card error carrying a message, or raised any other exception. */
  datatype CustomerOutcome = CustomerCreated(id: string) | CardDeclined(message: string) | CustomerRaised

  /** What the reward update did: returned the reward, returned nothing, or raised. */
  datatype RewardOutcome = RewardUpdated | RewardMissing | RewardRaised

  /** A call that either returns normally or raises. */
  datatype CallOutcome = Returned | Raised

  /** The calls the plug-in makes to Stripe, in order. */
  datatype GatewayCall =
    | CreateCustomer(token: string, txnId: string)
    | CreateCharge(request: ChargeRequest)
    | DeleteCustomer(customerId: string)

  // ---- Administrator messages of capture and void ----

  /** The `type` of a returned message: 'error', 'warning' or 'message'. */
  datatype Kind = Error | Warning | Info

  datatype Notice =
    | ConfigurationError
    | NoPayoutOptions
    | CapturingUnsuccessfully(txnId: string)
    | MissingCustomerId(txnId: string)
    | CapturedSuccessfully(txnId: string)
    | VoidUnsuccessfully(txnId: string)
    | VoidSuccessfully(txnId: string)

  datatype Message = Message(kind: Kind, notice: Notice)
}
