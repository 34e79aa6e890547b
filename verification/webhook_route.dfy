/** POST /api/webhook (app/api/webhook/route.ts): a Stripe event, once its
    signature checks out, drives one step over the `userSubscription`
    table. The signature check and `stripe.subscriptions.retrieve` are
    inputs; the table is an immutable map, and Prisma's failures are the
    unique-key conflicts and missing rows the table itself determines. */
module WebhookRoute {
  import opened Wrappers
  import opened Http

  /** A row of `userSubscription`; the period end is in milliseconds since
      the epoch, as JavaScript's `Date` holds it. */
  datatype SubscriptionRecord = SubscriptionRecord(
    userId: UserId,
    stripeSubscriptionId: string,
    stripeCustomerId: string,
    stripePriceId: string,
    stripeCurrentPeriodEnd: int)

  /** The table, keyed by its unique `userId` column. */
  type Table = map<UserId, SubscriptionRecord>

  /** Each row sits under its own user id, and `stripeSubscriptionId`, the
      key the update selects by, is unique as well. */
  ghost predicate ValidTable(t: Table)
  {
    && (forall u :: u in t ==> t[u].userId == u)
    && (forall u, v :: u in t && v in t && u != v ==>
          t[u].stripeSubscriptionId != t[v].stripeSubscriptionId)
  }

  /** The fields of a retrieved Stripe subscription the handler reads:
      `id`, `customer`, the price id of each of `items.data`, and
      `current_period_end` in seconds since the epoch. */
  datatype StripeSubscription = StripeSubscription(
    id: string,
    customer: string,
    itemPriceIds: seq<string>,
    currentPeriodEnd: int)

  /** A verified event: its `type` and its object's `metadata.userId`. */
  datatype Event = Event(kind: string, metadataUserId: Option<string>)

  /** What `stripe.webhooks.constructEvent` did with the body and signature. */
  datatype Verification = SignatureRejected | Verified(event: Event)

  /** The handler's answer and the table it leaves behind. */
  datatype Ack = Ack(status: int, table: Table)

  const CHECKOUT_SESSION_COMPLETED: string := "checkout.session.completed"
  const INVOICE_PAYMENT_SUCCEEDED: string := "invoice.payment_succeeded"

  /** `new Date(seconds * 1000)`, as milliseconds since the epoch. */
  function EpochMillis(seconds: int): (ms: int)
    ensures ms / 1000 == seconds && ms % 1000 == 0
  {
    seconds * 1000
  }

  /** A row holding no subscription id equal to `id`. */
  predicate SubscriptionIdFree(t: Table, id: string)
  {
    forall u :: u in t ==> t[u].stripeSubscriptionId != id
  }

  /** `prismadb.userSubscription.create`: refused when either unique
      column is already taken, otherwise the row is added. */
  function CreateSubscription(t: Table, row: SubscriptionRecord): (r: Option<Table>)
    ensures r.Some? <==> row.userId !in t && SubscriptionIdFree(t, row.stripeSubscriptionId)
    ensures r.Some? ==> r.value.Keys == t.Keys + {row.userId} && r.value[row.userId] == row
    ensures r.Some? ==> forall u :: u in t ==> r.value[u] == t[u]
  {
    if row.userId in t || !SubscriptionIdFree(t, row.stripeSubscriptionId) then None
    else Some(t[row.userId := row])
  }

  /** `prismadb.userSubscription.update` where `stripeSubscriptionId` is
      `id`: refused when no row has it; otherwise that row gets the new
      price and period end and keeps its user and customer. */
  function UpdateSubscription(t: Table, id: string, priceId: string, periodEnd: int): (r: Option<Table>)
    ensures r.Some? <==> !SubscriptionIdFree(t, id)
    ensures r.Some? ==> r.value.Keys == t.Keys
    ensures r.Some? ==> forall u :: u in t && t[u].stripeSubscriptionId != id ==> r.value[u] == t[u]
    ensures r.Some? ==> forall u :: u in t && t[u].stripeSubscriptionId == id ==>
      r.value[u] == t[u].(stripePriceId := priceId, stripeCurrentPeriodEnd := periodEnd)
  {
    if SubscriptionIdFree(t, id) then None
    else Some(map u | u in t :: if t[u].stripeSubscriptionId == id
                                then t[u].(stripePriceId := priceId, stripeCurrentPeriodEnd := periodEnd)
                                else t[u])
  }

  /** checkout.session.completed: the subscription is retrieved first, then
      the session's `metadata.userId` is required, then the row is built
      (reading the first item's price) and created. */
  function OnCheckoutCompleted(t: Table, metadataUserId: Option<string>,
                               retrieved: Option<StripeSubscription>): Ack
  {
    match retrieved
    case None => Ack(INTERNAL_ERROR, t)
    case Some(sub) =>
      match AsUserId(metadataUserId)
      case None => Ack(BAD_REQUEST, t)
      case Some(u) =>
        if |sub.itemPriceIds| == 0 then Ack(INTERNAL_ERROR, t)
        else
          var row := SubscriptionRecord(u, sub.id, sub.customer, sub.itemPriceIds[0],
                                        EpochMillis(sub.currentPeriodEnd));
          match CreateSubscription(t, row)
          case None => Ack(INTERNAL_ERROR, t)
          case Some(t') => Ack(OK, t')
  }

  /** invoice.payment_succeeded: the subscription is retrieved and the row
      with its id is given the first item's price and the new period end. */
  function OnPaymentSucceeded(t: Table, retrieved: Option<StripeSubscription>): Ack
  {
    match retrieved
    case None => Ack(INTERNAL_ERROR, t)
    case Some(sub) =>
      if |sub.itemPriceIds| == 0 then Ack(INTERNAL_ERROR, t)
      else
        match UpdateSubscription(t, sub.id, sub.itemPriceIds[0], EpochMillis(sub.currentPeriodEnd))
        case None => Ack(INTERNAL_ERROR, t)
        case Some(t') => Ack(OK, t')
  }

  /** The POST handler. `retrieved` is what `stripe.subscriptions.retrieve`
      returns for the event's subscription (None: it threw); it is only
      consulted for the two event kinds the handler acts on. */
  function WebhookPost(t: Table, verification: Verification, retrieved: Option<StripeSubscription>)
    : (r: Ack)
    ensures r.status in {OK, BAD_REQUEST, INTERNAL_ERROR}
    // a failed step leaves the table as it was
    ensures r.status != OK ==> r.table == t
    ensures verification.SignatureRejected? ==> r == Ack(BAD_REQUEST, t)
    ensures verification.Verified?
      && verification.event.kind !in {CHECKOUT_SESSION_COMPLETED, INVOICE_PAYMENT_SUCCEEDED}
      ==> r == Ack(OK, t)
    ensures r.status == BAD_REQUEST <==>
      verification.SignatureRejected?
      || (verification.event.kind == CHECKOUT_SESSION_COMPLETED && retrieved.Some?
          && !Truthy(verification.event.metadataUserId))
    ensures verification.Verified? && retrieved.None? ==>
      r.status == if verification.event.kind in {CHECKOUT_SESSION_COMPLETED, INVOICE_PAYMENT_SUCCEEDED}
                  then INTERNAL_ERROR else OK
  {
    match verification
    case SignatureRejected => Ack(BAD_REQUEST, t)
    case Verified(event) =>
      if event.kind == CHECKOUT_SESSION_COMPLETED then
        OnCheckoutCompleted(t, event.metadataUserId, retrieved)
      else if event.kind == INVOICE_PAYMENT_SUCCEEDED then
        OnPaymentSucceeded(t, retrieved)
      else
        Ack(OK, t)
  }

  /** The row a completed checkout creates for `u` from `sub`. */
  function CheckoutRow(u: UserId, sub: StripeSubscription): SubscriptionRecord
    requires |sub.itemPriceIds| > 0
  {
    SubscriptionRecord(u, sub.id, sub.customer, sub.itemPriceIds[0], EpochMillis(sub.currentPeriodEnd))
  }

  /** A completed checkout for a user without a subscription, whose
      subscription id is new, adds exactly that user's row, built from the
      retrieved subscription; a taken user id or subscription id, or a
      subscription without items, is a 500 that writes nothing. */
  lemma CheckoutCreatesRow(t: Table, u: UserId, sub: StripeSubscription)
    ensures var r := WebhookPost(t, Verified(Event(CHECKOUT_SESSION_COMPLETED, Some(u))), Some(sub));
      && (r.status == OK <==>
            |sub.itemPriceIds| > 0 && u !in t && SubscriptionIdFree(t, sub.id))
      && (r.status == OK ==> r.table == t[u := CheckoutRow(u, sub)])
      && (r.status != OK ==> r == Ack(INTERNAL_ERROR, t))
  {
  }

  /** Stripe is asked before the metadata is looked at, so a failed
      retrieve is a 500 even for a session without `metadata.userId`; a
      session without it otherwise is a 400. Neither writes. */
  lemma CheckoutRetrievesBeforeMetadata(t: Table, metadataUserId: Option<string>,
                                        retrieved: Option<StripeSubscription>)
    requires !Truthy(metadataUserId)
    ensures WebhookPost(t, Verified(Event(CHECKOUT_SESSION_COMPLETED, metadataUserId)), retrieved)
      == Ack(if retrieved.None? then INTERNAL_ERROR else BAD_REQUEST, t)
  {
  }

  /** A successful payment updates only the row holding the retrieved
      subscription id, and on it only the price and the period end; when
      the subscription has no item (reading `items.data[0]` throws) or no
      row holds that id, the answer is a 500 and nothing changes. */
  lemma PaymentUpdatesRow(t: Table, sub: StripeSubscription, metadataUserId: Option<string>)
    ensures var r := WebhookPost(t, Verified(Event(INVOICE_PAYMENT_SUCCEEDED, metadataUserId)), Some(sub));
      && (r.status == OK <==> |sub.itemPriceIds| > 0 && !SubscriptionIdFree(t, sub.id))
      && (r.status != OK ==> r == Ack(INTERNAL_ERROR, t))
      && (r.status == OK ==>
            && r.table.Keys == t.Keys
            && forall u :: u in t ==>
                 && r.table[u].userId == t[u].userId
                 && r.table[u].stripeCustomerId == t[u].stripeCustomerId
                 && r.table[u].stripeSubscriptionId == t[u].stripeSubscriptionId
                 && (t[u].stripeSubscriptionId != sub.id ==> r.table[u] == t[u])
                 && (t[u].stripeSubscriptionId == sub.id ==>
                       && r.table[u].stripePriceId == sub.itemPriceIds[0]
                       && r.table[u].stripeCurrentPeriodEnd == sub.currentPeriodEnd * 1000))
  {
  }

  /** Every step keeps user ids and subscription ids unique, so the update
      on a payment touches exactly one row. */
  lemma WebhookPreservesValidTable(t: Table, verification: Verification,
                                   retrieved: Option<StripeSubscription>)
    requires ValidTable(t)
    ensures ValidTable(WebhookPost(t, verification, retrieved).table)
  {
    var r := WebhookPost(t, verification, retrieved);
    if r.status == OK && verification.Verified? && retrieved.Some? {
      var sub := retrieved.value;
      if verification.event.kind == CHECKOUT_SESSION_COMPLETED {
        CheckoutCreatesRow(t, AsUserId(verification.event.metadataUserId).value, sub);
      } else if verification.event.kind == INVOICE_PAYMENT_SUCCEEDED {
        PaymentUpdatesRow(t, sub, verification.event.metadataUserId);
      }
    }
  }

  /** A checkout followed by a renewal of the same subscription leaves the
      user's row with the renewal's price and period end, and the ids of
      the checkout. */
  lemma CheckoutThenRenewal(t: Table, u: UserId, sub: StripeSubscription, renewed: StripeSubscription)
    requires u !in t && SubscriptionIdFree(t, sub.id)
    requires |sub.itemPriceIds| > 0 && |renewed.itemPriceIds| > 0 && renewed.id == sub.id
    ensures var t1 := WebhookPost(t, Verified(Event(CHECKOUT_SESSION_COMPLETED, Some(u))), Some(sub));
      var t2 := WebhookPost(t1.table, Verified(Event(INVOICE_PAYMENT_SUCCEEDED, None)), Some(renewed));
      && t1.status == OK && t2.status == OK
      && t2.table[u] == SubscriptionRecord(u, sub.id, sub.customer, renewed.itemPriceIds[0],
                                           renewed.currentPeriodEnd * 1000)
  {
  }
}
