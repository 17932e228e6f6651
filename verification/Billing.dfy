/**
 Selling tokens, granting them and taking them away. Each command is a function from books to
 books; `BillingService` carries it out on a store, step by step, and is proved to do the same.

 A command reads the clock once here. What the subscriptions contract answered, and which
 payment the network found, are arguments.
 */
module Billing {
  import opened Prelude
  import Pricing
  import opened Ledger
  import opened Catalog
  import opened Store

  datatype BillingError =
    | NegativeCredit
    | UnknownProduct(sku: string)
    | InvoiceNotFound(id: string)
    | InsufficientFunds(needed: int, available: int)
    | SoldOnChain
    | CostsNothing
    | NoDestination

  /** `Silent`: no contract, no answer, or an account the contract has never seen. Seconds. */
  datatype ChainAnswer = Silent | Reports(plan: string, started: int, expires: int)

  // ---------- crediting and charging ----------

  function Credited(b: Books, account: string, tokens: nat, kind: Kind, amount: int, r: Reference, now: int): Books {
    b.Record(Entry(account, kind, tokens, now, amount, r))
  }

  function DebitRow(account: string, runId: string, tokens: int, cost: int, now: int): Entry {
    Entry(account, Usage, -tokens, now, cost, ForRun(runId))
  }

  function Charged(b: Books, rates: Pricing.Rates, account: string, runId: string, usage: Pricing.Usage,
                   now: int): Books {
    var tokens := rates.Billable(usage);
    if tokens <= 0 then b else b.Record(DebitRow(account, runId, tokens, usage.cost, now))
  }

  // ---------- periods ----------

  /** Copy a live on-chain period into our own row and grant its tokens, keyed on its start. */
  function Mirrored(c: Catalog, b: Books, account: string, now: int, answer: ChainAnswer): Option<(Books, Subscription)>
  {
    if answer.Silent? || now >= answer.expires * SECOND then None
    else
      match c.Plan(answer.plan)
      case None => None
      case Some(plan) =>
        var s := Subscription(account, plan.id, answer.started * SECOND, answer.expires * SECOND, Active);
        Some((Credited(b.PutSubscription(s), account, plan.tokens, Grant, 0, OnChain(answer.plan, answer.started), now),
              s))
  }

  function PeriodGrant(s: Subscription): Reference { ForGrant(s.planId, s.renewsAt) }

  function Started(b: Books, account: string, plan: Plan, s: Subscription, now: int): Books {
    Credited(b.PutSubscription(s), account, plan.tokens, Grant, 0, PeriodGrant(s), now)
  }

  function BegunFree(c: Catalog, b: Books, account: string, now: int): (Books, Option<Subscription>) {
    match c.FreePlan()
    case None => (b, None)
    case Some(plan) =>
      var s := Subscription.Begin(account, plan, now);
      (Started(b, account, plan, s, now), Some(s))
  }

  /** The row that takes back what a balance showed as granted. */
  function ExpiryRow(account: string, s: Subscription, granted: int, now: int): Entry {
    Entry(account, Expiry, -granted, now, 0, ForExpiry(s.planId, s.renewsAt))
  }

  function ExpiryWritten(b: Books, account: string, s: Subscription, granted: int, now: int): Books {
    if granted <= 0 then b else b.Record(ExpiryRow(account, s, granted, now))
  }

  /** Reading what is granted and writing its expiry, with nothing in between. */
  function GrantExpired(b: Books, account: string, s: Subscription, now: int): Books {
    ExpiryWritten(b, account, s, BalanceOf(account, b.Rows(account)).granted, now)
  }

  function Closed(c: Catalog, b: Books, account: string, s: Subscription, now: int): (Books, Subscription) {
    var expired := GrantExpired(b, account, s, now);
    match c.Plan(s.planId)
    case Some(plan) =>
      if plan.IsFree() then
        var renewed := s.Renewed(plan, now);
        (Started(expired, account, plan, renewed, now), renewed)
      else (expired.PutSubscription(s.Ended()), s.Ended())
    case None => (expired.PutSubscription(s.Ended()), s.Ended())
  }

  /** The chain first, and it wins; then the free plan begins, renews, or a paid period ends. */
  function Settled(c: Catalog, b: Books, account: string, now: int, answer: ChainAnswer): (Books, Option<Subscription>)
  {
    match Mirrored(c, b, account, now, answer)
    case Some(mirror) => (mirror.0, Some(mirror.1))
    case None =>
      match b.SubscriptionOf(account)
      case None => BegunFree(c, b, account, now)
      case Some(s) =>
        if !s.Due(now) then (b, Some(s))
        else
          var closed := Closed(c, b, account, s, now);
          (closed.0, Some(closed.1))
  }

  // ---------- confirming a payment, await by await ----------

  /** What `confirm` decides from the invoice it read and the payment the network found. */
  datatype Verdict = Settling | Lapsing | Unchanged

  function Judged(invoice: Invoice, payment: Option<Payment>, now: int): Verdict {
    match payment
    case None => if invoice.IsOpen(now) then Unchanged else Lapsing
    case Some(p) => if Settles(p, invoice) then Settling else Unchanged
  }

  /** The invoice row as a plan's or a pack's delivery credits it. */
  function DeliveryRow(product: Product, invoice: Invoice, now: int): Entry {
    Entry(invoice.account, if product.PlanOf? then Grant else Purchase, invoice.tokens, now, invoice.price,
          ForInvoice(invoice.id))
  }

  function Subscribed(plan: Plan, invoice: Invoice, current: Option<Subscription>, now: int): Subscription {
    if current.Some? && current.value.planId == plan.id then current.value.Renewed(plan, now)
    else Subscription.Begin(invoice.account, plan, now)
  }

  /** All of `_deliver` with nothing in between. */
  function Delivered(c: Catalog, b: Books, invoice: Invoice, now: int): Result<Books, BillingError> {
    match c.Product(invoice.sku)
    case None => Err(UnknownProduct(invoice.sku))
    case Some(product) =>
      var credited := b.Record(DeliveryRow(product, invoice, now));
      if product.PlanOf? then
        Ok(credited.PutSubscription(Subscribed(product.plan, invoice, credited.SubscriptionOf(invoice.account), now)))
      else Ok(credited)
  }

  /** What the network said when asked for an invoice's payment, or that it could not be asked. */
  datatype Asked = Unreachable | Heard(payment: Option<Payment>)

  /** One call of `confirm` with nothing interleaved; `None` when it raises. */
  function Confirmed(c: Catalog, b: Books, id: string, asked: Asked, now: int): (Books, Option<Invoice>) {
    if id !in b.invoices then (b, None)
    else
      var invoice := b.invoices[id];
      if invoice.status.Paid? then (b, Some(invoice))
      else if asked.Unreachable? then (b, None)
      else
        match Judged(invoice, asked.payment, now)
        case Unchanged => (b, Some(invoice))
        case Lapsing => (b.PutInvoice(invoice.MarkedLapsed()), Some(invoice.MarkedLapsed()))
        case Settling =>
          var paid := invoice.MarkedPaid(asked.payment.value.txHash, asked.payment.value.payer);
          match Delivered(c, b.PutInvoice(paid), paid, now)
          case Err(_) => (b.PutInvoice(paid), None)
          case Ok(after) => (after, Some(paid))
  }

  /** The sweep over the open invoices: one that raises is skipped, and the paid ones are listed. */
  function Reconciled(c: Catalog, b: Books, open: seq<string>, asked: string -> Asked, now: int): (Books, seq<Invoice>)
  {
    if open == [] then (b, [])
    else
      var before := Reconciled(c, b, open[..|open| - 1], asked, now);
      var one := Confirmed(c, before.0, open[|open| - 1], asked(open[|open| - 1]), now);
      (one.0, if one.1.Some? && one.1.value.status.Paid? then before.1 + [one.1.value] else before.1)
  }

  // ---------- the service ----------

  class BillingService {
    const store: BillingStore
    const catalog: Catalog
    const rates: Pricing.Rates
    const reserve: int
    const asset: string

    constructor (store: BillingStore, catalog: Catalog, rates: Pricing.Rates, reserve: int, asset: string)
      ensures this.store == store && this.catalog == catalog && this.rates == rates
      ensures this.reserve == reserve && this.asset == asset
    {
      this.store, this.catalog, this.rates, this.reserve, this.asset := store, catalog, rates, reserve, asset;
    }

    method AccountBalance(account: string) returns (b: Balance)
      ensures b == BalanceOf(account, store.Value().Rows(account))
    {
      var rows := store.AllEntries(account);
      b := ComputeBalance(account, rows);
    }

    method Checkout(account: string, sku: string, asset: string, id: string, chainAvailable: bool,
                    destination: string, quote: Option<int>, now: int)
      returns (r: Result<Invoice, BillingError>)
      modifies store
      ensures r.Err? ==> store.Value() == old(store.Value())
      ensures r == Err(UnknownProduct(sku)) <==> catalog.Product(sku).None?
      ensures r == Err(SoldOnChain) <==>
              && catalog.Product(sku).Some? && catalog.Product(sku).value.PlanOf?
              && catalog.Product(sku).value.plan.price != 0 && chainAvailable
      ensures r == Err(CostsNothing) <==>
              && catalog.Product(sku).Some? && catalog.Product(sku).value.PlanOf?
              && catalog.Product(sku).value.plan.price == 0
      ensures r == Err(NoDestination) <==>
              && catalog.Product(sku).Some? && destination == ""
              && (catalog.Product(sku).value.PlanOf? ==> catalog.Product(sku).value.plan.price != 0 && !chainAvailable)
      ensures r.Err? ==> r.error in {UnknownProduct(sku), SoldOnChain, CostsNothing, NoDestination}
      ensures r.Ok? ==>
                && store.Value() == old(store.Value()).PutInvoice(r.value)
                && r.value.id == id && r.value.account == account && r.value.sku == sku
                && (match catalog.Product(sku)
                    case Some(PlanOf(plan)) => r.value.tokens == plan.tokens && r.value.price == plan.price
                    case Some(PackOf(pack)) => r.value.tokens == pack.tokens && r.value.price == pack.price
                    case None => false)
                && SameLetters(r.value.asset, if asset == "" then this.asset else asset)
                && (forall i :: 0 <= i < |r.value.asset| ==> !('a' <= r.value.asset[i] <= 'z'))
                && r.value.amount == quote && r.value.destination == destination
                && r.value.createdAt == now && r.value.expiresAt == now + 1_800_000_000
                && r.value.status == Pending && r.value.txHash == "" && r.value.payer == ""
                && catalog.Sellable(r.value.sku)
    {
      var product := catalog.Product(sku);
      if product.None? {
        return Err(UnknownProduct(sku));
      }
      if product.value.PlanOf? && !product.value.plan.IsFree() && chainAvailable {
        return Err(SoldOnChain);
      }
      if product.value.PlanOf? && product.value.plan.IsFree() {
        return Err(CostsNothing);
      }
      if destination == "" {
        return Err(NoDestination);
      }
      FirstPlanIsNamed(catalog.plans, sku);
      var asked := if asset == "" then this.asset else asset;
      UpperIsTheSameInCapitals(asked);
      var invoice := Invoice(id, account, sku, product.value.Tokens(), product.value.Price(), Upper(asked), quote,
                             destination, now, now + INVOICE_TTL, Pending, "", "");
      invoice := store.PutInvoice(invoice);
      r := Ok(invoice);
    }

    method Credit(account: string, tokens: int, kind: Kind, reference: Reference, amount: int, now: int)
      returns (r: Result<Entry, BillingError>)
      modifies store
      ensures r.Err? <==> tokens < 0
      ensures store.Value() ==
              if tokens < 0 then old(store.Value())
              else Credited(old(store.Value()), account, tokens, kind, amount, reference, now)
      ensures r.Ok? ==>
                r.value == Persisted(old(store.Value()).ledger, Entry(account, kind, tokens, now, amount, reference))
    {
      if tokens < 0 {
        return Err(NegativeCredit);
      }
      var row := store.Append(Entry(account, kind, tokens, now, amount, reference));
      r := Ok(row);
    }

    method Charge(account: string, runId: string, usage: Pricing.Usage, now: int) returns (row: Option<Entry>)
      modifies store
      ensures store.Value() == Charged(old(store.Value()), rates, account, runId, usage, now)
      ensures row.Some? <==> rates.Billable(usage) > 0
      ensures row.Some? ==>
                row.value == Persisted(old(store.Value()).ledger,
                                       DebitRow(account, runId, rates.Billable(usage), usage.cost, now))
    {
      var tokens := rates.Billable(usage);
      if tokens <= 0 {
        return None;
      }
      var entry := store.Append(DebitRow(account, runId, tokens, usage.cost, now));
      row := Some(entry);
    }

    /** The only place billing can say no: after settling, the total must cover need and reserve. */
    method Authorize(account: string, needed: int, now: int, answer: ChainAnswer)
      returns (r: Result<Balance, BillingError>)
      modifies store
      ensures store.Value() == Settled(catalog, old(store.Value()), account, now, answer).0
      ensures
        var balance := BalanceOf(account, store.Value().Rows(account));
        && (r.Ok? <==> balance.Total() >= needed && balance.Total() >= reserve)
        && (r.Ok? ==> r.value == balance)
        && (r.Err? ==> r.error == InsufficientFunds(Max(needed, reserve), balance.Total()))
    {
      var _ := SettlePeriod(account, now, answer);
      var balance := AccountBalance(account);
      var required := Max(needed, reserve);
      if !balance.CanAfford(required) {
        return Err(InsufficientFunds(required, balance.Total()));
      }
      r := Ok(balance);
    }

    method SettlePeriod(account: string, now: int, answer: ChainAnswer) returns (current: Option<Subscription>)
      modifies store
      ensures (store.Value(), current) == Settled(catalog, old(store.Value()), account, now, answer)
    {
      var mirrored := MirrorChain(account, now, answer);
      if mirrored.Some? {
        return mirrored;
      }
      if account !in store.subscriptions {
        current := BeginFree(account, now);
        return;
      }
      var subscription := store.subscriptions[account];
      if !subscription.Due(now) {
        return Some(subscription);
      }
      var plan := catalog.Plan(subscription.planId);
      ExpireGrant(account, subscription, now);
      if plan.Some? && plan.value.IsFree() {
        var renewed := store.PutSubscription(subscription.Renewed(plan.value, now));
        GrantPeriod(account, plan.value, renewed, now);
        return Some(renewed);
      }
      var ended := store.PutSubscription(subscription.Ended());
      current := Some(ended);
    }

    method MirrorChain(account: string, now: int, answer: ChainAnswer) returns (current: Option<Subscription>)
      modifies store
      ensures
        match Mirrored(catalog, old(store.Value()), account, now, answer)
        case None => current == None && store.Value() == old(store.Value())
        case Some(mirror) => current == Some(mirror.1) && store.Value() == mirror.0
    {
      if answer.Silent? || now >= answer.expires * SECOND {
        return None;
      }
      var plan := catalog.Plan(answer.plan);
      if plan.None? {
        return None;
      }
      var mirrored := store.PutSubscription(
        Subscription(account, plan.value.id, answer.started * SECOND, answer.expires * SECOND, Active));
      var _ := Credit(account, plan.value.tokens, Grant, OnChain(answer.plan, answer.started), 0, now);
      current := Some(mirrored);
    }

    method BeginFree(account: string, now: int) returns (current: Option<Subscription>)
      modifies store
      ensures (store.Value(), current) == BegunFree(catalog, old(store.Value()), account, now)
    {
      var plan := catalog.FreePlan();
      if plan.None? {
        return None;
      }
      var subscription := store.PutSubscription(Subscription.Begin(account, plan.value, now));
      GrantPeriod(account, plan.value, subscription, now);
      current := Some(subscription);
    }

    method GrantPeriod(account: string, plan: Plan, subscription: Subscription, now: int)
      modifies store
      ensures store.Value() ==
              Credited(old(store.Value()), account, plan.tokens, Grant, 0, PeriodGrant(subscription), now)
    {
      var _ := Credit(account, plan.tokens, Grant, ForGrant(subscription.planId, subscription.renewsAt), 0, now);
    }

    method ExpireGrant(account: string, subscription: Subscription, now: int)
      modifies store
      ensures store.Value() == GrantExpired(old(store.Value()), account, subscription, now)
    {
      var balance := AccountBalance(account);
      WriteExpiry(account, subscription, balance.granted, now);
    }

    /** The half after the await, of whatever the half before it read. */
    method WriteExpiry(account: string, subscription: Subscription, granted: int, now: int)
      modifies store
      ensures store.Value() == ExpiryWritten(old(store.Value()), account, subscription, granted, now)
    {
      if granted <= 0 {
        return;
      }
      var _ := store.Append(
        Entry(account, Expiry, -granted, now, 0, ForExpiry(subscription.planId, subscription.renewsAt)));
    }

    method Deliver(invoice: Invoice, now: int) returns (r: Result<(), BillingError>)
      modifies store
      ensures
        match Delivered(catalog, old(store.Value()), invoice, now)
        case Err(e) => r == Err(e) && store.Value() == old(store.Value())
        case Ok(after) => r.Ok? && store.Value() == after
    {
      var product := catalog.Product(invoice.sku);
      if product.None? {
        return Err(UnknownProduct(invoice.sku));
      }
      var kind := if product.value.PlanOf? then Grant else Purchase;
      var _ := Credit(invoice.account, invoice.tokens, kind, ForInvoice(invoice.id), invoice.price, now);
      if product.value.PlanOf? {
        var current := store.Value().SubscriptionOf(invoice.account);
        var _ := store.PutSubscription(Subscribed(product.value.plan, invoice, current, now));
      }
      r := Ok(());
    }

    method Reconcile(open: seq<string>, asked: string -> Asked, now: int) returns (settled: seq<Invoice>)
      modifies store
      ensures (store.Value(), settled) == Reconciled(catalog, old(store.Value()), open, asked, now)
    {
      settled := [];
      ghost var was := store.Value();
      for i := 0 to |open|
        invariant (store.Value(), settled) == Reconciled(catalog, was, open[..i], asked, now)
      {
        assert open[..i + 1][..i] == open[..i];
        var confirmed := Attempt(open[i], asked(open[i]), now);
        if confirmed.Some? && confirmed.value.status.Paid? {
          settled := settled + [confirmed.value];
        }
      }
      assert open[..|open|] == open;
    }

    method Attempt(id: string, asked: Asked, now: int) returns (confirmed: Option<Invoice>)
      modifies store
      ensures (store.Value(), confirmed) == Confirmed(catalog, old(store.Value()), id, asked, now)
    {
      if asked.Unreachable? && id in store.invoices && !store.invoices[id].status.Paid? {
        return None;
      }
      var r := Confirm(id, if asked.Heard? then asked.payment else None, now);
      confirmed := if r.Ok? then Some(r.value) else None;
    }

    /** One call of `confirm` with nothing interleaved. */
    method Confirm(id: string, payment: Option<Payment>, now: int) returns (r: Result<Invoice, BillingError>)
      modifies store
      ensures
        var was := old(store.Value());
        KeyedInvoices(was) && id in was.invoices && !was.invoices[id].status.Paid? ==>
          && id in store.invoices
          && (store.invoices[id].status.Paid? <==> payment.Some? && PaysFor(payment.value, was.invoices[id]))
      ensures id !in old(store.Value()).invoices ==>
                r == Err(InvoiceNotFound(id)) && store.Value() == old(store.Value())
      ensures id in old(store.Value()).invoices ==>
                var was := old(store.Value());
                var invoice := was.invoices[id];
                if invoice.status.Paid? then r == Ok(invoice) && store.Value() == was
                else match Judged(invoice, payment, now)
                  case Unchanged => r == Ok(invoice) && store.Value() == was
                  case Lapsing =>
                    r == Ok(invoice.MarkedLapsed()) && store.Value() == was.PutInvoice(invoice.MarkedLapsed())
                  case Settling =>
                    var paid := invoice.MarkedPaid(payment.value.txHash, payment.value.payer);
                    match Delivered(catalog, was.PutInvoice(paid), paid, now)
                    case Err(e) => r == Err(e) && store.Value() == was.PutInvoice(paid)
                    case Ok(after) => r == Ok(paid) && store.Value() == after
    {
      if id !in store.invoices {
        return Err(InvoiceNotFound(id));
      }
      var invoice := store.invoices[id];
      if invoice.status.Paid? {
        return Ok(invoice);
      }
      if payment.Some? {
        SettlingIsPayingFor(payment.value, invoice);
      }
      if payment.None? {
        if !invoice.IsOpen(now) {
          var lapsed := store.PutInvoice(invoice.MarkedLapsed());
          return Ok(lapsed);
        }
        return Ok(invoice);
      }
      if !Settles(payment.value, invoice) {
        return Ok(invoice);
      }
      var paid := store.PutInvoice(invoice.MarkedPaid(payment.value.txHash, payment.value.payer));
      var delivered := Deliver(paid, now);
      if delivered.Err? {
        return Err(delivered.error);
      }
      r := Ok(paid);
    }
  }
}
