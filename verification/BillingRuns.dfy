/**
 Whole histories of the billing service. Any number of `confirm` calls run at once, cut at
 their awaits, between checkouts, charges, credits and settlings; each of the latter is one
 step. A call may also be abandoned at any await.
 */
module BillingRuns {
  import opened Prelude
  import Pricing
  import opened Ledger
  import opened Catalog
  import opened Store
  import opened Billing
  import opened Settlement

  /** Where a `confirm` call is waiting, with the invoice it read. */
  datatype Phase =
    | Fetched(invoice: Invoice)
    | MarkedPaid(invoice: Invoice)
    | Credit(invoice: Invoice)
    | SawSubscription(invoice: Invoice, current: Option<Subscription>)

  /**
   `paidBy` remembers the payment that first marked an invoice paid, and `lost` the invoices
   one of whose deliveries stopped after marking them paid and before crediting them.
   */
  datatype Gateway = Gateway(
    books: Books, calls: map<nat, Phase>, paidBy: map<string, Payment>, lost: set<string>)

  datatype Step =
    | Issue(issued: Invoice)
    | Fetch(call: nat, id: string)
    | Decide(call: nat, payment: Option<Payment>, now: int)
    | DeliverTokens(call: nat, now: int)
    | ReadSubscription(call: nat)
    | WriteSubscription(call: nat, now: int)
    | Abandon(call: nat)
    | Settle(account: string, now: int, answer: ChainAnswer)
    | Charge(account: string, runId: string, usage: Pricing.Usage, now: int)
    | OtherCredit(account: string, tokens: nat, kind: Kind, text: string, now: int)

  datatype Setup = Setup(catalog: Catalog, rates: Pricing.Rates)

  const START := Gateway(EMPTY, map[], map[], {})

  /** The call's next step from where it waits; a step that is not enabled changes nothing. */
  function Next(u: Setup, g: Gateway, step: Step): Gateway {
    match step
    case Issue(invoice) =>
      if invoice.status.Pending? && u.catalog.Sellable(invoice.sku)
      then g.(books := g.books.PutInvoice(invoice)) else g
    case Fetch(call, id) =>
      if call in g.calls || id !in g.books.invoices || g.books.invoices[id].status.Paid? then g
      else g.(calls := g.calls[call := Fetched(g.books.invoices[id])])
    case Decide(call, payment, now) =>
      if call !in g.calls || !g.calls[call].Fetched? then g
      else Decided(g, call, g.calls[call].invoice, payment, now)
    case DeliverTokens(call, now) =>
      if call !in g.calls || !g.calls[call].MarkedPaid? then g
      else CreditDelivered(u.catalog, g, call, g.calls[call].invoice, now)
    case ReadSubscription(call) =>
      if call !in g.calls || !g.calls[call].Credit? then g
      else
        var invoice := g.calls[call].invoice;
        g.(calls := g.calls[call := SawSubscription(invoice, g.books.SubscriptionOf(invoice.account))])
    case WriteSubscription(call, now) =>
      if call !in g.calls || !g.calls[call].SawSubscription? then g
      else
        var phase := g.calls[call];
        var done := g.(calls := g.calls - {call});
        (match u.catalog.Plan(phase.invoice.sku)
         case None => done
         case Some(plan) =>
           done.(books := g.books.PutSubscription(Subscribed(plan, phase.invoice, phase.current, now))))
    case Abandon(call) =>
      if call !in g.calls then g
      else g.(calls := g.calls - {call},
              lost := if g.calls[call].MarkedPaid? then g.lost + {g.calls[call].invoice.id} else g.lost)
    case Settle(account, now, answer) =>
      g.(books := Settled(u.catalog, g.books, account, now, answer).0)
    case Charge(account, runId, usage, now) =>
      g.(books := Charged(g.books, u.rates, account, runId, usage, now))
    case OtherCredit(account, tokens, kind, text, now) =>
      if kind in CREDITS then g.(books := Credited(g.books, account, tokens, kind, 0, Other(text), now)) else g
  }

  function Decided(g: Gateway, call: nat, invoice: Invoice, payment: Option<Payment>, now: int): Gateway {
    match Judged(invoice, payment, now)
    case Unchanged => g.(calls := g.calls - {call})
    case Lapsing => g.(calls := g.calls - {call}, books := g.books.PutInvoice(invoice.MarkedLapsed()))
    case Settling =>
      var paid := invoice.MarkedPaid(payment.value.txHash, payment.value.payer);
      g.(calls := g.calls[call := MarkedPaid(paid)],
         books := g.books.PutInvoice(paid),
         paidBy := if invoice.id in g.paidBy then g.paidBy else g.paidBy[invoice.id := payment.value])
  }

  /** The credit of a delivery. A product no longer on sale raises, and the call is gone. */
  function CreditDelivered(c: Catalog, g: Gateway, call: nat, invoice: Invoice, now: int): Gateway {
    match c.Product(invoice.sku)
    case None => g.(calls := g.calls - {call}, lost := g.lost + {invoice.id})
    case Some(product) =>
      g.(books := g.books.Record(DeliveryRow(product, invoice, now)),
         calls := if product.PlanOf? then g.calls[call := Credit(invoice)] else g.calls - {call})
  }

  function Run(u: Setup, g: Gateway, steps: seq<Step>): Gateway {
    if steps == [] then g else Next(u, Run(u, g, steps[..|steps| - 1]), steps[|steps| - 1])
  }

  // ---------- one delivery per invoice ----------

  ghost predicate CallsAreHonest(g: Gateway) {
    forall k :: k in g.calls ==>
                  var i := g.calls[k].invoice;
                  && i.id in g.books.invoices
                  && i.SameTerms(g.books.invoices[i.id])
                  && (!g.calls[k].Fetched? ==> i.id in g.paidBy)
                  && (g.calls[k].Credit? || g.calls[k].SawSubscription? ==> Recorded(g.books.ledger, ForInvoice(i.id)))
  }

  /** An invoice's row carries the account, tokens, price and shelf life frozen at checkout. */
  ghost predicate RowIsFrozen(c: Catalog, b: Books, row: Entry) {
    row.reference.ForInvoice? ==>
      && row.reference.id in b.invoices
      && var i := b.invoices[row.reference.id];
      && c.Product(i.sku).Some?
      && row == DeliveryRow(c.Product(i.sku).value, i, row.at)
  }

  ghost predicate RowsAreEarned(u: Setup, g: Gateway) {
    forall n :: 0 <= n < |g.books.ledger| ==>
                  && RowIsFrozen(u.catalog, g.books, g.books.ledger[n])
                  && (g.books.ledger[n].reference.ForInvoice? ==> g.books.ledger[n].reference.id in g.paidBy)
  }

  ghost predicate PaymentsSettle(g: Gateway) {
    forall id :: id in g.paidBy ==>
                   && id in g.books.invoices && g.books.invoices[id].id == id
                   && Settles(g.paidBy[id], g.books.invoices[id])
  }

  /** Every paid invoice is credited, or a call still carries its delivery, or one was lost. */
  ghost predicate Carried(g: Gateway, id: string) {
    exists k :: k in g.calls && g.calls[k].MarkedPaid? && g.calls[k].invoice.id == id
  }

  ghost predicate PaidIsAccountedFor(g: Gateway) {
    forall id :: id in g.books.invoices && g.books.invoices[id].status.Paid? ==>
                   Recorded(g.books.ledger, ForInvoice(id)) || id in g.lost || Carried(g, id)
  }

  ghost predicate InvoicesAreSound(u: Setup, g: Gateway) {
    && Unique(g.books.ledger)
    && (forall id :: id in g.books.invoices ==>
                       g.books.invoices[id].id == id && u.catalog.Sellable(g.books.invoices[id].sku))
    && CallsAreHonest(g)
    && RowsAreEarned(u, g)
    && PaymentsSettle(g)
    && PaidIsAccountedFor(g)
  }

  lemma RecordedGrows(ledger: seq<Entry>, e: Entry, r: Reference)
    ensures Recorded(ledger, r) ==> Recorded(Append(ledger, e), r)
    ensures Recorded(Append(ledger, e), r) ==> Recorded(ledger, r) || r == e.reference
    ensures !e.reference.Unreferenced? ==> Recorded(Append(ledger, e), e.reference)
  {
    var after := Append(ledger, e);
    if Recorded(ledger, r) {
      var i :| 0 <= i < |ledger| && ledger[i].reference == r;
      assert after[i].reference == r;
    }
    if !Refused(ledger, e) {
      assert after[|ledger|] == e;
    }
  }

  /** Only rows that no invoice names were added, and no invoice was touched. */
  ghost predicate Extends(b: Books, after: Books) {
    && after.invoices == b.invoices
    && b.ledger <= after.ledger
    && (Unique(b.ledger) ==> Unique(after.ledger))
    && (forall n :: |b.ledger| <= n < |after.ledger| ==> !after.ledger[n].reference.ForInvoice?)
  }

  lemma ExtendingKeepsInvoices(u: Setup, g: Gateway, after: Books)
    requires InvoicesAreSound(u, g) && Extends(g.books, after)
    ensures InvoicesAreSound(u, g.(books := after))
  {
    var g' := g.(books := after);
    forall r: Reference | Recorded(g.books.ledger, r)
      ensures Recorded(after.ledger, r)
    {
      var i :| 0 <= i < |g.books.ledger| && g.books.ledger[i].reference == r;
      assert after.ledger[i].reference == r;
    }
    forall id | Carried(g, id)
      ensures Carried(g', id)
    {
      var k :| k in g.calls && g.calls[k].MarkedPaid? && g.calls[k].invoice.id == id;
      assert k in g'.calls;
    }
    forall n | 0 <= n < |after.ledger|
      ensures RowIsFrozen(u.catalog, after, after.ledger[n])
      ensures after.ledger[n].reference.ForInvoice? ==> after.ledger[n].reference.id in g.paidBy
    {
      if n < |g.books.ledger| {
        assert after.ledger[n] == g.books.ledger[n];
      }
    }
  }

  lemma RecordingExtends(b: Books, e: Entry)
    requires !e.reference.ForInvoice?
    ensures Extends(b, b.Record(e))
  {
    if Unique(b.ledger) {
      AppendKeepsUnique(b.ledger, e);
    }
  }

  lemma SettlingExtends(c: Catalog, b: Books, account: string, now: int, answer: ChainAnswer)
    ensures Extends(b, Settled(c, b, account, now, answer).0)
  {
    if Mirrored(c, b, account, now, answer).Some? {
      RecordingExtends(b,
                       Entry(account, Grant, c.Plan(answer.plan).value.tokens, now, 0,
                             OnChain(answer.plan, answer.started)));
    } else if b.SubscriptionOf(account).None? {
      if c.FreePlan().Some? {
        var plan := c.FreePlan().value;
        RecordingExtends(b,
                         Entry(account, Grant, plan.tokens, now, 0,
                               PeriodGrant(Subscription.Begin(account, plan, now))));
      }
    } else if b.subscriptions[account].Due(now) {
      ClosingExtends(c, b, account, now);
    }
  }

  lemma ClosingExtends(c: Catalog, b: Books, account: string, now: int)
    requires account in b.subscriptions
    ensures Extends(b, Closed(c, b, account, b.subscriptions[account], now).0)
  {
    var s := b.subscriptions[account];
    var granted := BalanceOf(account, b.Rows(account)).granted;
    var expired := GrantExpired(b, account, s, now);
    RecordingExtends(b, Entry(account, Expiry, -granted, now, 0, ForExpiry(s.planId, s.renewsAt)));
    assert Extends(b, expired);
    if c.Plan(s.planId).Some? && c.Plan(s.planId).value.IsFree() {
      var plan := c.Plan(s.planId).value;
      RecordingExtends(expired, Entry(account, Grant, plan.tokens, now, 0, PeriodGrant(s.Renewed(plan, now))));
    }
  }

  /** A change of invoice statuses and calls that carries every paid invoice along keeps all of it. */
  lemma RetitlingKeepsInvoices(u: Setup, g: Gateway, call: nat, i: Invoice)
    requires InvoicesAreSound(u, g)
    requires i.id in g.books.invoices && i.SameTerms(g.books.invoices[i.id])
    requires call in g.calls && g.calls[call].Fetched? && !i.status.Paid?
    ensures InvoicesAreSound(u, g.(books := g.books.PutInvoice(i), calls := g.calls - {call}))
  {
    SameTermsKeepTheRest(u, g, i);
    CarriedExcept(g, g.(books := g.books.PutInvoice(i), calls := g.calls - {call}), call);
  }

  /** An invoice put again under the same terms changes nothing that rows, calls and payments refer to. */
  lemma SameTermsKeepTheRest(u: Setup, g: Gateway, i: Invoice)
    requires InvoicesAreSound(u, g) && i.id in g.books.invoices && i.SameTerms(g.books.invoices[i.id])
    ensures
      var after := g.(books := g.books.PutInvoice(i));
      && (forall id :: id in after.books.invoices ==>
                         after.books.invoices[id].id == id && u.catalog.Sellable(after.books.invoices[id].sku))
      && CallsAreHonest(after) && RowsAreEarned(u, after) && PaymentsSettle(after)
  {
  }

  lemma PayingKeepsInvoices(u: Setup, g: Gateway, call: nat, payment: Payment)
    requires InvoicesAreSound(u, g) && call in g.calls && g.calls[call].Fetched?
    requires Settles(payment, g.calls[call].invoice)
    ensures InvoicesAreSound(u, Decided(g, call, g.calls[call].invoice, Some(payment), 0))
  {
    var invoice := g.calls[call].invoice;
    var paid := invoice.MarkedPaid(payment.txHash, payment.payer);
    var after := Decided(g, call, invoice, Some(payment), 0);
    SameTermsKeepTheRest(u, g, paid);
    PayingCarries(g, after, call, paid);
  }

  lemma PayingCarries(g: Gateway, after: Gateway, call: nat, paid: Invoice)
    requires PaidIsAccountedFor(g) && call in g.calls && g.calls[call].Fetched?
    requires after.calls == g.calls[call := MarkedPaid(paid)] && after.lost == g.lost
    requires after.books == g.books.PutInvoice(paid)
    ensures PaidIsAccountedFor(after)
  {
    assert after.calls[call] == MarkedPaid(paid);
    assert Carried(after, paid.id);
    CarriedExcept(g, after, call);
  }

  lemma CreditingKeepsInvoices(u: Setup, g: Gateway, call: nat, now: int)
    requires InvoicesAreSound(u, g) && call in g.calls && g.calls[call].MarkedPaid?
    ensures InvoicesAreSound(u, CreditDelivered(u.catalog, g, call, g.calls[call].invoice, now))
  {
    var invoice := g.calls[call].invoice;
    match u.catalog.Product(invoice.sku)
    case None => CarriedExcept(g, CreditDelivered(u.catalog, g, call, invoice, now), call);
    case Some(product) =>
      CreditedRowsAreEarned(u, g, call, now, product);
      CreditedCallsAreHonest(u, g, call, now, product);
      CreditedIsAccountedFor(u, g, call, now, product);
  }

  lemma CreditedRowsAreEarned(u: Setup, g: Gateway, call: nat, now: int, product: Product)
    requires InvoicesAreSound(u, g) && call in g.calls && g.calls[call].MarkedPaid?
    requires u.catalog.Product(g.calls[call].invoice.sku) == Some(product)
    ensures
      var after := CreditDelivered(u.catalog, g, call, g.calls[call].invoice, now);
      Unique(after.books.ledger) && RowsAreEarned(u, after)
  {
    var invoice := g.calls[call].invoice;
    AppendKeepsUnique(g.books.ledger, DeliveryRow(product, invoice, now));
  }

  lemma CreditedCallsAreHonest(u: Setup, g: Gateway, call: nat, now: int, product: Product)
    requires CallsAreHonest(g) && call in g.calls && g.calls[call].MarkedPaid?
    requires u.catalog.Product(g.calls[call].invoice.sku) == Some(product)
    ensures CallsAreHonest(CreditDelivered(u.catalog, g, call, g.calls[call].invoice, now))
  {
    var invoice := g.calls[call].invoice;
    var row, after := DeliveryRow(product, invoice, now), CreditDelivered(u.catalog, g, call, invoice, now);
    forall r: Reference
      ensures Recorded(g.books.ledger, r) ==> Recorded(after.books.ledger, r)
      ensures Recorded(after.books.ledger, row.reference)
    {
      RecordedGrows(g.books.ledger, row, r);
    }
  }

  lemma CreditedIsAccountedFor(u: Setup, g: Gateway, call: nat, now: int, product: Product)
    requires PaidIsAccountedFor(g) && call in g.calls && g.calls[call].MarkedPaid?
    requires u.catalog.Product(g.calls[call].invoice.sku) == Some(product)
    ensures PaidIsAccountedFor(CreditDelivered(u.catalog, g, call, g.calls[call].invoice, now))
  {
    var invoice := g.calls[call].invoice;
    var row, after := DeliveryRow(product, invoice, now), CreditDelivered(u.catalog, g, call, invoice, now);
    CarriedExcept(g, after, call);
    forall r: Reference
      ensures Recorded(g.books.ledger, r) ==> Recorded(after.books.ledger, r)
      ensures Recorded(after.books.ledger, row.reference)
    {
      RecordedGrows(g.books.ledger, row, r);
    }
  }

  /** Dropping or moving one call on leaves what the others carry. */
  lemma CarriedExcept(g: Gateway, after: Gateway, call: nat)
    requires call in g.calls
    requires forall k :: k in g.calls && k != call ==> k in after.calls && after.calls[k] == g.calls[k]
    ensures forall id :: Carried(g, id) ==>
              Carried(after, id) || (g.calls[call].MarkedPaid? && g.calls[call].invoice.id == id)
  {
    forall id | Carried(g, id) && !(g.calls[call].MarkedPaid? && g.calls[call].invoice.id == id)
      ensures Carried(after, id)
    {
      var k :| k in g.calls && g.calls[k].MarkedPaid? && g.calls[k].invoice.id == id;
      assert k in after.calls;
    }
  }

  lemma DroppingKeepsInvoices(u: Setup, g: Gateway, call: nat, lost: set<string>)
    requires InvoicesAreSound(u, g) && call in g.calls && g.lost <= lost
    requires g.calls[call].MarkedPaid? ==> g.calls[call].invoice.id in lost
    ensures InvoicesAreSound(u, g.(calls := g.calls - {call}, lost := lost))
  {
    CarriedExcept(g, g.(calls := g.calls - {call}, lost := lost), call);
  }

  lemma MovingKeepsInvoices(u: Setup, g: Gateway, call: nat, phase: Phase)
    requires InvoicesAreSound(u, g)
    requires call in g.calls ==> !g.calls[call].MarkedPaid?
    requires CallsAreHonest(g.(calls := g.calls[call := phase]))
    ensures InvoicesAreSound(u, g.(calls := g.calls[call := phase]))
  {
    var after := g.(calls := g.calls[call := phase]);
    forall id | Carried(g, id)
      ensures Carried(after, id)
    {
      var k :| k in g.calls && g.calls[k].MarkedPaid? && g.calls[k].invoice.id == id;
      assert k in after.calls;
    }
  }

  lemma IssuingKeepsInvoices(u: Setup, g: Gateway, i: Invoice)
    requires InvoicesAreSound(u, g) && i.status.Pending? && u.catalog.Sellable(i.sku)
    ensures InvoicesAreSound(u, g.(books := g.books.PutInvoice(i)))
  {
    var after := g.(books := g.books.PutInvoice(i));
    assert forall id :: id in g.books.invoices ==>
                          id in after.books.invoices && g.books.invoices[id].SameTerms(after.books.invoices[id]);
    forall id | Carried(g, id)
      ensures Carried(after, id)
    {
      var k :| k in g.calls && g.calls[k].MarkedPaid? && g.calls[k].invoice.id == id;
      assert k in after.calls;
    }
  }

  lemma DecidingKeepsInvoices(u: Setup, g: Gateway, call: nat, payment: Option<Payment>, now: int)
    requires InvoicesAreSound(u, g) && call in g.calls && g.calls[call].Fetched?
    ensures InvoicesAreSound(u, Decided(g, call, g.calls[call].invoice, payment, now))
  {
    var invoice := g.calls[call].invoice;
    match Judged(invoice, payment, now)
    case Unchanged => DroppingKeepsInvoices(u, g, call, g.lost);
    case Lapsing => RetitlingKeepsInvoices(u, g, call, invoice.MarkedLapsed());
    case Settling => PayingKeepsInvoices(u, g, call, payment.value);
  }

  lemma WritingKeepsInvoices(u: Setup, g: Gateway, call: nat, now: int)
    requires InvoicesAreSound(u, g) && call in g.calls && g.calls[call].SawSubscription?
    ensures InvoicesAreSound(u, Next(u, g, WriteSubscription(call, now)))
  {
    DroppingKeepsInvoices(u, g, call, g.lost);
    WrittenExtends(u, g, call, now);
    ExtendingKeepsInvoices(u, g.(calls := g.calls - {call}), Next(u, g, WriteSubscription(call, now)).books);
  }

  lemma WrittenExtends(u: Setup, g: Gateway, call: nat, now: int)
    requires call in g.calls && g.calls[call].SawSubscription?
    ensures
      var after := Next(u, g, WriteSubscription(call, now));
      Extends(g.books, after.books) && after == g.(calls := g.calls - {call}, books := after.books)
  {
  }

  lemma IssueStepIsSound(u: Setup, g: Gateway, step: Step)
    requires InvoicesAreSound(u, g) && step.Issue?
    ensures InvoicesAreSound(u, Next(u, g, step))
  {
    if step.issued.status.Pending? && u.catalog.Sellable(step.issued.sku) {
      IssuingKeepsInvoices(u, g, step.issued);
    }
  }

  lemma FetchStepIsSound(u: Setup, g: Gateway, step: Step)
    requires InvoicesAreSound(u, g) && step.Fetch?
    ensures InvoicesAreSound(u, Next(u, g, step))
  {
    if step.call !in g.calls && step.id in g.books.invoices && !g.books.invoices[step.id].status.Paid? {
      MovingKeepsInvoices(u, g, step.call, Fetched(g.books.invoices[step.id]));
    }
  }

  lemma DecideStepIsSound(u: Setup, g: Gateway, step: Step)
    requires InvoicesAreSound(u, g) && step.Decide?
    ensures InvoicesAreSound(u, Next(u, g, step))
  {
    if step.call in g.calls && g.calls[step.call].Fetched? {
      DecidingKeepsInvoices(u, g, step.call, step.payment, step.now);
    }
  }

  lemma DeliverStepIsSound(u: Setup, g: Gateway, step: Step)
    requires InvoicesAreSound(u, g) && step.DeliverTokens?
    ensures InvoicesAreSound(u, Next(u, g, step))
  {
    if step.call in g.calls && g.calls[step.call].MarkedPaid? {
      CreditingKeepsInvoices(u, g, step.call, step.now);
    }
  }

  lemma ReadStepIsSound(u: Setup, g: Gateway, step: Step)
    requires InvoicesAreSound(u, g) && step.ReadSubscription?
    ensures InvoicesAreSound(u, Next(u, g, step))
  {
    if step.call in g.calls && g.calls[step.call].Credit? {
      var invoice := g.calls[step.call].invoice;
      MovingKeepsInvoices(u, g, step.call, SawSubscription(invoice, g.books.SubscriptionOf(invoice.account)));
    }
  }

  lemma WriteStepIsSound(u: Setup, g: Gateway, step: Step)
    requires InvoicesAreSound(u, g) && step.WriteSubscription?
    ensures InvoicesAreSound(u, Next(u, g, step))
  {
    if step.call in g.calls && g.calls[step.call].SawSubscription? {
      WritingKeepsInvoices(u, g, step.call, step.now);
    }
  }

  lemma AbandonStepIsSound(u: Setup, g: Gateway, step: Step)
    requires InvoicesAreSound(u, g) && step.Abandon?
    ensures InvoicesAreSound(u, Next(u, g, step))
  {
    if step.call in g.calls {
      var lost := if g.calls[step.call].MarkedPaid? then g.lost + {g.calls[step.call].invoice.id} else g.lost;
      DroppingKeepsInvoices(u, g, step.call, lost);
    }
  }

  lemma StepKeepsInvoices(u: Setup, g: Gateway, step: Step)
    requires InvoicesAreSound(u, g)
    ensures InvoicesAreSound(u, Next(u, g, step))
  {
    if step.Issue? {
      IssueStepIsSound(u, g, step);
    } else if step.Fetch? {
      FetchStepIsSound(u, g, step);
    } else if step.Decide? {
      DecideStepIsSound(u, g, step);
    } else if step.DeliverTokens? {
      DeliverStepIsSound(u, g, step);
    } else if step.ReadSubscription? {
      ReadStepIsSound(u, g, step);
    } else if step.WriteSubscription? {
      WriteStepIsSound(u, g, step);
    } else if step.Abandon? {
      AbandonStepIsSound(u, g, step);
    } else {
      OtherStepsKeepInvoices(u, g, step);
    }
  }

  lemma OtherStepsKeepInvoices(u: Setup, g: Gateway, step: Step)
    requires InvoicesAreSound(u, g)
    requires step.Settle? || step.Charge? || step.OtherCredit?
    ensures InvoicesAreSound(u, Next(u, g, step))
  {
    match step
    case Settle(account, now, answer) =>
      SettlingExtends(u.catalog, g.books, account, now, answer);
      ExtendingKeepsInvoices(u, g, Next(u, g, step).books);
    case Charge(account, runId, usage, now) =>
      RecordingExtends(g.books, DebitRow(account, runId, u.rates.Billable(usage), usage.cost, now));
      ExtendingKeepsInvoices(u, g, Next(u, g, step).books);
    case OtherCredit(account, tokens, kind, text, now) =>
      RecordingExtends(g.books, Entry(account, kind, tokens, now, 0, Other(text)));
      ExtendingKeepsInvoices(u, g, Next(u, g, step).books);
  }

  lemma {:induction false} InvoicesStaySound(u: Setup, steps: seq<Step>)
    ensures InvoicesAreSound(u, Run(u, START, steps))
  {
    if steps != [] {
      InvoicesStaySound(u, steps[..|steps| - 1]);
      StepKeepsInvoices(u, Run(u, START, steps[..|steps| - 1]), steps[|steps| - 1]);
    }
  }

  // ---------- taken in a row, they are the confirm ----------

  lemma RunFive(u: Setup, g: Gateway, a: Step, b: Step, c: Step, d: Step, e: Step)
    ensures Run(u, g, [a, b, c, d, e]) == Next(u, Next(u, Next(u, Next(u, Next(u, g, a), b), c), d), e)
  {
    RunOne(u, g, [], a);
    RunOne(u, g, [] + [a], b);
    RunOne(u, g, [] + [a] + [b], c);
    RunOne(u, g, [] + [a] + [b] + [c], d);
    RunOne(u, g, [] + [a] + [b] + [c] + [d], e);
    assert [] + [a] + [b] + [c] + [d] + [e] == [a, b, c, d, e];
  }

  lemma RunOne(u: Setup, g: Gateway, steps: seq<Step>, step: Step)
    ensures Run(u, g, steps + [step]) == Next(u, Run(u, g, steps), step)
  {
    assert (steps + [step])[..|steps|] == steps;
  }

  function Delivering(u: Setup, g: Gateway, call: nat, now: int): Gateway {
    Next(u, Next(u, Next(u, g, DeliverTokens(call, now)), ReadSubscription(call)), WriteSubscription(call, now))
  }

  lemma DeliveringInARow(u: Setup, g: Gateway, call: nat, now: int)
    requires call in g.calls ==> g.calls[call].MarkedPaid?
    ensures call !in g.calls ==> Delivering(u, g, call, now) == g
    ensures call in g.calls ==>
              var after := Delivering(u, g, call, now);
              && after.calls == g.calls - {call}
              && after.books == match Delivered(u.catalog, g.books, g.calls[call].invoice, now)
                                case Ok(b) => b
                                case Err(_) => g.books
  {
  }

  lemma DecidingInARow(u: Setup, g: Gateway, call: nat, i: Invoice, payment: Option<Payment>, now: int)
    requires call !in g.calls && i.id in g.books.invoices && g.books.invoices[i.id] == i && !i.status.Paid?
    ensures
      var decided := Next(u, g.(calls := g.calls[call := Fetched(i)]), Decide(call, payment, now));
      var after := Delivering(u, decided, call, now);
      && after.calls == g.calls
      && after.books == Confirmed(u.catalog, g.books, i.id, Heard(payment), now).0
  {
    var decided := Next(u, g.(calls := g.calls[call := Fetched(i)]), Decide(call, payment, now));
    DeliveringInARow(u, decided, call, now);
    assert g.calls[call := Fetched(i)] - {call} == g.calls;
    if Judged(i, payment, now).Settling? {
      var paid := i.MarkedPaid(payment.value.txHash, payment.value.payer);
      assert g.calls[call := Fetched(i)][call := MarkedPaid(paid)] - {call} == g.calls;
    }
  }

  /** The steps of one call with nothing in between are the whole call, and it is gone. */
  lemma InARowTheyConfirm(u: Setup, g: Gateway, call: nat, id: string, payment: Option<Payment>, now: int)
    requires call !in g.calls && KeyedInvoices(g.books)
    ensures
      var after := Run(u, g, [Fetch(call, id), Decide(call, payment, now), DeliverTokens(call, now),
                              ReadSubscription(call), WriteSubscription(call, now)]);
      && after.calls == g.calls
      && after.books == Confirmed(u.catalog, g.books, id, Heard(payment), now).0
  {
    RunFive(u, g, Fetch(call, id), Decide(call, payment, now), DeliverTokens(call, now),
            ReadSubscription(call), WriteSubscription(call, now));
    if id in g.books.invoices && !g.books.invoices[id].status.Paid? {
      DecidingInARow(u, g, call, g.books.invoices[id], payment, now);
    } else {
      DeliveringInARow(u, g, call, now);
    }
  }
}
