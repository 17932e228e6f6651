/**
 What can become of an invoice once it reads paid: when it can stop reading so, and when a
 delivery that was cut off can still be made up for.
 */
module PaidInvoices {
  import opened Prelude
  import opened Ledger
  import opened Catalog
  import opened Store
  import opened Billing
  import opened BillingRuns
  import opened BillingHistory

  predicate ReadsPaid(g: Gateway, id: string) { id in g.books.invoices && g.books.invoices[id].status.Paid? }

  ghost predicate NeverReissued(steps: seq<Step>, id: string) {
    forall n :: 0 <= n < |steps| && steps[n].Issue? ==> steps[n].issued.id != id
  }

  lemma NeverReissuedBefore(steps: seq<Step>, id: string)
    requires NeverReissued(steps, id) && steps != []
    ensures NeverReissued(steps[..|steps| - 1], id)
  {
    assert forall n :: 0 <= n < |steps| - 1 ==> steps[..|steps| - 1][n] == steps[n];
  }

  /** The payment that first marked an invoice paid is remembered for as long as it reads so. */
  lemma {:induction false} PaymentIsRemembered(u: Setup, steps: seq<Step>, id: string)
    requires ReadsPaid(Run(u, START, steps), id)
    ensures id in Run(u, START, steps).paidBy
  {
    var before := steps[..|steps| - 1];
    if ReadsPaid(Run(u, START, before), id) {
      PaymentIsRemembered(u, before, id);
    }
    MarkingRemembers(u, Run(u, START, before), steps[|steps| - 1], id);
  }

  lemma MarkingRemembers(u: Setup, g: Gateway, step: Step, id: string)
    requires ReadsPaid(g, id) ==> id in g.paidBy
    ensures ReadsPaid(Next(u, g, step), id) ==> id in Next(u, g, step).paidBy
  {
    if step.Settle? {
      SettlingExtends(u.catalog, g.books, step.account, step.now, step.answer);
    }
  }

  // ---------- when a paid invoice stops reading paid ----------

  /** A call that read the invoice before it was paid finds no payment, and its deadline passed. */
  predicate WritesOff(g: Gateway, step: Step, id: string) {
    && step.Decide? && step.call in g.calls && g.calls[step.call].Fetched?
    && g.calls[step.call].invoice.id == id
    && step.payment.None? && !g.calls[step.call].invoice.IsOpen(step.now)
  }

  predicate Reissues(u: Setup, step: Step, id: string) {
    step.Issue? && step.issued.id == id && step.issued.status.Pending? && u.catalog.Sellable(step.issued.sku)
  }

  /** One step takes "paid" away from an invoice in exactly two ways. */
  lemma PaidIsOverwrittenExactlyWhen(u: Setup, g: Gateway, step: Step, id: string)
    requires ReadsPaid(g, id)
    ensures id in Next(u, g, step).books.invoices
    ensures !ReadsPaid(Next(u, g, step), id) <==> WritesOff(g, step, id) || Reissues(u, step, id)
  {
    if step.Settle? {
      SettlingExtends(u.catalog, g.books, step.account, step.now, step.answer);
    }
  }

  ghost predicate ReadEarlier(g: Gateway, id: string) {
    exists k :: k in g.calls && g.calls[k].Fetched? && g.calls[k].invoice.id == id
  }

  /** Nobody reads a paid invoice as anything to act on, so no such call ever appears. */
  lemma NoNewReader(u: Setup, g: Gateway, step: Step, id: string)
    requires KeyedInvoices(g.books) && ReadsPaid(g, id) && !ReadEarlier(g, id)
    ensures !ReadEarlier(Next(u, g, step), id)
  {
  }

  lemma {:induction false} PaidForGood(u: Setup, g: Gateway, steps: seq<Step>, id: string)
    requires InvoicesAreSound(u, g) && ReadsPaid(g, id) && !ReadEarlier(g, id) && NeverReissued(steps, id)
    ensures
      var after := Run(u, g, steps);
      InvoicesAreSound(u, after) && ReadsPaid(after, id) && !ReadEarlier(after, id)
  {
    if steps != [] {
      var before, last := steps[..|steps| - 1], steps[|steps| - 1];
      NeverReissuedBefore(steps, id);
      PaidForGood(u, g, before, id);
      StepKeepsInvoices(u, Run(u, g, before), last);
      PaidIsOverwrittenExactlyWhen(u, Run(u, g, before), last, id);
      NoNewReader(u, Run(u, g, before), last, id);
    }
  }

  lemma ReaderCanWriteOff(u: Setup, g: Gateway, id: string) returns (steps: seq<Step>)
    requires ReadsPaid(g, id) && ReadEarlier(g, id)
    ensures NeverReissued(steps, id) && !ReadsPaid(Run(u, g, steps), id)
  {
    var k :| k in g.calls && g.calls[k].Fetched? && g.calls[k].invoice.id == id;
    var step := Decide(k, None, g.calls[k].invoice.expiresAt);
    PaidIsOverwrittenExactlyWhen(u, g, step, id);
    RunConcat(u, g, [], step);
    steps := [] + [step];
  }

  /**
   From any reachable state, some continuation makes a paid invoice read otherwise, short of
   issuing it anew, exactly when a call still in flight read it before it was paid.
   */
  lemma PaidCanBeLostIffReadEarlier(u: Setup, history: seq<Step>, id: string)
    requires ReadsPaid(Run(u, START, history), id)
    ensures
      var g := Run(u, START, history);
      (exists steps :: NeverReissued(steps, id) && !ReadsPaid(Run(u, g, steps), id)) <==> ReadEarlier(g, id)
  {
    InvoicesStaySound(u, history);
    var g := Run(u, START, history);
    if ReadEarlier(g, id) {
      var steps := ReaderCanWriteOff(u, g, id);
    } else {
      forall steps | NeverReissued(steps, id)
        ensures ReadsPaid(Run(u, g, steps), id)
      {
        PaidForGood(u, g, steps, id);
      }
    }
  }

  /** An issued pack, paid in full, and two calls that read it before either decides. */
  function RacingConfirms(i: Invoice, p: Payment, late: int): seq<Step> {
    [] + [Issue(i)] + [Fetch(0, i.id)] + [Fetch(1, i.id)] + [Decide(0, Some(p), i.createdAt)]
    + [DeliverTokens(0, i.createdAt)] + [Decide(1, None, late)]
  }

  /** A racing call may write a delivered invoice off as lapsed; its tokens stay all the same. */
  lemma LapsedYetDelivered(u: Setup, i: Invoice, p: Payment, late: int)
    requires i.status.Pending? && Settles(p, i) && late >= i.expiresAt
    requires u.catalog.Product(i.sku).Some? && u.catalog.Product(i.sku).value.PackOf?
    ensures
      var g := Run(u, START, RacingConfirms(i, p, late));
      && g.calls == map[]
      && i.id in g.books.invoices && g.books.invoices[i.id].status == Lapsed
      && g.books.ledger == [DeliveryRow(u.catalog.Product(i.sku).value, i.MarkedPaid(p.txHash, p.payer), i.createdAt)]
  {
    var s1 := [] + [Issue(i)];
    var s2 := s1 + [Fetch(0, i.id)];
    var s3 := s2 + [Fetch(1, i.id)];
    var s4 := s3 + [Decide(0, Some(p), i.createdAt)];
    var s5 := s4 + [DeliverTokens(0, i.createdAt)];
    RunConcat(u, START, [], Issue(i));
    RunConcat(u, START, s1, Fetch(0, i.id));
    RunConcat(u, START, s2, Fetch(1, i.id));
    RunConcat(u, START, s3, Decide(0, Some(p), i.createdAt));
    RunConcat(u, START, s4, DeliverTokens(0, i.createdAt));
    RunConcat(u, START, s5, Decide(1, None, late));
    assert Run(u, START, s3).calls == map[0 := Fetched(i), 1 := Fetched(i)];
    RacedThenLapsed(u, Run(u, START, s3), i, p, late);
  }

  lemma RacedThenLapsed(u: Setup, g: Gateway, i: Invoice, p: Payment, late: int)
    requires g == Gateway(Books([], map[i.id := i], map[]), map[0 := Fetched(i), 1 := Fetched(i)], map[], {})
    requires i.status.Pending? && Settles(p, i) && late >= i.expiresAt
    requires u.catalog.Product(i.sku).Some? && u.catalog.Product(i.sku).value.PackOf?
    ensures
      var after := Next(u, Next(u, Next(u, g, Decide(0, Some(p), i.createdAt)), DeliverTokens(0, i.createdAt)),
                        Decide(1, None, late));
      && after.calls == map[]
      && i.id in after.books.invoices && after.books.invoices[i.id].status == Lapsed
      && after.books.ledger == [DeliveryRow(u.catalog.Product(i.sku).value,
                                            i.MarkedPaid(p.txHash, p.payer), i.createdAt)]
  {
    var decided := Next(u, g, Decide(0, Some(p), i.createdAt));
    assert decided.calls[0] == MarkedPaid(i.MarkedPaid(p.txHash, p.payer));
    assert Next(u, decided, DeliverTokens(0, i.createdAt)).calls == map[1 := Fetched(i)];
  }

  /** Marked paid, never credited, and no call left that read it before it was marked. */
  ghost predicate Stranded(g: Gateway, id: string) {
    && KeyedInvoices(g.books)
    && id in g.books.invoices
    && g.books.invoices[id].status.Paid?
    && !Recorded(g.books.ledger, ForInvoice(id))
    && (forall k :: k in g.calls ==> g.calls[k].invoice.id != id)
  }

  lemma StrandedStep(u: Setup, g: Gateway, step: Step, id: string)
    requires Stranded(g, id) && (step.Issue? ==> step.issued.id != id)
    ensures Stranded(Next(u, g, step), id)
  {
    match step
    case Settle(account, now, answer) => StrandedThroughSettling(u, g, account, now, answer, id);
    case DeliverTokens(call, now) => StrandedThroughDelivery(u, g, call, now, id);
    case Charge(account, runId, usage, now) =>
      RecordedGrows(g.books.ledger, DebitRow(account, runId, u.rates.Billable(usage), usage.cost, now), ForInvoice(id));
    case OtherCredit(account, tokens, kind, text, now) =>
      RecordedGrows(g.books.ledger, Entry(account, kind, tokens, now, 0, Other(text)), ForInvoice(id));
    case Issue(_) => StrandedThroughInvoices(u, g, step, id);
    case Decide(_, _, _) => StrandedThroughInvoices(u, g, step, id);
    case _ => StrandedThroughCalls(u, g, step, id);
  }

  lemma StrandedThroughSettling(u: Setup, g: Gateway, account: string, now: int, answer: ChainAnswer, id: string)
    requires Stranded(g, id)
    ensures Stranded(Next(u, g, Settle(account, now, answer)), id)
  {
    var after := Next(u, g, Settle(account, now, answer));
    SettlingExtends(u.catalog, g.books, account, now, answer);
    assert forall n :: 0 <= n < |g.books.ledger| ==> after.books.ledger[n] == g.books.ledger[n];
  }

  lemma StrandedThroughDelivery(u: Setup, g: Gateway, call: nat, now: int, id: string)
    requires Stranded(g, id)
    ensures Stranded(Next(u, g, DeliverTokens(call, now)), id)
  {
    if call in g.calls {
      var i := g.calls[call].invoice;
      if u.catalog.Product(i.sku).Some? {
        RecordedGrows(g.books.ledger, DeliveryRow(u.catalog.Product(i.sku).value, i, now), ForInvoice(id));
      }
    }
  }

  lemma StrandedThroughInvoices(u: Setup, g: Gateway, step: Step, id: string)
    requires Stranded(g, id) && (step.Issue? ==> step.issued.id != id)
    requires step.Issue? || step.Decide?
    ensures Stranded(Next(u, g, step), id)
  {
  }

  lemma StrandedThroughCalls(u: Setup, g: Gateway, step: Step, id: string)
    requires Stranded(g, id)
    requires step.Fetch? || step.ReadSubscription? || step.WriteSubscription? || step.Abandon?
    ensures Stranded(Next(u, g, step), id)
  {
  }

  /** A paid invoice whose delivery was cut off is never credited by any later step: `confirm` returns it as it is. */
  lemma {:induction false} StrandedForever(u: Setup, g: Gateway, steps: seq<Step>, id: string)
    requires Stranded(g, id) && NeverReissued(steps, id)
    ensures Stranded(Run(u, g, steps), id)
  {
    if steps != [] {
      NeverReissuedBefore(steps, id);
      StrandedForever(u, g, steps[..|steps| - 1], id);
      StrandedStep(u, Run(u, g, steps[..|steps| - 1]), steps[|steps| - 1], id);
    }
  }

  function MarkedPaidOnly(i: Invoice, p: Payment): seq<Step> {
    [] + [Issue(i)] + [Fetch(0, i.id)] + [Decide(0, Some(p), i.createdAt)]
  }

  lemma MarkedPaidFirst(u: Setup, i: Invoice, p: Payment)
    requires i.status.Pending? && Settles(p, i) && u.catalog.Sellable(i.sku)
    ensures
      var paid := i.MarkedPaid(p.txHash, p.payer);
      Run(u, START, MarkedPaidOnly(i, p)) ==
      Gateway(Books([], map[i.id := paid], map[]), map[0 := MarkedPaid(paid)], map[i.id := p], {})
  {
    RunConcat(u, START, [], Issue(i));
    var g1 := Next(u, START, Issue(i));
    assert g1 == Gateway(Books([], map[i.id := i], map[]), map[], map[], {});
    RunConcat(u, START, [] + [Issue(i)], Fetch(0, i.id));
    var g2 := Next(u, g1, Fetch(0, i.id));
    assert g2 == Gateway(Books([], map[i.id := i], map[]), map[0 := Fetched(i)], map[], {});
    RunConcat(u, START, [] + [Issue(i)] + [Fetch(0, i.id)], Decide(0, Some(p), i.createdAt));
    assert Judged(i, Some(p), i.createdAt) == Settling;
  }

  /** Cutting one call off between its two writes is enough to strand an invoice. */
  lemma CutOffDeliveryStrands(u: Setup, i: Invoice, p: Payment)
    requires i.status.Pending? && Settles(p, i) && u.catalog.Sellable(i.sku)
    ensures Stranded(Run(u, START, MarkedPaidOnly(i, p) + [Abandon(0)]), i.id)
  {
    MarkedPaidFirst(u, i, p);
    RunConcat(u, START, MarkedPaidOnly(i, p), Abandon(0));
  }

  // ---------- when a delivery can still be made ----------

  ghost predicate Held(g: Gateway, id: string) {
    exists k :: k in g.calls && g.calls[k].invoice.id == id
  }

  /** A call past its marking credits at the next step. */
  lemma CarriedCanCredit(u: Setup, g: Gateway, k: nat, id: string)
    requires k in g.calls && g.calls[k].MarkedPaid? && g.calls[k].invoice.id == id
    requires u.catalog.Product(g.calls[k].invoice.sku).Some?
    ensures Recorded(Next(u, g, DeliverTokens(k, 0)).books.ledger, ForInvoice(id))
  {
    var i := g.calls[k].invoice;
    RecordedGrows(g.books.ledger, DeliveryRow(u.catalog.Product(i.sku).value, i, 0), ForInvoice(id));
  }

  /** A call that only read it can find the payment again, mark the invoice once more, and credit. */
  lemma ReaderCanCredit(u: Setup, g: Gateway, k: nat, id: string) returns (steps: seq<Step>)
    requires InvoicesAreSound(u, g) && id in g.paidBy
    requires k in g.calls && g.calls[k].Fetched? && g.calls[k].invoice.id == id
    requires u.catalog.Product(g.calls[k].invoice.sku).Some?
    ensures NeverReissued(steps, id) && Recorded(Run(u, g, steps).books.ledger, ForInvoice(id))
  {
    var decide, deliver := Decide(k, Some(g.paidBy[id]), 0), DeliverTokens(k, 0);
    assert g.calls[k].invoice.SameTerms(g.books.invoices[id]);
    assert Settles(g.paidBy[id], g.calls[k].invoice);
    CarriedCanCredit(u, Next(u, g, decide), k, id);
    steps := [] + [decide] + [deliver];
    RunConcat(u, g, [], decide);
    RunConcat(u, g, [] + [decide], deliver);
  }

  lemma HolderCanCredit(u: Setup, g: Gateway, id: string) returns (steps: seq<Step>)
    requires InvoicesAreSound(u, g) && id in g.paidBy && Held(g, id)
    requires !Recorded(g.books.ledger, ForInvoice(id)) && u.catalog.Product(g.books.invoices[id].sku).Some?
    ensures NeverReissued(steps, id) && Recorded(Run(u, g, steps).books.ledger, ForInvoice(id))
  {
    var k :| k in g.calls && g.calls[k].invoice.id == id;
    assert g.calls[k].invoice.SameTerms(g.books.invoices[id]);
    if g.calls[k].Fetched? {
      steps := ReaderCanCredit(u, g, k, id);
    } else {
      var step := DeliverTokens(k, 0);
      CarriedCanCredit(u, g, k, id);
      RunConcat(u, g, [], step);
      steps := [] + [step];
    }
  }

  /**
   A paid invoice that was never credited, and whose product is still sold, can still be
   credited by some continuation exactly when a call in flight holds it; nothing that starts
   later makes up for a delivery that was cut off.
   */
  lemma CreditableIffHeld(u: Setup, history: seq<Step>, id: string)
    requires ReadsPaid(Run(u, START, history), id)
    requires !Recorded(Run(u, START, history).books.ledger, ForInvoice(id))
    requires u.catalog.Product(Run(u, START, history).books.invoices[id].sku).Some?
    ensures
      var g := Run(u, START, history);
      (exists steps :: NeverReissued(steps, id) && Recorded(Run(u, g, steps).books.ledger, ForInvoice(id)))
      <==> Held(g, id)
  {
    InvoicesStaySound(u, history);
    var g := Run(u, START, history);
    if Held(g, id) {
      PaymentIsRemembered(u, history, id);
      var steps := HolderCanCredit(u, g, id);
    } else {
      forall steps | NeverReissued(steps, id)
        ensures !Recorded(Run(u, g, steps).books.ledger, ForInvoice(id))
      {
        StrandedForever(u, g, steps, id);
      }
    }
  }
}
