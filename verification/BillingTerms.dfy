/**
 What the billing commands do, told in the fields of what they are given: the price a plan has,
 the clock, the payment's memo and amount. Micros and microseconds are written out.
 */
module BillingTerms {
  import opened Prelude
  import opened Ledger
  import opened Catalog
  import opened Store
  import opened Billing
  import opened Settlement
  import opened BillingRuns
  import opened BillingHistory
  import PaidInvoices
  import Pricing

  // ---------- settling ----------

  /** A plan of this name whose price is zero. */
  predicate IsAFreePlan(c: Catalog, planId: string) {
    match c.Product(planId)
    case Some(PlanOf(plan)) => plan.price == 0
    case _ => false
  }

  /** The chain reports a period that has not ended, of a plan on sale here. */
  predicate ChainIsLive(c: Catalog, now: int, answer: ChainAnswer) {
    match answer
    case Silent => false
    case Reports(plan, _, expires) =>
      now < expires * 1_000_000 && c.Product(plan).Some? && c.Product(plan).value.PlanOf?
  }

  function PeriodOf(plan: Plan): int {
    (match plan.cadence case Weekly => 7 case _ => 30) * 24 * 3600 * 1_000_000
  }

  /** A live chain wins: its period becomes the account's row, and its plan's tokens are granted on its start. */
  lemma LiveChainIsMirrored(c: Catalog, b: Books, account: string, now: int, answer: ChainAnswer)
    ensures Mirrored(c, b, account, now, answer).Some? <==> ChainIsLive(c, now, answer)
    ensures ChainIsLive(c, now, answer) ==>
              var plan, after := c.Product(answer.plan).value.plan, Settled(c, b, account, now, answer).0;
              && after.invoices == b.invoices
              && after.subscriptions == b.subscriptions[account :=
                   Subscription(account, plan.id, answer.started * 1_000_000, answer.expires * 1_000_000, Active)]
              && after.ledger == Append(b.ledger,
                   Entry(account, Grant, plan.tokens, now, 0, OnChain(answer.plan, answer.started)))
  {
  }

  /** An account with no row starts a period of the first plan at price zero, if there is one. */
  lemma FirstReadingStartsTheFreePlan(c: Catalog, b: Books, account: string, now: int, answer: ChainAnswer, n: nat)
    requires account !in b.subscriptions && !ChainIsLive(c, now, answer)
    requires n < |c.plans| && c.plans[n].price == 0 && forall i :: 0 <= i < n ==> c.plans[i].price != 0
    ensures
      var plan := c.plans[n];
      var ends := now + PeriodOf(plan);
      Settled(c, b, account, now, answer).0 ==
      b.(subscriptions := b.subscriptions[account := Subscription(account, plan.id, now, ends, Active)],
         ledger := Append(b.ledger, Entry(account, Grant, plan.tokens, now, 0, ForGrant(plan.id, ends))))
  {
    LiveChainIsMirrored(c, b, account, now, answer);
    FirstAtZero(c.plans, n);
  }

  lemma NothingStartsWithoutAFreePlan(c: Catalog, b: Books, account: string, now: int, answer: ChainAnswer)
    requires account !in b.subscriptions && !ChainIsLive(c, now, answer)
    requires forall i :: 0 <= i < |c.plans| ==> c.plans[i].price != 0
    ensures Settled(c, b, account, now, answer).0 == b
  {
    LiveChainIsMirrored(c, b, account, now, answer);
    FreePlanIsTheFirstAtZero(c.plans);
  }

  lemma FirstAtZero(plans: seq<Plan>, n: nat)
    requires n < |plans| && plans[n].price == 0 && forall i :: 0 <= i < n ==> plans[i].price != 0
    ensures FirstFree(plans) == Some(plans[n])
  {
    FreePlanIsTheFirstAtZero(plans);
    var m: nat :| m < |plans| && plans[m] == FirstFree(plans).value && plans[m].price == 0
                  && forall i :: 0 <= i < m ==> plans[i].price != 0;
    assert m == n;
  }

  /** A period that is not over, or not running, is left alone. */
  lemma UnfinishedPeriodIsLeftAlone(c: Catalog, b: Books, account: string, now: int, answer: ChainAnswer)
    requires account in b.subscriptions && !ChainIsLive(c, now, answer)
    requires b.subscriptions[account].status != Active || now < b.subscriptions[account].renewsAt
    ensures Settled(c, b, account, now, answer).0 == b
  {
    LiveChainIsMirrored(c, b, account, now, answer);
  }

  /**
   A running period that is over, with nothing live on chain, is renewed exactly when its plan is
   still on sale at price zero; any other ends, and grants nothing. What it still granted is
   taken back either way.
   */
  lemma OverIsRenewedIffItsPriceIsZero(c: Catalog, b: Books, account: string, now: int, answer: ChainAnswer)
    requires account in b.subscriptions && b.subscriptions[account].account == account && !ChainIsLive(c, now, answer)
    requires b.subscriptions[account].status == Active && now >= b.subscriptions[account].renewsAt
    ensures
      var s, after := b.subscriptions[account], Settled(c, b, account, now, answer).0;
      && after.invoices == b.invoices && account in after.subscriptions
      && (forall other :: other != account ==> after.SubscriptionOf(other) == b.SubscriptionOf(other))
      && (after.subscriptions[account].status == Active <==> IsAFreePlan(c, s.planId))
      && (IsAFreePlan(c, s.planId) ==>
            after.subscriptions[account] ==
            Subscription(account, s.planId, now, now + PeriodOf(c.Product(s.planId).value.plan), Active))
      && (!IsAFreePlan(c, s.planId) ==>
            && after.subscriptions[account] == Subscription(account, s.planId, s.startedAt, s.renewsAt, Expired)
            && !GrantsFreeWeek(b.ledger, after.ledger))
  {
    LiveChainIsMirrored(c, b, account, now, answer);
    if !IsAFreePlan(c, b.subscriptions[account].planId) {
      FreeWeekGrantedIffDue(c, b, account, now, answer);
    }
  }

  /** And the rows that are written for it. */
  lemma OverWritesTheseRows(c: Catalog, b: Books, account: string, now: int, answer: ChainAnswer)
    requires account in b.subscriptions && b.subscriptions[account].account == account && !ChainIsLive(c, now, answer)
    requires b.subscriptions[account].status == Active && now >= b.subscriptions[account].renewsAt
    ensures
      var s, after := b.subscriptions[account], Settled(c, b, account, now, answer).0.ledger;
      var shown := BalanceOf(account, b.Rows(account)).granted;
      var expired :=
        if shown <= 0 then b.ledger
        else Append(b.ledger, Entry(account, Expiry, -shown, now, 0, ForExpiry(s.planId, s.renewsAt)));
      after ==
      if !IsAFreePlan(c, s.planId) then expired
      else
        var plan := c.Product(s.planId).value.plan;
        Append(expired, Entry(account, Grant, plan.tokens, now, 0, ForGrant(s.planId, now + PeriodOf(plan))))
  {
    LiveChainIsMirrored(c, b, account, now, answer);
  }

  /** What a settling answers with is the row it leaves the account with. */
  lemma SettlingAnswersWithItsRow(c: Catalog, b: Books, account: string, now: int, answer: ChainAnswer)
    requires WellKeyed(b)
    ensures
      var (after, current) := Settled(c, b, account, now, answer);
      current == if account in after.subscriptions then Some(after.subscriptions[account]) else None
  {
  }

  // ---------- charging ----------

  /** A debit carries the account, the run, the tokens and what the run cost. */
  lemma ChargeIsOneDebit(b: Books, rates: Pricing.Rates, account: string, runId: string, usage: Pricing.Usage, now: int)
    ensures
      Charged(b, rates, account, runId, usage, now) ==
      if rates.Billable(usage) <= 0 then b
      else b.(ledger := Append(b.ledger,
                Entry(account, Usage, 0 - rates.Billable(usage), now, usage.cost, ForRun(runId))))
  {
  }

  // ---------- confirming ----------

  /**
   One call of `confirm` on an unpaid invoice, with nothing in between: it is paid exactly when
   the payment found is for it, by memo, destination, asset and amount; it lapses exactly when
   none was found after its deadline, or it had lapsed before; and otherwise nothing changes.
   */
  lemma ConfirmPaysIffPaidFor(c: Catalog, b: Books, id: string, asked: Asked, now: int)
    requires KeyedInvoices(b) && id in b.invoices && b.invoices[id].status != Paid
    ensures
      var was, after := b.invoices[id], Confirmed(c, b, id, asked, now).0;
      && id in after.invoices
      && (after.invoices[id].status == Paid <==>
            asked.Heard? && asked.payment.Some? && PaysFor(asked.payment.value, was))
      && (after.invoices[id].status == Paid ==>
            after.invoices[id] ==
            was.(status := Paid, txHash := asked.payment.value.txHash, payer := asked.payment.value.payer))
      && (after.invoices[id].status != Paid ==>
            && after.ledger == b.ledger && after.subscriptions == b.subscriptions
            && after.invoices[id] ==
               if asked.Heard? && asked.payment.None? && !(was.status == Pending && now < was.expiresAt)
               then was.(status := Lapsed) else was)
      && (forall other :: other != id ==> (other in after.invoices <==> other in b.invoices))
      && (forall other :: other != id && other in b.invoices ==> after.invoices[other] == b.invoices[other])
  {
    if asked.Heard? && asked.payment.Some? {
      SettlingIsPayingFor(asked.payment.value, b.invoices[id]);
    }
  }

  /** It answers with the invoice it leaves; it raises only for an unknown id, no answer, or nothing to deliver. */
  lemma ConfirmAnswersWithItsInvoice(c: Catalog, b: Books, id: string, asked: Asked, now: int)
    requires KeyedInvoices(b)
    ensures
      var (after, r) := Confirmed(c, b, id, asked, now);
      && (r.None? <==>
            || id !in b.invoices
            || (b.invoices[id].status != Paid
                && (asked.Unreachable?
                    || (asked.payment.Some? && PaysFor(asked.payment.value, b.invoices[id])
                        && c.Product(b.invoices[id].sku).None?))))
      && (r.Some? ==> id in after.invoices && r.value == after.invoices[id])
  {
    if id in b.invoices && asked.Heard? && asked.payment.Some? {
      SettlingIsPayingFor(asked.payment.value, b.invoices[id]);
    }
  }

  /** Asked of an id nobody issued, or of a paid invoice, it changes nothing. */
  lemma ConfirmLeavesThePaidAlone(c: Catalog, b: Books, id: string, asked: Asked, now: int)
    requires id !in b.invoices || b.invoices[id].status == Paid
    ensures Confirmed(c, b, id, asked, now) ==
            (b, if id in b.invoices then Some(b.invoices[id]) else None)
  {
  }

  /**
   What a delivery credits: the invoice's tokens at its price, to its account, as a grant for a
   plan and as a purchase for a pack; and a plan's period runs from now, whatever the row before.
   */
  lemma DeliveryCreditsTheInvoice(c: Catalog, b: Books, i: Invoice, now: int)
    requires WellKeyed(b)
    ensures
      match c.Product(i.sku)
      case None => Delivered(c, b, i, now) == Err(UnknownProduct(i.sku))
      case Some(PackOf(_)) =>
        Delivered(c, b, i, now) ==
        Ok(b.(ledger := Append(b.ledger, Entry(i.account, Purchase, i.tokens, now, i.price, ForInvoice(i.id)))))
      case Some(PlanOf(plan)) =>
        Delivered(c, b, i, now) ==
        Ok(b.(ledger := Append(b.ledger, Entry(i.account, Grant, i.tokens, now, i.price, ForInvoice(i.id))),
              subscriptions := b.subscriptions[i.account :=
                Subscription(i.account, plan.id, now, now + PeriodOf(plan), Active)]))
  {
  }

  // ---------- over every history ----------

  /**
   In every reachable state, whatever is interleaved: one step makes an unpaid invoice read paid
   exactly when a call that read it takes the decision on a payment for it.
   */
  lemma PaidExactlyByAPaymentForIt(u: Setup, history: seq<Step>, step: Step, id: string)
    requires var g := Run(u, START, history); id in g.books.invoices && g.books.invoices[id].status != Paid
    ensures
      var g := Run(u, START, history);
      var after := Next(u, g, step).books.invoices;
      && id in after
      && (after[id].status == Paid <==>
            && step.Decide? && step.call in g.calls && g.calls[step.call].Fetched?
            && g.calls[step.call].invoice.id == id
            && step.payment.Some? && PaysFor(step.payment.value, g.books.invoices[id]))
  {
    InvoicesStaySound(u, history);
    var g := Run(u, START, history);
    if step.Decide? && step.call in g.calls && g.calls[step.call].Fetched? {
      DecidingPays(u, g, step, id);
    } else {
      OtherStepsPayNothing(u, g, step, id);
    }
  }

  lemma DecidingPays(u: Setup, g: Gateway, step: Step, id: string)
    requires InvoicesAreSound(u, g) && id in g.books.invoices && g.books.invoices[id].status != Paid
    requires step.Decide? && step.call in g.calls && g.calls[step.call].Fetched?
    ensures
      var after := Next(u, g, step).books.invoices;
      && id in after
      && (after[id].status == Paid <==>
            && g.calls[step.call].invoice.id == id
            && step.payment.Some? && PaysFor(step.payment.value, g.books.invoices[id]))
  {
    var i := g.calls[step.call].invoice;
    assert i.id in g.books.invoices && i.SameTerms(g.books.invoices[i.id]);
    if step.payment.Some? {
      SettlingIsPayingFor(step.payment.value, i);
    }
  }

  lemma OtherStepsPayNothing(u: Setup, g: Gateway, step: Step, id: string)
    requires InvoicesAreSound(u, g) && id in g.books.invoices && g.books.invoices[id].status != Paid
    requires !(step.Decide? && step.call in g.calls && g.calls[step.call].Fetched?)
    ensures id in Next(u, g, step).books.invoices && Next(u, g, step).books.invoices[id].status != Paid
  {
    if step.Issue? {
      PuttingKeepsTheTerms(g.books, step.issued, id);
    } else {
      NoInvoiceIsTouched(u, g, step);
    }
  }

  lemma NoInvoiceIsTouched(u: Setup, g: Gateway, step: Step)
    requires !step.Issue? && !(step.Decide? && step.call in g.calls && g.calls[step.call].Fetched?)
    ensures Next(u, g, step).books.invoices == g.books.invoices
  {
    if step.Settle? {
      SettlingExtends(u.catalog, g.books, step.account, step.now, step.answer);
    }
  }

  /** So whatever reads paid, in any history, was paid for, and the payment is remembered. */
  lemma PaidWasPaidFor(u: Setup, history: seq<Step>, id: string)
    requires var g := Run(u, START, history); id in g.books.invoices && g.books.invoices[id].status == Paid
    ensures
      var g := Run(u, START, history);
      id in g.paidBy && PaysFor(g.paidBy[id], g.books.invoices[id])
  {
    PaidInvoices.PaymentIsRemembered(u, history, id);
    InvoicesStaySound(u, history);
    var g := Run(u, START, history);
    SettlingIsPayingFor(g.paidBy[id], g.books.invoices[id]);
  }
}
