/** What every history of the billing service keeps, whatever the interleaving. */
module BillingHistory {
  import opened Prelude
  import opened Ledger
  import opened Catalog
  import opened Store
  import opened Billing
  import opened Settlement
  import opened BillingRuns

  // ---------- invoices ----------

  /**
   However many calls confirm an invoice at once, and wherever they are cut, it is credited at
   most once, with the account, tokens and price frozen at checkout, and only against a payment
   that settles it. Once no call is in flight, every paid invoice is credited unless one of its
   deliveries was cut off between the two writes.
   */
  lemma ConfirmedAtMostOnce(u: Setup, steps: seq<Step>, id: string)
    ensures
      var g := Run(u, START, steps);
      var rows := g.books.ledger;
      && (forall n, m :: 0 <= n < m < |rows| ==>
                           !(rows[n].reference == ForInvoice(id) && rows[m].reference == ForInvoice(id)))
      && (forall n :: 0 <= n < |rows| && rows[n].reference == ForInvoice(id) ==>
                        && id in g.books.invoices
                        && rows[n].account == g.books.invoices[id].account
                        && rows[n].tokens == g.books.invoices[id].tokens
                        && rows[n].amount == g.books.invoices[id].price
                        && (rows[n].kind == if u.catalog.Plan(g.books.invoices[id].sku).Some? then Grant else Purchase)
                        && id in g.paidBy && Settles(g.paidBy[id], g.books.invoices[id]))
      && (g.calls == map[] && id in g.books.invoices && g.books.invoices[id].status.Paid? && id !in g.lost ==>
            Recorded(rows, ForInvoice(id)))
  {
    InvoicesStaySound(u, steps);
    var g := Run(u, START, steps);
    assert InvoicesAreSound(u, g);
    forall n | 0 <= n < |g.books.ledger| && g.books.ledger[n].reference == ForInvoice(id)
      ensures RowIsFrozen(u.catalog, g.books, g.books.ledger[n]) && id in g.paidBy
    {
    }
  }

  lemma StepOnlyGrows(u: Setup, g: Gateway, step: Step)
    ensures g.books.ledger <= Next(u, g, step).books.ledger
    ensures forall id :: id in g.books.invoices ==>
              id in Next(u, g, step).books.invoices
              && g.books.invoices[id].SameTerms(Next(u, g, step).books.invoices[id])
  {
    match step
    case Settle(account, now, answer) => SettlingExtends(u.catalog, g.books, account, now, answer);
    case _ =>
  }

  /** From any state on: no row is ever edited or removed, and no invoice's terms ever change. */
  lemma {:induction false} HistoryOnlyGrows(u: Setup, g: Gateway, steps: seq<Step>)
    ensures g.books.ledger <= Run(u, g, steps).books.ledger
    ensures forall id :: id in g.books.invoices ==>
              id in Run(u, g, steps).books.invoices
              && g.books.invoices[id].SameTerms(Run(u, g, steps).books.invoices[id])
  {
    if steps != [] {
      var before := steps[..|steps| - 1];
      HistoryOnlyGrows(u, g, before);
      StepOnlyGrows(u, Run(u, g, before), steps[|steps| - 1]);
    }
  }

  lemma RunConcat(u: Setup, g: Gateway, steps: seq<Step>, step: Step)
    ensures Run(u, g, steps + [step]) == Next(u, Run(u, g, steps), step)
  {
    assert (steps + [step])[..|steps|] == steps;
  }

  // ---------- balances ----------

  ghost predicate AllLawful(ledger: seq<Entry>) { forall a :: Lawful(Of(ledger, a)) }

  /** The ledger stays lawful, and what clamped expiries forgave each account is what it was. */
  ghost predicate ForgivesNothing(before: seq<Entry>, after: seq<Entry>) {
    forall a :: Lawful(Of(after, a)) && Clamped(Of(after, a)) == Clamped(Of(before, a))
  }

  /** No grant is negative and no expiry was clamped, for any account. */
  ghost predicate NothingForgiven(ledger: seq<Entry>) {
    forall a :: Lawful(Of(ledger, a)) && Clamped(Of(ledger, a)) == 0
  }

  predicate IsCredit(e: Entry) { !e.kind.Expiry? && (e.kind.Grant? ==> e.tokens >= 0) }

  lemma CreditClampsNothing(rows: seq<Entry>, e: Entry)
    requires Lawful(rows) && IsCredit(e)
    ensures Lawful(rows + [e]) && Clamped(rows + [e]) == Clamped(rows)
  {
    assert (rows + [e])[..|rows|] == rows;
  }

  lemma CreditForgivesNothing(ledger: seq<Entry>, e: Entry)
    requires AllLawful(ledger) && IsCredit(e)
    ensures ForgivesNothing(ledger, Append(ledger, e))
  {
    forall a
      ensures Lawful(Of(Append(ledger, e), a)) && Clamped(Of(Append(ledger, e), a)) == Clamped(Of(ledger, a))
    {
      OfAppend(ledger, e, a);
      CreditClampsNothing(Of(ledger, a), e);
    }
  }

  lemma ExpiryForgivesNothing(b: Books, account: string, s: Subscription, now: int)
    requires AllLawful(b.ledger)
    ensures ForgivesNothing(b.ledger, GrantExpired(b, account, s, now).ledger)
  {
    var after := GrantExpired(b, account, s, now).ledger;
    var row := ExpiryRow(account, s, BalanceOf(account, b.Rows(account)).granted, now);
    if after != b.ledger {
      forall a
        ensures Lawful(Of(after, a)) && Clamped(Of(after, a)) == Clamped(b.Rows(a))
      {
        OfAppend(b.ledger, row, a);
        ExpiryOfOneAccount(b.Rows(a), a, account, row);
      }
    }
  }

  lemma ExpiryOfOneAccount(rows: seq<Entry>, a: string, account: string, row: Entry)
    requires Lawful(rows) && row.account == account && row.kind.Expiry?
    requires a == account ==>
               row == Entry(a, Expiry, -BalanceOf(a, rows).granted, row.at, 0, row.reference) && row.tokens < 0
    ensures var after := if row.account == a then rows + [row] else rows;
            Lawful(after) && Clamped(after) == Clamped(rows)
  {
    if a == account {
      ExpiryIsNeverClamped(rows, a, row.at, row.reference);
    }
  }

  lemma SettlingForgivesNothing(c: Catalog, b: Books, account: string, now: int, answer: ChainAnswer)
    requires AllLawful(b.ledger)
    ensures ForgivesNothing(b.ledger, Settled(c, b, account, now, answer).0.ledger)
  {
    if Mirrored(c, b, account, now, answer).Some? {
      var tokens := c.Plan(answer.plan).value.tokens;
      CreditForgivesNothing(b.ledger, Entry(account, Grant, tokens, now, 0, OnChain(answer.plan, answer.started)));
    } else if b.SubscriptionOf(account).None? {
      if c.FreePlan().Some? {
        var plan := c.FreePlan().value;
        CreditForgivesNothing(b.ledger,
                              Entry(account, Grant, plan.tokens, now, 0,
                                    PeriodGrant(Subscription.Begin(account, plan, now))));
      }
    } else if b.subscriptions[account].Due(now) {
      var s := b.subscriptions[account];
      ExpiryForgivesNothing(b, account, s, now);
      if c.Plan(s.planId).Some? && c.Plan(s.planId).value.IsFree() {
        var plan := c.Plan(s.planId).value;
        CreditForgivesNothing(GrantExpired(b, account, s, now).ledger,
                              Entry(account, Grant, plan.tokens, now, 0, PeriodGrant(s.Renewed(plan, now))));
      }
    }
  }

  lemma StepForgivesNothing(u: Setup, g: Gateway, step: Step)
    requires AllLawful(g.books.ledger)
    ensures ForgivesNothing(g.books.ledger, Next(u, g, step).books.ledger)
  {
    match step
    case Settle(account, now, answer) => SettlingForgivesNothing(u.catalog, g.books, account, now, answer);
    case DeliverTokens(call, now) =>
      if call in g.calls && u.catalog.Product(g.calls[call].invoice.sku).Some? {
        var i := g.calls[call].invoice;
        CreditForgivesNothing(g.books.ledger, DeliveryRow(u.catalog.Product(i.sku).value, i, now));
      }
    case Charge(account, runId, usage, now) =>
      CreditForgivesNothing(g.books.ledger, DebitRow(account, runId, u.rates.Billable(usage), usage.cost, now));
    case OtherCredit(account, tokens, kind, text, now) =>
      if kind in CREDITS {
        CreditForgivesNothing(g.books.ledger, Entry(account, kind, tokens, now, 0, Other(text)));
      }
    case _ =>
  }

  lemma {:induction false} NothingIsEverForgiven(u: Setup, steps: seq<Step>)
    ensures NothingForgiven(Run(u, START, steps).books.ledger)
  {
    if steps != [] {
      NothingIsEverForgiven(u, steps[..|steps| - 1]);
      StepForgivesNothing(u, Run(u, START, steps[..|steps| - 1]), steps[|steps| - 1]);
    }
  }

  /**
   In every reachable ledger a balance is exactly what was credited, less what was used and
   what expired, floored at zero; an overspend is carried until it is worked off.
   */
  lemma BalanceIsWhatHappened(u: Setup, steps: seq<Step>, account: string)
    ensures
      var rows := Run(u, START, steps).books.Rows(account);
      && BalanceOf(account, rows).Total() == Max(0, Signed(rows))
      && Signed(rows) == SumOf(rows, CREDITS) - UsageOf(rows, None).tokens
                         + SumOf(rows, {Expiry}) + SumOf(rows, {Adjustment})
  {
    NothingIsEverForgiven(u, steps);
    var rows := Run(u, START, steps).books.Rows(account);
    assert Lawful(rows) && Clamped(rows) == 0;
    BalanceIsSignedSum(account, rows);
    RowsReconcile(rows);
  }
}
