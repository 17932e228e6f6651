/**
 How often the free plan can grant: at least a week apart, however often an account is read, as
 long as each settling is one step.
 */
module FreeGrants {
  import opened Prelude
  import opened Ledger
  import opened Catalog
  import opened Store
  import opened Billing
  import opened Settlement
  import opened BillingRuns

  /** When the free plan granted, oldest first. */
  function Times(rows: seq<Entry>): seq<int> {
    if rows == [] then []
    else
      var rest, e := Times(rows[..|rows| - 1]), rows[|rows| - 1];
      if e.reference.ForGrant? then rest + [e.at] else rest
  }

  ghost predicate Spaced(times: seq<int>) {
    forall i, j :: 0 <= i < j < |times| ==> times[i] + WEEK <= times[j]
  }

  function Within(times: seq<int>, from: int, to: int): nat {
    if times == [] then 0
    else Within(times[..|times| - 1], from, to) + (if from <= times[|times| - 1] <= to then 1 else 0)
  }

  lemma {:induction false} EarlierBound(times: seq<int>, from: int, to: int, bound: int)
    requires forall i :: 0 <= i < |times| ==> times[i] <= bound
    ensures Within(times, from, to) == Within(times, from, Min(to, bound))
  {
    if times != [] {
      EarlierBound(times[..|times| - 1], from, to, bound);
    }
  }

  lemma {:induction false} SpacedCount(times: seq<int>, from: int, to: int)
    requires Spaced(times)
    ensures Within(times, from, to) <= if from <= to then 1 + (to - from) / WEEK else 0
    decreases |times|
  {
    if times != [] {
      var before, last := times[..|times| - 1], times[|times| - 1];
      if from <= last <= to {
        EarlierBound(before, from, to, last - WEEK);
        SpacedCount(before, from, last - WEEK);
      } else {
        SpacedCount(before, from, to);
      }
    }
  }

  // ---------- the invariant ----------

  predicate NamesFree(c: Catalog, planId: string) {
    c.Plan(planId).Some? && c.Plan(planId).value.IsFree()
  }

  /** An account with no subscription row was never granted; one on the free plan is not due for a week. */
  ghost predicate WeekApart(c: Catalog, rows: seq<Entry>, s: Option<Subscription>) {
    && Spaced(Times(rows))
    && (s.None? ==> Times(rows) == [])
    && (s.Some? && NamesFree(c, s.value.planId) ==> forall t :: t in Times(rows) ==> t + WEEK <= s.value.renewsAt)
  }

  ghost predicate AllWeekApart(c: Catalog, b: Books) {
    && WellKeyed(b)
    && forall a :: WeekApart(c, b.Rows(a), b.SubscriptionOf(a))
  }

  ghost predicate SawTheirOwn(g: Gateway) {
    forall k :: k in g.calls && g.calls[k].SawSubscription? && g.calls[k].current.Some? ==>
                  g.calls[k].current.value.account == g.calls[k].invoice.account
  }

  lemma TimesAppend(rows: seq<Entry>, e: Entry)
    ensures Times(rows + [e]) == if e.reference.ForGrant? then Times(rows) + [e.at] else Times(rows)
  {
    assert (rows + [e])[..|rows|] == rows;
  }

  lemma OtherRowsKeepWeeks(c: Catalog, b: Books, e: Entry)
    requires AllWeekApart(c, b) && !e.reference.ForGrant?
    ensures AllWeekApart(c, b.Record(e))
  {
    forall a
      ensures WeekApart(c, b.Record(e).Rows(a), b.Record(e).SubscriptionOf(a))
    {
      assert WeekApart(c, b.Rows(a), b.SubscriptionOf(a));
      OfAppend(b.ledger, e, a);
      TimesAppend(b.Rows(a), e);
    }
  }

  lemma PaidPlanKeepsWeeks(c: Catalog, b: Books, s: Subscription)
    requires AllWeekApart(c, b) && !NamesFree(c, s.planId)
    ensures AllWeekApart(c, b.PutSubscription(s))
  {
    forall a
      ensures WeekApart(c, b.Rows(a), b.PutSubscription(s).SubscriptionOf(a))
    {
      assert WeekApart(c, b.Rows(a), b.SubscriptionOf(a));
    }
  }

  lemma SpacedAppend(times: seq<int>, t: int)
    requires Spaced(times) && forall x :: x in times ==> x + WEEK <= t
    ensures Spaced(times + [t])
  {
    assert forall i :: 0 <= i < |times| ==> times[i] in times;
  }

  lemma NewPeriodOfOne(c: Catalog, rows: seq<Entry>, s: Subscription, row: Entry)
    requires Spaced(Times(rows)) && row.reference.ForGrant? && row.at + WEEK <= s.renewsAt
    requires forall t :: t in Times(rows) ==> t + WEEK <= row.at
    ensures WeekApart(c, rows + [row], Some(s)) && WeekApart(c, rows, Some(s))
  {
    TimesAppend(rows, row);
    SpacedAppend(Times(rows), row.at);
  }

  /** A new period may be started once every earlier grant is a week old. */
  lemma NewPeriodKeepsWeeks(c: Catalog, b: Books, account: string, plan: Plan, s: Subscription, now: int)
    requires AllWeekApart(c, b)
    requires s.account == account && s.renewsAt == now + plan.Period()
    requires forall t :: t in Times(b.Rows(account)) ==> t + WEEK <= now
    ensures AllWeekApart(c, Started(b, account, plan, s, now))
  {
    var after := Started(b, account, plan, s, now);
    forall a
      ensures WeekApart(c, after.Rows(a), after.SubscriptionOf(a))
    {
      assert WeekApart(c, b.Rows(a), b.SubscriptionOf(a));
      NewPeriodKeepsWeeksOf(c, b, account, plan, s, now, a);
    }
  }

  lemma NewPeriodKeepsWeeksOf(c: Catalog, b: Books, account: string, plan: Plan, s: Subscription, now: int, a: string)
    requires WeekApart(c, b.Rows(a), b.SubscriptionOf(a))
    requires s.account == account && s.renewsAt == now + plan.Period()
    requires forall t :: t in Times(b.Rows(account)) ==> t + WEEK <= now
    ensures var after := Started(b, account, plan, s, now); WeekApart(c, after.Rows(a), after.SubscriptionOf(a))
  {
    var row := Entry(account, Grant, plan.tokens, now, 0, PeriodGrant(s));
    OfAppend(b.ledger, row, a);
    if a == account {
      NewPeriodOfOne(c, b.Rows(account), s, row);
    }
  }

  lemma MirroringKeepsWeeks(c: Catalog, b: Books, account: string, now: int, answer: ChainAnswer)
    requires AllWeekApart(c, b) && Mirrored(c, b, account, now, answer).Some? && !NamesFree(c, answer.plan)
    ensures AllWeekApart(c, Mirrored(c, b, account, now, answer).value.0)
  {
    var plan, s := c.Plan(answer.plan).value, Mirrored(c, b, account, now, answer).value.1;
    FirstPlanIsNamed(c.plans, answer.plan);
    PaidPlanKeepsWeeks(c, b, s);
    OtherRowsKeepWeeks(c, b.PutSubscription(s),
                       Entry(account, Grant, plan.tokens, now, 0, OnChain(answer.plan, answer.started)));
  }

  lemma ExpiringKeepsWeeks(c: Catalog, b: Books, account: string, s: Subscription, now: int)
    requires AllWeekApart(c, b)
    ensures AllWeekApart(c, GrantExpired(b, account, s, now))
    ensures Times(GrantExpired(b, account, s, now).Rows(account)) == Times(b.Rows(account))
  {
    var row := Entry(account, Expiry, -BalanceOf(account, b.Rows(account)).granted, now, 0,
                     ForExpiry(s.planId, s.renewsAt));
    OtherRowsKeepWeeks(c, b, row);
    OfAppend(b.ledger, row, account);
    TimesAppend(b.Rows(account), row);
  }

  lemma ClosingKeepsWeeks(c: Catalog, b: Books, account: string, now: int)
    requires AllWeekApart(c, b) && account in b.subscriptions && b.subscriptions[account].Due(now)
    ensures AllWeekApart(c, Closed(c, b, account, b.subscriptions[account], now).0)
  {
    assert WeekApart(c, b.Rows(account), b.SubscriptionOf(account));
    var s := b.subscriptions[account];
    var expired := GrantExpired(b, account, s, now);
    ExpiringKeepsWeeks(c, b, account, s, now);
    if NamesFree(c, s.planId) {
      var plan := c.Plan(s.planId).value;
      NewPeriodKeepsWeeks(c, expired, account, plan, s.Renewed(plan, now), now);
    } else {
      PaidPlanKeepsWeeks(c, expired, s.Ended());
    }
  }

  lemma SettlingKeepsWeeks(c: Catalog, b: Books, account: string, now: int, answer: ChainAnswer)
    requires AllWeekApart(c, b)
    requires answer.Reports? ==> !NamesFree(c, answer.plan)
    ensures AllWeekApart(c, Settled(c, b, account, now, answer).0)
  {
    if Mirrored(c, b, account, now, answer).Some? {
      MirroringKeepsWeeks(c, b, account, now, answer);
    } else if b.SubscriptionOf(account).None? {
      assert WeekApart(c, b.Rows(account), b.SubscriptionOf(account));
      if c.FreePlan().Some? {
        var plan := c.FreePlan().value;
        NewPeriodKeepsWeeks(c, b, account, plan, Subscription.Begin(account, plan, now), now);
      }
    } else if b.subscriptions[account].Due(now) {
      ClosingKeepsWeeks(c, b, account, now);
    }
  }

  /** The contract refuses to sell for nothing; here, that no answer of it names a free plan. */
  predicate ChainSellsPaid(c: Catalog, step: Step) {
    step.Settle? && step.answer.Reports? ==> !NamesFree(c, step.answer.plan)
  }

  lemma WritingKeepsWeeks(u: Setup, g: Gateway, call: nat, now: int)
    requires InvoicesAreSound(u, g) && AllWeekApart(u.catalog, g.books) && SawTheirOwn(g)
    requires call in g.calls && g.calls[call].SawSubscription?
    ensures AllWeekApart(u.catalog, Next(u, g, WriteSubscription(call, now)).books)
  {
    var phase := g.calls[call];
    var i := phase.invoice;
    if u.catalog.Plan(i.sku).Some? {
      var plan := u.catalog.Plan(i.sku).value;
      FirstPlanIsNamed(u.catalog.plans, i.sku);
      assert u.catalog.Sellable(g.books.invoices[i.id].sku) && g.books.invoices[i.id].sku == i.sku;
      PaidPlanKeepsWeeks(u.catalog, g.books, Subscribed(plan, i, phase.current, now));
    }
  }

  lemma StepKeepsWeeks(u: Setup, g: Gateway, step: Step)
    requires InvoicesAreSound(u, g) && AllWeekApart(u.catalog, g.books) && SawTheirOwn(g)
    requires ChainSellsPaid(u.catalog, step)
    ensures AllWeekApart(u.catalog, Next(u, g, step).books)
  {
    var c := u.catalog;
    match step
    case Settle(account, now, answer) => SettlingKeepsWeeks(c, g.books, account, now, answer);
    case DeliverTokens(call, now) =>
      if call in g.calls && c.Product(g.calls[call].invoice.sku).Some? {
        var i := g.calls[call].invoice;
        OtherRowsKeepWeeks(c, g.books, DeliveryRow(c.Product(i.sku).value, i, now));
      }
    case Charge(account, runId, usage, now) =>
      OtherRowsKeepWeeks(c, g.books, DebitRow(account, runId, u.rates.Billable(usage), usage.cost, now));
    case OtherCredit(account, tokens, kind, text, now) =>
      OtherRowsKeepWeeks(c, g.books, Entry(account, kind, tokens, now, 0, Other(text)));
    case WriteSubscription(call, now) =>
      if call in g.calls && g.calls[call].SawSubscription? {
        WritingKeepsWeeks(u, g, call, now);
      }
    case _ => InvoiceStepsKeepWeeks(u, g, step);
  }

  lemma StepSeesItsOwn(u: Setup, g: Gateway, step: Step)
    requires WellKeyed(g.books) && SawTheirOwn(g)
    ensures SawTheirOwn(Next(u, g, step))
  {
  }

  lemma InvoiceStepsKeepWeeks(u: Setup, g: Gateway, step: Step)
    requires AllWeekApart(u.catalog, g.books)
    requires step.Issue? || step.Fetch? || step.Decide? || step.ReadSubscription? || step.Abandon?
    ensures AllWeekApart(u.catalog, Next(u, g, step).books)
  {
    var after := Next(u, g, step).books;
    forall a
      ensures WeekApart(u.catalog, after.Rows(a), after.SubscriptionOf(a))
    {
      assert WeekApart(u.catalog, g.books.Rows(a), g.books.SubscriptionOf(a));
    }
  }

  lemma {:induction false} WeeksStayApart(u: Setup, steps: seq<Step>)
    requires forall n :: 0 <= n < |steps| ==> ChainSellsPaid(u.catalog, steps[n])
    ensures AllWeekApart(u.catalog, Run(u, START, steps).books) && SawTheirOwn(Run(u, START, steps))
  {
    if steps != [] {
      var before := steps[..|steps| - 1];
      WeeksStayApart(u, before);
      InvoicesStaySound(u, before);
      StepKeepsWeeks(u, Run(u, START, before), steps[|steps| - 1]);
      StepSeesItsOwn(u, Run(u, START, before), steps[|steps| - 1]);
    }
  }

  /**
   In every history of settlings of one step each, consecutive free grants to an account are at
   least a week apart, so any span of time holds at most one more of them than whole weeks.
   */
  lemma FreeGrantRate(u: Setup, steps: seq<Step>, account: string, from: int, to: int)
    requires forall n :: 0 <= n < |steps| ==> ChainSellsPaid(u.catalog, steps[n])
    requires from <= to
    ensures
      var times := Times(Run(u, START, steps).books.Rows(account));
      Spaced(times) && Within(times, from, to) <= 1 + (to - from) / WEEK
  {
    WeeksStayApart(u, steps);
    var b := Run(u, START, steps).books;
    assert WeekApart(u.catalog, b.Rows(account), b.SubscriptionOf(account));
    SpacedCount(Times(b.Rows(account)), from, to);
  }
}
