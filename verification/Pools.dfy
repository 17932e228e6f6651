/**
 Which of the two pools a row moves, and by how much: grants are spent before anything bought,
 and what was bought stays until it is spent.
 */
module Pools {
  import opened Prelude
  import opened Ledger
  import opened Catalog
  import opened Store
  import opened Billing
  import opened Settlement
  import opened BillingRuns
  import opened BillingHistory

  const BOUGHT: set<Kind> := {Purchase, Refund}

  /** A row of each kind, in numbers. A debit takes from the bought pool only once nothing granted is left. */
  lemma RowMovesItsPool(rows: seq<Entry>, e: Entry)
    requires Lawful(rows)
    ensures
      var was, now := Replay(rows), Replay(rows + [e]);
      match e.kind
      case Grant => now.granted == was.granted + e.tokens && now.purchased == was.purchased
      case Purchase => now.purchased == was.purchased + e.tokens && now.granted == was.granted
      case Refund => now.purchased == was.purchased + e.tokens && now.granted == was.granted
      case Expiry =>
        now.purchased == was.purchased
        && now.granted == if was.granted + e.tokens < 0 then 0 else was.granted + e.tokens
      case _ =>
        && now.granted + now.purchased == was.granted + was.purchased + e.tokens
        && (was.granted + e.tokens >= 0 ==> now.purchased == was.purchased)
        && (was.granted + e.tokens < 0 ==> now.granted == 0)
  {
    PoolsAddUp(rows);
    ReplayAppend(rows, e);
  }

  /** With no debit, what is in the bought pool is everything bought. */
  lemma {:induction false} UnspentIsEverythingBought(rows: seq<Entry>)
    requires Lawful(rows) && forall i :: 0 <= i < |rows| ==> !rows[i].kind.Usage? && !rows[i].kind.Adjustment?
    ensures Replay(rows).purchased == SumOf(rows, BOUGHT)
  {
    if rows != [] {
      var before, last := rows[..|rows| - 1], rows[|rows| - 1];
      UnspentIsEverythingBought(before);
      assert rows == before + [last];
      RowMovesItsPool(before, last);
    }
  }

  /** What is shown of the two pools: a debt is taken out of what was granted, and neither is negative. */
  lemma ShownOfThePools(account: string, rows: seq<Entry>)
    requires Lawful(rows)
    ensures
      var p, b := Replay(rows), BalanceOf(account, rows);
      && b.account == account
      && (p.purchased >= 0 ==> b.purchased == p.purchased && b.granted == p.granted)
      && (p.purchased < 0 && p.granted + p.purchased >= 0 ==> b.purchased == 0 && b.granted == p.granted + p.purchased)
      && (p.granted + p.purchased < 0 ==> b.purchased == 0 && b.granted == 0)
  {
    PoolsAddUp(rows);
  }

  // ---------- usage within a window ----------

  /** The runs charged from an instant on, oldest first. */
  function ChargedSince(rows: seq<Entry>, since: Option<int>): seq<Entry> {
    if rows == [] then []
    else
      (if rows[0].kind == Usage && (since == None || rows[0].at >= since.value) then [rows[0]] else [])
      + ChargedSince(rows[1..], since)
  }

  function CostsOf(rows: seq<Entry>): int {
    if rows == [] then 0 else rows[0].amount + CostsOf(rows[1..])
  }

  function TokensOf(rows: seq<Entry>): int {
    if rows == [] then 0 else rows[0].tokens + TokensOf(rows[1..])
  }

  lemma {:induction false} OneMoreCharged(rows: seq<Entry>, e: Entry, since: Option<int>)
    ensures ChargedSince(rows + [e], since) == ChargedSince(rows, since) + ChargedSince([e], since)
  {
    if rows == [] {
      assert rows + [e] == [e];
    } else {
      assert (rows + [e])[1..] == rows[1..] + [e];
      OneMoreCharged(rows[1..], e, since);
    }
  }

  lemma {:induction false} SumsAppend(rows: seq<Entry>, e: Entry)
    ensures CostsOf(rows + [e]) == CostsOf(rows) + e.amount && TokensOf(rows + [e]) == TokensOf(rows) + e.tokens
  {
    if rows == [] {
      assert rows + [e] == [e] && [e][1..] == [];
    } else {
      assert (rows + [e])[1..] == rows[1..] + [e];
      SumsAppend(rows[1..], e);
    }
  }

  lemma {:induction false} ChargedSinceHas(rows: seq<Entry>, since: Option<int>)
    ensures forall e :: e in ChargedSince(rows, since) <==>
                        e in rows && e.kind == Usage && (since == None || e.at >= since.value)
  {
    if rows != [] {
      ChargedSinceHas(rows[1..], since);
      assert rows == [rows[0]] + rows[1..];
    }
  }

  lemma OneCharged(e: Entry, since: Option<int>)
    ensures ChargedSince([e], since) == if e.kind == Usage && (since == None || e.at >= since.value) then [e] else []
  {
    assert [e][1..] == [];
  }

  lemma {:induction false} SummaryAddsUp(rows: seq<Entry>, since: Option<int>)
    ensures
      var summary, charged := UsageOf(rows, since), ChargedSince(rows, since);
      summary.runs == |charged| && summary.tokens == -TokensOf(charged) && summary.cost == CostsOf(charged)
  {
    if rows != [] {
      var before, last := rows[..|rows| - 1], rows[|rows| - 1];
      SummaryAddsUp(before, since);
      assert rows == before + [last];
      OneMoreCharged(before, last, since);
      OneCharged(last, since);
      if ChargedSince([last], since) == [last] {
        SumsAppend(ChargedSince(before, since), last);
      } else {
        assert ChargedSince(before, since) + [] == ChargedSince(before, since);
      }
    }
  }

  /** A usage summary counts the runs charged in the window, what they were debited and what they cost. */
  lemma SummaryIsOfTheWindow(rows: seq<Entry>, since: Option<int>)
    ensures
      var summary, charged := UsageOf(rows, since), ChargedSince(rows, since);
      && summary.runs == |charged| && summary.tokens == -TokensOf(charged) && summary.cost == CostsOf(charged)
      && forall e :: e in charged <==> e in rows && e.kind == Usage && (since == None || e.at >= since.value)
  {
    SummaryAddsUp(rows, since);
    ChargedSinceHas(rows, since);
  }

  // ---------- what was bought is kept ----------

  function Bought(b: Books, account: string): int { SumOf(b.Rows(account), BOUGHT) }

  function BoughtLeft(b: Books, account: string): int { Replay(b.Rows(account)).purchased }

  /** Nothing was taken out of the bought pool: it grew by exactly what was bought, if anything. */
  ghost predicate KeepsBought(b: Books, after: Books, account: string) {
    BoughtLeft(after, account) - BoughtLeft(b, account) == Bought(after, account) - Bought(b, account) >= 0
  }

  lemma CreditKeepsBought(b: Books, after: Books, row: Entry, account: string)
    requires AllLawful(b.ledger) && after.ledger == Append(b.ledger, row)
    requires row.account != account || row.kind.Expiry? || (row.kind in CREDITS && row.tokens >= 0)
    ensures KeepsBought(b, after, account)
  {
    if after.ledger != b.ledger {
      OfAppend(b.ledger, row, account);
      if row.account == account {
        assert Lawful(Of(b.ledger, account));
        RowMovesItsPool(b.Rows(account), row);
        SumAppend(b.Rows(account), row, BOUGHT);
      }
    }
  }

  lemma ClosingKeepsBought(c: Catalog, b: Books, account: string, now: int, a: string)
    requires AllLawful(b.ledger) && account in b.subscriptions
    ensures KeepsBought(b, Closed(c, b, account, b.subscriptions[account], now).0, a)
  {
    var s := b.subscriptions[account];
    var granted := BalanceOf(account, b.Rows(account)).granted;
    var expired := GrantExpired(b, account, s, now);
    if granted > 0 {
      CreditKeepsBought(b, expired, ExpiryRow(account, s, granted, now), a);
    }
    ExpiryForgivesNothing(b, account, s, now);
    assert AllLawful(expired.ledger) by {
      assert forall x :: Lawful(Of(expired.ledger, x));
    }
    if c.Plan(s.planId).Some? && c.Plan(s.planId).value.IsFree() {
      var plan := c.Plan(s.planId).value;
      var after := Closed(c, b, account, s, now).0;
      CreditKeepsBought(expired, after, Entry(account, Grant, plan.tokens, now, 0, PeriodGrant(s.Renewed(plan, now))),
                        a);
    }
  }

  lemma SettlingKeepsBought(c: Catalog, b: Books, account: string, now: int, answer: ChainAnswer, a: string)
    requires AllLawful(b.ledger)
    ensures KeepsBought(b, Settled(c, b, account, now, answer).0, a)
  {
    var after := Settled(c, b, account, now, answer).0;
    if Mirrored(c, b, account, now, answer).Some? {
      var tokens := c.Plan(answer.plan).value.tokens;
      CreditKeepsBought(b, after, Entry(account, Grant, tokens, now, 0, OnChain(answer.plan, answer.started)), a);
    } else if b.SubscriptionOf(account).None? {
      if c.FreePlan().Some? {
        var plan := c.FreePlan().value;
        var row := Entry(account, Grant, plan.tokens, now, 0, PeriodGrant(Subscription.Begin(account, plan, now)));
        CreditKeepsBought(b, after, row, a);
      }
    } else if b.subscriptions[account].Due(now) {
      ClosingKeepsBought(c, b, account, now, a);
    }
  }

  /** Nothing but a charge of its own takes from what an account bought. */
  lemma StepKeepsBought(u: Setup, g: Gateway, step: Step, a: string)
    requires AllLawful(g.books.ledger) && !(step.Charge? && step.account == a)
    ensures KeepsBought(g.books, Next(u, g, step).books, a)
  {
    var after := Next(u, g, step).books;
    match step
    case Settle(account, now, answer) => SettlingKeepsBought(u.catalog, g.books, account, now, answer, a);
    case DeliverTokens(call, now) =>
      if call in g.calls && g.calls[call].MarkedPaid? && u.catalog.Product(g.calls[call].invoice.sku).Some? {
        var i := g.calls[call].invoice;
        CreditKeepsBought(g.books, after, DeliveryRow(u.catalog.Product(i.sku).value, i, now), a);
      }
    case Charge(account, runId, usage, now) =>
      if u.rates.Billable(usage) > 0 {
        CreditKeepsBought(g.books, after, DebitRow(account, runId, u.rates.Billable(usage), usage.cost, now), a);
      }
    case OtherCredit(account, tokens, kind, text, now) =>
      if kind in CREDITS {
        CreditKeepsBought(g.books, after, Entry(account, kind, tokens, now, 0, Other(text)), a);
      }
    case _ =>
  }

  /** Over any commands but charges of the account, `confirm` cut anywhere, what it bought stays and more adds to it. */
  lemma {:induction false} BoughtIsKept(u: Setup, g: Gateway, steps: seq<Step>, a: string)
    requires AllLawful(g.books.ledger)
    requires forall n :: 0 <= n < |steps| ==> !(steps[n].Charge? && steps[n].account == a)
    ensures AllLawful(Run(u, g, steps).books.ledger)
    ensures KeepsBought(g.books, Run(u, g, steps).books, a)
  {
    if steps != [] {
      var before := Run(u, g, steps[..|steps| - 1]);
      BoughtIsKept(u, g, steps[..|steps| - 1], a);
      StepKeepsBought(u, before, steps[|steps| - 1], a);
      StepForgivesNothing(u, before, steps[|steps| - 1]);
      assert forall x :: Lawful(Of(Run(u, g, steps).books.ledger, x));
    }
  }

  /**
   A pack's tokens go into the pool that does not expire, and are all still there after any
   settlings, deliveries and credits, as long as the account is charged nothing.
   */
  lemma PackIsKept(u: Setup, history: seq<Step>, call: nat, now: int, steps: seq<Step>)
    requires var g := Run(u, START, history); call in g.calls && g.calls[call].MarkedPaid?
    requires
      var g := Run(u, START, history);
      && u.catalog.Product(g.calls[call].invoice.sku).Some?
      && u.catalog.Product(g.calls[call].invoice.sku).value.PackOf?
      && !Recorded(g.books.ledger, ForInvoice(g.calls[call].invoice.id))
      && forall n :: 0 <= n < |steps| ==> !(steps[n].Charge? && steps[n].account == g.calls[call].invoice.account)
    ensures
      var g := Run(u, START, history);
      var i := g.calls[call].invoice;
      var after := Run(u, Next(u, g, DeliverTokens(call, now)), steps).books;
      && BoughtLeft(after, i.account) >= BoughtLeft(g.books, i.account) + i.tokens
      && BalanceOf(i.account, after.Rows(i.account)).purchased >= BoughtLeft(g.books, i.account) + i.tokens
  {
    NothingIsEverForgiven(u, history);
    var g := Run(u, START, history);
    var i := g.calls[call].invoice;
    var delivered := Next(u, g, DeliverTokens(call, now));
    assert AllLawful(g.books.ledger) by {
      assert forall x :: Lawful(Of(g.books.ledger, x));
    }
    StepForgivesNothing(u, g, DeliverTokens(call, now));
    assert AllLawful(delivered.books.ledger) by {
      assert forall x :: Lawful(Of(delivered.books.ledger, x));
    }
    PackLands(u, g, call, now);
    BoughtIsKept(u, delivered, steps, i.account);
    assert Lawful(Of(Run(u, delivered, steps).books.ledger, i.account));
    ShownOfThePools(i.account, Run(u, delivered, steps).books.Rows(i.account));
  }

  lemma PackLands(u: Setup, g: Gateway, call: nat, now: int)
    requires AllLawful(g.books.ledger) && call in g.calls && g.calls[call].MarkedPaid?
    requires
      && u.catalog.Product(g.calls[call].invoice.sku).Some?
      && u.catalog.Product(g.calls[call].invoice.sku).value.PackOf?
      && !Recorded(g.books.ledger, ForInvoice(g.calls[call].invoice.id))
    ensures
      var i := g.calls[call].invoice;
      BoughtLeft(Next(u, g, DeliverTokens(call, now)).books, i.account) == BoughtLeft(g.books, i.account) + i.tokens
  {
    var i := g.calls[call].invoice;
    var row := DeliveryRow(u.catalog.Product(i.sku).value, i, now);
    OfAppend(g.books.ledger, row, i.account);
    assert Lawful(Of(g.books.ledger, i.account));
    RowMovesItsPool(g.books.Rows(i.account), row);
  }
}
