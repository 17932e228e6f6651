/**
 Settlings cut at their awaits, but taken in turn: an account is not read while another settling
 of it is in flight. Then free weeks stay apart, whatever else goes on in between.
 */
module SettlingsInTurn {
  import opened Prelude
  import opened Ledger
  import opened Catalog
  import opened Store
  import opened Billing
  import Service = BillingRuns
  import opened Settlement
  import opened FreeGrants
  import opened SplitSettling
  import opened OverlappingSettlings

  ghost predicate NoneInFlight(w: World, account: string) {
    forall k :: k in w.visits ==> w.visits[k].account != account
  }

  ghost predicate LooksInTurn(u: Service.Setup, steps: seq<Step>, n: nat)
    requires n < |steps|
  {
    steps[n].Look? ==> NoneInFlight(Run(u, START, steps[..n]), steps[n].account)
  }

  /** Whoever is to grant a week finds every earlier one a week old; its row, once put, is not due for one. */
  ghost predicate IsTimely(c: Catalog, b: Books, v: Visit) {
    KeyOf(c, v).Some? ==>
      && (forall t :: t in Times(b.Rows(v.account)) ==> t + WEEK <= v.now)
      && (v.WroteRow? ==> RowHolds(c, b, v))
  }

  predicate RowHolds(c: Catalog, b: Books, v: Visit) {
    match b.SubscriptionOf(v.account)
    case None => false
    case Some(s) => NamesFree(c, s.planId) ==> v.now + WEEK <= s.renewsAt
  }

  ghost predicate InTurn(c: Catalog, w: World) {
    && (forall j, k :: j in w.visits && k in w.visits && j != k ==> w.visits[j].account != w.visits[k].account)
    && (forall k :: k in w.visits ==> IsTimely(c, w.gateway.books, w.visits[k]))
  }

  // ---------- the ledger's weeks ----------

  lemma FreeRowKeepsWeeks(c: Catalog, b: Books, s: Subscription, now: int)
    requires AllWeekApart(c, b) && now + WEEK <= s.renewsAt
    requires forall t :: t in Times(b.Rows(s.account)) ==> t + WEEK <= now
    ensures AllWeekApart(c, b.PutSubscription(s))
  {
    forall a
      ensures WeekApart(c, b.Rows(a), b.PutSubscription(s).SubscriptionOf(a))
    {
      assert WeekApart(c, b.Rows(a), b.SubscriptionOf(a));
    }
  }

  lemma GrantKeepsWeeks(c: Catalog, b: Books, v: Visit)
    requires AllWeekApart(c, b) && v.WroteRow? && v.owed.reference.ForGrant? && IsTimely(c, b, v)
    ensures AllWeekApart(c, b.Record(GiftRow(v.account, v.owed, v.now)))
  {
    var row := GiftRow(v.account, v.owed, v.now);
    var after := b.Record(row);
    forall a
      ensures WeekApart(c, after.Rows(a), after.SubscriptionOf(a))
    {
      assert WeekApart(c, b.Rows(a), b.SubscriptionOf(a));
      OfAppend(b.ledger, row, a);
      if a == v.account && after.ledger != b.ledger {
        OneMoreWeek(c, b.Rows(a), b.SubscriptionOf(a).value, row);
      }
    }
  }

  lemma OneMoreWeek(c: Catalog, rows: seq<Entry>, s: Subscription, row: Entry)
    requires WeekApart(c, rows, Some(s)) && row.reference.ForGrant?
    requires forall t :: t in Times(rows) ==> t + WEEK <= row.at
    requires NamesFree(c, s.planId) ==> row.at + WEEK <= s.renewsAt
    ensures WeekApart(c, rows + [row], Some(s))
  {
    TimesAppend(rows, row);
    SpacedAppend(Times(rows), row.at);
  }

  lemma StepKeepsWeeksApart(u: Service.Setup, w: World, step: Step)
    requires Grounded(u, w) && AllWeekApart(u.catalog, w.gateway.books) && InTurn(u.catalog, w)
    ensures AllWeekApart(u.catalog, Next(u, w, step).gateway.books)
  {
    var c, b := u.catalog, w.gateway.books;
    match step
    case WriteExpiry(call) =>
      if call in w.visits && w.visits[call].ReadGrant? {
        var v := w.visits[call];
        OtherRowsKeepWeeks(c, b, ExpiryRow(v.account, v.subscription, v.granted, v.now));
      }
    case WriteRow(call) =>
      if call in w.visits && w.visits[call].Chose? {
        var v := w.visits[call];
        assert VisitIsSound(c, v) && IsTimely(c, b, v);
        if KeyOf(c, v).Some? {
          FreeRowKeepsWeeks(c, b, v.subscription, v.now);
        } else {
          PaidPlanKeepsWeeks(c, b, v.subscription);
        }
      }
    case WriteGrant(call) =>
      if call in w.visits && w.visits[call].WroteRow? {
        var v := w.visits[call];
        assert IsTimely(c, b, v);
        if v.owed.reference.ForGrant? {
          GrantKeepsWeeks(c, b, v);
        } else {
          OtherRowsKeepWeeks(c, b, GiftRow(v.account, v.owed, v.now));
        }
      }
    case Elsewhere(other) =>
      if !other.Settle? {
        StepKeepsWeeks(u, w.gateway, other);
      }
    case _ =>
  }

  // ---------- the settlings in flight ----------

  lemma OtherRowsKeepTimes(b: Books, row: Entry, a: string)
    requires !row.reference.ForGrant? || row.account != a
    ensures Times(b.Record(row).Rows(a)) == Times(b.Rows(a))
  {
    OfAppend(b.ledger, row, a);
    TimesAppend(b.Rows(a), row);
  }

  lemma ElsewhereKeepsTimes(u: Service.Setup, g: Service.Gateway, other: Service.Step, a: string)
    requires !other.Settle?
    ensures Times(Service.Next(u, g, other).books.Rows(a)) == Times(g.books.Rows(a))
  {
    match other
    case Charge(account, runId, usage, now) =>
      OtherRowsKeepTimes(g.books, DebitRow(account, runId, u.rates.Billable(usage), usage.cost, now), a);
    case OtherCredit(account, tokens, kind, text, now) =>
      OtherRowsKeepTimes(g.books, Entry(account, kind, tokens, now, 0, Other(text)), a);
    case DeliverTokens(call, now) =>
      if call in g.calls && u.catalog.Product(g.calls[call].invoice.sku).Some? {
        var i := g.calls[call].invoice;
        OtherRowsKeepTimes(g.books, DeliveryRow(u.catalog.Product(i.sku).value, i, now), a);
      }
    case _ =>
  }

  /** Only a settling of its own grants an account a free week. */
  lemma OnlyItsOwnGrants(u: Service.Setup, w: World, step: Step, a: string)
    requires step.WriteGrant? && step.call in w.visits && w.visits[step.call].WroteRow? ==>
               w.visits[step.call].account != a
    ensures Times(Next(u, w, step).gateway.books.Rows(a)) == Times(w.gateway.books.Rows(a))
  {
    match step
    case WriteExpiry(call) =>
      if call in w.visits && w.visits[call].ReadGrant? {
        var v := w.visits[call];
        OtherRowsKeepTimes(w.gateway.books, ExpiryRow(v.account, v.subscription, v.granted, v.now), a);
      }
    case WriteGrant(call) =>
      if call in w.visits && w.visits[call].WroteRow? {
        var v := w.visits[call];
        OtherRowsKeepTimes(w.gateway.books, GiftRow(v.account, v.owed, v.now), a);
      }
    case Elsewhere(other) =>
      if !other.Settle? {
        ElsewhereKeepsTimes(u, w.gateway, other, a);
      }
    case _ =>
  }

  lemma FoundIsTimely(c: Catalog, b: Books, account: string, now: int, answer: ChainAnswer)
    requires AllWeekApart(c, b)
    ensures var looked := Looked(c, b, account, now, answer); looked.Some? ==> IsTimely(c, b, looked.value)
  {
    assert WeekApart(c, b.Rows(account), b.SubscriptionOf(account));
  }

  /** A row put by a delivery or by another account's settling still holds. */
  lemma RowStillHolds(u: Service.Setup, w: World, step: Step, v: Visit)
    requires Grounded(u, w) && RowHolds(u.catalog, w.gateway.books, v)
    requires step.WriteRow? && step.call in w.visits && w.visits[step.call].Chose? ==>
               w.visits[step.call].account != v.account
    ensures RowHolds(u.catalog, Next(u, w, step).gateway.books, v)
  {
    if step.WriteRow? {
      assert step.call in w.visits ==> VisitIsSound(u.catalog, w.visits[step.call]);
    } else if step.Elsewhere? && step.other.WriteSubscription? {
      DeliveredRowHolds(u, w.gateway, step.other.call, step.other.now, v);
    } else {
      SubscriptionsStay(u, w, step);
    }
  }

  lemma DeliveredRowHolds(u: Service.Setup, g: Service.Gateway, call: nat, now: int, v: Visit)
    requires Service.InvoicesAreSound(u, g) && SawTheirOwn(g) && RowHolds(u.catalog, g.books, v)
    ensures RowHolds(u.catalog, Service.Next(u, g, Service.WriteSubscription(call, now)).books, v)
  {
    if call in g.calls && g.calls[call].SawSubscription? && u.catalog.Plan(g.calls[call].invoice.sku).Some? {
      DeliveredPlanIsPaid(u, g, call);
    }
  }

  lemma StaysTimely(u: Service.Setup, w: World, step: Step, k: nat)
    requires Grounded(u, w) && SellsPaid(u.catalog, step) && InTurn(u.catalog, w)
    requires k in w.visits && k in Next(u, w, step).visits
    ensures IsTimely(u.catalog, Next(u, w, step).gateway.books, Next(u, w, step).visits[k])
  {
    var c, after := u.catalog, Next(u, w, step);
    var was, v := w.visits[k], after.visits[k];
    assert IsTimely(c, w.gateway.books, was) && VisitIsSound(c, was);
    SameVisit(u, w, step, k);
    OnlyItsOwnGrants(u, w, step, v.account);
    KeysAreOld(u, w, step, k);
    if KeyOf(c, v).Some? && v.WroteRow? && was.WroteRow? {
      RowStillHolds(u, w, step, v);
    }
  }

  lemma SameVisit(u: Service.Setup, w: World, step: Step, k: nat)
    requires k in w.visits && k in Next(u, w, step).visits
    ensures
      var was, v := w.visits[k], Next(u, w, step).visits[k];
      && v.account == was.account && v.now == was.now
      && !(step == WriteGrant(k) && was.WroteRow?) && (step.Look? ==> v == was)
      && (v.WroteRow? ==> v == was || (step == WriteRow(k) && was.Chose?))
  {
  }

  lemma StepKeepsTurn(u: Service.Setup, w: World, step: Step)
    requires Grounded(u, w) && SellsPaid(u.catalog, step) && InTurn(u.catalog, w)
    requires AllWeekApart(u.catalog, w.gateway.books)
    requires step.Look? ==> NoneInFlight(w, step.account)
    ensures InTurn(u.catalog, Next(u, w, step))
  {
    var after := Next(u, w, step);
    forall k | k in after.visits
      ensures IsTimely(u.catalog, after.gateway.books, after.visits[k])
    {
      if k in w.visits {
        StaysTimely(u, w, step, k);
      } else {
        FoundIsTimely(u.catalog, w.gateway.books, step.account, step.now, step.answer);
      }
    }
    StepKeepsApart(u, w, step);
  }

  lemma StepKeepsApart(u: Service.Setup, w: World, step: Step)
    requires forall j, k :: j in w.visits && k in w.visits && j != k ==> w.visits[j].account != w.visits[k].account
    requires step.Look? ==> NoneInFlight(w, step.account)
    ensures
      var after := Next(u, w, step).visits;
      forall j, k :: j in after && k in after && j != k ==> after[j].account != after[k].account
  {
  }

  /**
   In every history in which an account is read only while no other settling of it is in
   flight, its free weeks stay apart, wherever its settlings are cut and whatever happens there.
   */
  lemma {:induction false} WeeksStayApartInTurn(u: Service.Setup, steps: seq<Step>)
    requires forall n :: 0 <= n < |steps| ==> SellsPaid(u.catalog, steps[n])
    requires forall n: nat :: n < |steps| ==> LooksInTurn(u, steps, n)
    ensures
      var w := Run(u, START, steps);
      AllWeekApart(u.catalog, w.gateway.books) && InTurn(u.catalog, w)
  {
    if steps != [] {
      var before := steps[..|steps| - 1];
      forall n: nat | n < |before|
        ensures LooksInTurn(u, before, n)
      {
        assert LooksInTurn(u, steps, n) && before[..n] == steps[..n];
      }
      WeeksStayApartInTurn(u, before);
      HistoryIsGrounded(u, before);
      assert LooksInTurn(u, steps, |before|);
      StepKeepsWeeksApart(u, Run(u, START, before), steps[|before|]);
      StepKeepsTurn(u, Run(u, START, before), steps[|before|]);
    }
  }

  /** So any span of time holds at most one more free grant to an account than it holds whole weeks. */
  lemma FreeGrantRateInTurn(u: Service.Setup, steps: seq<Step>, account: string, from: int, until: int)
    requires forall n :: 0 <= n < |steps| ==> SellsPaid(u.catalog, steps[n])
    requires forall n: nat :: n < |steps| ==> LooksInTurn(u, steps, n)
    requires from <= until
    ensures
      var times := Times(Run(u, START, steps).gateway.books.Rows(account));
      Spaced(times) && Within(times, from, until) <= 1 + (until - from) / WEEK
  {
    WeeksStayApartInTurn(u, steps);
    var b := Run(u, START, steps).gateway.books;
    assert WeekApart(u.catalog, b.Rows(account), b.SubscriptionOf(account));
    SpacedCount(Times(b.Rows(account)), from, until);
  }
}
