/**
 Two settlings of one account at once. Each grants on a key made of its own clock, so a week
 can be granted twice; when exactly, and that settlings taken one at a time never do it.
 */
module OverlappingSettlings {
  import opened Prelude
  import opened Ledger
  import opened Catalog
  import opened Store
  import opened Billing
  import Service = BillingRuns
  import opened BillingHistory
  import opened Settlement
  import opened FreeGrants
  import opened SplitSettling

  // ---------- which week a settling would grant ----------

  function FreeKey(c: Catalog, s: Subscription, now: int): Option<Reference> {
    if NamesFree(c, s.planId) then Some(ForGrant(s.planId, now + c.Plan(s.planId).value.Period())) else None
  }

  /** The key a settling in flight will grant a free week on, if it is to grant one. */
  function KeyOf(c: Catalog, v: Visit): Option<Reference> {
    match v
    case FoundDue(_, s, now) => FreeKey(c, s, now)
    case ReadGrant(_, s, _, now) => FreeKey(c, s, now)
    case Chose(_, _, None, _) => None
    case Chose(_, _, Some(gift), _) => if gift.reference.ForGrant? then Some(gift.reference) else None
    case WroteRow(_, owed, _) => if owed.reference.ForGrant? then Some(owed.reference) else None
  }

  /** The key a settling that begins at `now` would grant a free week on, with nothing live on chain. */
  function OpenKey(c: Catalog, b: Books, account: string, now: int): Option<Reference> {
    match b.SubscriptionOf(account)
    case Some(s) => if s.Due(now) then FreeKey(c, s, now) else None
    case None =>
      match c.FreePlan()
      case Some(plan) => Some(ForGrant(plan.id, now + plan.Period()))
      case None => None
  }

  /** A key other than the spared one, on which no row has been written. */
  predicate Unwritten(b: Books, key: Option<Reference>, spared: Reference) {
    key.Some? && key.value != spared && !Recorded(b.ledger, key.value)
  }

  ghost predicate AnotherInFlight(c: Catalog, w: World, account: string, spared: Reference) {
    exists k :: k in w.visits && w.visits[k].account == account
                && Unwritten(w.gateway.books, KeyOf(c, w.visits[k]), spared)
  }

  /** In the week from `from` on, some reading of the account would find a free week due. */
  ghost predicate StillDue(c: Catalog, w: World, account: string, from: int, spared: Reference) {
    exists n :: from <= n < from + WEEK && Unwritten(w.gateway.books, OpenKey(c, w.gateway.books, account, n), spared)
  }

  ghost predicate GrantedAgain(before: seq<Entry>, after: seq<Entry>, account: string, spared: Reference) {
    exists n :: |before| <= n < |after| && after[n].account == account
                && after[n].reference.ForGrant? && after[n].reference != spared
  }

  // ---------- what every history keeps of the settlings in flight ----------

  /** The contract refuses to sell for nothing; here, that no answer of it names a free plan. */
  predicate SellsPaid(c: Catalog, step: Step) {
    step.Look? && step.answer.Reports? ==> !NamesFree(c, step.answer.plan)
  }

  /** It holds its own account's row; what it chose to put is a week's free period, or no free plan's. */
  predicate VisitIsSound(c: Catalog, v: Visit) {
    match v
    case FoundDue(account, s, _) => s.account == account
    case ReadGrant(account, s, _, _) => s.account == account
    case Chose(account, s, gift, now) =>
      && s.account == account
      && (gift.Some? ==> !gift.value.reference.ForInvoice?)
      && (if KeyOf(c, v).Some? then now + WEEK <= s.renewsAt else !NamesFree(c, s.planId))
    case WroteRow(_, owed, _) => !owed.reference.ForInvoice?
  }

  ghost predicate Grounded(u: Service.Setup, w: World) {
    && Service.InvoicesAreSound(u, w.gateway)
    && WellKeyed(w.gateway.books)
    && SawTheirOwn(w.gateway)
    && forall k :: k in w.visits ==> VisitIsSound(u.catalog, w.visits[k])
  }

  lemma LookIsSound(c: Catalog, b: Books, account: string, now: int, answer: ChainAnswer)
    requires WellKeyed(b) && (answer.Reports? ==> !NamesFree(c, answer.plan))
    ensures
      var looked := Looked(c, b, account, now, answer);
      looked.Some? ==>
        && VisitIsSound(c, looked.value) && looked.value.account == account && looked.value.now == now
        && (KeyOf(c, looked.value).Some? ==> KeyOf(c, looked.value) == OpenKey(c, b, account, now))
  {
    if answer.Reports? {
      FirstPlanIsNamed(c.plans, answer.plan);
    }
  }

  lemma FollowingIsSound(c: Catalog, account: string, s: Subscription, now: int)
    requires s.account == account
    ensures VisitIsSound(c, Following(c, account, s, now))
    ensures KeyOf(c, Following(c, account, s, now)) == FreeKey(c, s, now)
  {
  }

  // The gateway's side of the three writes: one row more at most, and no invoice touched.

  lemma WriteExpiryKeepsInvoices(u: Service.Setup, w: World, call: nat)
    requires Service.InvoicesAreSound(u, w.gateway)
    ensures Service.InvoicesAreSound(u, Next(u, w, WriteExpiry(call)).gateway)
  {
    if call in w.visits && w.visits[call].ReadGrant? {
      var v, b := w.visits[call], w.gateway.books;
      var after := ExpiryWritten(b, v.account, v.subscription, v.granted, v.now);
      Service.RecordingExtends(b, ExpiryRow(v.account, v.subscription, v.granted, v.now));
      Service.ExtendingKeepsInvoices(u, w.gateway, after);
    }
  }

  lemma WriteRowKeepsInvoices(u: Service.Setup, w: World, call: nat)
    requires Service.InvoicesAreSound(u, w.gateway)
    ensures Service.InvoicesAreSound(u, Next(u, w, WriteRow(call)).gateway)
  {
    if call in w.visits && w.visits[call].Chose? {
      Service.ExtendingKeepsInvoices(u, w.gateway, w.gateway.books.PutSubscription(w.visits[call].subscription));
    }
  }

  lemma WriteGrantKeepsInvoices(u: Service.Setup, w: World, call: nat)
    requires Service.InvoicesAreSound(u, w.gateway)
    requires call in w.visits && w.visits[call].WroteRow? ==> !w.visits[call].owed.reference.ForInvoice?
    ensures Service.InvoicesAreSound(u, Next(u, w, WriteGrant(call)).gateway)
  {
    if call in w.visits && w.visits[call].WroteRow? {
      var v, b := w.visits[call], w.gateway.books;
      var row := Entry(v.account, Grant, v.owed.tokens, v.now, 0, v.owed.reference);
      Service.RecordingExtends(b, row);
      Service.ExtendingKeepsInvoices(u, w.gateway, b.Record(row));
    }
  }

  lemma StepKeepsGatewaySound(u: Service.Setup, w: World, step: Step)
    requires Grounded(u, w)
    ensures Service.InvoicesAreSound(u, Next(u, w, step).gateway)
  {
    match step
    case WriteExpiry(call) => WriteExpiryKeepsInvoices(u, w, call);
    case WriteRow(call) => WriteRowKeepsInvoices(u, w, call);
    case WriteGrant(call) =>
      assert call in w.visits ==> VisitIsSound(u.catalog, w.visits[call]);
      WriteGrantKeepsInvoices(u, w, call);
    case Elsewhere(other) =>
      if !other.Settle? {
        Service.StepKeepsInvoices(u, w.gateway, other);
      }
    case _ =>
  }

  /** Rows stay filed under their own accounts, and calls hold their own accounts' rows. */
  lemma StepKeepsFiling(u: Service.Setup, w: World, step: Step)
    requires Grounded(u, w)
    ensures WellKeyed(Next(u, w, step).gateway.books) && SawTheirOwn(Next(u, w, step).gateway)
  {
    match step
    case WriteRow(call) => assert call in w.visits ==> VisitIsSound(u.catalog, w.visits[call]);
    case Elsewhere(other) =>
      if !other.Settle? {
        ElsewhereKeepsFiling(u, w.gateway, other);
      }
    case _ =>
  }

  lemma ElsewhereKeepsFiling(u: Service.Setup, g: Service.Gateway, other: Service.Step)
    requires WellKeyed(g.books) && SawTheirOwn(g) && !other.Settle?
    ensures WellKeyed(Service.Next(u, g, other).books) && SawTheirOwn(Service.Next(u, g, other))
  {
    StepSeesItsOwn(u, g, other);
  }

  lemma StepKeepsVisitsSound(u: Service.Setup, w: World, step: Step)
    requires Grounded(u, w) && SellsPaid(u.catalog, step)
    ensures forall k :: k in Next(u, w, step).visits ==> VisitIsSound(u.catalog, Next(u, w, step).visits[k])
  {
    match step
    case Look(call, account, now, answer) => LookIsSound(u.catalog, w.gateway.books, account, now, answer);
    case WriteExpiry(call) =>
      if call in w.visits && w.visits[call].ReadGrant? {
        var v := w.visits[call];
        assert VisitIsSound(u.catalog, v);
        FollowingIsSound(u.catalog, v.account, v.subscription, v.now);
      }
    case _ =>
  }

  lemma StepKeepsGround(u: Service.Setup, w: World, step: Step)
    requires Grounded(u, w) && SellsPaid(u.catalog, step)
    ensures Grounded(u, Next(u, w, step))
  {
    StepKeepsGatewaySound(u, w, step);
    StepKeepsFiling(u, w, step);
    StepKeepsVisitsSound(u, w, step);
  }

  lemma {:induction false} HistoryIsGrounded(u: Service.Setup, history: seq<Step>)
    requires forall n :: 0 <= n < |history| ==> SellsPaid(u.catalog, history[n])
    ensures Grounded(u, Run(u, START, history))
  {
    if history != [] {
      HistoryIsGrounded(u, history[..|history| - 1]);
      StepKeepsGround(u, Run(u, START, history[..|history| - 1]), history[|history| - 1]);
    }
  }

  // ---------- nothing but those two can grant again ----------

  lemma LedgerGrows(u: Service.Setup, w: World, step: Step)
    ensures w.gateway.books.ledger <= Next(u, w, step).gateway.books.ledger
  {
    if step.Elsewhere? && !step.other.Settle? {
      StepOnlyGrows(u, w.gateway, step.other);
    }
  }

  lemma UnwrittenBefore(b: Books, after: Books, key: Option<Reference>, spared: Reference)
    requires b.ledger <= after.ledger && Unwritten(after, key, spared)
    ensures Unwritten(b, key, spared)
  {
    RecordedStays(b.ledger, after.ledger, key.value);
  }

  lemma RecordedStays(ledger: seq<Entry>, after: seq<Entry>, r: Reference)
    requires ledger <= after
    ensures Recorded(ledger, r) ==> Recorded(after, r)
  {
    if Recorded(ledger, r) {
      var i :| 0 <= i < |ledger| && ledger[i].reference == r;
      assert after[i].reference == r;
    }
  }

  ghost predicate BegunSince(w: World, account: string, from: int) {
    forall k :: k in w.visits && w.visits[k].account == account ==> from <= w.visits[k].now
  }

  /** A row that is no free plan's, or not due yet, leaves no free week open that was not open before. */
  lemma PuttingOpensNothing(c: Catalog, b: Books, s: Subscription, account: string, n: int)
    requires n < s.renewsAt || !NamesFree(c, s.planId)
    ensures
      var key := OpenKey(c, b.PutSubscription(s), account, n);
      key.Some? ==> key == OpenKey(c, b, account, n)
  {
  }

  /** Within the week no row is put that a free week is due on: one already due just stays. */
  lemma RowOnlyCloses(u: Service.Setup, w: World, step: Step, account: string, from: int, n: int)
    requires Grounded(u, w) && BegunSince(w, account, from) && from <= n < from + WEEK
    ensures
      var key := OpenKey(u.catalog, Next(u, w, step).gateway.books, account, n);
      key.Some? ==> key == OpenKey(u.catalog, w.gateway.books, account, n)
  {
    if step.WriteRow? {
      ChoiceOpensNothing(u, w, step.call, account, from, n);
    } else if step.Elsewhere? && step.other.WriteSubscription? {
      DeliveryOpensNothing(u, w.gateway, step.other.call, step.other.now, account, n);
    } else {
      SubscriptionsStay(u, w, step);
      SameRowsOpenTheSame(u.catalog, w.gateway.books, Next(u, w, step).gateway.books, account, n);
    }
  }

  lemma SubscriptionsStay(u: Service.Setup, w: World, step: Step)
    requires !step.WriteRow? && !(step.Elsewhere? && step.other.WriteSubscription?)
    ensures Next(u, w, step).gateway.books.subscriptions == w.gateway.books.subscriptions
  {
  }

  lemma SameRowsOpenTheSame(c: Catalog, b: Books, after: Books, account: string, n: int)
    requires after.subscriptions == b.subscriptions
    ensures OpenKey(c, after, account, n) == OpenKey(c, b, account, n)
  {
  }

  lemma ChoiceOpensNothing(u: Service.Setup, w: World, call: nat, account: string, from: int, n: int)
    requires Grounded(u, w) && BegunSince(w, account, from) && from <= n < from + WEEK
    ensures
      var key := OpenKey(u.catalog, Next(u, w, WriteRow(call)).gateway.books, account, n);
      key.Some? ==> key == OpenKey(u.catalog, w.gateway.books, account, n)
  {
    if call in w.visits && w.visits[call].Chose? {
      var v, b := w.visits[call], w.gateway.books;
      assert VisitIsSound(u.catalog, v);
      if v.account == account {
        PuttingOpensNothing(u.catalog, b, v.subscription, account, n);
      } else {
        assert b.PutSubscription(v.subscription).SubscriptionOf(account) == b.SubscriptionOf(account);
      }
    }
  }

  lemma DeliveryOpensNothing(u: Service.Setup, g: Service.Gateway, call: nat, now: int, account: string, n: int)
    requires Service.InvoicesAreSound(u, g)
    ensures
      var key := OpenKey(u.catalog, Service.Next(u, g, Service.WriteSubscription(call, now)).books, account, n);
      key.Some? ==> key == OpenKey(u.catalog, g.books, account, n)
  {
    if call in g.calls && g.calls[call].SawSubscription? && u.catalog.Plan(g.calls[call].invoice.sku).Some? {
      var i := g.calls[call].invoice;
      var s := Subscribed(u.catalog.Plan(i.sku).value, i, g.calls[call].current, now);
      DeliveredPlanIsPaid(u, g, call);
      PuttingOpensNothing(u.catalog, g.books, s, account, n);
    }
  }

  lemma DeliveredPlanIsPaid(u: Service.Setup, g: Service.Gateway, call: nat)
    requires Service.InvoicesAreSound(u, g) && call in g.calls
    requires u.catalog.Plan(g.calls[call].invoice.sku).Some?
    ensures !NamesFree(u.catalog, u.catalog.Plan(g.calls[call].invoice.sku).value.id)
  {
    var i := g.calls[call].invoice;
    FirstPlanIsNamed(u.catalog.plans, i.sku);
    assert u.catalog.Sellable(g.books.invoices[i.id].sku) && g.books.invoices[i.id].sku == i.sku;
  }

  /** A key carried after a step was carried before it, or is that of the week the step found due. */
  lemma KeysAreOld(u: Service.Setup, w: World, step: Step, k: nat)
    requires Grounded(u, w) && SellsPaid(u.catalog, step) && k in Next(u, w, step).visits
    ensures
      var v := Next(u, w, step).visits[k];
      KeyOf(u.catalog, v).Some? ==>
        || (k in w.visits && w.visits[k].account == v.account && KeyOf(u.catalog, w.visits[k]) == KeyOf(u.catalog, v))
        || (step.Look? && step.account == v.account
            && OpenKey(u.catalog, w.gateway.books, v.account, step.now) == KeyOf(u.catalog, v))
  {
    match step
    case Look(call, account, now, answer) => LookIsSound(u.catalog, w.gateway.books, account, now, answer);
    case WriteExpiry(call) =>
      if call in w.visits && w.visits[call].ReadGrant? {
        var v := w.visits[call];
        assert VisitIsSound(u.catalog, v);
        FollowingIsSound(u.catalog, v.account, v.subscription, v.now);
      }
    case _ =>
  }

  lemma StaysBegunSince(u: Service.Setup, w: World, step: Step, account: string, from: int)
    requires BegunSince(w, account, from) && (step.Look? && step.account == account ==> from <= step.now)
    ensures BegunSince(Next(u, w, step), account, from)
  {
  }

  lemma ElsewhereGrantsNoWeek(u: Service.Setup, g: Service.Gateway, other: Service.Step)
    requires !other.Settle?
    ensures !GrantsFreeWeek(g.books.ledger, Service.Next(u, g, other).books.ledger)
  {
    var after := Service.Next(u, g, other).books.ledger;
    match other
    case Charge(_, _, _, _) => assert forall n :: |g.books.ledger| <= n < |after| ==> after[n].reference.ForRun?;
    case OtherCredit(_, _, _, _, _) => assert forall n :: |g.books.ledger| <= n < |after| ==> after[n].reference.Other?;
    case DeliverTokens(_, _) => assert forall n :: |g.books.ledger| <= n < |after| ==> after[n].reference.ForInvoice?;
    case _ =>
  }

  lemma OtherStepsGrantNoWeek(u: Service.Setup, w: World, step: Step)
    requires !step.WriteGrant?
    ensures !GrantsFreeWeek(w.gateway.books.ledger, Next(u, w, step).gateway.books.ledger)
  {
    if step.Elsewhere? && !step.other.Settle? {
      ElsewhereGrantsNoWeek(u, w.gateway, step.other);
    }
  }

  lemma OnlyVisitsGrantAgain(u: Service.Setup, w: World, step: Step, account: string, spared: Reference)
    requires GrantedAgain(w.gateway.books.ledger, Next(u, w, step).gateway.books.ledger, account, spared)
    ensures AnotherInFlight(u.catalog, w, account, spared)
  {
    var b, after := w.gateway.books, Next(u, w, step).gateway.books;
    var n :| |b.ledger| <= n < |after.ledger| && after.ledger[n].account == account
             && after.ledger[n].reference.ForGrant? && after.ledger[n].reference != spared;
    if step.WriteGrant? {
      var v := w.visits[step.call];
      assert after == b.Record(Entry(v.account, Grant, v.owed.tokens, v.now, 0, v.owed.reference));
      assert Unwritten(b, KeyOf(u.catalog, v), spared);
    } else {
      assert GrantsFreeWeek(b.ledger, after.ledger);
      OtherStepsGrantNoWeek(u, w, step);
      assert false;
    }
  }

  /** The step of a settling or of a command the account makes in the week that starts at `from`. */
  predicate InWeek(c: Catalog, step: Step, account: string, from: int) {
    SellsPaid(c, step) && (step.Look? && step.account == account ==> from <= step.now < from + WEEK)
  }

  lemma NoneMoreInFlight(u: Service.Setup, w: World, step: Step, account: string, from: int, spared: Reference)
    requires Grounded(u, w) && InWeek(u.catalog, step, account, from)
    requires AnotherInFlight(u.catalog, Next(u, w, step), account, spared)
    ensures AnotherInFlight(u.catalog, w, account, spared) || StillDue(u.catalog, w, account, from, spared)
  {
    var c, after := u.catalog, Next(u, w, step);
    var k :| k in after.visits && after.visits[k].account == account
             && Unwritten(after.gateway.books, KeyOf(c, after.visits[k]), spared);
    LedgerGrows(u, w, step);
    UnwrittenBefore(w.gateway.books, after.gateway.books, KeyOf(c, after.visits[k]), spared);
    KeysAreOld(u, w, step, k);
    if step.Look? && step.account == account
       && OpenKey(c, w.gateway.books, account, step.now) == KeyOf(c, after.visits[k]) {
      assert Unwritten(w.gateway.books, OpenKey(c, w.gateway.books, account, step.now), spared);
    }
  }

  lemma NoneMoreDue(u: Service.Setup, w: World, step: Step, account: string, from: int, spared: Reference)
    requires Grounded(u, w) && BegunSince(w, account, from)
    requires StillDue(u.catalog, Next(u, w, step), account, from, spared)
    ensures StillDue(u.catalog, w, account, from, spared)
  {
    var c, after := u.catalog, Next(u, w, step).gateway.books;
    var n :| from <= n < from + WEEK && Unwritten(after, OpenKey(c, after, account, n), spared);
    LedgerGrows(u, w, step);
    UnwrittenBefore(w.gateway.books, after, OpenKey(c, after, account, n), spared);
    RowOnlyCloses(u, w, step, account, from, n);
  }

  /** The account's week is over with: nothing in flight and nothing due that would grant it again. */
  ghost predicate WeekIsDone(u: Service.Setup, w: World, account: string, from: int, spared: Reference) {
    && Grounded(u, w)
    && BegunSince(w, account, from)
    && !AnotherInFlight(u.catalog, w, account, spared)
    && !StillDue(u.catalog, w, account, from, spared)
  }

  lemma StepKeepsWeekDone(u: Service.Setup, w: World, step: Step, account: string, from: int, spared: Reference)
    requires WeekIsDone(u, w, account, from, spared) && InWeek(u.catalog, step, account, from)
    ensures WeekIsDone(u, Next(u, w, step), account, from, spared)
    ensures !GrantedAgain(w.gateway.books.ledger, Next(u, w, step).gateway.books.ledger, account, spared)
  {
    StepKeepsGround(u, w, step);
    StaysBegunSince(u, w, step, account, from);
    if AnotherInFlight(u.catalog, Next(u, w, step), account, spared) {
      NoneMoreInFlight(u, w, step, account, from, spared);
    }
    if StillDue(u.catalog, Next(u, w, step), account, from, spared) {
      NoneMoreDue(u, w, step, account, from, spared);
    }
    if GrantedAgain(w.gateway.books.ledger, Next(u, w, step).gateway.books.ledger, account, spared) {
      OnlyVisitsGrantAgain(u, w, step, account, spared);
    }
  }

  lemma {:induction false} DoneForTheWeek(u: Service.Setup, w: World, steps: seq<Step>, account: string,
                                          from: int, spared: Reference)
    requires WeekIsDone(u, w, account, from, spared)
    requires forall n :: 0 <= n < |steps| ==> InWeek(u.catalog, steps[n], account, from)
    ensures WeekIsDone(u, Run(u, w, steps), account, from, spared)
    ensures w.gateway.books.ledger <= Run(u, w, steps).gateway.books.ledger
    ensures !GrantedAgain(w.gateway.books.ledger, Run(u, w, steps).gateway.books.ledger, account, spared)
  {
    if steps != [] {
      var before := Run(u, w, steps[..|steps| - 1]);
      DoneForTheWeek(u, w, steps[..|steps| - 1], account, from, spared);
      StepKeepsWeekDone(u, before, steps[|steps| - 1], account, from, spared);
      LedgerGrows(u, before, steps[|steps| - 1]);
      GrantedInTwo(w.gateway.books.ledger, before.gateway.books.ledger,
                   Run(u, w, steps).gateway.books.ledger, account, spared);
    }
  }

  lemma GrantedInTwo(first: seq<Entry>, second: seq<Entry>, third: seq<Entry>, account: string, spared: Reference)
    requires first <= second <= third
    ensures GrantedAgain(first, third, account, spared) <==>
            GrantedAgain(first, second, account, spared) || GrantedAgain(second, third, account, spared)
  {
    if GrantedAgain(first, third, account, spared) {
      var n :| |first| <= n < |third| && third[n].account == account
               && third[n].reference.ForGrant? && third[n].reference != spared;
      assert n < |second| ==> second[n] == third[n];
    }
    if GrantedAgain(first, second, account, spared) {
      var n :| |first| <= n < |second| && second[n].account == account
               && second[n].reference.ForGrant? && second[n].reference != spared;
      assert third[n] == second[n];
    }
  }

  // ---------- and each of those two can ----------

  /** How many steps a settling is from its grant. */
  function StepsLeft(v: Visit): nat {
    match v
    case FoundDue(_, _, _) => 4
    case ReadGrant(_, _, _, _) => 3
    case Chose(_, _, _, _) => 2
    case WroteRow(_, _, _) => 1
  }

  function OwnStep(call: nat, v: Visit): Step {
    match v
    case FoundDue(_, _, _) => ReadBalance(call)
    case ReadGrant(_, _, _, _) => WriteExpiry(call)
    case Chose(_, _, _, _) => WriteRow(call)
    case WroteRow(_, _, _) => WriteGrant(call)
  }

  /** Before its last step, a settling that would grant a free week carries its key one step on. */
  lemma OwnStepCarriesOn(u: Service.Setup, w: World, k: nat, spared: Reference)
    requires k in w.visits && !w.visits[k].WroteRow?
    requires Unwritten(w.gateway.books, KeyOf(u.catalog, w.visits[k]), spared)
    ensures
      var after := Next(u, w, OwnStep(k, w.visits[k]));
      && k in after.visits && after.visits[k].account == w.visits[k].account
      && KeyOf(u.catalog, after.visits[k]) == KeyOf(u.catalog, w.visits[k])
      && StepsLeft(after.visits[k]) < StepsLeft(w.visits[k])
      && Unwritten(after.gateway.books, KeyOf(u.catalog, after.visits[k]), spared)
  {
    var v := w.visits[k];
    if v.ReadGrant? {
      OtherKeysStay(w.gateway.books.ledger, ExpiryRow(v.account, v.subscription, v.granted, v.now),
                    KeyOf(u.catalog, v).value);
    }
  }

  lemma {:induction false} FinishingGrants(u: Service.Setup, w: World, k: nat,
                                           spared: Reference) returns (steps: seq<Step>)
    requires k in w.visits && Unwritten(w.gateway.books, KeyOf(u.catalog, w.visits[k]), spared)
    ensures forall n :: 0 <= n < |steps| ==> !steps[n].Look?
    ensures w.gateway.books.ledger <= Run(u, w, steps).gateway.books.ledger
    ensures GrantedAgain(w.gateway.books.ledger, Run(u, w, steps).gateway.books.ledger, w.visits[k].account, spared)
    decreases StepsLeft(w.visits[k])
  {
    var step := OwnStep(k, w.visits[k]);
    var after := Next(u, w, step);
    RunOneMore(u, w, [], step);
    LedgerGrows(u, w, step);
    if w.visits[k].WroteRow? {
      steps := [step];
      assert [] + [step] == steps;
      assert after.gateway.books.ledger[|w.gateway.books.ledger|].account == w.visits[k].account;
    } else {
      OwnStepCarriesOn(u, w, k, spared);
      var rest := FinishingGrants(u, after, k, spared);
      steps := [step] + rest;
      assert [] + [step] == [step];
      RunJoins(u, w, [step], rest);
      GrantedInTwo(w.gateway.books.ledger, after.gateway.books.ledger,
                   Run(u, after, rest).gateway.books.ledger, w.visits[k].account, spared);
    }
  }

  lemma {:induction false} AFreshCall(taken: set<nat>) returns (call: nat)
    ensures forall k :: k in taken ==> k < call
  {
    call := 0;
    if taken != {} {
      var k :| k in taken;
      var above := AFreshCall(taken - {k});
      call := Max(above, k + 1);
      forall j | j in taken
        ensures j < call
      {
        assert j == k || j in taken - {k};
      }
    }
  }

  lemma LookCarries(u: Service.Setup, w: World, call: nat, account: string, n: int, spared: Reference)
    requires call !in w.visits
    requires Unwritten(w.gateway.books, OpenKey(u.catalog, w.gateway.books, account, n), spared)
    ensures
      var looked := Next(u, w, Look(call, account, n, Silent));
      && call in looked.visits && looked.visits[call].account == account && looked.gateway == w.gateway
      && KeyOf(u.catalog, looked.visits[call]) == OpenKey(u.catalog, w.gateway.books, account, n)
  {
  }

  lemma LookingGrants(u: Service.Setup, w: World, account: string, n: int, spared: Reference) returns (steps: seq<Step>)
    requires Unwritten(w.gateway.books, OpenKey(u.catalog, w.gateway.books, account, n), spared)
    ensures forall i :: 0 <= i < |steps| && steps[i].Look? ==> steps[i].now == n && steps[i].answer.Silent?
    ensures GrantedAgain(w.gateway.books.ledger, Run(u, w, steps).gateway.books.ledger, account, spared)
  {
    var call := AFreshCall(w.visits.Keys);
    var look := Look(call, account, n, Silent);
    var looked := Next(u, w, look);
    LookCarries(u, w, call, account, n, spared);
    var rest := FinishingGrants(u, looked, call, spared);
    steps := [look] + rest;
    RunOneMore(u, w, [], look);
    assert [] + [look] == [look];
    RunJoins(u, w, [look], rest);
  }

  /**
   After any history, with settlings of an account in flight that began at `from` or later:
   some continuation, in which the account is read only within the week from there on, grants
   it a free week again, on another key than a spared one, exactly when another settling of it
   is in flight on a key not yet written, or its row is still due at some instant of that week.
   */
  lemma SecondGrantIffOverlapOrDue(u: Service.Setup, history: seq<Step>, account: string, from: int, spared: Reference)
    requires forall n :: 0 <= n < |history| ==> SellsPaid(u.catalog, history[n])
    requires BegunSince(Run(u, START, history), account, from)
    ensures
      var w := Run(u, START, history);
      (exists steps :: (forall n :: 0 <= n < |steps| ==> InWeek(u.catalog, steps[n], account, from))
                       && GrantedAgain(w.gateway.books.ledger, Run(u, w, steps).gateway.books.ledger, account, spared))
      <==> AnotherInFlight(u.catalog, w, account, spared) || StillDue(u.catalog, w, account, from, spared)
  {
    HistoryIsGrounded(u, history);
    var w := Run(u, START, history);
    if AnotherInFlight(u.catalog, w, account, spared) {
      var k :| k in w.visits && w.visits[k].account == account
               && Unwritten(w.gateway.books, KeyOf(u.catalog, w.visits[k]), spared);
      var steps := FinishingGrants(u, w, k, spared);
    } else if StillDue(u.catalog, w, account, from, spared) {
      var n :| from <= n < from + WEEK
               && Unwritten(w.gateway.books, OpenKey(u.catalog, w.gateway.books, account, n), spared);
      var steps := LookingGrants(u, w, account, n, spared);
    } else {
      forall steps: seq<Step> | forall n :: 0 <= n < |steps| ==> InWeek(u.catalog, steps[n], account, from)
        ensures !GrantedAgain(w.gateway.books.ledger, Run(u, w, steps).gateway.books.ledger, account, spared)
      {
        DoneForTheWeek(u, w, steps, account, from, spared);
      }
    }
  }

  // ---------- one week granted twice ----------

  lemma RunOfTwo(u: Service.Setup, w: World, a: Step, b: Step)
    ensures Run(u, w, [a, b]) == Next(u, Next(u, w, a), b)
  {
    RunOneMore(u, w, [], a);
    RunOneMore(u, w, [] + [a], b);
    assert [] + [a] + [b] == [a, b];
  }

  /** Two settlings with a gift each have both put their rows and then write both their grants. */
  function BothPut(one: nat, two: nat): seq<Step> {
    [WriteRow(one), WriteRow(two)] + [WriteGrant(one), WriteGrant(two)]
  }

  predicate HasChosen(w: World, call: nat, account: string, gift: Gift, now: int) {
    call in w.visits && w.visits[call].Chose? && w.visits[call].account == account
    && w.visits[call].gift == Some(gift) && w.visits[call].now == now
  }

  function GiftRow(account: string, gift: Gift, now: int): Entry {
    Entry(account, Grant, gift.tokens, now, 0, gift.reference)
  }

  lemma BothRowsPut(u: Service.Setup, w: World, one: nat, two: nat, account: string, first: Gift, second: Gift,
                    n1: int, n2: int)
    requires one != two && HasChosen(w, one, account, first, n1) && HasChosen(w, two, account, second, n2)
    ensures
      var put := Next(u, Next(u, w, WriteRow(one)), WriteRow(two));
      && put.gateway.books.ledger == w.gateway.books.ledger
      && put.VisitOf(one) == Some(WroteRow(account, first, n1))
      && put.VisitOf(two) == Some(WroteRow(account, second, n2))
  {
  }

  lemma BothGrantsLand(u: Service.Setup, w: World, one: nat, two: nat, account: string, first: Gift, second: Gift,
                       n1: int, n2: int)
    requires one != two
    requires w.VisitOf(one) == Some(WroteRow(account, first, n1))
    requires w.VisitOf(two) == Some(WroteRow(account, second, n2))
    ensures
      Next(u, Next(u, w, WriteGrant(one)), WriteGrant(two)).gateway.books.ledger ==
      Append(Append(w.gateway.books.ledger, GiftRow(account, first, n1)), GiftRow(account, second, n2))
  {
  }

  lemma BothGiftsLand(u: Service.Setup, w: World, one: nat, two: nat, account: string, first: Gift, second: Gift,
                      n1: int, n2: int)
    requires one != two && HasChosen(w, one, account, first, n1) && HasChosen(w, two, account, second, n2)
    ensures
      Run(u, w, BothPut(one, two)).gateway.books.ledger ==
      Append(Append(w.gateway.books.ledger, GiftRow(account, first, n1)), GiftRow(account, second, n2))
  {
    var put := Run(u, w, [WriteRow(one), WriteRow(two)]);
    RunJoins(u, w, [WriteRow(one), WriteRow(two)], [WriteGrant(one), WriteGrant(two)]);
    RunOfTwo(u, w, WriteRow(one), WriteRow(two));
    RunOfTwo(u, put, WriteGrant(one), WriteGrant(two));
    BothRowsPut(u, w, one, two, account, first, second, n1, n2);
    BothGrantsLand(u, put, one, two, account, first, second, n1, n2);
  }

  /** Two grants on two unwritten keys land, and are one of both their tokens as far as balances go. */
  lemma TwoGrantsLand(ledger: seq<Entry>, account: string, first: Entry, second: Entry)
    requires first.account == account && second.account == account
    requires first.reference.ForGrant? && second.reference.ForGrant? && first.reference != second.reference
    requires !Recorded(ledger, first.reference) && !Recorded(ledger, second.reference)
    ensures
      var after := Append(Append(ledger, first), second);
      && Recorded(after, first.reference) && Recorded(after, second.reference)
      && Of(after, account) == Of(ledger, account) + [first] + [second]
  {
    var once := Append(ledger, first);
    OtherKeysStay(ledger, first, second.reference);
    RecordTwice(ledger, first);
    RecordTwice(once, second);
    OtherKeysStay(once, second, first.reference);
    OfAppend(ledger, first, account);
    OfAppend(once, second, account);
  }

  lemma TwoGrantsBalanceAsOne(rows: seq<Entry>, account: string, first: Entry, second: Entry, one: Entry)
    requires Lawful(rows) && first.kind.Grant? && second.kind.Grant? && one.kind.Grant?
    requires first.tokens >= 0 && second.tokens >= 0 && one.tokens == first.tokens + second.tokens
    ensures Clamped(rows + [first] + [second]) == Clamped(rows)
    ensures BalanceOf(account, rows + [first] + [second]) == BalanceOf(account, rows + [one])
  {
    OneMoreGrantRow(rows, first);
    OneMoreGrantRow(rows + [first], second);
    OneMoreGrantRow(rows, one);
  }

  lemma TwoGrantsAreOne(ledger: seq<Entry>, account: string, first: Gift, second: Gift, n1: int, n2: int, one: Entry)
    requires first.reference.ForGrant? && second.reference.ForGrant? && first.reference != second.reference
    requires !Recorded(ledger, first.reference) && !Recorded(ledger, second.reference)
    requires Lawful(Of(ledger, account)) && one.kind.Grant? && one.tokens == first.tokens + second.tokens
    ensures
      var after := Append(Append(ledger, GiftRow(account, first, n1)), GiftRow(account, second, n2));
      && Recorded(after, first.reference) && Recorded(after, second.reference)
      && Clamped(Of(after, account)) == Clamped(Of(ledger, account))
      && BalanceOf(account, Of(after, account)) == BalanceOf(account, Of(ledger, account) + [one])
  {
    TwoGrantsLand(ledger, account, GiftRow(account, first, n1), GiftRow(account, second, n2));
    TwoGrantsBalanceAsOne(Of(ledger, account), account, GiftRow(account, first, n1), GiftRow(account, second, n2), one);
  }

  /** The gift of a free period that a settling at `now` renews. */
  function WeekGift(plan: Plan, planId: string, now: int): Gift {
    Gift(plan.tokens, ForGrant(planId, now + plan.Period()))
  }

  /** A renewal whose expiry does not land and whose grant does. */
  lemma GrantingOnly(rows: seq<Entry>, account: string, tokens: nat, at: int, key: Reference)
    requires Lawful(rows) && Clamped(rows) == 0
    ensures BalanceOf(account, rows + [GrantRow(account, tokens, at, key)]) ==
            RenewedBalance(rows, account, tokens, Landing(false, true))
  {
    RenewalClosedForm(rows, account, tokens, at, key, key, Landing(false, true));
  }

  lemma GrantedTwice(ledger: seq<Entry>, after: seq<Entry>, account: string, n1: int, n2: int,
                     first: Gift, second: Gift, tokens: nat)
    requires first.reference.ForGrant? && second.reference.ForGrant? && first.reference != second.reference
    requires !Recorded(ledger, first.reference) && !Recorded(ledger, second.reference)
    requires Lawful(Of(ledger, account)) && Clamped(Of(ledger, account)) == 0 && tokens == first.tokens + second.tokens
    requires after == Append(Append(ledger, GiftRow(account, first, n1)), GiftRow(account, second, n2))
    ensures Clamped(Of(after, account)) == 0
    ensures BalanceOf(account, Of(after, account)) ==
            RenewedBalance(Of(ledger, account), account, tokens, Landing(false, true))
  {
    var rows, one := Of(ledger, account), GrantRow(account, tokens, n1, first.reference);
    TwoGrantsAreOne(ledger, account, first, second, n1, n2, one);
    GrantingOnly(rows, account, tokens, n1, first.reference);
  }

  /** Two first readings of an account at once: both start the free plan, and both grant its first week. */
  lemma FirstReadsGrantTwice(u: Service.Setup, w: World, one: nat, two: nat, account: string, n1: int, n2: int)
    requires u.catalog.FreePlan().Some? && account !in w.gateway.books.subscriptions
    requires one != two && one !in w.visits && two !in w.visits && n1 != n2
    requires
      var plan := u.catalog.FreePlan().value;
      && !Recorded(w.gateway.books.ledger, ForGrant(plan.id, n1 + plan.Period()))
      && !Recorded(w.gateway.books.ledger, ForGrant(plan.id, n2 + plan.Period()))
    requires Lawful(w.gateway.books.Rows(account)) && Clamped(w.gateway.books.Rows(account)) == 0
    ensures
      var steps := [Look(one, account, n1, Silent), Look(two, account, n2, Silent)] + BothPut(one, two);
      var after := Run(u, w, steps).gateway.books.Rows(account);
      && Clamped(after) == 0
      && BalanceOf(account, after) ==
         RenewedBalance(w.gateway.books.Rows(account), account, 2 * u.catalog.FreePlan().value.tokens,
                        Landing(false, true))
  {
    var plan := u.catalog.FreePlan().value;
    var first, second := WeekGift(plan, plan.id, n1), WeekGift(plan, plan.id, n2);
    var looks := [Look(one, account, n1, Silent), Look(two, account, n2, Silent)];
    BothStartInto(u, w, one, two, account, n1, n2, plan);
    GrantedTwice(w.gateway.books.ledger, Run(u, w, looks + BothPut(one, two)).gateway.books.ledger, account, n1, n2,
                 first, second, 2 * plan.tokens);
  }

  lemma BothStartInto(u: Service.Setup, w: World, one: nat, two: nat, account: string, n1: int, n2: int, plan: Plan)
    requires u.catalog.FreePlan() == Some(plan) && account !in w.gateway.books.subscriptions
    requires one != two && one !in w.visits && two !in w.visits
    ensures
      var looks := [Look(one, account, n1, Silent), Look(two, account, n2, Silent)];
      Run(u, w, looks + BothPut(one, two)).gateway.books.ledger ==
      Append(Append(w.gateway.books.ledger, GiftRow(account, WeekGift(plan, plan.id, n1), n1)),
             GiftRow(account, WeekGift(plan, plan.id, n2), n2))
  {
    var looks := [Look(one, account, n1, Silent), Look(two, account, n2, Silent)];
    RunJoins(u, w, looks, BothPut(one, two));
    RunOfTwo(u, w, looks[0], looks[1]);
    BothStart(u, w, one, two, account, n1, n2, plan);
    BothGiftsLand(u, Run(u, w, looks), one, two, account, WeekGift(plan, plan.id, n1), WeekGift(plan, plan.id, n2), n1,
                  n2);
  }

  lemma BothStart(u: Service.Setup, w: World, one: nat, two: nat, account: string, n1: int, n2: int, plan: Plan)
    requires u.catalog.FreePlan() == Some(plan) && account !in w.gateway.books.subscriptions
    requires one != two && one !in w.visits && two !in w.visits
    ensures
      var looked := Next(u, Next(u, w, Look(one, account, n1, Silent)), Look(two, account, n2, Silent));
      && looked.gateway == w.gateway
      && HasChosen(looked, one, account, WeekGift(plan, plan.id, n1), n1)
      && HasChosen(looked, two, account, WeekGift(plan, plan.id, n2), n2)
  {
  }

  function BothClose(one: nat, two: nat, account: string, n1: int, n2: int): seq<Step> {
    [Look(one, account, n1, Silent), Look(two, account, n2, Silent)]
    + ([ReadBalance(one), ReadBalance(two)] + ([WriteExpiry(one), WriteExpiry(two)] + BothPut(one, two)))
  }

  lemma BothFindItDue(u: Service.Setup, w: World, one: nat, two: nat, account: string, n1: int, n2: int,
                      s: Subscription)
    requires w.gateway.books.SubscriptionOf(account) == Some(s) && s.Due(n1) && s.Due(n2)
    requires one != two && one !in w.visits && two !in w.visits
    ensures
      var looked := Next(u, Next(u, w, Look(one, account, n1, Silent)), Look(two, account, n2, Silent));
      && looked.gateway == w.gateway
      && looked.VisitOf(one) == Some(FoundDue(account, s, n1)) && looked.VisitOf(two) == Some(FoundDue(account, s, n2))
  {
  }

  lemma BothReadTheGrant(u: Service.Setup, w: World, one: nat, two: nat, account: string, n1: int, n2: int,
                         s: Subscription)
    requires one != two
    requires w.VisitOf(one) == Some(FoundDue(account, s, n1)) && w.VisitOf(two) == Some(FoundDue(account, s, n2))
    ensures
      var read := Next(u, Next(u, w, ReadBalance(one)), ReadBalance(two));
      var granted := BalanceOf(account, w.gateway.books.Rows(account)).granted;
      && read.gateway == w.gateway
      && read.VisitOf(one) == Some(ReadGrant(account, s, granted, n1))
      && read.VisitOf(two) == Some(ReadGrant(account, s, granted, n2))
  {
  }

  /** The second of the two expiries names the same period, and does not land. */
  lemma OneExpiryLands(u: Service.Setup, w: World, one: nat, two: nat, account: string, n1: int, n2: int,
                       s: Subscription, plan: Plan)
    requires one != two && u.catalog.Plan(s.planId) == Some(plan) && plan.IsFree()
    requires
      var granted := BalanceOf(account, w.gateway.books.Rows(account)).granted;
      && w.VisitOf(one) == Some(ReadGrant(account, s, granted, n1))
      && w.VisitOf(two) == Some(ReadGrant(account, s, granted, n2))
    ensures
      var expired := Next(u, Next(u, w, WriteExpiry(one)), WriteExpiry(two));
      && expired.gateway.books == GrantExpired(w.gateway.books, account, s, n1)
      && HasChosen(expired, one, account, WeekGift(plan, s.planId, n1), n1)
      && HasChosen(expired, two, account, WeekGift(plan, s.planId, n2), n2)
  {
    var granted := BalanceOf(account, w.gateway.books.Rows(account)).granted;
    RecordTwice(w.gateway.books.ledger, ExpiryRow(account, s, granted, n1));
  }

  /** What one expiry and two grants leave of the ledger. */
  function ExpiredAndGrantedTwice(b: Books, account: string, s: Subscription, n1: int, n2: int,
                                  first: Gift, second: Gift): seq<Entry>
  {
    Append(Append(GrantExpired(b, account, s, n1).ledger, GiftRow(account, first, n1)), GiftRow(account, second, n2))
  }

  lemma BothCloseInto(u: Service.Setup, w: World, one: nat, two: nat, account: string, n1: int, n2: int,
                      s: Subscription, plan: Plan)
    requires w.gateway.books.SubscriptionOf(account) == Some(s) && s.Due(n1) && s.Due(n2)
    requires u.catalog.Plan(s.planId) == Some(plan) && plan.IsFree()
    requires one != two && one !in w.visits && two !in w.visits
    ensures
      Run(u, w, BothClose(one, two, account, n1, n2)).gateway.books.ledger ==
      ExpiredAndGrantedTwice(w.gateway.books, account, s, n1, n2,
                             WeekGift(plan, s.planId, n1), WeekGift(plan, s.planId, n2))
  {
    var looks := [Look(one, account, n1, Silent), Look(two, account, n2, Silent)];
    var readings := [ReadBalance(one), ReadBalance(two)];
    var expiries := [WriteExpiry(one), WriteExpiry(two)];
    RunJoins(u, w, looks, readings + (expiries + BothPut(one, two)));
    RunOfTwo(u, w, looks[0], looks[1]);
    BothFindItDue(u, w, one, two, account, n1, n2, s);
    var looked := Run(u, w, looks);
    RunJoins(u, looked, readings, expiries + BothPut(one, two));
    RunOfTwo(u, looked, readings[0], readings[1]);
    BothReadTheGrant(u, looked, one, two, account, n1, n2, s);
    var read := Run(u, looked, readings);
    RunJoins(u, read, expiries, BothPut(one, two));
    RunOfTwo(u, read, expiries[0], expiries[1]);
    OneExpiryLands(u, read, one, two, account, n1, n2, s, plan);
    BothGiftsLand(u, Run(u, read, expiries), one, two, account,
                  WeekGift(plan, s.planId, n1), WeekGift(plan, s.planId, n2), n1, n2);
  }

  /** The account's rows of it balance as one renewal's that grants both. */
  lemma ExpiredOnceGrantedTwice(b: Books, account: string, s: Subscription, n1: int, n2: int, first: Gift, second: Gift,
                                one: seq<Entry>)
    requires first.reference.ForGrant? && second.reference.ForGrant? && first.reference != second.reference
    requires !Recorded(b.ledger, first.reference) && !Recorded(b.ledger, second.reference)
    requires Lawful(b.Rows(account)) && Clamped(b.Rows(account)) == 0
    requires one == RenewRows(b.Rows(account), account, first.tokens + second.tokens, n1, EndOf(s), first.reference,
                              Landing(!Recorded(b.ledger, EndOf(s)), true))
    ensures
      var after := ExpiredAndGrantedTwice(b, account, s, n1, n2, first, second);
      && Recorded(after, first.reference) && Recorded(after, second.reference)
      && Clamped(Of(after, account)) == 0 && BalanceOf(account, Of(after, account)) == BalanceOf(account, one)
  {
    var expiry := ExpiryRow(account, s, BalanceOf(account, b.Rows(account)).granted, n1);
    EndWritesTheseRows(b, account, s, n1);
    ClosingInClosedForm(b.Rows(account), account, n1, EndOf(s));
    OtherKeysStay(b.ledger, expiry, first.reference);
    OtherKeysStay(b.ledger, expiry, second.reference);
    TwoGrantsAreOne(GrantExpired(b, account, s, n1).ledger, account, first, second, n1, n2,
                    GrantRow(account, first.tokens + second.tokens, n1, first.reference));
  }

  lemma RenewedTwice(b: Books, ledger: seq<Entry>, account: string, s: Subscription, n1: int, n2: int,
                     first: Gift, second: Gift, tokens: nat)
    requires first.reference.ForGrant? && second.reference.ForGrant? && first.reference != second.reference
    requires !Recorded(b.ledger, first.reference) && !Recorded(b.ledger, second.reference)
    requires Lawful(b.Rows(account)) && Clamped(b.Rows(account)) == 0 && tokens == first.tokens + second.tokens
    requires ledger == ExpiredAndGrantedTwice(b, account, s, n1, n2, first, second)
    ensures Recorded(ledger, first.reference) && Recorded(ledger, second.reference)
    ensures Clamped(Of(ledger, account)) == 0
    ensures BalanceOf(account, Of(ledger, account)) ==
            RenewedBalance(b.Rows(account), account, tokens, Landing(!Recorded(b.ledger, EndOf(s)), true))
  {
    var landing := Landing(!Recorded(b.ledger, EndOf(s)), true);
    var one := RenewRows(b.Rows(account), account, tokens, n1, EndOf(s), first.reference, landing);
    ExpiredOnceGrantedTwice(b, account, s, n1, n2, first, second, one);
    RenewalClosedForm(b.Rows(account), account, tokens, n1, EndOf(s), first.reference, landing);
  }

  /**
   Two settlings of one free period that is over, at different instants: the second expiry is
   refused, nothing is forgiven, and both grants land, as one renewal with twice the tokens.
   */
  lemma OverlapGrantsTwice(u: Service.Setup, w: World, one: nat, two: nat, account: string, n1: int, n2: int)
    requires FreeRenewalDue(u.catalog, w.gateway.books, account, n1)
    requires FreeRenewalDue(u.catalog, w.gateway.books, account, n2)
    requires one != two && one !in w.visits && two !in w.visits && n1 != n2
    requires LandingOf(u.catalog, w.gateway.books, account, n1).grant
    requires LandingOf(u.catalog, w.gateway.books, account, n2).grant
    requires Lawful(w.gateway.books.Rows(account)) && Clamped(w.gateway.books.Rows(account)) == 0
    ensures
      var b, after := w.gateway.books, Run(u, w, BothClose(one, two, account, n1, n2)).gateway.books;
      var s := b.subscriptions[account];
      var plan := u.catalog.Plan(s.planId).value;
      && Recorded(after.ledger, ForGrant(s.planId, n1 + plan.Period()))
      && Recorded(after.ledger, ForGrant(s.planId, n2 + plan.Period()))
      && Clamped(after.Rows(account)) == 0
      && BalanceOf(account, after.Rows(account)) ==
         RenewedBalance(b.Rows(account), account, 2 * plan.tokens, LandingOf(u.catalog, b, account, n1))
  {
    var s := w.gateway.books.subscriptions[account];
    OverlapRenewsTwice(u, w, one, two, account, n1, n2, s, u.catalog.Plan(s.planId).value);
  }

  lemma OverlapRenewsTwice(u: Service.Setup, w: World, one: nat, two: nat, account: string, n1: int, n2: int,
                           s: Subscription, plan: Plan)
    requires w.gateway.books.SubscriptionOf(account) == Some(s) && s.Due(n1) && s.Due(n2)
    requires u.catalog.Plan(s.planId) == Some(plan) && plan.IsFree()
    requires one != two && one !in w.visits && two !in w.visits && n1 != n2
    requires !Recorded(w.gateway.books.ledger, ForGrant(s.planId, n1 + plan.Period()))
    requires !Recorded(w.gateway.books.ledger, ForGrant(s.planId, n2 + plan.Period()))
    requires Lawful(w.gateway.books.Rows(account)) && Clamped(w.gateway.books.Rows(account)) == 0
    ensures
      var b, after := w.gateway.books, Run(u, w, BothClose(one, two, account, n1, n2)).gateway.books;
      && Recorded(after.ledger, ForGrant(s.planId, n1 + plan.Period()))
      && Recorded(after.ledger, ForGrant(s.planId, n2 + plan.Period()))
      && Clamped(after.Rows(account)) == 0
      && BalanceOf(account, after.Rows(account)) ==
         RenewedBalance(b.Rows(account), account, 2 * plan.tokens, Landing(!Recorded(b.ledger, EndOf(s)), true))
  {
    BothCloseInto(u, w, one, two, account, n1, n2, s, plan);
    RenewedTwice(w.gateway.books, Run(u, w, BothClose(one, two, account, n1, n2)).gateway.books.ledger, account, s,
                 n1, n2, WeekGift(plan, s.planId, n1), WeekGift(plan, s.planId, n2), 2 * plan.tokens);
  }
}
