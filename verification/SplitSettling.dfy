/**
 Settling a period cut at its awaits. The clock is read once at the start; after that the
 subscription row is looked up, the balance is read, and the expiry, the next row and the next
 grant are written one by one, while other settlings and everything else go on. What that
 forgives, and exactly when.
 */
module SplitSettling {
  import opened Prelude
  import opened Ledger
  import opened Catalog
  import opened Store
  import opened Billing
  import Service = BillingRuns
  import opened BillingHistory
  import opened Settlement
  import Pricing

  /** Tokens to be granted under a key. */
  datatype Gift = Gift(tokens: nat, reference: Reference)

  /** Where a settling waits, with the clock it read when it began. */
  datatype Visit =
    | FoundDue(account: string, subscription: Subscription, now: int)
    | ReadGrant(account: string, subscription: Subscription, granted: int, now: int)
    | Chose(account: string, subscription: Subscription, gift: Option<Gift>, now: int)
    | WroteRow(account: string, owed: Gift, now: int)

  datatype World = World(gateway: Service.Gateway, visits: map<nat, Visit>) {
    function VisitOf(call: nat): Option<Visit> { if call in visits then Some(visits[call]) else None }
  }

  datatype Step =
    | Look(call: nat, account: string, now: int, answer: ChainAnswer)
    | ReadBalance(call: nat)
    | WriteExpiry(call: nat)
    | WriteRow(call: nat)
    | WriteGrant(call: nat)
    | Cut(call: nat)
    | Elsewhere(other: Service.Step)

  const START := World(Service.START, map[])

  /** What a settling does about the chain's answer and the row it finds, if anything. */
  function Looked(c: Catalog, b: Books, account: string, now: int, answer: ChainAnswer): Option<Visit> {
    match Mirrored(c, b, account, now, answer)
    case Some(mirror) =>
      Some(Chose(account, mirror.1,
                 Some(Gift(c.Plan(answer.plan).value.tokens, OnChain(answer.plan, answer.started))), now))
    case None =>
      match b.SubscriptionOf(account)
      case None =>
        (match c.FreePlan()
         case None => None
         case Some(plan) =>
           var s := Subscription.Begin(account, plan, now);
           Some(Chose(account, s, Some(Gift(plan.tokens, PeriodGrant(s))), now)))
      case Some(s) => if s.Due(now) then Some(FoundDue(account, s, now)) else None
  }

  /** What follows a period that is over. */
  function Following(c: Catalog, account: string, s: Subscription, now: int): Visit {
    match c.Plan(s.planId)
    case Some(plan) =>
      if plan.IsFree() then
        var renewed := s.Renewed(plan, now);
        Chose(account, renewed, Some(Gift(plan.tokens, PeriodGrant(renewed))), now)
      else Chose(account, s.Ended(), None, now)
    case None => Chose(account, s.Ended(), None, now)
  }

  /** A step that is not enabled changes nothing; a settling is never one step here. */
  function Next(u: Service.Setup, w: World, step: Step): World {
    var b := w.gateway.books;
    match step
    case Look(call, account, now, answer) =>
      (match Looked(u.catalog, b, account, now, answer)
       case Some(visit) => if call in w.visits then w else w.(visits := w.visits[call := visit])
       case None => w)
    case ReadBalance(call) =>
      (match w.VisitOf(call)
       case Some(FoundDue(account, s, now)) =>
         w.(visits := w.visits[call := ReadGrant(account, s, BalanceOf(account, b.Rows(account)).granted, now)])
       case _ => w)
    case WriteExpiry(call) =>
      (match w.VisitOf(call)
       case Some(ReadGrant(account, s, granted, now)) =>
         World(w.gateway.(books := ExpiryWritten(b, account, s, granted, now)),
               w.visits[call := Following(u.catalog, account, s, now)])
       case _ => w)
    case WriteRow(call) =>
      (match w.VisitOf(call)
       case Some(Chose(account, s, None, now)) =>
         World(w.gateway.(books := b.PutSubscription(s)), w.visits - {call})
       case Some(Chose(account, s, Some(gift), now)) =>
         World(w.gateway.(books := b.PutSubscription(s)), w.visits[call := WroteRow(account, gift, now)])
       case _ => w)
    case WriteGrant(call) =>
      (match w.VisitOf(call)
       case Some(WroteRow(account, gift, now)) =>
         World(w.gateway.(books := Credited(b, account, gift.tokens, Grant, 0, gift.reference, now)), w.visits - {call})
       case _ => w)
    case Cut(call) => w.(visits := w.visits - {call})
    case Elsewhere(other) => if other.Settle? then w else w.(gateway := Service.Next(u, w.gateway, other))
  }

  function Run(u: Service.Setup, w: World, steps: seq<Step>): World {
    if steps == [] then w else Next(u, Run(u, w, steps[..|steps| - 1]), steps[|steps| - 1])
  }

  lemma RunOneMore(u: Service.Setup, w: World, steps: seq<Step>, step: Step)
    ensures Run(u, w, steps + [step]) == Next(u, Run(u, w, steps), step)
  {
    assert (steps + [step])[..|steps|] == steps;
  }

  lemma {:induction false} RunJoins(u: Service.Setup, w: World, first: seq<Step>, rest: seq<Step>)
    ensures Run(u, w, first + rest) == Run(u, Run(u, w, first), rest)
    decreases |rest|
  {
    if rest == [] {
      assert first + rest == first;
    } else {
      RunJoins(u, w, first, rest[..|rest| - 1]);
      assert (first + rest)[..|first + rest| - 1] == first + rest[..|rest| - 1];
    }
  }

  // ---------- taken in a row, they are the settling ----------

  /** The steps of one settling; those its branch does not reach change nothing. */
  function InARow(call: nat, account: string, now: int, answer: ChainAnswer): seq<Step> {
    [Look(call, account, now, answer), ReadBalance(call), WriteExpiry(call), WriteRow(call), WriteGrant(call)]
  }

  lemma RunOfFive(u: Service.Setup, w: World, a: Step, b: Step, c: Step, d: Step, e: Step)
    ensures Run(u, w, [a, b, c, d, e]) == Next(u, Next(u, Next(u, Next(u, Next(u, w, a), b), c), d), e)
  {
    RunOneMore(u, w, [], a);
    RunOneMore(u, w, [] + [a], b);
    RunOneMore(u, w, [] + [a] + [b], c);
    RunOneMore(u, w, [] + [a] + [b] + [c], d);
    RunOneMore(u, w, [] + [a] + [b] + [c] + [d], e);
    assert [] + [a] + [b] + [c] + [d] + [e] == [a, b, c, d, e];
  }

  /** With nothing in between, the steps of a settling are the one step `Billing` makes of it. */
  lemma InARowTheySettle(u: Service.Setup, w: World, call: nat, account: string, now: int, answer: ChainAnswer)
    requires call !in w.visits
    ensures
      var after := Run(u, w, InARow(call, account, now, answer));
      && after.gateway == w.gateway.(books := Settled(u.catalog, w.gateway.books, account, now, answer).0)
      && after.visits == w.visits
  {
    RunOfFive(u, w, Look(call, account, now, answer), ReadBalance(call), WriteExpiry(call), WriteRow(call),
              WriteGrant(call));
    var looked := Next(u, w, Look(call, account, now, answer));
    match Looked(u.catalog, w.gateway.books, account, now, answer)
    case None =>
    case Some(Chose(_, _, _, _)) => ChosenLands(u, looked, call);
    case Some(FoundDue(_, s, _)) =>
      ClosesInARow(u, looked, call);
  }

  /** From the choice on: the row and the gift, if there is one. */
  lemma ChosenLands(u: Service.Setup, w: World, call: nat)
    requires call in w.visits && w.visits[call].Chose?
    ensures Next(u, w, ReadBalance(call)) == w && Next(u, w, WriteExpiry(call)) == w
    ensures
      var v, after := w.visits[call], Next(u, Next(u, w, WriteRow(call)), WriteGrant(call));
      var put := w.gateway.books.PutSubscription(v.subscription);
      && after.visits == w.visits - {call}
      && after.gateway == w.gateway.(
           books := if v.gift.None? then put
                    else Credited(put, v.account, v.gift.value.tokens, Grant, 0, v.gift.value.reference, v.now))
  {
  }

  lemma ClosesInARow(u: Service.Setup, w: World, call: nat)
    requires call in w.visits && w.visits[call].FoundDue?
    ensures
      var v := w.visits[call];
      var expired := Next(u, Next(u, w, ReadBalance(call)), WriteExpiry(call));
      var after := Next(u, Next(u, expired, WriteRow(call)), WriteGrant(call));
      && after.visits == w.visits - {call}
      && after.gateway == w.gateway.(books := Closed(u.catalog, w.gateway.books, v.account, v.subscription, v.now).0)
  {
    var expired := Next(u, Next(u, w, ReadBalance(call)), WriteExpiry(call));
    ChosenLands(u, expired, call);
    assert expired.visits - {call} == w.visits - {call};
  }

  // ---------- what is forgiven ----------

  /** The step writes an expiry row of this account's, and the row lands. */
  predicate LandsExpiry(w: World, step: Step, account: string) {
    && step.WriteExpiry? && step.call in w.visits && w.visits[step.call].ReadGrant?
    && var v := w.visits[step.call];
    && v.account == account && v.granted > 0 && !Recorded(w.gateway.books.ledger, EndOf(v.subscription))
  }

  /** How much of an account's spending this step forgives: what it takes back beyond what is still granted. */
  function Forgiven(w: World, step: Step, account: string): nat {
    if LandsExpiry(w, step, account)
    then Max(0, w.visits[step.call].granted - Replay(w.gateway.books.Rows(account)).granted)
    else 0
  }

  function ForgivenIn(u: Service.Setup, steps: seq<Step>, account: string): nat {
    if steps == [] then 0
    else
      ForgivenIn(u, steps[..|steps| - 1], account)
      + Forgiven(Run(u, START, steps[..|steps| - 1]), steps[|steps| - 1], account)
  }

  lemma ExpiringWrites(b: Books, written: Books, account: string, s: Subscription, granted: int, now: int, a: string)
    requires written == ExpiryWritten(b, account, s, granted, now)
    ensures written.Rows(a) ==
            if granted > 0 && !Recorded(b.ledger, EndOf(s)) && a == account
            then b.Rows(a) + [ExpiryRow(account, s, granted, now)] else b.Rows(a)
  {
    OfAppend(b.ledger, ExpiryRow(account, s, granted, now), a);
  }

  lemma ForgivesIfItLands(rows: seq<Entry>, after: seq<Entry>, row: Entry, landed: bool)
    requires Lawful(rows) && row.kind.Expiry? && (landed ==> row.tokens <= 0)
    requires after == if landed then rows + [row] else rows
    ensures Lawful(after)
    ensures Clamped(after) == Clamped(rows) + (if landed then Max(0, -row.tokens - Replay(rows).granted) else 0)
  {
    if landed {
      ExpiryForgivesItsExcess(rows, row);
    }
  }

  /** A step adds to what an account was ever forgiven exactly this. */
  lemma StepForgives(u: Service.Setup, w: World, step: Step, a: string)
    requires AllLawful(w.gateway.books.ledger)
    ensures
      var after := Next(u, w, step).gateway.books.Rows(a);
      Lawful(after) && Clamped(after) == Clamped(w.gateway.books.Rows(a)) + Forgiven(w, step, a)
  {
    match step
    case WriteExpiry(call) => WriteExpiryForgives(u, w, call, a);
    case WriteGrant(call) => WriteGrantForgivesNothing(u, w, call, a);
    case Elsewhere(other) =>
      StepForgivesNothing(u, w.gateway, other);
    case _ =>
  }

  lemma ExpiryIsWritten(u: Service.Setup, w: World, call: nat)
    requires call in w.visits && w.visits[call].ReadGrant?
    ensures
      var v := w.visits[call];
      Next(u, w, WriteExpiry(call)).gateway.books ==
      ExpiryWritten(w.gateway.books, v.account, v.subscription, v.granted, v.now)
  {
  }

  lemma RowsAfterExpiry(u: Service.Setup, w: World, call: nat, a: string)
    requires call in w.visits && w.visits[call].ReadGrant?
    ensures
      var v, rows := w.visits[call], w.gateway.books.Rows(a);
      Next(u, w, WriteExpiry(call)).gateway.books.Rows(a) ==
      if LandsExpiry(w, WriteExpiry(call), a)
      then rows + [ExpiryRow(v.account, v.subscription, v.granted, v.now)] else rows
  {
    var v, after := w.visits[call], Next(u, w, WriteExpiry(call)).gateway.books;
    ExpiryIsWritten(u, w, call);
    ExpiringWrites(w.gateway.books, after, v.account, v.subscription, v.granted, v.now, a);
  }

  lemma WriteExpiryForgives(u: Service.Setup, w: World, call: nat, a: string)
    requires Lawful(w.gateway.books.Rows(a))
    ensures
      var after := Next(u, w, WriteExpiry(call)).gateway.books.Rows(a);
      Lawful(after) && Clamped(after) == Clamped(w.gateway.books.Rows(a)) + Forgiven(w, WriteExpiry(call), a)
  {
    if call in w.visits && w.visits[call].ReadGrant? {
      var v := w.visits[call];
      RowsAfterExpiry(u, w, call, a);
      ForgivesIfItLands(w.gateway.books.Rows(a), Next(u, w, WriteExpiry(call)).gateway.books.Rows(a),
                        ExpiryRow(v.account, v.subscription, v.granted, v.now), LandsExpiry(w, WriteExpiry(call), a));
    }
  }

  lemma WriteGrantForgivesNothing(u: Service.Setup, w: World, call: nat, a: string)
    requires AllLawful(w.gateway.books.ledger)
    ensures
      var after := Next(u, w, WriteGrant(call)).gateway.books.Rows(a);
      Lawful(after) && Clamped(after) == Clamped(w.gateway.books.Rows(a))
  {
    if call in w.visits && w.visits[call].WroteRow? {
      var v := w.visits[call];
      CreditForgivesNothing(w.gateway.books.ledger, Entry(v.account, Grant, v.owed.tokens, v.now, 0, v.owed.reference));
    }
  }

  lemma {:induction false} ForgivenAddsUp(u: Service.Setup, steps: seq<Step>)
    ensures AllLawful(Run(u, START, steps).gateway.books.ledger)
    ensures forall a :: Clamped(Run(u, START, steps).gateway.books.Rows(a)) == ForgivenIn(u, steps, a)
  {
    if steps != [] {
      var before := Run(u, START, steps[..|steps| - 1]);
      ForgivenAddsUp(u, steps[..|steps| - 1]);
      forall a
        ensures Lawful(Run(u, START, steps).gateway.books.Rows(a))
        ensures Clamped(Run(u, START, steps).gateway.books.Rows(a)) == ForgivenIn(u, steps, a)
      {
        StepForgives(u, before, steps[|steps| - 1], a);
      }
      RowsAreLawful(Run(u, START, steps).gateway.books);
    }
  }

  lemma RowsAreLawful(b: Books)
    requires forall a :: Lawful(b.Rows(a))
    ensures AllLawful(b.ledger)
  {
    forall a
      ensures Lawful(Of(b.ledger, a))
    {
      assert Lawful(b.Rows(a));
    }
  }

  /**
   Under every interleaving, a balance is the signed sum plus exactly what late expiries forgave:
   each of them what its reading had grown out of date by.
   */
  lemma BalanceUnderSplitting(u: Service.Setup, steps: seq<Step>, account: string)
    ensures
      var rows := Run(u, START, steps).gateway.books.Rows(account);
      BalanceOf(account, rows).Total() == Max(0, Signed(rows) + ForgivenIn(u, steps, account))
  {
    LawfulAndForgiven(u, steps, account);
    TotalWithForgiven(account, Run(u, START, steps).gateway.books.Rows(account), ForgivenIn(u, steps, account));
  }

  lemma TotalWithForgiven(account: string, rows: seq<Entry>, forgiven: nat)
    requires Lawful(rows) && Clamped(rows) == forgiven
    ensures BalanceOf(account, rows).Total() == Max(0, Signed(rows) + forgiven)
  {
    BalanceIsSignedSum(account, rows);
  }

  lemma LawfulAndForgiven(u: Service.Setup, steps: seq<Step>, account: string)
    ensures
      var rows := Run(u, START, steps).gateway.books.Rows(account);
      Lawful(rows) && Clamped(rows) == ForgivenIn(u, steps, account)
  {
    ForgivenAddsUp(u, steps);
  }

  /** If the `n`th step lands an expiry of this account's, what is still granted covers what it read. */
  predicate CurrentAt(u: Service.Setup, steps: seq<Step>, n: nat, account: string)
    requires n < |steps|
  {
    var w := Run(u, START, steps[..n]);
    LandsExpiry(w, steps[n], account) ==>
      w.visits[steps[n].call].granted <= Replay(w.gateway.books.Rows(account)).granted
  }

  ghost predicate ReadingsWereCurrent(u: Service.Setup, steps: seq<Step>, account: string) {
    forall n: nat :: n < |steps| ==> CurrentAt(u, steps, n, account)
  }

  lemma CurrentForgivesNothing(u: Service.Setup, steps: seq<Step>, n: nat, account: string)
    requires n < |steps|
    ensures CurrentAt(u, steps, n, account) <==> Forgiven(Run(u, START, steps[..n]), steps[n], account) == 0
  {
  }

  lemma CurrentInPrefix(u: Service.Setup, steps: seq<Step>, n: nat, account: string)
    requires n < |steps| - 1
    ensures CurrentAt(u, steps[..|steps| - 1], n, account) <==> CurrentAt(u, steps, n, account)
  {
    assert steps[..|steps| - 1][..n] == steps[..n];
  }

  lemma {:induction false} ForgivenNothingIffCurrent(u: Service.Setup, steps: seq<Step>, account: string)
    ensures ForgivenIn(u, steps, account) == 0 <==> ReadingsWereCurrent(u, steps, account)
  {
    if steps != [] {
      ForgivenNothingIffCurrent(u, steps[..|steps| - 1], account);
      CurrentForgivesNothing(u, steps, |steps| - 1, account);
      CurrentOneMore(u, steps, account);
    }
  }

  lemma CurrentOneMore(u: Service.Setup, steps: seq<Step>, account: string)
    requires steps != []
    ensures ReadingsWereCurrent(u, steps, account) <==>
            ReadingsWereCurrent(u, steps[..|steps| - 1], account) && CurrentAt(u, steps, |steps| - 1, account)
  {
    var before := steps[..|steps| - 1];
    if ReadingsWereCurrent(u, steps, account) {
      forall n: nat | n < |before|
        ensures CurrentAt(u, before, n, account)
      {
        CurrentInPrefix(u, steps, n, account);
      }
    }
    if ReadingsWereCurrent(u, before, account) && CurrentAt(u, steps, |steps| - 1, account) {
      forall n: nat | n < |steps|
        ensures CurrentAt(u, steps, n, account)
      {
        if n < |before| {
          assert CurrentAt(u, before, n, account);
          CurrentInPrefix(u, steps, n, account);
        }
      }
    }
  }

  /** Nothing was forgiven an account exactly when each of its landed expiries found at least the grant it had read. */
  lemma NothingForgivenIffReadingsWereCurrent(u: Service.Setup, steps: seq<Step>, account: string)
    ensures Clamped(Run(u, START, steps).gateway.books.Rows(account)) == 0 <==> ReadingsWereCurrent(u, steps, account)
  {
    LawfulAndForgiven(u, steps, account);
    ForgivenNothingIffCurrent(u, steps, account);
  }

  // ---------- by events ----------

  /** A debit of this account's that lands. */
  predicate LandsCharge(u: Service.Setup, w: World, step: Step, account: string) {
    && step.Elsewhere? && step.other.Charge? && step.other.account == account
    && u.rates.Billable(step.other.usage) > 0
    && !Recorded(w.gateway.books.ledger, ForRun(step.other.runId))
  }

  /** Only a debit or an expiry of its own leaves an account with less granted. */
  predicate NoLessGranted(b: Books, after: Books, account: string) {
    Replay(b.Rows(account)).granted <= Replay(after.Rows(account)).granted
  }

  lemma OnlySpendingLowers(u: Service.Setup, w: World, step: Step, account: string)
    requires !LandsCharge(u, w, step, account) && !LandsExpiry(w, step, account)
    ensures NoLessGranted(w.gateway.books, Next(u, w, step).gateway.books, account)
  {
    var b, after := w.gateway.books, Next(u, w, step).gateway.books;
    match step
    case WriteExpiry(call) =>
      if call in w.visits && w.visits[call].ReadGrant? {
        var v := w.visits[call];
        RowLowersNothing(b, after, ExpiryRow(v.account, v.subscription, v.granted, v.now), account);
      }
    case WriteGrant(call) =>
      if call in w.visits && w.visits[call].WroteRow? {
        var v := w.visits[call];
        RowLowersNothing(b, after, Entry(v.account, Grant, v.owed.tokens, v.now, 0, v.owed.reference), account);
      }
    case Elsewhere(other) => ElsewhereOnlySpendingLowers(u, w, other, account);
    case _ =>
  }

  lemma ElsewhereOnlySpendingLowers(u: Service.Setup, w: World, other: Service.Step, account: string)
    requires !LandsCharge(u, w, Elsewhere(other), account)
    ensures NoLessGranted(w.gateway.books, Next(u, w, Elsewhere(other)).gateway.books, account)
  {
    var b, after := w.gateway.books, Next(u, w, Elsewhere(other)).gateway.books;
    match other
    case Charge(a, runId, usage, now) =>
      RowLowersNothing(b, after, DebitRow(a, runId, u.rates.Billable(usage), usage.cost, now), account);
    case OtherCredit(a, tokens, kind, text, now) =>
      RowLowersNothing(b, after, Entry(a, kind, tokens, now, 0, Other(text)), account);
    case DeliverTokens(call, now) =>
      if call in w.gateway.calls && u.catalog.Product(w.gateway.calls[call].invoice.sku).Some? {
        var i := w.gateway.calls[call].invoice;
        RowLowersNothing(b, after, DeliveryRow(u.catalog.Product(i.sku).value, i, now), account);
      }
    case _ =>
  }

  /** A row that is refused, or another account's, or a credit, takes nothing out of a grant. */
  lemma RowLowersNothing(b: Books, after: Books, row: Entry, account: string)
    requires after.ledger == b.ledger || after.ledger == Append(b.ledger, row)
    requires row.kind in CREDITS ==> row.tokens >= 0
    requires row.kind in CREDITS || row.account != account || after.ledger == b.ledger || Refused(b.ledger, row)
    ensures NoLessGranted(b, after, account)
  {
    if after.ledger != b.ledger {
      OfAppend(b.ledger, row, account);
      if row.account == account {
        ReplayAppend(b.Rows(account), row);
      }
    }
  }

  /** What a settling has read is still granted. */
  predicate StillCovered(w: World, call: nat, account: string) {
    call in w.visits && w.visits[call].ReadGrant? && w.visits[call].account == account ==>
      w.visits[call].granted <= Replay(w.gateway.books.Rows(account)).granted
  }

  lemma StaysCovered(u: Service.Setup, w: World, step: Step, call: nat, account: string)
    requires Lawful(w.gateway.books.Rows(account)) && StillCovered(w, call, account)
    requires !LandsCharge(u, w, step, account) && !LandsExpiry(w, step, account)
    ensures StillCovered(Next(u, w, step), call, account)
  {
    OnlySpendingLowers(u, w, step, account);
    if step == ReadBalance(call) {
      PoolsAddUp(w.gateway.books.Rows(account));
    }
  }

  ghost predicate Undisturbed(u: Service.Setup, w: World, between: seq<Step>, account: string) {
    forall n: nat :: n < |between| ==>
                       var at := Run(u, w, between[..n]);
                       !LandsCharge(u, at, between[n], account) && !LandsExpiry(at, between[n], account)
  }

  lemma {:induction false} CoveredWhileUndisturbed(u: Service.Setup, w: World, between: seq<Step>, call: nat,
                                                   account: string)
    requires AllLawful(w.gateway.books.ledger) && StillCovered(w, call, account)
    requires Undisturbed(u, w, between, account)
    ensures AllLawful(Run(u, w, between).gateway.books.ledger) && StillCovered(Run(u, w, between), call, account)
  {
    if between != [] {
      var before, last := between[..|between| - 1], between[|between| - 1];
      assert Undisturbed(u, w, before, account) by {
        forall n: nat | n < |before|
          ensures
            var at := Run(u, w, before[..n]);
            !LandsCharge(u, at, before[n], account) && !LandsExpiry(at, before[n], account)
        {
          assert before[..n] == between[..n];
        }
      }
      CoveredWhileUndisturbed(u, w, before, call, account);
      var at := Run(u, w, before);
      forall a
        ensures Lawful(Of(Next(u, at, last).gateway.books.ledger, a))
      {
        StepForgives(u, at, last, a);
      }
      StaysCovered(u, at, last, call, account);
    }
  }

  /**
   After any history: if, between a settling's reading of the balance and its writing of the
   expiry, no debit of the account lands and no other expiry of it does, it forgives nothing,
   whatever else goes on.
   */
  lemma UndisturbedForgivesNothing(u: Service.Setup, history: seq<Step>, call: nat, between: seq<Step>, account: string)
    requires var w := Run(u, START, history); call in w.visits && w.visits[call].FoundDue?
    requires Undisturbed(u, Next(u, Run(u, START, history), ReadBalance(call)), between, account)
    ensures
      var w := Run(u, Next(u, Run(u, START, history), ReadBalance(call)), between);
      && Forgiven(w, WriteExpiry(call), account) == 0
      && Clamped(Next(u, w, WriteExpiry(call)).gateway.books.Rows(account)) == Clamped(w.gateway.books.Rows(account))
  {
    ForgivenAddsUp(u, history);
    var w := Run(u, START, history);
    PoolsAddUp(w.gateway.books.Rows(account));
    var read := Next(u, w, ReadBalance(call));
    CoveredWhileUndisturbed(u, read, between, call, account);
    StepForgives(u, Run(u, read, between), WriteExpiry(call), account);
  }

  /** If the `n`th step spends what the account was granted, no other settling of it holds a reading of that. */
  ghost predicate SpendsUnread(u: Service.Setup, steps: seq<Step>, n: nat, account: string)
    requires n < |steps|
  {
    var w := Run(u, START, steps[..n]);
    LandsCharge(u, w, steps[n], account) || LandsExpiry(w, steps[n], account) ==>
      forall k :: k in w.visits && w.visits[k].ReadGrant? && w.visits[k].account == account ==>
                    steps[n] == WriteExpiry(k)
  }

  ghost predicate AllCovered(w: World, account: string) {
    forall k :: k in w.visits ==> StillCovered(w, k, account)
  }

  lemma StepKeepsAllCovered(u: Service.Setup, w: World, step: Step, account: string)
    requires Lawful(w.gateway.books.Rows(account)) && AllCovered(w, account)
    requires LandsCharge(u, w, step, account) || LandsExpiry(w, step, account) ==>
               forall k :: k in w.visits && w.visits[k].ReadGrant? && w.visits[k].account == account ==>
                             step == WriteExpiry(k)
    ensures AllCovered(Next(u, w, step), account)
  {
    if !LandsCharge(u, w, step, account) && !LandsExpiry(w, step, account) {
      forall k | k in Next(u, w, step).visits
        ensures StillCovered(Next(u, w, step), k, account)
      {
        StaysCovered(u, w, step, k, account);
      }
    }
  }

  lemma {:induction false} CoveredWhenSpendsUnread(u: Service.Setup, steps: seq<Step>, account: string)
    requires forall n: nat :: n < |steps| ==> SpendsUnread(u, steps, n, account)
    ensures AllCovered(Run(u, START, steps), account) && ReadingsWereCurrent(u, steps, account)
  {
    if steps != [] {
      var before := steps[..|steps| - 1];
      forall n: nat | n < |before|
        ensures SpendsUnread(u, before, n, account)
      {
        assert SpendsUnread(u, steps, n, account) && before[..n] == steps[..n];
      }
      CoveredWhenSpendsUnread(u, before, account);
      ForgivenAddsUp(u, before);
      assert SpendsUnread(u, steps, |before|, account);
      var w := Run(u, START, before);
      StepKeepsAllCovered(u, w, steps[|before|], account);
      assert steps[|before|].WriteExpiry? && steps[|before|].call in w.visits ==>
          StillCovered(w, steps[|before|].call, account);
      CurrentOneMore(u, steps, account);
    }
  }

  /**
   So in a history in which nothing lands that spends an account's grant while another settling
   of the account holds a reading of it, nothing is ever forgiven the account.
   */
  lemma NothingForgivenWhenSpendsUnread(u: Service.Setup, steps: seq<Step>, account: string)
    requires forall n: nat :: n < |steps| ==> SpendsUnread(u, steps, n, account)
    ensures
      var rows := Run(u, START, steps).gateway.books.Rows(account);
      Clamped(rows) == 0 && BalanceOf(account, rows).Total() == Max(0, Signed(rows))
  {
    CoveredWhenSpendsUnread(u, steps, account);
    NothingForgivenIffReadingsWereCurrent(u, steps, account);
    LawfulAndForgiven(u, steps, account);
    TotalWithForgiven(account, Run(u, START, steps).gateway.books.Rows(account), 0);
  }

  /** A charge between the two halves of an expiry is forgiven, as far as the grant that was read covered it. */
  lemma ChargeInBetweenIsForgiven(u: Service.Setup, w: World, call: nat, runId: string, usage: Pricing.Usage, now: int)
    requires AllLawful(w.gateway.books.ledger) && call in w.visits && w.visits[call].FoundDue?
    requires !Recorded(w.gateway.books.ledger, EndOf(w.visits[call].subscription))
    requires !Recorded(w.gateway.books.ledger, ForRun(runId)) && u.rates.Billable(usage) > 0
    ensures
      var account := w.visits[call].account;
      var charge := Elsewhere(Service.Charge(account, runId, usage, now));
      var charged := Next(u, Next(u, w, ReadBalance(call)), charge);
      var rows, spent := w.gateway.books.Rows(account), u.rates.Billable(usage);
      var pools, shown := Replay(rows), BalanceOf(account, rows).granted;
      && LandsCharge(u, Next(u, w, ReadBalance(call)), charge, account)
      && Forgiven(charged, WriteExpiry(call), account) == Max(0, shown - (pools.granted - Min(pools.granted, spent)))
      && (pools.purchased >= 0 ==> Forgiven(charged, WriteExpiry(call), account) == Min(spent, shown))
  {
    var b, v := w.gateway.books, w.visits[call];
    var row := DebitRow(v.account, runId, u.rates.Billable(usage), usage.cost, now);
    ChargedWhileSettling(u, w, call, runId, usage, now);
    OfAppend(b.ledger, row, v.account);
    OtherKeysStay(b.ledger, row, EndOf(v.subscription));
    ReadingGrowsOld(b.Rows(v.account), v.account, row);
  }

  lemma ChargedWhileSettling(u: Service.Setup, w: World, call: nat, runId: string, usage: Pricing.Usage, now: int)
    requires call in w.visits && w.visits[call].FoundDue? && u.rates.Billable(usage) > 0
    ensures
      var b, v := w.gateway.books, w.visits[call];
      var charged := Next(u, Next(u, w, ReadBalance(call)), Elsewhere(Service.Charge(v.account, runId, usage, now)));
      && charged.gateway.books == b.Record(DebitRow(v.account, runId, u.rates.Billable(usage), usage.cost, now))
      && charged.visits ==
         w.visits[call := ReadGrant(v.account, v.subscription, BalanceOf(v.account, b.Rows(v.account)).granted, v.now)]
  {
  }

  /** By how much a reading is out of date once a debit has come after it. */
  lemma ReadingGrowsOld(rows: seq<Entry>, account: string, debit: Entry)
    requires Lawful(rows) && debit.kind.Usage? && debit.tokens <= 0
    ensures
      var pools, shown := Replay(rows), BalanceOf(account, rows).granted;
      && Max(0, shown - Replay(rows + [debit]).granted) ==
         Max(0, shown - (pools.granted - Min(pools.granted, -debit.tokens)))
      && (pools.purchased >= 0 ==> Max(0, shown - Replay(rows + [debit]).granted) == Min(-debit.tokens, shown))
  {
    PoolsAddUp(rows);
    ReplayAppend(rows, debit);
  }
}
