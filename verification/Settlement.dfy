/** What one settling of an account's period promises, on every set of books. */
module Settlement {
  import opened Prelude
  import opened Ledger
  import opened Catalog
  import opened Store
  import opened Billing

  /** Every subscription row is filed under its own account. */
  ghost predicate WellKeyed(b: Books) {
    forall a :: a in b.subscriptions ==> b.subscriptions[a].account == a
  }

  lemma RecordTwice(ledger: seq<Entry>, e: Entry)
    requires !e.reference.Unreferenced?
    ensures Recorded(Append(ledger, e), e.reference)
    ensures Append(Append(ledger, e), e) == Append(ledger, e)
  {
    var after := Append(ledger, e);
    if !Refused(ledger, e) {
      assert after[|ledger|] == e;
    }
  }

  /** Settling again at the same instant, with the same answer from the chain, changes nothing. */
  lemma SettlingTwiceIsSettlingOnce(c: Catalog, b: Books, account: string, now: int, answer: ChainAnswer)
    requires WellKeyed(b)
    ensures
      var once := Settled(c, b, account, now, answer);
      Settled(c, once.0, account, now, answer) == once && WellKeyed(once.0)
  {
    var once := Settled(c, b, account, now, answer);
    if Mirrored(c, b, account, now, answer).Some? {
      var plan := c.Plan(answer.plan).value;
      var s := once.1.value;
      var row := Entry(account, Grant, plan.tokens, now, 0, OnChain(answer.plan, answer.started));
      RecordTwice(b.ledger, row);
      assert once.0.PutSubscription(s).subscriptions == once.0.subscriptions;
    }
  }

  /**
   An account with no subscription yet, of which the chain reports nothing live, gets its first
   free week exactly when no row holds that week's key, on top of whatever it holds and after
   whatever it owes. The key names the plan and the instant it ends, not the account.
   */
  lemma FirstWeekLandsIffItsKeyIsFree(c: Catalog, b: Books, account: string, now: int, answer: ChainAnswer)
    requires c.FreePlan().Some? && account !in b.subscriptions && Mirrored(c, b, account, now, answer).None?
    requires Lawful(b.Rows(account)) && Clamped(b.Rows(account)) == 0
    ensures
      var plan := c.FreePlan().value;
      var landed := !Recorded(b.ledger, ForGrant(plan.id, now + plan.Period()));
      BalanceOf(account, Settled(c, b, account, now, answer).0.Rows(account)) ==
      RenewedBalance(b.Rows(account), account, plan.tokens, Landing(false, landed))
  {
    var plan := c.FreePlan().value;
    var s := Subscription.Begin(account, plan, now);
    RenewalGrants(b.PutSubscription(s), account, plan, s, now);
    RenewalClosedForm(b.Rows(account), account, plan.tokens, now, PeriodGrant(s), PeriodGrant(s),
                      Landing(false, !Recorded(b.ledger, PeriodGrant(s))));
  }

  /** Two accounts first seen at the same instant: the second is subscribed and granted nothing. */
  lemma SameInstantCollides(c: Catalog, first: string, second: string, now: int)
    requires c.FreePlan().Some? && c.FreePlan().value.tokens > 0 && first != second
    ensures
      var one := Settled(c, EMPTY, first, now, Silent).0;
      var two := Settled(c, one, second, now, Silent).0;
      && BalanceOf(first, two.Rows(first)).granted == c.FreePlan().value.tokens
      && second in two.subscriptions && two.subscriptions[second].status == Active
      && BalanceOf(second, two.Rows(second)).Total() == 0
  {
    var plan := c.FreePlan().value;
    var row := Entry(first, Grant, plan.tokens, now, 0, ForGrant(plan.id, now + plan.Period()));
    var one := Settled(c, EMPTY, first, now, Silent).0;
    FirstWeekLandsIffItsKeyIsFree(c, EMPTY, first, now, Silent);
    assert one.ledger == [] + [row];
    SecondGetsNothing(c, one, row, first, second, now);
  }

  lemma SecondGetsNothing(c: Catalog, one: Books, row: Entry, first: string, second: string, now: int)
    requires c.FreePlan().Some? && c.FreePlan().value.tokens > 0 && first != second
    requires row.account == first && row.reference == ForGrant(c.FreePlan().value.id, now + c.FreePlan().value.Period())
    requires one.ledger == [] + [row] && second !in one.subscriptions
    ensures
      var two := Settled(c, one, second, now, Silent).0;
      && two.Rows(first) == one.Rows(first)
      && second in two.subscriptions && two.subscriptions[second].status == Active
      && BalanceOf(second, two.Rows(second)).Total() == 0
  {
    OfAppend([], row, second);
    assert one.ledger[0] == row;
    FirstWeekLandsIffItsKeyIsFree(c, one, second, now, Silent);
  }

  /** A free period is over. */
  ghost predicate FreeRenewalDue(c: Catalog, b: Books, account: string, now: int) {
    && WellKeyed(b)
    && account in b.subscriptions
    && var s := b.subscriptions[account];
    && s.Due(now)
    && c.Plan(s.planId).Some?
    && c.Plan(s.planId).value.IsFree()
  }

  /** Which of the two rows of its renewal have their keys free, on every account's rows. */
  function LandingOf(c: Catalog, b: Books, account: string, now: int): Landing
    requires account in b.subscriptions && c.Plan(b.subscriptions[account].planId).Some?
  {
    var s := b.subscriptions[account];
    Landing(!Recorded(b.ledger, ForExpiry(s.planId, s.renewsAt)),
            !Recorded(b.ledger, ForGrant(s.planId, now + c.Plan(s.planId).value.Period())))
  }

  /** A free period that is over, with nothing live on chain, is renewed by exactly the rows of `RenewRows`. */
  lemma RenewalWritesTheseRows(c: Catalog, b: Books, account: string, now: int, answer: ChainAnswer)
    requires FreeRenewalDue(c, b, account, now) && Mirrored(c, b, account, now, answer).None?
    ensures
      var s := b.subscriptions[account];
      var plan := c.Plan(s.planId).value;
      Settled(c, b, account, now, answer).0.Rows(account) ==
      RenewRows(b.Rows(account), account, plan.tokens, now, ForExpiry(s.planId, s.renewsAt),
                ForGrant(s.planId, now + plan.Period()), LandingOf(c, b, account, now))
  {
    var s := b.subscriptions[account];
    var plan := c.Plan(s.planId).value;
    EndWritesTheseRows(b, account, s, now);
    RenewalGrants(GrantExpired(b, account, s, now), account, plan, s.Renewed(plan, now), now);
    OtherKeysStay(b.ledger, ExpiryRow(account, s, BalanceOf(account, b.Rows(account)).granted, now),
                  ForGrant(s.planId, now + plan.Period()));
  }

  lemma RenewalGrants(b: Books, account: string, plan: Plan, s: Subscription, now: int)
    ensures Started(b, account, plan, s, now).Rows(account) ==
            b.Rows(account)
            + (if Recorded(b.ledger, PeriodGrant(s)) then [] else [GrantRow(account, plan.tokens, now, PeriodGrant(s))])
  {
    OfAppend(b.ledger, GrantRow(account, plan.tokens, now, PeriodGrant(s)), account);
    assert b.Rows(account) + [] == b.Rows(account);
  }

  lemma OtherKeysStay(ledger: seq<Entry>, e: Entry, r: Reference)
    requires e.reference != r
    ensures Recorded(Append(ledger, e), r) <==> Recorded(ledger, r)
  {
    var after := Append(ledger, e);
    if Recorded(ledger, r) {
      var i :| 0 <= i < |ledger| && ledger[i].reference == r;
      assert after[i].reference == r;
    }
  }

  /**
   The renewed week in closed form, with S everything the account was ever credited less
   everything it was debited, whichever of the two keys another account's rows had taken.
   */
  lemma FreeRenewalClosedForm(c: Catalog, b: Books, account: string, now: int, answer: ChainAnswer)
    requires FreeRenewalDue(c, b, account, now) && Mirrored(c, b, account, now, answer).None?
    requires Lawful(b.Rows(account)) && Clamped(b.Rows(account)) == 0
    ensures
      var tokens := c.Plan(b.subscriptions[account].planId).value.tokens;
      BalanceOf(account, Settled(c, b, account, now, answer).0.Rows(account)) ==
      RenewedBalance(b.Rows(account), account, tokens, LandingOf(c, b, account, now))
  {
    var s := b.subscriptions[account];
    var plan := c.Plan(s.planId).value;
    RenewalWritesTheseRows(c, b, account, now, answer);
    RenewalClosedForm(b.Rows(account), account, plan.tokens, now, ForExpiry(s.planId, s.renewsAt),
                      ForGrant(s.planId, now + plan.Period()), LandingOf(c, b, account, now));
  }

  // Two accounts that renew at one instant.

  /** Two accounts begun at two instants. */
  function Begun(plan: Plan, first: string, second: string, t1: int, t2: int): Books {
    var one, two := Subscription.Begin(first, plan, t1), Subscription.Begin(second, plan, t2);
    Books([GrantRow(first, plan.tokens, t1, PeriodGrant(one)), GrantRow(second, plan.tokens, t2, PeriodGrant(two))],
          map[], map[first := one, second := two])
  }

  lemma BothBegin(c: Catalog, plan: Plan, first: string, second: string, t1: int, t2: int)
    requires c.FreePlan() == Some(plan) && first != second && t1 != t2
    ensures BothSettledAt(c, EMPTY, first, t1, second, t2) == Begun(plan, first, second, t1, t2)
  {
    var one := Settled(c, EMPTY, first, t1, Silent).0;
    assert one.ledger == [GrantRow(first, plan.tokens, t1, PeriodGrant(Subscription.Begin(first, plan, t1)))];
  }

  function BothSettledAt(c: Catalog, b: Books, first: string, t1: int, second: string, t2: int): Books {
    Settled(c, Settled(c, b, first, t1, Silent).0, second, t2, Silent).0
  }

  lemma FirstOfTwoRenews(c: Catalog, plan: Plan, first: string, second: string, t1: int, t2: int, t3: int)
    requires c.Plan(plan.id) == Some(plan) && plan.IsFree() && first != second && t1 != t2
    requires t3 >= t1 + plan.Period() && t3 >= t2 + plan.Period() && plan.tokens > 0
    ensures
      var b := Begun(plan, first, second, t1, t2);
      var one, two := b.subscriptions[first], b.subscriptions[second];
      var after := Settled(c, b, first, t3, Silent).0;
      && after.ledger == b.ledger + [ExpiryRow(first, one, plan.tokens, t3)]
                         + [GrantRow(first, plan.tokens, t3, ForGrant(plan.id, t3 + plan.Period()))]
      && after.subscriptions == b.subscriptions[first := one.Renewed(plan, t3)]
  {
    var b := Begun(plan, first, second, t1, t2);
    RowsOfTwo(b.ledger[0], b.ledger[1]);
    OneGrantRow(b.ledger[0], first);
    var one := b.subscriptions[first];
    assert GrantExpired(b, first, one, t3).ledger == b.ledger + [ExpiryRow(first, one, plan.tokens, t3)];
  }

  /**
   Two accounts begun at different instants and renewed at one: the second loses what it had
   left of its week and is given nothing for the next, though it stays subscribed.
   */
  lemma RenewalsCollide(c: Catalog, plan: Plan, first: string, second: string, t1: int, t2: int, t3: int)
    requires c.FreePlan() == Some(plan) && c.Plan(plan.id) == Some(plan) && plan.IsFree() && plan.tokens > 0
    requires first != second && t1 != t2 && t3 >= t1 + plan.Period() && t3 >= t2 + plan.Period()
    ensures
      var begun := BothSettledAt(c, EMPTY, first, t1, second, t2);
      var after := BothSettledAt(c, begun, first, t3, second, t3);
      && BalanceOf(second, begun.Rows(second)).granted == plan.tokens
      && BalanceOf(second, after.Rows(second)).Total() == 0
      && after.SubscriptionOf(second) == Some(Subscription.Begin(second, plan, t2).Renewed(plan, t3))
  {
    BothBegin(c, plan, first, second, t1, t2);
    FirstOfTwoRenews(c, plan, first, second, t1, t2, t3);
    SecondOfTwoRenews(c, plan, first, second, t1, t2, t3,
                      Settled(c, Begun(plan, first, second, t1, t2), first, t3, Silent).0);
  }

  /** What the second finds: its own one row, the key of its period's end free, that of its next week taken. */
  lemma SecondFindsItsWeekTaken(plan: Plan, first: string, second: string, t1: int, t2: int, t3: int,
                                ledger: seq<Entry>)
    requires first != second && t1 != t2 && t3 >= t2 + plan.Period()
    requires
      var b := Begun(plan, first, second, t1, t2);
      ledger == b.ledger + [ExpiryRow(first, b.subscriptions[first], plan.tokens, t3)]
                + [GrantRow(first, plan.tokens, t3, ForGrant(plan.id, t3 + plan.Period()))]
    ensures
      var b := Begun(plan, first, second, t1, t2);
      && Of(ledger, second) == Of(b.ledger, second) == [b.ledger[1]]
      && !Recorded(ledger, ForExpiry(plan.id, t2 + plan.Period()))
      && Recorded(ledger, ForGrant(plan.id, t3 + plan.Period()))
  {
    var b := Begun(plan, first, second, t1, t2);
    var expiry := ExpiryRow(first, b.subscriptions[first], plan.tokens, t3);
    var grant := GrantRow(first, plan.tokens, t3, ForGrant(plan.id, t3 + plan.Period()));
    RowsOfTwo(b.ledger[0], b.ledger[1]);
    OfAppend(b.ledger, expiry, second);
    OfAppend(b.ledger + [expiry], grant, second);
    assert ledger[|ledger| - 1] == grant;
    assert !Recorded(b.ledger + [expiry], ForExpiry(plan.id, t2 + plan.Period()));
  }

  lemma OneGrantIsSigned(row: Entry)
    requires row.kind.Grant? && row.tokens >= 0
    ensures Clamped([row]) == 0 && Signed([row]) == row.tokens
  {
    OneMoreGrantRow([], row);
    assert [] + [row] == [row];
  }

  lemma SecondOfTwoRenews(c: Catalog, plan: Plan, first: string, second: string, t1: int, t2: int, t3: int, once: Books)
    requires c.Plan(plan.id) == Some(plan) && plan.IsFree() && first != second && t1 != t2
    requires t3 >= t1 + plan.Period() && t3 >= t2 + plan.Period()
    requires
      var b := Begun(plan, first, second, t1, t2);
      && once.subscriptions == b.subscriptions[first := b.subscriptions[first].Renewed(plan, t3)]
      && once.ledger == b.ledger + [ExpiryRow(first, b.subscriptions[first], plan.tokens, t3)]
                        + [GrantRow(first, plan.tokens, t3, ForGrant(plan.id, t3 + plan.Period()))]
    ensures
      var b, after := Begun(plan, first, second, t1, t2), Settled(c, once, second, t3, Silent).0;
      && BalanceOf(second, b.Rows(second)).granted == plan.tokens
      && BalanceOf(second, after.Rows(second)).Total() == 0
      && after.SubscriptionOf(second) == Some(b.subscriptions[second].Renewed(plan, t3))
  {
    var row := Begun(plan, first, second, t1, t2).ledger[1];
    SecondFindsItsWeekTaken(plan, first, second, t1, t2, t3, once.ledger);
    assert LandingOf(c, once, second, t3) == Landing(true, false);
    OneGrantRow(row, second);
    OneGrantIsSigned(row);
    FreeRenewalClosedForm(c, once, second, t3, Silent);
  }

  /**
   A mirrored period only ever adds: its grant lands once, on top of whatever was held before.
   Nothing that an earlier plan granted is taken back by it.
   */
  lemma MirroringAddsOnTop(c: Catalog, b: Books, account: string, now: int, answer: ChainAnswer)
    requires Mirrored(c, b, account, now, answer).Some?
    ensures
      var after := Settled(c, b, account, now, answer).0;
      var landed := !Recorded(b.ledger, OnChain(answer.plan, answer.started));
      && Replay(after.Rows(account)).purchased == Replay(b.Rows(account)).purchased
      && Replay(after.Rows(account)).granted ==
         Replay(b.Rows(account)).granted + (if landed then c.Plan(answer.plan).value.tokens else 0)
  {
    var row := Entry(account, Grant, c.Plan(answer.plan).value.tokens, now, 0, OnChain(answer.plan, answer.started));
    OfAppend(b.ledger, row, account);
    ReplayAppend(b.Rows(account), row);
  }

  /** A period that nothing renews is over: a paid plan's, or one withdrawn from the catalog. */
  ghost predicate PaidPeriodOver(c: Catalog, b: Books, account: string, now: int) {
    && WellKeyed(b)
    && account in b.subscriptions
    && b.subscriptions[account].Due(now)
    && var plan := c.Plan(b.subscriptions[account].planId);
    && (plan.Some? ==> !plan.value.IsFree())
    && Lawful(b.Rows(account))
  }

  function EndOf(s: Subscription): Reference { ForExpiry(s.planId, s.renewsAt) }

  /**
   A paid period that lapses, with nothing live on chain, keeps what was bought and takes back
   exactly what it still granted unless some row already holds the key of its end; then the
   grant is kept. The subscription has ended all the same.
   */
  lemma PaidPeriodEnds(c: Catalog, b: Books, account: string, now: int, answer: ChainAnswer)
    requires PaidPeriodOver(c, b, account, now) && Mirrored(c, b, account, now, answer).None?
    ensures
      var s, was := b.subscriptions[account], BalanceOf(account, b.Rows(account));
      var after := Settled(c, b, account, now, answer).0;
      && BalanceOf(account, after.Rows(account)) ==
         Balance(account, if Recorded(b.ledger, EndOf(s)) then was.granted else 0, was.purchased)
      && after.subscriptions == b.subscriptions[account := s.Ended()]
      && WellKeyed(after)
  {
    EndWritesTheseRows(b, account, b.subscriptions[account], now);
    ExpiryIsNeverClamped(b.Rows(account), account, now, EndOf(b.subscriptions[account]));
  }

  lemma EndWritesTheseRows(b: Books, account: string, s: Subscription, now: int)
    ensures GrantExpired(b, account, s, now).Rows(account) ==
            if Recorded(b.ledger, EndOf(s)) then b.Rows(account)
            else ExpireRows(b.Rows(account), account, now, EndOf(s))
  {
    OfAppend(b.ledger, ExpiryRow(account, s, BalanceOf(account, b.Rows(account)).granted, now), account);
  }

  /** Once ended, with nothing live on chain, no later settling does anything: the free plan never starts again. */
  lemma PaidPeriodEndsForGood(c: Catalog, b: Books, account: string, now: int, answer: ChainAnswer, later: int,
                              answers: ChainAnswer)
    requires PaidPeriodOver(c, b, account, now) && Mirrored(c, b, account, now, answer).None?
    requires var after := Settled(c, b, account, now, answer).0; Mirrored(c, after, account, later, answers).None?
    ensures var after := Settled(c, b, account, now, answer).0; Settled(c, after, account, later, answers).0 == after
  {
    PaidPeriodEnds(c, b, account, now, answer);
  }

  // ---------- accounts whose periods end at one instant ----------

  /** An end is recorded by an account exactly when it was recorded before, or this account had a grant left. */
  lemma EndIsRecorded(c: Catalog, b: Books, account: string, now: int, answer: ChainAnswer, other: string)
    requires PaidPeriodOver(c, b, account, now) && Mirrored(c, b, account, now, answer).None? && other != account
    ensures
      var end, after := EndOf(b.subscriptions[account]), Settled(c, b, account, now, answer).0;
      && (Recorded(after.ledger, end) <==> Recorded(b.ledger, end) || BalanceOf(account, b.Rows(account)).granted > 0)
      && after.Rows(other) == b.Rows(other)
  {
    var s := b.subscriptions[account];
    var row := Entry(account, Expiry, -BalanceOf(account, b.Rows(account)).granted, now, 0, EndOf(s));
    RecordTwice(b.ledger, row);
    OfAppend(b.ledger, row, other);
  }

  /**
   Of two accounts on one paid plan whose periods end at one instant, the second to be settled
   keeps its whole grant exactly when the first had any left to take back, or the key of that
   end was taken before either; yet its subscription has ended.
   */
  lemma SharedEndKeepsTheGrant(c: Catalog, b: Books, first: string, second: string, now: int, one: ChainAnswer,
                               two: ChainAnswer)
    requires PaidPeriodOver(c, b, first, now) && PaidPeriodOver(c, b, second, now) && first != second
    requires EndOf(b.subscriptions[first]) == EndOf(b.subscriptions[second])
    requires Mirrored(c, b, first, now, one).None? && Mirrored(c, b, second, now, two).None?
    ensures
      var after := BothSettled(c, b, first, second, now, one, two);
      var was := BalanceOf(second, b.Rows(second));
      var taken := Recorded(b.ledger, EndOf(b.subscriptions[second])) || BalanceOf(first, b.Rows(first)).granted > 0;
      && BalanceOf(second, after.Rows(second)) == Balance(second, if taken then was.granted else 0, was.purchased)
      && HasEnded(after, first) && HasEnded(after, second)
  {
    PaidPeriodEnds(c, b, first, now, one);
    EndIsRecorded(c, b, first, now, one, second);
    PaidPeriodEnds(c, Settled(c, b, first, now, one).0, second, now, two);
  }

  function BothSettled(c: Catalog, b: Books, first: string, second: string, now: int, one: ChainAnswer,
                       two: ChainAnswer): Books {
    Settled(c, Settled(c, b, first, now, one).0, second, now, two).0
  }

  predicate HasEnded(b: Books, account: string) {
    match b.SubscriptionOf(account)
    case None => false
    case Some(s) => s.status.Expired?
  }

  /** Two stretches of one plan that started at different seconds and end at the same one. */
  predicate EndTogether(plan: Plan, one: ChainAnswer, two: ChainAnswer) {
    one.Reports? && two.Reports? && one.plan == two.plan == plan.id
    && one.started != two.started && one.expires == two.expires
  }

  function MirrorRow(account: string, plan: Plan, answer: ChainAnswer, now: int): Entry
    requires answer.Reports?
  {
    Entry(account, Grant, plan.tokens, now, 0, OnChain(answer.plan, answer.started))
  }

  function MirrorOf(account: string, plan: Plan, answer: ChainAnswer): Subscription
    requires answer.Reports?
  {
    Subscription(account, plan.id, answer.started * SECOND, answer.expires * SECOND, Active)
  }

  lemma BothAreGranted(c: Catalog, plan: Plan, first: string, second: string, one: ChainAnswer, two: ChainAnswer,
                       seen: int)
    requires c.Plan(plan.id) == Some(plan) && first != second && EndTogether(plan, one, two)
    requires seen < one.expires * SECOND
    ensures BothSettled(c, EMPTY, first, second, seen, one, two) ==
            Books([MirrorRow(first, plan, one, seen), MirrorRow(second, plan, two, seen)], map[],
                  map[first := MirrorOf(first, plan, one), second := MirrorOf(second, plan, two)])
  {
    var row := MirrorRow(first, plan, one, seen);
    var b := Settled(c, EMPTY, first, seen, one).0;
    assert b == Books([] + [row], map[], map[first := MirrorOf(first, plan, one)]);
    assert b.ledger == [row];
  }

  lemma RowsOfTwo(one: Entry, two: Entry)
    requires one.account != two.account
    ensures Of([one, two], one.account) == [one] && Of([one, two], two.account) == [two]
  {
    assert [one, two] == [] + [one] + [two];
    OfAppend([], one, one.account);
    OfAppend([], one, two.account);
    OfAppend([] + [one], two, one.account);
    OfAppend([] + [one], two, two.account);
  }

  lemma BothAreOver(c: Catalog, plan: Plan, first: string, second: string, one: ChainAnswer, two: ChainAnswer,
                    seen: int, over: int)
    requires c.Plan(plan.id) == Some(plan) && !plan.IsFree() && plan.tokens > 0 && first != second
    requires EndTogether(plan, one, two) && seen < one.expires * SECOND <= over
    ensures
      var b := BothSettled(c, EMPTY, first, second, seen, one, two);
      && PaidPeriodOver(c, b, first, over) && PaidPeriodOver(c, b, second, over)
      && EndOf(b.subscriptions[first]) == EndOf(b.subscriptions[second])
      && BalanceOf(first, b.Rows(first)).granted == plan.tokens
      && BalanceOf(second, b.Rows(second)).granted == plan.tokens
  {
    BothAreGranted(c, plan, first, second, one, two, seen);
    RowsOfTwo(MirrorRow(first, plan, one, seen), MirrorRow(second, plan, two, seen));
    OneGrantRow(MirrorRow(first, plan, one, seen), first);
    OneGrantRow(MirrorRow(second, plan, two, seen), second);
  }

  /** And such accounts are reached: one that extended its stretch, and one that subscribed later for as long. */
  lemma ExtendedPeriodsCollide(c: Catalog, plan: Plan, first: string, second: string,
                               one: ChainAnswer, two: ChainAnswer, seen: int, over: int)
    requires c.Plan(plan.id) == Some(plan) && !plan.IsFree() && plan.tokens > 0 && first != second
    requires EndTogether(plan, one, two) && seen < one.expires * SECOND <= over
    ensures
      var after := BothSettled(c, BothSettled(c, EMPTY, first, second, seen, one, two), first, second, over, one, two);
      HasEnded(after, second) && BalanceOf(second, after.Rows(second)).granted == plan.tokens
  {
    BothAreOver(c, plan, first, second, one, two, seen, over);
    SharedEndKeepsTheGrant(c, BothSettled(c, EMPTY, first, second, seen, one, two), first, second, over, one, two);
  }

  lemma OneGrantRow(row: Entry, account: string)
    requires row.kind.Grant? && row.tokens >= 0
    ensures Lawful([row]) && BalanceOf(account, [row]) == Balance(account, row.tokens, 0)
  {
    ReplayAppend([], row);
    assert [] + [row] == [row];
  }

  // ---------- when the free plan grants ----------

  predicate GrantsFreeWeek(before: seq<Entry>, after: seq<Entry>) {
    exists n :: |before| <= n < |after| && after[n].reference.ForGrant?
  }

  /** No subscription row yet, or an active free one that is due; and the key of the new week is free. */
  predicate FreeWeekDue(c: Catalog, b: Books, account: string, now: int) {
    match b.SubscriptionOf(account)
    case None =>
      c.FreePlan().Some? && !Recorded(b.ledger, ForGrant(c.FreePlan().value.id, now + c.FreePlan().value.Period()))
    case Some(s) =>
      && s.Due(now) && c.Plan(s.planId).Some? && c.Plan(s.planId).value.IsFree()
      && !Recorded(b.ledger, ForGrant(s.planId, now + c.Plan(s.planId).value.Period()))
  }

  /** A settling grants a free week exactly when nothing is live on chain and one is due; an ended plan never is. */
  lemma FreeWeekGrantedIffDue(c: Catalog, b: Books, account: string, now: int, answer: ChainAnswer)
    ensures b.ledger <= Settled(c, b, account, now, answer).0.ledger
    ensures GrantsFreeWeek(b.ledger, Settled(c, b, account, now, answer).0.ledger) <==>
            Mirrored(c, b, account, now, answer).None? && FreeWeekDue(c, b, account, now)
  {
    var after := Settled(c, b, account, now, answer).0.ledger;
    if Mirrored(c, b, account, now, answer).None? {
      match b.SubscriptionOf(account)
      case None =>
        if c.FreePlan().Some? && after != b.ledger {
          assert after[|b.ledger|].reference.ForGrant?;
        }
      case Some(s) =>
        if s.Due(now) {
          ClosingGrantsIffDue(c, b, account, s, now);
        }
    }
  }

  lemma ClosingGrantsIffDue(c: Catalog, b: Books, account: string, s: Subscription, now: int)
    requires b.SubscriptionOf(account) == Some(s) && s.Due(now)
    ensures b.ledger <= Closed(c, b, account, s, now).0.ledger
    ensures GrantsFreeWeek(b.ledger, Closed(c, b, account, s, now).0.ledger) <==> FreeWeekDue(c, b, account, now)
  {
    var expired, after := GrantExpired(b, account, s, now).ledger, Closed(c, b, account, s, now).0.ledger;
    if c.Plan(s.planId).Some? && c.Plan(s.planId).value.IsFree() {
      var plan := c.Plan(s.planId).value;
      var expiry := Entry(account, Expiry, -BalanceOf(account, b.Rows(account)).granted, now, 0,
                          ForExpiry(s.planId, s.renewsAt));
      OtherKeysStay(b.ledger, expiry, ForGrant(s.planId, now + plan.Period()));
      if after != expired {
        assert after[|expired|].reference.ForGrant?;
      }
    }
  }
}
