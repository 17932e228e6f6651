/** Weeks of a free account as the service lives them: whatever is written in each, and a settling at its end. */
module WeeklySettling {
  import opened Prelude
  import opened Ledger
  import opened Catalog
  import opened Store
  import opened Billing
  import opened Settlement

  /** What is recorded in a week, for any account, and the settling that ends it. */
  datatype Spell = Spell(between: seq<Entry>, at: int, answer: ChainAnswer)

  function RecordAll(b: Books, rows: seq<Entry>): Books {
    if rows == [] then b else RecordAll(b, rows[..|rows| - 1]).Record(rows[|rows| - 1])
  }

  /** The books as the last settling finds them, and as it leaves them. */
  function Found(c: Catalog, b: Books, account: string, spells: seq<Spell>): Books
    requires spells != []
    decreases |spells|, 0
  {
    RecordAll(Lived(c, b, account, spells[..|spells| - 1]), spells[|spells| - 1].between)
  }

  function Lived(c: Catalog, b: Books, account: string, spells: seq<Spell>): Books
    decreases |spells|, 1
  {
    if spells == [] then b
    else
      var last := spells[|spells| - 1];
      Settled(c, Found(c, b, account, spells), account, last.at, last.answer).0
  }

  /** Each settling finds a free period over and nothing live on chain. */
  ghost predicate DueEachTime(c: Catalog, b: Books, account: string, spells: seq<Spell>)
    decreases |spells|
  {
    spells == []
    || (var last := spells[|spells| - 1];
        && DueEachTime(c, b, account, spells[..|spells| - 1])
        && FreeRenewalDue(c, Found(c, b, account, spells), account, last.at)
        && Mirrored(c, Found(c, b, account, spells), account, last.at, last.answer).None?)
  }

  /** A week in which these rows landed on the account, and the renewal its end finds due. */
  function WeekFor(c: Catalog, found: Books, account: string, landed: seq<Entry>, at: int): Week
    requires account in found.subscriptions && c.Plan(found.subscriptions[account].planId).Some?
  {
    var s := found.subscriptions[account];
    var plan := c.Plan(s.planId).value;
    Week(landed, plan.tokens, at, ForExpiry(s.planId, s.renewsAt), ForGrant(s.planId, at + plan.Period()),
         LandingOf(c, found, account, at))
  }

  ghost function WeekOf(c: Catalog, b: Books, account: string, spells: seq<Spell>): Week
    requires spells != [] && DueEachTime(c, b, account, spells)
  {
    var last := spells[|spells| - 1];
    WeekFor(c, Found(c, b, account, spells), account,
            Landed(Lived(c, b, account, spells[..|spells| - 1]), last.between, account), last.at)
  }

  function Ended(rows: seq<Entry>, account: string, week: Week): seq<Entry> {
    RenewRows(rows + week.between, account, week.tokens, week.at, week.closing, week.opening, week.landing)
  }

  lemma SettlingEndsTheWeek(c: Catalog, found: Books, account: string, rows: seq<Entry>, landed: seq<Entry>,
                            at: int, answer: ChainAnswer)
    requires FreeRenewalDue(c, found, account, at) && Mirrored(c, found, account, at, answer).None?
    requires found.Rows(account) == rows + landed
    ensures Settled(c, found, account, at, answer).0.Rows(account) ==
            Ended(rows, account, WeekFor(c, found, account, landed, at))
  {
    RenewalWritesTheseRows(c, found, account, at, answer);
  }

  ghost function WeeksOf(c: Catalog, b: Books, account: string, spells: seq<Spell>): (weeks: seq<Week>)
    requires DueEachTime(c, b, account, spells)
    ensures |weeks| == |spells|
  {
    if spells == [] then []
    else WeeksOf(c, b, account, spells[..|spells| - 1]) + [WeekOf(c, b, account, spells)]
  }

  /** The rows of `rows` that are written for an account when all are recorded. */
  function Landed(b: Books, rows: seq<Entry>, account: string): seq<Entry> {
    if rows == [] then []
    else
      var before, row := rows[..|rows| - 1], rows[|rows| - 1];
      Landed(b, before, account) +
      (if row.account == account && !Refused(RecordAll(b, before).ledger, row) then [row] else [])
  }

  lemma {:induction false} RecordingLands(b: Books, rows: seq<Entry>, account: string)
    ensures RecordAll(b, rows).Rows(account) == b.Rows(account) + Landed(b, rows, account)
    ensures RecordAll(b, rows).subscriptions == b.subscriptions
  {
    if rows == [] {
      assert b.Rows(account) + [] == b.Rows(account);
    } else {
      var before, row := rows[..|rows| - 1], rows[|rows| - 1];
      RecordingLands(b, before, account);
      OfAppend(RecordAll(b, before).ledger, row, account);
      Regroup(b.Rows(account), Landed(b, before, account), [row]);
    }
  }

  /** However long it goes on, the account's rows are those weeks' rows. */
  lemma {:induction false} WeeksAreSettlings(c: Catalog, b: Books, account: string, spells: seq<Spell>)
    requires DueEachTime(c, b, account, spells)
    ensures Lived(c, b, account, spells).Rows(account) ==
            Weeks(b.Rows(account), account, WeeksOf(c, b, account, spells))
  {
    if spells != [] {
      var before := spells[..|spells| - 1];
      WeeksAreSettlings(c, b, account, before);
      OneWeekIsASettling(c, b, account, spells);
      OneMoreWeekOfRows(b.Rows(account), account, WeeksOf(c, b, account, before), WeekOf(c, b, account, spells));
    }
  }

  lemma OneWeekIsASettling(c: Catalog, b: Books, account: string, spells: seq<Spell>)
    requires spells != [] && DueEachTime(c, b, account, spells)
    ensures
      Lived(c, b, account, spells).Rows(account) ==
      Ended(Lived(c, b, account, spells[..|spells| - 1]).Rows(account), account, WeekOf(c, b, account, spells))
  {
    var last, before := spells[|spells| - 1], Lived(c, b, account, spells[..|spells| - 1]);
    RecordingLands(before, last.between, account);
    SettlingEndsTheWeek(c, Found(c, b, account, spells), account, before.Rows(account),
                        Landed(before, last.between, account), last.at, last.answer);
  }

  lemma {:induction false} LandedIsLawful(b: Books, rows: seq<Entry>, account: string)
    requires Lawful(rows) && NoExpiry(rows)
    ensures Lawful(Landed(b, rows, account)) && NoExpiry(Landed(b, rows, account))
  {
    if rows != [] {
      LandedIsLawful(b, rows[..|rows| - 1], account);
    }
  }

  ghost predicate OnlyActivity(spells: seq<Spell>) {
    forall n :: 0 <= n < |spells| ==> Lawful(spells[n].between) && NoExpiry(spells[n].between)
  }

  lemma {:induction false} WeeksAreLawful(c: Catalog, b: Books, account: string, spells: seq<Spell>)
    requires DueEachTime(c, b, account, spells) && OnlyActivity(spells)
    ensures forall n :: 0 <= n < |spells| ==>
              Lawful(WeeksOf(c, b, account, spells)[n].between) && NoExpiry(WeeksOf(c, b, account, spells)[n].between)
  {
    if spells != [] {
      var before, last := spells[..|spells| - 1], spells[|spells| - 1];
      assert OnlyActivity(before);
      WeeksAreLawful(c, b, account, before);
      LandedIsLawful(Lived(c, b, account, before), last.between, account);
    }
  }

  /**
   Any number of weeks of a free account: right after each settling it holds everything it
   bought and did not spend, and at most one grant unless its expiry's key was taken, and what
   it overspent is still counted against it, whichever keys other accounts had taken.
   */
  lemma AfterEveryWeek(c: Catalog, b: Books, account: string, spells: seq<Spell>)
    requires spells != [] && DueEachTime(c, b, account, spells) && OnlyActivity(spells)
    requires Lawful(b.Rows(account)) && Clamped(b.Rows(account)) == 0
    ensures
      WeekEnded(Found(c, b, account, spells).Rows(account), account, WeekOf(c, b, account, spells),
                Lived(c, b, account, spells).Rows(account))
  {
    var before, last := spells[..|spells| - 1], spells[|spells| - 1];
    var weeks, week := WeeksOf(c, b, account, before), WeekOf(c, b, account, spells);
    WeeksAreSettlings(c, b, account, spells);
    WeeksAreSettlings(c, b, account, before);
    RecordingLands(Lived(c, b, account, before), last.between, account);
    WeeksAreLawful(c, b, account, spells);
    SpendingWeeks(b.Rows(account), account, weeks + [week]);
    assert (weeks + [week])[..|weeks|] == weeks;
  }

  // ---------- weeks in which both rows land ----------

  /** No row holds a later week's keys of the account's plan, its own or another's. */
  ghost predicate KeysAreBehind(ledger: seq<Entry>, s: Subscription) {
    forall n :: 0 <= n < |ledger| ==>
      && (ledger[n].reference.ForGrant? && ledger[n].reference.plan == s.planId ==>
            ledger[n].reference.renewsAt <= s.renewsAt)
      && (ledger[n].reference.ForExpiry? && ledger[n].reference.plan == s.planId ==>
            ledger[n].reference.renewsAt < s.renewsAt)
  }

  lemma RenewingKeepsKeysBehind(c: Catalog, b: Books, account: string, now: int, answer: ChainAnswer)
    requires FreeRenewalDue(c, b, account, now) && Mirrored(c, b, account, now, answer).None?
    requires KeysAreBehind(b.ledger, b.subscriptions[account])
    ensures LandingOf(c, b, account, now) == BOTH
    ensures
      var after := Settled(c, b, account, now, answer).0;
      && account in after.subscriptions && after.subscriptions[account].planId == b.subscriptions[account].planId
      && KeysAreBehind(after.ledger, after.subscriptions[account])
  {
  }

  /** Spells with nothing in between: an account that is only read. */
  ghost predicate OnlyRead(spells: seq<Spell>) {
    forall n :: 0 <= n < |spells| ==> spells[n].between == []
  }

  ghost function PeriodsOf(weeks: seq<Week>): seq<(int, Reference, Reference)> {
    if weeks == [] then []
    else
      var last := weeks[|weeks| - 1];
      PeriodsOf(weeks[..|weeks| - 1]) + [(last.at, last.closing, last.opening)]
  }

  ghost predicate AlikeAndLanding(weeks: seq<Week>, tokens: nat) {
    forall n :: 0 <= n < |weeks| ==> weeks[n].between == [] && weeks[n].tokens == tokens && weeks[n].landing == BOTH
  }

  /** Idle weeks in which both rows land are renewals and nothing else. */
  lemma {:induction false} IdleWeeksAreRenewals(rows: seq<Entry>, account: string, tokens: nat, weeks: seq<Week>)
    requires AlikeAndLanding(weeks, tokens)
    ensures Weeks(rows, account, weeks) == Renewals(rows, account, tokens, PeriodsOf(weeks))
    ensures |PeriodsOf(weeks)| == |weeks|
  {
    if weeks != [] {
      var before, last := weeks[..|weeks| - 1], weeks[|weeks| - 1];
      IdleWeeksAreRenewals(rows, account, tokens, before);
      OneMoreRenewal(rows, account, tokens, PeriodsOf(before), last.at, last.closing, last.opening);
      assert Weeks(rows, account, before) + last.between == Weeks(rows, account, before);
    }
  }

  ghost predicate OnPlan(c: Catalog, b: Books, account: string, plan: Plan) {
    && account in b.subscriptions && c.Plan(b.subscriptions[account].planId) == Some(plan)
    && KeysAreBehind(b.ledger, b.subscriptions[account])
  }

  lemma {:induction false} IdleWeeksLand(c: Catalog, b: Books, account: string, spells: seq<Spell>, plan: Plan)
    requires DueEachTime(c, b, account, spells) && OnlyRead(spells) && OnPlan(c, b, account, plan)
    ensures OnPlan(c, Lived(c, b, account, spells), account, plan)
    ensures AlikeAndLanding(WeeksOf(c, b, account, spells), plan.tokens)
  {
    if spells != [] {
      var before, last := spells[..|spells| - 1], spells[|spells| - 1];
      IdleWeeksLand(c, b, account, before, plan);
      assert last.between == [];
      assert Found(c, b, account, spells) == Lived(c, b, account, before);
      RenewingKeepsKeysBehind(c, Found(c, b, account, spells), account, last.at, last.answer);
    }
  }

  /**
   So an account that is only read, whose plan's later keys nobody holds, works a debt off grant
   by grant and otherwise holds one grant, however many weeks it is settled for.
   */
  lemma IdleWeeks(c: Catalog, b: Books, account: string, spells: seq<Spell>, plan: Plan)
    requires spells != [] && DueEachTime(c, b, account, spells) && OnlyRead(spells)
    requires OnPlan(c, b, account, plan)
    requires Lawful(b.Rows(account)) && Clamped(b.Rows(account)) == 0
    ensures WorkedOff(b.Rows(account), account, plan.tokens, |spells| * plan.tokens,
                      Lived(c, b, account, spells).Rows(account))
  {
    var weeks := WeeksOf(c, b, account, spells);
    WeeksAreSettlings(c, b, account, spells);
    IdleWeeksLand(c, b, account, spells, plan);
    IdleWeeksAreRenewals(b.Rows(account), account, plan.tokens, weeks);
    ManyRenewals(b.Rows(account), account, plan.tokens, PeriodsOf(weeks));
  }
}
